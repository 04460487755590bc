/**
 * What the pipeline guarantees in every state any run can reach: any interleaving of uploads, seeds,
 * overlapping reprocesses, retries, lost replies, final failures, stragglers and deletes.
 */
module Guarantees {
  import opened Wrappers
  import opened Keys
  import opened Rounding
  import opened Tables
  import opened Machine
  import opened JobInvariant
  import opened PipelineInvariant
  import opened Budget

  function Reached(c: Codec, acts: seq<Action>): State {
    Exec(c, INITIAL, acts)
  }

  // ---- The process table after a step ------------------------------------------------------------------

  /** What becomes of the process resumed. */
  lemma {:induction false} SelfAfter(c: Codec, s: State, a: Action)
    requires Inv(c, s) && a.Resume? && Enabled(s, a)
    ensures var self, procs' := ProcTurn(c, s, s.procs[a.pid], a.choice).self, Step(c, s, a).procs;
            (a.pid in procs' <==> self.Some?) && (self.Some? ==> procs'[a.pid] == self.value)
  {
    ApplyMembers(s, a.pid, ProcTurn(c, s, s.procs[a.pid], a.choice));
  }

  /** And where another process comes from. */
  lemma {:induction false} SpawnedAt(c: Codec, s: State, a: Action, pid: nat)
    requires Inv(c, s) && a.Resume? && Enabled(s, a) && pid !in s.procs && pid in Step(c, s, a).procs
    ensures s.next <= pid < Step(c, s, a).next
    ensures Step(c, s, a).procs[pid] in ProcTurn(c, s, s.procs[a.pid], a.choice).spawned
  {
    var t := ProcTurn(c, s, s.procs[a.pid], a.choice);
    ApplyMembers(s, a.pid, t);
    assert Step(c, s, a).procs[s.next + (pid - s.next)] == t.spawned[pid - s.next];
  }

  lemma {:induction false} OthersAfter(c: Codec, s: State, a: Action, pid: nat)
    requires Inv(c, s) && a.Resume? && Enabled(s, a) && pid != a.pid && pid in s.procs
    ensures pid in Step(c, s, a).procs && Step(c, s, a).procs[pid] == s.procs[pid]
  {
    ApplyMembers(s, a.pid, ProcTurn(c, s, s.procs[a.pid], a.choice));
  }

  // ---- Confluence ------------------------------------------------------------------------------------

  /** Whoever wrote it last, and however often: an object holds what one sequential run would put there -- the
      upload, its HEIC copy, the upload normalized, that compressed, and that resized to the width of the size. */
  lemma {:induction false} Confluence(c: Codec, acts: seq<Action>, k: Key)
    ensures var s := Reached(c, acts);
            k in s.w.objects ==>
              && k.imageId in s.srcs && k.userId == s.srcs[k.imageId].userId
              && var src, body := s.srcs[k.imageId], s.w.objects[k];
                 match k.kind
                 case Original(ext) => ext == src.ext && body == src.bytes
                 case Display(ext) => ext == src.ext && body == (c.heicToJpeg)(src.bytes)
                 case Normalized => body == (c.normalize)(src.bytes, src.mimeType).buffer
                 case Compressed => body == (c.compress)((c.normalize)(src.bytes, src.mimeType).buffer).buffer
                 case Variant(t) =>
                   body == (c.resize)((c.compress)((c.normalize)(src.bytes, src.mimeType).buffer).buffer,
                                      (c.width)(t)).buffer
  {
    RunKeepsInv(c, acts);
    var s := Reached(c, acts);
    if k in s.w.objects { assert ObjectOk(c, s.srcs, k, s.w.objects[k]); }
  }

  /** Every variant row has its image, sits alone in its (imageId, type) slot and describes the stored
      object: key, dimensions and size. */
  lemma {:induction false} VariantRowsAreTrue(c: Codec, acts: seq<Action>, n: nat)
    ensures var s := Reached(c, acts);
            n < |s.w.variants| ==>
              var v := s.w.variants[n];
              && v.imageId in s.w.images && v.imageId in s.srcs
              && v.s3Key == Key(s.w.images[v.imageId].userId, v.imageId, Variant(v.vtype))
              && v.s3Key in s.w.objects
              && v.sizeBytes == |s.w.objects[v.s3Key]|
              && (var src := s.srcs[v.imageId];
                  var small := (c.compress)((c.normalize)(src.bytes, src.mimeType).buffer).buffer;
                  var out := (c.resize)(small, (c.width)(v.vtype));
                  s.w.objects[v.s3Key] == out.buffer && v.width == out.width && v.height == out.height)
              && (forall m :: 0 <= m < |s.w.variants| && SameSlot(s.w.variants[m], v) ==> m == n)
  {
    RunKeepsInv(c, acts);
    var s := Reached(c, acts);
    if n < |s.w.variants| {
      var v := s.w.variants[n];
      assert VariantOk(c, s.srcs, s.w, v);
      assert RowOk(c, s.srcs, s.w, v.imageId);
      assert ObjectOk(c, s.srcs, v.s3Key, s.w.objects[v.s3Key]);
    }
  }

  lemma {:induction false} RowsOfMembers(rows: seq<VariantRow>, i: ImageId)
    requires SlotsDistinct(rows)
    ensures forall v :: v in RowsOf(rows, i) <==> v in rows && v.imageId == i
    ensures SlotsDistinct(RowsOf(rows, i))
  {
    if rows != [] {
      TailDistinct(rows);
      RowsOfMembers(rows[1..], i);
      var rest := RowsOf(rows[1..], i);
      assert forall v :: v in rows <==> v == rows[0] || v in rows[1..];
      if rows[0].imageId == i {
        ConsDistinct(rows[0], rest);
        assert RowsOf(rows, i) == [rows[0]] + rest;
      } else {
        assert RowsOf(rows, i) == rest;
      }
    }
  }

  function VariantsOf(c: Codec, src: Source, i: ImageId): multiset<VariantRow> {
    multiset{VariantOf(c, src, i, THUMBNAIL), VariantOf(c, src, i, WEB), VariantOf(c, src, i, FULL)}
  }

  lemma {:induction false} FilledSlots(c: Codec, srcs: Sources, w: World, i: ImageId)
    requires WorldOk(c, srcs, w) && i in srcs && HasAllVariants(w, i)
    ensures multiset(RowsOf(w.variants, i)) == VariantsOf(c, srcs[i], i)
  {
    var rows := RowsOf(w.variants, i);
    RowsOfMembers(w.variants, i);
    SlotIsFilled(c, srcs, w, i, THUMBNAIL);
    SlotIsFilled(c, srcs, w, i, WEB);
    SlotIsFilled(c, srcs, w, i, FULL);
    forall v | v in rows ensures v == VariantOf(c, srcs[i], i, v.vtype) {
      assert v in w.variants && VariantOk(c, srcs, w, v);
    }
    ExactlyThree(rows, VariantOf(c, srcs[i], i, THUMBNAIL), VariantOf(c, srcs[i], i, WEB),
      VariantOf(c, srcs[i], i, FULL));
  }

  /** A COMPLETED image has exactly the three variants of a sequential run, each with its object, and no
      pipeline error. */
  lemma {:induction false} CompletedMeansComplete(c: Codec, acts: seq<Action>, i: ImageId)
    ensures var s := Reached(c, acts);
            i in s.w.images && s.w.images[i].status.COMPLETED? ==>
              && i in s.srcs
              && multiset(RowsOf(s.w.variants, i)) == VariantsOf(c, s.srcs[i], i)
              && (forall t :: VariantOf(c, s.srcs[i], i, t).s3Key in s.w.objects)
              && s.w.images[i].processingError.None?
  {
    RunKeepsInv(c, acts);
    var s := Reached(c, acts);
    if i in s.w.images && s.w.images[i].status.COMPLETED? {
      assert RowOk(c, s.srcs, s.w, i);
      FilledSlots(c, s.srcs, s.w, i);
      forall t ensures VariantOf(c, s.srcs[i], i, t).s3Key in s.w.objects {
        SlotIsFilled(c, s.srcs, s.w, i, t);
      }
    }
  }

  lemma {:induction false} SlotIsFilled(c: Codec, srcs: Sources, w: World, i: ImageId, t: VariantType)
    requires WorldOk(c, srcs, w) && i in srcs && HasAllVariants(w, i)
    ensures VariantOf(c, srcs[i], i, t) in w.variants && VariantOf(c, srcs[i], i, t).s3Key in w.objects
  {
    assert HasVariant(w, i, t);
    var n :| 0 <= n < |w.variants| && w.variants[n].imageId == i && w.variants[n].vtype == t;
    assert VariantOk(c, srcs, w, w.variants[n]);
  }

  lemma {:induction false} ExactlyThree(rows: seq<VariantRow>, a: VariantRow, b: VariantRow, d: VariantRow)
    requires SlotsDistinct(rows) && a in rows && b in rows && d in rows
    requires forall v :: v in rows ==> v == a || v == b || v == d
    requires a != b && b != d && a != d
    ensures multiset(rows) == multiset{a, b, d}
  {
    OncePerSlot(rows, a);
    OncePerSlot(rows, b);
    OncePerSlot(rows, d);
    forall v ensures multiset(rows)[v] == multiset{a, b, d}[v] {
      if v !in rows { assert v !in multiset(rows); }
    }
  }

  lemma {:induction false} OncePerSlot(rows: seq<VariantRow>, v: VariantRow)
    requires SlotsDistinct(rows) && v in rows
    ensures multiset(rows)[v] == 1
  {
    assert rows == [rows[0]] + rows[1..];
    TailDistinct(rows);
    if rows[0] == v {
      assert v !in rows[1..];
    } else {
      OncePerSlot(rows[1..], v);
    }
  }

  /** The accounting of a live row is that of a sequential run, and of the two stored objects: the bytes of the
      compressed one, and the ratio of the two sizes. */
  lemma {:induction false} CompressionIsTrue(c: Codec, acts: seq<Action>, i: ImageId)
    ensures var s := Reached(c, acts);
            i in s.w.images && s.w.images[i].compressedKey.Some? ==>
              && i in s.srcs && s.w.images[i].compression == Some(CompressionOf(c, s.srcs[i]))
              && var before, after := Key(s.srcs[i].userId, i, Normalized), Key(s.srcs[i].userId, i, Compressed);
                 && before in s.w.objects && after in s.w.objects
                 && var figures := s.w.images[i].compression.value;
                    && figures.bytes == |s.w.objects[after]|
                    && figures.ratio == StoredRatio(|s.w.objects[after]|, |s.w.objects[before]|)
  {
    RunKeepsInv(c, acts);
    var s := Reached(c, acts);
    if i in s.w.images && s.w.images[i].compressedKey.Some? {
      assert RowOk(c, s.srcs, s.w, i);
      var before, after := Key(s.srcs[i].userId, i, Normalized), Key(s.srcs[i].userId, i, Compressed);
      assert ObjectOk(c, s.srcs, before, s.w.objects[before]);
      assert ObjectOk(c, s.srcs, after, s.w.objects[after]);
    }
  }

  /** A refused or failed row says why: REJECTED keeps its reasons, FAILED has reasons or an error tagged
      with the stage that gave up; and nothing in progress or complete shows an old error. */
  lemma {:induction false} EndingsAreExplained(c: Codec, acts: seq<Action>, i: ImageId)
    ensures var s := Reached(c, acts);
            i in s.w.images ==>
              var row := s.w.images[i];
              && (row.status.REJECTED? ==> row.rejectionReasons.Some? && row.rejectionReasons.value != [])
              && (row.status.FAILED? ==>
                    || (row.rejectionReasons.Some? && row.rejectionReasons.value != [])
                    || (row.processingError.Some? && NamesStage(row.processingError.value)))
              && (InStage(row.status) || row.status.COMPLETED? ==> row.processingError.None?)
  {
    RunKeepsInv(c, acts);
    var s := Reached(c, acts);
    if i in s.w.images { assert RowOk(c, s.srcs, s.w, i); }
  }

  // ---- References ----------------------------------------------------------------------------------------

  /** Every output key a live row holds names an existing object, under the row's own prefix. */
  lemma {:induction false} OutputKeysResolve(c: Codec, acts: seq<Action>, i: ImageId)
    ensures var s := Reached(c, acts);
            i in s.w.images ==>
              var row := s.w.images[i];
              && (row.normalizedKey.Some? ==>
                    row.normalizedKey.value == Key(row.userId, i, Normalized) && row.normalizedKey.value in s.w.objects)
              && (row.compressedKey.Some? ==>
                    row.compressedKey.value == Key(row.userId, i, Compressed) && row.compressedKey.value in s.w.objects)
              && (row.compressedKey.Some? ==> row.normalizedKey.Some?)
  {
    RunKeepsInv(c, acts);
    var s := Reached(c, acts);
    if i in s.w.images { assert RowOk(c, s.srcs, s.w, i); }
  }

  /** No step of a remove call touches anything of another image, nor any derived object at all. */
  lemma {:induction false} RemoveIsLocal(c: Codec, acts: seq<Action>, pid: nat, ch: Choice)
    ensures var s := Reached(c, acts);
            var s' := Step(c, s, Resume(pid, ch));
            pid in s.procs && s.procs[pid].Removing? ==>
              var i := s.procs[pid].imageId;
              && (forall k :: k in s.w.objects && (k.imageId != i || Derived(k)) ==>
                    k in s'.w.objects && s'.w.objects[k] == s.w.objects[k])
              && (forall k :: k in s'.w.objects ==> k in s.w.objects)
              && (forall j :: j != i && j in s.w.images ==> j in s'.w.images && s'.w.images[j] == s.w.images[j])
              && (forall v :: v in s.w.variants && v.imageId != i ==> v in s'.w.variants)
              && (i !in s'.w.images ==> forall v :: v in s'.w.variants ==> v.imageId != i)
  {
    RunKeepsInv(c, acts);
    var s := Reached(c, acts);
    if pid in s.procs && s.procs[pid].Removing? {
      var p := s.procs[pid];
      assert ProcOk(c, s.srcs, s.born, s.w, p);
      if Resumes(p, ch) {
        StepWorld(c, s, pid, ch);
        RemoveTurnIsLocal(s, p, ch);
        GoneWithTheRow(c, s, p, ch);
      } else {
        RowsHaveImages(c, s);
      }
    }
  }

  lemma {:induction false} StepWorld(c: Codec, s: State, pid: nat, ch: Choice)
    requires pid in s.procs && s.procs[pid].Removing? && Resumes(s.procs[pid], ch)
    ensures Step(c, s, Resume(pid, ch)).w == RemoveTurn(s, s.procs[pid], ch).world
  {
  }

  lemma {:induction false} RowsHaveImages(c: Codec, s: State)
    requires TablesOk(c, s)
    ensures forall v :: v in s.w.variants ==> v.imageId in s.w.images
  {
    forall v | v in s.w.variants ensures v.imageId in s.w.images {
      assert VariantOk(c, s.srcs, s.w, v);
    }
  }

  lemma {:induction false} RemoveTurnIsLocal(s: State, p: Proc, ch: Choice)
    requires p.Removing? && VictimOk(s.srcs, p.imageId, p.remove)
    ensures var w, w', i := s.w, RemoveTurn(s, p, ch).world, p.imageId;
            && (forall k :: k in w.objects && (k.imageId != i || Derived(k)) ==>
                  k in w'.objects && w'.objects[k] == w.objects[k])
            && (forall k :: k in w'.objects ==> k in w.objects)
            && (forall j :: j != i && j in w.images ==> j in w'.images && w'.images[j] == w.images[j])
            && (forall v :: v in w.variants && v.imageId != i ==> v in w'.variants)
  {
    CascadeRows(s.w.variants, p.imageId);
  }

  lemma {:induction false} RemoveTurnVariants(s: State, p: Proc, ch: Choice)
    requires p.Removing?
    ensures var w' := RemoveTurn(s, p, ch).world;
            if p.imageId in s.w.images && p.imageId !in w'.images
            then w'.variants == WithoutImage(s.w.variants, p.imageId)
            else w'.variants == s.w.variants
  {
  }

  lemma {:induction false} GoneWithTheRow(c: Codec, s: State, p: Proc, ch: Choice)
    requires TablesOk(c, s) && p.Removing?
    ensures var w' := RemoveTurn(s, p, ch).world;
            p.imageId !in w'.images ==> forall v :: v in w'.variants ==> v.imageId != p.imageId
  {
    RemoveTurnVariants(s, p, ch);
    CascadeRows(s.w.variants, p.imageId);
    RowsHaveImages(c, s);
  }

  // ---- Stage preconditions -----------------------------------------------------------------------------------

  /** The "reached without a ..." throws are unreachable, and a variants job always takes the
      compressed image: the fallback to the normalized one is dead code. */
  lemma {:induction false} StagePreconditionsHold(c: Codec, acts: seq<Action>, pid: nat)
    ensures var s := Reached(c, acts);
            pid in s.procs && s.procs[pid].Worker? ==>
              var job := s.procs[pid].job;
              var i := job.imageId;
              && !Begin(s.w, i, job.stage).Throws?
              && (i in s.w.images && job.stage.Compress? ==> s.w.images[i].normalizedKey.Some?)
              && (i in s.w.images && job.stage.Variants? ==>
                    Begin(s.w, i, Variants) == GoX(XStatus(s.w.images[i], Key(s.w.images[i].userId, i, Compressed))))
  {
    RunKeepsInv(c, acts);
    var s := Reached(c, acts);
    if pid in s.procs && s.procs[pid].Worker? {
      var job := s.procs[pid].job;
      assert ProcOk(c, s.srcs, s.born, s.w, s.procs[pid]);
      BeginOk(c, s.srcs, s.born, s.w, job.imageId, job.stage);
      if job.imageId in s.w.images { assert RowOk(c, s.srcs, s.w, job.imageId); }
    }
  }

  // ---- Conservation of runs ----------------------------------------------------------------------------------------

  /** Entries are never lost and never multiplied: what came in, plus the runs forked by hand-offs
      whose reply was lost, is still in progress or over, each in exactly one way. */
  lemma {:induction false} ConservationOfRuns(c: Codec, acts: seq<Action>)
    ensures var s := Reached(c, acts);
            var t := s.tally;
            && t.entered + t.forked == Jobs(s) + t.completed + t.refused + t.dropped + t.failed + t.collapsed
            && (t.forked == 0 ==> t.entered == Jobs(s) + t.completed + t.refused + t.dropped + t.failed)
  {
    RunKeepsInv(c, acts);
  }

  /** A hand-off whose add takes effect although its await rejects. */
  predicate Forks(convertIds: set<ImageId>, p: Proc, ch: Choice) {
    && ch.outcome.Late? && p.Worker?
    && (p.job.phase == Validating(VHandOff) ==> p.job.imageId !in convertIds)
    && p.job.phase in {Validating(VHandOff), Converting(CHandOff), Compressing(KHandOff)}
  }

  /** A step forks a run if and only if it is such a hand-off. */
  lemma {:induction false} ForksExactlyAtLateHandOffs(c: Codec, acts: seq<Action>, a: Action)
    ensures var s := Reached(c, acts);
            Step(c, s, a).tally.forked != s.tally.forked <==>
              a.Resume? && Enabled(s, a) && Forks(s.convertIds, s.procs[a.pid], a.choice)
  {
    var s := Reached(c, acts);
    RunKeepsInv(c, acts);
    if a.Resume? && Enabled(s, a) {
      var p := s.procs[a.pid];
      assert ProcOk(c, s.srcs, s.born, s.w, p);
      if p.Worker? && !p.job.phase.Failing? {
        var o, attempts, added := JobTurnShape(c, s, p.job, a.choice);
        HandOffPhases(c, s.w, p.job, a.choice);
      }
    }
  }

  lemma {:induction false} HandOffPhases(c: Codec, w: World, job: Job, ch: Choice)
    ensures var o := JobAwait(c, w, job, ch);
            o.enqueued.Some? && o.next.Throws? <==>
              ch.outcome.Late? && job.phase in {Validating(VHandOff), Converting(CHandOff), Compressing(KHandOff)}
  {
  }

  // ---- Termination ------------------------------------------------------------------------------------------------

  /** `acts` only resumes processes in progress, each able to move. */
  predicate OnlyResumes(c: Codec, s: State, acts: seq<Action>) {
    acts == [] ||
      (OnlyResumes(c, s, acts[..|acts| - 1])
       && acts[|acts| - 1].Resume? && Enabled(Exec(c, s, acts[..|acts| - 1]), acts[|acts| - 1]))
  }

  lemma {:induction false} InvAlongRun(c: Codec, s: State, acts: seq<Action>)
    requires Inv(c, s)
    ensures Inv(c, Exec(c, s, acts))
  {
    if acts != [] {
      InvAlongRun(c, s, acts[..|acts| - 1]);
      StepKeepsInv(c, Exec(c, s, acts[..|acts| - 1]), acts[|acts| - 1]);
    }
  }

  lemma {:induction false} StepsAreBounded(c: Codec, s: State, acts: seq<Action>)
    requires Inv(c, s) && OnlyResumes(c, s, acts)
    ensures |acts| + Work(Exec(c, s, acts)) <= Work(s)
  {
    if acts != [] {
      var before := acts[..|acts| - 1];
      StepsAreBounded(c, s, before);
      InvAlongRun(c, s, before);
      ResumeShrinks(c, Exec(c, s, before), acts[|acts| - 1]);
    }
  }

  /** With no new entries every execution stops, and it can stop only with nothing in progress and every
      run accounted for. */
  lemma {:induction false} PipelineSettles(c: Codec, acts: seq<Action>, more: seq<Action>)
    requires OnlyResumes(c, Reached(c, acts), more)
    ensures |more| <= Work(Reached(c, acts))
    ensures var s := Exec(c, Reached(c, acts), more);
            (forall a: Action :: a.Resume? ==> !Enabled(s, a)) ==>
              && s.procs == map[]
              && s.tally.entered + s.tally.forked
                 == s.tally.completed + s.tally.refused + s.tally.dropped + s.tally.failed + s.tally.collapsed
  {
    RunKeepsInv(c, acts);
    StepsAreBounded(c, Reached(c, acts), more);
    InvAlongRun(c, Reached(c, acts), more);
    var s := Exec(c, Reached(c, acts), more);
    if forall a: Action :: a.Resume? ==> !Enabled(s, a) {
      forall pid ensures pid !in s.procs {
        if pid in s.procs {
          NothingBlocks(c, s, pid);
          assert false;
        }
      }
      assert s.procs == map[];
      SumOfEqual(s.procs, map[], s.next, IsJob);
      NoJobs(s.next);
    }
  }

  lemma {:induction false} NoJobs(n: nat)
    ensures Sum(map[], n, IsJob) == 0
  {
    if n > 0 { NoJobs(n - 1); }
  }

  // ---- What a lost hand-off can do --------------------------------------------------------------------------------

  lemma {:induction false} OneMore(c: Codec, acts: seq<Action>, a: Action)
    ensures Reached(c, acts + [a]) == Step(c, Reached(c, acts), a)
  {
    assert (acts + [a])[..|acts + [a]| - 1] == acts;
  }

  lemma {:induction false} PrefixStep(c: Codec, acts: seq<Action>, n: nat)
    requires 0 < n <= |acts|
    ensures Reached(c, acts[..n]) == Step(c, Reached(c, acts[..n - 1]), acts[n - 1])
  {
    assert acts[..n] == acts[..n - 1] + [acts[n - 1]];
    OneMore(c, acts[..n - 1], acts[n - 1]);
  }

  const OK: Choice := Choice(Ok, ANY_VERDICT, FULL, true, "")
  const REJECTED_AWAIT: Choice := Choice(Rejected, ANY_VERDICT, FULL, true, "")

  lemma {:induction false} SeedFromNothing(c: Codec, src: Source, i: ImageId)
    ensures var s3 := Step(c, Step(c, Step(c, INITIAL, Seed(src, i)), Resume(0, OK)), Resume(0, OK));
            var s4 := Step(c, s3, Resume(0, REJECTED_AWAIT));
            s4.procs == map[] && s4.next == 1 && s4.w.images == map[i := NewRow(src, i, Convert)]
  {
    var s1 := Step(c, INITIAL, Seed(src, i));
    assert s1.procs == map[0 := Creating(i, Convert, PutOriginal)] && s1.w == INITIAL.w;
    var s2 := Step(c, s1, Resume(0, OK));
    assert s2.procs == map[0 := Creating(i, Convert, InsertRow)] && s2.w.images == map[];
    var s3 := Step(c, s2, Resume(0, OK));
    assert s3.procs == map[0 := Creating(i, Convert, EnqueueEntry)] && s3.w.images == map[i := NewRow(src, i, Convert)];
    var s4 := Step(c, s3, Resume(0, REJECTED_AWAIT));
    assert s4.procs == map[] && s4.w == s3.w;
  }

  /** A seed call whose enqueue rejects leaves an ACCEPTED row and nothing in progress. */
  lemma {:induction false} LostSeedStrands(c: Codec, src: Source, i: ImageId) returns (acts: seq<Action>)
    ensures var s := Reached(c, acts);
            s.procs == map[] && s.next == 1 && s.w.images == map[i := NewRow(src, i, Convert)]
            && s.w.images[i].status.ACCEPTED?
  {
    SeedFromNothing(c, src, i);
    acts := [Seed(src, i), Resume(0, OK), Resume(0, OK), Resume(0, REJECTED_AWAIT)];
    assert acts == [] + [Seed(src, i)] + [Resume(0, OK)] + [Resume(0, OK)] + [Resume(0, REJECTED_AWAIT)];
    OneMore(c, [], Seed(src, i));
    OneMore(c, [] + [Seed(src, i)], Resume(0, OK));
    OneMore(c, [] + [Seed(src, i)] + [Resume(0, OK)], Resume(0, OK));
    OneMore(c, [] + [Seed(src, i)] + [Resume(0, OK)] + [Resume(0, OK)], Resume(0, REJECTED_AWAIT));
  }

  lemma {:induction false} ReprocessFromRest(c: Codec, s: State, i: ImageId) returns (s4: State)
    requires s.procs == map[] && i in s.w.images
    ensures s4 ==
            Step(c, Step(c, Step(c, Step(c, s, Reprocess(i)), Resume(s.next, OK)), Resume(s.next, OK)),
              Resume(s.next, REJECTED_AWAIT))
    ensures s4.procs == map[] && i in s4.w.images && s4.w.images[i].status.PROCESSING_CONVERT?
  {
    var s1 := Step(c, s, Reprocess(i));
    assert s1.procs == map[s.next := Reprocessing(i, FindRow)] && s1.w == s.w;
    var s2 := Step(c, s1, Resume(s.next, OK));
    assert s2.procs == map[s.next := Reprocessing(i, MarkConvert)] && s2.w == s.w;
    var s3 := Step(c, s2, Resume(s.next, OK));
    assert s3.procs == map[s.next := Reprocessing(i, EnqueueFresh)] &&
      s3.w == StatusSet(s.w, i, PROCESSING_CONVERT).value;
    s4 := Step(c, s3, Resume(s.next, REJECTED_AWAIT));
    assert s4.procs == map[] && s4.w == s3.w;
  }

  /** Images can get stuck: when the enqueue of a reprocess call rejects, the row
      stays in PROCESSING_CONVERT with nothing in progress. */
  lemma {:induction false} LostReprocessStrands(c: Codec, src: Source, i: ImageId) returns (acts: seq<Action>)
    ensures var s := Reached(c, acts);
            s.procs == map[] && i in s.w.images && s.w.images[i].status.PROCESSING_CONVERT?
  {
    var a := LostSeedStrands(c, src, i);
    var s := Reached(c, a);
    var s4 := ReprocessFromRest(c, s, i);
    OneMore(c, a, Reprocess(i));
    OneMore(c, a + [Reprocess(i)], Resume(1, OK));
    OneMore(c, a + [Reprocess(i)] + [Resume(1, OK)], Resume(1, OK));
    OneMore(c, a + [Reprocess(i)] + [Resume(1, OK)] + [Resume(1, OK)], Resume(1, REJECTED_AWAIT));
    acts := a + [Reprocess(i)] + [Resume(1, OK)] + [Resume(1, OK)] + [Resume(1, REJECTED_AWAIT)];
  }
}
