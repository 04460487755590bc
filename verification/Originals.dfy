/**
 * When the original of a live image is still there.  A remove call deletes the objects before the row:
 * if the row's deletion then rejects, the image lives on without its original.  Nothing else ever takes
 * an original away.
 */
module Originals {
  import opened Wrappers
  import opened Keys
  import opened Tables
  import opened Machine
  import opened JobInvariant
  import opened PipelineInvariant
  import opened Guarantees

  function OriginalOf(src: Source, i: ImageId): Key {
    Key(src.userId, i, Original(src.ext))
  }

  /** The await of a remove call that deletes the original of image i. */
  predicate Scrubs(p: Proc, ch: Choice, i: ImageId) {
    p.Removing? && p.imageId == i && p.remove.DeleteObjects? && ch.first && !ch.outcome.Rejected?
  }

  predicate ScrubbedBy(s: State, a: Action, i: ImageId) {
    a.Resume? && Enabled(s, a) && Scrubs(s.procs[a.pid], a.choice, i)
  }

  /** Some step of the run deleted the original of image i. */
  predicate Scrubbed(c: Codec, acts: seq<Action>, i: ImageId) {
    acts != [] &&
      (Scrubbed(c, acts[..|acts| - 1], i) || ScrubbedBy(Reached(c, acts[..|acts| - 1]), acts[|acts| - 1], i))
  }

  predicate Stores(p: Proc, ch: Choice, i: ImageId) {
    p.Creating? && p.imageId == i && p.create.PutOriginal? && !ch.outcome.Rejected?
  }

  // ---- What a process knows of the original -------------------------------------------------------------

  predicate KnowsOriginal(p: Proc, i: ImageId, k: Key, objects: map<Key, Blob>, born: set<ImageId>) {
    match p
    case Creating(j, _, InsertRow) => j == i ==> k in objects
    case Removing(j, remove) =>
      j == i && !remove.FindVictim? ==>
        i in born && (remove.DeleteObjects? && remove.original.Some? ==> remove.original == Some(k))
    case _ => true
  }

  ghost predicate KeptInv(s: State, i: ImageId, k: Key, gone: bool) {
    && (if i in s.born then k in s.w.objects <==> !gone else !gone)
    && forall q :: q in s.procs ==> KnowsOriginal(s.procs[q], i, k, s.w.objects, s.born)
  }

  ghost predicate OriginalInv(s: State, i: ImageId, gone: bool) {
    if i in s.srcs then KeptInv(s, i, OriginalOf(s.srcs[i], i), gone)
    else !gone && NoRemover(s.procs, i)
  }

  // ---- No job touches an original --------------------------------------------------------------------------

  predicate SameAt(k: Key, w: World, w': World) {
    k in w'.objects <==> k in w.objects
  }

  lemma {:induction false} ValidateSpares(c: Codec, srcs: Sources, w: World, i: ImageId, phase: ValidatePhase,
                                          ch: Choice, k: Key)
    requires ValidatePhaseOk(c, srcs, i, phase) && k.kind.Original?
    ensures SameAt(k, w, ValidateAwait(c, w, i, phase, ch).world)
  {
  }

  lemma {:induction false} ConvertSpares(c: Codec, w: World, i: ImageId, phase: ConvertPhase, ch: Choice, k: Key)
    requires k.kind.Original?
    ensures SameAt(k, w, ConvertAwait(c, w, i, phase, ch).world)
  {
  }

  lemma {:induction false} CompressSpares(c: Codec, w: World, i: ImageId, phase: CompressPhase, ch: Choice, k: Key)
    requires k.kind.Original?
    ensures SameAt(k, w, CompressAwait(c, w, i, phase, ch).world)
  {
  }

  lemma {:induction false} TaskSpares(c: Codec, w: World, i: ImageId, userId: string, t: VariantType, task: Task,
                                      out: Await, k: Key)
    requires k.kind.Original?
    ensures SameAt(k, w, TaskAwait(c, w, i, userId, t, task, out).0)
  {
  }

  lemma {:induction false} VariantsSpares(c: Codec, w: World, i: ImageId, phase: VariantsPhase, ch: Choice, k: Key)
    requires k.kind.Original?
    ensures SameAt(k, w, VariantsAwait(c, w, i, phase, ch).world)
  {
    if phase.XFan? {
      TaskSpares(c, w, i, phase.row.userId, ch.vtype, TaskOf(phase, ch.vtype), ch.outcome, k);
    }
  }

  lemma {:induction false} JobSpares(c: Codec, srcs: Sources, w: World, job: Job, ch: Choice, k: Key)
    requires PhaseOk(c, srcs, w, job.imageId, job.stage, job.phase) && k.kind.Original?
    ensures SameAt(k, w, JobAwait(c, w, job, ch).world)
  {
    match job.phase {
      case Validating(v) => ValidateSpares(c, srcs, w, job.imageId, v, ch, k);
      case Converting(n) => ConvertSpares(c, w, job.imageId, n, ch, k);
      case Compressing(z) => CompressSpares(c, w, job.imageId, z, ch, k);
      case Sizing(x) => VariantsSpares(c, w, job.imageId, x, ch, k);
      case _ =>
    }
  }

  // ---- One turn ------------------------------------------------------------------------------------------------

  /** What a turn does to the original, and what it leaves behind. */
  ghost predicate TurnKeeps(s: State, p: Proc, t: Turn, ch: Choice, i: ImageId, k: Key) {
    && (k in t.world.objects <==> (k in s.w.objects && !Scrubs(p, ch, i)) || Stores(p, ch, i))
    && (t.self.Some? ==> KnowsOriginal(t.self.value, i, k, t.world.objects, t.born))
    && (forall n :: 0 <= n < |t.spawned| ==> t.spawned[n].Worker? || t.spawned[n].Straggler?)
    && s.born <= t.born && (i in t.born && i !in s.born ==> p.Creating? && p.imageId == i && p.create.InsertRow?)
  }

  lemma {:induction false} WorkerKeeps(c: Codec, s: State, job: Job, ch: Choice, i: ImageId, k: Key)
    requires TablesOk(c, s) && JobOk(c, s.srcs, s.born, s.w, job) && k.kind.Original?
    ensures TurnKeeps(s, Worker(job), ProcTurn(c, s, Worker(job), ch), ch, i, k)
  {
    if !job.phase.Failing? {
      JobSpares(c, s.srcs, s.w, job, ch, k);
      ShapeOfOutcome(c, s, job, ch);
      var o, attempts, added := JobTurnShape(c, s, job, ch);
      var t := JobTurn(c, s, job, ch);
      forall n | 0 <= n < |t.spawned| ensures t.spawned[n].Worker? || t.spawned[n].Straggler? {
        if n < |o.orphans| { assert t.spawned[n] == o.orphans[n]; } else { assert t.spawned[n] == added[0]; }
      }
    }
  }

  lemma {:induction false} CreateKeeps(s: State, p: Proc, ch: Choice, i: ImageId, k: Key)
    requires p.Creating? && p.imageId in s.srcs && i in s.srcs && k == OriginalOf(s.srcs[i], i)
    requires KnowsOriginal(p, i, k, s.w.objects, s.born)
    ensures TurnKeeps(s, p, CreateTurn(s, p, ch), ch, i, k)
  {
  }

  lemma {:induction false} StragglerKeeps(c: Codec, s: State, p: Proc, ch: Choice, i: ImageId, k: Key)
    requires p.Straggler? && k.kind.Original?
    ensures TurnKeeps(s, p, StragglerTurn(c, s, p, ch), ch, i, k)
  {
    TaskSpares(c, s.w, p.imageId, p.userId, p.vtype, p.task, ch.outcome, k);
  }

  lemma {:induction false} ReprocessKeeps(s: State, p: Proc, ch: Choice, i: ImageId, k: Key)
    requires p.Reprocessing?
    ensures TurnKeeps(s, p, ReprocessTurn(s, p, ch), ch, i, k)
  {
  }

  lemma {:induction false} RemoveKeeps(c: Codec, s: State, p: Proc, ch: Choice, i: ImageId, k: Key)
    requires TablesOk(c, s) && p.Removing? && VictimOk(s.srcs, p.imageId, p.remove) && Resumes(p, ch)
    requires i in s.srcs && k == OriginalOf(s.srcs[i], i)
    requires KnowsOriginal(p, i, k, s.w.objects, s.born)
    ensures TurnKeeps(s, p, RemoveTurn(s, p, ch), ch, i, k)
  {
    if p.remove.FindVictim? && p.imageId in s.w.images {
      assert RowOk(c, s.srcs, s.w, p.imageId);
    }
  }

  lemma {:induction false} ProcKeeps(c: Codec, s: State, pid: nat, ch: Choice, i: ImageId, k: Key)
    requires Inv(c, s) && pid in s.procs && Resumes(s.procs[pid], ch)
    requires i in s.srcs && k == OriginalOf(s.srcs[i], i) && KnowsOriginal(s.procs[pid], i, k, s.w.objects, s.born)
    ensures TurnKeeps(s, s.procs[pid], ProcTurn(c, s, s.procs[pid], ch), ch, i, k)
  {
    var p := s.procs[pid];
    assert ProcOk(c, s.srcs, s.born, s.w, p);
    match p {
      case Worker(job) => WorkerKeeps(c, s, job, ch, i, k);
      case Straggler(_, _, _, _) => StragglerKeeps(c, s, p, ch, i, k);
      case Creating(_, _, _) => CreateKeeps(s, p, ch, i, k);
      case Reprocessing(_, _) => ReprocessKeeps(s, p, ch, i, k);
      case Removing(_, _) => RemoveKeeps(c, s, p, ch, i, k);
    }
  }

  lemma {:induction false} ApplyKeepsOriginal(c: Codec, s: State, pid: nat, ch: Choice, i: ImageId, k: Key, gone: bool)
    requires Inv(c, s) && pid in s.procs && Resumes(s.procs[pid], ch)
    requires i in s.srcs && k == OriginalOf(s.srcs[i], i) && KeptInv(s, i, k, gone)
    ensures KeptInv(Apply(s, pid, ProcTurn(c, s, s.procs[pid], ch)), i, k, gone || Scrubs(s.procs[pid], ch, i))
  {
    var p := s.procs[pid];
    var t := ProcTurn(c, s, p, ch);
    var s' := Apply(s, pid, t);
    assert KnowsOriginal(p, i, k, s.w.objects, s.born);
    ProcKeeps(c, s, pid, ch, i, k);
    ApplyMembers(s, pid, t);
    assert ProcOk(c, s.srcs, s.born, s.w, p);
    forall q | q in s'.procs ensures KnowsOriginal(s'.procs[q], i, k, s'.w.objects, s'.born) {
      if q != pid && q in s.procs {
        OtherKnows(c, s, pid, q, ch, i, k);
      } else if q != pid {
        assert s'.procs[s.next + (q - s.next)] == t.spawned[q - s.next];
      }
    }
  }

  /** Another process's knowledge of the original survives the step: while a row is being inserted,
      nobody removes that image. */
  lemma {:induction false} OtherKnows(c: Codec, s: State, pid: nat, q: nat, ch: Choice, i: ImageId, k: Key)
    requires Inv(c, s) && pid in s.procs && q in s.procs
    requires KnowsOriginal(s.procs[q], i, k, s.w.objects, s.born) &&
             KnowsOriginal(s.procs[pid], i, k, s.w.objects, s.born)
    requires TurnKeeps(s, s.procs[pid], ProcTurn(c, s, s.procs[pid], ch), ch, i, k)
    ensures var t := ProcTurn(c, s, s.procs[pid], ch); KnowsOriginal(s.procs[q], i, k, t.world.objects, t.born)
  {
    assert ProcOk(c, s.srcs, s.born, s.w, s.procs[q]);
  }

  // ---- Whole runs ------------------------------------------------------------------------------------------------

  lemma {:induction false} BeginKeepsOriginal(c: Codec, s: State, a: Action, i: ImageId, gone: bool)
    requires Inv(c, s) && OriginalInv(s, i, gone) && Enabled(s, a) && !a.Resume?
    ensures OriginalInv(Step(c, s, a), i, gone)
  {
    var s' := Step(c, s, a);
    if i in s'.srcs {
      var k := OriginalOf(s'.srcs[i], i);
      forall q | q in s'.procs ensures KnowsOriginal(s'.procs[q], i, k, s'.w.objects, s'.born) {
        if q in s.procs && q != s.next {
          assert ProcOk(c, s.srcs, s.born, s.w, s.procs[q]);
          assert i in s.srcs ==> KnowsOriginal(s.procs[q], i, k, s.w.objects, s.born);
        }
      }
    }
  }

  /** Turns start jobs and leave stragglers; they never start calls. */
  lemma {:induction false} SpawnedKinds(c: Codec, s: State, p: Proc, ch: Choice)
    requires TablesOk(c, s) && ProcOk(c, s.srcs, s.born, s.w, p)
    ensures forall q :: q in ProcTurn(c, s, p, ch).spawned ==> q.Worker? || q.Straggler?
  {
    if p.Worker? && !p.job.phase.Failing? {
      ShapeOfOutcome(c, s, p.job, ch);
      var o, attempts, added := JobTurnShape(c, s, p.job, ch);
    }
  }

  lemma {:induction false} RemoverOrigin(c: Codec, s: State, p: Proc, ch: Choice)
    ensures var self := ProcTurn(c, s, p, ch).self;
            self.Some? && self.value.Removing? ==>
              p.Removing? && self.value.imageId == p.imageId && (p.remove.FindVictim? ==> p.imageId in s.w.images)
  {
  }

  ghost predicate NoRemover(procs: map<nat, Proc>, i: ImageId) {
    forall q :: q in procs && procs[q].Removing? && procs[q].imageId == i ==> procs[q].remove.FindVictim?
  }

  lemma {:induction false} ApplyBringsNoRemover(s: State, pid: nat, t: Turn, i: ImageId)
    requires KeysBelow(s.procs, s.next) && pid in s.procs && NoRemover(s.procs, i)
    requires forall q :: q in t.spawned ==> q.Worker? || q.Straggler?
    requires t.self.Some? && t.self.value.Removing? ==> t.self.value.imageId != i
    ensures NoRemover(Apply(s, pid, t).procs, i)
  {
    ApplyMembers(s, pid, t);
    var procs := Apply(s, pid, t).procs;
    forall q | q in procs && q != pid && q !in s.procs ensures procs[q].Worker? || procs[q].Straggler? {
      assert procs[s.next + (q - s.next)] == t.spawned[q - s.next];
      assert t.spawned[q - s.next] in t.spawned;
    }
  }

  lemma {:induction false} ResumeBeforeBirth(c: Codec, s: State, a: Action, i: ImageId)
    requires Inv(c, s) && OriginalInv(s, i, false) && Enabled(s, a) && a.Resume? && i !in s.srcs
    ensures OriginalInv(Step(c, s, a), i, false) && !ScrubbedBy(s, a, i)
  {
    var p := s.procs[a.pid];
    assert ProcOk(c, s.srcs, s.born, s.w, p);
    SpawnedKinds(c, s, p, a.choice);
    RemoverOrigin(c, s, p, a.choice);
    ApplyBringsNoRemover(s, a.pid, ProcTurn(c, s, p, a.choice), i);
  }

  lemma {:induction false} OriginalAlongRun(c: Codec, acts: seq<Action>, i: ImageId)
    ensures OriginalInv(Reached(c, acts), i, Scrubbed(c, acts, i))
  {
    if acts != [] {
      var before, a := acts[..|acts| - 1], acts[|acts| - 1];
      OriginalAlongRun(c, before, i);
      RunKeepsInv(c, before);
      var s := Reached(c, before);
      if Enabled(s, a) {
        if !a.Resume? {
          BeginKeepsOriginal(c, s, a, i, Scrubbed(c, before, i));
        } else if i in s.srcs {
          ApplyKeepsOriginal(c, s, a.pid, a.choice, i, OriginalOf(s.srcs[i], i), Scrubbed(c, before, i));
        } else {
          ResumeBeforeBirth(c, s, a, i);
        }
      }
    }
  }

  /** A live row's original is in the store if and only if no remove call has deleted it: no retry,
      reprocess, straggler or delete of another image ever does. */
  lemma {:induction false} OriginalPresentUnlessRemoved(c: Codec, acts: seq<Action>, i: ImageId)
    ensures var s := Reached(c, acts);
            i in s.w.images ==> (s.w.images[i].original in s.w.objects <==> !Scrubbed(c, acts, i))
  {
    RunKeepsInv(c, acts);
    OriginalAlongRun(c, acts, i);
    var s := Reached(c, acts);
    if i in s.w.images { assert RowOk(c, s.srcs, s.w, i); }
  }
}
