/**
 * The variant table as the record of the resize tasks: a slot is filled exactly when some task's upsert for it
 * took effect, in its attempt or after; and what becomes of the tasks that are left when one of them rejects.
 */
module Slots {
  import opened Wrappers
  import opened Keys
  import opened Tables
  import opened Machine
  import opened JobInvariant
  import opened PipelineInvariant
  import opened Guarantees
  import opened Attempts
  import opened Columns

  // ---- Which await fills which slot ------------------------------------------------------------------------

  predicate Upserts(p: Proc, ch: Choice, i: ImageId, t: VariantType) {
    match p
    case Worker(job) =>
      job.imageId == i && job.phase.Sizing? && job.phase.x.XFan? && ch.vtype == t && TaskOf(job.phase.x, t).Upserting?
    case Straggler(j, _, u, task) => j == i && u == t && task.Upserting?
    case _ => false
  }

  /** Step k upserts the row of image i at size t, the image being live. */
  predicate UpsertsAt(c: Codec, acts: seq<Action>, k: nat, i: ImageId, t: VariantType) {
    k < |acts| && UpsertsBy(Reached(c, acts[..k]), acts[k], i, t)
  }

  predicate UpsertsBy(s: State, a: Action, i: ImageId, t: VariantType) {
    && a.Resume? && Enabled(s, a) && Upserts(s.procs[a.pid], a.choice, i, t)
    && !a.choice.outcome.Rejected? && i in s.w.images
  }

  ghost predicate SlotFilled(c: Codec, acts: seq<Action>, i: ImageId, t: VariantType) {
    exists k :: UpsertsAt(c, acts, k, i, t)
  }

  // ---- One step --------------------------------------------------------------------------------------------

  /** The variant table after an await: as it was, or with one row upserted. */
  ghost predicate TableFollows(w: World, w': World, upserts: bool, i: ImageId, t: VariantType) {
    if upserts then exists v: VariantRow :: v.imageId == i && v.vtype == t && Some(w') == Upserted(w, v)
    else w'.variants == w.variants
  }

  predicate TaskUpserts(w: World, i: ImageId, task: Task, out: Await) {
    task.Upserting? && !out.Rejected? && i in w.images
  }

  lemma {:induction false} TaskTable(c: Codec, w: World, i: ImageId, userId: string, t: VariantType, task: Task,
                                     out: Await)
    ensures TableFollows(w, TaskAwait(c, w, i, userId, t, task, out).0, TaskUpserts(w, i, task, out), i, t)
  {
    if TaskUpserts(w, i, task, out) {
      var p := task.out;
      var v := VariantRow(i, t, Key(userId, i, Variant(t)), p.width, p.height, |p.buffer|);
      assert Some(TaskAwait(c, w, i, userId, t, task, out).0) == Upserted(w, v);
    }
  }

  predicate InFan(job: Job) {
    job.phase.Sizing? && job.phase.x.XFan?
  }

  lemma {:induction false} OtherAwaitsKeepTable(c: Codec, w: World, job: Job, ch: Choice)
    requires !InFan(job)
    ensures JobAwait(c, w, job, ch).world.variants == w.variants
  {
    match job.phase {
      case Validating(v) => assert ValidateAwait(c, w, job.imageId, v, ch).world.variants == w.variants;
      case Converting(n) => assert ConvertAwait(c, w, job.imageId, n, ch).world.variants == w.variants;
      case Compressing(k) => assert CompressAwait(c, w, job.imageId, k, ch).world.variants == w.variants;
      case _ =>
    }
  }

  lemma {:induction false} JobTable(c: Codec, s: State, job: Job, ch: Choice)
    ensures var w' := ProcTurn(c, s, Worker(job), ch).world;
            if InFan(job)
            then TableFollows(s.w, w', TaskUpserts(s.w, job.imageId, TaskOf(job.phase.x, ch.vtype), ch.outcome),
                              job.imageId, ch.vtype)
            else w'.variants == s.w.variants
  {
    if InFan(job) {
      var fan := job.phase.x;
      assert ProcTurn(c, s, Worker(job), ch).world == FanAwait(c, s.w, job.imageId, fan, ch).world;
      TaskTable(c, s.w, job.imageId, fan.row.userId, ch.vtype, TaskOf(fan, ch.vtype), ch.outcome);
    } else if !job.phase.Failing? {
      OtherAwaitsKeepTable(c, s.w, job, ch);
      assert ProcTurn(c, s, Worker(job), ch).world == JobAwait(c, s.w, job, ch).world;
    }
  }

  lemma {:induction false} UpsertFills(w: World, w': World, v: VariantRow, i: ImageId, t: VariantType)
    requires Some(w') == Upserted(w, v) && SlotsDistinct(w.variants)
    ensures HasVariant(w', i, t) <==> HasVariant(w, i, t) || (v.imageId == i && v.vtype == t)
  {
    VariantsKept(w, w', v);
    UpsertRows(w.variants, v);
    if HasVariant(w', i, t) {
      var n :| 0 <= n < |w'.variants| && w'.variants[n].imageId == i && w'.variants[n].vtype == t;
      if w'.variants[n] != v {
        var m :| 0 <= m < |w.variants| && w.variants[m] == w'.variants[n];
      }
    }
  }

  lemma {:induction false} CascadeFills(w: World, w': World, j: ImageId, i: ImageId, t: VariantType)
    requires w'.variants == WithoutImage(w.variants, j) && i != j
    ensures HasVariant(w', i, t) <==> HasVariant(w, i, t)
  {
    CascadeRows(w.variants, j);
    if HasVariant(w, i, t) { CascadeSpares(w, w', j, i, t); }
    if HasVariant(w', i, t) {
      var n :| 0 <= n < |w'.variants| && w'.variants[n].imageId == i && w'.variants[n].vtype == t;
      var m :| 0 <= m < |w.variants| && w.variants[m] == w'.variants[n];
    }
  }

  lemma {:induction false} TurnFills(c: Codec, s: State, p: Proc, ch: Choice, i: ImageId, t: VariantType)
    requires TablesOk(c, s) && ProcOk(c, s.srcs, s.born, s.w, p)
    ensures var w' := ProcTurn(c, s, p, ch).world;
            i in w'.images ==>
              (HasVariant(w', i, t) <==>
                 HasVariant(s.w, i, t) || (Upserts(p, ch, i, t) && !ch.outcome.Rejected? && i in s.w.images))
  {
    var w' := ProcTurn(c, s, p, ch).world;
    match p {
      case Worker(job) =>
        JobTable(c, s, job, ch);
        if InFan(job) {
          FollowingFills(s.w, w', TaskUpserts(s.w, job.imageId, TaskOf(job.phase.x, ch.vtype), ch.outcome), job.imageId,
            ch.vtype, i, t);
        } else {
          SameVariants(s.w, w');
        }
      case Straggler(j, userId, u, task) =>
        TaskTable(c, s.w, j, userId, u, task, ch.outcome);
        FollowingFills(s.w, w', TaskUpserts(s.w, j, task, ch.outcome), j, u, i, t);
      case Removing(j, _) =>
        RemoveTurnVariants(s, p, ch);
        if j in s.w.images && j !in w'.images {
          if i != j { CascadeFills(s.w, w', j, i, t); }
        } else {
          SameVariants(s.w, w');
        }
      case _ =>
        SameVariants(s.w, w');
    }
  }

  lemma {:induction false} FollowingFills(w: World, w': World, upserts: bool, j: ImageId, u: VariantType, i: ImageId,
                                          t: VariantType)
    requires TableFollows(w, w', upserts, j, u) && SlotsDistinct(w.variants)
    ensures HasVariant(w', i, t) <==> HasVariant(w, i, t) || (upserts && i == j && t == u)
  {
    if upserts {
      var v: VariantRow :| v.imageId == j && v.vtype == u && Some(w') == Upserted(w, v);
      UpsertFills(w, w', v, i, t);
    } else {
      SameVariants(w, w');
    }
  }

  lemma {:induction false} SlotAfterStep(c: Codec, s: State, a: Action, i: ImageId, t: VariantType)
    requires Inv(c, s)
    ensures var w' := Step(c, s, a).w;
            i in w'.images ==> (HasVariant(w', i, t) <==> HasVariant(s.w, i, t) || UpsertsBy(s, a, i, t))
  {
    if a.Resume? && Enabled(s, a) {
      assert ProcOk(c, s.srcs, s.born, s.w, s.procs[a.pid]);
      TurnFills(c, s, s.procs[a.pid], a.choice, i, t);
    } else {
      SameVariants(s.w, Step(c, s, a).w);
    }
  }

  // ---- Whole runs ------------------------------------------------------------------------------------------

  lemma {:induction false} FilledStep(c: Codec, acts: seq<Action>, i: ImageId, t: VariantType)
    requires acts != []
    ensures var n := |acts| - 1;
            SlotFilled(c, acts, i, t) <==>
              SlotFilled(c, acts[..n], i, t) || UpsertsBy(Reached(c, acts[..n]), acts[n], i, t)
  {
    var n := |acts| - 1;
    if k: nat :| UpsertsAt(c, acts, k, i, t) {
      if k < n {
        assert acts[..n][..k] == acts[..k];
        assert UpsertsAt(c, acts[..n], k, i, t);
      }
    }
    if k: nat :| UpsertsAt(c, acts[..n], k, i, t) {
      assert acts[..n][..k] == acts[..k];
      assert UpsertsAt(c, acts, k, i, t);
    }
    if UpsertsBy(Reached(c, acts[..n]), acts[n], i, t) { assert UpsertsAt(c, acts, n, i, t); }
  }

  /** Before its row is inserted an image has no variant, and none has been upserted. */
  lemma {:induction false} EmptyBeforeInsert(c: Codec, acts: seq<Action>, i: ImageId, t: VariantType)
    requires acts != []
    requires var n := |acts| - 1; i !in Reached(c, acts[..n]).w.images && i in Reached(c, acts).w.images
    ensures var n := |acts| - 1;
            !HasVariant(Reached(c, acts[..n]).w, i, t) && !SlotFilled(c, acts[..n], i, t)
  {
    var n := |acts| - 1;
    var s := Reached(c, acts[..n]);
    RunKeepsInv(c, acts[..n]);
    RowsHaveImages(c, s);
    RowAfterStep(c, s, acts[n], i);
    if k: nat :| UpsertsAt(c, acts[..n], k, i, t) {
      assert acts[..n][..k] == acts[..k];
      InsertedOnce(c, acts, k, n, i);
    }
  }

  /** A live image has a variant of a size if and only if some upsert of that size took effect: by a task of
      one of its attempts, or by a straggler of one that had failed.  Nothing else fills a slot, and nothing
      but the row's own deletion empties one. */
  lemma {:induction false} SlotsAreUpserted(c: Codec, acts: seq<Action>, i: ImageId, t: VariantType)
    ensures var s := Reached(c, acts);
            i in s.w.images ==> (HasVariant(s.w, i, t) <==> SlotFilled(c, acts, i, t))
  {
    if acts != [] && i in Reached(c, acts).w.images {
      var n := |acts| - 1;
      RunKeepsInv(c, acts[..n]);
      SlotAfterStep(c, Reached(c, acts[..n]), acts[n], i, t);
      FilledStep(c, acts, i, t);
      if i in Reached(c, acts[..n]).w.images {
        SlotsAreUpserted(c, acts[..n], i, t);
      } else {
        EmptyBeforeInsert(c, acts, i, t);
      }
    }
  }

  // ---- What a rejected task leaves behind ------------------------------------------------------------------

  function StragglerOf(i: ImageId, fan: VariantsPhase, t: VariantType): Proc
    requires fan.XFan?
  {
    Straggler(i, fan.row.userId, t, TaskOf(fan, t))
  }

  predicate LeftOver(fan: VariantsPhase, failed: VariantType, t: VariantType)
    requires fan.XFan?
  {
    t != failed && !TaskOf(fan, t).Settled?
  }

  ghost predicate AreLeftOver(i: ImageId, fan: VariantsPhase, failed: VariantType, ps: seq<Proc>)
    requires fan.XFan?
  {
    && (forall t :: LeftOver(fan, failed, t) ==> StragglerOf(i, fan, t) in ps)
    && (forall k :: 0 <= k < |ps| ==> ps[k].Straggler? && LeftOver(fan, failed, ps[k].vtype)
                                      && ps[k] == StragglerOf(i, fan, ps[k].vtype))
    && (forall k, m :: 0 <= k < m < |ps| ==> ps[k] != ps[m])
  }

  lemma {:induction false} OrphansAreLeftOver(c: Codec, w: World, i: ImageId, fan: VariantsPhase, ch: Choice)
    requires fan.XFan? && FanAwait(c, w, i, fan, ch).next.Throws?
    ensures AreLeftOver(i, fan, ch.vtype, FanAwait(c, w, i, fan, ch).orphans)
  {
    var f, ps := ch.vtype, FanAwait(c, w, i, fan, ch).orphans;
    assert ps == Orphan(i, fan, f, THUMBNAIL) + Orphan(i, fan, f, WEB) + Orphan(i, fan, f, FULL);
    forall t | LeftOver(fan, f, t) ensures StragglerOf(i, fan, t) in ps {
      assert StragglerOf(i, fan, t) in Orphan(i, fan, f, t);
    }
  }

  /** The new processes of a step that leaves stragglers. */
  ghost predicate AddsLeftOver(i: ImageId, fan: VariantsPhase, failed: VariantType, procs: map<nat, Proc>,
                               procs': map<nat, Proc>)
    requires fan.XFan?
  {
    && (forall t :: t != failed && !TaskOf(fan, t).Settled? ==>
          exists q :: q !in procs && q in procs' && procs'[q] == Straggler(i, fan.row.userId, t, TaskOf(fan, t)))
    && (forall q :: q in procs' && q !in procs ==>
          && procs'[q].Straggler? && procs'[q].vtype != failed && !TaskOf(fan, procs'[q].vtype).Settled?
          && procs'[q] == Straggler(i, fan.row.userId, procs'[q].vtype, TaskOf(fan, procs'[q].vtype)))
    && (forall q, r :: q in procs' && r in procs' && q !in procs && r !in procs && q != r ==> procs'[q] != procs'[r])
  }

  lemma {:induction false} SpawnsLeftOver(s: State, pid: nat, t: Turn, i: ImageId, fan: VariantsPhase,
                                          failed: VariantType)
    requires KeysBelow(s.procs, s.next) && pid in s.procs && fan.XFan? && AreLeftOver(i, fan, failed, t.spawned)
    ensures AddsLeftOver(i, fan, failed, s.procs, Apply(s, pid, t).procs)
  {
    ApplyMembers(s, pid, t);
    var procs' := Apply(s, pid, t).procs;
    forall u | u != failed && !TaskOf(fan, u).Settled?
      ensures exists q :: q !in s.procs && q in procs' && procs'[q] == Straggler(i, fan.row.userId, u, TaskOf(fan, u))
    {
      assert LeftOver(fan, failed, u);
      var k :| 0 <= k < |t.spawned| && t.spawned[k] == StragglerOf(i, fan, u);
      assert s.next + k in procs' && s.next + k !in s.procs;
    }
    forall q | q in procs' && q !in s.procs
      ensures 0 <= q - s.next < |t.spawned| && procs'[q] == t.spawned[q - s.next]
    {
      assert procs'[s.next + (q - s.next)] == t.spawned[q - s.next];
    }
  }

  lemma {:induction false} FanTurnSpawns(c: Codec, s: State, job: Job, ch: Choice)
    requires InFan(job) && FanAwait(c, s.w, job.imageId, job.phase.x, ch).next.Throws?
    ensures JobTurn(c, s, job, ch).spawned == FanAwait(c, s.w, job.imageId, job.phase.x, ch).orphans
  {
    var os := FanAwait(c, s.w, job.imageId, job.phase.x, ch).orphans;
    assert os + [] == os;
  }

  lemma {:induction false} FanTurnLeaves(c: Codec, s: State, pid: nat, ch: Choice)
    requires Inv(c, s) && pid in s.procs && s.procs[pid].Worker? && InFan(s.procs[pid].job)
    requires FanAwait(c, s.w, s.procs[pid].job.imageId, s.procs[pid].job.phase.x, ch).next.Throws?
    ensures AddsLeftOver(s.procs[pid].job.imageId, s.procs[pid].job.phase.x, ch.vtype, s.procs,
                         Apply(s, pid, JobTurn(c, s, s.procs[pid].job, ch)).procs)
  {
    var job := s.procs[pid].job;
    FanTurnSpawns(c, s, job, ch);
    OrphansAreLeftOver(c, s.w, job.imageId, job.phase.x, ch);
    SpawnsLeftOver(s, pid, JobTurn(c, s, job, ch), job.imageId, job.phase.x, ch.vtype);
  }

  lemma {:induction false} FanFails(c: Codec, s: State, pid: nat, ch: Choice)
    requires Inv(c, s) && pid in s.procs && s.procs[pid].Worker? && InFan(s.procs[pid].job)
    requires Resumes(s.procs[pid], ch) && AwaitFails(s.w, s.procs[pid].job, ch)
    ensures FanAwait(c, s.w, s.procs[pid].job.imageId, s.procs[pid].job.phase.x, ch).next.Throws?
    ensures Step(c, s, Resume(pid, ch)) == Apply(s, pid, JobTurn(c, s, s.procs[pid].job, ch))
  {
    assert ProcOk(c, s.srcs, s.born, s.w, s.procs[pid]);
    VariantsThrows(c, s.srcs, s.w, s.procs[pid].job.imageId, s.procs[pid].job.phase.x, ch);
  }

  /** When a resize task of a variants attempt throws, each of its siblings that is not through goes on by
      itself, at the await it stands at, and nothing else is left beside the job. */
  lemma {:induction false} SiblingsCarryOn(c: Codec, acts: seq<Action>, pid: nat, ch: Choice)
    requires var s := Reached(c, acts);
             && pid in s.procs && s.procs[pid].Worker? && Resumes(s.procs[pid], ch)
             && s.procs[pid].job.phase.Sizing? && s.procs[pid].job.phase.x.XFan?
             && AwaitFails(s.w, s.procs[pid].job, ch)
    ensures var s := Reached(c, acts);
            AddsLeftOver(s.procs[pid].job.imageId, s.procs[pid].job.phase.x, ch.vtype, s.procs,
                         Step(c, s, Resume(pid, ch)).procs)
  {
    RunKeepsInv(c, acts);
    FanFails(c, Reached(c, acts), pid, ch);
    FanTurnLeaves(c, Reached(c, acts), pid, ch);
  }
}
