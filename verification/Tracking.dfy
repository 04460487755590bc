/**
 * When an image gets stuck: its row is live and not in a final status, and nothing in progress is going
 * to move it on.  The steps that do this are named exactly.
 */
module Tracking {
  import opened Wrappers
  import opened Keys
  import opened Tables
  import opened Machine
  import opened JobInvariant
  import opened PipelineInvariant
  import opened Budget
  import opened Guarantees

  ghost predicate Carried(s: State, i: ImageId) {
    exists q :: q in s.procs && Carries(s.procs[q], i)
  }

  ghost predicate Stuck(s: State, i: ImageId) {
    i in s.w.images && !Terminal(s.w.images[i].status) && !Carried(s, i)
  }

  function ImageOf(p: Proc): ImageId {
    match p
    case Worker(job) => job.imageId
    case Straggler(i, _, _, _) => i
    case Creating(i, _, _) => i
    case Reprocessing(i, _) => i
    case Removing(i, _) => i
  }

  /** An entry call that wrote the row but does not get to enqueue, a failure handler whose write
      rejects, and a validation hand-off that BullMQ de-duplicates away: the process ends and leaves no
      successor. */
  predicate Drops(convertIds: set<ImageId>, p: Proc, ch: Choice) {
    match p
    case Creating(_, _, InsertRow) => ch.outcome.Late?
    case Creating(_, _, EnqueueEntry) => ch.outcome.Rejected?
    case Reprocessing(_, MarkConvert) => ch.outcome.Late?
    case Reprocessing(_, EnqueueFresh) => ch.outcome.Rejected?
    case Worker(job) =>
      || (job.phase.Failing? && ch.outcome.Rejected?)
      || (job.phase == Validating(VHandOff) && ch.outcome.Ok? && job.imageId in convertIds)
    case _ => false
  }

  predicate DroppedBy(s: State, a: Action, i: ImageId) {
    a.Resume? && Enabled(s, a) && Drops(s.convertIds, s.procs[a.pid], a.choice) && ImageOf(s.procs[a.pid]) == i
  }

  // ---- What a turn loses ---------------------------------------------------------------------------------

  /** The state with an empty ledger: what is lost in a turn from here is lost by that turn. */
  function Clean(s: State): State {
    s.(lost := {})
  }

  /** Whatever a turn loses, either it still carries or it drops. */
  ghost predicate LosesOnlyByDropping(s: State, p: Proc, t: Turn, ch: Choice) {
    forall j :: j in t.lost ==> TurnCarries(t, j) || (Drops(s.convertIds, p, ch) && ImageOf(p) == j)
  }

  /** The ledger has no influence on anything else. */
  predicate SameButLost(t: Turn, t': Turn) {
    t'.(lost := t.lost) == t
  }

  lemma {:induction false} JobCare(c: Codec, s: State, job: Job, ch: Choice)
    requires TablesOk(c, s) && JobOk(c, s.srcs, s.born, s.w, job) && !job.phase.Failing?
    ensures var t := JobTurn(c, Clean(s), job, ch);
            TurnCares(Clean(s), Worker(job), t) && LosesOnlyByDropping(s, Worker(job), t, ch)
  {
    var s0 := Clean(s);
    var o, attempts, added := JobTurnShape(c, s0, job, ch);
    JobTurnCares(c, s0, job, ch);
    ShapeOfOutcome(c, s, job, ch);
    HandsOffOnce(c, s.w, job, ch);
    var t := JobTurn(c, s0, job, ch);
    if o.next.Throws? { assert Carries(t.self.value, job.imageId); }
  }

  /** A hand-off that ends its job happened at the last await, with success. */
  lemma {:induction false} HandsOffOnce(c: Codec, w: World, job: Job, ch: Choice)
    ensures var o := JobAwait(c, w, job, ch);
            o.next == Ends(HandedOff) ==>
              ch.outcome.Ok? && job.phase in {Validating(VHandOff), Converting(CHandOff), Compressing(KHandOff)}
  {
  }

  lemma {:induction false} JobSame(c: Codec, s: State, job: Job, ch: Choice)
    ensures SameButLost(JobTurn(c, s, job, ch), JobTurn(c, Clean(s), job, ch))
  {
  }

  lemma {:induction false} HandlerCare(c: Codec, s: State, job: Job, ch: Choice)
    requires TablesOk(c, s) && job.phase.Failing?
    ensures var t := HandlerTurn(Clean(s), job, ch);
            TurnCares(Clean(s), Worker(job), t) && LosesOnlyByDropping(s, Worker(job), t, ch)
  {
    HandlerTurnOk(c, Clean(s), job, ch);
  }

  lemma {:induction false} StragglerCare(c: Codec, s: State, p: Proc, ch: Choice)
    requires TablesOk(c, s) && p.Straggler? && ProcOk(c, s.srcs, s.born, s.w, p)
    ensures var t := StragglerTurn(c, Clean(s), p, ch);
            TurnCares(Clean(s), p, t) && LosesOnlyByDropping(s, p, t, ch)
  {
    StragglerTurnOk(c, Clean(s), p, ch);
  }

  lemma {:induction false} CreateCare(c: Codec, s: State, p: Proc, ch: Choice)
    requires p.Creating? && p.imageId in s.srcs && p.imageId !in s.convertIds
    ensures var t := CreateTurn(Clean(s), p, ch);
            TurnCares(Clean(s), p, t) && LosesOnlyByDropping(s, p, t, ch)
  {
    CreateTurnCares(c, Clean(s), p, ch);
  }

  lemma {:induction false} ReprocessCare(s: State, p: Proc, ch: Choice)
    requires p.Reprocessing?
    ensures var t := ReprocessTurn(Clean(s), p, ch);
            TurnCares(Clean(s), p, t) && LosesOnlyByDropping(s, p, t, ch)
  {
    ReprocessTurnCares(Clean(s), p, ch);
  }

  lemma {:induction false} RemoveCare(c: Codec, s: State, p: Proc, ch: Choice)
    requires TablesOk(c, s) && p.Removing? && ProcOk(c, s.srcs, s.born, s.w, p)
    ensures var t := RemoveTurn(Clean(s), p, ch);
            TurnCares(Clean(s), p, t) && LosesOnlyByDropping(s, p, t, ch)
  {
    RemoveTurnOk(c, Clean(s), p, ch);
  }

  lemma {:induction false} ProcCare(c: Codec, s: State, pid: nat, ch: Choice)
    requires Inv(c, s) && pid in s.procs
    ensures var p, t := s.procs[pid], ProcTurn(c, Clean(s), s.procs[pid], ch);
            TurnCares(Clean(s), p, t) && LosesOnlyByDropping(s, p, t, ch)
  {
    var p := s.procs[pid];
    assert ProcOk(c, s.srcs, s.born, s.w, p) && IdsOk(s.convertIds, s.lost, s.tally.forked, p);
    match p {
      case Worker(job) =>
        if job.phase.Failing? { HandlerCare(c, s, job, ch); } else { JobCare(c, s, job, ch); }
      case Straggler(_, _, _, _) => StragglerCare(c, s, p, ch);
      case Creating(_, _, _) => CreateCare(c, s, p, ch);
      case Reprocessing(_, _) => ReprocessCare(s, p, ch);
      case Removing(_, _) => RemoveCare(c, s, p, ch);
    }
  }

  lemma {:induction false} ProcSame(c: Codec, s: State, p: Proc, ch: Choice)
    ensures SameButLost(ProcTurn(c, s, p, ch), ProcTurn(c, Clean(s), p, ch))
  {
    match p {
      case Worker(job) => if !job.phase.Failing? { JobSame(c, s, job, ch); }
      case _ =>
    }
  }

  // ---- One step ------------------------------------------------------------------------------------------

  ghost predicate CarriedByAnother(s: State, pid: nat, i: ImageId) {
    exists q :: q in s.procs && q != pid && Carries(s.procs[q], i)
  }

  lemma {:induction false} DropsEnds(c: Codec, s: State, p: Proc, ch: Choice)
    requires Drops(s.convertIds, p, ch) && ProcOk(c, s.srcs, s.born, s.w, p)
    ensures var t := ProcTurn(c, s, p, ch); t.self == None && t.spawned == []
  {
  }

  /** Who carries image i after a turn. */
  lemma {:induction false} CarriersAfter(s: State, pid: nat, t: Turn, i: ImageId)
    requires KeysBelow(s.procs, s.next) && pid in s.procs
    ensures Carried(Apply(s, pid, t), i) <==> CarriedByAnother(s, pid, i) || TurnCarries(t, i)
  {
    var s' := Apply(s, pid, t);
    ApplyMembers(s, pid, t);
    if q :| q in s.procs && q != pid && Carries(s.procs[q], i) {
      assert q in s'.procs && Carries(s'.procs[q], i);
    }
    if t.self.Some? && Carries(t.self.value, i) {
      assert Carries(s'.procs[pid], i);
    }
    if k :| 0 <= k < |t.spawned| && Carries(t.spawned[k], i) {
      assert Carries(s'.procs[s.next + k], i);
    }
    if q :| q in s'.procs && Carries(s'.procs[q], i) {
      if q != pid && q in s.procs {
        assert CarriedByAnother(s, pid, i);
      } else if q != pid {
        assert s'.procs[s.next + (q - s.next)] == t.spawned[q - s.next];
      }
    }
  }

  lemma {:induction false} TurnSticks(c: Codec, s: State, pid: nat, ch: Choice, i: ImageId)
    requires Inv(c, s) && pid in s.procs && !Stuck(s, i)
    ensures var p, t := s.procs[pid], ProcTurn(c, s, s.procs[pid], ch);
            i in t.world.images && !Terminal(t.world.images[i].status) && !CarriedByAnother(s, pid, i) ==>
              (TurnCarries(t, i) <==> !(Drops(s.convertIds, p, ch) && ImageOf(p) == i))
  {
    var p, t, t0 := s.procs[pid], ProcTurn(c, s, s.procs[pid], ch), ProcTurn(c, Clean(s), s.procs[pid], ch);
    ProcCare(c, s, pid, ch);
    ProcSame(c, s, p, ch);
    assert TurnCarries(t0, i) <==> TurnCarries(t, i);
    assert ProcOk(c, s.srcs, s.born, s.w, p);
    if Drops(s.convertIds, p, ch) { DropsEnds(c, s, p, ch); }
    if i in s.w.images && !Terminal(s.w.images[i].status) {
      assert Carried(s, i);
    }
  }

  lemma {:induction false} BegunSticks(s: State, srcs: Sources, p: Proc, i: ImageId)
    requires KeysBelow(s.procs, s.next) && !Carries(p, i)
    ensures Stuck(Begun(s.(srcs := srcs), p), i) <==> Stuck(s, i)
  {
    var s' := Begun(s.(srcs := srcs), p);
    if q :| q in s.procs && Carries(s.procs[q], i) { assert q in s'.procs && Carries(s'.procs[q], i); }
    if q :| q in s'.procs && Carries(s'.procs[q], i) { assert q in s.procs && Carries(s.procs[q], i); }
  }

  /** What the drop leaves of the row: open to be stranded, or gone, or final. */
  predicate LeavesOpen(w: World, p: Proc, i: ImageId) {
    match p
    case Creating(_, _, InsertRow) => true
    case Reprocessing(_, MarkConvert) => i in w.images
    case _ => i in w.images && !Terminal(w.images[i].status)
  }

  /** The step drops the image, the row is live and not final -- or becomes so by this very write --
      and nobody else carries the image. */
  ghost predicate Strands(s: State, a: Action, i: ImageId) {
    DroppedBy(s, a, i) && LeavesOpen(s.w, s.procs[a.pid], i) && !CarriedByAnother(s, a.pid, i)
  }

  ghost predicate OpenRow(w: World, i: ImageId) {
    i in w.images && !Terminal(w.images[i].status)
  }

  lemma {:induction false} RowAfterDrop(c: Codec, s: State, pid: nat, ch: Choice)
    requires Inv(c, s) && pid in s.procs && Drops(s.convertIds, s.procs[pid], ch)
    ensures var p := s.procs[pid];
            OpenRow(ProcTurn(c, s, p, ch).world, ImageOf(p)) <==> LeavesOpen(s.w, p, ImageOf(p))
  {
    assert ProcOk(c, s.srcs, s.born, s.w, s.procs[pid]);
  }

  lemma {:induction false} StrandsExactly(c: Codec, s: State, pid: nat, ch: Choice, i: ImageId)
    requires Inv(c, s) && pid in s.procs && Resumes(s.procs[pid], ch)
    ensures Strands(s, Resume(pid, ch), i) ==> Stuck(Step(c, s, Resume(pid, ch)), i)
    ensures !Stuck(s, i) && Stuck(Step(c, s, Resume(pid, ch)), i) ==> Strands(s, Resume(pid, ch), i)
  {
    var p := s.procs[pid];
    var t := ProcTurn(c, s, p, ch);
    CarriersAfter(s, pid, t, i);
    if !Stuck(s, i) { TurnSticks(c, s, pid, ch, i); }
    if Drops(s.convertIds, p, ch) && ImageOf(p) == i {
      RowAfterDrop(c, s, pid, ch);
      assert ProcOk(c, s.srcs, s.born, s.w, p);
      DropsEnds(c, s, p, ch);
    }
  }

  /** An image gets stuck in a step if and only if that step strands it. */
  lemma {:induction false} StuckExactlyByDropping(c: Codec, acts: seq<Action>, a: Action, i: ImageId)
    requires !Stuck(Reached(c, acts), i)
    ensures Stuck(Step(c, Reached(c, acts), a), i) <==> Strands(Reached(c, acts), a, i)
  {
    var s := Reached(c, acts);
    RunKeepsInv(c, acts);
    if Enabled(s, a) {
      match a {
        case Upload(src, j) => BegunSticks(s, s.srcs[j := src], Creating(j, Validate, PutOriginal), i);
        case Seed(src, j) => BegunSticks(s, s.srcs[j := src], Creating(j, Convert, PutOriginal), i);
        case Reprocess(j) => BegunSticks(s, s.srcs, Reprocessing(j, FindRow), i);
        case Remove(j) => BegunSticks(s, s.srcs, Removing(j, FindVictim), i);
        case Resume(pid, ch) => StrandsExactly(c, s, pid, ch, i);
      }
    }
  }

  // ---- The way back ----------------------------------------------------------------------------------------

  /** The two writes that get a stuck image moving again, or rid of it. */
  predicate RescuedBy(s: State, a: Action, i: ImageId) {
    a.Resume? && Enabled(s, a) &&
    match s.procs[a.pid]
    case Reprocessing(j, MarkConvert) => j == i && a.choice.outcome.Ok?
    case Removing(j, DeleteRow) => j == i && !a.choice.outcome.Rejected?
    case _ => false
  }

  predicate RowSame(w: World, w': World, i: ImageId) {
    (i in w'.images <==> i in w.images) && (i in w.images ==> w'.images[i] == w.images[i])
  }

  ghost predicate LeavesAlone(s: State, t: Turn, i: ImageId) {
    RowSame(s.w, t.world, i) && !TurnCarries(t, i)
  }

  lemma {:induction false} JobLeavesAlone(c: Codec, s: State, job: Job, ch: Choice, i: ImageId)
    requires TablesOk(c, s) && JobOk(c, s.srcs, s.born, s.w, job) && !job.phase.Failing? && job.imageId != i
    ensures LeavesAlone(s, JobTurn(c, s, job, ch), i)
  {
    JobAwaitOk(c, s.srcs, s.born, s.w, job, ch);
    var o, attempts, added := JobTurnShape(c, s, job, ch);
    var t := JobTurn(c, s, job, ch);
    forall k | 0 <= k < |t.spawned| ensures !Carries(t.spawned[k], i) {
      if k < |o.orphans| { assert t.spawned[k] == o.orphans[k]; } else { assert t.spawned[k] == added[0]; }
    }
  }

  lemma {:induction false} StragglerLeavesAlone(c: Codec, s: State, p: Proc, ch: Choice, i: ImageId)
    requires TablesOk(c, s) && ProcOk(c, s.srcs, s.born, s.w, p) && p.Straggler?
    ensures LeavesAlone(s, StragglerTurn(c, s, p, ch), i)
  {
    StragglerAwait(c, s.srcs, s.born, s.w, p, ch.outcome);
  }

  lemma {:induction false} CreateLeavesAlone(s: State, p: Proc, ch: Choice, i: ImageId)
    requires p.Creating? && p.imageId != i
    ensures LeavesAlone(s, CreateTurn(s, p, ch), i)
  {
  }

  lemma {:induction false} ReprocessLeavesAlone(s: State, p: Proc, ch: Choice, i: ImageId)
    requires p.Reprocessing? && p.imageId != i
    ensures LeavesAlone(s, ReprocessTurn(s, p, ch), i)
  {
  }

  lemma {:induction false} RemoveLeavesAlone(s: State, p: Proc, ch: Choice, i: ImageId)
    requires p.Removing? && p.imageId != i
    ensures LeavesAlone(s, RemoveTurn(s, p, ch), i)
  {
  }

  /** A turn concerns one image. */
  lemma {:induction false} TurnLeavesAlone(c: Codec, s: State, p: Proc, ch: Choice, i: ImageId)
    requires TablesOk(c, s) && ProcOk(c, s.srcs, s.born, s.w, p) && ImageOf(p) != i
    ensures LeavesAlone(s, ProcTurn(c, s, p, ch), i)
  {
    match p {
      case Worker(job) => if !job.phase.Failing? { JobLeavesAlone(c, s, job, ch, i); }
      case Straggler(_, _, _, _) => StragglerLeavesAlone(c, s, p, ch, i);
      case Creating(_, _, _) => CreateLeavesAlone(s, p, ch, i);
      case Reprocessing(_, _) => ReprocessLeavesAlone(s, p, ch, i);
      case Removing(_, _) => RemoveLeavesAlone(s, p, ch, i);
    }
  }

  /** Stuck, seen from the turn that may change it. */
  ghost predicate StaysStuck(t: Turn, i: ImageId) {
    OpenRow(t.world, i) && !TurnCarries(t, i)
  }

  lemma {:induction false} ReprocessOfStuck(s: State, p: Proc, ch: Choice)
    requires p.Reprocessing? && !p.reprocess.EnqueueFresh? && OpenRow(s.w, p.imageId)
    ensures StaysStuck(ReprocessTurn(s, p, ch), p.imageId) <==> !(p.reprocess.MarkConvert? && ch.outcome.Ok?)
  {
  }

  lemma {:induction false} RemoveOfStuck(s: State, p: Proc, ch: Choice)
    requires p.Removing? && OpenRow(s.w, p.imageId)
    ensures StaysStuck(RemoveTurn(s, p, ch), p.imageId) <==> !(p.remove.DeleteRow? && !ch.outcome.Rejected?)
  {
  }

  lemma {:induction false} StuckTurn(c: Codec, s: State, pid: nat, ch: Choice, i: ImageId)
    requires Inv(c, s) && pid in s.procs && Resumes(s.procs[pid], ch) && Stuck(s, i)
    ensures StaysStuck(ProcTurn(c, s, s.procs[pid], ch), i) <==> !RescuedBy(s, Resume(pid, ch), i)
  {
    var p := s.procs[pid];
    assert ProcOk(c, s.srcs, s.born, s.w, p) && !Carries(p, i);
    if ImageOf(p) != i {
      TurnLeavesAlone(c, s, p, ch, i);
    } else {
      match p {
        case Straggler(_, _, _, _) => StragglerLeavesAlone(c, s, p, ch, i);
        case Reprocessing(_, _) => ReprocessOfStuck(s, p, ch);
        case Removing(_, _) => RemoveOfStuck(s, p, ch);
        case _ =>
      }
    }
  }

  /** A stuck image stays stuck until a reprocess call marks it or a remove call deletes it. */
  lemma {:induction false} StuckUntilRescued(c: Codec, acts: seq<Action>, a: Action, i: ImageId)
    requires Stuck(Reached(c, acts), i)
    ensures Stuck(Step(c, Reached(c, acts), a), i) <==> !RescuedBy(Reached(c, acts), a, i)
  {
    var s := Reached(c, acts);
    RunKeepsInv(c, acts);
    if Enabled(s, a) {
      match a {
        case Upload(src, j) => BegunSticks(s, s.srcs[j := src], Creating(j, Validate, PutOriginal), i);
        case Seed(src, j) => BegunSticks(s, s.srcs[j := src], Creating(j, Convert, PutOriginal), i);
        case Reprocess(j) => BegunSticks(s, s.srcs, Reprocessing(j, FindRow), i);
        case Remove(j) => BegunSticks(s, s.srcs, Removing(j, FindVictim), i);
        case Resume(pid, ch) =>
          CarriersAfter(s, pid, ProcTurn(c, s, s.procs[pid], ch), i);
          StuckTurn(c, s, pid, ch, i);
      }
    }
  }

  // ---- Whole runs ------------------------------------------------------------------------------------------

  ghost predicate StrandsAt(c: Codec, acts: seq<Action>, k: nat, i: ImageId)
    requires k < |acts|
  {
    Strands(Reached(c, acts[..k]), acts[k], i)
  }

  ghost predicate RescuesAt(c: Codec, acts: seq<Action>, k: nat, i: ImageId)
    requires k < |acts|
  {
    RescuedBy(Reached(c, acts[..k]), acts[k], i)
  }

  ghost predicate StrandedSince(c: Codec, acts: seq<Action>, k: nat, i: ImageId) {
    k < |acts| && StrandsAt(c, acts, k, i) && forall m :: k < m < |acts| ==> !RescuesAt(c, acts, m, i)
  }

  /** Some step strands the image and no later one rescues it. */
  ghost predicate Stranded(c: Codec, acts: seq<Action>, i: ImageId) {
    exists k :: StrandedSince(c, acts, k, i)
  }

  lemma {:induction false} SamePast(c: Codec, acts: seq<Action>, k: nat, i: ImageId)
    requires k < |acts| - 1
    ensures var before := acts[..|acts| - 1];
            && (StrandsAt(c, acts, k, i) <==> StrandsAt(c, before, k, i))
            && (RescuesAt(c, acts, k, i) <==> RescuesAt(c, before, k, i))
  {
    assert acts[..|acts| - 1][..k] == acts[..k];
  }

  lemma {:induction false} StrandedSinceStep(c: Codec, acts: seq<Action>, k: nat, i: ImageId)
    requires k < |acts| - 1
    ensures StrandedSince(c, acts, k, i) <==>
              StrandedSince(c, acts[..|acts| - 1], k, i) && !RescuesAt(c, acts, |acts| - 1, i)
  {
    var n, before := |acts| - 1, acts[..|acts| - 1];
    SamePast(c, acts, k, i);
    if StrandedSince(c, acts, k, i) {
      forall m | k < m < n ensures !RescuesAt(c, before, m, i) { SamePast(c, acts, m, i); }
    }
    if StrandedSince(c, before, k, i) && !RescuesAt(c, acts, n, i) {
      forall m | k < m < |acts| ensures !RescuesAt(c, acts, m, i) {
        if m < n { SamePast(c, acts, m, i); }
      }
    }
  }

  lemma {:induction false} StrandedStep(c: Codec, acts: seq<Action>, i: ImageId)
    requires acts != []
    ensures Stranded(c, acts, i) <==>
              || StrandsAt(c, acts, |acts| - 1, i)
              || (Stranded(c, acts[..|acts| - 1], i) && !RescuesAt(c, acts, |acts| - 1, i))
  {
    var n := |acts| - 1;
    if k: nat :| StrandedSince(c, acts, k, i) && k < n { StrandedSinceStep(c, acts, k, i); }
    if k: nat :| StrandedSince(c, acts[..n], k, i) { StrandedSinceStep(c, acts, k, i); }
    if StrandsAt(c, acts, n, i) { assert StrandedSince(c, acts, n, i); }
  }

  /** After any run an image is stuck if and only if some step stranded it and no later step rescued it. */
  lemma {:induction false} StuckExactlyIfStranded(c: Codec, acts: seq<Action>, i: ImageId)
    ensures Stuck(Reached(c, acts), i) <==> Stranded(c, acts, i)
  {
    if acts != [] {
      var n, before, a := |acts| - 1, acts[..|acts| - 1], acts[|acts| - 1];
      StuckExactlyIfStranded(c, before, i);
      StrandedStep(c, acts, i);
      if Stuck(Reached(c, before), i) {
        StuckUntilRescued(c, before, a, i);
        if Strands(Reached(c, before), a, i) {
          RunKeepsInv(c, before);
          StrandsExactly(c, Reached(c, before), a.pid, a.choice, i);
        }
      } else {
        StuckExactlyByDropping(c, before, a, i);
      }
    }
  }

  lemma {:induction false} ReachedFrom(c: Codec, acts: seq<Action>, more: seq<Action>)
    ensures Exec(c, Reached(c, acts), more) == Reached(c, acts + more)
  {
    if more == [] {
      assert acts + [] == acts;
    } else {
      ReachedFrom(c, acts, more[..|more| - 1]);
      assert (acts + more)[..|acts + more| - 1] == acts + more[..|more| - 1];
    }
  }

  /** With no new entries every execution ends, and where it ends a live image is COMPLETED, FAILED or
      REJECTED if and only if it was not stranded for good. */
  lemma {:induction false} SettledImagesAreFinal(c: Codec, acts: seq<Action>, more: seq<Action>, i: ImageId)
    requires OnlyResumes(c, Reached(c, acts), more)
    ensures |more| <= Work(Reached(c, acts))
    ensures var s := Exec(c, Reached(c, acts), more);
            (forall a: Action :: a.Resume? ==> !Enabled(s, a)) && i in s.w.images ==>
              (Terminal(s.w.images[i].status) <==> !Stranded(c, acts + more, i))
  {
    PipelineSettles(c, acts, more);
    ReachedFrom(c, acts, more);
    StuckExactlyIfStranded(c, acts + more, i);
  }
}
