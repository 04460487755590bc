/**
 * What a row says about its validation verdict is what some verdict on it said.
 */
module Admission {
  import opened Keys
  import opened Tables
  import opened Machine
  import opened JobInvariant
  import opened PipelineInvariant
  import opened Guarantees
  import opened Tracking

  // ---- Verdicts on one image -------------------------------------------------------------------------------

  /** What is known of every verdict: of the measures it admits with, and of the reasons it refuses with. */
  datatype Judge = Judge(good: Measures -> bool, just: seq<RejectionReason> -> bool)

  predicate Upholds(j: Judge, verdict: Verdict) {
    match verdict
    case Refuse(reasons) => j.just(reasons)
    case Admit(measures, _) => j.good(measures)
  }

  predicate UpheldBy(j: Judge, job: Job, ch: Choice) {
    job.phase.Validating? && job.phase.v.VCheck? && ch.outcome.Ok? ==> Upholds(j, ch.verdict)
  }

  predicate UpheldAt(j: Judge, s: State, a: Action, i: ImageId) {
    a.Resume? && Enabled(s, a) && s.procs[a.pid].Worker? && s.procs[a.pid].job.imageId == i ==>
      UpheldBy(j, s.procs[a.pid].job, a.choice)
  }

  /** Every verdict on image i in the run is as the judge says. */
  predicate Upheld(c: Codec, j: Judge, acts: seq<Action>, i: ImageId) {
    acts == [] ||
      (Upheld(c, j, acts[..|acts| - 1], i) && UpheldAt(j, Reached(c, acts[..|acts| - 1]), acts[|acts| - 1], i))
  }

  predicate RowUpholds(j: Judge, w: World, i: ImageId) {
    i in w.images ==>
      && (w.images[i].measures.Some? ==> j.good(w.images[i].measures.value))
      && (w.images[i].status.REJECTED? ==>
            w.images[i].rejectionReasons.Some? && j.just(w.images[i].rejectionReasons.value))
  }

  predicate PhaseUpholds(j: Judge, phase: Phase) {
    match phase
    case Validating(VReject(reasons)) => j.just(reasons)
    case Validating(VDisplay(_, _, measures)) => j.good(measures)
    case Validating(VAccept(measures, _)) => j.good(measures)
    case _ => true
  }

  predicate ProcUpholds(j: Judge, p: Proc, i: ImageId) {
    p.Worker? && p.job.imageId == i ==> PhaseUpholds(j, p.job.phase)
  }

  ghost predicate UpheldInv(j: Judge, s: State, i: ImageId) {
    RowUpholds(j, s.w, i) && forall q :: q in s.procs ==> ProcUpholds(j, s.procs[q], i)
  }

  ghost predicate OutcomeUpholds(j: Judge, o: Outcome, i: ImageId) {
    RowUpholds(j, o.world, i) && (o.next.Goes? ==> PhaseUpholds(j, o.next.phase))
  }

  lemma {:induction false} ValidateUpholds(j: Judge, c: Codec, w: World, i: ImageId, phase: ValidatePhase, ch: Choice)
    requires RowUpholds(j, w, i) && PhaseUpholds(j, Validating(phase))
    requires phase.VCheck? && ch.outcome.Ok? ==> Upholds(j, ch.verdict)
    ensures OutcomeUpholds(j, ValidateAwait(c, w, i, phase, ch), i)
  {
  }

  lemma {:induction false} ConvertUpholds(j: Judge, c: Codec, w: World, i: ImageId, phase: ConvertPhase, ch: Choice)
    requires RowUpholds(j, w, i)
    ensures OutcomeUpholds(j, ConvertAwait(c, w, i, phase, ch), i)
  {
  }

  lemma {:induction false} CompressUpholds(j: Judge, c: Codec, w: World, i: ImageId, phase: CompressPhase, ch: Choice)
    requires RowUpholds(j, w, i)
    ensures OutcomeUpholds(j, CompressAwait(c, w, i, phase, ch), i)
  {
  }

  lemma {:induction false} VariantsUpholds(j: Judge, c: Codec, w: World, i: ImageId, phase: VariantsPhase, ch: Choice)
    requires RowUpholds(j, w, i)
    ensures OutcomeUpholds(j, VariantsAwait(c, w, i, phase, ch), i)
  {
  }

  lemma {:induction false} JobUpholds(j: Judge, c: Codec, w: World, job: Job, ch: Choice)
    requires RowUpholds(j, w, job.imageId) && PhaseUpholds(j, job.phase) && UpheldBy(j, job, ch)
    ensures OutcomeUpholds(j, JobAwait(c, w, job, ch), job.imageId)
  {
    match job.phase {
      case Validating(v) => ValidateUpholds(j, c, w, job.imageId, v, ch);
      case Converting(n) => ConvertUpholds(j, c, w, job.imageId, n, ch);
      case Compressing(k) => CompressUpholds(j, c, w, job.imageId, k, ch);
      case Sizing(x) => VariantsUpholds(j, c, w, job.imageId, x, ch);
      case _ =>
    }
  }

  ghost predicate TurnUpholds(j: Judge, t: Turn, i: ImageId) {
    && RowUpholds(j, t.world, i)
    && (t.self.Some? ==> ProcUpholds(j, t.self.value, i))
    && (forall k :: 0 <= k < |t.spawned| ==> ProcUpholds(j, t.spawned[k], i))
  }

  lemma {:induction false} JobTurnUpholds(j: Judge, c: Codec, s: State, job: Job, ch: Choice)
    requires TablesOk(c, s) && JobOk(c, s.srcs, s.born, s.w, job) && !job.phase.Failing?
    requires RowUpholds(j, s.w, job.imageId) && PhaseUpholds(j, job.phase) && UpheldBy(j, job, ch)
    ensures TurnUpholds(j, JobTurn(c, s, job, ch), job.imageId)
  {
    JobUpholds(j, c, s.w, job, ch);
    ShapeOfOutcome(c, s, job, ch);
    var o, attempts, added := JobTurnShape(c, s, job, ch);
    var t := JobTurn(c, s, job, ch);
    forall k | 0 <= k < |t.spawned| ensures ProcUpholds(j, t.spawned[k], job.imageId) {
      if k < |o.orphans| { assert t.spawned[k] == o.orphans[k]; } else { assert t.spawned[k] == added[0]; }
    }
  }

  lemma {:induction false} HandlerUpholds(j: Judge, s: State, job: Job, ch: Choice)
    requires RowUpholds(j, s.w, job.imageId)
    ensures TurnUpholds(j, HandlerTurn(s, job, ch), job.imageId)
  {
  }

  lemma {:induction false} CreateUpholds(j: Judge, s: State, p: Proc, ch: Choice)
    requires p.Creating? && RowUpholds(j, s.w, p.imageId)
    ensures TurnUpholds(j, CreateTurn(s, p, ch), p.imageId)
  {
  }

  lemma {:induction false} ReprocessUpholds(j: Judge, s: State, p: Proc, ch: Choice)
    requires p.Reprocessing? && RowUpholds(j, s.w, p.imageId)
    ensures TurnUpholds(j, ReprocessTurn(s, p, ch), p.imageId)
  {
  }

  lemma {:induction false} RemoveUpholds(j: Judge, s: State, p: Proc, ch: Choice)
    requires p.Removing? && RowUpholds(j, s.w, p.imageId)
    ensures TurnUpholds(j, RemoveTurn(s, p, ch), p.imageId)
  {
  }

  lemma {:induction false} AnyTurnUpholds(j: Judge, c: Codec, s: State, p: Proc, ch: Choice, i: ImageId)
    requires TablesOk(c, s) && ProcOk(c, s.srcs, s.born, s.w, p) && RowUpholds(j, s.w, i) && ProcUpholds(j, p, i)
    requires p.Worker? && p.job.imageId == i ==> UpheldBy(j, p.job, ch)
    ensures TurnUpholds(j, ProcTurn(c, s, p, ch), i)
  {
    if ImageOf(p) != i {
      TurnLeavesAlone(c, s, p, ch, i);
      var t := ProcTurn(c, s, p, ch);
      forall k | 0 <= k < |t.spawned| ensures ProcUpholds(j, t.spawned[k], i) {
        assert !Carries(t.spawned[k], i);
      }
    } else {
      match p {
        case Worker(job) =>
          if job.phase.Failing? { HandlerUpholds(j, s, job, ch); } else { JobTurnUpholds(j, c, s, job, ch); }
        case Straggler(_, _, _, _) => StragglerLeavesAlone(c, s, p, ch, i);
        case Creating(_, _, _) => CreateUpholds(j, s, p, ch);
        case Reprocessing(_, _) => ReprocessUpholds(j, s, p, ch);
        case Removing(_, _) => RemoveUpholds(j, s, p, ch);
      }
    }
  }

  lemma {:induction false} StepUpholds(j: Judge, c: Codec, s: State, a: Action, i: ImageId)
    requires Inv(c, s) && UpheldInv(j, s, i) && UpheldAt(j, s, a, i)
    ensures UpheldInv(j, Step(c, s, a), i)
  {
    if Enabled(s, a) && a.Resume? {
      var t := ProcTurn(c, s, s.procs[a.pid], a.choice);
      var s' := Apply(s, a.pid, t);
      assert ProcOk(c, s.srcs, s.born, s.w, s.procs[a.pid]) && ProcUpholds(j, s.procs[a.pid], i);
      AnyTurnUpholds(j, c, s, s.procs[a.pid], a.choice, i);
      ApplyMembers(s, a.pid, t);
      forall q | q in s'.procs ensures ProcUpholds(j, s'.procs[q], i) {
        if q != a.pid && q !in s.procs { assert s'.procs[s.next + (q - s.next)] == t.spawned[q - s.next]; }
      }
    }
  }

  lemma {:induction false} UpheldAlongRun(j: Judge, c: Codec, acts: seq<Action>, i: ImageId)
    requires Upheld(c, j, acts, i)
    ensures UpheldInv(j, Reached(c, acts), i)
  {
    if acts != [] {
      var before := acts[..|acts| - 1];
      UpheldAlongRun(j, c, before, i);
      RunKeepsInv(c, before);
      StepUpholds(j, c, Reached(c, before), acts[|acts| - 1], i);
    }
  }

  /** Whatever holds of every verdict on an image holds of what its row says: of the measures it was
      admitted with, and, while it is REJECTED, of the stored reasons.  No failure, retry, reprocess or
      final error mixes anything else in. */
  lemma {:induction false} RowsReportVerdicts(c: Codec, j: Judge, acts: seq<Action>, i: ImageId)
    requires Upheld(c, j, acts, i)
    ensures var s := Reached(c, acts);
            i in s.w.images ==>
              && (s.w.images[i].measures.Some? ==> j.good(s.w.images[i].measures.value))
              && (s.w.images[i].status.REJECTED? ==>
                    s.w.images[i].rejectionReasons.Some? && j.just(s.w.images[i].rejectionReasons.value))
  {
    UpheldAlongRun(j, c, acts, i);
  }
}
