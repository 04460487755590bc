/**
 * The validation gate: an image that was not seeded is not accepted, converted, compressed, sized or
 * completed before a validation run admitted it -- except through a reprocess call, which has no status
 * guard.
 */
module Gate {
  import opened Keys
  import opened Tables
  import opened Machine
  import opened JobInvariant
  import opened PipelineInvariant
  import opened Guarantees
  import opened Tracking
  import opened Seeded

  /** A reprocess call sends a live row that was never admitted to conversion. */
  predicate BypassedBy(s: State, a: Action, i: ImageId) {
    && a.Resume? && Enabled(s, a) && s.procs[a.pid] == Reprocessing(i, MarkConvert)
    && !a.choice.outcome.Rejected? && i in s.w.images && s.w.images[i].measures.None?
  }

  predicate Bypassed(c: Codec, acts: seq<Action>, i: ImageId) {
    acts != [] &&
      (Bypassed(c, acts[..|acts| - 1], i) || BypassedBy(Reached(c, acts[..|acts| - 1]), acts[|acts| - 1], i))
  }

  /** Past validation, as the status has it. */
  predicate Advanced(status: Status) {
    status.ACCEPTED? || InStage(status) || status.COMPLETED?
  }

  /** The row, if live, carries what markAccepted writes. */
  predicate Admitted(w: World, i: ImageId) {
    i in w.images ==> w.images[i].measures.Some?
  }

  predicate RowGated(w: World, i: ImageId) {
    i in w.images && Advanced(w.images[i].status) ==> w.images[i].measures.Some?
  }

  predicate JobGated(w: World, i: ImageId, stage: Stage, phase: Phase) {
    (stage.Validate? && phase != Validating(VHandOff)) || Admitted(w, i)
  }

  predicate ProcGated(w: World, p: Proc, i: ImageId) {
    match p
    case Worker(job) => job.imageId == i ==> JobGated(w, i, job.stage, job.phase)
    case Creating(j, entry, _) => j == i ==> entry.Validate?
    case Reprocessing(j, reprocess) => j == i && reprocess.EnqueueFresh? ==> Admitted(w, i)
    case _ => true
  }

  ghost predicate GateInv(s: State, i: ImageId) {
    RowGated(s.w, i) && forall q :: q in s.procs ==> ProcGated(s.w, s.procs[q], i)
  }

  // ---- One turn ------------------------------------------------------------------------------------------

  predicate MeasuresStay(w: World, w': World, i: ImageId) {
    i in w.images && i in w'.images && w.images[i].measures.Some? ==> w'.images[i].measures.Some?
  }

  predicate OutcomeGated(w: World, i: ImageId, stage: Stage, o: Outcome) {
    && RowGated(o.world, i) && MeasuresStay(w, o.world, i) && (i in o.world.images ==> i in w.images)
    && (o.next.Goes? ==> JobGated(o.world, i, stage, o.next.phase))
    && (o.enqueued.Some? ==> Admitted(o.world, i))
  }

  lemma {:induction false} ValidateGated(c: Codec, w: World, i: ImageId, phase: ValidatePhase, ch: Choice)
    requires RowGated(w, i) && JobGated(w, i, Validate, Validating(phase))
    ensures OutcomeGated(w, i, Validate, ValidateAwait(c, w, i, phase, ch))
  {
  }

  lemma {:induction false} ConvertGated(c: Codec, w: World, i: ImageId, phase: ConvertPhase, ch: Choice)
    requires RowGated(w, i) && Admitted(w, i)
    ensures OutcomeGated(w, i, Convert, ConvertAwait(c, w, i, phase, ch))
  {
  }

  lemma {:induction false} CompressGated(c: Codec, w: World, i: ImageId, phase: CompressPhase, ch: Choice)
    requires RowGated(w, i) && Admitted(w, i)
    ensures OutcomeGated(w, i, Compress, CompressAwait(c, w, i, phase, ch))
  {
  }

  lemma {:induction false} VariantsGated(c: Codec, w: World, i: ImageId, phase: VariantsPhase, ch: Choice)
    requires RowGated(w, i) && Admitted(w, i)
    ensures OutcomeGated(w, i, Variants, VariantsAwait(c, w, i, phase, ch))
  {
  }

  lemma {:induction false} AwaitGated(c: Codec, srcs: Sources, w: World, job: Job, ch: Choice)
    requires PhaseOk(c, srcs, w, job.imageId, job.stage, job.phase) && !job.phase.Failing?
    requires RowGated(w, job.imageId) && JobGated(w, job.imageId, job.stage, job.phase)
    ensures OutcomeGated(w, job.imageId, job.stage, JobAwait(c, w, job, ch))
  {
    match job.phase {
      case Validating(v) => ValidateGated(c, w, job.imageId, v, ch);
      case Converting(n) => ConvertGated(c, w, job.imageId, n, ch);
      case Compressing(k) => CompressGated(c, w, job.imageId, k, ch);
      case Sizing(x) => VariantsGated(c, w, job.imageId, x, ch);
      case Queued =>
    }
  }

  ghost predicate TurnGated(w: World, t: Turn, i: ImageId) {
    && RowGated(t.world, i) && MeasuresStay(w, t.world, i)
    && (t.self.Some? ==> ProcGated(t.world, t.self.value, i))
    && (forall k :: 0 <= k < |t.spawned| ==> ProcGated(t.world, t.spawned[k], i))
  }

  lemma {:induction false} JobTurnGated(c: Codec, s: State, job: Job, ch: Choice)
    requires TablesOk(c, s) && JobOk(c, s.srcs, s.born, s.w, job) && !job.phase.Failing?
    requires RowGated(s.w, job.imageId) && JobGated(s.w, job.imageId, job.stage, job.phase)
    ensures TurnGated(s.w, JobTurn(c, s, job, ch), job.imageId)
  {
    AwaitGated(c, s.srcs, s.w, job, ch);
    ShapeOfOutcome(c, s, job, ch);
    var o, attempts, added := JobTurnShape(c, s, job, ch);
    var t := JobTurn(c, s, job, ch);
    forall k | 0 <= k < |t.spawned| ensures ProcGated(t.world, t.spawned[k], job.imageId) {
      if k < |o.orphans| { assert t.spawned[k] == o.orphans[k]; } else { assert t.spawned[k] == added[0]; }
    }
  }

  lemma {:induction false} HandlerGated(s: State, job: Job, ch: Choice)
    requires RowGated(s.w, job.imageId)
    ensures TurnGated(s.w, HandlerTurn(s, job, ch), job.imageId)
  {
  }

  lemma {:induction false} CreateGated(s: State, p: Proc, ch: Choice)
    requires p.Creating? && RowGated(s.w, p.imageId) && p.entry.Validate?
    ensures TurnGated(s.w, CreateTurn(s, p, ch), p.imageId)
  {
  }

  lemma {:induction false} ReprocessGated(s: State, p: Proc, ch: Choice)
    requires p.Reprocessing? && RowGated(s.w, p.imageId)
    requires p.reprocess.EnqueueFresh? ==> Admitted(s.w, p.imageId)
    requires p.reprocess.MarkConvert? ==> ch.outcome.Rejected? || Admitted(s.w, p.imageId)
    ensures TurnGated(s.w, ReprocessTurn(s, p, ch), p.imageId)
  {
  }

  lemma {:induction false} RemoveGated(s: State, p: Proc, ch: Choice)
    requires p.Removing? && RowGated(s.w, p.imageId)
    ensures TurnGated(s.w, RemoveTurn(s, p, ch), p.imageId)
  {
  }

  lemma {:induction false} OthersGated(c: Codec, s: State, p: Proc, ch: Choice, i: ImageId)
    requires TablesOk(c, s) && ProcOk(c, s.srcs, s.born, s.w, p) && RowGated(s.w, i) && ImageOf(p) != i
    ensures TurnGated(s.w, ProcTurn(c, s, p, ch), i)
  {
    TurnLeavesAlone(c, s, p, ch, i);
    CreatorOrigin(c, s, p, ch);
    CallerOrigin(c, s, p, ch);
    var t := ProcTurn(c, s, p, ch);
    forall k | 0 <= k < |t.spawned| ensures ProcGated(t.world, t.spawned[k], i) {
      assert !Carries(t.spawned[k], i) && !t.spawned[k].Creating?;
    }
  }

  /** Only a reprocess call goes on as one. */
  lemma {:induction false} CallerOrigin(c: Codec, s: State, p: Proc, ch: Choice)
    ensures var self := ProcTurn(c, s, p, ch).self;
            self.Some? && self.value.Reprocessing? ==> p.Reprocessing? && self.value.imageId == p.imageId
  {
  }

  lemma {:induction false} AnyTurnGated(c: Codec, s: State, pid: nat, ch: Choice, i: ImageId)
    requires Inv(c, s) && pid in s.procs && Resumes(s.procs[pid], ch)
    requires GateInv(s, i) && !BypassedBy(s, Resume(pid, ch), i)
    ensures TurnGated(s.w, ProcTurn(c, s, s.procs[pid], ch), i)
  {
    var p := s.procs[pid];
    assert ProcOk(c, s.srcs, s.born, s.w, p) && ProcGated(s.w, p, i);
    if ImageOf(p) != i {
      OthersGated(c, s, p, ch, i);
    } else {
      match p {
        case Worker(job) => if job.phase.Failing? { HandlerGated(s, job, ch); } else { JobTurnGated(c, s, job, ch); }
        case Straggler(_, _, _, _) => StragglerLeavesAlone(c, s, p, ch, i);
        case Creating(_, _, _) => CreateGated(s, p, ch);
        case Reprocessing(_, _) => ReprocessGated(s, p, ch);
        case Removing(_, _) => RemoveGated(s, p, ch);
      }
    }
  }

  // ---- Whole runs ------------------------------------------------------------------------------------------

  lemma {:induction false} OtherStaysGated(c: Codec, s: State, pid: nat, ch: Choice, q: nat, i: ImageId)
    requires Inv(c, s) && pid in s.procs && q in s.procs && ProcGated(s.w, s.procs[q], i)
    requires MeasuresStay(s.w, ProcTurn(c, s, s.procs[pid], ch).world, i)
    ensures ProcGated(ProcTurn(c, s, s.procs[pid], ch).world, s.procs[q], i)
  {
    ProcTurnOk(c, s, pid, ch);
    assert ProcOk(c, s.srcs, s.born, s.w, s.procs[q]);
  }

  lemma {:induction false} StepGated(c: Codec, s: State, a: Action, i: ImageId)
    requires Inv(c, s) && GateInv(s, i) && a.Resume? && !BypassedBy(s, a, i)
    ensures GateInv(Step(c, s, a), i)
  {
    if Enabled(s, a) {
      var t := ProcTurn(c, s, s.procs[a.pid], a.choice);
      var s' := Apply(s, a.pid, t);
      AnyTurnGated(c, s, a.pid, a.choice, i);
      ApplyMembers(s, a.pid, t);
      forall q | q in s'.procs ensures ProcGated(s'.w, s'.procs[q], i) {
        if q != a.pid && q in s.procs {
          OtherStaysGated(c, s, a.pid, a.choice, q, i);
        } else if q != a.pid {
          assert s'.procs[s.next + (q - s.next)] == t.spawned[q - s.next];
        }
      }
    }
  }

  lemma {:induction false} BeginGated(c: Codec, s: State, a: Action, i: ImageId)
    requires GateInv(s, i) && !a.Resume? && !EntersAt(s, a, i, Convert)
    ensures GateInv(Step(c, s, a), i)
  {
  }

  lemma {:induction false} BypassOpens(c: Codec, s: State, a: Action, i: ImageId)
    requires BypassedBy(s, a, i)
    ensures !RowGated(Step(c, s, a).w, i)
  {
  }

  lemma {:induction false} GateAlongRun(c: Codec, acts: seq<Action>, i: ImageId)
    requires !Enters(c, acts, i, Convert) && !Bypassed(c, acts, i)
    ensures GateInv(Reached(c, acts), i)
  {
    if acts != [] {
      var before, a := acts[..|acts| - 1], acts[|acts| - 1];
      GateAlongRun(c, before, i);
      RunKeepsInv(c, before);
      if a.Resume? { StepGated(c, Reached(c, before), a, i); } else { BeginGated(c, Reached(c, before), a, i); }
    }
  }

  /** At every point of the run: past validation only with the measures of an admitting verdict. */
  predicate GatedThroughout(c: Codec, acts: seq<Action>, i: ImageId) {
    RowGated(Reached(c, acts).w, i) && (acts == [] || GatedThroughout(c, acts[..|acts| - 1], i))
  }

  /** The gate holds all along a run if and only if no reprocess call sent a row through that was never
      admitted. */
  lemma {:induction false} GateHoldsExactlyUnlessBypassed(c: Codec, acts: seq<Action>, i: ImageId)
    requires !Enters(c, acts, i, Convert)
    ensures GatedThroughout(c, acts, i) <==> !Bypassed(c, acts, i)
  {
    if acts != [] {
      var before, a := acts[..|acts| - 1], acts[|acts| - 1];
      GateHoldsExactlyUnlessBypassed(c, before, i);
      if !Bypassed(c, acts, i) {
        GateAlongRun(c, acts, i);
      } else if BypassedBy(Reached(c, before), a, i) {
        BypassOpens(c, Reached(c, before), a, i);
      }
    }
  }

  /** Without such a call, no job of a later stage exists for a live row that was never admitted. */
  lemma {:induction false} OnlyAdmittedAreProcessed(c: Codec, acts: seq<Action>, i: ImageId)
    requires !Enters(c, acts, i, Convert) && !Bypassed(c, acts, i)
    ensures var s := Reached(c, acts);
            i in s.w.images && s.w.images[i].measures.None? ==>
              && !Advanced(s.w.images[i].status)
              && (forall q :: q in s.procs && s.procs[q].Worker? && s.procs[q].job.imageId == i ==>
                    s.procs[q].job.stage.Validate?)
  {
    GateAlongRun(c, acts, i);
    var s := Reached(c, acts);
    if i in s.w.images && s.w.images[i].measures.None? {
      forall q | q in s.procs && s.procs[q].Worker? && s.procs[q].job.imageId == i
        ensures s.procs[q].job.stage.Validate?
      {
        assert ProcGated(s.w, s.procs[q], i);
      }
    }
  }
}
