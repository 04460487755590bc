/**
 * Images that enter by seedForPipeline never meet the validator chain: whatever happens later, they are
 * never PENDING, PROCESSING or REJECTED, so once everything is over they are COMPLETED, FAILED or
 * stranded.
 */
module Seeded {
  import opened Keys
  import opened Tables
  import opened Machine
  import opened JobInvariant
  import opened PipelineInvariant
  import opened Guarantees
  import opened Tracking

  /** Some step of the run began the image with an upload (entry Validate) or a seed call. */
  predicate Enters(c: Codec, acts: seq<Action>, i: ImageId, entry: Stage) {
    acts != [] &&
      (Enters(c, acts[..|acts| - 1], i, entry) || EntersAt(Reached(c, acts[..|acts| - 1]), acts[|acts| - 1], i, entry))
  }

  predicate EntersAt(s: State, a: Action, i: ImageId, entry: Stage) {
    Enabled(s, a) &&
    match a
    case Upload(_, j) => entry.Validate? && j == i
    case Seed(_, j) => entry.Convert? && j == i
    case _ => false
  }

  predicate BeyondValidation(status: Status) {
    !status.PENDING? && !status.PROCESSING? && !status.REJECTED?
  }

  predicate RowBeyond(w: World, i: ImageId) {
    i in w.images ==> BeyondValidation(w.images[i].status)
  }

  /** The process will not validate image i. */
  predicate SkipsValidation(p: Proc, i: ImageId) {
    match p
    case Worker(job) => job.imageId == i ==> !job.stage.Validate?
    case Creating(j, entry, _) => j == i ==> entry.Convert?
    case _ => true
  }

  ghost predicate SeedInv(s: State, i: ImageId) {
    i in s.srcs && RowBeyond(s.w, i) && forall q :: q in s.procs ==> SkipsValidation(s.procs[q], i)
  }

  // ---- One turn ------------------------------------------------------------------------------------------

  ghost predicate TurnSkips(t: Turn, i: ImageId) {
    && RowBeyond(t.world, i)
    && (t.self.Some? ==> SkipsValidation(t.self.value, i))
    && (forall k :: 0 <= k < |t.spawned| ==> SkipsValidation(t.spawned[k], i))
  }

  lemma {:induction false} ConvertBeyond(c: Codec, w: World, i: ImageId, phase: ConvertPhase, ch: Choice)
    requires RowBeyond(w, i)
    ensures RowBeyond(ConvertAwait(c, w, i, phase, ch).world, i)
  {
  }

  lemma {:induction false} CompressBeyond(c: Codec, w: World, i: ImageId, phase: CompressPhase, ch: Choice)
    requires RowBeyond(w, i)
    ensures RowBeyond(CompressAwait(c, w, i, phase, ch).world, i)
  {
  }

  lemma {:induction false} VariantsBeyond(c: Codec, w: World, i: ImageId, phase: VariantsPhase, ch: Choice)
    requires RowBeyond(w, i)
    ensures RowBeyond(VariantsAwait(c, w, i, phase, ch).world, i)
  {
  }

  lemma {:induction false} JobBeyond(c: Codec, srcs: Sources, w: World, job: Job, ch: Choice)
    requires PhaseOk(c, srcs, w, job.imageId, job.stage, job.phase) && !job.stage.Validate?
    requires RowBeyond(w, job.imageId)
    ensures RowBeyond(JobAwait(c, w, job, ch).world, job.imageId)
  {
    match job.phase {
      case Converting(n) => ConvertBeyond(c, w, job.imageId, n, ch);
      case Compressing(k) => CompressBeyond(c, w, job.imageId, k, ch);
      case Sizing(x) => VariantsBeyond(c, w, job.imageId, x, ch);
      case _ =>
    }
  }

  lemma {:induction false} JobSkips(c: Codec, s: State, job: Job, ch: Choice)
    requires TablesOk(c, s) && JobOk(c, s.srcs, s.born, s.w, job) && !job.phase.Failing? && !job.stage.Validate?
    requires RowBeyond(s.w, job.imageId)
    ensures TurnSkips(JobTurn(c, s, job, ch), job.imageId)
  {
    JobBeyond(c, s.srcs, s.w, job, ch);
    ShapeOfOutcome(c, s, job, ch);
    var o, attempts, added := JobTurnShape(c, s, job, ch);
    var t := JobTurn(c, s, job, ch);
    forall k | 0 <= k < |t.spawned| ensures SkipsValidation(t.spawned[k], job.imageId) {
      if k < |o.orphans| { assert t.spawned[k] == o.orphans[k]; } else { assert t.spawned[k] == added[0]; }
    }
  }

  lemma {:induction false} CreateSkips(s: State, p: Proc, ch: Choice)
    requires p.Creating? && SkipsValidation(p, p.imageId) && RowBeyond(s.w, p.imageId)
    ensures TurnSkips(CreateTurn(s, p, ch), p.imageId)
  {
  }

  lemma {:induction false} ReprocessSkips(s: State, p: Proc, ch: Choice)
    requires p.Reprocessing? && RowBeyond(s.w, p.imageId)
    ensures TurnSkips(ReprocessTurn(s, p, ch), p.imageId)
  {
  }

  lemma {:induction false} RemoveSkips(s: State, p: Proc, ch: Choice)
    requires p.Removing? && RowBeyond(s.w, p.imageId)
    ensures TurnSkips(RemoveTurn(s, p, ch), p.imageId)
  {
  }

  lemma {:induction false} OwnTurnSkips(c: Codec, s: State, p: Proc, ch: Choice, i: ImageId)
    requires TablesOk(c, s) && ProcOk(c, s.srcs, s.born, s.w, p) && ImageOf(p) == i
    requires SkipsValidation(p, i) && RowBeyond(s.w, i)
    ensures TurnSkips(ProcTurn(c, s, p, ch), i)
  {
    match p {
      case Worker(job) => if !job.phase.Failing? { JobSkips(c, s, job, ch); }
      case Straggler(_, _, _, _) => StragglerLeavesAlone(c, s, p, ch, i);
      case Creating(_, _, _) => CreateSkips(s, p, ch);
      case Reprocessing(_, _) => ReprocessSkips(s, p, ch);
      case Removing(_, _) => RemoveSkips(s, p, ch);
    }
  }

  ghost predicate NoNewCreator(t: Turn) {
    && (t.self.Some? ==> !t.self.value.Creating?)
    && (forall k :: 0 <= k < |t.spawned| ==> !t.spawned[k].Creating?)
  }

  lemma {:induction false} JobCreatesNone(c: Codec, s: State, job: Job, ch: Choice)
    requires TablesOk(c, s) && JobOk(c, s.srcs, s.born, s.w, job) && !job.phase.Failing?
    ensures NoNewCreator(JobTurn(c, s, job, ch))
  {
    ShapeOfOutcome(c, s, job, ch);
    var o, attempts, added := JobTurnShape(c, s, job, ch);
    var t := JobTurn(c, s, job, ch);
    forall k | 0 <= k < |t.spawned| ensures !t.spawned[k].Creating? {
      if k < |o.orphans| { assert t.spawned[k] == o.orphans[k]; } else { assert t.spawned[k] == added[0]; }
    }
  }

  lemma {:induction false} CreateCreatesNone(s: State, p: Proc, ch: Choice)
    requires p.Creating?
    ensures var t := CreateTurn(s, p, ch);
            && (t.self.Some? ==> t.self.value.Creating? && t.self.value.imageId == p.imageId)
            && (forall k :: 0 <= k < |t.spawned| ==> !t.spawned[k].Creating?)
  {
  }

  /** Only a creating call goes on as one, and none is ever spawned. */
  lemma {:induction false} CreatorOrigin(c: Codec, s: State, p: Proc, ch: Choice)
    requires TablesOk(c, s) && ProcOk(c, s.srcs, s.born, s.w, p)
    ensures var t := ProcTurn(c, s, p, ch);
            && (t.self.Some? && t.self.value.Creating? ==> p.Creating? && t.self.value.imageId == p.imageId)
            && (forall k :: 0 <= k < |t.spawned| ==> !t.spawned[k].Creating?)
  {
    match p {
      case Worker(job) => if !job.phase.Failing? { JobCreatesNone(c, s, job, ch); }
      case Creating(_, _, _) => CreateCreatesNone(s, p, ch);
      case _ => assert NoNewCreator(ProcTurn(c, s, p, ch));
    }
  }

  lemma {:induction false} AnyTurnSkips(c: Codec, s: State, p: Proc, ch: Choice, i: ImageId)
    requires TablesOk(c, s) && ProcOk(c, s.srcs, s.born, s.w, p)
    requires SkipsValidation(p, i) && RowBeyond(s.w, i)
    ensures TurnSkips(ProcTurn(c, s, p, ch), i)
  {
    if ImageOf(p) == i {
      OwnTurnSkips(c, s, p, ch, i);
    } else {
      TurnLeavesAlone(c, s, p, ch, i);
      CreatorOrigin(c, s, p, ch);
      var t := ProcTurn(c, s, p, ch);
      forall k | 0 <= k < |t.spawned| ensures SkipsValidation(t.spawned[k], i) {
        assert !Carries(t.spawned[k], i) && !t.spawned[k].Creating?;
      }
    }
  }

  // ---- Whole runs ------------------------------------------------------------------------------------------

  lemma {:induction false} ApplySkips(c: Codec, s: State, pid: nat, ch: Choice, i: ImageId)
    requires Inv(c, s) && pid in s.procs && SeedInv(s, i)
    ensures SeedInv(Apply(s, pid, ProcTurn(c, s, s.procs[pid], ch)), i)
  {
    var t := ProcTurn(c, s, s.procs[pid], ch);
    var s' := Apply(s, pid, t);
    assert ProcOk(c, s.srcs, s.born, s.w, s.procs[pid]);
    AnyTurnSkips(c, s, s.procs[pid], ch, i);
    ApplyMembers(s, pid, t);
    forall q | q in s'.procs ensures SkipsValidation(s'.procs[q], i) {
      if q != pid && q !in s.procs { assert s'.procs[s.next + (q - s.next)] == t.spawned[q - s.next]; }
    }
  }

  lemma {:induction false} StepSkips(c: Codec, s: State, a: Action, i: ImageId)
    requires Inv(c, s) && SeedInv(s, i)
    ensures SeedInv(Step(c, s, a), i)
  {
    if Enabled(s, a) && a.Resume? { ApplySkips(c, s, a.pid, a.choice, i); }
  }

  lemma {:induction false} SeedBegins(c: Codec, s: State, src: Source, i: ImageId)
    requires Inv(c, s) && Enabled(s, Seed(src, i))
    ensures SeedInv(Step(c, s, Seed(src, i)), i)
  {
    forall q | q in s.procs ensures SkipsValidation(s.procs[q], i) {
      assert ProcOk(c, s.srcs, s.born, s.w, s.procs[q]);
    }
  }

  lemma {:induction false} SeedInvAlongRun(c: Codec, acts: seq<Action>, i: ImageId)
    requires Enters(c, acts, i, Convert)
    ensures SeedInv(Reached(c, acts), i)
  {
    var before, a := acts[..|acts| - 1], acts[|acts| - 1];
    RunKeepsInv(c, before);
    if Enters(c, before, i, Convert) {
      SeedInvAlongRun(c, before, i);
      StepSkips(c, Reached(c, before), a, i);
    } else {
      SeedBegins(c, Reached(c, before), a.src, i);
    }
  }

  /** A seeded image is never PENDING, PROCESSING or REJECTED, reprocessed or not, and no validation job
      ever runs for it. */
  lemma {:induction false} SeededNeverValidated(c: Codec, acts: seq<Action>, i: ImageId)
    requires Enters(c, acts, i, Convert)
    ensures var s := Reached(c, acts);
            && (i in s.w.images ==> BeyondValidation(s.w.images[i].status))
            && (forall q :: q in s.procs && s.procs[q].Worker? && s.procs[q].job.imageId == i ==>
                  !s.procs[q].job.stage.Validate?)
  {
    SeedInvAlongRun(c, acts, i);
    var s := Reached(c, acts);
    forall q | q in s.procs && s.procs[q].Worker? && s.procs[q].job.imageId == i
      ensures !s.procs[q].job.stage.Validate?
    {
      assert SkipsValidation(s.procs[q], i);
    }
  }

  /** Once everything is over, a live seeded image is COMPLETED or FAILED if and only if it was not
      stranded for good. */
  lemma {:induction false} SeededSettles(c: Codec, acts: seq<Action>, more: seq<Action>, i: ImageId)
    requires OnlyResumes(c, Reached(c, acts), more) && Enters(c, acts + more, i, Convert)
    ensures var s := Exec(c, Reached(c, acts), more);
            (forall a: Action :: a.Resume? ==> !Enabled(s, a)) && i in s.w.images ==>
              var status := s.w.images[i].status;
              (status.COMPLETED? || status.FAILED?) <==> !Stranded(c, acts + more, i)
  {
    SettledImagesAreFinal(c, acts, more, i);
    ReachedFrom(c, acts, more);
    SeededNeverValidated(c, acts + more, i);
  }
}
