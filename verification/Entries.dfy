/**
 * How jobs come into being, how calls end, and what the ledger of runs counts: all told by the await a step
 * resumes and by what it comes to.
 */
module Entries {
  import opened Wrappers
  import opened Keys
  import opened Tables
  import opened Machine
  import opened JobInvariant
  import opened PipelineInvariant
  import opened Guarantees

  // ---- Who adds which job ----------------------------------------------------------------------------------

  /** The job an await adds if it takes effect: its image and its stage. */
  predicate Adds(p: Proc, i: ImageId, stage: Stage) {
    match p
    case Creating(j, entry, EnqueueEntry) => i == j && stage == entry
    case Reprocessing(j, EnqueueFresh) => i == j && stage.Convert?
    case Worker(job) =>
      i == job.imageId &&
      (match stage
       case Validate => false
       case Convert => job.phase == Validating(VHandOff)
       case Compress => job.phase == Converting(CHandOff)
       case Variants => job.phase == Compressing(KHandOff))
    case _ => false
  }

  /** A validation hand-off finds the deterministic id of its convert job taken. */
  predicate Swallowed(convertIds: set<ImageId>, p: Proc) {
    p.Worker? && p.job.phase == Validating(VHandOff) && p.job.imageId in convertIds
  }

  ghost predicate IsAdded(ps: seq<Proc>, i: ImageId, stage: Stage) {
    exists k :: 0 <= k < |ps| && IsNewJob(ps[k], i, stage)
  }

  predicate IsNewJob(p: Proc, i: ImageId, stage: Stage) {
    p.Worker? && p.job.imageId == i && p.job.stage == stage && p.job.phase.Queued? && p.job.attemptsMade == 0
  }

  predicate AwaitAdds(convertIds: set<ImageId>, p: Proc, ch: Choice, i: ImageId, stage: Stage) {
    Adds(p, i, stage) && !ch.outcome.Rejected? && !Swallowed(convertIds, p)
  }

  /** What a turn's new jobs are: at most one, and the one its await adds. */
  ghost predicate TurnAdds(convertIds: set<ImageId>, p: Proc, ch: Choice, t: Turn) {
    && (forall i, stage :: IsAdded(t.spawned, i, stage) <==> AwaitAdds(convertIds, p, ch, i, stage))
    && (forall k :: 0 <= k < |t.spawned| && t.spawned[k].Worker? ==> t.spawned == [t.spawned[k]])
  }

  lemma {:induction false} HandOffAdds(c: Codec, w: World, job: Job, ch: Choice, stage: Stage)
    ensures JobAwait(c, w, job, ch).enqueued == Some(stage) <==>
              Adds(Worker(job), job.imageId, stage) && !ch.outcome.Rejected?
    ensures JobAwait(c, w, job, ch).enqueued.Some? ==> JobAwait(c, w, job, ch).orphans == []
  {
  }

  lemma {:induction false} JobTurnAdds(c: Codec, s: State, job: Job, ch: Choice)
    requires TablesOk(c, s) && JobOk(c, s.srcs, s.born, s.w, job) && !job.phase.Failing?
    ensures TurnAdds(s.convertIds, Worker(job), ch, JobTurn(c, s, job, ch))
  {
    ShapeOfOutcome(c, s, job, ch);
    var o, attempts, added := JobTurnShape(c, s, job, ch);
    var t := JobTurn(c, s, job, ch);
    forall stage ensures o.enqueued == Some(stage) <==> Adds(Worker(job), job.imageId, stage) && !ch.outcome.Rejected?
    {
      HandOffAdds(c, s.w, job, ch, stage);
    }
    if o.enqueued.Some? { HandOffAdds(c, s.w, job, ch, o.enqueued.value); }
    forall i, stage ensures IsAdded(t.spawned, i, stage) <==> AwaitAdds(s.convertIds, Worker(job), ch, i, stage) {
      AddedIsAdded(s, job, ch, o, attempts, added, i, stage);
    }
  }

  lemma {:induction false} AddedIsAdded(s: State, job: Job, ch: Choice, o: Outcome, attempts: nat, added: seq<Proc>,
                                        i: ImageId, stage: Stage)
    requires AddedJob(s, job, o, attempts, added)
    requires forall k :: 0 <= k < |o.orphans| ==> o.orphans[k].Straggler?
    requires forall z :: o.enqueued == Some(z) <==> Adds(Worker(job), job.imageId, z) && !ch.outcome.Rejected?
    requires OfStage(job)
    ensures IsAdded(o.orphans + added, i, stage) <==> AwaitAdds(s.convertIds, Worker(job), ch, i, stage)
  {
    var ps := o.orphans + added;
    if IsAdded(ps, i, stage) {
      var k :| 0 <= k < |ps| && IsNewJob(ps[k], i, stage);
      assert k == |o.orphans|;
    }
    if AwaitAdds(s.convertIds, Worker(job), ch, i, stage) {
      assert o.enqueued == Some(stage);
      assert ps[|o.orphans|] == added[0];
    }
  }

  predicate OfStage(job: Job) {
    (job.phase == Validating(VHandOff) ==> job.stage.Validate?)
    && (job.phase == Converting(CHandOff) ==> job.stage.Convert?)
    && (job.phase == Compressing(KHandOff) ==> job.stage.Compress?)
  }

  lemma {:induction false} CallTurnAdds(c: Codec, s: State, p: Proc, ch: Choice)
    requires !p.Worker? && (p.Creating? ==> p.imageId in s.srcs && p.imageId !in s.convertIds)
    ensures TurnAdds(s.convertIds, p, ch, ProcTurn(c, s, p, ch))
  {
    var t := ProcTurn(c, s, p, ch);
    forall i, stage ensures IsAdded(t.spawned, i, stage) <==> AwaitAdds(s.convertIds, p, ch, i, stage) {
      if AwaitAdds(s.convertIds, p, ch, i, stage) { assert IsNewJob(t.spawned[0], i, stage); }
    }
  }

  lemma {:induction false} AnyTurnAdds(c: Codec, s: State, pid: nat, ch: Choice)
    requires Inv(c, s) && pid in s.procs
    ensures TurnAdds(s.convertIds, s.procs[pid], ch, ProcTurn(c, s, s.procs[pid], ch))
  {
    var p := s.procs[pid];
    assert ProcOk(c, s.srcs, s.born, s.w, p) && IdsOk(s.convertIds, s.lost, s.tally.forked, p);
    if p.Worker? {
      if !p.job.phase.Failing? { JobTurnAdds(c, s, p.job, ch); }
    } else {
      CallTurnAdds(c, s, p, ch);
    }
  }

  ghost predicate JobAppears(s: State, s': State, i: ImageId, stage: Stage) {
    exists q :: q !in s.procs && q in s'.procs && IsNewJob(s'.procs[q], i, stage)
  }

  lemma {:induction false} AppearsIfAdded(s: State, pid: nat, t: Turn, i: ImageId, stage: Stage)
    requires KeysBelow(s.procs, s.next) && pid in s.procs
    ensures JobAppears(s, Apply(s, pid, t), i, stage) <==> IsAdded(t.spawned, i, stage)
  {
    var s' := Apply(s, pid, t);
    ApplyMembers(s, pid, t);
    if k :| 0 <= k < |t.spawned| && IsNewJob(t.spawned[k], i, stage) {
      assert s.next + k !in s.procs && IsNewJob(s'.procs[s.next + k], i, stage);
    }
    if q :| q !in s.procs && q in s'.procs && IsNewJob(s'.procs[q], i, stage) {
      assert s'.procs[s.next + (q - s.next)] == t.spawned[q - s.next];
    }
  }

  /** A step adds a job if and only if it resumes the enqueue of an entry or reprocess call, or the hand-off of a
      job to the stage after its own, and the add takes effect -- unless a validation's convert job is already
      known.  The job is for the same image and starts with no throw against it. */
  lemma {:induction false} JobsAreAdded(c: Codec, acts: seq<Action>, a: Action, i: ImageId, stage: Stage)
    ensures var s := Reached(c, acts);
            JobAppears(s, Step(c, s, a), i, stage) <==>
              a.Resume? && Enabled(s, a) && Adds(s.procs[a.pid], i, stage) && !a.choice.outcome.Rejected?
              && !Swallowed(s.convertIds, s.procs[a.pid])
  {
    var s := Reached(c, acts);
    RunKeepsInv(c, acts);
    if a.Resume? && Enabled(s, a) {
      AnyTurnAdds(c, s, a.pid, a.choice);
      AppearsIfAdded(s, a.pid, ProcTurn(c, s, s.procs[a.pid], a.choice), i, stage);
    }
  }

  /** The deterministic id of image i's convert job comes to be known by its own add, at the end of a validation or
      a seed call, and by nothing else; it is never forgotten. */
  lemma {:induction false} IdsComeWithTheirJobs(c: Codec, acts: seq<Action>, a: Action, i: ImageId)
    ensures var s := Reached(c, acts);
            i in Step(c, s, a).convertIds <==>
              i in s.convertIds
              || (a.Resume? && Enabled(s, a) && !a.choice.outcome.Rejected? && NamesJob(s.procs[a.pid], i))
  {
    var s := Reached(c, acts);
    RunKeepsInv(c, acts);
    if a.Resume? && Enabled(s, a) {
      var p := s.procs[a.pid];
      assert ProcOk(c, s.srcs, s.born, s.w, p);
      if p.Worker? && !p.job.phase.Failing? { IdsOfJob(c, s, p.job, a.choice); }
    }
  }

  predicate NamesJob(p: Proc, i: ImageId) {
    || (p.Worker? && p.job.imageId == i && p.job.phase == Validating(VHandOff))
    || (p.Creating? && p.imageId == i && p.create.EnqueueEntry? && p.entry.Convert?)
  }

  lemma {:induction false} IdsOfJob(c: Codec, s: State, job: Job, ch: Choice)
    requires OfStage(job) && PhaseOk(c, s.srcs, s.w, job.imageId, job.stage, job.phase)
    ensures JobTurn(c, s, job, ch).convertIds
         == if job.phase == Validating(VHandOff) && !ch.outcome.Rejected? then s.convertIds + {job.imageId}
            else s.convertIds
  {
    HandOffAdds(c, s.w, job, ch, Convert);
    HandOffAdds(c, s.w, job, ch, Compress);
    HandOffAdds(c, s.w, job, ch, Variants);
  }

  // ---- Calls -----------------------------------------------------------------------------------------------

  /** The object deletes of a remove call ignore their failures; every other await of a call ends it by not
      succeeding. */
  predicate Stops(p: Proc, out: Await) {
    !p.Worker? && !p.Straggler? && !out.Ok? && !(p.Removing? && p.remove.DeleteObjects?)
  }

  lemma {:induction false} StoppedTurn(c: Codec, s: State, p: Proc, ch: Choice)
    requires Stops(p, ch.outcome)
    ensures ProcTurn(c, s, p, ch).self.None?
  {
  }

  /** The next await of a call that succeeded: original, row, enqueue; row, mark, enqueue; row, the objects it was
      found with, row again. */
  predicate CallMoves(p: Proc, p': Proc) {
    match p
    case Creating(i, entry, create) =>
      p' == Creating(i, entry, if create.PutOriginal? then InsertRow else EnqueueEntry) && !create.EnqueueEntry?
    case Reprocessing(i, reprocess) =>
      p' == Reprocessing(i, if reprocess.FindRow? then MarkConvert else EnqueueFresh) && !reprocess.EnqueueFresh?
    case Removing(i, remove) =>
      p'.Removing? && p'.imageId == i && !p'.remove.FindVictim? && !remove.DeleteRow?
      && (remove.FindVictim? ==> p'.remove.DeleteObjects?)
    case _ => false
  }

  predicate LastOfCall(w: World, p: Proc) {
    match p
    case Creating(_, _, create) => create.EnqueueEntry?
    case Reprocessing(i, reprocess) => reprocess.EnqueueFresh? || i !in w.images
    case Removing(i, remove) => remove.DeleteRow? || (remove.FindVictim? && i !in w.images)
    case _ => false
  }

  lemma {:induction false} CallTurnMoves(c: Codec, s: State, p: Proc, ch: Choice)
    requires !p.Worker? && !p.Straggler? && ch.outcome.Ok? && Resumes(p, ch)
    requires p.Creating? ==> p.imageId in s.srcs && (p.create.InsertRow? ==> p.imageId !in s.w.images)
    ensures var self := ProcTurn(c, s, p, ch).self;
            if LastOfCall(s.w, p) then self.None? else self.Some? && CallMoves(p, self.value)
  {
  }

  /** A call whose await succeeds goes on to the next one, or was at its last -- or did not find its row. */
  lemma {:induction false} CallsTakeEveryStep(c: Codec, acts: seq<Action>, pid: nat, ch: Choice)
    requires var s := Reached(c, acts);
             pid in s.procs && !s.procs[pid].Worker? && !s.procs[pid].Straggler? && Resumes(s.procs[pid], ch)
    requires ch.outcome.Ok?
    ensures var s := Reached(c, acts);
            var p, procs' := s.procs[pid], Step(c, s, Resume(pid, ch)).procs;
            if LastOfCall(s.w, p) then pid !in procs' else pid in procs' && CallMoves(p, procs'[pid])
  {
    var s := Reached(c, acts);
    RunKeepsInv(c, acts);
    assert ProcOk(c, s.srcs, s.born, s.w, s.procs[pid]);
    CallTurnMoves(c, s, s.procs[pid], ch);
    SelfAfter(c, s, Resume(pid, ch));
  }

  /** A call whose await does not succeed is over: no later await of it ever runs. */
  lemma {:induction false} CallsStopAtFailure(c: Codec, acts: seq<Action>, pid: nat, ch: Choice)
    requires pid in Reached(c, acts).procs && Stops(Reached(c, acts).procs[pid], ch.outcome)
    ensures pid !in Step(c, Reached(c, acts), Resume(pid, ch)).procs
  {
    var s := Reached(c, acts);
    RunKeepsInv(c, acts);
    StoppedTurn(c, s, s.procs[pid], ch);
    ApplyMembers(s, pid, ProcTurn(c, s, s.procs[pid], ch));
  }

  // ---- The ledger ------------------------------------------------------------------------------------------

  function One(b: bool): nat {
    if b then 1 else 0
  }

  predicate EntersQueue(p: Proc, ch: Choice) {
    !ch.outcome.Rejected? &&
      ((p.Creating? && p.create.EnqueueEntry?) || (p.Reprocessing? && p.reprocess.EnqueueFresh?))
  }

  predicate JobAt(p: Proc, phase: Phase) {
    p.Worker? && p.job.phase == phase
  }

  /** What each await adds to the ledger. */
  predicate Counts(s: State, p: Proc, ch: Choice, t: Tally) {
    var ok, live := ch.outcome.Ok?, p.Worker? && p.job.imageId in s.w.images;
    && t.entered == s.tally.entered + One(EntersQueue(p, ch))
    && t.completed == s.tally.completed + One(JobAt(p, Sizing(XComplete)) && ok && live)
    && t.refused == s.tally.refused
                    + One(p.Worker? && p.job.phase.Validating? && p.job.phase.v.VReject? && ok && live)
    && t.dropped == s.tally.dropped + One(JobAt(p, Queued) && ok && !live)
    && t.failed == s.tally.failed + One(JobAt(p, Failing))
    && t.collapsed == s.tally.collapsed + One(ok && Swallowed(s.convertIds, p))
  }

  /** Which ending an await comes to. */
  predicate EndsAs(w: World, i: ImageId, phase: Phase, out: Await, next: Next) {
    var ok, live := out.Ok?, i in w.images;
    && (next == Ends(Completes) <==> phase == Sizing(XComplete) && ok && live)
    && (next == Ends(Refuses) <==> phase.Validating? && phase.v.VReject? && ok && live)
    && (next == Ends(Drops) <==> phase.Queued? && ok && !live)
    && (next == Ends(HandedOff) <==>
          ok && phase in {Validating(VHandOff), Converting(CHandOff), Compressing(KHandOff)})
  }

  lemma {:induction false} ValidateEnds(c: Codec, w: World, i: ImageId, v: ValidatePhase, ch: Choice)
    ensures EndsAs(w, i, Validating(v), ch.outcome, ValidateAwait(c, w, i, v, ch).next)
  {
  }

  lemma {:induction false} ConvertEnds(c: Codec, w: World, i: ImageId, n: ConvertPhase, ch: Choice)
    ensures EndsAs(w, i, Converting(n), ch.outcome, ConvertAwait(c, w, i, n, ch).next)
  {
  }

  lemma {:induction false} CompressEnds(c: Codec, w: World, i: ImageId, k: CompressPhase, ch: Choice)
    ensures EndsAs(w, i, Compressing(k), ch.outcome, CompressAwait(c, w, i, k, ch).next)
  {
  }

  lemma {:induction false} VariantsEnds(c: Codec, w: World, i: ImageId, x: VariantsPhase, ch: Choice)
    ensures EndsAs(w, i, Sizing(x), ch.outcome, VariantsAwait(c, w, i, x, ch).next)
  {
  }

  lemma {:induction false} AwaitEnds(c: Codec, w: World, job: Job, ch: Choice)
    requires !job.phase.Failing?
    ensures EndsAs(w, job.imageId, job.phase, ch.outcome, JobAwait(c, w, job, ch).next)
  {
    match job.phase {
      case Queued =>
      case Validating(v) => ValidateEnds(c, w, job.imageId, v, ch);
      case Converting(n) => ConvertEnds(c, w, job.imageId, n, ch);
      case Compressing(k) => CompressEnds(c, w, job.imageId, k, ch);
      case Sizing(x) => VariantsEnds(c, w, job.imageId, x, ch);
    }
  }

  lemma {:induction false} JobCounts(c: Codec, s: State, job: Job, ch: Choice)
    requires OfStage(job)
    ensures Counts(s, Worker(job), ch, ProcTurn(c, s, Worker(job), ch).tally)
  {
    if !job.phase.Failing? {
      AwaitEnds(c, s.w, job, ch);
      HandOffAdds(c, s.w, job, ch, Convert);
      HandOffAdds(c, s.w, job, ch, Compress);
      HandOffAdds(c, s.w, job, ch, Variants);
      LedgerOfJob(c, s, job, ch);
    }
  }

  lemma {:induction false} LedgerOfJob(c: Codec, s: State, job: Job, ch: Choice)
    requires !job.phase.Failing?
    ensures var o, t := JobAwait(c, s.w, job, ch), JobTurn(c, s, job, ch).tally;
            && t.entered == s.tally.entered && t.failed == s.tally.failed
            && t.completed == s.tally.completed + One(o.next == Ends(Completes))
            && t.refused == s.tally.refused + One(o.next == Ends(Refuses))
            && t.dropped == s.tally.dropped + One(o.next == Ends(Drops))
            && t.collapsed == s.tally.collapsed
                              + One(o.next == Ends(HandedOff) && !(o.enqueued.Some? && !Deduplicated(s, job)))
  {
  }

  lemma {:induction false} CallCounts(c: Codec, s: State, p: Proc, ch: Choice)
    requires !p.Worker? && (p.Creating? ==> p.imageId in s.srcs && p.imageId !in s.convertIds)
    ensures Counts(s, p, ch, ProcTurn(c, s, p, ch).tally)
  {
  }

  lemma {:induction false} TurnCounts(c: Codec, s: State, pid: nat, ch: Choice)
    requires Inv(c, s) && pid in s.procs
    ensures Counts(s, s.procs[pid], ch, ProcTurn(c, s, s.procs[pid], ch).tally)
  {
    var p := s.procs[pid];
    assert ProcOk(c, s.srcs, s.born, s.w, p) && IdsOk(s.convertIds, s.lost, s.tally.forked, p);
    if p.Worker? { JobCounts(c, s, p.job, ch); } else { CallCounts(c, s, p, ch); }
  }

  /** The ledger says what happened: entries that took effect, jobs completed, refused, dropped for want of a row
      or handed to their failure handler, and hand-offs swallowed -- each counted at its own await and nowhere
      else. */
  lemma {:induction false} LedgerCountsAwaits(c: Codec, acts: seq<Action>, a: Action)
    ensures var s := Reached(c, acts);
            var t := Step(c, s, a).tally;
            if a.Resume? && Enabled(s, a) then Counts(s, s.procs[a.pid], a.choice, t) else t == s.tally
  {
    RunKeepsInv(c, acts);
    if a.Resume? && Enabled(Reached(c, acts), a) { TurnCounts(c, Reached(c, acts), a.pid, a.choice); }
  }
}
