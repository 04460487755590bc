/**
 * Termination: every step of every process uses up part of a budget fixed by what is in progress.
 */
module Budget {
  import opened Keys
  import opened Tables
  import opened Machine
  import opened JobInvariant
  import opened PipelineInvariant

  /** What one more attempt at a stage may cost: its awaits, the tasks it may orphan, and the job it
      may fork by a hand-off whose reply is lost. */
  function AttemptCost(stage: Stage): nat {
    match stage
    case Variants => 20
    case Compress => 81
    case Convert => 258
    case Validate => 789
  }

  function StageCost(stage: Stage): nat {
    MAX_ATTEMPTS * AttemptCost(stage) + Awaits(stage, Queued)
  }

  function JobLoad(job: Job): nat {
    (if job.attemptsMade < MAX_ATTEMPTS then (MAX_ATTEMPTS - job.attemptsMade) * AttemptCost(job.stage) else 0)
    + Awaits(job.stage, job.phase)
  }

  function Load(p: Proc): nat {
    match p
    case Worker(job) => JobLoad(job)
    case Straggler(_, _, _, task) => TaskAwaits(task)
    case Creating(_, entry, create) =>
      StageCost(entry) + (match create case PutOriginal => 3 case InsertRow => 2 case EnqueueEntry => 1)
    case Reprocessing(_, reprocess) =>
      StageCost(Convert) + (match reprocess case FindRow => 3 case MarkConvert => 2 case EnqueueFresh => 1)
    case Removing(_, remove) =>
      (match remove
       case FindVictim => 4
       case DeleteObjects(original, display) => 1 + (if original.Some? then 1 else 0) + (if display.Some? then 1 else 0)
       case DeleteRow => 1)
  }

  function Work(s: State): nat {
    Sum(s.procs, s.next, Load)
  }

  /** The costs telescope: an attempt pays for what it may leave behind. */
  lemma {:induction false} Costs(stage: Stage)
    ensures AttemptCost(stage) >= Awaits(stage, Queued) + (if stage.Variants? then 6 else 0)
    ensures stage.Compress? ==> AttemptCost(stage) > StageCost(Variants) + Awaits(stage, Queued)
    ensures stage.Convert? ==> AttemptCost(stage) > StageCost(Compress) + Awaits(stage, Queued)
    ensures stage.Validate? ==> AttemptCost(stage) > StageCost(Convert) + Awaits(stage, Queued)
    ensures Awaits(stage, Queued) <= 13
  {
  }

  function Following(stage: Stage): Stage {
    match stage
    case Validate => Convert
    case Convert => Compress
    case Compress => Variants
    case Variants => Variants
  }

  /** An await advances, hands off, ends or throws; only a throw leaves orphans. */
  predicate Advances(stage: Stage, phase: Phase, o: Outcome) {
    && (o.next.Goes? ==> Awaits(stage, o.next.phase) < Awaits(stage, phase) && o.enqueued.None? && o.orphans == [])
    && (o.next.Ends? ==> o.orphans == [])
    && (o.enqueued.Some? ==> !stage.Variants? && o.enqueued.value == Following(stage))
    && SeqSum(o.orphans, Load) <= (if stage.Variants? then 6 else 0)
  }

  lemma {:induction false} TaskAdvances(c: Codec, w: World, i: ImageId, userId: string, t: VariantType, task: Task,
                                        out: Await)
    requires !task.Settled?
    ensures var (_, task') := TaskAwait(c, w, i, userId, t, task, out);
            task'.Some? ==> TaskAwaits(task'.value) < TaskAwaits(task)
  {
  }

  lemma {:induction false} OrphanLoad(i: ImageId, fan: VariantsPhase, failed: VariantType, t: VariantType)
    requires fan.XFan?
    ensures SeqSum(Orphan(i, fan, failed, t), Load) <= if t == failed then 0 else 3
  {
    var o := Orphan(i, fan, failed, t);
    if o != [] { assert o[1..] == []; }
  }

  lemma {:induction false} FanAdvances(c: Codec, w: World, i: ImageId, fan: VariantsPhase, ch: Choice)
    requires fan.XFan? && !TaskOf(fan, ch.vtype).Settled?
    ensures Advances(Variants, Sizing(fan), FanAwait(c, w, i, fan, ch))
  {
    var t := ch.vtype;
    TaskAdvances(c, w, i, fan.row.userId, t, TaskOf(fan, t), ch.outcome);
    OrphanLoad(i, fan, t, THUMBNAIL);
    OrphanLoad(i, fan, t, WEB);
    OrphanLoad(i, fan, t, FULL);
    var a, b, d := Orphan(i, fan, t, THUMBNAIL), Orphan(i, fan, t, WEB), Orphan(i, fan, t, FULL);
    SeqSumOfConcat(a, b, Load);
    SeqSumOfConcat(a + b, d, Load);
  }

  lemma {:induction false} ValidateAdvances(c: Codec, w: World, i: ImageId, phase: ValidatePhase, ch: Choice)
    ensures Advances(Validate, Validating(phase), ValidateAwait(c, w, i, phase, ch))
  {
  }

  lemma {:induction false} ConvertAdvances(c: Codec, w: World, i: ImageId, phase: ConvertPhase, ch: Choice)
    ensures Advances(Convert, Converting(phase), ConvertAwait(c, w, i, phase, ch))
  {
  }

  lemma {:induction false} CompressAdvances(c: Codec, w: World, i: ImageId, phase: CompressPhase, ch: Choice)
    ensures Advances(Compress, Compressing(phase), CompressAwait(c, w, i, phase, ch))
  {
  }

  lemma {:induction false} VariantsAdvances(c: Codec, w: World, i: ImageId, phase: VariantsPhase, ch: Choice)
    requires phase.XFan? ==> !TaskOf(phase, ch.vtype).Settled?
    ensures Advances(Variants, Sizing(phase), VariantsAwait(c, w, i, phase, ch))
  {
    if phase.XFan? { FanAdvances(c, w, i, phase, ch); }
  }

  lemma {:induction false} JobAdvances(c: Codec, w: World, job: Job, ch: Choice)
    requires AttemptsOk(job) && !job.phase.Failing? && Resumes(Worker(job), ch)
    requires match job.phase
             case Validating(_) => job.stage.Validate?
             case Converting(_) => job.stage.Convert?
             case Compressing(_) => job.stage.Compress?
             case Sizing(_) => job.stage.Variants?
             case _ => true
    ensures Advances(job.stage, job.phase, JobAwait(c, w, job, ch))
  {
    match job.phase {
      case Queued =>
      case Validating(v) => ValidateAdvances(c, w, job.imageId, v, ch);
      case Converting(n) => ConvertAdvances(c, w, job.imageId, n, ch);
      case Compressing(k) => CompressAdvances(c, w, job.imageId, k, ch);
      case Sizing(x) => VariantsAdvances(c, w, job.imageId, x, ch);
    }
  }

  /** A retry costs one attempt, and the cost of an attempt covers what it left behind. */
  lemma {:induction false} RetryShrinks(job: Job, attempts: nat, left: nat)
    requires AttemptsOk(job) && !job.phase.Failing?
    requires left <= (if job.stage.Variants? then 6 else StageCost(Following(job.stage)))
    ensures Load(Retried(job, attempts)) + left < JobLoad(job)
  {
    Costs(job.stage);
    var k, a := AttemptCost(job.stage), job.attemptsMade;
    assert (MAX_ATTEMPTS - a) * k == (MAX_ATTEMPTS - a - 1) * k + k;
    assert Awaits(job.stage, job.phase) >= 1;
  }

  lemma {:induction false} JobTurnShrinks(c: Codec, s: State, job: Job, ch: Choice)
    requires AttemptsOk(job) && !job.phase.Failing?
    requires Advances(job.stage, job.phase, JobAwait(c, s.w, job, ch))
    ensures var t := JobTurn(c, s, job, ch);
            SelfSum(t, Load) + SeqSum(t.spawned, Load) < JobLoad(job)
  {
    var o, attempts, added := JobTurnShape(c, s, job, ch);
    SeqSumOfConcat(o.orphans, added, Load);
    if added != [] {
      assert added[1..] == [];
      assert SeqSum(added, Load) == StageCost(Following(job.stage));
    }
    var left := SeqSum(o.orphans, Load) + SeqSum(added, Load);
    match o.next {
      case Throws => RetryShrinks(job, attempts, left);
      case Goes(phase) =>
      case Ends(_) => EndShrinks(job, left);
    }
  }

  lemma {:induction false} EndShrinks(job: Job, left: nat)
    requires AttemptsOk(job) && !job.phase.Failing?
    requires left <= (if job.stage.Variants? then 0 else StageCost(Following(job.stage)))
    ensures left < JobLoad(job)
  {
    RetryShrinks(job, 0, left);
  }

  lemma {:induction false} TurnShrinks(c: Codec, s: State, p: Proc, ch: Choice)
    requires ProcOk(c, s.srcs, s.born, s.w, p) && Resumes(p, ch)
    ensures var t := ProcTurn(c, s, p, ch);
            SelfSum(t, Load) + SeqSum(t.spawned, Load) < Load(p)
  {
    match p {
      case Worker(job) =>
        if !job.phase.Failing? {
          JobAdvances(c, s.w, job, ch);
          JobTurnShrinks(c, s, job, ch);
        }
      case Straggler(i, userId, t, task) =>
        TaskAdvances(c, s.w, i, userId, t, task, ch.outcome);
      case Creating(_, _, _) =>
        var t := CreateTurn(s, p, ch);
        if t.spawned != [] { assert t.spawned[1..] == []; }
      case Reprocessing(_, _) =>
        var t := ReprocessTurn(s, p, ch);
        if t.spawned != [] { assert t.spawned[1..] == []; }
      case Removing(_, _) =>
    }
  }

  /** Every step of a process in progress uses up budget. */
  lemma {:induction false} ResumeShrinks(c: Codec, s: State, a: Action)
    requires Inv(c, s) && a.Resume? && Enabled(s, a)
    ensures Work(Step(c, s, a)) < Work(s)
  {
    var p := s.procs[a.pid];
    TurnShrinks(c, s, p, a.choice);
    SumOfApply(s, a.pid, ProcTurn(c, s, p, a.choice), Load);
  }

  /** Nothing waits for anything: whatever is in progress can take a step. */
  lemma {:induction false} NothingBlocks(c: Codec, s: State, pid: nat)
    requires Inv(c, s) && pid in s.procs
    ensures exists ch :: Enabled(s, Resume(pid, ch))
  {
    var p := s.procs[pid];
    assert ProcOk(c, s.srcs, s.born, s.w, p);
    var t := match p
      case Worker(job) =>
        (match job.phase
         case Sizing(x) =>
           if x.XFan? then (if !x.thumb.Settled? then THUMBNAIL else if !x.web.Settled? then WEB else FULL) else FULL
         case _ => FULL)
      case _ => FULL;
    var first := p.Removing? && p.remove.DeleteObjects? && p.remove.original.Some?;
    assert Enabled(s, Resume(pid, Choice(Ok, ANY_VERDICT, t, first, "")));
  }
}
