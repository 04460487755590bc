/**
 * What a failed await costs a job: which awaits throw, said phase by phase, and how the attempts of a job
 * follow from the awaits that threw.
 */
module Attempts {
  import opened Keys
  import opened Tables
  import opened Machine
  import opened JobInvariant
  import opened PipelineInvariant
  import opened Guarantees

  // ---- Which awaits throw ----------------------------------------------------------------------------------

  predicate ValidateFails(w: World, i: ImageId, phase: ValidatePhase, out: Await) {
    match phase
    case VGet(row) => !out.Ok? || row.original !in w.objects
    case VMark(_) | VReject(_) | VAccept(_, _) => !out.Ok? || i !in w.images
    case VCheck(_, _) | VDisplay(_, _, _) | VHandOff => !out.Ok?
  }

  predicate ConvertFails(w: World, i: ImageId, phase: ConvertPhase, out: Await) {
    match phase
    case CGet(row) => !out.Ok? || row.original !in w.objects
    case CStatus(_) | CSetRow(_) => !out.Ok? || i !in w.images
    case CNormalize(_, _) | CPut(_, _) | CHandOff => !out.Ok?
  }

  predicate CompressFails(w: World, i: ImageId, phase: CompressPhase, out: Await) {
    match phase
    case KStatus(_) | KSetRow(_, _, _) => !out.Ok? || i !in w.images
    case KGet(_) | KCompress(_, _) | KPut(_, _, _) | KHandOff => !out.Ok?
  }

  predicate VariantsFails(w: World, i: ImageId, phase: VariantsPhase, t: VariantType, out: Await) {
    match phase
    case XStatus(_, _) | XComplete => !out.Ok? || i !in w.images
    case XGet(_, _) => !out.Ok?
    case XFan(_, _, _, _) => !out.Ok? || (TaskOf(phase, t).Upserting? && i !in w.images)
  }

  /** The await the job is suspended at throws: it does not succeed, or it writes a row that is gone, or it
      reads an original that is gone.  Nothing else a job reads is ever gone. */
  predicate AwaitFails(w: World, job: Job, ch: Choice) {
    match job.phase
    case Queued => !ch.outcome.Ok?
    case Validating(v) => ValidateFails(w, job.imageId, v, ch.outcome)
    case Converting(n) => ConvertFails(w, job.imageId, n, ch.outcome)
    case Compressing(k) => CompressFails(w, job.imageId, k, ch.outcome)
    case Sizing(x) => VariantsFails(w, job.imageId, x, ch.vtype, ch.outcome)
    case Failing => false
  }

  lemma {:induction false} ValidateThrows(c: Codec, w: World, i: ImageId, phase: ValidatePhase, ch: Choice)
    ensures ValidateAwait(c, w, i, phase, ch).next.Throws? <==> ValidateFails(w, i, phase, ch.outcome)
  {
  }

  lemma {:induction false} ConvertThrows(c: Codec, w: World, i: ImageId, phase: ConvertPhase, ch: Choice)
    ensures ConvertAwait(c, w, i, phase, ch).next.Throws? <==> ConvertFails(w, i, phase, ch.outcome)
  {
  }

  lemma {:induction false} CompressThrows(c: Codec, srcs: Sources, w: World, i: ImageId, phase: CompressPhase,
                                          ch: Choice)
    requires CompressPhaseOk(c, srcs, w, i, phase)
    ensures CompressAwait(c, w, i, phase, ch).next.Throws? <==> CompressFails(w, i, phase, ch.outcome)
  {
  }

  lemma {:induction false} VariantsThrows(c: Codec, srcs: Sources, w: World, i: ImageId, phase: VariantsPhase,
                                          ch: Choice)
    requires VariantsPhaseOk(c, srcs, w, i, phase)
    requires phase.XFan? ==> !TaskOf(phase, ch.vtype).Settled?
    ensures VariantsAwait(c, w, i, phase, ch).next.Throws? <==> VariantsFails(w, i, phase, ch.vtype, ch.outcome)
  {
  }

  lemma {:induction false} JobThrows(c: Codec, s: State, job: Job, ch: Choice)
    requires TablesOk(c, s) && JobOk(c, s.srcs, s.born, s.w, job) && !job.phase.Failing?
    requires Resumes(Worker(job), ch)
    ensures JobAwait(c, s.w, job, ch).next.Throws? <==> AwaitFails(s.w, job, ch)
  {
    match job.phase {
      case Queued => BeginOk(c, s.srcs, s.born, s.w, job.imageId, job.stage);
      case Validating(v) => ValidateThrows(c, s.w, job.imageId, v, ch);
      case Converting(n) => ConvertThrows(c, s.w, job.imageId, n, ch);
      case Compressing(k) => CompressThrows(c, s.srcs, s.w, job.imageId, k, ch);
      case Sizing(x) => VariantsThrows(c, s.srcs, s.w, job.imageId, x, ch);
    }
  }

  // ---- One await of a job ----------------------------------------------------------------------------------

  /** What an await leaves of its job: one that throws is queued again or, the third time, given up; one
      that does not goes on within its attempt, if the job goes on at all. */
  predicate Continues(job: Job, failed: bool, job': Job) {
    && job'.imageId == job.imageId && job'.stage == job.stage && job'.entry == job.entry
    && job'.attempts == job.attempts + (if job.phase.Queued? then 1 else 0)
    && if failed
       then job'.attemptsMade == job.attemptsMade + 1 &&
         job'.phase == if job.attemptsMade + 1 < 3 then Queued else Failing
       else job'.attemptsMade == job.attemptsMade && Running(job'.phase)
  }

  /** A job somebody has just added: nothing thrown, `attempts` inherited. */
  predicate Newcomer(p: Proc, attempts: nat) {
    p.Straggler? ||
      (p.Worker? && p.job.attemptsMade == 0 && p.job.phase.Queued? && p.job.attempts == attempts)
  }

  function Inherited(p: Proc): nat {
    if p.Worker? then p.job.attempts + (if p.job.phase.Queued? then 1 else 0) else 0
  }

  lemma {:induction false} JobContinues(c: Codec, s: State, job: Job, ch: Choice)
    requires TablesOk(c, s) && JobOk(c, s.srcs, s.born, s.w, job) && !job.phase.Failing?
    requires Resumes(Worker(job), ch)
    ensures var t := JobTurn(c, s, job, ch);
            && (AwaitFails(s.w, job, ch) ==> t.self.Some?)
            && (t.self.Some? ==> t.self.value.Worker? && Continues(job, AwaitFails(s.w, job, ch), t.self.value.job))
            && forall k :: 0 <= k < |t.spawned| ==> Newcomer(t.spawned[k], Inherited(Worker(job)))
  {
    JobThrows(c, s, job, ch);
    JobAwaitOk(c, s.srcs, s.born, s.w, job, ch);
    var o, attempts, added := JobTurnShape(c, s, job, ch);
    var t := JobTurn(c, s, job, ch);
    forall k | 0 <= k < |t.spawned| ensures Newcomer(t.spawned[k], attempts) {
      if k < |o.orphans| { assert t.spawned[k] == o.orphans[k]; } else { assert t.spawned[k] == added[0]; }
    }
  }

  /** A throwing await of a job with n earlier throws leaves the same job -- same image, same stage -- with
      n + 1, queued if and only if n + 1 < 3 and given up otherwise; any other await leaves the count as it
      is.  This holds at every stage. */
  lemma {:induction false} ThrowIsRetried(c: Codec, acts: seq<Action>, pid: nat, ch: Choice)
    requires var s := Reached(c, acts);
             pid in s.procs && s.procs[pid].Worker? && !s.procs[pid].job.phase.Failing? && Resumes(s.procs[pid], ch)
    ensures var s := Reached(c, acts);
            var s' := Step(c, s, Resume(pid, ch));
            var job := s.procs[pid].job;
            && (AwaitFails(s.w, job, ch) ==> pid in s'.procs)
            && (pid in s'.procs ==>
                  && s'.procs[pid].Worker?
                  && var job' := s'.procs[pid].job;
                     && job'.imageId == job.imageId && job'.stage == job.stage
                     && (if AwaitFails(s.w, job, ch)
                         then job'.attemptsMade == job.attemptsMade + 1
                              && job'.phase == if job.attemptsMade + 1 < 3 then Queued else Failing
                         else job'.attemptsMade == job.attemptsMade && !job'.phase.Queued? && !job'.phase.Failing?))
  {
    var s := Reached(c, acts);
    RunKeepsInv(c, acts);
    assert ProcOk(c, s.srcs, s.born, s.w, s.procs[pid]);
    JobContinues(c, s, s.procs[pid].job, ch);
    SelfAfter(c, s, Resume(pid, ch));
  }

  // ---- One await after the other ---------------------------------------------------------------------------

  /** The next await of a validation attempt. */
  predicate ValidateMoves(phase: ValidatePhase, phase': ValidatePhase, verdict: Verdict) {
    match phase
    case VMark(_) => phase'.VGet?
    case VGet(_) => phase'.VCheck?
    case VCheck(_, _) => if verdict.Refuse? then phase'.VReject? else if verdict.heic then phase'.VDisplay?
      else phase'.VAccept?
    case VDisplay(_, _, _) => phase'.VAccept?
    case VAccept(_, _) => phase'.VHandOff?
    case _ => false
  }

  predicate ConvertMoves(phase: ConvertPhase, phase': ConvertPhase) {
    match phase
    case CStatus(_) => phase'.CGet?
    case CGet(_) => phase'.CNormalize?
    case CNormalize(_, _) => phase'.CPut?
    case CPut(_, _) => phase'.CSetRow?
    case CSetRow(_) => phase'.CHandOff?
    case CHandOff => false
  }

  predicate CompressMoves(phase: CompressPhase, phase': CompressPhase) {
    match phase
    case KStatus(_) => phase'.KGet?
    case KGet(_) => phase'.KCompress?
    case KCompress(_, _) => phase'.KPut?
    case KPut(_, _, _) => phase'.KSetRow?
    case KSetRow(_, _, _) => phase'.KHandOff?
    case KHandOff => false
  }

  /** Resize, put, upsert. */
  predicate TaskMoves(task: Task, task': Task) {
    match task
    case Resizing(_) => task'.Putting?
    case Putting(_) => task'.Upserting?
    case Upserting(_) => task'.Settled?
    case Settled => false
  }

  /** One of the three tasks moves; the attempt completes once all are through. */
  predicate FanMoves(fan: VariantsPhase, t: VariantType, phase': VariantsPhase)
    requires fan.XFan?
  {
    if phase'.XFan? then
      && TaskMoves(TaskOf(fan, t), TaskOf(phase', t))
      && (forall u :: u != t ==> TaskOf(phase', u) == TaskOf(fan, u))
      && exists u :: !TaskOf(phase', u).Settled?
    else
      phase'.XComplete? && TaskOf(fan, t).Upserting? && forall u :: u != t ==> TaskOf(fan, u).Settled?
  }

  predicate VariantsMoves(phase: VariantsPhase, t: VariantType, phase': VariantsPhase) {
    match phase
    case XStatus(_, _) => phase'.XGet?
    case XGet(_, _) => phase'.XFan? && forall u :: TaskOf(phase', u).Resizing?
    case XFan(_, _, _, _) => FanMoves(phase, t, phase')
    case XComplete => false
  }

  /** The next await of an attempt, at every stage: its mark first, no await left out, none taken twice. */
  predicate Moves(job: Job, ch: Choice, phase': Phase) {
    match job.phase
    case Queued =>
      (match job.stage
       case Validate => phase'.Validating? && phase'.v.VMark?
       case Convert => phase'.Converting? && phase'.n.CStatus?
       case Compress => phase'.Compressing? && phase'.k.KStatus?
       case Variants => phase'.Sizing? && phase'.x.XStatus?)
    case Validating(v) => phase'.Validating? && ValidateMoves(v, phase'.v, ch.verdict)
    case Converting(n) => phase'.Converting? && ConvertMoves(n, phase'.n)
    case Compressing(k) => phase'.Compressing? && CompressMoves(k, phase'.k)
    case Sizing(x) => phase'.Sizing? && VariantsMoves(x, ch.vtype, phase'.x)
    case Failing => false
  }

  /** The awaits that end an attempt by succeeding. */
  predicate Concludes(w: World, job: Job) {
    match job.phase
    case Queued => job.imageId !in w.images
    case Validating(v) => v.VReject? || v.VHandOff?
    case Converting(n) => n.CHandOff?
    case Compressing(k) => k.KHandOff?
    case Sizing(x) => x.XComplete?
    case Failing => false
  }

  predicate NextMoves(w: World, job: Job, ch: Choice, next: Next) {
    match next
    case Throws => true
    case Ends(_) => Concludes(w, job)
    case Goes(phase') => !Concludes(w, job) && Moves(job, ch, phase')
  }

  lemma {:induction false} FanGoes(c: Codec, w: World, job: Job, ch: Choice)
    requires job.phase.Sizing? && job.phase.x.XFan? && Resumes(Worker(job), ch)
    ensures NextMoves(w, job, ch, FanAwait(c, w, job.imageId, job.phase.x, ch).next)
  {
    var fan, t := job.phase.x, ch.vtype;
    var task := TaskAwait(c, w, job.imageId, fan.row.userId, t, TaskOf(fan, t), ch.outcome).1;
    if task.Some? {
      var fan' := WithTask(fan, t, task.value);
      assert TaskMoves(TaskOf(fan, t), TaskOf(fan', t));
      assert TaskOf(fan', THUMBNAIL) == fan'.thumb && TaskOf(fan', WEB) == fan'.web && TaskOf(fan', FULL) == fan'.full;
    }
  }

  lemma {:induction false} ValidateGoes(c: Codec, w: World, job: Job, ch: Choice)
    requires job.phase.Validating?
    ensures NextMoves(w, job, ch, ValidateAwait(c, w, job.imageId, job.phase.v, ch).next)
  {
  }

  lemma {:induction false} ConvertGoes(c: Codec, w: World, job: Job, ch: Choice)
    requires job.phase.Converting?
    ensures NextMoves(w, job, ch, ConvertAwait(c, w, job.imageId, job.phase.n, ch).next)
  {
  }

  lemma {:induction false} CompressGoes(c: Codec, w: World, job: Job, ch: Choice)
    requires job.phase.Compressing?
    ensures NextMoves(w, job, ch, CompressAwait(c, w, job.imageId, job.phase.k, ch).next)
  {
  }

  lemma {:induction false} JobGoes(c: Codec, w: World, job: Job, ch: Choice)
    requires !job.phase.Failing? && Resumes(Worker(job), ch)
    ensures NextMoves(w, job, ch, JobAwait(c, w, job, ch).next)
  {
    match job.phase {
      case Queued =>
      case Validating(_) => ValidateGoes(c, w, job, ch);
      case Converting(_) => ConvertGoes(c, w, job, ch);
      case Compressing(_) => CompressGoes(c, w, job, ch);
      case Sizing(x) => if x.XFan? { FanGoes(c, w, job, ch); }
    }
  }

  lemma {:induction false} JobTurnGoes(c: Codec, s: State, job: Job, ch: Choice)
    requires TablesOk(c, s) && JobOk(c, s.srcs, s.born, s.w, job) && !job.phase.Failing?
    requires Resumes(Worker(job), ch) && !AwaitFails(s.w, job, ch)
    ensures var self := JobTurn(c, s, job, ch).self;
            if Concludes(s.w, job) then self.None?
            else self.Some? && self.value.Worker? && Moves(job, ch, self.value.job.phase)
  {
    JobThrows(c, s, job, ch);
    JobGoes(c, s.w, job, ch);
    var o, attempts, added := JobTurnShape(c, s, job, ch);
  }

  /** An attempt takes its awaits one by one: a resume that does not throw leads to the stage's next await, or is
      the last and ends the job. */
  lemma {:induction false} AttemptsTakeEveryStep(c: Codec, acts: seq<Action>, pid: nat, ch: Choice)
    requires var s := Reached(c, acts);
             && pid in s.procs && s.procs[pid].Worker? && !s.procs[pid].job.phase.Failing?
             && Resumes(s.procs[pid], ch) && !AwaitFails(s.w, s.procs[pid].job, ch)
    ensures var s := Reached(c, acts);
            var procs', job := Step(c, s, Resume(pid, ch)).procs, s.procs[pid].job;
            if Concludes(s.w, job) then pid !in procs'
            else pid in procs' && procs'[pid].Worker? && Moves(job, ch, procs'[pid].job.phase)
  {
    var s := Reached(c, acts);
    RunKeepsInv(c, acts);
    assert ProcOk(c, s.srcs, s.born, s.w, s.procs[pid]);
    JobTurnGoes(c, s, s.procs[pid].job, ch);
    SelfAfter(c, s, Resume(pid, ch));
  }

  // ---- Counting along a run --------------------------------------------------------------------------------

  predicate ResumesAt(s: State, a: Action, pid: nat) {
    a.Resume? && a.pid == pid && Enabled(s, a)
  }

  /** The step is an await of job `pid` that throws. */
  predicate ThrowsAt(s: State, a: Action, pid: nat) {
    ResumesAt(s, a, pid) && s.procs[pid].Worker? && AwaitFails(s.w, s.procs[pid].job, a.choice)
  }

  /** The step starts an attempt of job `pid`. */
  predicate StartsAt(s: State, a: Action, pid: nat) {
    ResumesAt(s, a, pid) && s.procs[pid].Worker? && s.procs[pid].job.phase.Queued?
  }

  /** How often job `pid` has thrown. */
  function Thrown(c: Codec, acts: seq<Action>, pid: nat): nat {
    if acts == [] then 0
    else
      var before, a := acts[..|acts| - 1], acts[|acts| - 1];
      Thrown(c, before, pid) + if ThrowsAt(Reached(c, before), a, pid) then 1 else 0
  }

  /** How many attempts of job `pid` have been started. */
  function Attempted(c: Codec, acts: seq<Action>, pid: nat): nat {
    if acts == [] then 0
    else
      var before, a := acts[..|acts| - 1], acts[|acts| - 1];
      Attempted(c, before, pid) + if StartsAt(Reached(c, before), a, pid) then 1 else 0
  }

  /** The same, the jobs of earlier stages that led to it included: a job takes over the count of the process
      whose step added it. */
  function AttemptedByRun(c: Codec, acts: seq<Action>, pid: nat): nat {
    if acts == [] then 0
    else
      var before, a := acts[..|acts| - 1], acts[|acts| - 1];
      var s := Reached(c, before);
      if a.Resume? && Enabled(s, a) && (pid == a.pid || s.next <= pid < Step(c, s, a).next)
      then AttemptedByRun(c, before, a.pid) + if StartsAt(s, a, a.pid) then 1 else 0
      else AttemptedByRun(c, before, pid)
  }

  lemma {:induction false} NextGrows(c: Codec, s: State, a: Action)
    ensures s.next <= Step(c, s, a).next
  {
  }

  lemma {:induction false} NothingBefore(c: Codec, acts: seq<Action>, pid: nat)
    requires pid >= Reached(c, acts).next
    ensures Thrown(c, acts, pid) == 0 && Attempted(c, acts, pid) == 0 && AttemptedByRun(c, acts, pid) == 0
  {
    if acts != [] {
      var before, a := acts[..|acts| - 1], acts[|acts| - 1];
      NextGrows(c, Reached(c, before), a);
      RunKeepsInv(c, before);
      NothingBefore(c, before, pid);
    }
  }

  /** What a process shows of its past. */
  predicate Counted(p: Proc, thrown: nat, attempted: nat, inRun: nat) {
    match p
    case Worker(job) =>
      && thrown == job.attemptsMade && attempted == thrown + (if Running(job.phase) then 1 else 0)
      && job.attempts == inRun
    case Straggler(_, _, _, _) => true
    case _ => inRun == 0
  }

  /** The kind of process a call or a straggler goes on as, and what it adds. */
  predicate StaysCall(p: Proc, t: Turn) {
    && (t.self.Some? ==> !t.self.value.Worker? && (t.self.value.Straggler? <==> p.Straggler?))
    && (p.Straggler? ==> t.spawned == [])
    && forall k :: 0 <= k < |t.spawned| ==> Newcomer(t.spawned[k], 0)
  }

  lemma {:induction false} CallStaysCall(c: Codec, s: State, p: Proc, ch: Choice)
    requires !p.Worker?
    ensures StaysCall(p, ProcTurn(c, s, p, ch))
  {
  }

  ghost predicate AllCounted(c: Codec, acts: seq<Action>) {
    var s := Reached(c, acts);
    forall q :: q in s.procs ==>
      Counted(s.procs[q], Thrown(c, acts, q), Attempted(c, acts, q), AttemptedByRun(c, acts, q))
  }

  lemma {:induction false} TurnCounts(c: Codec, s: State, p: Proc, ch: Choice, thrown: nat, attempted: nat, inRun: nat)
    requires TablesOk(c, s) && ProcOk(c, s.srcs, s.born, s.w, p) && Resumes(p, ch)
    requires Counted(p, thrown, attempted, inRun)
    ensures var t := ProcTurn(c, s, p, ch);
            var thrown' := thrown + if p.Worker? && AwaitFails(s.w, p.job, ch) then 1 else 0;
            var start := if p.Worker? && p.job.phase.Queued? then 1 else 0;
            && (t.self.Some? ==> Counted(t.self.value, thrown', attempted + start, inRun + start))
            && forall q :: q in t.spawned ==> Counted(q, 0, 0, inRun + start)
  {
    if p.Worker? && !p.job.phase.Failing? {
      JobContinues(c, s, p.job, ch);
    } else if !p.Worker? {
      CallStaysCall(c, s, p, ch);
    }
  }

  lemma {:induction false} SelfCounts(c: Codec, s: State, a: Action, thrown: nat, attempted: nat, inRun: nat)
    requires Inv(c, s) && a.Resume? && Enabled(s, a) && Counted(s.procs[a.pid], thrown, attempted, inRun)
    ensures var procs' := Step(c, s, a).procs;
            var start := if StartsAt(s, a, a.pid) then 1 else 0;
            a.pid in procs' ==>
              Counted(procs'[a.pid], thrown + (if ThrowsAt(s, a, a.pid) then 1 else 0), attempted + start,
                inRun + start)
  {
    assert ProcOk(c, s.srcs, s.born, s.w, s.procs[a.pid]);
    TurnCounts(c, s, s.procs[a.pid], a.choice, thrown, attempted, inRun);
    SelfAfter(c, s, a);
  }

  lemma {:induction false} NewCounts(c: Codec, s: State, a: Action, q: nat, thrown: nat, attempted: nat, inRun: nat)
    requires Inv(c, s) && a.Resume? && Enabled(s, a) && Counted(s.procs[a.pid], thrown, attempted, inRun)
    requires q !in s.procs && q in Step(c, s, a).procs
    ensures Counted(Step(c, s, a).procs[q], 0, 0, inRun + if StartsAt(s, a, a.pid) then 1 else 0)
  {
    assert ProcOk(c, s.srcs, s.born, s.w, s.procs[a.pid]);
    TurnCounts(c, s, s.procs[a.pid], a.choice, thrown, attempted, inRun);
    SpawnedAt(c, s, a, q);
  }

  lemma {:induction false} StepCounts(c: Codec, acts: seq<Action>, q: nat)
    requires acts != [] && AllCounted(c, acts[..|acts| - 1])
    requires acts[|acts| - 1].Resume? && Enabled(Reached(c, acts[..|acts| - 1]), acts[|acts| - 1])
    requires q in Reached(c, acts).procs
    ensures Counted(Reached(c, acts).procs[q], Thrown(c, acts, q), Attempted(c, acts, q), AttemptedByRun(c, acts, q))
  {
    var before, a := acts[..|acts| - 1], acts[|acts| - 1];
    var s := Reached(c, before);
    RunKeepsInv(c, before);
    var thrown, attempted, inRun := Thrown(c, before, a.pid), Attempted(c, before, a.pid),
      AttemptedByRun(c, before, a.pid);
    if q == a.pid {
      SelfCounts(c, s, a, thrown, attempted, inRun);
    } else if q in s.procs {
      OthersAfter(c, s, a, q);
    } else {
      SpawnedAt(c, s, a, q);
      NothingBefore(c, before, q);
      NewCounts(c, s, a, q, thrown, attempted, inRun);
    }
  }

  lemma {:induction false} RunCounts(c: Codec, acts: seq<Action>)
    ensures AllCounted(c, acts)
  {
    if acts != [] {
      var before, a := acts[..|acts| - 1], acts[|acts| - 1];
      RunCounts(c, before);
      var s := Reached(c, before);
      if a.Resume? && Enabled(s, a) {
        forall q | q in Reached(c, acts).procs
          ensures Counted(Reached(c, acts).procs[q], Thrown(c, acts, q), Attempted(c, acts, q),
                          AttemptedByRun(c, acts, q))
        {
          StepCounts(c, acts, q);
        }
      } else {
        RunKeepsInv(c, before);
        NothingBefore(c, before, s.next);
      }
    }
  }

  /** In every reachable state a job has thrown exactly `attemptsMade` times; it waits for its failure
      handler if and only if that is three times, and otherwise fewer. */
  lemma {:induction false} AttemptsAreThrows(c: Codec, acts: seq<Action>, pid: nat)
    ensures var s := Reached(c, acts);
            pid in s.procs && s.procs[pid].Worker? ==>
              var job := s.procs[pid].job;
              && job.attemptsMade == Thrown(c, acts, pid) <= 3
              && (job.phase.Failing? <==> Thrown(c, acts, pid) == 3)
  {
    RunCounts(c, acts);
    RunKeepsInv(c, acts);
    var s := Reached(c, acts);
    if pid in s.procs { assert ProcOk(c, s.srcs, s.born, s.w, s.procs[pid]); }
  }

  /** A job is granted three attempts, and a fourth never: it has started one per throw, and one more while
      one is running; `attempts` counts those of its whole run, which are at most nine from convert on and
      twelve with validation. */
  lemma {:induction false} AttemptsAreBounded(c: Codec, acts: seq<Action>, pid: nat)
    ensures var s := Reached(c, acts);
            pid in s.procs && s.procs[pid].Worker? ==>
              var job := s.procs[pid].job;
              && Attempted(c, acts, pid)
                 == Thrown(c, acts, pid) + (if job.phase.Queued? || job.phase.Failing? then 0 else 1)
              && Attempted(c, acts, pid) <= 3
              && job.attempts == AttemptedByRun(c, acts, pid) <= 3 * (Rank(job.stage) - Rank(job.entry) + 1)
              && job.attempts <= 12 && (job.entry.Convert? ==> job.attempts <= 9)
  {
    RunCounts(c, acts);
    RunKeepsInv(c, acts);
    var s := Reached(c, acts);
    if pid in s.procs { assert ProcOk(c, s.srcs, s.born, s.w, s.procs[pid]); }
  }
}
