/**
 * The asynchronous pipeline as a step system.  Every `await` of a worker job, of a resize task and of
 * an API call is one atomic step; between any two steps of one process any other process may run.
 *
 * An await ends in one of three ways: it succeeds; it rejects without having taken effect; or it
 * rejects although the write took effect (the reply was lost).  A rejected await throws, and BullMQ
 * retries the job until three attempts are used up, when the failure handler gets its one write.
 */
module Machine {
  import opened Wrappers
  import opened Keys
  import opened Rounding
  import opened Tables

  datatype Stage = Validate | Convert | Compress | Variants

  datatype Await = Ok | Rejected | Late

  /** One of the three concurrent resize tasks of the variants stage. */
  datatype Task = Resizing(source: Blob) | Putting(out: Processed) | Upserting(out: Processed) | Settled

  /** The await the validation worker is suspended at, with the locals still needed. */
  datatype ValidatePhase =
    | VMark(row: Row)
    | VGet(row: Row)
    | VCheck(row: Row, body: Blob)
    | VReject(reasons: Reasons)
    | VDisplay(row: Row, body: Blob, measures: Measures)
    | VAccept(measures: Measures, display: Option<Key>)
    | VHandOff

  datatype ConvertPhase =
    | CStatus(row: Row)
    | CGet(row: Row)
    | CNormalize(row: Row, body: Blob)
    | CPut(row: Row, out: Processed)
    | CSetRow(row: Row)
    | CHandOff

  datatype CompressPhase =
    | KStatus(row: Row)
    | KGet(row: Row)
    | KCompress(row: Row, body: Blob)
    | KPut(row: Row, normalBytes: nat, out: Processed)
    | KSetRow(row: Row, normalBytes: nat, size: nat)
    | KHandOff

  datatype VariantsPhase =
    | XStatus(row: Row, sourceKey: Key)
    | XGet(row: Row, sourceKey: Key)
    | XFan(row: Row, thumb: Task, web: Task, full: Task)
    | XComplete

  /** Queued: waiting, the next await is findById.  Failing: attempts used up, handler pending. */
  datatype Phase =
    | Queued
    | Validating(v: ValidatePhase)
    | Converting(n: ConvertPhase)
    | Compressing(k: CompressPhase)
    | Sizing(x: VariantsPhase)
    | Failing

  /** `attempts` counts the attempts started by this run so far, ancestors in earlier stages
      included; `entry` is the stage at which the run entered the queues. */
  datatype Job = Job(imageId: ImageId, entry: Stage, stage: Stage, attemptsMade: nat, attempts: nat, phase: Phase)

  const MAX_ATTEMPTS: nat := 3

  datatype CreateStep = PutOriginal | InsertRow | EnqueueEntry
  datatype ReprocessStep = FindRow | MarkConvert | EnqueueFresh
  datatype RemoveStep = FindVictim | DeleteObjects(original: Option<Key>, display: Option<Key>) | DeleteRow

  datatype Proc =
    | Worker(job: Job)
    | Straggler(imageId: ImageId, userId: string, vtype: VariantType, task: Task)
    | Creating(imageId: ImageId, entry: Stage, create: CreateStep)     // upload or seedForPipeline
    | Reprocessing(imageId: ImageId, reprocess: ReprocessStep)
    | Removing(imageId: ImageId, remove: RemoveStep)

  /** What the environment decides at a step. */
  type Reasons = reasons: seq<RejectionReason> | reasons != [] witness [RejectionReason("", "")]

  datatype Verdict = Refuse(reasons: Reasons) | Admit(measures: Measures, heic: bool)
  const ANY_VERDICT: Verdict := Refuse([RejectionReason("", "")])

  datatype Choice = Choice(outcome: Await, verdict: Verdict, vtype: VariantType, first: bool, message: string)

  /** `entered` counts entry enqueues; `forked` counts hand-offs whose enqueue took effect although
      the await rejected; `collapsed` counts hand-offs BullMQ de-duplicated away. */
  datatype Tally = Tally(entered: nat, forked: nat, completed: nat, refused: nat, dropped: nat, failed: nat,
                         collapsed: nat)

  datatype State = State(
    srcs: Sources,             // every upload ever begun
    born: set<ImageId>,        // images whose row was ever inserted
    w: World,
    procs: map<nat, Proc>,     // everything in progress
    next: nat,                 // next unused process number
    convertIds: set<ImageId>,  // deterministic convert job ids present in the queue
    lost: set<ImageId>,        // images for which a hand-off, its reply, or the handler's write was lost
    tally: Tally)

  const INITIAL: State := State(map[], {}, World(map[], [], map[]), map[], 0, {}, {}, Tally(0, 0, 0, 0, 0, 0, 0))

  // ---- One await of a job ------------------------------------------------------------------------

  datatype Ending = HandedOff | Completes | Refuses | Drops
  datatype Next = Goes(phase: Phase) | Ends(ending: Ending) | Throws

  function GoV(v: ValidatePhase): Next { Goes(Validating(v)) }
  function GoC(n: ConvertPhase): Next { Goes(Converting(n)) }
  function GoK(k: CompressPhase): Next { Goes(Compressing(k)) }
  function GoX(x: VariantsPhase): Next { Goes(Sizing(x)) }

  datatype Outcome = Outcome(world: World, next: Next, enqueued: Option<Stage>, orphans: seq<Proc>)

  function Yields(w: World, next: Next): Outcome {
    Outcome(w, next, None, [])
  }

  /** A write: the database may refuse it, the await may reject before or after it. */
  function Write(w: World, effect: Option<World>, out: Await, next: Next): Outcome {
    match effect
    case None => Yields(w, Throws)
    case Some(w') =>
      match out
      case Ok => Yields(w', next)
      case Rejected => Yields(w, Throws)
      case Late => Yields(w', Throws)
  }

  /** A read or a computation. */
  function Read(w: World, out: Await, next: Next): Outcome {
    Yields(w, if out.Ok? then next else Throws)
  }

  function HandOff(w: World, out: Await, stage: Stage): Outcome {
    match out
    case Ok => Outcome(w, Ends(HandedOff), Some(stage), [])
    case Rejected => Yields(w, Throws)
    case Late => Outcome(w, Throws, Some(stage), [])
  }

  function DisplayOf(original: Key): Key {
    match original.kind
    case Original(ext) => original.(kind := Display(ext))
    case _ => original
  }

  /** findById, the missing-row exit and the stage's first checks. */
  function Begin(w: World, i: ImageId, stage: Stage): Next {
    if i !in w.images then Ends(Drops)
    else
      var row := w.images[i];
      match stage
      case Validate => GoV(VMark(row))
      case Convert => GoC(CStatus(row))
      case Compress => if row.normalizedKey.None? then Throws else GoK(KStatus(row))
      case Variants =>
        var sourceKey := if row.compressedKey.Some? then row.compressedKey else row.normalizedKey;
        if sourceKey.None? then Throws else GoX(XStatus(row, sourceKey.value))
  }

  function Fetch(w: World, key: Key, out: Await, next: Blob -> Next): Outcome {
    if key in w.objects then Read(w, out, next(w.objects[key])) else Yields(w, Throws)
  }

  function ValidateAwait(c: Codec, w: World, i: ImageId, phase: ValidatePhase, ch: Choice): Outcome {
    match phase
    case VMark(row) => Write(w, Started(w, i), ch.outcome, GoV(VGet(row)))
    case VGet(row) => Fetch(w, row.original, ch.outcome, body => GoV(VCheck(row, body)))
    case VCheck(row, body) =>
      Read(w, ch.outcome,
        match ch.verdict
        case Refuse(reasons) => GoV(VReject(reasons))
        case Admit(measures, heic) =>
          if heic then GoV(VDisplay(row, (c.heicToJpeg)(body), measures)) else GoV(VAccept(measures, None)))
    case VReject(reasons) => Write(w, Refused(w, i, REJECTED, reasons), ch.outcome, Ends(Refuses))
    case VDisplay(row, body, measures) =>
      Write(w, Some(Put(w, DisplayOf(row.original), body)), ch.outcome,
            GoV(VAccept(measures, Some(DisplayOf(row.original)))))
    case VAccept(measures, display) => Write(w, Accepted(w, i, measures, display), ch.outcome, GoV(VHandOff))
    case VHandOff => HandOff(w, ch.outcome, Convert)
  }

  function ConvertAwait(c: Codec, w: World, i: ImageId, phase: ConvertPhase, ch: Choice): Outcome {
    match phase
    case CStatus(row) => Write(w, StatusSet(w, i, PROCESSING_CONVERT), ch.outcome, GoC(CGet(row)))
    case CGet(row) => Fetch(w, row.original, ch.outcome, body => GoC(CNormalize(row, body)))
    case CNormalize(row, body) => Read(w, ch.outcome, GoC(CPut(row, (c.normalize)(body, row.mimeType))))
    case CPut(row, out) =>
      Write(w, Some(Put(w, Key(row.userId, i, Normalized), out.buffer)), ch.outcome, GoC(CSetRow(row)))
    case CSetRow(row) => Write(w, NormalizedSet(w, i, Key(row.userId, i, Normalized)), ch.outcome, GoC(CHandOff))
    case CHandOff => HandOff(w, ch.outcome, Compress)
  }

  function CompressAwait(c: Codec, w: World, i: ImageId, phase: CompressPhase, ch: Choice): Outcome {
    match phase
    case KStatus(row) => Write(w, StatusSet(w, i, PROCESSING_COMPRESS), ch.outcome, GoK(KGet(row)))
    case KGet(row) =>
      (match row.normalizedKey
       case Some(key) => Fetch(w, key, ch.outcome, body => GoK(KCompress(row, body)))
       case None => Yields(w, Throws))
    case KCompress(row, body) => Read(w, ch.outcome, GoK(KPut(row, |body|, (c.compress)(body))))
    case KPut(row, normalBytes, out) =>
      Write(w, Some(Put(w, Key(row.userId, i, Compressed), out.buffer)), ch.outcome,
            GoK(KSetRow(row, normalBytes, |out.buffer|)))
    case KSetRow(row, normalBytes, size) =>
      Write(w, CompressedSet(w, i, Key(row.userId, i, Compressed), Compression(size, StoredRatio(size, normalBytes))),
            ch.outcome, GoK(KHandOff))
    case KHandOff => HandOff(w, ch.outcome, Variants)
  }

  /** One await of a resize task; None: the task rejects. */
  function TaskAwait(c: Codec, w: World, i: ImageId, userId: string, t: VariantType, task: Task, out: Await)
    : (World, Option<Task>)
  {
    match task
    case Resizing(source) =>
      (w, if out.Ok? then Some(Putting((c.resize)(source, (c.width)(t)))) else None)
    case Putting(p) =>
      (match out
       case Ok => (Put(w, Key(userId, i, Variant(t)), p.buffer), Some(Upserting(p)))
       case Rejected => (w, None)
       case Late => (Put(w, Key(userId, i, Variant(t)), p.buffer), None))
    case Upserting(p) =>
      (match Upserted(w, VariantRow(i, t, Key(userId, i, Variant(t)), p.width, p.height, |p.buffer|))
       case None => (w, None)
       case Some(w') =>
         match out
         case Ok => (w', Some(Settled))
         case Rejected => (w, None)
         case Late => (w', None))
    case Settled => (w, Some(Settled))
  }

  /** Awaits a resize task has left. */
  function TaskAwaits(task: Task): nat {
    match task
    case Resizing(_) => 3
    case Putting(_) => 2
    case Upserting(_) => 1
    case Settled => 0
  }

  /** Awaits left in this attempt, at most. */
  function Awaits(stage: Stage, phase: Phase): nat {
    match phase
    case Queued => (if stage.Variants? then 13 else 7)
    case Failing => 1
    case Validating(v) =>
      (match v
       case VMark(_) => 6 case VGet(_) => 5 case VCheck(_, _) => 4 case VReject(_) => 1
       case VDisplay(_, _, _) => 3 case VAccept(_, _) => 2 case VHandOff => 1)
    case Converting(n) =>
      (match n
       case CStatus(_) => 6 case CGet(_) => 5 case CNormalize(_, _) => 4 case CPut(_, _) => 3
       case CSetRow(_) => 2 case CHandOff => 1)
    case Compressing(k) =>
      (match k
       case KStatus(_) => 6 case KGet(_) => 5 case KCompress(_, _) => 4 case KPut(_, _, _) => 3
       case KSetRow(_, _, _) => 2 case KHandOff => 1)
    case Sizing(x) =>
      (match x
       case XStatus(_, _) => 12 case XGet(_, _) => 11
       case XFan(_, thumb, web, full) => 1 + TaskAwaits(thumb) + TaskAwaits(web) + TaskAwaits(full)
       case XComplete => 1)
  }

  function TaskOf(fan: VariantsPhase, t: VariantType): Task
    requires fan.XFan?
  {
    match t case THUMBNAIL => fan.thumb case WEB => fan.web case FULL => fan.full
  }

  function WithTask(fan: VariantsPhase, t: VariantType, task: Task): (r: VariantsPhase)
    requires fan.XFan?
    ensures r.XFan? && r.row == fan.row
    ensures forall u :: TaskOf(r, u) == if u == t then task else TaskOf(fan, u)
  {
    match t
    case THUMBNAIL => fan.(thumb := task)
    case WEB => fan.(web := task)
    case FULL => fan.(full := task)
  }

  /** `Promise.all` does not cancel: the unsettled siblings of a rejected task carry on alone. */
  function Orphan(i: ImageId, fan: VariantsPhase, failed: VariantType, t: VariantType): seq<Proc>
    requires fan.XFan?
  {
    if t == failed || TaskOf(fan, t).Settled? then [] else [Straggler(i, fan.row.userId, t, TaskOf(fan, t))]
  }

  function FanAwait(c: Codec, w: World, i: ImageId, fan: VariantsPhase, ch: Choice): Outcome
    requires fan.XFan?
  {
    var t := ch.vtype;
    var (w', task) := TaskAwait(c, w, i, fan.row.userId, t, TaskOf(fan, t), ch.outcome);
    match task
    case None =>
      Outcome(w', Throws, None, Orphan(i, fan, t, THUMBNAIL) + Orphan(i, fan, t, WEB) + Orphan(i, fan, t, FULL))
    case Some(task') =>
      var fan' := WithTask(fan, t, task');
      Yields(w', GoX(if fan'.thumb.Settled? && fan'.web.Settled? && fan'.full.Settled? then XComplete else fan'))
  }

  function VariantsAwait(c: Codec, w: World, i: ImageId, phase: VariantsPhase, ch: Choice): Outcome {
    match phase
    case XStatus(row, key) => Write(w, StatusSet(w, i, PROCESSING_VARIANTS), ch.outcome, GoX(XGet(row, key)))
    case XGet(row, key) =>
      Fetch(w, key, ch.outcome, body => GoX(XFan(row, Resizing(body), Resizing(body), Resizing(body))))
    case XFan(_, _, _, _) => FanAwait(c, w, i, phase, ch)
    case XComplete => Write(w, StatusSet(w, i, COMPLETED), ch.outcome, Ends(Completes))
  }

  function JobAwait(c: Codec, w: World, job: Job, ch: Choice): Outcome {
    match job.phase
    case Queued => Read(w, ch.outcome, Begin(w, job.imageId, job.stage))
    case Validating(v) => ValidateAwait(c, w, job.imageId, v, ch)
    case Converting(n) => ConvertAwait(c, w, job.imageId, n, ch)
    case Compressing(k) => CompressAwait(c, w, job.imageId, k, ch)
    case Sizing(x) => VariantsAwait(c, w, job.imageId, x, ch)
    case Failing => Yields(w, Throws)  // not resumed here: the failure handler takes over
  }

  // ---- One step of a process ---------------------------------------------------------------------

  /** What a step leaves behind: the process itself (None: it is over), new processes, new globals. */
  datatype Turn = Turn(
    world: World, self: Option<Proc>, spawned: seq<Proc>, born: set<ImageId>,
    convertIds: set<ImageId>, lost: set<ImageId>, tally: Tally)

  function Stay(s: State, self: Option<Proc>): Turn {
    Turn(s.w, self, [], s.born, s.convertIds, s.lost, s.tally)
  }

  function Fresh(i: ImageId, entry: Stage, stage: Stage, attempts: nat): Proc {
    Worker(Job(i, entry, stage, 0, attempts, Queued))
  }

  /** A job whose attempt throws: back into the queue, or on to the failure handler. */
  function Retried(job: Job, attempts: nat): Proc {
    Worker(job.(attemptsMade := job.attemptsMade + 1, attempts := attempts,
                phase := if job.attemptsMade + 1 < MAX_ATTEMPTS then Queued else Failing))
  }

  /** The validation hand-off uses the deterministic job id; the later ones use generated ids. */
  predicate Deduplicated(s: State, job: Job) {
    job.stage.Validate? && job.imageId in s.convertIds
  }

  function JobTurn(c: Codec, s: State, job: Job, ch: Choice): Turn {
    var i := job.imageId;
    var o := JobAwait(c, s.w, job, ch);
    var attempts := job.attempts + if job.phase.Queued? then 1 else 0;
    var adds := o.enqueued.Some? && !Deduplicated(s, job);
    var added := if adds then [Fresh(i, job.entry, o.enqueued.value, attempts)] else [];
    var ids := if adds && job.stage.Validate? then s.convertIds + {i} else s.convertIds;
    match o.next
    case Goes(phase) =>
      Turn(o.world, Some(Worker(job.(attempts := attempts, phase := phase))), o.orphans + added, s.born, ids, s.lost,
        s.tally)
    case Throws =>
      Turn(o.world, Some(Retried(job, attempts)), o.orphans + added, s.born, ids,
           if adds && job.stage.Validate? then s.lost + {i} else s.lost,
           s.tally.(forked := s.tally.forked + |added|))
    case Ends(ending) =>
      Turn(o.world, None, o.orphans + added, s.born, ids,
           if ending.HandedOff? && !adds then s.lost + {i} else s.lost,
           match ending
           case HandedOff => s.tally.(collapsed := s.tally.collapsed + 1 - |added|)
           case Completes => s.tally.(completed := s.tally.completed + 1)
           case Refuses => s.tally.(refused := s.tally.refused + 1)
           case Drops => s.tally.(dropped := s.tally.dropped + 1))
  }

  function StageName(stage: Stage): string {
    match stage
    case Validate => "validate"
    case Convert => "convert"
    case Compress => "compress"
    case Variants => "variants"
  }

  /** The 'failed' handler after the last attempt; a write error is only logged. */
  function HandlerTurn(s: State, job: Job, ch: Choice): Turn {
    var i := job.imageId;
    var effect :=
      if job.stage.Validate? then Refused(s.w, i, FAILED, [RejectionReason("INTERNAL_ERROR", ch.message)])
      else ProcessingFailed(s.w, i, "[" + StageName(job.stage) + "] " + ch.message);
    var w' := if effect.Some? && !ch.outcome.Rejected? then effect.value else s.w;
    Turn(w', None, [], s.born, s.convertIds,
         if effect.Some? && ch.outcome.Rejected? then s.lost + {i} else s.lost,
         s.tally.(failed := s.tally.failed + 1))
  }

  function StragglerTurn(c: Codec, s: State, p: Proc, ch: Choice): Turn
    requires p.Straggler?
  {
    var (w', task) := TaskAwait(c, s.w, p.imageId, p.userId, p.vtype, p.task, ch.outcome);
    Stay(s, if task.None? || task.value.Settled? then None else Some(p.(task := task.value))).(world := w')
  }

  function NewRow(src: Source, i: ImageId, entry: Stage): Row {
    Row(src.userId, src.mimeType, Key(src.userId, i, Original(src.ext)), None,
        if entry.Validate? then PENDING else ACCEPTED, None, None, None, None, None, None)
  }

  /** upload (entry Validate) and seedForPipeline (entry Convert, deterministic job id). */
  function CreateTurn(s: State, p: Proc, ch: Choice): Turn
    requires p.Creating?
  {
    var i := p.imageId;
    if i !in s.srcs then Stay(s, None)
    else
      var src := s.srcs[i];
      match p.create
      case PutOriginal =>
        var w' := if ch.outcome.Rejected? then s.w else Put(s.w, Key(src.userId, i, Original(src.ext)), src.bytes);
        Stay(s, if ch.outcome.Ok? then Some(p.(create := InsertRow)) else None).(world := w')
      case InsertRow =>
        (match Created(s.w, i, NewRow(src, i, p.entry))
         case None => Stay(s, None)
         case Some(w') =>
           match ch.outcome
           case Ok => Stay(s, Some(p.(create := EnqueueEntry))).(world := w', born := s.born + {i})
           case Rejected => Stay(s, None)
           case Late => Stay(s, None).(world := w', born := s.born + {i}, lost := s.lost + {i}))
      case EnqueueEntry =>
        if ch.outcome.Rejected? then Stay(s, None).(lost := s.lost + {i})
        else if p.entry.Convert? && i in s.convertIds then Stay(s, None).(lost := s.lost + {i})
        else Stay(s, None).(
          spawned := [Fresh(i, p.entry, p.entry, 0)],
          convertIds := if p.entry.Convert? then s.convertIds + {i} else s.convertIds,
          tally := s.tally.(entered := s.tally.entered + 1))
  }

  function ReprocessTurn(s: State, p: Proc, ch: Choice): Turn
    requires p.Reprocessing?
  {
    var i := p.imageId;
    match p.reprocess
    case FindRow =>
      Stay(s, if ch.outcome.Ok? && i in s.w.images then Some(p.(reprocess := MarkConvert)) else None)
    case MarkConvert =>
      (match StatusSet(s.w, i, PROCESSING_CONVERT)
       case None => Stay(s, None)
       case Some(w') =>
         match ch.outcome
         case Ok => Stay(s, Some(p.(reprocess := EnqueueFresh))).(world := w')
         case Rejected => Stay(s, None)
         case Late => Stay(s, None).(world := w', lost := s.lost + {i}))
    case EnqueueFresh =>
      if ch.outcome.Rejected? then Stay(s, None).(lost := s.lost + {i})
      else Stay(s, None).(spawned := [Fresh(i, Convert, Convert, 0)], tally := s.tally.(entered := s.tally.entered + 1))
  }

  /** The two object deletes run concurrently and their failures are ignored. */
  function RemoveTurn(s: State, p: Proc, ch: Choice): Turn
    requires p.Removing?
  {
    var i := p.imageId;
    match p.remove
    case FindVictim =>
      if ch.outcome.Ok? && i in s.w.images then
        var row := s.w.images[i];
        Stay(s, Some(p.(remove := DeleteObjects(Some(row.original), row.display))))
      else Stay(s, None)
    case DeleteObjects(original, display) =>
      var key := if ch.first then original else display;
      var w' := if key.Some? && !ch.outcome.Rejected? then Removed(s.w, key.value) else s.w;
      var rest := if ch.first then DeleteObjects(None, display) else DeleteObjects(original, None);
      Stay(s, Some(p.(remove := if rest.original.None? && rest.display.None? then DeleteRow else rest))).(world := w')
    case DeleteRow =>
      (match Deleted(s.w, i)
       case None => Stay(s, None)
       case Some(w') => Stay(s, None).(world := if ch.outcome.Rejected? then s.w else w'))
  }

  function ProcTurn(c: Codec, s: State, p: Proc, ch: Choice): Turn {
    match p
    case Worker(job) => if job.phase.Failing? then HandlerTurn(s, job, ch) else JobTurn(c, s, job, ch)
    case Straggler(_, _, _, _) => StragglerTurn(c, s, p, ch)
    case Creating(_, _, _) => CreateTurn(s, p, ch)
    case Reprocessing(_, _) => ReprocessTurn(s, p, ch)
    case Removing(_, _) => RemoveTurn(s, p, ch)
  }

  /** A settled task or an object delete already done has no further await to resume. */
  predicate Resumes(p: Proc, ch: Choice) {
    match p
    case Worker(job) => job.phase.Sizing? && job.phase.x.XFan? ==> !TaskOf(job.phase.x, ch.vtype).Settled?
    case Straggler(_, _, _, task) => !task.Settled?
    case Removing(_, DeleteObjects(original, display)) => if ch.first then original.Some? else display.Some?
    case _ => true
  }

  // ---- Runs --------------------------------------------------------------------------------------

  datatype Action =
    | Upload(src: Source, newId: ImageId)
    | Seed(src: Source, newId: ImageId)
    | Reprocess(id: ImageId)
    | Remove(id: ImageId)
    | Resume(pid: nat, choice: Choice)

  function Spawn(procs: map<nat, Proc>, next: nat, spawned: seq<Proc>): map<nat, Proc>
    decreases |spawned|
  {
    if spawned == [] then procs else Spawn(procs[next := spawned[0]], next + 1, spawned[1..])
  }

  function Apply(s: State, pid: nat, t: Turn): State {
    var kept := if t.self.Some? then s.procs[pid := t.self.value] else s.procs - {pid};
    s.(w := t.world, born := t.born, convertIds := t.convertIds, lost := t.lost, tally := t.tally,
       procs := Spawn(kept, s.next, t.spawned), next := s.next + |t.spawned|)
  }

  function Begun(s: State, p: Proc): State {
    s.(procs := s.procs[s.next := p], next := s.next + 1)
  }

  /** uuids are fresh: an upload under a known id is not an action. */
  predicate Enabled(s: State, a: Action) {
    match a
    case Upload(_, i) => i !in s.srcs
    case Seed(_, i) => i !in s.srcs
    case Reprocess(_) => true
    case Remove(_) => true
    case Resume(pid, ch) => pid in s.procs && Resumes(s.procs[pid], ch)
  }

  function Step(c: Codec, s: State, a: Action): State {
    if !Enabled(s, a) then s
    else
      match a
      case Upload(src, i) => Begun(s.(srcs := s.srcs[i := src]), Creating(i, Validate, PutOriginal))
      case Seed(src, i) => Begun(s.(srcs := s.srcs[i := src]), Creating(i, Convert, PutOriginal))
      case Reprocess(i) => Begun(s, Reprocessing(i, FindRow))
      case Remove(i) => Begun(s, Removing(i, FindVictim))
      case Resume(pid, ch) => Apply(s, pid, ProcTurn(c, s, s.procs[pid], ch))
  }

  function Exec(c: Codec, s: State, acts: seq<Action>): State {
    if acts == [] then s else Step(c, Exec(c, s, acts[..|acts| - 1]), acts[|acts| - 1])
  }
}
