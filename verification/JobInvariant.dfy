/**
 * What holds of a job, of a resize task and of an API call at each of its awaits, and why every step
 * keeps it -- for the process that moves and for all the others.
 */
module JobInvariant {
  import opened Wrappers
  import opened Keys
  import opened Rounding
  import opened Tables
  import opened Machine

  function Rank(stage: Stage): nat {
    match stage
    case Validate => 0
    case Convert => 1
    case Compress => 2
    case Variants => 3
  }

  /** What the previous stage left behind, unless the image was deleted meanwhile. */
  predicate StageReady(w: World, i: ImageId, stage: Stage) {
    i in w.images ==>
      && (stage.Compress? ==> w.images[i].normalizedKey.Some?)
      && (stage.Variants? ==> w.images[i].compressedKey.Some?)
  }

  ghost predicate Snapshot(srcs: Sources, i: ImageId, row: Row) {
    i in srcs && Describes(srcs[i], i, row)
  }

  ghost predicate TaskOk(c: Codec, srcs: Sources, w: World, i: ImageId, t: VariantType, task: Task) {
    i in srcs &&
    match task
    case Resizing(source) => source == Small(c, srcs[i]).buffer
    case Putting(out) => out == Sized(c, srcs[i], t)
    case Upserting(out) => out == Sized(c, srcs[i], t) && Key(srcs[i].userId, i, Variant(t)) in w.objects
    case Settled => i in w.images ==> HasVariant(w, i, t)
  }

  ghost predicate ValidatePhaseOk(c: Codec, srcs: Sources, i: ImageId, phase: ValidatePhase) {
    i in srcs &&
    match phase
    case VMark(row) => Snapshot(srcs, i, row)
    case VGet(row) => Snapshot(srcs, i, row)
    case VCheck(row, body) => Snapshot(srcs, i, row) && body == srcs[i].bytes
    case VReject(_) => true
    case VDisplay(row, body, _) => Snapshot(srcs, i, row) && body == Content(c, srcs[i], Display(srcs[i].ext))
    case VAccept(_, display) => display.Some? ==> display.value == Key(srcs[i].userId, i, Display(srcs[i].ext))
    case VHandOff => true
  }

  ghost predicate ConvertPhaseOk(c: Codec, srcs: Sources, w: World, i: ImageId, phase: ConvertPhase) {
    i in srcs &&
    match phase
    case CStatus(row) => Snapshot(srcs, i, row)
    case CGet(row) => Snapshot(srcs, i, row)
    case CNormalize(row, body) => Snapshot(srcs, i, row) && body == srcs[i].bytes
    case CPut(row, out) => Snapshot(srcs, i, row) && out == Normal(c, srcs[i])
    case CSetRow(row) => Snapshot(srcs, i, row) && Key(srcs[i].userId, i, Normalized) in w.objects
    case CHandOff => StageReady(w, i, Compress)
  }

  ghost predicate CompressPhaseOk(c: Codec, srcs: Sources, w: World, i: ImageId, phase: CompressPhase) {
    i in srcs &&
    match phase
    case KStatus(row) => Snapshot(srcs, i, row) && HasNormal(srcs, w, i, row)
    case KGet(row) => Snapshot(srcs, i, row) && HasNormal(srcs, w, i, row)
    case KCompress(row, body) => Snapshot(srcs, i, row) && body == Normal(c, srcs[i]).buffer
    case KPut(row, normalBytes, out) =>
      Snapshot(srcs, i, row) && normalBytes == |Normal(c, srcs[i]).buffer| && out == Small(c, srcs[i])
    case KSetRow(row, normalBytes, size) =>
      && Snapshot(srcs, i, row)
      && normalBytes == |Normal(c, srcs[i]).buffer| && size == |Small(c, srcs[i]).buffer|
      && Key(srcs[i].userId, i, Compressed) in w.objects
    case KHandOff => StageReady(w, i, Variants)
  }

  ghost predicate VariantsPhaseOk(c: Codec, srcs: Sources, w: World, i: ImageId, phase: VariantsPhase) {
    i in srcs &&
    match phase
    case XStatus(row, key) => Snapshot(srcs, i, row) && IsCompressedKey(srcs, w, i, key)
    case XGet(row, key) => Snapshot(srcs, i, row) && IsCompressedKey(srcs, w, i, key)
    case XFan(row, thumb, web, full) =>
      && Snapshot(srcs, i, row)
      && TaskOk(c, srcs, w, i, THUMBNAIL, thumb) && TaskOk(c, srcs, w, i, WEB, web) && TaskOk(c, srcs, w, i, FULL, full)
      && !(thumb.Settled? && web.Settled? && full.Settled?)
    case XComplete => i in w.images ==> HasAllVariants(w, i)
  }

  ghost predicate PhaseOk(c: Codec, srcs: Sources, w: World, i: ImageId, stage: Stage, phase: Phase) {
    match phase
    case Queued => i in srcs
    case Validating(v) => stage.Validate? && ValidatePhaseOk(c, srcs, i, v)
    case Converting(n) => stage.Convert? && ConvertPhaseOk(c, srcs, w, i, n)
    case Compressing(k) => stage.Compress? && CompressPhaseOk(c, srcs, w, i, k)
    case Sizing(x) => stage.Variants? && VariantsPhaseOk(c, srcs, w, i, x)
    case Failing => i in srcs
  }

  ghost predicate HasNormal(srcs: Sources, w: World, i: ImageId, row: Row) {
    i in srcs && row.normalizedKey == Some(Key(srcs[i].userId, i, Normalized)) && row.normalizedKey.value in w.objects
  }

  /** The normalized image is never used as the source of the variants. */
  ghost predicate IsCompressedKey(srcs: Sources, w: World, i: ImageId, key: Key) {
    i in srcs && key == Key(srcs[i].userId, i, Compressed) && key in w.objects
  }

  predicate Running(phase: Phase) {
    !phase.Queued? && !phase.Failing?
  }

  /** Attempts so far: at most three per stage passed, plus those of the present stage. */
  predicate AttemptsOk(job: Job) {
    && !job.entry.Compress? && !job.entry.Variants? && Rank(job.entry) <= Rank(job.stage)
    && job.attemptsMade <= MAX_ATTEMPTS
    && (job.phase.Failing? <==> job.attemptsMade == MAX_ATTEMPTS)
    && job.attempts <= MAX_ATTEMPTS * (Rank(job.stage) - Rank(job.entry)) + job.attemptsMade
                       + if Running(job.phase) then 1 else 0
  }

  ghost predicate JobOk(c: Codec, srcs: Sources, born: set<ImageId>, w: World, job: Job) {
    && job.imageId in born
    && AttemptsOk(job)
    && StageReady(w, job.imageId, job.stage)
    && PhaseOk(c, srcs, w, job.imageId, job.stage, job.phase)
  }

  predicate VictimOk(srcs: Sources, i: ImageId, remove: RemoveStep) {
    match remove
    case FindVictim => true
    case DeleteObjects(original, display) =>
      && i in srcs && (original.Some? || display.Some?)
      && (original.Some? ==> original.value == Key(srcs[i].userId, i, Original(srcs[i].ext)))
      && (display.Some? ==> display.value == Key(srcs[i].userId, i, Display(srcs[i].ext)))
    case DeleteRow => true
  }

  ghost predicate ProcOk(c: Codec, srcs: Sources, born: set<ImageId>, w: World, p: Proc) {
    match p
    case Worker(job) => JobOk(c, srcs, born, w, job)
    case Straggler(i, userId, t, task) =>
      i in born && i in srcs && userId == srcs[i].userId && TaskOk(c, srcs, w, i, t, task) && !task.Settled?
    case Creating(i, entry, create) =>
      && i in srcs && (entry.Validate? || entry.Convert?)
      && (i in born <==> create.EnqueueEntry?)
    case Reprocessing(i, reprocess) => reprocess.FindRow? || i in born
    case Removing(i, remove) => VictimOk(srcs, i, remove)
  }

  // ---- The processes that do not move ------------------------------------------------------------

  lemma TaskStays(c: Codec, srcs: Sources, born: set<ImageId>, w: World, w': World, i: ImageId, t: VariantType,
                  task: Task)
    requires TaskOk(c, srcs, w, i, t, task) && i in born && Grows(born, w, w')
    ensures TaskOk(c, srcs, w', i, t, task)
  {
    assert Derived(Key(srcs[i].userId, i, Variant(t)));
  }

  lemma VariantsPhaseStays(c: Codec, srcs: Sources, born: set<ImageId>, w: World, w': World, i: ImageId,
                           phase: VariantsPhase)
    requires VariantsPhaseOk(c, srcs, w, i, phase) && i in born && Grows(born, w, w')
    ensures VariantsPhaseOk(c, srcs, w', i, phase)
  {
    assert Derived(Key(srcs[i].userId, i, Compressed));
    match phase {
      case XFan(row, thumb, web, full) =>
        TaskStays(c, srcs, born, w, w', i, THUMBNAIL, thumb);
        TaskStays(c, srcs, born, w, w', i, WEB, web);
        TaskStays(c, srcs, born, w, w', i, FULL, full);
      case _ =>
    }
  }

  lemma PhaseStays(c: Codec, srcs: Sources, born: set<ImageId>, w: World, w': World, i: ImageId, stage: Stage,
                   phase: Phase)
    requires PhaseOk(c, srcs, w, i, stage, phase) && i in born && Grows(born, w, w')
    ensures PhaseOk(c, srcs, w', i, stage, phase)
  {
    var u := srcs[i].userId;
    assert Derived(Key(u, i, Normalized)) && Derived(Key(u, i, Compressed));
    match phase {
      case Sizing(x) => VariantsPhaseStays(c, srcs, born, w, w', i, x);
      case _ =>
    }
  }

  /** Interference freedom: whatever a growing step does, the other processes stay sound. */
  lemma ProcStays(c: Codec, srcs: Sources, srcs': Sources, born: set<ImageId>, born': set<ImageId>, w: World,
                  w': World, p: Proc)
    requires ProcOk(c, srcs, born, w, p) && Grows(born, w, w')
    requires born <= born'
    requires forall i :: i in srcs ==> i in srcs' && srcs'[i] == srcs[i]
    requires p.Creating? && p.imageId in born' ==> p.imageId in born
    ensures ProcOk(c, srcs', born', w', p)
  {
    match p {
      case Worker(job) =>
        PhaseStays(c, srcs, born, w, w', job.imageId, job.stage, job.phase);
        PhaseOfMoreSources(c, srcs, srcs', w', job.imageId, job.stage, job.phase);
      case Straggler(i, _, t, task) =>
        TaskStays(c, srcs, born, w, w', i, t, task);
      case _ =>
    }
  }

  lemma PhaseOfMoreSources(c: Codec, srcs: Sources, srcs': Sources, w: World, i: ImageId, stage: Stage, phase: Phase)
    requires PhaseOk(c, srcs, w, i, stage, phase)
    requires i in srcs' && srcs'[i] == srcs[i]
    ensures PhaseOk(c, srcs', w, i, stage, phase)
  {
  }

  // ---- One await of a job --------------------------------------------------------------------------

  ghost predicate OthersSame(i: ImageId, w: World, w': World) {
    forall j :: j != i ==> (j in w'.images <==> j in w.images) && (j in w.images ==> w'.images[j] == w.images[j])
  }

  ghost predicate NextOk(c: Codec, srcs: Sources, w: World, i: ImageId, stage: Stage, next: Next) {
    match next
    case Goes(phase) => Running(phase) && PhaseOk(c, srcs, w, i, stage, phase)
    case Ends(ending) =>
      (match ending
       case HandedOff => true
       case Completes => i in w.images ==> w.images[i].status.COMPLETED?
       case Refuses => i in w.images ==> w.images[i].status.REJECTED?
       case Drops => i !in w.images)
    case Throws => true
  }

  ghost predicate OutcomeOk(c: Codec, srcs: Sources, born: set<ImageId>, w: World, i: ImageId, stage: Stage,
                            o: Outcome) {
    && WorldOk(c, srcs, o.world) && Grows(born, w, o.world)
    && OthersSame(i, w, o.world) && (i in o.world.images ==> i in w.images)
    && StageReady(o.world, i, stage)
    && NextOk(c, srcs, o.world, i, stage, o.next)
    && (o.next == Ends(HandedOff) ==> o.enqueued.Some?)
    && (o.enqueued.Some? ==>
          && (o.next == Ends(HandedOff) || o.next.Throws?)
          && Rank(o.enqueued.value) == Rank(stage) + 1 && StageReady(o.world, i, o.enqueued.value))
    && (o.orphans != [] ==> o.next.Throws?)
    && (forall k :: 0 <= k < |o.orphans| ==> o.orphans[k].Straggler? && ProcOk(c, srcs, born, o.world, o.orphans[k]))
  }

  lemma BeginOk(c: Codec, srcs: Sources, born: set<ImageId>, w: World, i: ImageId, stage: Stage)
    requires WorldOk(c, srcs, w) && StageReady(w, i, stage)
    ensures NextOk(c, srcs, w, i, stage, Begin(w, i, stage))
    ensures !Begin(w, i, stage).Throws?
  {
    if i in w.images {
      assert RowOk(c, srcs, w, i);
    }
  }

  // Each write of the repository or the store, seen from the job that performs it.

  ghost predicate EffectOk(c: Codec, srcs: Sources, born: set<ImageId>, w: World, i: ImageId, stage: Stage, w': World) {
    && WorldOk(c, srcs, w') && Grows(born, w, w')
    && OthersSame(i, w, w') && (i in w'.images ==> i in w.images)
    && StageReady(w', i, stage)
  }

  lemma WriteOutcome(c: Codec, srcs: Sources, born: set<ImageId>, w: World, i: ImageId, stage: Stage,
                     effect: Option<World>, out: Await, next: Next)
    requires WorldOk(c, srcs, w) && StageReady(w, i, stage)
    requires effect.Some? ==> EffectOk(c, srcs, born, w, i, stage, effect.value)
    requires effect.Some? ==> NextOk(c, srcs, effect.value, i, stage, next) && next != Ends(HandedOff)
    ensures OutcomeOk(c, srcs, born, w, i, stage, Write(w, effect, out, next))
  {
    GrowsRefl(born, w);
  }

  lemma ReadOutcome(c: Codec, srcs: Sources, born: set<ImageId>, w: World, i: ImageId, stage: Stage, out: Await,
                    next: Next)
    requires WorldOk(c, srcs, w) && StageReady(w, i, stage)
    requires NextOk(c, srcs, w, i, stage, next) && next != Ends(HandedOff)
    ensures OutcomeOk(c, srcs, born, w, i, stage, Read(w, out, next))
    ensures OutcomeOk(c, srcs, born, w, i, stage, Yields(w, Throws))
  {
    GrowsRefl(born, w);
  }

  lemma HandOffOutcome(c: Codec, srcs: Sources, born: set<ImageId>, w: World, i: ImageId, stage: Stage, out: Await,
                       to: Stage)
    requires WorldOk(c, srcs, w) && StageReady(w, i, stage)
    requires Rank(to) == Rank(stage) + 1 && StageReady(w, i, to)
    ensures OutcomeOk(c, srcs, born, w, i, stage, HandOff(w, out, to))
  {
    GrowsRefl(born, w);
  }

  lemma StartedOk(c: Codec, srcs: Sources, born: set<ImageId>, w: World, i: ImageId, stage: Stage)
    requires WorldOk(c, srcs, w) && i in w.images && StageReady(w, i, stage)
    ensures EffectOk(c, srcs, born, w, i, stage, Started(w, i).value)
  {
    assert RowOk(c, srcs, w, i);
    RowWrite(c, srcs, born, w, i, w.images[i].(status := PROCESSING));
  }

  lemma RefusedOk(c: Codec, srcs: Sources, born: set<ImageId>, w: World, i: ImageId, stage: Stage, reasons: Reasons)
    requires WorldOk(c, srcs, w) && i in w.images && StageReady(w, i, stage)
    ensures EffectOk(c, srcs, born, w, i, stage, Refused(w, i, REJECTED, reasons).value)
  {
    assert RowOk(c, srcs, w, i);
    RowWrite(c, srcs, born, w, i, w.images[i].(status := REJECTED, rejectionReasons := Some(reasons)));
  }

  lemma AcceptedOk(c: Codec, srcs: Sources, born: set<ImageId>, w: World, i: ImageId, stage: Stage,
                   measures: Measures, display: Option<Key>)
    requires WorldOk(c, srcs, w) && i in w.images && StageReady(w, i, stage)
    requires display.Some? ==> i in srcs && display.value == Key(srcs[i].userId, i, Display(srcs[i].ext))
    ensures EffectOk(c, srcs, born, w, i, stage, Accepted(w, i, measures, display).value)
  {
    assert RowOk(c, srcs, w, i);
    RowWrite(c, srcs, born, w, i, AcceptedRow(w.images[i], measures, display));
  }

  lemma StatusSetOk(c: Codec, srcs: Sources, born: set<ImageId>, w: World, i: ImageId, stage: Stage, status: Status)
    requires WorldOk(c, srcs, w) && i in w.images && StageReady(w, i, stage)
    requires status.COMPLETED? ==> HasAllVariants(w, i)
    requires InStage(status) || status.COMPLETED?
    ensures var w' := StatusSet(w, i, status).value;
            EffectOk(c, srcs, born, w, i, stage, w') && w'.images[i].status == status && w'.objects == w.objects
  {
    assert RowOk(c, srcs, w, i);
    RowWrite(c, srcs, born, w, i, w.images[i].(status := status, processingError := None));
  }

  lemma NormalizedSetOk(c: Codec, srcs: Sources, born: set<ImageId>, w: World, i: ImageId, stage: Stage, key: Key)
    requires WorldOk(c, srcs, w) && i in w.images && StageReady(w, i, stage)
    requires i in srcs && key == Key(srcs[i].userId, i, Normalized) && key in w.objects
    ensures var w' := NormalizedSet(w, i, key).value;
            EffectOk(c, srcs, born, w, i, stage, w') && StageReady(w', i, Compress)
  {
    assert RowOk(c, srcs, w, i);
    RowWrite(c, srcs, born, w, i, w.images[i].(normalizedKey := Some(key)));
  }

  lemma CompressedSetOk(c: Codec, srcs: Sources, born: set<ImageId>, w: World, i: ImageId, stage: Stage, key: Key,
                        z: Compression)
    requires WorldOk(c, srcs, w) && i in w.images && StageReady(w, i, stage) && w.images[i].normalizedKey.Some?
    requires i in srcs && key == Key(srcs[i].userId, i, Compressed) && key in w.objects &&
             z == CompressionOf(c, srcs[i])
    ensures var w' := CompressedSet(w, i, key, z).value;
            EffectOk(c, srcs, born, w, i, stage, w') && StageReady(w', i, Variants)
  {
    assert RowOk(c, srcs, w, i);
    RowWrite(c, srcs, born, w, i, w.images[i].(compressedKey := Some(key), compression := Some(z)));
  }

  lemma PutOk(c: Codec, srcs: Sources, born: set<ImageId>, w: World, i: ImageId, stage: Stage, key: Key, body: Blob)
    requires WorldOk(c, srcs, w) && StageReady(w, i, stage) && ObjectOk(c, srcs, key, body)
    ensures EffectOk(c, srcs, born, w, i, stage, Put(w, key, body)) && key in Put(w, key, body).objects
  {
    PutWrite(c, srcs, born, w, key, body);
  }

  // The same, for the await that performs the write: the effect, or its rejection before or after.

  lemma StartOutcome(c: Codec, srcs: Sources, born: set<ImageId>, w: World, i: ImageId, row: Row, out: Await)
    requires WorldOk(c, srcs, w) && Snapshot(srcs, i, row)
    ensures OutcomeOk(c, srcs, born, w, i, Validate, Write(w, Started(w, i), out, GoV(VGet(row))))
  {
    if i in w.images { StartedOk(c, srcs, born, w, i, Validate); }
    WriteOutcome(c, srcs, born, w, i, Validate, Started(w, i), out, GoV(VGet(row)));
  }

  lemma RefuseOutcome(c: Codec, srcs: Sources, born: set<ImageId>, w: World, i: ImageId, reasons: Reasons, out: Await)
    requires WorldOk(c, srcs, w)
    ensures OutcomeOk(c, srcs, born, w, i, Validate, Write(w, Refused(w, i, REJECTED, reasons), out, Ends(Refuses)))
  {
    if i in w.images { RefusedOk(c, srcs, born, w, i, Validate, reasons); }
    WriteOutcome(c, srcs, born, w, i, Validate, Refused(w, i, REJECTED, reasons), out, Ends(Refuses));
  }

  lemma StatusOutcome(c: Codec, srcs: Sources, born: set<ImageId>, w: World, i: ImageId, stage: Stage,
                      status: Status, out: Await, next: Next)
    requires WorldOk(c, srcs, w) && StageReady(w, i, stage)
    requires i in w.images && status.COMPLETED? ==> HasAllVariants(w, i)
    requires InStage(status) || status.COMPLETED?
    requires i in w.images ==> NextOk(c, srcs, StatusSet(w, i, status).value, i, stage, next) && next != Ends(HandedOff)
    ensures OutcomeOk(c, srcs, born, w, i, stage, Write(w, StatusSet(w, i, status), out, next))
  {
    if i in w.images { StatusSetOk(c, srcs, born, w, i, stage, status); }
    WriteOutcome(c, srcs, born, w, i, stage, StatusSet(w, i, status), out, next);
  }

  lemma AcceptedOutcome(c: Codec, srcs: Sources, born: set<ImageId>, w: World, i: ImageId,
                        measures: Measures, display: Option<Key>, out: Await)
    requires WorldOk(c, srcs, w) && i in srcs
    requires display.Some? ==> display.value == Key(srcs[i].userId, i, Display(srcs[i].ext))
    ensures OutcomeOk(c, srcs, born, w, i, Validate, Write(w, Accepted(w, i, measures, display), out, GoV(VHandOff)))
  {
    if i in w.images { AcceptedOk(c, srcs, born, w, i, Validate, measures, display); }
    WriteOutcome(c, srcs, born, w, i, Validate, Accepted(w, i, measures, display), out, GoV(VHandOff));
  }

  lemma NormalizedOutcome(c: Codec, srcs: Sources, born: set<ImageId>, w: World, i: ImageId, key: Key, out: Await)
    requires WorldOk(c, srcs, w) && i in srcs && key == Key(srcs[i].userId, i, Normalized) && key in w.objects
    ensures OutcomeOk(c, srcs, born, w, i, Convert, Write(w, NormalizedSet(w, i, key), out, GoC(CHandOff)))
  {
    if i in w.images { NormalizedSetOk(c, srcs, born, w, i, Convert, key); }
    WriteOutcome(c, srcs, born, w, i, Convert, NormalizedSet(w, i, key), out, GoC(CHandOff));
  }

  lemma CompressedOutcome(c: Codec, srcs: Sources, born: set<ImageId>, w: World, i: ImageId, key: Key, z: Compression,
                          out: Await)
    requires WorldOk(c, srcs, w) && i in srcs && key == Key(srcs[i].userId, i, Compressed) && key in w.objects
    requires StageReady(w, i, Compress) && z == CompressionOf(c, srcs[i])
    ensures OutcomeOk(c, srcs, born, w, i, Compress, Write(w, CompressedSet(w, i, key, z), out, GoK(KHandOff)))
  {
    if i in w.images { CompressedSetOk(c, srcs, born, w, i, Compress, key, z); }
    WriteOutcome(c, srcs, born, w, i, Compress, CompressedSet(w, i, key, z), out, GoK(KHandOff));
  }

  lemma PutOutcome(c: Codec, srcs: Sources, born: set<ImageId>, w: World, i: ImageId, stage: Stage,
                   key: Key, body: Blob, out: Await, next: Next)
    requires WorldOk(c, srcs, w) && StageReady(w, i, stage) && ObjectOk(c, srcs, key, body)
    requires NextOk(c, srcs, Put(w, key, body), i, stage, next) && next != Ends(HandedOff)
    ensures OutcomeOk(c, srcs, born, w, i, stage, Write(w, Some(Put(w, key, body)), out, next))
  {
    PutOk(c, srcs, born, w, i, stage, key, body);
    WriteOutcome(c, srcs, born, w, i, stage, Some(Put(w, key, body)), out, next);
  }

  lemma FetchOutcome(c: Codec, srcs: Sources, born: set<ImageId>, w: World, i: ImageId, stage: Stage,
                     key: Key, out: Await, next: Blob -> Next)
    requires WorldOk(c, srcs, w) && StageReady(w, i, stage)
    requires i in srcs && KeyFits(srcs[i], key) && key.imageId == i
    requires var body := Content(c, srcs[i], key.kind);
             NextOk(c, srcs, w, i, stage, next(body)) && next(body) != Ends(HandedOff)
    ensures OutcomeOk(c, srcs, born, w, i, stage, Fetch(w, key, out, next))
  {
    if key in w.objects {
      assert ObjectOk(c, srcs, key, w.objects[key]);
      ReadOutcome(c, srcs, born, w, i, stage, out, next(w.objects[key]));
    } else {
      ReadOutcome(c, srcs, born, w, i, stage, out, Throws);
    }
  }

  lemma ValidateOk(c: Codec, srcs: Sources, born: set<ImageId>, w: World, i: ImageId, phase: ValidatePhase, ch: Choice)
    requires WorldOk(c, srcs, w) && i in born && ValidatePhaseOk(c, srcs, i, phase)
    ensures OutcomeOk(c, srcs, born, w, i, Validate, ValidateAwait(c, w, i, phase, ch))
  {
    match phase {
      case VMark(row) =>
        StartOutcome(c, srcs, born, w, i, row, ch.outcome);
      case VGet(row) =>
        FetchOutcome(c, srcs, born, w, i, Validate, row.original, ch.outcome, body => GoV(VCheck(row, body)));
      case VCheck(row, body) =>
        var next := match ch.verdict
          case Refuse(reasons) => GoV(VReject(reasons))
          case Admit(measures, heic) =>
            if heic then GoV(VDisplay(row, (c.heicToJpeg)(body), measures)) else GoV(VAccept(measures, None));
        ReadOutcome(c, srcs, born, w, i, Validate, ch.outcome, next);
      case VReject(reasons) =>
        RefuseOutcome(c, srcs, born, w, i, reasons, ch.outcome);
      case VDisplay(row, body, measures) =>
        var key := DisplayOf(row.original);
        PutOutcome(c, srcs, born, w, i, Validate, key, body, ch.outcome, GoV(VAccept(measures, Some(key))));
      case VAccept(measures, display) =>
        AcceptedOutcome(c, srcs, born, w, i, measures, display, ch.outcome);
      case VHandOff =>
        HandOffOutcome(c, srcs, born, w, i, Validate, ch.outcome, Convert);
    }
  }

  lemma ConvertOk(c: Codec, srcs: Sources, born: set<ImageId>, w: World, i: ImageId, phase: ConvertPhase, ch: Choice)
    requires WorldOk(c, srcs, w) && i in born && ConvertPhaseOk(c, srcs, w, i, phase)
    ensures OutcomeOk(c, srcs, born, w, i, Convert, ConvertAwait(c, w, i, phase, ch))
  {
    match phase {
      case CStatus(row) =>
        StatusOutcome(c, srcs, born, w, i, Convert, PROCESSING_CONVERT, ch.outcome, GoC(CGet(row)));
      case CGet(row) =>
        FetchOutcome(c, srcs, born, w, i, Convert, row.original, ch.outcome, body => GoC(CNormalize(row, body)));
      case CNormalize(row, body) =>
        ReadOutcome(c, srcs, born, w, i, Convert, ch.outcome, GoC(CPut(row, (c.normalize)(body, row.mimeType))));
      case CPut(row, out) =>
        var key := Key(row.userId, i, Normalized);
        PutOutcome(c, srcs, born, w, i, Convert, key, out.buffer, ch.outcome, GoC(CSetRow(row)));
      case CSetRow(row) =>
        var key := Key(row.userId, i, Normalized);
        NormalizedOutcome(c, srcs, born, w, i, key, ch.outcome);
      case CHandOff =>
        HandOffOutcome(c, srcs, born, w, i, Convert, ch.outcome, Compress);
    }
  }

  lemma CompressOk(c: Codec, srcs: Sources, born: set<ImageId>, w: World, i: ImageId, phase: CompressPhase, ch: Choice)
    requires WorldOk(c, srcs, w) && i in born && CompressPhaseOk(c, srcs, w, i, phase) && StageReady(w, i, Compress)
    ensures OutcomeOk(c, srcs, born, w, i, Compress, CompressAwait(c, w, i, phase, ch))
  {
    match phase {
      case KStatus(row) =>
        StatusOutcome(c, srcs, born, w, i, Compress, PROCESSING_COMPRESS, ch.outcome, GoK(KGet(row)));
      case KGet(row) =>
        FetchOutcome(c, srcs, born, w, i, Compress, row.normalizedKey.value, ch.outcome,
          body => GoK(KCompress(row, body)));
      case KCompress(row, body) =>
        ReadOutcome(c, srcs, born, w, i, Compress, ch.outcome, GoK(KPut(row, |body|, (c.compress)(body))));
      case KPut(row, normalBytes, out) =>
        var key := Key(row.userId, i, Compressed);
        PutOutcome(c, srcs, born, w, i, Compress, key, out.buffer, ch.outcome,
          GoK(KSetRow(row, normalBytes, |out.buffer|)));
      case KSetRow(row, normalBytes, size) =>
        var key, z := Key(row.userId, i, Compressed), Compression(size, StoredRatio(size, normalBytes));
        CompressedOutcome(c, srcs, born, w, i, key, z, ch.outcome);
      case KHandOff =>
        HandOffOutcome(c, srcs, born, w, i, Compress, ch.outcome, Variants);
    }
  }

  lemma TaskAwaitOk(c: Codec, srcs: Sources, born: set<ImageId>, w: World, i: ImageId, t: VariantType, task: Task,
                    out: Await)
    requires WorldOk(c, srcs, w) && i in born && TaskOk(c, srcs, w, i, t, task)
    ensures var (w', task') := TaskAwait(c, w, i, srcs[i].userId, t, task, out);
            && WorldOk(c, srcs, w') && Grows(born, w, w') && w'.images == w.images
            && (task'.Some? ==> TaskOk(c, srcs, w', i, t, task'.value))
  {
    GrowsRefl(born, w);
    var key := Key(srcs[i].userId, i, Variant(t));
    match task {
      case Putting(p) =>
        PutWrite(c, srcs, born, w, key, p.buffer);
      case Upserting(p) =>
        if i in w.images {
          var v := VariantRow(i, t, key, p.width, p.height, |p.buffer|);
          assert v == VariantOf(c, srcs[i], i, t);
          UpsertWrite(c, srcs, born, w, v);
        }
      case _ =>
    }
  }

  lemma OrphanOk(c: Codec, srcs: Sources, born: set<ImageId>, w: World, i: ImageId, fan: VariantsPhase,
                 failed: VariantType, t: VariantType)
    requires i in born && fan.XFan? && VariantsPhaseOk(c, srcs, w, i, fan)
    ensures forall k :: 0 <= k < |Orphan(i, fan, failed, t)| ==>
              Orphan(i, fan, failed, t)[k].Straggler? && ProcOk(c, srcs, born, w, Orphan(i, fan, failed, t)[k])
  {
  }

  lemma FanStays(c: Codec, srcs: Sources, w: World, i: ImageId, fan: VariantsPhase, t: VariantType, task: Task)
    requires fan.XFan? && VariantsPhaseOk(c, srcs, w, i, fan) && TaskOk(c, srcs, w, i, t, task)
    ensures var fan' := WithTask(fan, t, task);
            if fan'.thumb.Settled? && fan'.web.Settled? && fan'.full.Settled?
            then VariantsPhaseOk(c, srcs, w, i, XComplete)
            else VariantsPhaseOk(c, srcs, w, i, fan')
  {
  }

  lemma FanOk(c: Codec, srcs: Sources, born: set<ImageId>, w: World, i: ImageId, fan: VariantsPhase, ch: Choice)
    requires WorldOk(c, srcs, w) && i in born && fan.XFan? && VariantsPhaseOk(c, srcs, w, i, fan)
    requires StageReady(w, i, Variants)
    ensures OutcomeOk(c, srcs, born, w, i, Variants, FanAwait(c, w, i, fan, ch))
  {
    var t := ch.vtype;
    TaskAwaitOk(c, srcs, born, w, i, t, TaskOf(fan, t), ch.outcome);
    var (w', task) := TaskAwait(c, w, i, fan.row.userId, t, TaskOf(fan, t), ch.outcome);
    VariantsPhaseStays(c, srcs, born, w, w', i, fan);
    assert EffectOk(c, srcs, born, w, i, Variants, w');
    if task.None? {
      OrphanOk(c, srcs, born, w', i, fan, t, THUMBNAIL);
      OrphanOk(c, srcs, born, w', i, fan, t, WEB);
      OrphanOk(c, srcs, born, w', i, fan, t, FULL);
    } else {
      FanStays(c, srcs, w', i, fan, t, task.value);
    }
  }

  lemma VariantsOk(c: Codec, srcs: Sources, born: set<ImageId>, w: World, i: ImageId, phase: VariantsPhase, ch: Choice)
    requires WorldOk(c, srcs, w) && i in born && VariantsPhaseOk(c, srcs, w, i, phase) && StageReady(w, i, Variants)
    ensures OutcomeOk(c, srcs, born, w, i, Variants, VariantsAwait(c, w, i, phase, ch))
  {
    match phase {
      case XStatus(row, key) =>
        StatusOutcome(c, srcs, born, w, i, Variants, PROCESSING_VARIANTS, ch.outcome, GoX(XGet(row, key)));
      case XGet(row, key) =>
        FetchOutcome(c, srcs, born, w, i, Variants, key, ch.outcome,
          body => GoX(XFan(row, Resizing(body), Resizing(body), Resizing(body))));
      case XFan(_, _, _, _) =>
        FanOk(c, srcs, born, w, i, phase, ch);
      case XComplete =>
        StatusOutcome(c, srcs, born, w, i, Variants, COMPLETED, ch.outcome, Ends(Completes));
    }
  }

  lemma JobAwaitOk(c: Codec, srcs: Sources, born: set<ImageId>, w: World, job: Job, ch: Choice)
    requires WorldOk(c, srcs, w) && JobOk(c, srcs, born, w, job) && !job.phase.Failing?
    ensures OutcomeOk(c, srcs, born, w, job.imageId, job.stage, JobAwait(c, w, job, ch))
  {
    match job.phase {
      case Queued =>
        GrowsRefl(born, w);
        BeginOk(c, srcs, born, w, job.imageId, job.stage);
      case Validating(v) => ValidateOk(c, srcs, born, w, job.imageId, v, ch);
      case Converting(n) => ConvertOk(c, srcs, born, w, job.imageId, n, ch);
      case Compressing(k) => CompressOk(c, srcs, born, w, job.imageId, k, ch);
      case Sizing(x) => VariantsOk(c, srcs, born, w, job.imageId, x, ch);
    }
  }
}
