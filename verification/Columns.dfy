/**
 * The image row as the record of what the awaits of a run wrote: which await writes which column, and that a
 * live row shows in each column what the last await to write it wrote.
 */
module Columns {
  import opened Wrappers
  import opened Keys
  import opened Rounding
  import opened Tables
  import opened Machine
  import opened JobInvariant
  import opened PipelineInvariant
  import opened Guarantees
  import opened Tracking
  import opened Attempts

  // ---- Which await writes what -----------------------------------------------------------------------------

  /** What one await writes; None: it leaves the column alone. */
  datatype Change = Change(
    status: Option<Status>,
    error: Option<Option<string>>,
    reasons: Option<Option<seq<RejectionReason>>>,
    measures: Option<Option<Measures>>,
    display: Option<Option<Key>>,
    normalizedKey: Option<Option<Key>>,
    compressedKey: Option<Option<Key>>,
    compression: Option<Option<Compression>>)

  const NOTHING: Change := Change(None, None, None, None, None, None, None, None)

  /** A status write of the pipeline also clears the error of an earlier failure. */
  function Entering(status: Status): Change {
    NOTHING.(status := Some(status), error := Some(None))
  }

  function ValidateChange(phase: ValidatePhase): Change {
    match phase
    case VMark(_) => NOTHING.(status := Some(PROCESSING))
    case VReject(reasons) => NOTHING.(status := Some(REJECTED), reasons := Some(Some(reasons)))
    case VAccept(measures, display) =>
      NOTHING.(status := Some(ACCEPTED), reasons := Some(None), measures := Some(Some(measures)),
               display := if display.Some? then Some(display) else None)
    case _ => NOTHING
  }

  function ConvertChange(i: ImageId, phase: ConvertPhase): Change {
    match phase
    case CStatus(_) => Entering(PROCESSING_CONVERT)
    case CSetRow(row) => NOTHING.(normalizedKey := Some(Some(Key(row.userId, i, Normalized))))
    case _ => NOTHING
  }

  function CompressChange(i: ImageId, phase: CompressPhase): Change {
    match phase
    case KStatus(_) => Entering(PROCESSING_COMPRESS)
    case KSetRow(row, before, after) =>
      NOTHING.(compressedKey := Some(Some(Key(row.userId, i, Compressed))),
               compression := Some(Some(Compression(after, StoredRatio(after, before)))))
    case _ => NOTHING
  }

  function VariantsChange(phase: VariantsPhase): Change {
    match phase
    case XStatus(_, _) => Entering(PROCESSING_VARIANTS)
    case XComplete => Entering(COMPLETED)
    case _ => NOTHING
  }

  /** The failure handler of the stage that gave up. */
  function FailureChange(stage: Stage, message: string): Change {
    match stage
    case Validate =>
      NOTHING.(status := Some(FAILED), reasons := Some(Some([RejectionReason("INTERNAL_ERROR", message)])))
    case Convert => NOTHING.(status := Some(FAILED), error := Some(Some("[convert] " + message)))
    case Compress => NOTHING.(status := Some(FAILED), error := Some(Some("[compress] " + message)))
    case Variants => NOTHING.(status := Some(FAILED), error := Some(Some("[variants] " + message)))
  }

  function JobChange(job: Job, message: string): Change {
    match job.phase
    case Queued => NOTHING
    case Validating(v) => ValidateChange(v)
    case Converting(n) => ConvertChange(job.imageId, n)
    case Compressing(k) => CompressChange(job.imageId, k)
    case Sizing(x) => VariantsChange(x)
    case Failing => FailureChange(job.stage, message)
  }

  function ChangeOf(p: Proc, ch: Choice): Change {
    match p
    case Worker(job) => JobChange(job, ch.message)
    case Creating(_, entry, InsertRow) =>
      Change(Some(if entry.Validate? then PENDING else ACCEPTED), Some(None), Some(None), Some(None), Some(None),
             Some(None), Some(None), Some(None))
    case Reprocessing(_, MarkConvert) => Entering(PROCESSING_CONVERT)
    case _ => NOTHING
  }

  function Or<V>(written: Option<V>, before: V): V {
    if written.Some? then written.value else before
  }

  function Applied(row: Row, change: Change): Row {
    row.(status := Or(change.status, row.status),
         processingError := Or(change.error, row.processingError),
         rejectionReasons := Or(change.reasons, row.rejectionReasons),
         measures := Or(change.measures, row.measures),
         display := Or(change.display, row.display),
         normalizedKey := Or(change.normalizedKey, row.normalizedKey),
         compressedKey := Or(change.compressedKey, row.compressedKey),
         compression := Or(change.compression, row.compression))
  }

  predicate Inserts(p: Proc) {
    p.Creating? && p.create.InsertRow?
  }

  /** The step is an await about image i that takes effect: it inserts the row, or finds it. */
  predicate ActsOn(s: State, a: Action, i: ImageId) {
    && a.Resume? && Enabled(s, a) && ImageOf(s.procs[a.pid]) == i && !a.choice.outcome.Rejected?
    && (Inserts(s.procs[a.pid]) <==> i !in s.w.images)
  }

  predicate DeletesRow(s: State, a: Action, i: ImageId) {
    ActsOn(s, a, i) && s.procs[a.pid] == Removing(i, DeleteRow)
  }

  // ---- One step --------------------------------------------------------------------------------------------

  /** How the row of image i follows from a process's await. */
  predicate RowFollows(w: World, p: Proc, ch: Choice, w': World, i: ImageId) {
    var acts := !ch.outcome.Rejected? && (Inserts(p) <==> i !in w.images);
    && (i in w'.images <==>
          if acts then p != Removing(i, DeleteRow) else i in w.images)
    && (i in w'.images ==>
          w'.images[i] == if acts then Applied(if i in w.images then w.images[i] else w'.images[i], ChangeOf(p, ch))
                          else w.images[i])
  }

  predicate AwaitFollows(w: World, job: Job, ch: Choice, w': World) {
    var i := job.imageId;
    if i in w.images then
      i in w'.images && w'.images[i] == if ch.outcome.Rejected? then w.images[i]
                                        else Applied(w.images[i], JobChange(job, ch.message))
    else i !in w'.images
  }

  lemma {:induction false} ValidateFollows(c: Codec, w: World, job: Job, ch: Choice)
    requires job.phase.Validating?
    ensures AwaitFollows(w, job, ch, ValidateAwait(c, w, job.imageId, job.phase.v, ch).world)
  {
  }

  lemma {:induction false} ConvertFollows(c: Codec, w: World, job: Job, ch: Choice)
    requires job.phase.Converting?
    ensures AwaitFollows(w, job, ch, ConvertAwait(c, w, job.imageId, job.phase.n, ch).world)
  {
  }

  lemma {:induction false} CompressFollows(c: Codec, w: World, job: Job, ch: Choice)
    requires job.phase.Compressing?
    ensures AwaitFollows(w, job, ch, CompressAwait(c, w, job.imageId, job.phase.k, ch).world)
  {
  }

  lemma {:induction false} TaskFollows(c: Codec, w: World, i: ImageId, userId: string, t: VariantType, task: Task,
                                       out: Await)
    ensures TaskAwait(c, w, i, userId, t, task, out).0.images == w.images
  {
  }

  lemma {:induction false} VariantsFollows(c: Codec, w: World, job: Job, ch: Choice)
    requires job.phase.Sizing?
    ensures AwaitFollows(w, job, ch, VariantsAwait(c, w, job.imageId, job.phase.x, ch).world)
  {
    var x := job.phase.x;
    if x.XFan? {
      TaskFollows(c, w, job.imageId, x.row.userId, ch.vtype, TaskOf(x, ch.vtype), ch.outcome);
    }
  }

  lemma {:induction false} HandlerFollows(s: State, job: Job, ch: Choice)
    requires job.phase.Failing?
    ensures AwaitFollows(s.w, job, ch, HandlerTurn(s, job, ch).world)
  {
    assert "[" + "convert" + "] " == "[convert] ";
    assert "[" + "compress" + "] " == "[compress] ";
    assert "[" + "variants" + "] " == "[variants] ";
  }

  lemma {:induction false} JobFollows(c: Codec, s: State, job: Job, ch: Choice)
    ensures AwaitFollows(s.w, job, ch, ProcTurn(c, s, Worker(job), ch).world)
  {
    match job.phase {
      case Failing => HandlerFollows(s, job, ch);
      case Validating(v) => ValidateFollows(c, s.w, job, ch);
      case Converting(n) => ConvertFollows(c, s.w, job, ch);
      case Compressing(k) => CompressFollows(c, s.w, job, ch);
      case Sizing(x) => VariantsFollows(c, s.w, job, ch);
      case Queued =>
    }
  }

  lemma {:induction false} CreateFollows(s: State, p: Proc, ch: Choice)
    requires p.Creating? && p.imageId in s.srcs && (p.imageId in s.w.images ==> p.create.EnqueueEntry?)
    ensures RowFollows(s.w, p, ch, CreateTurn(s, p, ch).world, p.imageId)
  {
  }

  lemma {:induction false} ReprocessFollows(s: State, p: Proc, ch: Choice)
    requires p.Reprocessing?
    ensures RowFollows(s.w, p, ch, ReprocessTurn(s, p, ch).world, p.imageId)
  {
  }

  lemma {:induction false} RemoveFollows(s: State, p: Proc, ch: Choice)
    requires p.Removing?
    ensures RowFollows(s.w, p, ch, RemoveTurn(s, p, ch).world, p.imageId)
  {
  }

  lemma {:induction false} TurnFollows(c: Codec, s: State, p: Proc, ch: Choice)
    requires TablesOk(c, s) && ProcOk(c, s.srcs, s.born, s.w, p)
    ensures RowFollows(s.w, p, ch, ProcTurn(c, s, p, ch).world, ImageOf(p))
  {
    match p {
      case Worker(job) => JobFollows(c, s, job, ch);
      case Straggler(i, userId, t, task) => TaskFollows(c, s.w, i, userId, t, task, ch.outcome);
      case Creating(_, _, _) => CreateFollows(s, p, ch);
      case Reprocessing(_, _) => ReprocessFollows(s, p, ch);
      case Removing(_, _) => RemoveFollows(s, p, ch);
    }
  }

  /** One step and one row: the row comes with the insert and goes with the delete, and in between each
      column changes exactly as the await that takes effect writes it. */
  lemma {:induction false} RowAfterStep(c: Codec, s: State, a: Action, i: ImageId)
    requires Inv(c, s)
    ensures var s' := Step(c, s, a);
            && (i in s'.w.images <==> if ActsOn(s, a, i) then !DeletesRow(s, a, i) else i in s.w.images)
            && (i in s'.w.images ==>
                  s'.w.images[i] ==
                    if ActsOn(s, a, i)
                    then Applied(if i in s.w.images then s.w.images[i] else s'.w.images[i],
                                 ChangeOf(s.procs[a.pid], a.choice))
                    else s.w.images[i])
  {
    if a.Resume? && Enabled(s, a) {
      var p := s.procs[a.pid];
      assert ProcOk(c, s.srcs, s.born, s.w, p);
      if ImageOf(p) == i { TurnFollows(c, s, p, a.choice); } else { TurnLeavesAlone(c, s, p, a.choice, i); }
    }
  }

  // ---- Whole runs ------------------------------------------------------------------------------------------

  /** A column of the row, and where a change has its new value. */
  datatype Column<!V> = Column(get: Row -> V, written: Change -> Option<V>)

  ghost predicate IsColumn<V>(col: Column<V>) {
    && (forall row, change :: (col.get)(Applied(row, change)) == Or((col.written)(change), (col.get)(row)))
    && (forall p, ch :: Inserts(p) ==> (col.written)(ChangeOf(p, ch)).Some?)
  }

  /** Step k takes effect on image i and writes the column. */
  ghost predicate WritesAt<V>(c: Codec, acts: seq<Action>, k: nat, i: ImageId, col: Column<V>) {
    && k < |acts| && ActsOn(Reached(c, acts[..k]), acts[k], i)
    && (col.written)(ChangeAt(c, acts, k)).Some?
  }

  function ProcAt(c: Codec, acts: seq<Action>, k: nat): Option<Proc> {
    if k < |acts| && acts[k].Resume? && acts[k].pid in Reached(c, acts[..k]).procs
    then Some(Reached(c, acts[..k]).procs[acts[k].pid]) else None
  }

  function ChangeAt(c: Codec, acts: seq<Action>, k: nat): Change {
    var p := ProcAt(c, acts, k);
    if p.Some? then ChangeOf(p.value, acts[k].choice) else NOTHING
  }

  /** And no later step does. */
  ghost predicate LastWrite<V>(c: Codec, acts: seq<Action>, k: nat, i: ImageId, col: Column<V>) {
    WritesAt(c, acts, k, i, col) && forall m :: k < m < |acts| ==> !WritesAt(c, acts, m, i, col)
  }

  lemma {:induction false} WritesBefore<V>(c: Codec, acts: seq<Action>, k: nat, i: ImageId, col: Column<V>)
    requires k < |acts| - 1
    ensures WritesAt(c, acts, k, i, col) <==> WritesAt(c, acts[..|acts| - 1], k, i, col)
    ensures ChangeAt(c, acts, k) == ChangeAt(c, acts[..|acts| - 1], k)
  {
    assert acts[..|acts| - 1][..k] == acts[..k];
  }

  lemma {:induction false} LastWriteStays<V>(c: Codec, acts: seq<Action>, k: nat, i: ImageId, col: Column<V>)
    requires acts != [] && LastWrite(c, acts[..|acts| - 1], k, i, col) && !WritesAt(c, acts, |acts| - 1, i, col)
    ensures LastWrite(c, acts, k, i, col) && ChangeAt(c, acts, k) == ChangeAt(c, acts[..|acts| - 1], k)
  {
    WritesBefore(c, acts, k, i, col);
    forall m | k < m < |acts| ensures !WritesAt(c, acts, m, i, col) {
      if m < |acts| - 1 { WritesBefore(c, acts, m, i, col); }
    }
  }

  /** Every column of a live row shows what the last await that wrote it wrote. */
  lemma {:induction false} ColumnIsLastWrite<V>(c: Codec, acts: seq<Action>, i: ImageId, col: Column<V>)
    returns (k: nat)
    requires IsColumn(col) && i in Reached(c, acts).w.images
    ensures LastWrite(c, acts, k, i, col)
    ensures (col.written)(ChangeAt(c, acts, k)) == Some((col.get)(Reached(c, acts).w.images[i]))
  {
    var n := |acts| - 1;
    var before, a := acts[..n], acts[n];
    var s := Reached(c, before);
    RunKeepsInv(c, before);
    RowAfterStep(c, s, a, i);
    if WritesAt(c, acts, n, i, col) {
      k := n;
    } else {
      assert i in s.w.images;
      k := ColumnIsLastWrite(c, before, i, col);
      LastWriteStays(c, acts, k, i, col);
    }
  }

  // ---- Status ----------------------------------------------------------------------------------------------

  function StatusColumn(): Column<Status> {
    Column((row: Row) => row.status, (change: Change) => change.status)
  }

  predicate AtPhase(p: Proc, phase: Phase) {
    p.Worker? && p.job.phase == phase
  }

  /** The process whose await writes this status, and only this one. */
  predicate Earns(p: Proc, status: Status) {
    match status
    case PENDING => Inserts(p) && p.entry.Validate?
    case PROCESSING => p.Worker? && p.job.phase.Validating? && p.job.phase.v.VMark?
    case ACCEPTED => (Inserts(p) && !p.entry.Validate?) ||
                     (p.Worker? && p.job.phase.Validating? && p.job.phase.v.VAccept?)
    case REJECTED => p.Worker? && p.job.phase.Validating? && p.job.phase.v.VReject?
    case PROCESSING_CONVERT =>
      (p.Worker? && p.job.phase.Converting? && p.job.phase.n.CStatus?) || (p.Reprocessing? && p.reprocess.MarkConvert?)
    case PROCESSING_COMPRESS => p.Worker? && p.job.phase.Compressing? && p.job.phase.k.KStatus?
    case PROCESSING_VARIANTS => p.Worker? && p.job.phase.Sizing? && p.job.phase.x.XStatus?
    case COMPLETED => AtPhase(p, Sizing(XComplete))
    case FAILED => AtPhase(p, Failing)
  }

  /** A live row's status is that of the last await to write one: the insert, a stage's own mark, the verdict,
      the completion after all three sizes, the mark of a reprocess call, or the failure handler of a job of
      this image that had by then thrown three times. */
  lemma {:induction false} StatusIsLastWrite(c: Codec, acts: seq<Action>, i: ImageId) returns (k: nat)
    requires i in Reached(c, acts).w.images
    ensures LastWrite(c, acts, k, i, StatusColumn())
    ensures ProcAt(c, acts, k).Some? && ImageOf(ProcAt(c, acts, k).value) == i
    ensures var status := Reached(c, acts).w.images[i].status;
            && Earns(ProcAt(c, acts, k).value, status)
            && (status.FAILED? ==> Thrown(c, acts[..k], acts[k].pid) == 3)
  {
    k := ColumnIsLastWrite(c, acts, i, StatusColumn());
    AttemptsAreThrows(c, acts[..k], acts[k].pid);
  }

  // ---- The pipeline error ----------------------------------------------------------------------------------

  function ErrorColumn(): Column<Option<string>> {
    Column((row: Row) => row.processingError, (change: Change) => change.error)
  }

  /** Step k is the write of the failure handler of a convert, compress or variants job of image i. */
  ghost predicate GivesUpAt(c: Codec, acts: seq<Action>, k: nat, i: ImageId) {
    && k < |acts| && ActsOn(Reached(c, acts[..k]), acts[k], i)
    && ProcAt(c, acts, k).Some? && AtPhase(ProcAt(c, acts, k).value, Failing)
    && !ProcAt(c, acts, k).value.job.stage.Validate?
  }

  ghost predicate LastGivesUp(c: Codec, acts: seq<Action>, k: nat, i: ImageId) {
    GivesUpAt(c, acts, k, i) && forall m :: k < m < |acts| ==> !GivesUpAt(c, acts, m, i)
  }

  predicate Tagged(error: string, stage: Stage, message: string) {
    && (stage.Convert? ==> error == "[convert] " + message)
    && (stage.Compress? ==> error == "[compress] " + message)
    && (stage.Variants? ==> error == "[variants] " + message)
  }

  predicate StartsWith(s: string, prefix: string) {
    |prefix| <= |s| && s[..|prefix|] == prefix
  }

  lemma {:induction false} TagTellsStage(error: string, stage: Stage, message: string)
    requires !stage.Validate? && Tagged(error, stage, message)
    ensures StartsWith(error, "[convert] ") <==> stage.Convert?
    ensures StartsWith(error, "[compress] ") <==> stage.Compress?
    ensures StartsWith(error, "[variants] ") <==> stage.Variants?
  {
    assert "[convert] "[3] == 'n' && "[compress] "[3] == 'm' && "[variants] "[3] == 'r';
    if StartsWith(error, "[convert] ") { assert error[3] == 'n'; }
    if StartsWith(error, "[compress] ") { assert error[3] == 'm'; }
    if StartsWith(error, "[variants] ") { assert error[3] == 'r'; }
    match stage {
      case Convert => assert error[..10] == "[convert] " && error[3] == 'n';
      case Compress => assert error[..11] == "[compress] " && error[3] == 'm';
      case Variants => assert error[..11] == "[variants] " && error[3] == 'r';
    }
  }

  lemma {:induction false} GivingUpWritesError(c: Codec, acts: seq<Action>, k: nat, i: ImageId)
    ensures GivesUpAt(c, acts, k, i) <==>
              WritesAt(c, acts, k, i, ErrorColumn()) && ChangeAt(c, acts, k).error.value.Some?
  {
  }

  /** A pipeline error in a live row names the stage that gave up and why: the last failure write of the
      pipeline came from the handler of a job of this image that had thrown three times; the error starts with
      "[convert] ", "[compress] " or "[variants] " exactly as that job was a convert, compress or variants job,
      and goes on with that failure's message. */
  lemma {:induction false} ErrorNamesTheStage(c: Codec, acts: seq<Action>, i: ImageId) returns (k: nat)
    requires i in Reached(c, acts).w.images && Reached(c, acts).w.images[i].processingError.Some?
    ensures LastGivesUp(c, acts, k, i) && Thrown(c, acts[..k], acts[k].pid) == 3
    ensures var error, stage := Reached(c, acts).w.images[i].processingError.value, ProcAt(c, acts, k).value.job.stage;
            var message := acts[k].choice.message;
            && (stage.Convert? ==> error == "[convert] " + message)
            && (stage.Compress? ==> error == "[compress] " + message)
            && (stage.Variants? ==> error == "[variants] " + message)
            && (StartsWith(error, "[convert] ") <==> stage.Convert?)
            && (StartsWith(error, "[compress] ") <==> stage.Compress?)
            && (StartsWith(error, "[variants] ") <==> stage.Variants?)
  {
    k := ColumnIsLastWrite(c, acts, i, ErrorColumn());
    GivingUpWritesError(c, acts, k, i);
    forall m | k < m < |acts| ensures !GivesUpAt(c, acts, m, i) {
      GivingUpWritesError(c, acts, m, i);
    }
    AttemptsAreThrows(c, acts[..k], acts[k].pid);
    TagTellsStage(Reached(c, acts).w.images[i].processingError.value, ProcAt(c, acts, k).value.job.stage,
      acts[k].choice.message);
  }

  /** Step k writes a status of the pipeline, and so clears its error. */
  ghost predicate ClearsErrorAt(c: Codec, acts: seq<Action>, k: nat, i: ImageId) {
    WritesAt(c, acts, k, i, ErrorColumn()) && !GivesUpAt(c, acts, k, i)
  }

  ghost predicate FailedSince(c: Codec, acts: seq<Action>, k: nat, i: ImageId) {
    GivesUpAt(c, acts, k, i) && forall m :: k < m < |acts| ==> !ClearsErrorAt(c, acts, m, i)
  }

  /** And it is there exactly as long as no stage has begun, completed or been asked for anew since. */
  lemma {:induction false} ErrorShownUntilCleared(c: Codec, acts: seq<Action>, i: ImageId)
    requires i in Reached(c, acts).w.images
    ensures Reached(c, acts).w.images[i].processingError.Some? <==> exists k :: FailedSince(c, acts, k, i)
  {
    var k := ColumnIsLastWrite(c, acts, i, ErrorColumn());
    GivingUpWritesError(c, acts, k, i);
    if Reached(c, acts).w.images[i].processingError.Some? {
      assert FailedSince(c, acts, k, i);
    } else if k' :| FailedSince(c, acts, k', i) {
      GivingUpWritesError(c, acts, k', i);
      assert ClearsErrorAt(c, acts, k, i);
    }
  }

  // ---- Reasons and measures --------------------------------------------------------------------------------

  function ReasonsColumn(): Column<Option<seq<RejectionReason>>> {
    Column((row: Row) => row.rejectionReasons, (change: Change) => change.reasons)
  }

  /** The write that leaves these reasons: a refusal leaves its own, a validation given up the one
      INTERNAL_ERROR with its message, an admission none. */
  predicate LeavesReasons(p: Proc, message: string, reasons: Option<seq<RejectionReason>>) {
    match reasons
    case None => Inserts(p) || Accepting(p)
    case Some(rs) =>
      || (p.Worker? && p.job.phase.Validating? && p.job.phase.v.VReject? && p.job.phase.v.reasons == rs)
      || (AtPhase(p, Failing) && p.job.stage.Validate? && rs == [RejectionReason("INTERNAL_ERROR", message)])
  }

  /** The reasons in a live row are those of the last refusal, or of the last validation given up, whichever
      came later; an admission clears them. */
  lemma {:induction false} ReasonsAreLastWrite(c: Codec, acts: seq<Action>, i: ImageId) returns (k: nat)
    requires i in Reached(c, acts).w.images
    ensures LastWrite(c, acts, k, i, ReasonsColumn()) && ProcAt(c, acts, k).Some?
    ensures ImageOf(ProcAt(c, acts, k).value) == i
    ensures LeavesReasons(ProcAt(c, acts, k).value, acts[k].choice.message,
            Reached(c, acts).w.images[i].rejectionReasons)
  {
    k := ColumnIsLastWrite(c, acts, i, ReasonsColumn());
  }

  function MeasuresColumn(): Column<Option<Measures>> {
    Column((row: Row) => row.measures, (change: Change) => change.measures)
  }

  /** The measures in a live row are those of the last acceptance; without one there are none. */
  lemma {:induction false} MeasuresAreLastWrite(c: Codec, acts: seq<Action>, i: ImageId) returns (k: nat)
    requires i in Reached(c, acts).w.images
    ensures LastWrite(c, acts, k, i, MeasuresColumn()) && ProcAt(c, acts, k).Some?
    ensures var p, measures := ProcAt(c, acts, k).value, Reached(c, acts).w.images[i].measures;
            if measures.None? then Inserts(p)
            else Accepting(p) && p.job.imageId == i && p.job.phase.v.measures == measures.value
  {
    k := ColumnIsLastWrite(c, acts, i, MeasuresColumn());
  }

  // ---- The display key -------------------------------------------------------------------------------------

  /** Step k stores the display copy: the await of a validation job of image i that puts it succeeds. */
  predicate StoresCopyAt(c: Codec, acts: seq<Action>, k: nat, i: ImageId) {
    && k < |acts| && ProcAt(c, acts, k).Some? && acts[k].choice.outcome.Ok?
    && var p := ProcAt(c, acts, k).value;
       p.Worker? && p.job.imageId == i && p.job.phase.Validating? && p.job.phase.v.VDisplay?
  }

  /** Step m writes an acceptance into the live row of image i. */
  predicate AcceptsAt(c: Codec, acts: seq<Action>, m: nat, i: ImageId) {
    && m < |acts| && ProcAt(c, acts, m).Some? && !acts[m].choice.outcome.Rejected?
    && i in Reached(c, acts[..m]).w.images
    && var p := ProcAt(c, acts, m).value;
       p.Worker? && p.job.imageId == i && p.job.phase.Validating? && p.job.phase.v.VAccept?
  }

  predicate IsResumeOf(a: Action, pid: nat) {
    a.Resume? && a.pid == pid
  }

  /** The last thing process `pid` did was to store the display copy of image i, at step k. */
  predicate JustStored(c: Codec, acts: seq<Action>, k: nat, pid: nat, i: ImageId) {
    StoresCopyAt(c, acts, k, i) && acts[k].pid == pid && forall n :: k < n < |acts| ==> !IsResumeOf(acts[n], pid)
  }

  /** Step k stores the copy, step m accepts, and in between the job does nothing. */
  predicate AcceptsCopy(c: Codec, acts: seq<Action>, k: nat, m: nat, i: ImageId) {
    && k < m < |acts| && StoresCopyAt(c, acts, k, i) && AcceptsAt(c, acts, m, i)
    && acts[k].pid == acts[m].pid && forall n :: k < n < m ==> !IsResumeOf(acts[n], acts[m].pid)
  }

  predicate Accepting(p: Proc) {
    p.Worker? && p.job.phase.Validating? && p.job.phase.v.VAccept?
  }

  /** A job about to accept carries a display key if and only if it has just stored the copy. */
  ghost predicate KnowsCopy(c: Codec, acts: seq<Action>, pid: nat) {
    var procs := Reached(c, acts).procs;
    pid in procs && Accepting(procs[pid]) ==>
      (procs[pid].job.phase.v.display.Some? <==> exists k :: JustStored(c, acts, k, pid, procs[pid].job.imageId))
  }

  lemma {:induction false} StoredBefore(c: Codec, acts: seq<Action>, k: nat, i: ImageId)
    requires k < |acts| - 1
    ensures StoresCopyAt(c, acts, k, i) <==> StoresCopyAt(c, acts[..|acts| - 1], k, i)
  {
    assert acts[..|acts| - 1][..k] == acts[..k];
  }

  lemma {:induction false} JustStoredBefore(c: Codec, acts: seq<Action>, k: nat, pid: nat, i: ImageId)
    requires acts != [] && !IsResumeOf(acts[|acts| - 1], pid)
    ensures JustStored(c, acts, k, pid, i) <==> JustStored(c, acts[..|acts| - 1], k, pid, i)
  {
    if k < |acts| - 1 { StoredBefore(c, acts, k, i); }
    var before := acts[..|acts| - 1];
    assert forall n :: 0 <= n < |acts| - 1 ==> before[n] == acts[n];
  }

  /** How a process gets to the acceptance. */
  lemma {:induction false} AcceptingOrigin(c: Codec, s: State, p: Proc, ch: Choice)
    requires TablesOk(c, s) && ProcOk(c, s.srcs, s.born, s.w, p) && Resumes(p, ch)
    ensures var t := ProcTurn(c, s, p, ch);
            && (t.self.Some? && Accepting(t.self.value) ==>
                  && p.Worker? && p.job.imageId == t.self.value.job.imageId && p.job.phase.Validating? && ch.outcome.Ok?
                  && (t.self.value.job.phase.v.display.Some? <==> p.job.phase.v.VDisplay?))
            && forall k :: 0 <= k < |t.spawned| ==> !Accepting(t.spawned[k])
  {
    if p.Worker? && !p.job.phase.Failing? {
      JobContinues(c, s, p.job, ch);
      AcceptingPhase(c, s.w, p.job, ch);
      var o, attempts, added := JobTurnShape(c, s, p.job, ch);
    } else if !p.Worker? {
      CallStaysCall(c, s, p, ch);
    }
  }

  lemma {:induction false} AcceptingPhase(c: Codec, w: World, job: Job, ch: Choice)
    ensures var next := JobAwait(c, w, job, ch).next;
            next.Goes? && next.phase.Validating? && next.phase.v.VAccept? ==>
              job.phase.Validating? && ch.outcome.Ok? && (next.phase.v.display.Some? <==> job.phase.v.VDisplay?)
  {
  }

  /** Where a process about to accept stood one step before. */
  lemma {:induction false} AcceptingBefore(c: Codec, s: State, a: Action, pid: nat)
    requires Inv(c, s) && a.Resume? && Enabled(s, a)
    requires pid in Step(c, s, a).procs && Accepting(Step(c, s, a).procs[pid])
    ensures var p' := Step(c, s, a).procs[pid];
            pid in s.procs &&
            if pid == a.pid
            then s.procs[pid].Worker? && s.procs[pid].job.imageId == p'.job.imageId
                 && s.procs[pid].job.phase.Validating? && a.choice.outcome.Ok?
                 && (p'.job.phase.v.display.Some? <==> s.procs[pid].job.phase.v.VDisplay?)
            else p' == s.procs[pid]
  {
    assert ProcOk(c, s.srcs, s.born, s.w, s.procs[a.pid]);
    AcceptingOrigin(c, s, s.procs[a.pid], a.choice);
    var t := ProcTurn(c, s, s.procs[a.pid], a.choice);
    ApplyMembers(s, a.pid, t);
    if pid != a.pid && pid !in s.procs { SpawnedAt(c, s, a, pid); }
  }

  lemma {:induction false} CopyKnown(c: Codec, acts: seq<Action>, pid: nat)
    ensures KnowsCopy(c, acts, pid)
  {
    var procs := Reached(c, acts).procs;
    if acts != [] && pid in procs && Accepting(procs[pid]) {
      var n := |acts| - 1;
      var before, a := acts[..n], acts[n];
      var s := Reached(c, before);
      RunKeepsInv(c, before);
      if a.Resume? && Enabled(s, a) { AcceptingBefore(c, s, a, pid); }
      if IsResumeOf(a, pid) {
        CopyKnownAfter(c, acts, pid, procs[pid].job.imageId);
      } else {
        CopyKnown(c, before, pid);
        CopyKnownBeside(c, acts, pid);
      }
    }
  }

  lemma {:induction false} CopyKnownAfter(c: Codec, acts: seq<Action>, pid: nat, i: ImageId)
    requires acts != [] && IsResumeOf(acts[|acts| - 1], pid)
    ensures (exists k :: JustStored(c, acts, k, pid, i)) <==> StoresCopyAt(c, acts, |acts| - 1, i)
  {
    if StoresCopyAt(c, acts, |acts| - 1, i) { assert JustStored(c, acts, |acts| - 1, pid, i); }
  }

  lemma {:induction false} CopyKnownBeside(c: Codec, acts: seq<Action>, pid: nat)
    requires acts != [] && KnowsCopy(c, acts[..|acts| - 1], pid)
    requires var s, s' := Reached(c, acts[..|acts| - 1]), Reached(c, acts);
             pid in s.procs && pid in s'.procs && s'.procs[pid] == s.procs[pid]
    requires !IsResumeOf(acts[|acts| - 1], pid)
    ensures KnowsCopy(c, acts, pid)
  {
    var p := Reached(c, acts).procs[pid];
    if Accepting(p) {
      var i, before := p.job.imageId, acts[..|acts| - 1];
      if k :| JustStored(c, acts, k, pid, i) {
        JustStoredBefore(c, acts, k, pid, i);
        assert JustStored(c, before, k, pid, i);
      }
      if k :| JustStored(c, before, k, pid, i) {
        JustStoredBefore(c, acts, k, pid, i);
        assert JustStored(c, acts, k, pid, i);
      }
    }
  }

  lemma {:induction false} BornStays(c: Codec, acts: seq<Action>, k: nat, m: nat, i: ImageId)
    requires k <= m <= |acts| && i in Reached(c, acts[..k]).born
    ensures i in Reached(c, acts[..m]).born
  {
    if k < m {
      BornStays(c, acts, k, m - 1, i);
      PrefixStep(c, acts, m);
      var s, a := Reached(c, acts[..m - 1]), acts[m - 1];
      RunKeepsInv(c, acts[..m - 1]);
      if a.Resume? && Enabled(s, a) { ProcTurnOk(c, s, a.pid, a.choice); }
    }
  }

  /** A row once there is never inserted again, deleted or not. */
  lemma {:induction false} InsertedOnce(c: Codec, acts: seq<Action>, k: nat, m: nat, i: ImageId)
    requires k < m < |acts| && i in Reached(c, acts[..k]).w.images
    requires ActsOn(Reached(c, acts[..m]), acts[m], i)
    ensures !Inserts(Reached(c, acts[..m]).procs[acts[m].pid])
  {
    RunKeepsInv(c, acts[..k]);
    RunKeepsInv(c, acts[..m]);
    BornStays(c, acts, k, m, i);
    var s := Reached(c, acts[..m]);
    assert ProcOk(c, s.srcs, s.born, s.w, s.procs[acts[m].pid]);
  }

  function DisplayColumn(): Column<Option<Key>> {
    Column((row: Row) => row.display, (change: Change) => change.display)
  }

  lemma {:induction false} JustStoredAt(c: Codec, acts: seq<Action>, k: nat, m: nat, i: ImageId)
    requires m < |acts| && acts[m].Resume? && AcceptsAt(c, acts, m, i)
    ensures JustStored(c, acts[..m], k, acts[m].pid, i) <==> AcceptsCopy(c, acts, k, m, i)
  {
    if k < m { assert acts[..m][..k] == acts[..k]; }
  }

  /** What an acceptance writes into the display column. */
  lemma {:induction false} AcceptWritesDisplay(c: Codec, acts: seq<Action>, m: nat, i: ImageId)
    requires AcceptsAt(c, acts, m, i)
    ensures WritesAt(c, acts, m, i, DisplayColumn()) <==> ProcAt(c, acts, m).value.job.phase.v.display.Some?
  {
  }

  lemma {:induction false} AcceptWritesCopy(c: Codec, acts: seq<Action>, m: nat, i: ImageId)
    requires AcceptsAt(c, acts, m, i)
    ensures (exists k :: AcceptsCopy(c, acts, k, m, i)) <==> WritesAt(c, acts, m, i, DisplayColumn())
  {
    var pid := acts[m].pid;
    AcceptWritesDisplay(c, acts, m, i);
    CopyKnown(c, acts[..m], pid);
    if k :| JustStored(c, acts[..m], k, pid, i) { JustStoredAt(c, acts, k, m, i); }
    if k :| AcceptsCopy(c, acts, k, m, i) { JustStoredAt(c, acts, k, m, i); }
  }

  /** Only an acceptance ever writes a display key. */
  lemma {:induction false} CopiesAreAccepted(c: Codec, acts: seq<Action>, k: nat, i: ImageId)
    requires WritesAt(c, acts, k, i, DisplayColumn())
    requires !Inserts(ProcAt(c, acts, k).value)
    ensures AcceptsAt(c, acts, k, i) && ChangeAt(c, acts, k).display.value.Some?
  {
  }

  ghost predicate CopyAccepted(c: Codec, acts: seq<Action>, i: ImageId) {
    exists k, m :: AcceptsCopy(c, acts, k, m, i)
  }

  lemma {:induction false} DisplayIffCopied(c: Codec, acts: seq<Action>, i: ImageId)
    requires i in Reached(c, acts).w.images
    ensures Reached(c, acts).w.images[i].display.Some? <==> CopyAccepted(c, acts, i)
  {
    var last := ColumnIsLastWrite(c, acts, i, DisplayColumn());
    if Reached(c, acts).w.images[i].display.Some? {
      CopiesAreAccepted(c, acts, last, i);
      AcceptWritesCopy(c, acts, last, i);
    }
    if k, m :| AcceptsCopy(c, acts, k, m, i) {
      AcceptWritesCopy(c, acts, m, i);
      if m < last { InsertedOnce(c, acts, m, last, i); }
      CopiesAreAccepted(c, acts, last, i);
    }
  }

  lemma {:induction false} DescribesDisplay(c: Codec, s: State, i: ImageId)
    requires Inv(c, s) && i in s.w.images
    ensures i in s.srcs
    ensures s.w.images[i].display.Some? ==>
              s.w.images[i].display == Some(Key(s.srcs[i].userId, i, Display(s.srcs[i].ext)))
  {
    assert RowOk(c, s.srcs, s.w, i);
  }

  /** A live row has its display key if and only if some acceptance took effect that followed the storing of
      the display copy in the same attempt.  Nothing later -- no status, retry, reprocess or failure -- takes
      it away again, and nothing else ever sets one. */
  lemma {:induction false} DisplayIsAcceptedCopy(c: Codec, acts: seq<Action>, i: ImageId)
    requires i in Reached(c, acts).w.images
    ensures var s := Reached(c, acts);
            && i in s.srcs
            && s.w.images[i].display ==
                 if CopyAccepted(c, acts, i) then Some(Key(s.srcs[i].userId, i, Display(s.srcs[i].ext))) else None
  {
    RunKeepsInv(c, acts);
    DescribesDisplay(c, Reached(c, acts), i);
    DisplayIffCopied(c, acts, i);
  }
}
