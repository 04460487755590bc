/**
 * The worker jobs as the program writes them: a sequence of awaited calls on the backend, with anything
 * happening in between.  Each job body is proved to be exactly the attempt the step system describes:
 * same awaits, same order, same effect of every failure.
 */
module Workers {
  import opened Wrappers
  import opened Keys
  import opened Rounding
  import opened Tables
  import opened Machine
  import opened BackendState
  import opened Runs

  /** Await number k of an attempt: the tables, the store and the deterministic job ids as the others have
      left them by then, and what the environment decides. */
  datatype Moment = Moment(world: World, convertIds: set<ImageId>, choice: Choice)

  const MOST_AWAITS: nat := 13

  type Moments = ms: seq<Moment> | |ms| == MOST_AWAITS
    witness seq(MOST_AWAITS, _ => Moment(World(map[], [], map[]), {}, Choice(Ok, ANY_VERDICT, FULL, true, "")))

  /** The surroundings of one attempt at a job. */
  datatype Context = Context(codec: Codec, imageId: ImageId, moments: Moments)

  /** Await number k of an attempt that stands at `phase`. */
  function AwaitAt(x: Context, stage: Stage, k: nat, phase: Phase): Outcome
    requires k < MOST_AWAITS
  {
    JobAwait(x.codec, x.moments[k].world, Job(x.imageId, stage, stage, 0, 0, phase), Fitted(phase, x.moments[k].choice))
  }

  function Unsettled(fan: VariantsPhase, t: VariantType): VariantType
    requires fan.XFan?
  {
    if !TaskOf(fan, t).Settled? then t
    else if !fan.thumb.Settled? then THUMBNAIL
    else if !fan.web.Settled? then WEB
    else FULL
  }

  /** Only a task with awaits left can move next. */
  function Fitted(phase: Phase, ch: Choice): Choice {
    if phase.Sizing? && phase.x.XFan? then ch.(vtype := Unsettled(phase.x, ch.vtype)) else ch
  }

  // ---- Attempts ----------------------------------------------------------------------------------

  /** What an await leaves: its outcome, the deterministic job ids then present, the jobs it added. */
  datatype Left = Left(outcome: Outcome, convertIds: set<ImageId>, added: seq<(Stage, ImageId)>)

  /** The validation hand-off is swallowed where its deterministic id is present by then. */
  function LeftAt(x: Context, stage: Stage, k: nat, phase: Phase): Left
    requires k < MOST_AWAITS
  {
    var o, ids, i := AwaitAt(x, stage, k, phase), x.moments[k].convertIds, x.imageId;
    var adds := o.enqueued.Some? && !(stage.Validate? && i in ids);
    Left(o, if adds && stage.Validate? then ids + {i} else ids, if adds then [(o.enqueued.value, i)] else [])
  }

  /** One attempt at a job, as the step system has it. */
  function AttemptOf(x: Context, stage: Stage): Script<Left, Shared> {
    Script(
      Left(Yields(x.moments[0].world, Goes(Queued)), x.moments[0].convertIds, []),
      (k: nat, l: Left) =>
        if k < MOST_AWAITS && l.outcome.next.Goes? then LeftAt(x, stage, k, l.outcome.next.phase) else l,
      (l: Left) => !l.outcome.next.Goes?,
      (l: Left) => Shared(l.outcome.world, l.convertIds))
  }

  /** An await that leaves what is shared as it is now and adds no job. */
  ghost function Here(b: Backend, next: Next): Left
    reads b
  {
    Left(Yields(b.Now(), next), b.convertIds, [])
  }

  /** After k awaits, each of which left the backend in the state the step system has, the attempt
      stands at `phase`. */
  ghost predicate Stands(x: Context, stage: Stage, k: nat, phase: Phase, h0: seq<Shared>, b: Backend)
    reads b
  {
    Follows(AttemptOf(x, stage), k, Here(b, Goes(phase)), h0, b.History())
  }

  /** The attempt is over and ended in `left`; every await on the way left the backend in the state the
      step system has. */
  ghost predicate Done(x: Context, stage: Stage, left: Left, h0: seq<Shared>, b: Backend)
    reads b
  {
    Ended(AttemptOf(x, stage), left, h0, b.History())
  }

  /** What an awaited write leaves. */
  function Written(x: Context, k: nat, effect: Option<World>, next: Next): Left
    requires k < MOST_AWAITS
  {
    var (w, ok) := Effect(x.moments[k].world, effect, x.moments[k].choice.outcome);
    Left(Yields(w, if ok then next else Throws), x.moments[k].convertIds, [])
  }

  /** findById, the first await of every job. */
  method FindRow(x: Context, b: Backend, ghost h0: seq<Shared>, ghost stage: Stage) returns (ok: bool, row: Option<Row>)
    requires h0 == b.History()
    modifies b`images, b`variants, b`objects, b`convertIds, b`trace
    ensures !ok ==> Done(x, stage, Here(b, Throws), h0, b)
    ensures ok ==> var next := Begin(b.Now(), x.imageId, stage);
                   if next.Goes? then Stands(x, stage, 1, next.phase, h0, b)
                   else Done(x, stage, Here(b, next), h0, b)
    ensures row == if x.imageId in b.images then Some(b.images[x.imageId]) else None
  {
    ghost var p := AttemptOf(x, stage);
    AtTheStart(p, h0);
    b.Suspend(x.moments[0].world, x.moments[0].convertIds);
    ok, row := b.FindById(x.imageId, x.moments[0].choice.outcome);
    NextAwait(p, 0, p.start, h0, h0, b.All());
  }

  // ---- Conversion --------------------------------------------------------------------------------

  lemma {:induction false} ConvertStatusLeft(x: Context, k: nat, row: Row)
    requires k < MOST_AWAITS
    ensures var w := x.moments[k].world;
            LeftAt(x, Convert, k, Converting(CStatus(row)))
            == Written(x, k, StatusSet(w, x.imageId, PROCESSING_CONVERT), GoC(CGet(row)))
  {
  }

  method ConvertStatus(x: Context, b: Backend, ghost h0: seq<Shared>, row: Row) returns (ok: bool)
    requires Stands(x, Convert, 1, Converting(CStatus(row)), h0, b)
    modifies b`images, b`variants, b`objects, b`convertIds, b`trace
    ensures if ok then Stands(x, Convert, 2, Converting(CGet(row)), h0, b)
            else Done(x, Convert, Here(b, Throws), h0, b)
  {
    ghost var t, h := Here(b, Goes(Converting(CStatus(row)))), b.History();
    b.Suspend(x.moments[1].world, x.moments[1].convertIds);
    ok := b.SetStatus(x.imageId, PROCESSING_CONVERT, x.moments[1].choice.outcome);
    ConvertStatusLeft(x, 1, row);
    NextAwait(AttemptOf(x, Convert), 1, t, h0, h, b.All());
  }

  method ConvertGet(x: Context, b: Backend, ghost h0: seq<Shared>, row: Row) returns (body: Option<Blob>)
    requires Stands(x, Convert, 2, Converting(CGet(row)), h0, b)
    modifies b`images, b`variants, b`objects, b`convertIds, b`trace
    ensures body.Some? ==> Stands(x, Convert, 3, Converting(CNormalize(row, body.value)), h0, b)
    ensures body.None? ==> Done(x, Convert, Here(b, Throws), h0, b)
  {
    ghost var t, h := Here(b, Goes(Converting(CGet(row)))), b.History();
    b.Suspend(x.moments[2].world, x.moments[2].convertIds);
    body := b.GetObject(row.original, x.moments[2].choice.outcome);
    NextAwait(AttemptOf(x, Convert), 2, t, h0, h, b.All());
  }

  method ConvertNormalize(x: Context, b: Backend, ghost h0: seq<Shared>, row: Row, body: Blob) returns (ok: bool)
    requires Stands(x, Convert, 3, Converting(CNormalize(row, body)), h0, b)
    modifies b`images, b`variants, b`objects, b`convertIds, b`trace
    ensures if ok then Stands(x, Convert, 4, Converting(CPut(row, (x.codec.normalize)(body, row.mimeType))), h0, b)
            else Done(x, Convert, Here(b, Throws), h0, b)
  {
    ghost var t, h := Here(b, Goes(Converting(CNormalize(row, body)))), b.History();
    b.Suspend(x.moments[3].world, x.moments[3].convertIds);
    ok := x.moments[3].choice.outcome.Ok?;
    NextAwait(AttemptOf(x, Convert), 3, t, h0, h, b.All());
  }

  lemma {:induction false} ConvertPutLeft(x: Context, k: nat, row: Row, out: Processed)
    requires k < MOST_AWAITS
    ensures var w := x.moments[k].world;
            LeftAt(x, Convert, k, Converting(CPut(row, out)))
            == Written(x, k, Some(Put(w, Key(row.userId, x.imageId, Normalized), out.buffer)), GoC(CSetRow(row)))
  {
  }

  method ConvertPut(x: Context, b: Backend, ghost h0: seq<Shared>, row: Row, out: Processed) returns (ok: bool)
    requires Stands(x, Convert, 4, Converting(CPut(row, out)), h0, b)
    modifies b`images, b`variants, b`objects, b`convertIds, b`trace
    ensures if ok then Stands(x, Convert, 5, Converting(CSetRow(row)), h0, b)
            else Done(x, Convert, Here(b, Throws), h0, b)
  {
    ghost var t, h := Here(b, Goes(Converting(CPut(row, out)))), b.History();
    b.Suspend(x.moments[4].world, x.moments[4].convertIds);
    ok := b.PutObject(Key(row.userId, x.imageId, Normalized), out.buffer, x.moments[4].choice.outcome);
    ConvertPutLeft(x, 4, row, out);
    NextAwait(AttemptOf(x, Convert), 4, t, h0, h, b.All());
  }

  lemma {:induction false} ConvertSetRowLeft(x: Context, k: nat, row: Row)
    requires k < MOST_AWAITS
    ensures var w := x.moments[k].world;
            LeftAt(x, Convert, k, Converting(CSetRow(row)))
            == Written(x, k, NormalizedSet(w, x.imageId, Key(row.userId, x.imageId, Normalized)), GoC(CHandOff))
  {
  }

  method ConvertSetRow(x: Context, b: Backend, ghost h0: seq<Shared>, row: Row) returns (ok: bool)
    requires Stands(x, Convert, 5, Converting(CSetRow(row)), h0, b)
    modifies b`images, b`variants, b`objects, b`convertIds, b`trace
    ensures if ok then Stands(x, Convert, 6, Converting(CHandOff), h0, b)
            else Done(x, Convert, Here(b, Throws), h0, b)
  {
    ghost var t, h := Here(b, Goes(Converting(CSetRow(row)))), b.History();
    b.Suspend(x.moments[5].world, x.moments[5].convertIds);
    ok := b.SetNormalized(x.imageId, Key(row.userId, x.imageId, Normalized), x.moments[5].choice.outcome);
    ConvertSetRowLeft(x, 5, row);
    NextAwait(AttemptOf(x, Convert), 5, t, h0, h, b.All());
  }

  method ConvertHandOff(x: Context, b: Backend, ghost h0: seq<Shared>) returns (result: Next, ghost left: Left)
    requires Stands(x, Convert, 6, Converting(CHandOff), h0, b)
    modifies b`images, b`variants, b`objects, b`convertIds, b`trace, b`added
    ensures Done(x, Convert, left, h0, b) && result == left.outcome.next && b.added == old(b.added) + left.added
  {
    ghost var t, h := Here(b, Goes(Converting(CHandOff))), b.History();
    b.Suspend(x.moments[6].world, x.moments[6].convertIds);
    var ok := b.Enqueue(Compress, x.imageId, x.moments[6].choice.outcome);
    NextAwait(AttemptOf(x, Convert), 6, t, h0, h, b.All());
    result, left := if ok then Ends(HandedOff) else Throws, LeftAt(x, Convert, 6, Converting(CHandOff));
  }

  method ConvertJob(x: Context, b: Backend) returns (result: Next, ghost left: Left)
    modifies b
    ensures Done(x, Convert, left, old(b.History()), b) && result == left.outcome.next
    ensures b.added == old(b.added) + left.added
  {
    ghost var h0 := b.History();
    var ok, found := FindRow(x, b, h0, Convert);
    if !ok { return Throws, Here(b, Throws); }
    if found.None? { return Ends(Drops), Here(b, Ends(Drops)); }
    var row := found.value;
    ok := ConvertStatus(x, b, h0, row);
    if !ok { return Throws, Here(b, Throws); }
    var original := ConvertGet(x, b, h0, row);
    if original.None? { return Throws, Here(b, Throws); }
    ok := ConvertNormalize(x, b, h0, row, original.value);
    if !ok { return Throws, Here(b, Throws); }
    var normalized := (x.codec.normalize)(original.value, row.mimeType);
    ok := ConvertPut(x, b, h0, row, normalized);
    if !ok { return Throws, Here(b, Throws); }
    ok := ConvertSetRow(x, b, h0, row);
    if !ok { return Throws, Here(b, Throws); }
    result, left := ConvertHandOff(x, b, h0);
  }

  // ---- Compression -------------------------------------------------------------------------------

  lemma {:induction false} CompressStatusLeft(x: Context, k: nat, row: Row)
    requires k < MOST_AWAITS
    ensures var w := x.moments[k].world;
            LeftAt(x, Compress, k, Compressing(KStatus(row)))
            == Written(x, k, StatusSet(w, x.imageId, PROCESSING_COMPRESS), GoK(KGet(row)))
  {
  }

  method CompressStatus(x: Context, b: Backend, ghost h0: seq<Shared>, row: Row) returns (ok: bool)
    requires Stands(x, Compress, 1, Compressing(KStatus(row)), h0, b)
    modifies b`images, b`variants, b`objects, b`convertIds, b`trace
    ensures if ok then Stands(x, Compress, 2, Compressing(KGet(row)), h0, b)
            else Done(x, Compress, Here(b, Throws), h0, b)
  {
    ghost var t, h := Here(b, Goes(Compressing(KStatus(row)))), b.History();
    b.Suspend(x.moments[1].world, x.moments[1].convertIds);
    ok := b.SetStatus(x.imageId, PROCESSING_COMPRESS, x.moments[1].choice.outcome);
    CompressStatusLeft(x, 1, row);
    NextAwait(AttemptOf(x, Compress), 1, t, h0, h, b.All());
  }

  method CompressGet(x: Context, b: Backend, ghost h0: seq<Shared>, row: Row) returns (body: Option<Blob>)
    requires row.normalizedKey.Some? && Stands(x, Compress, 2, Compressing(KGet(row)), h0, b)
    modifies b`images, b`variants, b`objects, b`convertIds, b`trace
    ensures body.Some? ==> Stands(x, Compress, 3, Compressing(KCompress(row, body.value)), h0, b)
    ensures body.None? ==> Done(x, Compress, Here(b, Throws), h0, b)
  {
    ghost var t, h := Here(b, Goes(Compressing(KGet(row)))), b.History();
    b.Suspend(x.moments[2].world, x.moments[2].convertIds);
    body := b.GetObject(row.normalizedKey.value, x.moments[2].choice.outcome);
    NextAwait(AttemptOf(x, Compress), 2, t, h0, h, b.All());
  }

  method CompressCompress(x: Context, b: Backend, ghost h0: seq<Shared>, row: Row, body: Blob) returns (ok: bool)
    requires Stands(x, Compress, 3, Compressing(KCompress(row, body)), h0, b)
    modifies b`images, b`variants, b`objects, b`convertIds, b`trace
    ensures if ok then Stands(x, Compress, 4, Compressing(KPut(row, |body|, (x.codec.compress)(body))), h0, b)
            else Done(x, Compress, Here(b, Throws), h0, b)
  {
    ghost var t, h := Here(b, Goes(Compressing(KCompress(row, body)))), b.History();
    b.Suspend(x.moments[3].world, x.moments[3].convertIds);
    ok := x.moments[3].choice.outcome.Ok?;
    NextAwait(AttemptOf(x, Compress), 3, t, h0, h, b.All());
  }

  lemma {:induction false} CompressPutLeft(x: Context, k: nat, row: Row, before: nat, out: Processed)
    requires k < MOST_AWAITS
    ensures var w := x.moments[k].world;
            LeftAt(x, Compress, k, Compressing(KPut(row, before, out)))
            == Written(x, k, Some(Put(w, Key(row.userId, x.imageId, Compressed), out.buffer)),
                       GoK(KSetRow(row, before, |out.buffer|)))
  {
  }

  method CompressPut(x: Context, b: Backend, ghost h0: seq<Shared>, row: Row, before: nat, out: Processed)
    returns (ok: bool)
    requires Stands(x, Compress, 4, Compressing(KPut(row, before, out)), h0, b)
    modifies b`images, b`variants, b`objects, b`convertIds, b`trace
    ensures if ok then Stands(x, Compress, 5, Compressing(KSetRow(row, before, |out.buffer|)), h0, b)
            else Done(x, Compress, Here(b, Throws), h0, b)
  {
    ghost var t, h := Here(b, Goes(Compressing(KPut(row, before, out)))), b.History();
    b.Suspend(x.moments[4].world, x.moments[4].convertIds);
    ok := b.PutObject(Key(row.userId, x.imageId, Compressed), out.buffer, x.moments[4].choice.outcome);
    CompressPutLeft(x, 4, row, before, out);
    NextAwait(AttemptOf(x, Compress), 4, t, h0, h, b.All());
  }

  lemma {:induction false} CompressSetRowLeft(x: Context, k: nat, row: Row, before: nat, after: nat)
    requires k < MOST_AWAITS
    ensures var w := x.moments[k].world;
            LeftAt(x, Compress, k, Compressing(KSetRow(row, before, after)))
            == Written(x, k, CompressedSet(w, x.imageId, Key(row.userId, x.imageId, Compressed),
                                         Compression(after, StoredRatio(after, before))), GoK(KHandOff))
  {
  }

  method CompressSetRow(x: Context, b: Backend, ghost h0: seq<Shared>, row: Row, before: nat, after: nat)
    returns (ok: bool)
    requires Stands(x, Compress, 5, Compressing(KSetRow(row, before, after)), h0, b)
    modifies b`images, b`variants, b`objects, b`convertIds, b`trace
    ensures if ok then Stands(x, Compress, 6, Compressing(KHandOff), h0, b)
            else Done(x, Compress, Here(b, Throws), h0, b)
  {
    ghost var t, h := Here(b, Goes(Compressing(KSetRow(row, before, after)))), b.History();
    b.Suspend(x.moments[5].world, x.moments[5].convertIds);
    var compression := Compression(after, StoredRatio(after, before));
    ok := b.SetCompressed(x.imageId, Key(row.userId, x.imageId, Compressed), compression, x.moments[5].choice.outcome);
    CompressSetRowLeft(x, 5, row, before, after);
    NextAwait(AttemptOf(x, Compress), 5, t, h0, h, b.All());
  }

  method CompressHandOff(x: Context, b: Backend, ghost h0: seq<Shared>) returns (result: Next, ghost left: Left)
    requires Stands(x, Compress, 6, Compressing(KHandOff), h0, b)
    modifies b`images, b`variants, b`objects, b`convertIds, b`trace, b`added
    ensures Done(x, Compress, left, h0, b) && result == left.outcome.next && b.added == old(b.added) + left.added
  {
    ghost var t, h := Here(b, Goes(Compressing(KHandOff))), b.History();
    b.Suspend(x.moments[6].world, x.moments[6].convertIds);
    var ok := b.Enqueue(Variants, x.imageId, x.moments[6].choice.outcome);
    NextAwait(AttemptOf(x, Compress), 6, t, h0, h, b.All());
    result, left := if ok then Ends(HandedOff) else Throws, LeftAt(x, Compress, 6, Compressing(KHandOff));
  }

  method CompressJob(x: Context, b: Backend) returns (result: Next, ghost left: Left)
    modifies b
    ensures Done(x, Compress, left, old(b.History()), b) && result == left.outcome.next
    ensures b.added == old(b.added) + left.added
  {
    ghost var h0 := b.History();
    var ok, found := FindRow(x, b, h0, Compress);
    if !ok { return Throws, Here(b, Throws); }
    if found.None? { return Ends(Drops), Here(b, Ends(Drops)); }
    var row := found.value;
    if row.normalizedKey.None? { return Throws, Here(b, Throws); }
    ok := CompressStatus(x, b, h0, row);
    if !ok { return Throws, Here(b, Throws); }
    var normalized := CompressGet(x, b, h0, row);
    if normalized.None? { return Throws, Here(b, Throws); }
    ok := CompressCompress(x, b, h0, row, normalized.value);
    if !ok { return Throws, Here(b, Throws); }
    var before, compressed := |normalized.value|, (x.codec.compress)(normalized.value);
    ok := CompressPut(x, b, h0, row, before, compressed);
    if !ok { return Throws, Here(b, Throws); }
    ok := CompressSetRow(x, b, h0, row, before, |compressed.buffer|);
    if !ok { return Throws, Here(b, Throws); }
    result, left := CompressHandOff(x, b, h0);
  }

  // ---- Variants ----------------------------------------------------------------------------------

  /** One await of a resize task: resize, put the object, upsert the row.  None: the task rejects. */
  method AdvanceTask(c: Codec, b: Backend, i: ImageId, userId: string, t: VariantType, task: Task, out: Await)
    returns (next: Option<Task>)
    modifies b`objects, b`variants
    ensures (b.Now(), next) == TaskAwait(c, old(b.Now()), i, userId, t, task, out)
  {
    var key, ok := Key(userId, i, Variant(t)), true;
    match task {
      case Resizing(source) =>
        ok := out.Ok?;
        next := Some(Putting((c.resize)(source, (c.width)(t))));
      case Putting(p) =>
        ok := b.PutObject(key, p.buffer, out);
        next := Some(Upserting(p));
      case Upserting(p) =>
        ok := b.UpsertVariant(VariantRow(i, t, key, p.width, p.height, |p.buffer|), out);
        next := Some(Settled);
      case Settled =>
        next := Some(Settled);
    }
    if !ok { next := None; }
  }

  lemma {:induction false} VariantsStatusLeft(x: Context, k: nat, row: Row, key: Key)
    requires k < MOST_AWAITS
    ensures var w := x.moments[k].world;
            LeftAt(x, Variants, k, Sizing(XStatus(row, key)))
            == Written(x, k, StatusSet(w, x.imageId, PROCESSING_VARIANTS), GoX(XGet(row, key)))
  {
  }

  method VariantsStatus(x: Context, b: Backend, ghost h0: seq<Shared>, row: Row, key: Key) returns (ok: bool)
    requires Stands(x, Variants, 1, Sizing(XStatus(row, key)), h0, b)
    modifies b`images, b`variants, b`objects, b`convertIds, b`trace
    ensures if ok then Stands(x, Variants, 2, Sizing(XGet(row, key)), h0, b)
            else Done(x, Variants, Here(b, Throws), h0, b)
  {
    ghost var t, h := Here(b, Goes(Sizing(XStatus(row, key)))), b.History();
    b.Suspend(x.moments[1].world, x.moments[1].convertIds);
    ok := b.SetStatus(x.imageId, PROCESSING_VARIANTS, x.moments[1].choice.outcome);
    VariantsStatusLeft(x, 1, row, key);
    NextAwait(AttemptOf(x, Variants), 1, t, h0, h, b.All());
  }

  function FreshFan(row: Row, source: Blob): VariantsPhase {
    XFan(row, Resizing(source), Resizing(source), Resizing(source))
  }

  method VariantsGet(x: Context, b: Backend, ghost h0: seq<Shared>, row: Row, key: Key) returns (body: Option<Blob>)
    requires Stands(x, Variants, 2, Sizing(XGet(row, key)), h0, b)
    modifies b`images, b`variants, b`objects, b`convertIds, b`trace
    ensures body.Some? ==> Stands(x, Variants, 3, Sizing(FreshFan(row, body.value)), h0, b)
    ensures body.None? ==> Done(x, Variants, Here(b, Throws), h0, b)
  {
    ghost var t, h := Here(b, Goes(Sizing(XGet(row, key)))), b.History();
    b.Suspend(x.moments[2].world, x.moments[2].convertIds);
    body := b.GetObject(key, x.moments[2].choice.outcome);
    NextAwait(AttemptOf(x, Variants), 2, t, h0, h, b.All());
  }

  lemma {:induction false} VariantsCompleteLeft(x: Context, k: nat)
    requires k < MOST_AWAITS
    ensures var w := x.moments[k].world;
            LeftAt(x, Variants, k, Sizing(XComplete))
            == Written(x, k, StatusSet(w, x.imageId, COMPLETED), Ends(Completes))
  {
  }

  method VariantsComplete(x: Context, b: Backend, ghost h0: seq<Shared>, n: nat) returns (ok: bool)
    requires n < MOST_AWAITS && Stands(x, Variants, n, Sizing(XComplete), h0, b)
    modifies b`images, b`variants, b`objects, b`convertIds, b`trace
    ensures if ok then Done(x, Variants, Here(b, Ends(Completes)), h0, b)
            else Done(x, Variants, Here(b, Throws), h0, b)
  {
    ghost var t, h := Here(b, Goes(Sizing(XComplete))), b.History();
    b.Suspend(x.moments[n].world, x.moments[n].convertIds);
    ok := b.SetStatus(x.imageId, COMPLETED, x.moments[n].choice.outcome);
    VariantsCompleteLeft(x, n);
    NextAwait(AttemptOf(x, Variants), n, t, h0, h, b.All());
  }

  method VariantsJob(x: Context, b: Backend) returns (result: Next, stragglers: seq<Proc>, ghost left: Left)
    modifies b
    ensures Done(x, Variants, left, old(b.History()), b) && result == left.outcome.next
    ensures stragglers == left.outcome.orphans && left.added == [] && b.added == old(b.added)
  {
    ghost var h0 := b.History();
    var ok, found := FindRow(x, b, h0, Variants);
    if !ok { return Throws, [], Here(b, Throws); }
    if found.None? { return Ends(Drops), [], Here(b, Ends(Drops)); }
    var row := found.value;
    var sourceKey := if row.compressedKey.Some? then row.compressedKey else row.normalizedKey;
    if sourceKey.None? { return Throws, [], Here(b, Throws); }
    ok := VariantsStatus(x, b, h0, row, sourceKey.value);
    if !ok { return Throws, [], Here(b, Throws); }
    var source := VariantsGet(x, b, h0, row, sourceKey.value);
    if source.None? { return Throws, [], Here(b, Throws); }
    var n;
    ok, stragglers, n, left := ResizeAll(x, b, h0, row, source.value);
    if !ok { return Throws, stragglers, left; }
    ok := VariantsComplete(x, b, h0, n);
    result := if ok then Ends(Completes) else Throws;
    left := Here(b, result);
  }

  function FanSteps(fan: VariantsPhase): nat {
    if fan.XFan? then TaskAwaits(fan.thumb) + TaskAwaits(fan.web) + TaskAwaits(fan.full) else 0
  }

  /** Where the fan stands once the chosen task has moved on. */
  function Joined(fan: VariantsPhase): VariantsPhase
    requires fan.XFan?
  {
    if fan.thumb.Settled? && fan.web.Settled? && fan.full.Settled? then XComplete else fan
  }

  lemma FanShrinks(fan: VariantsPhase, t: VariantType, task: Task)
    requires fan.XFan? && TaskAwaits(task) < TaskAwaits(TaskOf(fan, t))
    ensures FanSteps(Joined(WithTask(fan, t, task))) < FanSteps(fan)
  {
  }

  lemma TaskShrinks(c: Codec, w: World, i: ImageId, userId: string, t: VariantType, task: Task, out: Await)
    requires !task.Settled?
    ensures var next := TaskAwait(c, w, i, userId, t, task, out).1; next.Some? ==>
            TaskAwaits(next.value) < TaskAwaits(task)
  {
  }

  /** What one task's await makes of the whole fan. */
  lemma {:induction false} FanStep(x: Context, k: nat, fan: VariantsPhase, t: VariantType, w: World, next: Option<Task>)
    requires k < MOST_AWAITS && fan.XFan? && t == Unsettled(fan, x.moments[k].choice.vtype) && !TaskOf(fan, t).Settled?
    requires var m := x.moments[k];
             (w, next) == TaskAwait(x.codec, m.world, x.imageId, fan.row.userId, t, TaskOf(fan, t), m.choice.outcome)
    ensures next.None? ==> AwaitAt(x, Variants, k, Sizing(fan)) == Outcome(w, Throws, None, Orphans(x.imageId, fan, t))
    ensures next.Some? ==> AwaitAt(x, Variants, k, Sizing(fan)) == Yields(w, GoX(Joined(WithTask(fan, t, next.value))))
    ensures next.Some? ==> FanSteps(Joined(WithTask(fan, t, next.value))) < FanSteps(fan)
  {
    var m := x.moments[k];
    TaskShrinks(x.codec, m.world, x.imageId, fan.row.userId, t, TaskOf(fan, t), m.choice.outcome);
    if next.Some? { FanShrinks(fan, t, next.value); }
  }

  function Orphans(i: ImageId, fan: VariantsPhase, t: VariantType): seq<Proc>
    requires fan.XFan?
  {
    Orphan(i, fan, t, THUMBNAIL) + Orphan(i, fan, t, WEB) + Orphan(i, fan, t, FULL)
  }

  lemma SomeUnsettled(fan: VariantsPhase, t: VariantType)
    requires fan.XFan? && FanSteps(fan) > 0
    ensures !TaskOf(fan, Unsettled(fan, t)).Settled?
  {
  }

  lemma JoinedShape(fan: VariantsPhase)
    requires fan.XFan?
    ensures Joined(fan).XFan? ==> Joined(fan) == fan && FanSteps(fan) > 0
    ensures Joined(fan).XFan? || Joined(fan).XComplete?
  {
  }

  /** Unless complete, some task still has awaits left. */
  predicate IsFan(fan: VariantsPhase, row: Row) {
    fan.XComplete? || (fan.XFan? && fan.row == row && FanSteps(fan) > 0)
  }

  /** The attempt is over because a task rejected; its unsettled siblings live on. */
  ghost predicate FanFailed(x: Context, h0: seq<Shared>, b: Backend, stragglers: seq<Proc>, left: Left)
    reads b
  {
    && Done(x, Variants, left, h0, b) && left.outcome.next.Throws?
    && stragglers == left.outcome.orphans && left.added == []
  }

  /** One await of whichever task moves. */
  method MoveTask(x: Context, b: Backend, ghost h0: seq<Shared>, n: nat, fan: VariantsPhase)
    returns (next: Option<VariantsPhase>, stragglers: seq<Proc>, ghost left: Left)
    requires n < MOST_AWAITS && fan.XFan? && FanSteps(fan) > 0 && Stands(x, Variants, n, Sizing(fan), h0, b)
    modifies b`images, b`variants, b`objects, b`convertIds, b`trace
    ensures next.Some? ==> Stands(x, Variants, n + 1, Sizing(next.value), h0, b)
    ensures next.Some? ==> FanSteps(next.value) < FanSteps(fan) && IsFan(next.value, fan.row)
    ensures next.None? ==> FanFailed(x, h0, b, stragglers, left)
  {
    ghost var at, h := Here(b, Goes(Sizing(fan))), b.History();
    var t := Unsettled(fan, x.moments[n].choice.vtype);
    SomeUnsettled(fan, x.moments[n].choice.vtype);
    b.Suspend(x.moments[n].world, x.moments[n].convertIds);
    var task := AdvanceTask(x.codec, b, x.imageId, fan.row.userId, t, TaskOf(fan, t), x.moments[n].choice.outcome);
    FanStep(x, n, fan, t, b.Now(), task);
    NextAwait(AttemptOf(x, Variants), n, at, h0, h, b.All());
    left := LeftAt(x, Variants, n, Sizing(fan));
    if task.None? { return None, Orphans(x.imageId, fan, t), left; }
    JoinedShape(WithTask(fan, t, task.value));
    return Some(Joined(WithTask(fan, t, task.value))), [], left;
  }

  /** Promise.all over the three sizes: the tasks interleave freely, and the first to reject ends the
      attempt while the others carry on as stragglers. */
  method ResizeAll(x: Context, b: Backend, ghost h0: seq<Shared>, row: Row, source: Blob)
    returns (ok: bool, stragglers: seq<Proc>, n: nat, ghost left: Left)
    requires Stands(x, Variants, 3, Sizing(FreshFan(row, source)), h0, b)
    modifies b`images, b`variants, b`objects, b`convertIds, b`trace
    ensures ok ==> n < MOST_AWAITS && Stands(x, Variants, n, Sizing(XComplete), h0, b) && stragglers == []
    ensures !ok ==> FanFailed(x, h0, b, stragglers, left)
  {
    var fan := FreshFan(row, source);
    left := Here(b, Throws);
    n := 3;
    while fan.XFan?
      invariant n + FanSteps(fan) <= 12 && IsFan(fan, row)
      invariant Stands(x, Variants, n, Sizing(fan), h0, b)
      decreases FanSteps(fan)
    {
      var next;
      next, stragglers, left := MoveTask(x, b, h0, n, fan);
      n := n + 1;
      if next.None? { return false, stragglers, n, left; }
      fan := next.value;
    }
    return true, [], n, left;
  }

  // ---- Validation --------------------------------------------------------------------------------

  lemma {:induction false} ValidateMarkLeft(x: Context, k: nat, row: Row)
    requires k < MOST_AWAITS
    ensures var w := x.moments[k].world;
            LeftAt(x, Validate, k, Validating(VMark(row)))
            == Written(x, k, Started(w, x.imageId), GoV(VGet(row)))
  {
  }

  method ValidateMark(x: Context, b: Backend, ghost h0: seq<Shared>, row: Row) returns (ok: bool)
    requires Stands(x, Validate, 1, Validating(VMark(row)), h0, b)
    modifies b`images, b`variants, b`objects, b`convertIds, b`trace
    ensures if ok then Stands(x, Validate, 2, Validating(VGet(row)), h0, b)
            else Done(x, Validate, Here(b, Throws), h0, b)
  {
    ghost var t, h := Here(b, Goes(Validating(VMark(row)))), b.History();
    b.Suspend(x.moments[1].world, x.moments[1].convertIds);
    ok := b.MarkProcessing(x.imageId, x.moments[1].choice.outcome);
    ValidateMarkLeft(x, 1, row);
    NextAwait(AttemptOf(x, Validate), 1, t, h0, h, b.All());
  }

  method ValidateGet(x: Context, b: Backend, ghost h0: seq<Shared>, row: Row) returns (body: Option<Blob>)
    requires Stands(x, Validate, 2, Validating(VGet(row)), h0, b)
    modifies b`images, b`variants, b`objects, b`convertIds, b`trace
    ensures body.Some? ==> Stands(x, Validate, 3, Validating(VCheck(row, body.value)), h0, b)
    ensures body.None? ==> Done(x, Validate, Here(b, Throws), h0, b)
  {
    ghost var t, h := Here(b, Goes(Validating(VGet(row)))), b.History();
    b.Suspend(x.moments[2].world, x.moments[2].convertIds);
    body := b.GetObject(row.original, x.moments[2].choice.outcome);
    NextAwait(AttemptOf(x, Validate), 2, t, h0, h, b.All());
  }

  /** The phase a verdict of the validator chain leads to. */
  function Judged(c: Codec, row: Row, body: Blob, verdict: Verdict): ValidatePhase {
    match verdict
    case Refuse(reasons) => VReject(reasons)
    case Admit(measures, heic) =>
      if heic then VDisplay(row, (c.heicToJpeg)(body), measures) else VAccept(measures, None)
  }

  method ValidateCheck(x: Context, b: Backend, ghost h0: seq<Shared>, row: Row, body: Blob) returns (ok: bool)
    requires Stands(x, Validate, 3, Validating(VCheck(row, body)), h0, b)
    modifies b`images, b`variants, b`objects, b`convertIds, b`trace
    ensures var judged := Judged(x.codec, row, body, x.moments[3].choice.verdict);
            if ok then Stands(x, Validate, 4, Validating(judged), h0, b)
            else Done(x, Validate, Here(b, Throws), h0, b)
  {
    ghost var t, h := Here(b, Goes(Validating(VCheck(row, body)))), b.History();
    b.Suspend(x.moments[3].world, x.moments[3].convertIds);
    ok := x.moments[3].choice.outcome.Ok?;
    NextAwait(AttemptOf(x, Validate), 3, t, h0, h, b.All());
  }

  lemma {:induction false} ValidateRejectLeft(x: Context, k: nat, reasons: Reasons)
    requires k < MOST_AWAITS
    ensures var w := x.moments[k].world;
            LeftAt(x, Validate, k, Validating(VReject(reasons)))
            == Written(x, k, Refused(w, x.imageId, REJECTED, reasons), Ends(Refuses))
  {
  }

  method ValidateReject(x: Context, b: Backend, ghost h0: seq<Shared>, reasons: Reasons) returns (ok: bool)
    requires Stands(x, Validate, 4, Validating(VReject(reasons)), h0, b)
    modifies b`images, b`variants, b`objects, b`convertIds, b`trace
    ensures if ok then Done(x, Validate, Here(b, Ends(Refuses)), h0, b)
            else Done(x, Validate, Here(b, Throws), h0, b)
  {
    ghost var t, h := Here(b, Goes(Validating(VReject(reasons)))), b.History();
    b.Suspend(x.moments[4].world, x.moments[4].convertIds);
    ok := b.MarkRejected(x.imageId, reasons, x.moments[4].choice.outcome);
    ValidateRejectLeft(x, 4, reasons);
    NextAwait(AttemptOf(x, Validate), 4, t, h0, h, b.All());
  }

  lemma {:induction false} ValidateDisplayLeft(x: Context, k: nat, row: Row, jpeg: Blob, measures: Measures)
    requires k < MOST_AWAITS
    ensures var w := x.moments[k].world;
            LeftAt(x, Validate, k, Validating(VDisplay(row, jpeg, measures)))
            == Written(x, k, Some(Put(w, DisplayOf(row.original), jpeg)),
                       GoV(VAccept(measures, Some(DisplayOf(row.original)))))
  {
  }

  method ValidateDisplay(x: Context, b: Backend, ghost h0: seq<Shared>, row: Row, jpeg: Blob, measures: Measures)
    returns (ok: bool)
    requires Stands(x, Validate, 4, Validating(VDisplay(row, jpeg, measures)), h0, b)
    modifies b`images, b`variants, b`objects, b`convertIds, b`trace
    ensures if ok then Stands(x, Validate, 5, Validating(VAccept(measures, Some(DisplayOf(row.original)))), h0, b)
            else Done(x, Validate, Here(b, Throws), h0, b)
  {
    ghost var t, h := Here(b, Goes(Validating(VDisplay(row, jpeg, measures)))), b.History();
    b.Suspend(x.moments[4].world, x.moments[4].convertIds);
    ok := b.PutObject(DisplayOf(row.original), jpeg, x.moments[4].choice.outcome);
    ValidateDisplayLeft(x, 4, row, jpeg, measures);
    NextAwait(AttemptOf(x, Validate), 4, t, h0, h, b.All());
  }

  lemma {:induction false} ValidateAcceptLeft(x: Context, k: nat, measures: Measures, display: Option<Key>)
    requires k < MOST_AWAITS
    ensures var w := x.moments[k].world;
            LeftAt(x, Validate, k, Validating(VAccept(measures, display)))
            == Written(x, k, Accepted(w, x.imageId, measures, display), GoV(VHandOff))
  {
  }

  method ValidateAccept(x: Context, b: Backend, ghost h0: seq<Shared>, n: nat, measures: Measures, display: Option<Key>)
    returns (ok: bool)
    requires n < MOST_AWAITS && Stands(x, Validate, n, Validating(VAccept(measures, display)), h0, b)
    modifies b`images, b`variants, b`objects, b`convertIds, b`trace
    ensures if ok then Stands(x, Validate, n + 1, Validating(VHandOff), h0, b)
            else Done(x, Validate, Here(b, Throws), h0, b)
  {
    ghost var t, h := Here(b, Goes(Validating(VAccept(measures, display)))), b.History();
    b.Suspend(x.moments[n].world, x.moments[n].convertIds);
    ok := b.MarkAccepted(x.imageId, measures, display, x.moments[n].choice.outcome);
    ValidateAcceptLeft(x, n, measures, display);
    NextAwait(AttemptOf(x, Validate), n, t, h0, h, b.All());
  }

  method ValidateHandOff(x: Context, b: Backend, ghost h0: seq<Shared>, n: nat) returns (result: Next, ghost left: Left)
    requires n < MOST_AWAITS && Stands(x, Validate, n, Validating(VHandOff), h0, b)
    modifies b
    ensures Done(x, Validate, left, h0, b) && result == left.outcome.next && b.added == old(b.added) + left.added
  {
    ghost var t, h := Here(b, Goes(Validating(VHandOff))), b.History();
    b.Suspend(x.moments[n].world, x.moments[n].convertIds);
    var ok := b.EnqueueConvert(x.imageId, false, x.moments[n].choice.outcome);
    NextAwait(AttemptOf(x, Validate), n, t, h0, h, b.All());
    result, left := if ok then Ends(HandedOff) else Throws, LeftAt(x, Validate, n, Validating(VHandOff));
  }

  method ValidateJob(x: Context, b: Backend) returns (result: Next, ghost left: Left)
    modifies b
    ensures Done(x, Validate, left, old(b.History()), b) && result == left.outcome.next
    ensures b.added == old(b.added) + left.added
  {
    ghost var h0 := b.History();
    var ok, found := FindRow(x, b, h0, Validate);
    if !ok { return Throws, Here(b, Throws); }
    if found.None? { return Ends(Drops), Here(b, Ends(Drops)); }
    var row := found.value;
    ok := ValidateMark(x, b, h0, row);
    if !ok { return Throws, Here(b, Throws); }
    var buffer := ValidateGet(x, b, h0, row);
    if buffer.None? { return Throws, Here(b, Throws); }
    ok := ValidateCheck(x, b, h0, row, buffer.value);
    if !ok { return Throws, Here(b, Throws); }
    result, left := PersistVerdict(x, b, h0, row, buffer.value, x.moments[3].choice.verdict);
  }

  method PersistVerdict(x: Context, b: Backend, ghost h0: seq<Shared>, row: Row, buffer: Blob, verdict: Verdict)
    returns (result: Next, ghost left: Left)
    requires Stands(x, Validate, 4, Validating(Judged(x.codec, row, buffer, verdict)), h0, b)
    modifies b
    ensures Done(x, Validate, left, h0, b) && result == left.outcome.next && b.added == old(b.added) + left.added
  {
    match verdict {
      case Refuse(reasons) =>
        var ok := ValidateReject(x, b, h0, reasons);
        result := if ok then Ends(Refuses) else Throws;
        left := Here(b, result);
      case Admit(measures, heic) =>
        var n, display := 4, None;
        if heic {
          var ok := ValidateDisplay(x, b, h0, row, (x.codec.heicToJpeg)(buffer), measures);
          if !ok { return Throws, Here(b, Throws); }
          n, display := 5, Some(DisplayOf(row.original));
        }
        var ok := ValidateAccept(x, b, h0, n, measures, display);
        if !ok { return Throws, Here(b, Throws); }
        result, left := ValidateHandOff(x, b, h0, n + 1);
    }
  }

  // ---- Final failure -----------------------------------------------------------------------------

  /** What a row shows of a job given up. */
  predicate ShowsFailure(row: Row, stage: Stage, message: string) {
    row.status.FAILED? &&
    match stage
    case Validate => row.rejectionReasons == Some([RejectionReason("INTERNAL_ERROR", message)])
    case Convert => row.processingError == Some("[convert] " + message)
    case Compress => row.processingError == Some("[compress] " + message)
    case Variants => row.processingError == Some("[variants] " + message)
  }

  /** The 'failed' listeners: silent while retries remain. */
  method OnFailed(b: Backend, job: Job, ch: Choice)
    modifies b
    ensures b.Now() == if job.attemptsMade < MAX_ATTEMPTS then old(b.Now())
                       else HandlerTurn(INITIAL.(w := old(b.Now())), job, ch).world
    ensures job.attemptsMade >= 3 && job.imageId in old(b.images) && !ch.outcome.Rejected? ==>
              job.imageId in b.images && ShowsFailure(b.images[job.imageId], job.stage, ch.message)
    ensures b.added == old(b.added) && b.convertIds == old(b.convertIds) && b.trace == old(b.trace)
  {
    if job.attemptsMade < MAX_ATTEMPTS { return; }
    assert "[" + "convert" + "] " == "[convert] ";
    assert "[" + "compress" + "] " == "[compress] ";
    assert "[" + "variants" + "] " == "[variants] ";
    if job.stage.Validate? {
      var ok := b.MarkFailed(job.imageId, ch.message, ch.outcome);
    } else {
      var ok := b.MarkProcessingFailed(job.imageId, StageName(job.stage), ch.message, ch.outcome);
    }
  }

  // ---- The attempt and the step system -------------------------------------------------------------

  predicate OfStage(stage: Stage, phase: Phase) {
    match phase
    case Queued => true
    case Validating(_) => stage.Validate?
    case Converting(_) => stage.Convert?
    case Compressing(_) => stage.Compress?
    case Sizing(fan) => stage.Variants? && (fan.XFan? ==> FanSteps(fan) > 0)
    case Failing => false
  }

  lemma {:induction false} FanAwaitShrinks(x: Context, k: nat, fan: VariantsPhase)
    requires k < MOST_AWAITS && fan.XFan? && FanSteps(fan) > 0
    ensures var next := AwaitAt(x, Variants, k, Sizing(fan)).next;
            next.Goes? ==> OfStage(Variants, next.phase) && Awaits(Variants, next.phase) < Awaits(Variants, Sizing(fan))
  {
    var m := x.moments[k];
    var t := Unsettled(fan, m.choice.vtype);
    SomeUnsettled(fan, m.choice.vtype);
    var (w, next) := TaskAwait(x.codec, m.world, x.imageId, fan.row.userId, t, TaskOf(fan, t), m.choice.outcome);
    FanStep(x, k, fan, t, w, next);
    if next.Some? { JoinedShape(WithTask(fan, t, next.value)); }
  }

  lemma {:induction false} AwaitShrinks(x: Context, stage: Stage, k: nat, phase: Phase)
    requires k < MOST_AWAITS && OfStage(stage, phase)
    ensures var next := AwaitAt(x, stage, k, phase).next;
            next.Goes? ==> OfStage(stage, next.phase) && Awaits(stage, next.phase) < Awaits(stage, phase)
  {
    if phase.Sizing? && phase.x.XFan? { FanAwaitShrinks(x, k, phase.x); }
  }

  /** Every attempt ends, whatever its surroundings. */
  lemma {:induction false} AttemptEnds(x: Context, stage: Stage) returns (run: seq<Left>)
    ensures IsRun(AttemptOf(x, stage), run) && !run[|run| - 1].outcome.next.Goes?
  {
    var p := AttemptOf(x, stage);
    run := [p.start];
    while run[|run| - 1].outcome.next.Goes?
      invariant IsRun(p, run)
      invariant var next := run[|run| - 1].outcome.next;
                next.Goes? ==> OfStage(stage, next.phase) && |run| - 1 + Awaits(stage, next.phase) <= MOST_AWAITS
      decreases MOST_AWAITS + 1 - |run|
    {
      AwaitShrinks(x, stage, |run| - 1, run[|run| - 1].outcome.next.phase);
      run := Extended(p, run);
    }
  }

  /** What the contracts of the job bodies say, from the run's side: the surroundings determine one run;
      it ends; and a body that is done has gone through its shared states and returns its outcome. */
  lemma {:induction false} DoneMeansRun(x: Context, stage: Stage, left: Left, h0: seq<Shared>, b: Backend)
    requires Done(x, stage, left, h0, b)
    ensures var p := AttemptOf(x, stage);
            exists run :: IsRun(p, run) && run[|run| - 1] == left && !left.outcome.next.Goes?
                       && b.History() == h0 + Views(p, run)
  {
    var run := AttemptEnds(x, stage);
    assert IsRun(AttemptOf(x, stage), run);
  }

  /** The later job of the same run, or of a forked one. */
  function Spawned(job: Job, added: seq<(Stage, ImageId)>): seq<Proc> {
    var attempts := job.attempts + if job.phase.Queued? then 1 else 0;
    if added == [] then [] else [Fresh(job.imageId, job.entry, added[0].0, attempts)]
  }

  function TallyAfter(t: Tally, next: Next, spawned: nat): Tally {
    match next
    case Goes(_) => t
    case Throws => t.(forked := t.forked + spawned)
    case Ends(HandedOff) => if spawned == 0 then t.(collapsed := t.collapsed + 1) else t
    case Ends(Completes) => t.(completed := t.completed + 1)
    case Ends(Refuses) => t.(refused := t.refused + 1)
    case Ends(Drops) => t.(dropped := t.dropped + 1)
  }

  /** What an attempt's await leaves, as a turn of the job: the tables, the job itself, the jobs and stragglers
      it leaves, the job ids and the books. */
  predicate IsTurn(t: Turn, s: State, job: Job, l: Left) {
    var o, jobs := l.outcome, Spawned(job, l.added);
    var attempts := job.attempts + if job.phase.Queued? then 1 else 0;
    && t.world == o.world && t.spawned == o.orphans + jobs && t.born == s.born && t.convertIds == l.convertIds
    && t.self == (match o.next
                  case Goes(phase) => Some(Worker(job.(attempts := attempts, phase := phase)))
                  case Throws => Some(Retried(job, attempts))
                  case Ends(_) => None)
    && t.lost == (if || (o.next == Ends(HandedOff) && jobs == [])
                     || (o.next.Throws? && jobs != [] && job.stage.Validate?)
                  then s.lost + {job.imageId} else s.lost)
    && t.tally == TallyAfter(s.tally, o.next, |jobs|)
  }

  /** Of the job only the image, the stage and the phase matter to its await. */
  lemma {:induction false} AwaitOfPhase(c: Codec, w: World, job: Job, ch: Choice)
    ensures JobAwait(c, w, Job(job.imageId, job.stage, job.stage, 0, 0, job.phase), ch) == JobAwait(c, w, job, ch)
  {
  }

  function LeftBy(s: State, job: Job, o: Outcome): Left {
    var adds := o.enqueued.Some? && !Deduplicated(s, job);
    Left(o, if adds && job.stage.Validate? then s.convertIds + {job.imageId} else s.convertIds,
         if adds then [(o.enqueued.value, job.imageId)] else [])
  }

  lemma {:induction false} TurnOfAwait(c: Codec, s: State, job: Job, ch: Choice)
    ensures IsTurn(JobTurn(c, s, job, ch), s, job, LeftBy(s, job, JobAwait(c, s.w, job, ch)))
  {
  }

  /** Each await of an attempt is the step the system takes when it resumes the job among the same shared
      states. */
  lemma {:induction false} AwaitIsTurn(x: Context, s: State, job: Job, k: nat)
    requires k < MOST_AWAITS && job.imageId == x.imageId
    requires s.w == x.moments[k].world && s.convertIds == x.moments[k].convertIds
    ensures IsTurn(JobTurn(x.codec, s, job, Fitted(job.phase, x.moments[k].choice)), s, job,
                   LeftAt(x, job.stage, k, job.phase))
  {
    var ch := Fitted(job.phase, x.moments[k].choice);
    AwaitOfPhase(x.codec, s.w, job, ch);
    TurnOfAwait(x.codec, s, job, ch);
    assert LeftAt(x, job.stage, k, job.phase) == LeftBy(s, job, JobAwait(x.codec, s.w, job, ch));
  }
}
