/**
 * The image service's calls as the program writes them -- upload, seedForPipeline, reprocess, remove --
 * each proved to be the step system's process, await by await, whatever happens in between.
 */
module Services {
  import opened Wrappers
  import opened Keys
  import opened Tables
  import opened Machine
  import opened BackendState
  import opened Runs
  import opened Workers

  /** The surroundings of one call: the uploads known, and at each await what is shared and what the
      environment decides. */
  datatype Caller = Caller(codec: Codec, srcs: Sources, moments: Moments)

  function StateAt(x: Caller, k: nat): State
    requires k < MOST_AWAITS
  {
    INITIAL.(srcs := x.srcs, w := x.moments[k].world, convertIds := x.moments[k].convertIds)
  }

  /** Of the two object deletes only one still pending can run next. */
  function Picked(p: Proc, ch: Choice): Choice {
    if p.Removing? && p.remove.DeleteObjects? then ch.(first := FirstNext(p.remove.original, p.remove.display, ch))
    else ch
  }

  predicate FirstNext(original: Option<Key>, display: Option<Key>, ch: Choice) {
    original.Some? && (ch.first || display.None?)
  }

  function JobsIn(spawned: seq<Proc>): seq<(Stage, ImageId)> {
    if spawned == [] then []
    else (if spawned[0].Worker? then [(spawned[0].job.stage, spawned[0].job.imageId)] else []) + JobsIn(spawned[1..])
  }

  // ---- Calls -------------------------------------------------------------------------------------

  /** What one await of a call leaves: the tables and the store, the call itself (None: it is over), the
      jobs it added and the deterministic job ids then present. */
  datatype Progress = Progress(world: World, self: Option<Proc>, added: seq<(Stage, ImageId)>, convertIds: set<ImageId>)

  function ProgressOf(t: Turn): Progress {
    Progress(t.world, t.self, JobsIn(t.spawned), t.convertIds)
  }

  function TurnAt(x: Caller, k: nat, q: Proc): Turn
    requires k < MOST_AWAITS
  {
    ProcTurn(x.codec, StateAt(x, k), q, Picked(q, x.moments[k].choice))
  }

  /** The call of process p, as the step system has it. */
  function CallOf(x: Caller, p: Proc): Script<Progress, Shared> {
    Script(
      Progress(x.moments[0].world, Some(p), [], x.moments[0].convertIds),
      (k: nat, t: Progress) => if k < MOST_AWAITS && t.self.Some? then ProgressOf(TurnAt(x, k, t.self.value)) else t,
      (t: Progress) => t.self.None?,
      (t: Progress) => Shared(t.world, t.convertIds))
  }

  /** An await that leaves what is shared as it is now and adds no job. */
  ghost function Here(b: Backend, self: Option<Proc>): Progress
    reads b
  {
    Progress(b.Now(), self, [], b.convertIds)
  }

  /** After k awaits, each of which left the backend in the world the step system has, the call stands
      at q, with nothing added so far. */
  ghost predicate Stands(x: Caller, p: Proc, k: nat, q: Proc, h0: seq<Shared>, b: Backend)
    reads b
  {
    Follows(CallOf(x, p), k, Here(b, Some(q)), h0, b.History())
  }

  /** The call is over and every await left the backend in the world the step system has. */
  ghost predicate Done(x: Caller, p: Proc, t: Progress, h0: seq<Shared>, b: Backend)
    reads b
  {
    t.self.None? && Ended(CallOf(x, p), t, h0, b.History())
  }

  /** Over, with nothing added. */
  ghost predicate Over(x: Caller, p: Proc, h0: seq<Shared>, b: Backend)
    reads b
  {
    Done(x, p, Here(b, None), h0, b)
  }

  datatype Reply = Success | NotFound | Failure | TooLarge | Unsupported(mime: string)

  // What each await that ends in a write makes of its call.

  lemma JobsInOne(job: Job)
    ensures JobsIn([Worker(job)]) == [(job.stage, job.imageId)]
  {
    assert [Worker(job)][1..] == [];
  }

  lemma {:induction false} EntryTurn(x: Caller, k: nat, i: ImageId, entry: Stage)
    requires k < MOST_AWAITS && i in x.srcs
    ensures var out, known := x.moments[k].choice.outcome, entry.Convert? && i in x.moments[k].convertIds;
            var adds := !out.Rejected? && !known;
            ProgressOf(TurnAt(x, k, Creating(i, entry, EnqueueEntry)))
            == Progress(x.moments[k].world, None, if adds then [(entry, i)] else [],
                        if adds && entry.Convert? then x.moments[k].convertIds + {i} else x.moments[k].convertIds)
  {
    JobsInOne(Job(i, entry, entry, 0, 0, Queued));
  }

  lemma {:induction false} AnewTurn(x: Caller, k: nat, i: ImageId)
    requires k < MOST_AWAITS
    ensures ProgressOf(TurnAt(x, k, Reprocessing(i, EnqueueFresh)))
         == Progress(x.moments[k].world, None, if x.moments[k].choice.outcome.Rejected? then [] else [(Convert, i)],
                     x.moments[k].convertIds)
  {
    JobsInOne(Job(i, Convert, Convert, 0, 0, Queued));
  }

  lemma {:induction false} MarkTurn(x: Caller, k: nat, i: ImageId)
    requires k < MOST_AWAITS
    ensures var (w, ok) := Effect(x.moments[k].world, StatusSet(x.moments[k].world, i, PROCESSING_CONVERT),
                                  x.moments[k].choice.outcome);
            ProgressOf(TurnAt(x, k, Reprocessing(i, MarkConvert)))
            == Progress(w, if ok then Some(Reprocessing(i, EnqueueFresh)) else None, [], x.moments[k].convertIds)
  {
  }

  lemma {:induction false} DeleteTurn(x: Caller, k: nat, i: ImageId)
    requires k < MOST_AWAITS
    ensures var w := Effect(x.moments[k].world, Deleted(x.moments[k].world, i), x.moments[k].choice.outcome).0;
            ProgressOf(TurnAt(x, k, Removing(i, DeleteRow))) == Progress(w, None, [], x.moments[k].convertIds)
  {
  }

  // ---- upload, seedForPipeline -----------------------------------------------------------------------

  method CreatePut(x: Caller, b: Backend, ghost h0: seq<Shared>, i: ImageId, entry: Stage) returns (ok: bool)
    requires i in x.srcs && h0 == b.History()
    modifies b`images, b`variants, b`objects, b`convertIds, b`trace
    ensures var p := Creating(i, entry, PutOriginal);
            if ok then Stands(x, p, 1, Creating(i, entry, InsertRow), h0, b) else Over(x, p, h0, b)
  {
    ghost var p := CallOf(x, Creating(i, entry, PutOriginal));
    AtTheStart(p, h0);
    var src := x.srcs[i];
    b.Suspend(x.moments[0].world, x.moments[0].convertIds);
    ok := b.PutObject(Key(src.userId, i, Original(src.ext)), src.bytes, x.moments[0].choice.outcome);
    NextAwait(p, 0, p.start, h0, h0, b.All());
  }

  method CreateInsert(x: Caller, b: Backend, ghost h0: seq<Shared>, ghost p: Proc, i: ImageId, entry: Stage)
    returns (ok: bool)
    requires i in x.srcs && Stands(x, p, 1, Creating(i, entry, InsertRow), h0, b)
    modifies b`images, b`variants, b`objects, b`convertIds, b`trace
    ensures if ok then Stands(x, p, 2, Creating(i, entry, EnqueueEntry), h0, b) else Over(x, p, h0, b)
  {
    ghost var t, h := Here(b, Some(Creating(i, entry, InsertRow))), b.History();
    b.Suspend(x.moments[1].world, x.moments[1].convertIds);
    ok := b.Create(i, NewRow(x.srcs[i], i, entry), x.moments[1].choice.outcome);
    NextAwait(CallOf(x, p), 1, t, h0, h, b.All());
  }

  method CreateEnqueue(x: Caller, b: Backend, ghost h0: seq<Shared>, ghost p: Proc, i: ImageId, entry: Stage)
    returns (ok: bool, ghost t: Progress)
    requires i in x.srcs && (entry.Validate? || entry.Convert?)
    requires Stands(x, p, 2, Creating(i, entry, EnqueueEntry), h0, b)
    modifies b
    ensures Done(x, p, t, h0, b) && b.added == old(b.added) + t.added
    ensures ok ==> t.added != [] || (entry.Convert? && i in x.moments[2].convertIds)
  {
    ghost var at, h := Here(b, Some(Creating(i, entry, EnqueueEntry))), b.History();
    b.Suspend(x.moments[2].world, x.moments[2].convertIds);
    if entry.Validate? {
      ok := b.Enqueue(Validate, i, x.moments[2].choice.outcome);
    } else {
      ok := b.EnqueueConvert(i, false, x.moments[2].choice.outcome);
    }
    t := ProgressOf(TurnAt(x, 2, Creating(i, entry, EnqueueEntry)));
    EntryTurn(x, 2, i, entry);
    NextAwait(CallOf(x, p), 2, at, h0, h, b.All());
  }

  /** `entry` is Validate for upload and Convert for seedForPipeline. */
  method Create(x: Caller, b: Backend, i: ImageId, entry: Stage) returns (reply: Reply, ghost t: Progress)
    requires i in x.srcs && (entry.Validate? || entry.Convert?)
    modifies b
    ensures Done(x, Creating(i, entry, PutOriginal), t, old(b.History()), b)
    ensures b.added == old(b.added) + t.added
    ensures reply.Success? ==> t.added != [] || (entry.Convert? && i in x.moments[2].convertIds)
    ensures reply.Success? || reply.Failure?
  {
    ghost var h0, p := b.History(), Creating(i, entry, PutOriginal);
    var ok := CreatePut(x, b, h0, i, entry);
    if !ok { return Failure, Here(b, None); }
    ok := CreateInsert(x, b, h0, p, i, entry);
    if !ok { return Failure, Here(b, None); }
    ok, t := CreateEnqueue(x, b, h0, p, i, entry);
    reply := if ok then Success else Failure;
  }

  datatype Input = Input(userId: string, declaredMime: string, buffer: Blob)

  /** What the file sniffer makes of the bytes. */
  datatype Sniff = Unreadable | Unknown | Known(mime: string, ext: Extension)

  const ALLOWED_MIMES: set<string> := {"image/jpeg", "image/png", "image/heic", "image/heif"}

  /** The media type of an input, taken from the bytes where they tell it. */
  function TypeOf(input: Input, sniff: Sniff): string {
    match sniff
    case Known(mime, _) => mime
    case _ => input.declaredMime
  }

  /** What gets stored of an input. */
  predicate IsSourceOf(src: Source, input: Input, sniff: Sniff) {
    && src.userId == input.userId && src.bytes == input.buffer
    && match sniff
       case Known(mime, ext) => src.mimeType == mime && src.ext == ext
       case _ => src.mimeType == input.declaredMime && src.ext == "bin"
  }

  predicate IsAllowed(mime: string) {
    mime == "image/jpeg" || mime == "image/png" || mime == "image/heic" || mime == "image/heif"
  }

  /** The whole of upload (entry Validate) and seedForPipeline (entry Convert): an input too large, not
      readable or of a type not allowed leaves no trace at all; any other is created.  What the bytes tell of
      the type goes before what the client declares. */
  method Receive(x: Caller, b: Backend, maxBytes: nat, input: Input, sniff: Sniff, i: ImageId, entry: Stage)
    returns (reply: Reply, ghost t: Progress)
    requires i in x.srcs && IsSourceOf(x.srcs[i], input, sniff) && (entry.Validate? || entry.Convert?)
    modifies b
    ensures reply.TooLarge? <==> |input.buffer| > maxBytes
    ensures |input.buffer| <= maxBytes && sniff.Unreadable? ==> reply.Failure?
    ensures |input.buffer| <= maxBytes && sniff.Known? ==> (reply.Unsupported? <==> !IsAllowed(sniff.mime))
    ensures |input.buffer| <= maxBytes && sniff.Unknown? ==> (reply.Unsupported? <==> !IsAllowed(input.declaredMime))
    ensures if |input.buffer| <= maxBytes && !sniff.Unreadable? && IsAllowed(x.srcs[i].mimeType)
            then Done(x, Creating(i, entry, PutOriginal), t, old(b.History()), b) && b.added == old(b.added) + t.added
            else b.History() == old(b.History()) && b.added == old(b.added)
    ensures reply.Success? ==> t.added != [] || (entry.Convert? && i in x.moments[2].convertIds)
  {
    t := Here(b, None);
    if |input.buffer| > maxBytes { return TooLarge, t; }
    if sniff.Unreadable? { return Failure, t; }
    var mime := TypeOf(input, sniff);
    if mime !in ALLOWED_MIMES { return Unsupported(mime), t; }
    reply, t := Create(x, b, i, entry);
  }

  // ---- reprocess -----------------------------------------------------------------------------------------

  method FindImage(x: Caller, b: Backend, ghost h0: seq<Shared>, ghost p: Proc, i: ImageId)
    returns (ok: bool, row: Option<Row>)
    requires p == Reprocessing(i, FindRow) || p == Removing(i, FindVictim)
    requires h0 == b.History()
    modifies b`images, b`variants, b`objects, b`convertIds, b`trace
    ensures b.Now() == x.moments[0].world && ok == x.moments[0].choice.outcome.Ok?
    ensures row == if i in b.images then Some(b.images[i]) else None
    ensures if ok && row.Some? then Stands(x, p, 1, Found(p, row.value), h0, b) else Over(x, p, h0, b)
    ensures OneMore(h0, b.History())
  {
    ghost var s := CallOf(x, p);
    AtTheStart(s, h0);
    b.Suspend(x.moments[0].world, x.moments[0].convertIds);
    ok, row := b.FindById(i, x.moments[0].choice.outcome);
    NextAwait(s, 0, s.start, h0, h0, b.All());
  }

  /** Where a call goes once it has found its row. */
  function Found(p: Proc, row: Row): Proc {
    match p
    case Reprocessing(i, _) => Reprocessing(i, MarkConvert)
    case Removing(i, _) => Removing(i, DeleteObjects(Some(row.original), row.display))
    case _ => p
  }

  method MarkConverting(x: Caller, b: Backend, ghost h0: seq<Shared>, ghost p: Proc, i: ImageId) returns (ok: bool)
    requires Stands(x, p, 1, Reprocessing(i, MarkConvert), h0, b)
    modifies b`images, b`variants, b`objects, b`convertIds, b`trace
    ensures if ok then Stands(x, p, 2, Reprocessing(i, EnqueueFresh), h0, b) else Over(x, p, h0, b)
  {
    ghost var t, h := Here(b, Some(Reprocessing(i, MarkConvert))), b.History();
    b.Suspend(x.moments[1].world, x.moments[1].convertIds);
    ok := b.SetStatus(i, PROCESSING_CONVERT, x.moments[1].choice.outcome);
    MarkTurn(x, 1, i);
    NextAwait(CallOf(x, p), 1, t, h0, h, b.All());
  }

  method EnqueueAnew(x: Caller, b: Backend, ghost h0: seq<Shared>, ghost p: Proc, i: ImageId)
    returns (ok: bool, ghost t: Progress)
    requires Stands(x, p, 2, Reprocessing(i, EnqueueFresh), h0, b)
    modifies b
    ensures Done(x, p, t, h0, b) && b.added == old(b.added) + t.added
    ensures ok ==> t.added == [(Convert, i)]
  {
    ghost var at, h := Here(b, Some(Reprocessing(i, EnqueueFresh))), b.History();
    b.Suspend(x.moments[2].world, x.moments[2].convertIds);
    ok := b.EnqueueConvert(i, true, x.moments[2].choice.outcome);
    t := ProgressOf(TurnAt(x, 2, Reprocessing(i, EnqueueFresh)));
    AnewTurn(x, 2, i);
    NextAwait(CallOf(x, p), 2, at, h0, h, b.All());
  }

  method Reprocess(x: Caller, b: Backend, i: ImageId) returns (reply: Reply, ghost t: Progress)
    modifies b
    ensures Done(x, Reprocessing(i, FindRow), t, old(b.History()), b)
    ensures b.added == old(b.added) + t.added
    ensures reply.Success? ==> t.added == [(Convert, i)]
    ensures reply.NotFound? <==> x.moments[0].choice.outcome.Ok? && i !in x.moments[0].world.images
  {
    ghost var h0, p := b.History(), Reprocessing(i, FindRow);
    var ok, found := FindImage(x, b, h0, p, i);
    if !ok { return Failure, Here(b, None); }
    if found.None? { return NotFound, Here(b, None); }
    ok := MarkConverting(x, b, h0, p, i);
    if !ok { return Failure, Here(b, None); }
    ok, t := EnqueueAnew(x, b, h0, p, i);
    reply := if ok then Success else Failure;
  }

  // ---- remove --------------------------------------------------------------------------------------------

  function Deleting(original: Option<Key>, display: Option<Key>): RemoveStep {
    if original.Some? || display.Some? then DeleteObjects(original, display) else DeleteRow
  }

  /** Await n of the call left the store without the object under the key, and otherwise as it found it -- or
      just as it found it, if it rejected. */
  predicate Deletes(x: Caller, began: nat, h: seq<Shared>, n: nat, key: Key) {
    && n < MOST_AWAITS && began + n < |h|
    && h[began + n].world.objects ==
         if x.moments[n].choice.outcome.Rejected? then x.moments[n].world.objects
         else x.moments[n].world.objects - {key}
  }

  /** Two awaits of the call, after the one that found the row: one deletes the row's original, the other its
      display object if there is one. */
  ghost predicate DeletesBoth(x: Caller, began: nat, h: seq<Shared>, row: Row) {
    exists m, n :: DeletesAt(x, began, h, row, m, n)
  }

  predicate DeletesAt(x: Caller, began: nat, h: seq<Shared>, row: Row, m: nat, n: nat) {
    && 1 <= m && Deletes(x, began, h, m, row.original)
    && (row.display.Some? ==> 1 <= n && n != m && Deletes(x, began, h, n, row.display.value))
  }

  /** What is left behind grows, one shared state at a time. */
  predicate OneMore(h: seq<Shared>, h': seq<Shared>) {
    |h'| == |h| + 1 && h'[..|h|] == h
  }

  /** How far a call has come with the deletes of its row, at await n: what is still to go is named, and what
      is not was deleted by the awaits `first` and `second`. */
  ghost predicate Sweeping(x: Caller, began: nat, h: seq<Shared>, row: Row, original: Option<Key>,
                           display: Option<Key>, n: nat, first: nat, second: nat)
  {
    && |h| == began + n
    && (if original.Some? then original.value == row.original
        else 1 <= first < n && Deletes(x, began, h, first, row.original))
    && (if display.Some? then display == row.display
        else row.display.Some? ==> 1 <= second < n && Deletes(x, began, h, second, row.display.value))
    && (original.None? && display.None? && row.display.Some? ==> first != second)
  }

  /** The two deletes still due, once the scheduler has picked one. */
  function AfterDelete(original: Option<Key>, display: Option<Key>, ch: Choice): (Option<Key>, Option<Key>) {
    if FirstNext(original, display, ch) then (None, display) else (original, None)
  }

  lemma {:induction false} DeletesStay(x: Caller, began: nat, h: seq<Shared>, h': seq<Shared>, n: nat, key: Key)
    requires OneMore(h, h') && Deletes(x, began, h, n, key)
    ensures Deletes(x, began, h', n, key)
  {
    assert h'[..|h|][began + n] == h'[began + n];
  }

  lemma {:induction false} SweepsOneMore(x: Caller, began: nat, h: seq<Shared>, h': seq<Shared>, row: Row,
                                         original: Option<Key>, display: Option<Key>, n: nat, first: nat, second: nat)
    returns (first': nat, second': nat)
    requires 1 <= n < MOST_AWAITS && (original.Some? || display.Some?) && OneMore(h, h')
    requires Sweeping(x, began, h, row, original, display, n, first, second)
    requires var ch := x.moments[n].choice;
             Deletes(x, began, h', n, if FirstNext(original, display, ch) then original.value else display.value)
    ensures var (original', display') := AfterDelete(original, display, x.moments[n].choice);
            Sweeping(x, began, h', row, original', display', n + 1, first', second')
  {
    var picked := FirstNext(original, display, x.moments[n].choice);
    first', second' := if picked then n else first, if picked then second else n;
    if original.None? { DeletesStay(x, began, h, h', first, row.original); }
    if display.None? && row.display.Some? { DeletesStay(x, began, h, h', second, row.display.value); }
  }

  lemma {:induction false} SweepsBoth(x: Caller, began: nat, h: seq<Shared>, h': seq<Shared>, row: Row, n: nat,
                                      first: nat, second: nat)
    requires Sweeping(x, began, h, row, None, None, n, first, second) && OneMore(h, h')
    ensures DeletesBoth(x, began, h', row)
  {
    DeletesStay(x, began, h, h', first, row.original);
    if row.display.Some? { DeletesStay(x, began, h, h', second, row.display.value); }
    assert DeletesAt(x, began, h', row, first, second);
  }

  /** One of the two deletes, whichever the scheduler picks; its failure is ignored. */
  method DeleteOne(x: Caller, b: Backend, ghost h0: seq<Shared>, ghost p: Proc, n: nat, i: ImageId,
                   original: Option<Key>, display: Option<Key>)
    returns (original': Option<Key>, display': Option<Key>)
    requires n < MOST_AWAITS && (original.Some? || display.Some?)
    requires Stands(x, p, n, Removing(i, DeleteObjects(original, display)), h0, b)
    modifies b`images, b`variants, b`objects, b`convertIds, b`trace
    ensures Stands(x, p, n + 1, Removing(i, Deleting(original', display')), h0, b)
    ensures (original', display') == AfterDelete(original, display, x.moments[n].choice)
    ensures OneMore(old(b.History()), b.History())
    ensures var ch, key := x.moments[n].choice,
                           if FirstNext(original, display, x.moments[n].choice) then original.value else display.value;
            b.objects == if ch.outcome.Rejected? then x.moments[n].world.objects
                         else x.moments[n].world.objects - {key}
  {
    ghost var at := Here(b, Some(Removing(i, DeleteObjects(original, display))));
    ghost var h := b.History();
    b.Suspend(x.moments[n].world, x.moments[n].convertIds);
    original', display' := original, display;
    if FirstNext(original, display, x.moments[n].choice) {
      var ok := b.DeleteObject(original.value, x.moments[n].choice.outcome);
      original' := None;
    } else {
      var ok := b.DeleteObject(display.value, x.moments[n].choice.outcome);
      display' := None;
    }
    NextAwait(CallOf(x, p), n, at, h0, h, b.All());
  }

  method DeleteLast(x: Caller, b: Backend, ghost h0: seq<Shared>, ghost p: Proc, n: nat, i: ImageId) returns (ok: bool)
    requires n < MOST_AWAITS && Stands(x, p, n, Removing(i, DeleteRow), h0, b)
    modifies b`images, b`variants, b`objects, b`convertIds, b`trace
    ensures Over(x, p, h0, b) && (ok ==> i !in b.images) && OneMore(old(b.History()), b.History())
  {
    ghost var at, h := Here(b, Some(Removing(i, DeleteRow))), b.History();
    b.Suspend(x.moments[n].world, x.moments[n].convertIds);
    ok := b.DeleteImage(i, x.moments[n].choice.outcome);
    DeleteTurn(x, n, i);
    NextAwait(CallOf(x, p), n, at, h0, h, b.All());
  }

  /** The same, in the books of the call. */
  method DeleteNext(x: Caller, b: Backend, ghost h0: seq<Shared>, ghost p: Proc, n: nat, i: ImageId, ghost row: Row,
                    original: Option<Key>, display: Option<Key>, ghost first: nat, ghost second: nat)
    returns (original': Option<Key>, display': Option<Key>, ghost first': nat, ghost second': nat)
    requires 1 <= n < MOST_AWAITS && (original.Some? || display.Some?)
    requires Stands(x, p, n, Removing(i, DeleteObjects(original, display)), h0, b)
    requires Sweeping(x, |h0|, b.History(), row, original, display, n, first, second)
    modifies b`images, b`variants, b`objects, b`convertIds, b`trace
    ensures Stands(x, p, n + 1, Removing(i, Deleting(original', display')), h0, b)
    ensures (original', display') == AfterDelete(original, display, x.moments[n].choice)
    ensures Sweeping(x, |h0|, b.History(), row, original', display', n + 1, first', second')
  {
    ghost var h := b.History();
    original', display' := DeleteOne(x, b, h0, p, n, i, original, display);
    assert b.History()[|h0| + n] == b.All();
    first', second' := SweepsOneMore(x, |h0|, h, b.History(), row, original, display, n, first, second);
  }

  function Due(key: Option<Key>): nat {
    if key.Some? then 1 else 0
  }

  /** Promise.allSettled over the two deletes, in either order and ignoring their failures. */
  method DeleteEach(x: Caller, b: Backend, ghost h0: seq<Shared>, ghost p: Proc, i: ImageId, row: Row)
    returns (n: nat, ghost first: nat, ghost second: nat)
    requires Stands(x, p, 1, Removing(i, DeleteObjects(Some(row.original), row.display)), h0, b)
    requires |b.History()| == |h0| + 1
    modifies b`images, b`variants, b`objects, b`convertIds, b`trace
    ensures n <= 3 && Stands(x, p, n, Removing(i, DeleteRow), h0, b)
    ensures Sweeping(x, |h0|, b.History(), row, None, None, n, first, second)
  {
    var original, display := Some(row.original), row.display;
    n, first, second := 1, 0, 0;
    while original.Some? || display.Some?
      invariant 1 <= n && n + Due(original) + Due(display) <= 3
      invariant Stands(x, p, n, Removing(i, Deleting(original, display)), h0, b)
      invariant Sweeping(x, |h0|, b.History(), row, original, display, n, first, second)
      decreases Due(original) + Due(display)
    {
      original, display, first, second := DeleteNext(x, b, h0, p, n, i, row, original, display, first, second);
      n := n + 1;
    }
  }

  /** Both objects first, whatever becomes of that, and then the row. */
  method Remove(x: Caller, b: Backend, i: ImageId) returns (reply: Reply)
    modifies b
    ensures Over(x, Removing(i, FindVictim), old(b.History()), b)
    ensures b.added == old(b.added)
    ensures reply.Success? ==> i !in b.images
    ensures reply.NotFound? <==> x.moments[0].choice.outcome.Ok? && i !in x.moments[0].world.images
    ensures x.moments[0].choice.outcome.Ok? && i in x.moments[0].world.images ==>
              DeletesBoth(x, |old(b.History())|, b.History(), x.moments[0].world.images[i])
  {
    ghost var h0, p := b.History(), Removing(i, FindVictim);
    var ok, found := FindImage(x, b, h0, p, i);
    if !ok { return Failure; }
    if found.None? { return NotFound; }
    var n, first, second := DeleteEach(x, b, h0, p, i, found.value);
    ghost var h := b.History();
    ok := DeleteLast(x, b, h0, p, n, i);
    SweepsBoth(x, |h0|, h, b.History(), found.value, n, first, second);
    reply := if ok then Success else Failure;
  }

  // ---- Calls end -----------------------------------------------------------------------------------------

  /** Awaits a call has left, at most. */
  function AwaitsLeft(p: Proc): nat {
    match p
    case Creating(_, _, create) => (match create case PutOriginal => 3 case InsertRow => 2 case EnqueueEntry => 1)
    case Reprocessing(_, reprocess) => (match reprocess case FindRow => 3 case MarkConvert => 2 case EnqueueFresh => 1)
    case Removing(_, remove) =>
      (match remove
       case FindVictim => 4
       case DeleteObjects(original, display) => 1 + (if original.Some? then 1 else 0) + (if display.Some? then 1 else 0)
       case DeleteRow => 1)
    case _ => 0
  }

  predicate IsCall(p: Proc) {
    || p.Creating? || p.Reprocessing?
    || (p.Removing? && (p.remove.DeleteObjects? ==> p.remove.original.Some? || p.remove.display.Some?))
  }

  lemma {:induction false} TurnShrinks(x: Caller, k: nat, q: Proc)
    requires k < MOST_AWAITS && IsCall(q)
    ensures var self := TurnAt(x, k, q).self;
            self.Some? ==> IsCall(self.value) && AwaitsLeft(self.value) < AwaitsLeft(q)
  {
  }

  /** Every call ends, whatever its surroundings. */
  lemma {:induction false} CallEnds(x: Caller, p: Proc) returns (run: seq<Progress>)
    requires IsCall(p) && AwaitsLeft(p) <= 4
    ensures IsRun(CallOf(x, p), run) && run[|run| - 1].self.None?
  {
    var s := CallOf(x, p);
    run := [s.start];
    while run[|run| - 1].self.Some?
      invariant IsRun(s, run)
      invariant var self := run[|run| - 1].self;
                self.Some? ==> IsCall(self.value) && |run| - 1 + AwaitsLeft(self.value) <= 4
      decreases 5 - |run|
    {
      TurnShrinks(x, |run| - 1, run[|run| - 1].self.value);
      run := Extended(s, run);
    }
  }

  /** What the contracts of the calls say, from the run's side. */
  lemma {:induction false} DoneMeansRun(x: Caller, p: Proc, t: Progress, h0: seq<Shared>, b: Backend)
    requires IsCall(p) && AwaitsLeft(p) <= 4 && Done(x, p, t, h0, b)
    ensures var s := CallOf(x, p);
            exists run :: IsRun(s, run) && run[|run| - 1] == t && b.History() == h0 + Views(s, run)
  {
    var run := CallEnds(x, p);
    assert IsRun(CallOf(x, p), run);
  }
}
