/**
 * The durable state the pipeline works on -- image table, variant table and object store -- and the
 * single writes the repository and the storage adapter perform on it.  Every write is one atomic
 * step; a write the database rejects (row not found, foreign key) yields None.
 */
module Tables {
  import opened Wrappers
  import opened Keys
  import opened Rounding

  newtype byte = b: int | 0 <= b < 256
  type Blob = seq<byte>

  datatype Status =
    | PENDING | PROCESSING | ACCEPTED | REJECTED | FAILED
    | PROCESSING_CONVERT | PROCESSING_COMPRESS | PROCESSING_VARIANTS | COMPLETED

  predicate InStage(s: Status) {
    s.PROCESSING_CONVERT? || s.PROCESSING_COMPRESS? || s.PROCESSING_VARIANTS?
  }

  predicate Terminal(s: Status) {
    s.COMPLETED? || s.FAILED? || s.REJECTED?
  }

  datatype Compression = Compression(bytes: nat, ratio: real)

  datatype RejectionReason = RejectionReason(code: string, message: string)

  /** The columns markAccepted fills in. */
  datatype Measures = Measures(width: nat, height: nat, perceptualHash: string)

  datatype Row = Row(
    userId: string,
    mimeType: string,
    original: Key,
    display: Option<Key>,
    status: Status,
    normalizedKey: Option<Key>,
    compressedKey: Option<Key>,
    compression: Option<Compression>,
    processingError: Option<string>,
    measures: Option<Measures>,
    rejectionReasons: Option<seq<RejectionReason>>)

  /** `id` aside, a row of the variants table; `sizeBytes`, `width` and `height` describe the object. */
  datatype VariantRow = VariantRow(imageId: ImageId, vtype: VariantType, s3Key: Key, width: nat, height: nat,
                                   sizeBytes: nat)

  /** The variant table is a plain list of rows: its uniqueness is proved, not built in. */
  datatype World = World(images: map<ImageId, Row>, variants: seq<VariantRow>, objects: map<Key, Blob>)

  // ---- Repository writes -----------------------------------------------------------------------

  function Created(w: World, i: ImageId, row: Row): Option<World> {
    if i in w.images then None else Some(w.(images := w.images[i := row]))
  }

  function WithRow(w: World, i: ImageId, row: Row): World {
    w.(images := w.images[i := row])
  }

  /** markProcessing */
  function Started(w: World, i: ImageId): Option<World> {
    if i in w.images then Some(WithRow(w, i, w.images[i].(status := PROCESSING))) else None
  }

  /** markRejected and markFailed */
  function Refused(w: World, i: ImageId, status: Status, reasons: seq<RejectionReason>): Option<World> {
    if i in w.images
    then Some(WithRow(w, i, w.images[i].(status := status, rejectionReasons := Some(reasons))))
    else None
  }

  /** markAccepted: clears the reasons; an undefined display key leaves the column as it is. */
  function AcceptedRow(row: Row, measures: Measures, display: Option<Key>): Row {
    row.(status := ACCEPTED, measures := Some(measures), rejectionReasons := None,
         display := if display.Some? then display else row.display)
  }

  function Accepted(w: World, i: ImageId, measures: Measures, display: Option<Key>): Option<World> {
    if i in w.images then Some(WithRow(w, i, AcceptedRow(w.images[i], measures, display))) else None
  }

  /** setStatus and markCompleted: also clear the pipeline error. */
  function StatusSet(w: World, i: ImageId, status: Status): Option<World> {
    if i in w.images then Some(WithRow(w, i, w.images[i].(status := status, processingError := None))) else None
  }

  function NormalizedSet(w: World, i: ImageId, key: Key): Option<World> {
    if i in w.images then Some(WithRow(w, i, w.images[i].(normalizedKey := Some(key)))) else None
  }

  function CompressedSet(w: World, i: ImageId, key: Key, compression: Compression): Option<World> {
    if i in w.images
    then Some(WithRow(w, i, w.images[i].(compressedKey := Some(key), compression := Some(compression))))
    else None
  }

  function ProcessingFailed(w: World, i: ImageId, error: string): Option<World> {
    if i in w.images
    then Some(WithRow(w, i, w.images[i].(status := FAILED, processingError := Some(error))))
    else None
  }

  predicate SameSlot(a: VariantRow, b: VariantRow) {
    a.imageId == b.imageId && a.vtype == b.vtype
  }

  function UpsertInto(rows: seq<VariantRow>, v: VariantRow): seq<VariantRow> {
    if rows == [] then [v]
    else if SameSlot(rows[0], v) then [v] + rows[1..]
    else [rows[0]] + UpsertInto(rows[1..], v)
  }

  /** upsertVariant: the foreign key demands a live image row. */
  function Upserted(w: World, v: VariantRow): Option<World> {
    if v.imageId in w.images then Some(w.(variants := UpsertInto(w.variants, v))) else None
  }

  function WithoutImage(rows: seq<VariantRow>, i: ImageId): seq<VariantRow> {
    if rows == [] then []
    else if rows[0].imageId == i then WithoutImage(rows[1..], i)
    else [rows[0]] + WithoutImage(rows[1..], i)
  }

  /** delete: the variants go with their image (onDelete: Cascade). */
  function Deleted(w: World, i: ImageId): Option<World> {
    if i in w.images then Some(w.(images := w.images - {i}, variants := WithoutImage(w.variants, i))) else None
  }

  /** The rows of one image, in table order. */
  function RowsOf(rows: seq<VariantRow>, i: ImageId): seq<VariantRow> {
    if rows == [] then []
    else (if rows[0].imageId == i then [rows[0]] else []) + RowsOf(rows[1..], i)
  }

  // ---- Storage writes --------------------------------------------------------------------------

  function Put(w: World, key: Key, body: Blob): World {
    w.(objects := w.objects[key := body])
  }

  function Removed(w: World, key: Key): World {
    w.(objects := w.objects - {key})
  }

  // ---- What the objects ought to hold ----------------------------------------------------------

  datatype Processed = Processed(buffer: Blob, width: nat, height: nat)

  /** The image library, as deterministic functions of the bytes. */
  datatype Codec = Codec(
    heicToJpeg: Blob -> Blob,
    normalize: (Blob, string) -> Processed,
    compress: Blob -> Processed,
    resize: (Blob, nat) -> Processed,
    width: VariantType -> nat)

  /** An upload: who owns it and what was sent. */
  datatype Source = Source(userId: string, ext: Extension, mimeType: string, bytes: Blob)

  function Normal(c: Codec, src: Source): Processed {
    (c.normalize)(src.bytes, src.mimeType)
  }

  function Small(c: Codec, src: Source): Processed {
    (c.compress)(Normal(c, src).buffer)
  }

  function Sized(c: Codec, src: Source, t: VariantType): Processed {
    (c.resize)(Small(c, src).buffer, (c.width)(t))
  }

  function Content(c: Codec, src: Source, kind: Kind): Blob {
    match kind
    case Original(_) => src.bytes
    case Display(_) => (c.heicToJpeg)(src.bytes)
    case Normalized => Normal(c, src).buffer
    case Compressed => Small(c, src).buffer
    case Variant(t) => Sized(c, src, t).buffer
  }

  function CompressionOf(c: Codec, src: Source): Compression {
    var small, normal := |Small(c, src).buffer|, |Normal(c, src).buffer|;
    Compression(small, StoredRatio(small, normal))
  }

  function VariantOf(c: Codec, src: Source, i: ImageId, t: VariantType): VariantRow {
    var out := Sized(c, src, t);
    VariantRow(i, t, Key(src.userId, i, Variant(t)), out.width, out.height, |out.buffer|)
  }

  // ---- The table invariant ---------------------------------------------------------------------

  type Sources = map<ImageId, Source>

  predicate KeyFits(src: Source, k: Key) {
    && k.userId == src.userId
    && (HasExtension(k) ==> k.kind.ext == src.ext)
  }

  ghost predicate ObjectOk(c: Codec, srcs: Sources, k: Key, body: Blob) {
    k.imageId in srcs && KeyFits(srcs[k.imageId], k) && body == Content(c, srcs[k.imageId], k.kind)
  }

  /** The columns that are fixed at creation. */
  predicate Describes(src: Source, i: ImageId, row: Row) {
    && row.userId == src.userId
    && row.mimeType == src.mimeType
    && row.original == Key(src.userId, i, Original(src.ext))
    && (row.display.Some? ==> row.display == Some(Key(src.userId, i, Display(src.ext))))
  }

  predicate OutputsOk(c: Codec, src: Source, i: ImageId, row: Row, objects: map<Key, Blob>) {
    && (row.normalizedKey.Some? ==>
          row.normalizedKey == Some(Key(src.userId, i, Normalized)) && row.normalizedKey.value in objects)
    && (row.compressedKey.Some? ==>
          row.compressedKey == Some(Key(src.userId, i, Compressed)) && row.compressedKey.value in objects
          && row.compression == Some(CompressionOf(c, src)) && row.normalizedKey.Some?)
  }

  /** The message of a pipeline stage names the stage. */
  predicate NamesStage(error: string) {
    "[convert] " <= error || "[compress] " <= error || "[variants] " <= error
  }

  /** A refused or failed row says why. */
  predicate Explained(row: Row) {
    && (row.rejectionReasons.Some? ==> row.rejectionReasons.value != [])
    && (row.processingError.Some? ==> NamesStage(row.processingError.value))
    && (row.status.REJECTED? ==> row.rejectionReasons.Some?)
    && (row.status.FAILED? ==> row.rejectionReasons.Some? || row.processingError.Some?)
  }

  ghost predicate HasVariant(w: World, i: ImageId, t: VariantType) {
    exists n :: 0 <= n < |w.variants| && w.variants[n].imageId == i && w.variants[n].vtype == t
  }

  ghost predicate HasAllVariants(w: World, i: ImageId) {
    HasVariant(w, i, THUMBNAIL) && HasVariant(w, i, WEB) && HasVariant(w, i, FULL)
  }

  ghost predicate RowOk(c: Codec, srcs: Sources, w: World, i: ImageId) {
    && i in w.images && i in srcs
    && Describes(srcs[i], i, w.images[i])
    && OutputsOk(c, srcs[i], i, w.images[i], w.objects)
    && Explained(w.images[i])
    && (InStage(w.images[i].status) || w.images[i].status.COMPLETED? ==> w.images[i].processingError.None?)
    && (w.images[i].status.COMPLETED? ==> HasAllVariants(w, i))
  }

  ghost predicate VariantOk(c: Codec, srcs: Sources, w: World, v: VariantRow) {
    && v.imageId in w.images && v.imageId in srcs
    && v == VariantOf(c, srcs[v.imageId], v.imageId, v.vtype)
    && v.s3Key in w.objects
  }

  /** At most one row per (imageId, type). */
  ghost predicate SlotsDistinct(rows: seq<VariantRow>) {
    forall m, n :: 0 <= m < n < |rows| ==> !SameSlot(rows[m], rows[n])
  }

  ghost predicate WorldOk(c: Codec, srcs: Sources, w: World) {
    && (forall i :: i in w.images ==> RowOk(c, srcs, w, i))
    && (forall k :: k in w.objects ==> ObjectOk(c, srcs, k, w.objects[k]))
    && (forall n :: 0 <= n < |w.variants| ==> VariantOk(c, srcs, w, w.variants[n]))
    && SlotsDistinct(w.variants)
  }

  // ---- What never goes away --------------------------------------------------------------------

  predicate Derived(k: Key) {
    k.kind.Normalized? || k.kind.Compressed? || k.kind.Variant?
  }

  /** Nothing a running job may rely on is ever undone: a born image is never re-created, its
      output columns stay set, its variants stay, and derived objects are never removed. */
  ghost predicate Grows(born: set<ImageId>, w: World, w': World) {
    && (forall i :: i in born && i in w'.images ==>
          && i in w.images
          && (w.images[i].normalizedKey.Some? ==> w'.images[i].normalizedKey.Some?)
          && (w.images[i].compressedKey.Some? ==> w'.images[i].compressedKey.Some?))
    && (forall k :: k in w.objects && Derived(k) ==> k in w'.objects)
    && (forall i, t :: i in born && i in w'.images && HasVariant(w, i, t) ==> HasVariant(w', i, t))
  }

  lemma {:induction false} GrowsRefl(born: set<ImageId>, w: World)
    ensures Grows(born, w, w)
  {
  }

  // ---- Every write keeps the invariant ---------------------------------------------------------

  lemma {:induction false} SameVariants(w: World, w': World)
    requires w.variants == w'.variants
    ensures forall i, t :: HasVariant(w, i, t) <==> HasVariant(w', i, t)
  {
  }

  /** As long as no row and no object goes, the variant rows stay true. */
  lemma {:induction false} VariantsStay(c: Codec, srcs: Sources, w: World, w': World)
    requires WorldOk(c, srcs, w) && w'.variants == w.variants
    requires w.images.Keys <= w'.images.Keys && w.objects.Keys <= w'.objects.Keys
    ensures forall n :: 0 <= n < |w'.variants| ==> VariantOk(c, srcs, w', w'.variants[n])
  {
    forall n | 0 <= n < |w'.variants| ensures VariantOk(c, srcs, w', w'.variants[n]) {
      assert VariantOk(c, srcs, w, w.variants[n]);
    }
  }

  lemma {:induction false} OtherRowStays(c: Codec, srcs: Sources, w: World, i: ImageId, row: Row, j: ImageId)
    requires WorldOk(c, srcs, w) && j in w.images && j != i
    ensures RowOk(c, srcs, WithRow(w, i, row), j)
  {
    SameVariants(w, WithRow(w, i, row));
    assert RowOk(c, srcs, w, j);
  }

  /** What a new or changed row has to be for the tables to stay sound. */
  predicate RowFits(c: Codec, srcs: Sources, w: World, i: ImageId, row: Row) {
    && i in srcs && Describes(srcs[i], i, row) && OutputsOk(c, srcs[i], i, row, w.objects) && Explained(row)
    && (InStage(row.status) || row.status.COMPLETED? ==> row.processingError.None?)
  }

  lemma {:induction false} WithRowOk(c: Codec, srcs: Sources, w: World, i: ImageId, row: Row)
    requires WorldOk(c, srcs, w) && RowFits(c, srcs, w, i, row)
    requires row.status.COMPLETED? ==> HasAllVariants(w, i)
    ensures WorldOk(c, srcs, WithRow(w, i, row))
  {
    var w' := WithRow(w, i, row);
    SameVariants(w, w');
    VariantsStay(c, srcs, w, w');
    forall j | j in w'.images ensures RowOk(c, srcs, w', j) {
      if j != i { OtherRowStays(c, srcs, w, i, row, j); }
    }
  }

  /** Any change of one row that keeps the fixed columns and does not unset an output. */
  lemma {:induction false} RowWrite(c: Codec, srcs: Sources, born: set<ImageId>, w: World, i: ImageId, row: Row)
    requires WorldOk(c, srcs, w) && i in w.images && RowFits(c, srcs, w, i, row)
    requires w.images[i].normalizedKey.Some? ==> row.normalizedKey.Some?
    requires w.images[i].compressedKey.Some? ==> row.compressedKey.Some?
    requires row.status.COMPLETED? ==> HasAllVariants(w, i)
    ensures WorldOk(c, srcs, WithRow(w, i, row)) && Grows(born, w, WithRow(w, i, row))
  {
    WithRowOk(c, srcs, w, i, row);
    SameVariants(w, WithRow(w, i, row));
  }

  lemma {:induction false} CreateWrite(c: Codec, srcs: Sources, born: set<ImageId>, w: World, i: ImageId, row: Row)
    requires WorldOk(c, srcs, w) && i !in w.images && i !in born && RowFits(c, srcs, w, i, row)
    requires !row.status.COMPLETED?
    ensures WorldOk(c, srcs, WithRow(w, i, row)) && Grows(born, w, WithRow(w, i, row))
  {
    WithRowOk(c, srcs, w, i, row);
    SameVariants(w, WithRow(w, i, row));
  }

  lemma {:induction false} PutWrite(c: Codec, srcs: Sources, born: set<ImageId>, w: World, key: Key, body: Blob)
    requires WorldOk(c, srcs, w) && ObjectOk(c, srcs, key, body)
    ensures WorldOk(c, srcs, Put(w, key, body)) && Grows(born, w, Put(w, key, body))
  {
    var w' := Put(w, key, body);
    SameVariants(w, w');
    forall j | j in w'.images ensures RowOk(c, srcs, w', j) {
      assert RowOk(c, srcs, w, j);
    }
    forall n | 0 <= n < |w'.variants| ensures VariantOk(c, srcs, w', w'.variants[n]) {
      assert VariantOk(c, srcs, w, w.variants[n]);
    }
  }

  lemma {:induction false} RemoveWrite(c: Codec, srcs: Sources, born: set<ImageId>, w: World, key: Key)
    requires WorldOk(c, srcs, w) && !Derived(key)
    ensures WorldOk(c, srcs, Removed(w, key)) && Grows(born, w, Removed(w, key))
  {
    var w' := Removed(w, key);
    SameVariants(w, w');
    forall j | j in w'.images ensures RowOk(c, srcs, w', j) {
      assert RowOk(c, srcs, w, j);
    }
    forall n | 0 <= n < |w'.variants| ensures VariantOk(c, srcs, w', w'.variants[n]) {
      assert VariantOk(c, srcs, w, w.variants[n]);
    }
  }

  /** Where the rows of an upserted table come from. */
  lemma {:induction false} UpsertRows(rows: seq<VariantRow>, v: VariantRow)
    requires SlotsDistinct(rows)
    ensures var after := UpsertInto(rows, v);
            && (forall n :: 0 <= n < |after| ==> after[n] == v || (after[n] in rows && !SameSlot(after[n], v)))
            && (forall n :: 0 <= n < |rows| ==> SameSlot(rows[n], v) || rows[n] in after)
            && v in after
  {
    if rows != [] {
      if SameSlot(rows[0], v) {
        var after := [v] + rows[1..];
        forall n | 0 <= n < |after| ensures after[n] == v || (after[n] in rows && !SameSlot(after[n], v)) {
          if n > 0 { assert after[n] == rows[n]; }
        }
        forall n | 0 <= n < |rows| ensures SameSlot(rows[n], v) || rows[n] in after {
          if n > 0 { assert rows[n] == after[n]; }
        }
        assert after[0] == v;
      } else {
        UpsertRows(rows[1..], v);
        var rest := UpsertInto(rows[1..], v);
        var after := [rows[0]] + rest;
        assert after == UpsertInto(rows, v);
        forall n | 0 <= n < |after| ensures after[n] == v || (after[n] in rows && !SameSlot(after[n], v)) {
          if n > 0 { assert after[n] == rest[n - 1]; }
        }
        forall n | 0 <= n < |rows| ensures SameSlot(rows[n], v) || rows[n] in after {
          if n > 0 { assert rows[n] == rows[1..][n - 1]; } else { assert after[0] == rows[0]; }
        }
        var at :| 0 <= at < |rest| && rest[at] == v;
        assert after[at + 1] == v;
      }
    }
  }

  lemma {:induction false} ConsDistinct(head: VariantRow, rest: seq<VariantRow>)
    requires SlotsDistinct(rest) && forall n :: 0 <= n < |rest| ==> !SameSlot(head, rest[n])
    ensures SlotsDistinct([head] + rest)
  {
    var rows := [head] + rest;
    assert forall n :: 0 < n < |rows| ==> rows[n] == rest[n - 1];
  }

  lemma {:induction false} TailDistinct(rows: seq<VariantRow>)
    requires SlotsDistinct(rows) && rows != []
    ensures SlotsDistinct(rows[1..]) && forall r :: r in rows[1..] ==> !SameSlot(rows[0], r)
  {
  }

  /** The upsert keeps the (imageId, type) slots of the list distinct. */
  lemma {:induction false} UpsertKeepsSlotsDistinct(rows: seq<VariantRow>, v: VariantRow)
    requires SlotsDistinct(rows)
    ensures SlotsDistinct(UpsertInto(rows, v))
  {
    if rows != [] {
      TailDistinct(rows);
      if SameSlot(rows[0], v) {
        ConsDistinct(v, rows[1..]);
      } else {
        UpsertKeepsSlotsDistinct(rows[1..], v);
        UpsertRows(rows[1..], v);
        ConsDistinct(rows[0], UpsertInto(rows[1..], v));
      }
    }
  }

  lemma {:induction false} VariantsKept(w: World, w': World, v: VariantRow)
    requires Upserted(w, v) == Some(w')
    requires SlotsDistinct(w.variants)
    ensures forall i, t :: HasVariant(w, i, t) ==> HasVariant(w', i, t)
    ensures HasVariant(w', v.imageId, v.vtype)
  {
    UpsertRows(w.variants, v);
    var at :| 0 <= at < |w'.variants| && w'.variants[at] == v;
    forall i, t | HasVariant(w, i, t) ensures HasVariant(w', i, t) {
      var n :| 0 <= n < |w.variants| && w.variants[n].imageId == i && w.variants[n].vtype == t;
      if SameSlot(w.variants[n], v) {
        assert w'.variants[at].imageId == i;
      } else {
        var m :| 0 <= m < |w'.variants| && w'.variants[m] == w.variants[n];
      }
    }
  }

  lemma {:induction false} UpsertWrite(c: Codec, srcs: Sources, born: set<ImageId>, w: World, v: VariantRow)
    requires WorldOk(c, srcs, w) && v.imageId in w.images
    requires VariantOk(c, srcs, w, v)
    ensures var w' := Upserted(w, v).value;
            WorldOk(c, srcs, w') && Grows(born, w, w') && HasVariant(w', v.imageId, v.vtype)
  {
    var w' := Upserted(w, v).value;
    UpsertRows(w.variants, v);
    UpsertKeepsSlotsDistinct(w.variants, v);
    VariantsKept(w, w', v);
    forall j | j in w'.images ensures RowOk(c, srcs, w', j) {
      assert RowOk(c, srcs, w, j);
    }
    forall n | 0 <= n < |w'.variants| ensures VariantOk(c, srcs, w', w'.variants[n]) {
      if w'.variants[n] != v {
        var m :| 0 <= m < |w.variants| && w.variants[m] == w'.variants[n];
        assert VariantOk(c, srcs, w, w.variants[m]);
      }
    }
  }

  /** The cascade removes the rows of the image and no others. */
  lemma {:induction false} CascadeRows(rows: seq<VariantRow>, i: ImageId)
    ensures var after := WithoutImage(rows, i);
            && (forall n :: 0 <= n < |after| ==> after[n] in rows && after[n].imageId != i)
            && (forall n :: 0 <= n < |rows| ==> rows[n].imageId == i || rows[n] in after)
  {
    if rows != [] {
      CascadeRows(rows[1..], i);
      var rest, after := WithoutImage(rows[1..], i), WithoutImage(rows, i);
      var off := |after| - |rest|;
      assert forall n :: off <= n < |after| ==> after[n] == rest[n - off];
      forall n | 0 <= n < |rows| ensures rows[n].imageId == i || rows[n] in after {
        if n > 0 && rows[n].imageId != i {
          assert rows[n] == rows[1..][n - 1];
          var at :| 0 <= at < |rest| && rest[at] == rows[n];
          assert after[at + off] == rows[n];
        } else if rows[n].imageId != i {
          assert after[0] == rows[0];
        }
      }
    }
  }

  lemma {:induction false} CascadeKeepsSlotsDistinct(rows: seq<VariantRow>, i: ImageId)
    requires SlotsDistinct(rows)
    ensures SlotsDistinct(WithoutImage(rows, i))
  {
    if rows != [] {
      TailDistinct(rows);
      CascadeKeepsSlotsDistinct(rows[1..], i);
      CascadeRows(rows[1..], i);
      if rows[0].imageId != i {
        ConsDistinct(rows[0], WithoutImage(rows[1..], i));
      }
    }
  }

  lemma {:induction false} CascadeSpares(w: World, w': World, i: ImageId, j: ImageId, t: VariantType)
    requires w'.variants == WithoutImage(w.variants, i) && j != i && HasVariant(w, j, t)
    ensures HasVariant(w', j, t)
  {
    CascadeRows(w.variants, i);
    var n :| 0 <= n < |w.variants| && w.variants[n].imageId == j && w.variants[n].vtype == t;
    var m :| 0 <= m < |w'.variants| && w'.variants[m] == w.variants[n];
  }

  lemma {:induction false} DeleteWrite(c: Codec, srcs: Sources, born: set<ImageId>, w: World, i: ImageId)
    requires WorldOk(c, srcs, w) && i in w.images
    ensures var w' := Deleted(w, i).value;
            WorldOk(c, srcs, w') && Grows(born, w, w')
  {
    var w' := Deleted(w, i).value;
    CascadeRows(w.variants, i);
    CascadeKeepsSlotsDistinct(w.variants, i);
    forall j, t | j in w'.images && HasVariant(w, j, t) ensures HasVariant(w', j, t) {
      CascadeSpares(w, w', i, j, t);
    }
    forall j | j in w'.images ensures RowOk(c, srcs, w', j) {
      assert RowOk(c, srcs, w, j);
    }
    forall n | 0 <= n < |w'.variants| ensures VariantOk(c, srcs, w', w'.variants[n]) {
      var m :| 0 <= m < |w.variants| && w.variants[m] == w'.variants[n];
      assert VariantOk(c, srcs, w, w.variants[m]);
    }
  }
}
