/**
 * The database, the object store and the queues as the workers see them: mutable state behind one
 * awaited call per operation.  `out` is what the environment makes of the await -- success, rejection,
 * or a rejection although the write took effect.
 */
module BackendState {
  import opened Sorting
  import opened Wrappers
  import opened Keys
  import opened Tables
  import opened Machine

  /** What a write leaves behind, and whether its await succeeded. */
  function Effect(w: World, effect: Option<World>, out: Await): (World, bool) {
    match effect
    case None => (w, false)
    case Some(w') => (if out.Rejected? then w else w', out.Ok?)
  }

  /** What all callers share: the tables and the store, and the deterministic job ids present. */
  datatype Shared = Shared(world: World, convertIds: set<ImageId>)

  class Backend {
    var images: map<ImageId, Row>
    var variants: seq<VariantRow>
    var objects: map<Key, Blob>
    var convertIds: set<ImageId>

    /** The jobs this caller has added. */
    var added: seq<(Stage, ImageId)>

    /** The shared state each time the caller gave way. */
    ghost var trace: seq<Shared>

    ghost function Now(): World
      reads this
    {
      World(images, variants, objects)
    }

    ghost function All(): Shared
      reads this
    {
      Shared(Now(), convertIds)
    }

    /** Every shared state the caller has left behind so far, the present one included. */
    ghost function History(): seq<Shared>
      reads this
    {
      trace + [All()]
    }

    /** Between two awaits of one call anything may happen to what is shared: the caller gives way in the
        present state and comes back to another. */
    method Suspend(w: World, ids: set<ImageId>)
      modifies this`images, this`variants, this`objects, this`convertIds, this`trace
      ensures Now() == w && convertIds == ids && trace == old(History())
    {
      trace := History();
      images, variants, objects, convertIds := w.images, w.variants, w.objects, ids;
    }

    // ---- Image repository ----------------------------------------------------------------------

    method FindById(i: ImageId, out: Await) returns (ok: bool, row: Option<Row>)
      ensures ok == out.Ok?
      ensures row.Some? <==> i in Now().images
      ensures row.Some? ==> row.value == Now().images[i]
    {
      ok, row := out.Ok?, None;
      if i in images { row := Some(images[i]); }
    }

    method Create(i: ImageId, row: Row, out: Await) returns (ok: bool)
      modifies this`images
      ensures (Now(), ok) == Effect(old(Now()), Created(old(Now()), i, row), out)
    {
      if i in images { return false; }
      if !out.Rejected? { images := images[i := row]; }
      ok := out.Ok?;
    }

    method Update(i: ImageId, row: Row, out: Await) returns (ok: bool)
      requires i in images
      modifies this`images
      ensures (Now(), ok) == Effect(old(Now()), Some(WithRow(old(Now()), i, row)), out)
    {
      if !out.Rejected? { images := images[i := row]; }
      ok := out.Ok?;
    }

    method MarkProcessing(i: ImageId, out: Await) returns (ok: bool)
      modifies this`images
      ensures (Now(), ok) == Effect(old(Now()), Started(old(Now()), i), out)
    {
      if i !in images { return false; }
      ok := Update(i, images[i].(status := PROCESSING), out);
    }

    method MarkRejected(i: ImageId, reasons: seq<RejectionReason>, out: Await) returns (ok: bool)
      modifies this`images
      ensures (Now(), ok) == Effect(old(Now()), Refused(old(Now()), i, REJECTED, reasons), out)
    {
      if i !in images { return false; }
      ok := Update(i, images[i].(status := REJECTED, rejectionReasons := Some(reasons)), out);
    }

    method MarkFailed(i: ImageId, message: string, out: Await) returns (ok: bool)
      modifies this`images
      ensures (Now(), ok)
           == Effect(old(Now()), Refused(old(Now()), i, FAILED, [RejectionReason("INTERNAL_ERROR", message)]), out)
    {
      if i !in images { return false; }
      var reasons := [RejectionReason("INTERNAL_ERROR", message)];
      ok := Update(i, images[i].(status := FAILED, rejectionReasons := Some(reasons)), out);
    }

    method MarkAccepted(i: ImageId, measures: Measures, display: Option<Key>, out: Await) returns (ok: bool)
      modifies this`images
      ensures (Now(), ok) == Effect(old(Now()), Accepted(old(Now()), i, measures, display), out)
      ensures i in old(images) && !out.Rejected? ==>
                && i in images && images[i].status == ACCEPTED && images[i].measures == Some(measures)
                && images[i].rejectionReasons == None
                && images[i].display == if display.Some? then display else old(images)[i].display
    {
      if i !in images { return false; }
      var row := images[i].(status := ACCEPTED);
      row := row.(measures := Some(measures));
      if display.Some? { row := row.(display := display); }
      row := row.(rejectionReasons := None);
      ok := Update(i, row, out);
    }

    /** setStatus, and markCompleted with COMPLETED. */
    method SetStatus(i: ImageId, status: Status, out: Await) returns (ok: bool)
      modifies this`images
      ensures (Now(), ok) == Effect(old(Now()), StatusSet(old(Now()), i, status), out)
    {
      if i !in images { return false; }
      ok := Update(i, images[i].(status := status, processingError := None), out);
    }

    method SetNormalized(i: ImageId, key: Key, out: Await) returns (ok: bool)
      modifies this`images
      ensures (Now(), ok) == Effect(old(Now()), NormalizedSet(old(Now()), i, key), out)
    {
      if i !in images { return false; }
      ok := Update(i, images[i].(normalizedKey := Some(key)), out);
    }

    method SetCompressed(i: ImageId, key: Key, compression: Compression, out: Await) returns (ok: bool)
      modifies this`images
      ensures (Now(), ok) == Effect(old(Now()), CompressedSet(old(Now()), i, key, compression), out)
    {
      if i !in images { return false; }
      ok := Update(i, images[i].(compressedKey := Some(key), compression := Some(compression)), out);
    }

    method MarkProcessingFailed(i: ImageId, stage: string, message: string, out: Await) returns (ok: bool)
      modifies this`images
      ensures (Now(), ok) == Effect(old(Now()), ProcessingFailed(old(Now()), i, "[" + stage + "] " + message), out)
    {
      if i !in images { return false; }
      ok := Update(i, images[i].(status := FAILED, processingError := Some("[" + stage + "] " + message)), out);
    }

    /** Look the (imageId, type) slot up; update it in place or insert a new row. */
    method UpsertVariant(v: VariantRow, out: Await) returns (ok: bool)
      modifies this`variants
      ensures (Now(), ok) == Effect(old(Now()), Upserted(old(Now()), v), out)
    {
      if v.imageId !in images { return false; }
      if !out.Rejected? {
        var n := 0;
        while n < |variants| && !SameSlot(variants[n], v)
          invariant 0 <= n <= |variants| && forall m :: 0 <= m < n ==> !SameSlot(variants[m], v)
        {
          n := n + 1;
        }
        UpsertAt(variants, v, n);
        variants := if n < |variants| then variants[n := v] else variants + [v];
      }
      ok := out.Ok?;
    }

    /** Deleting a row takes its variants with it. */
    method DeleteImage(i: ImageId, out: Await) returns (ok: bool)
      modifies this`images, this`variants
      ensures (Now(), ok) == Effect(old(Now()), Deleted(old(Now()), i), out)
    {
      if i !in images { return false; }
      if !out.Rejected? {
        var kept: seq<VariantRow> := [];
        for n := 0 to |variants|
          invariant variants == old(variants) && images == old(images)
          invariant WithoutImage(variants, i) == kept + WithoutImage(variants[n..], i)
        {
          assert variants[n..][1..] == variants[n + 1..];
          if variants[n].imageId != i { kept := kept + [variants[n]]; }
        }
        assert variants[|variants|..] == [] && kept + [] == kept;
        images, variants := images - {i}, kept;
      }
      ok := out.Ok?;
    }

    /** Bulk load for the list view: the variants of the named images, grouped by image. */
    method ListVariantsForImages(ids: set<ImageId>) returns (grouped: map<ImageId, seq<VariantRow>>)
      ensures GroupedBy(grouped, ids, BySize(variants))
    {
      grouped := map[];
      if ids == {} { return; }
      var rows := BySize(variants);
      for n := 0 to |rows|
        invariant GroupedBy(grouped, ids, rows[..n])
      {
        var v := rows[n];
        assert rows[..n + 1] == rows[..n] + [v];
        GroupedSnoc(grouped, ids, rows[..n], v);
        if v.imageId in ids {
          var list := if v.imageId in grouped then grouped[v.imageId] else [];
          grouped := grouped[v.imageId := list + [v]];
        }
      }
      assert rows[..|rows|] == rows;
    }

    // ---- Object store ----------------------------------------------------------------------------

    method GetObject(key: Key, out: Await) returns (body: Option<Blob>)
      ensures body == if key in objects && out.Ok? then Some(objects[key]) else None
    {
      if key !in objects || !out.Ok? { return None; }
      return Some(objects[key]);
    }

    method PutObject(key: Key, body: Blob, out: Await) returns (ok: bool)
      modifies this`objects
      ensures (Now(), ok) == Effect(old(Now()), Some(Put(old(Now()), key, body)), out)
    {
      if !out.Rejected? { objects := objects[key := body]; }
      ok := out.Ok?;
    }

    method DeleteObject(key: Key, out: Await) returns (ok: bool)
      modifies this`objects
      ensures (Now(), ok) == Effect(old(Now()), Some(Removed(old(Now()), key)), out)
    {
      if !out.Rejected? { objects := objects - {key}; }
      ok := out.Ok?;
    }

    // ---- Queues ------------------------------------------------------------------------------------

    /** enqueueConvert: with the deterministic id a job already present swallows the new one. */
    method EnqueueConvert(i: ImageId, anew: bool, out: Await) returns (ok: bool)
      modifies this`convertIds, this`added
      ensures ok == out.Ok?
      ensures var adds := !out.Rejected? && (anew || i !in old(convertIds));
              && added == old(added) + (if adds then [(Convert, i)] else [])
              && convertIds == if adds && !anew then old(convertIds) + {i} else old(convertIds)
    {
      if !out.Rejected? {
        if anew {
          added := added + [(Convert, i)];
        } else if i !in convertIds {
          added := added + [(Convert, i)];
          convertIds := convertIds + {i};
        }
      }
      ok := out.Ok?;
    }

    /** enqueueCompress and enqueueVariants: the id is generated, the job always added. */
    method Enqueue(stage: Stage, i: ImageId, out: Await) returns (ok: bool)
      modifies this`added
      ensures ok == out.Ok?
      ensures added == old(added) + if out.Rejected? then [] else [(stage, i)]
    {
      if !out.Rejected? { added := added + [(stage, i)]; }
      ok := out.Ok?;
    }
  }

  lemma {:induction false} UpsertAt(rows: seq<VariantRow>, v: VariantRow, n: nat)
    requires n <= |rows| && forall m :: 0 <= m < n ==> !SameSlot(rows[m], v)
    requires n < |rows| ==> SameSlot(rows[n], v)
    ensures UpsertInto(rows, v) == if n < |rows| then rows[n := v] else rows + [v]
  {
    if n > 0 {
      UpsertAt(rows[1..], v, n - 1);
      assert rows == [rows[0]] + rows[1..];
    } else if rows != [] {
      assert rows[0 := v] == [v] + rows[1..];
    }
  }

  // ---- Grouped listing -----------------------------------------------------------------------------

  lemma RowsOfCons(rows: seq<VariantRow>, i: ImageId)
    requires rows != []
    ensures RowsOf(rows, i) == (if rows[0].imageId == i then [rows[0]] else []) + RowsOf(rows[1..], i)
  {
  }

  lemma {:induction false} RowsOfSnoc(rows: seq<VariantRow>, v: VariantRow, i: ImageId)
    ensures RowsOf(rows + [v], i) == RowsOf(rows, i) + if v.imageId == i then [v] else []
  {
    if rows == [] {
      assert ([] + [v])[1..] == [];
    } else {
      RowsOfSnoc(rows[1..], v, i);
      var head := if rows[0].imageId == i then [rows[0]] else [];
      var last := if v.imageId == i then [v] else [];
      RowsOfCons(rows, i);
      RowsOfCons(rows + [v], i);
      assert (rows + [v])[1..] == rows[1..] + [v];
      assert head + (RowsOf(rows[1..], i) + last) == (head + RowsOf(rows[1..], i)) + last;
    }
  }

  /** Each named image that has rows is there, with exactly its rows, in their order. */
  ghost predicate GroupedBy(grouped: map<ImageId, seq<VariantRow>>, ids: set<ImageId>, rows: seq<VariantRow>) {
    && (forall i :: i in grouped <==> i in ids && RowsOf(rows, i) != [])
    && (forall i :: i in grouped ==> grouped[i] == RowsOf(rows, i))
  }

  lemma {:induction false} GroupedSnoc(grouped: map<ImageId, seq<VariantRow>>, ids: set<ImageId>,
                                       rows: seq<VariantRow>, v: VariantRow)
    requires GroupedBy(grouped, ids, rows)
    ensures var list := if v.imageId in grouped then grouped[v.imageId] else [];
            GroupedBy(if v.imageId in ids then grouped[v.imageId := list + [v]] else grouped, ids, rows + [v])
  {
    forall i ensures RowsOf(rows + [v], i) == RowsOf(rows, i) + if v.imageId == i then [v] else [] {
      RowsOfSnoc(rows, v, i);
    }
    if v.imageId in ids && v.imageId !in grouped { assert RowsOf(rows, v.imageId) == []; }
  }

  function SizeOf(v: VariantRow): real {
    v.sizeBytes as real
  }

  /** ORDER BY sizeBytes ASC. */
  function BySize(rows: seq<VariantRow>): seq<VariantRow> {
    SortBy(SizeOf, rows)
  }

  predicate Ascending(rows: seq<VariantRow>) {
    forall m, n :: 0 <= m < n < |rows| ==> rows[m].sizeBytes <= rows[n].sizeBytes
  }

  lemma {:induction false} RowsOfAscends(rows: seq<VariantRow>, i: ImageId)
    requires Ascending(rows)
    ensures Ascending(RowsOf(rows, i)) && forall v :: v in RowsOf(rows, i) ==> v in rows
  {
    if rows != [] {
      var rest := RowsOf(rows[1..], i);
      RowsOfAscends(rows[1..], i);
      forall n | 0 <= n < |rest| ensures rows[0].sizeBytes <= rest[n].sizeBytes {
        assert rest[n] in rows[1..];
      }
    }
  }

  lemma {:induction false} RowsOfIsFilter(rows: seq<VariantRow>, i: ImageId, v: VariantRow)
    ensures multiset(RowsOf(rows, i))[v] == if v.imageId == i then multiset(rows)[v] else 0
  {
    if rows != [] {
      assert rows == [rows[0]] + rows[1..];
      RowsOfIsFilter(rows[1..], i, v);
    }
  }

  /** Grouping loses and invents nothing: the group of an image holds exactly its rows of the table,
      smallest first. */
  lemma GroupHoldsTheImagesRows(variants: seq<VariantRow>, i: ImageId)
    ensures forall v :: multiset(RowsOf(BySize(variants), i))[v] == if v.imageId == i then multiset(variants)[v] else 0
    ensures var group := RowsOf(BySize(variants), i);
            forall m, n :: 0 <= m < n < |group| ==> group[m].sizeBytes <= group[n].sizeBytes
  {
    var rows := BySize(variants);
    SortSorts(SizeOf, variants);
    forall m, n | 0 <= m < n < |rows| ensures rows[m].sizeBytes <= rows[n].sizeBytes {
      assert SizeOf(rows[m]) <= SizeOf(rows[n]);
    }
    RowsOfAscends(rows, i);
    forall v ensures multiset(RowsOf(rows, i))[v] == if v.imageId == i then multiset(variants)[v] else 0 {
      RowsOfIsFilter(rows, i, v);
    }
  }
}
