/**
 * Keyset paging of the image list: the repository query, the service's cap and the controller's
 * nextCursor rule, and a client that follows nextCursor from the start.
 */
module Paging {
  import opened Sorting
  import opened Wrappers

  datatype Image = Image(id: string, userId: string, status: string, createdAt: int)

  datatype Query = Query(userId: string, status: Option<string>)

  datatype Response = Response(items: seq<Image>, nextCursor: Option<string>)

  // ---- The query -------------------------------------------------------------------------------------

  predicate Matches(q: Query, r: Image) {
    r.userId == q.userId && (q.status.Some? ==> r.status == q.status.value)
  }

  function Filter(table: seq<Image>, q: Query): seq<Image> {
    if table == [] then []
    else if Matches(q, table[0]) then [table[0]] + Filter(table[1..], q)
    else Filter(table[1..], q)
  }

  predicate NewestFirst(rows: seq<Image>) {
    forall i, j :: 0 <= i <= j < |rows| ==> rows[i].createdAt >= rows[j].createdAt
  }

  /** WHERE .. ORDER BY createdAt DESC: the matching rows, newest first, those of one instant in any order
      the database likes. */
  ghost predicate Selects(table: seq<Image>, q: Query, rows: seq<Image>) {
    NewestFirst(rows) && multiset(rows) == multiset(Filter(table, q))
  }

  function Take(rows: seq<Image>, limit: nat): seq<Image> {
    if |rows| <= limit then rows else rows[..limit]
  }

  /** The rows behind the one the cursor names. */
  function Behind(rows: seq<Image>, id: string): seq<Image> {
    if rows == [] then []
    else if rows[0].id == id then rows[1..]
    else Behind(rows[1..], id)
  }

  /** Repository list over the selected rows: with a cursor, the row it names and everything before it is
      skipped. */
  function ListRows(rows: seq<Image>, limit: nat, cursor: Option<string>): seq<Image> {
    match cursor
    case None => Take(rows, limit)
    case Some(id) => Take(Behind(rows, id), limit)
  }

  const CAP: nat := 100

  function Min(m: nat, n: nat): nat {
    if m <= n then m else n
  }

  /** Service cap and controller rule: a full page carries the id of its last row. */
  function Respond(rows: seq<Image>, limit: nat, cursor: Option<string>): Response
    requires limit >= 1
  {
    var items := ListRows(rows, Min(limit, CAP), cursor);
    Response(items, if |items| == limit then Some(items[|items| - 1].id) else None)
  }

  /** A list endpoint, as its client sees it: cursor to answer. */
  type Endpoint = Option<string> -> Response

  function EndpointOf(rows: seq<Image>, limit: nat): Endpoint
    requires limit >= 1
  {
    cursor => Respond(rows, limit, cursor)
  }

  /** The first `requests` pages a client sees that follows nextCursor until it is null. */
  function Pages(endpoint: Endpoint, cursor: Option<string>, requests: nat): (ps: seq<Response>)
    decreases requests
  {
    if requests == 0 then []
    else
      var p := endpoint(cursor);
      [p] + if p.nextCursor.None? then [] else Pages(endpoint, p.nextCursor, requests - 1)
  }

  function Concat(ps: seq<Response>): seq<Image> {
    if ps == [] then [] else ps[0].items + Concat(ps[1..])
  }

  // ---- What the query selects ---------------------------------------------------------------------------

  predicate DistinctIds(table: seq<Image>) {
    forall i, j :: 0 <= i < j < |table| ==> table[i].id != table[j].id
  }

  lemma {:induction false} FilterSelects(table: seq<Image>, q: Query, r: Image)
    ensures r in Filter(table, q) <==> r in table && Matches(q, r)
  {
    if table != [] { FilterSelects(table[1..], q, r); }
  }

  lemma {:induction false} FilterOnce(table: seq<Image>, q: Query, r: Image)
    requires DistinctIds(table)
    ensures multiset(Filter(table, q))[r] == if r in table && Matches(q, r) then 1 else 0
  {
    if table != [] {
      var head, rest := table[0], Filter(table[1..], q);
      FilterOnce(table[1..], q, r);
      if Matches(q, head) {
        assert Filter(table, q) == [head] + rest;
        assert head !in table[1..];
      }
    }
  }

  lemma {:induction false} Twice(rows: seq<Image>, i: nat, j: nat)
    requires i < j < |rows| && rows[i] == rows[j]
    ensures multiset(rows)[rows[i]] >= 2
  {
    assert rows == rows[..j] + rows[j..];
    assert rows[i] in rows[..j] && rows[j] in rows[j..];
    assert multiset(rows) == multiset(rows[..j]) + multiset(rows[j..]);
  }

  lemma {:induction false} SameIdSameRow(table: seq<Image>, r: Image, r': Image)
    requires DistinctIds(table) && r in table && r' in table && r.id == r'.id
    ensures r == r'
  {
  }

  /** Whatever order the database gives rows of one instant, a selection holds exactly the user's matching
      rows, newest first, each once; and there is one. */
  lemma SelectedRows(table: seq<Image>, q: Query, rows: seq<Image>)
    requires DistinctIds(table) && Selects(table, q, rows)
    ensures forall i, j :: 0 <= i <= j < |rows| ==> rows[i].createdAt >= rows[j].createdAt
    ensures DistinctIds(rows) && |rows| == |Filter(table, q)|
    ensures forall r :: r in rows <==> r in table && Matches(q, r)
    ensures forall r :: r in rows <==>
                          r in table && r.userId == q.userId && (q.status.None? || r.status == q.status.value)
  {
    forall r ensures r in rows <==> r in table && Matches(q, r) {
      FilterSelects(table, q, r);
      assert r in rows <==> r in multiset(rows);
    }
    forall i, j | 0 <= i < j < |rows| ensures rows[i].id != rows[j].id {
      if rows[i].id == rows[j].id {
        SameIdSameRow(table, rows[i], rows[j]);
        Twice(rows, i, j);
        FilterOnce(table, q, rows[i]);
      }
    }
    assert |multiset(rows)| == |multiset(Filter(table, q))|;
  }

  function Age(r: Image): real {
    -(r.createdAt as real)
  }

  lemma SomeSelection(table: seq<Image>, q: Query)
    ensures Selects(table, q, SortBy(Age, Filter(table, q)))
  {
    var rows := SortBy(Age, Filter(table, q));
    SortSorts(Age, Filter(table, q));
    forall i, j | 0 <= i <= j < |rows| ensures rows[i].createdAt >= rows[j].createdAt {
      assert Age(rows[i]) <= Age(rows[j]);
    }
  }

  // ---- Paging is lossless ----------------------------------------------------------------------------------

  lemma {:induction false} BehindRow(rows: seq<Image>, k: nat)
    requires DistinctIds(rows) && k < |rows|
    ensures Behind(rows, rows[k].id) == rows[k + 1..]
  {
    if k > 0 { BehindRow(rows[1..], k - 1); }
  }

  /** With the row at position k as cursor, the next page starts at k + 1. */
  lemma NextPage(table: seq<Image>, q: Query, rows: seq<Image>, limit: nat, k: nat)
    requires DistinctIds(table) && Selects(table, q, rows) && k < |rows|
    ensures ListRows(rows, limit, Some(rows[k].id)) == Take(rows[k + 1..], limit)
  {
    SelectedRows(table, q, rows);
    BehindRow(rows, k);
  }

  /** The cursor that stands for "the first `at` rows have been served". */
  ghost predicate StandsAt(rows: seq<Image>, cursor: Option<string>, at: nat) {
    at <= |rows| && (if at == 0 then cursor == None else cursor == Some(rows[at - 1].id))
  }

  /** The answer a client standing at `at` must get. */
  ghost predicate AnswersFrom(rows: seq<Image>, p: Response, at: nat, limit: nat)
    requires at <= |rows|
  {
    if at + limit <= |rows| then p.items == rows[at..at + limit] && StandsAt(rows, p.nextCursor, at + limit)
    else p.items == rows[at..] && p.nextCursor == None
  }

  ghost predicate Serves(endpoint: Endpoint, rows: seq<Image>, limit: nat) {
    forall cursor, at :: StandsAt(rows, cursor, at) ==> AnswersFrom(rows, endpoint(cursor), at, limit)
  }

  lemma PageAt(rows: seq<Image>, limit: nat, cursor: Option<string>, at: nat)
    requires DistinctIds(rows) && 1 <= limit <= CAP && StandsAt(rows, cursor, at)
    ensures AnswersFrom(rows, Respond(rows, limit, cursor), at, limit)
  {
    if at > 0 { BehindRow(rows, at - 1); } else { assert rows[0..] == rows; }
    assert ListRows(rows, limit, cursor) == Take(rows[at..], limit);
  }

  /** All pages but the last are full and carry a cursor; the last is shorter and carries none. */
  predicate WellPaged(ps: seq<Response>, limit: nat) {
    && ps != [] && ps[|ps| - 1].nextCursor == None && |ps[|ps| - 1].items| < limit
    && forall i :: 0 <= i < |ps| - 1 ==> |ps[i].items| == limit && ps[i].nextCursor.Some?
  }

  lemma WellPagedCons(p: Response, ps: seq<Response>, limit: nat)
    requires WellPaged(ps, limit) && |p.items| == limit && p.nextCursor.Some?
    ensures WellPaged([p] + ps, limit) && Concat([p] + ps) == p.items + Concat(ps)
  {
    var all := [p] + ps;
    assert all[1..] == ps && all[|all| - 1] == ps[|ps| - 1];
    forall i | 0 <= i < |all| - 1 ensures |all[i].items| == limit && all[i].nextCursor.Some? {
      if i > 0 { assert all[i] == ps[i - 1]; }
    }
  }

  /** The most rows a number of requests can serve. */
  function RowsServed(requests: nat, limit: nat): nat {
    if requests == 0 then 0 else limit + RowsServed(requests - 1, limit)
  }

  lemma {:induction false} RowsServedIsProduct(requests: nat, limit: nat)
    ensures RowsServed(requests, limit) == requests * limit
  {
    if requests > 0 {
      RowsServedIsProduct(requests - 1, limit);
      OneFewer(requests, limit);
    }
  }

  /** From any position: enough requests serve exactly the remaining rows. */
  lemma {:induction false} PagesFrom(endpoint: Endpoint, rows: seq<Image>, limit: nat, cursor: Option<string>,
                                     at: nat, requests: nat)
    requires Serves(endpoint, rows, limit) && limit >= 1 && StandsAt(rows, cursor, at)
    requires RowsServed(requests, limit) > |rows| - at
    ensures var ps := Pages(endpoint, cursor, requests); Concat(ps) == rows[at..] && WellPaged(ps, limit)
    decreases requests
  {
    var p := endpoint(cursor);
    assert AnswersFrom(rows, p, at, limit);
    PagesCons(endpoint, cursor, requests);
    if at + limit <= |rows| {
      PagesFrom(endpoint, rows, limit, p.nextCursor, at + limit, requests - 1);
      WellPagedCons(p, Pages(endpoint, p.nextCursor, requests - 1), limit);
      SplitRows(rows, at, limit);
    } else {
      LastPage(p, limit);
    }
  }

  lemma {:induction false} PagesCons(endpoint: Endpoint, cursor: Option<string>, requests: nat)
    requires requests >= 1
    ensures Pages(endpoint, cursor, requests)
         == [endpoint(cursor)] + if endpoint(cursor).nextCursor.None? then []
           else Pages(endpoint, endpoint(cursor).nextCursor, requests - 1)
  {
  }

  lemma {:induction false} SplitRows(rows: seq<Image>, at: nat, limit: nat)
    requires at + limit <= |rows|
    ensures rows[at..at + limit] + rows[at + limit..] == rows[at..]
  {
  }

  lemma LastPage(p: Response, limit: nat)
    requires p.nextCursor.None? && |p.items| < limit
    ensures [p] + [] == [p] && WellPaged([p], limit) && Concat([p]) == p.items
  {
    assert [p][1..] == [];
    assert Concat([p]) == p.items + Concat([]) == p.items + [];
  }

  lemma OneFewer(n: nat, d: nat)
    requires n >= 1
    ensures (n - 1) * d == n * d - d
  {
  }

  /** Paging is lossless.  For every limit the schema lets through, and whatever order the database keeps
      rows of one instant in, a client that follows nextCursor from the start gets, in as many requests
      as it takes to exceed the row count, exactly the user's matching rows, newest first, each once; it
      is then told to stop.  When the limit divides the count, the last page is empty. */
  lemma PagingIsLossless(table: seq<Image>, q: Query, rows: seq<Image>, limit: nat, requests: nat)
    requires DistinctIds(table) && Selects(table, q, rows)
    requires 1 <= limit <= 100 && requests * limit > |Filter(table, q)|
    ensures var ps := Pages(EndpointOf(rows, limit), None, requests);
            && (forall i, j :: 0 <= i <= j < |Concat(ps)| ==> Concat(ps)[i].createdAt >= Concat(ps)[j].createdAt)
            && (forall i, j :: 0 <= i < j < |Concat(ps)| ==> Concat(ps)[i].id != Concat(ps)[j].id)
            && (forall r :: r in Concat(ps) <==>
                  r in table && r.userId == q.userId && (q.status.None? || r.status == q.status.value))
            && WellPaged(ps, limit) && |Concat(ps)| == limit * (|ps| - 1) + |ps[|ps| - 1].items|
  {
    SelectedRows(table, q, rows);
    assert rows[0..] == rows;
    RowsServedIsProduct(requests, limit);
    forall cursor, at | StandsAt(rows, cursor, at) ensures AnswersFrom(rows, Respond(rows, limit, cursor), at, limit) {
      PageAt(rows, limit, cursor, at);
    }
    PagesFrom(EndpointOf(rows, limit), rows, limit, None, 0, requests);
    FullPages(Pages(EndpointOf(rows, limit), None, requests), limit);
  }

  lemma {:induction false} FullPages(ps: seq<Response>, limit: nat)
    requires WellPaged(ps, limit)
    ensures |Concat(ps)| == limit * (|ps| - 1) + |ps[|ps| - 1].items|
  {
    if |ps| > 1 {
      var rest := ps[1..];
      assert forall i :: 0 <= i < |rest| ==> rest[i] == ps[i + 1];
      FullPages(rest, limit);
      OneFewer(|ps| - 1, limit);
      assert limit * (|ps| - 1) == limit * (|rest| - 1) + limit;
    } else {
      assert ps[1..] == [];
    }
  }

  /** The schema's maximum and the service's cap have to agree: were a larger limit let through, paging
      would stop after the first hundred rows, and so lose rows exactly when there are more. */
  lemma BeyondTheCap(rows: seq<Image>, limit: nat, requests: nat)
    requires limit > 100 && requests >= 1
    ensures var ps := Pages(EndpointOf(rows, limit), None, requests);
            && ps == [Response(if |rows| <= 100 then rows else rows[..100], None)]
            && (Concat(ps) == rows <==> |rows| <= 100)
  {
    var p := Respond(rows, limit, None);
    var ps := Pages(EndpointOf(rows, limit), None, requests);
    assert ps == [p] && ps[1..] == [];
    assert Concat(ps) == p.items + Concat([]) == p.items;
  }
}
