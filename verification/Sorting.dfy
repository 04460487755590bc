/**
 * Sorting by a numeric key, as `Array.prototype.sort` with a subtracting comparison and ORDER BY do it.
 */
module Sorting {
  function Insert<T>(key: T -> real, x: T, s: seq<T>): (r: seq<T>)
    ensures |r| == |s| + 1
  {
    if s == [] || key(x) <= key(s[0]) then [x] + s else [s[0]] + Insert(key, x, s[1..])
  }

  function SortBy<T>(key: T -> real, s: seq<T>): (r: seq<T>)
    ensures |r| == |s|
  {
    if s == [] then [] else Insert(key, s[0], SortBy(key, s[1..]))
  }

  ghost predicate Ordered<T>(key: T -> real, s: seq<T>) {
    forall i, j :: 0 <= i <= j < |s| ==> key(s[i]) <= key(s[j])
  }

  /** No two entries have the same key. */
  ghost predicate Untied<T>(key: T -> real, s: seq<T>) {
    forall i, j :: 0 <= i < j < |s| ==> key(s[i]) != key(s[j])
  }

  lemma {:induction false} InsertAdds<T>(key: T -> real, x: T, s: seq<T>)
    ensures multiset(Insert(key, x, s)) == multiset(s) + multiset{x}
  {
    if s != [] && key(x) > key(s[0]) {
      assert s == [s[0]] + s[1..];
      InsertAdds(key, x, s[1..]);
    }
  }

  lemma {:induction false} InsertedAt<T>(key: T -> real, x: T, s: seq<T>, j: nat)
    requires j < |s| + 1
    ensures Insert(key, x, s)[j] == x || Insert(key, x, s)[j] in s
  {
    if s != [] && key(x) > key(s[0]) && j > 0 { InsertedAt(key, x, s[1..], j - 1); }
  }

  lemma {:induction false} InsertKeepsOrder<T>(key: T -> real, x: T, s: seq<T>)
    requires Ordered(key, s)
    ensures Ordered(key, Insert(key, x, s))
  {
    if s != [] && key(x) > key(s[0]) {
      var rest := Insert(key, x, s[1..]);
      InsertKeepsOrder(key, x, s[1..]);
      forall j | 0 <= j < |rest| ensures key(s[0]) <= key(rest[j]) {
        InsertedAt(key, x, s[1..], j);
      }
    }
  }

  /** The sorted sequence is in order and has the same entries, each as often. */
  lemma {:induction false} SortSorts<T>(key: T -> real, s: seq<T>)
    ensures Ordered(key, SortBy(key, s)) && multiset(SortBy(key, s)) == multiset(s)
  {
    if s != [] {
      SortSorts(key, s[1..]);
      InsertKeepsOrder(key, s[0], SortBy(key, s[1..]));
      InsertAdds(key, s[0], SortBy(key, s[1..]));
      assert s == [s[0]] + s[1..];
    }
  }

  lemma SortKeepsEntries<T>(key: T -> real, s: seq<T>, x: T)
    ensures x in SortBy(key, s) <==> x in s
  {
    SortSorts(key, s);
    assert x in multiset(SortBy(key, s)) <==> x in multiset(s);
  }

  lemma {:induction false} InsertUntied<T>(key: T -> real, x: T, s: seq<T>)
    requires Untied(key, s) && forall j :: 0 <= j < |s| ==> key(s[j]) != key(x)
    ensures Untied(key, Insert(key, x, s))
  {
    if s != [] && key(x) > key(s[0]) {
      var rest := Insert(key, x, s[1..]);
      InsertUntied(key, x, s[1..]);
      forall j | 0 <= j < |rest| ensures key(rest[j]) != key(s[0]) {
        InsertedAt(key, x, s[1..], j);
      }
    }
  }

  lemma {:induction false} SortUntied<T>(key: T -> real, s: seq<T>)
    requires Untied(key, s)
    ensures Untied(key, SortBy(key, s))
  {
    if s != [] {
      var rest := SortBy(key, s[1..]);
      SortUntied(key, s[1..]);
      forall j | 0 <= j < |rest| ensures key(rest[j]) != key(s[0]) {
        SortKeepsEntries(key, s[1..], rest[j]);
      }
      InsertUntied(key, s[0], rest);
    }
  }

  // ---- Counting --------------------------------------------------------------------------------------------

  function Count<T>(s: seq<T>, p: T -> bool): nat {
    if s == [] then 0 else (if p(s[0]) then 1 else 0) + Count(s[1..], p)
  }

  lemma {:induction false} CountOfConcat<T>(s: seq<T>, t: seq<T>, p: T -> bool)
    ensures Count(s + t, p) == Count(s, p) + Count(t, p)
  {
    if s == [] {
      assert s + t == t;
    } else {
      assert (s + t)[1..] == s[1..] + t;
      CountOfConcat(s[1..], t, p);
    }
  }

  lemma {:induction false} CountOfInsert<T>(key: T -> real, x: T, s: seq<T>, p: T -> bool)
    ensures Count(Insert(key, x, s), p) == Count([x], p) + Count(s, p)
  {
    if s == [] || key(x) <= key(s[0]) {
      CountOfConcat([x], s, p);
    } else {
      CountOfInsert(key, x, s[1..], p);
      CountOfConcat([s[0]], Insert(key, x, s[1..]), p);
    }
  }

  /** Sorting keeps every count. */
  lemma {:induction false} CountOfSort<T>(key: T -> real, s: seq<T>, p: T -> bool)
    ensures Count(SortBy(key, s), p) == Count(s, p)
  {
    if s != [] {
      CountOfSort(key, s[1..], p);
      CountOfInsert(key, s[0], SortBy(key, s[1..]), p);
    }
  }

  lemma {:induction false} CountNone<T>(s: seq<T>, p: T -> bool)
    requires forall i :: 0 <= i < |s| ==> !p(s[i])
    ensures Count(s, p) == 0
  {
    if s != [] { CountNone(s[1..], p); }
  }

  lemma {:induction false} CountAll<T>(s: seq<T>, p: T -> bool)
    ensures Count(s, p) <= |s|
    ensures (forall i :: 0 <= i < |s| ==> p(s[i])) ==> Count(s, p) == |s|
  {
    if s != [] { CountAll(s[1..], p); }
  }

  /** Where the first k entries all count and none of the others does. */
  lemma CountOfSplit<T>(s: seq<T>, k: nat, p: T -> bool)
    requires k <= |s|
    ensures (forall i :: 0 <= i < k ==> p(s[i])) ==> k <= Count(s, p)
    ensures (forall i :: k <= i < |s| ==> !p(s[i])) ==> Count(s, p) <= k
  {
    assert s == s[..k] + s[k..];
    CountOfConcat(s[..k], s[k..], p);
    CountAll(s[..k], p);
    if forall i :: k <= i < |s| ==> !p(s[i]) { CountNone(s[k..], p); }
  }
}
