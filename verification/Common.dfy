/** Option and Result, and the sequence and ordering facts every other module uses. */
module Common {

  datatype Option<+T> = None | Some(value: T)

  datatype Result<+T, +E> = Ok(value: T) | Err(error: E)

  /** Largest integer a JavaScript number holds exactly. */
  const MAX_SAFE_INTEGER: nat := 9_007_199_254_740_991
  const U64_MAX: nat := 0xFFFF_FFFF_FFFF_FFFF

  // ---- filter and map -------------------------------------------------------------------

  function Filter<T(!new)>(s: seq<T>, keep: T -> bool): (r: seq<T>)
    ensures forall x :: x in r <==> x in s && keep(x)
    ensures |r| <= |s|
  {
    if s == [] then [] else (if keep(s[0]) then [s[0]] else []) + Filter(s[1..], keep)
  }

  function Map<T(!new), U>(s: seq<T>, f: T -> U): (r: seq<U>)
    ensures |r| == |s|
    ensures forall i :: 0 <= i < |s| ==> r[i] == f(s[i])
  {
    seq(|s|, i requires 0 <= i < |s| => f(s[i]))
  }

  /** No two positions carry the same key. */
  ghost predicate Distinct<T(!new), K(!new)>(s: seq<T>, key: T -> K) {
    forall i, j :: 0 <= i < j < |s| ==> key(s[i]) != key(s[j])
  }

  lemma {:induction false} FilterAll<T(!new)>(s: seq<T>, keep: T -> bool)
    requires forall x :: x in s ==> keep(x)
    ensures Filter(s, keep) == s
  {
    if s != [] {
      FilterAll(s[1..], keep);
    }
  }

  lemma {:induction false} FilterNone<T(!new)>(s: seq<T>, keep: T -> bool)
    requires forall x :: x in s ==> !keep(x)
    ensures Filter(s, keep) == []
  {
    if s != [] { FilterNone(s[1..], keep); }
  }

  lemma {:induction false} FilterSame<T(!new)>(s: seq<T>, p: T -> bool, q: T -> bool)
    requires forall x :: x in s ==> p(x) == q(x)
    ensures Filter(s, p) == Filter(s, q)
  {
    if s != [] { FilterSame(s[1..], p, q); }
  }

  lemma {:induction false} FilterConcat<T(!new)>(a: seq<T>, b: seq<T>, keep: T -> bool)
    ensures Filter(a + b, keep) == Filter(a, keep) + Filter(b, keep)
  {
    if a == [] {
      assert a + b == b;
    } else {
      var head := if keep(a[0]) then [a[0]] else [];
      calc {
        Filter(a + b, keep);
        { assert (a + b)[1..] == a[1..] + b; }
        head + Filter(a[1..] + b, keep);
        { FilterConcat(a[1..], b, keep); }
        head + (Filter(a[1..], keep) + Filter(b, keep));
        (head + Filter(a[1..], keep)) + Filter(b, keep);
      }
    }
  }

  lemma {:induction false} FilterDistinct<T(!new), K(!new)>(s: seq<T>, keep: T -> bool, key: T -> K)
    requires Distinct(s, key)
    ensures Distinct(Filter(s, keep), key)
  {
    if s != [] {
      var rest := Filter(s[1..], keep);
      FilterDistinct(s[1..], keep, key);
      forall j | 0 <= j < |rest| ensures key(rest[j]) != key(s[0]) {
        assert rest[j] in s[1..];
      }
    }
  }

  lemma DistinctElement<T(!new), K(!new)>(s: seq<T>, key: T -> K, x: T, y: T)
    requires Distinct(s, key) && x in s && y in s && key(x) == key(y)
    ensures x == y
  {
    var i :| 0 <= i < |s| && s[i] == x;
    var j :| 0 <= j < |s| && s[j] == y;
    if i < j || j < i {
      assert false;
    }
  }

  // ---- the order the three sorts use ------------------------------------------------------

  /** Byte-wise order of two strings. */
  predicate StrLess(a: string, b: string) {
    if b == [] then false
    else if a == [] then true
    else a[0] < b[0] || (a[0] == b[0] && StrLess(a[1..], b[1..]))
  }

  /** Sort key: nodes and pools sort by id alone (rank 0), routes by priority and then id. */
  datatype Key = Key(rank: int, id: string)

  predicate Before(a: Key, b: Key) {
    a.rank < b.rank || (a.rank == b.rank && StrLess(a.id, b.id))
  }

  lemma {:induction false} StrOrder(a: string, b: string)
    ensures a == b || StrLess(a, b) || StrLess(b, a)
    ensures !(StrLess(a, b) && StrLess(b, a))
    ensures !StrLess(a, a)
  {
    if a != [] {
      StrOrder(a[1..], a[1..]);
      if b != [] {
        StrOrder(a[1..], b[1..]);
        if a[0] == b[0] && a[1..] == b[1..] {
          assert a == [a[0]] + a[1..] == b;
        }
      }
    }
  }

  lemma {:induction false} StrTransitive(a: string, b: string, c: string)
    requires StrLess(a, b) && StrLess(b, c)
    ensures StrLess(a, c)
  {
    if a != [] && a[0] == b[0] && b[0] == c[0] {
      StrTransitive(a[1..], b[1..], c[1..]);
    }
  }

  lemma KeyOrder(a: Key, b: Key)
    ensures a == b || Before(a, b) || Before(b, a)
    ensures !(Before(a, b) && Before(b, a))
    ensures !Before(a, a)
  {
    StrOrder(a.id, b.id);
    StrOrder(a.id, a.id);
  }

  lemma KeyTransitive(a: Key, b: Key, c: Key)
    requires Before(a, b) && Before(b, c)
    ensures Before(a, c)
  {
    if a.rank == b.rank && b.rank == c.rank {
      StrTransitive(a.id, b.id, c.id);
    }
  }

  // ---- sorting ------------------------------------------------------------------------------

  /** Puts x in front of the first element whose key does not precede x's, so equal keys keep
      their order. */
  function Insert<T(!new)>(x: T, s: seq<T>, key: T -> Key): (r: seq<T>)
    ensures |r| == |s| + 1
    ensures forall y :: y in r <==> y == x || y in s
  {
    if s == [] then [x]
    else if Before(key(s[0]), key(x)) then [s[0]] + Insert(x, s[1..], key)
    else [x] + s
  }

  /** A stable sort by key. */
  function Sort<T(!new)>(s: seq<T>, key: T -> Key): (r: seq<T>)
    ensures |r| == |s|
    ensures forall y :: y in r <==> y in s
  {
    if s == [] then [] else Insert(s[0], Sort(s[1..], key), key)
  }

  /** Strictly increasing keys. */
  ghost predicate Ascending<T(!new)>(s: seq<T>, key: T -> Key) {
    forall i, j :: 0 <= i < j < |s| ==> Before(key(s[i]), key(s[j]))
  }

  /** Keys that never decrease. */
  ghost predicate Ordered<T(!new)>(s: seq<T>, key: T -> Key) {
    forall i, j :: 0 <= i < j < |s| ==> !Before(key(s[j]), key(s[i]))
  }

  lemma {:induction false} InsertOrdered<T(!new)>(x: T, s: seq<T>, key: T -> Key)
    requires Ordered(s, key)
    ensures Ordered(Insert(x, s, key), key)
  {
    if s != [] {
      if Before(key(s[0]), key(x)) {
        InsertOrdered(x, s[1..], key);
        var r := Insert(x, s[1..], key);
        forall j | 0 <= j < |r| ensures !Before(key(r[j]), key(s[0])) {
          assert r[j] == x || r[j] in s[1..];
          KeyOrder(key(x), key(s[0]));
        }
      } else {
        forall j | 0 <= j < |s| ensures !Before(key(s[j]), key(x)) {
          if Before(key(s[j]), key(x)) {
            KeyOrder(key(s[0]), key(s[j]));
            if j != 0 && key(s[0]) != key(s[j]) {
              KeyTransitive(key(s[0]), key(s[j]), key(x));
            }
          }
        }
      }
    }
  }

  lemma {:induction false} SortOrdered<T(!new)>(s: seq<T>, key: T -> Key)
    ensures Ordered(Sort(s, key), key)
  {
    if s != [] {
      SortOrdered(s[1..], key);
      InsertOrdered(s[0], Sort(s[1..], key), key);
    }
  }

  lemma {:induction false} InsertDistinct<T(!new)>(x: T, s: seq<T>, key: T -> Key)
    requires Distinct(s, key) && forall y :: y in s ==> key(y) != key(x)
    ensures Distinct(Insert(x, s, key), key)
  {
    if s != [] && Before(key(s[0]), key(x)) {
      InsertDistinct(x, s[1..], key);
      var r := Insert(x, s[1..], key);
      forall j | 0 <= j < |r| ensures key(r[j]) != key(s[0]) {
        assert r[j] == x || r[j] in s[1..];
      }
    }
  }

  lemma {:induction false} SortDistinct<T(!new)>(s: seq<T>, key: T -> Key)
    requires Distinct(s, key)
    ensures Distinct(Sort(s, key), key)
  {
    if s != [] {
      SortDistinct(s[1..], key);
      forall y | y in Sort(s[1..], key) ensures key(y) != key(s[0]) {
        assert y in s[1..];
      }
      InsertDistinct(s[0], Sort(s[1..], key), key);
    }
  }

  /** Sorting a list with distinct keys yields strictly increasing keys. */
  lemma {:induction false} SortAscending<T(!new)>(s: seq<T>, key: T -> Key)
    requires Distinct(s, key)
    ensures Ascending(Sort(s, key), key)
  {
    var r := Sort(s, key);
    SortOrdered(s, key);
    SortDistinct(s, key);
    forall i, j | 0 <= i < j < |r| ensures Before(key(r[i]), key(r[j])) {
      KeyOrder(key(r[i]), key(r[j]));
    }
  }

  /** A list already in strictly increasing order is a fixed point of the sort. */
  lemma {:induction false} SortOfAscending<T(!new)>(s: seq<T>, key: T -> Key)
    requires Ascending(s, key)
    ensures Sort(s, key) == s
  {
    if s != [] {
      SortOfAscending(s[1..], key);
      if |s| > 1 {
        KeyOrder(key(s[0]), key(s[1]));
      }
    }
  }

  /** Two strictly increasing lists with the same elements are the same list. */
  lemma {:induction false} AscendingUnique<T(!new)>(a: seq<T>, b: seq<T>, key: T -> Key)
    requires Ascending(a, key) && Ascending(b, key)
    requires forall x :: x in a <==> x in b
    ensures a == b
  {
    SameElementsEmpty(a, b);
    if a != [] {
      assert a[0] in b && b[0] in a;
      var i :| 0 <= i < |b| && b[i] == a[0];
      var j :| 0 <= j < |a| && a[j] == b[0];
      if i != 0 {
        assert Before(key(b[0]), key(a[0]));
        KeyOrder(key(a[0]), key(b[0]));
        assert false;
      }
      forall x ensures x in a[1..] <==> x in b[1..] {
        AscendingHeadOnce(a, key);
        AscendingHeadOnce(b, key);
        assert x in a <==> x == a[0] || x in a[1..];
        assert x in b <==> x == b[0] || x in b[1..];
      }
      AscendingUnique(a[1..], b[1..], key);
    }
  }

  lemma SameElementsEmpty<T(!new)>(a: seq<T>, b: seq<T>)
    requires forall x :: x in a <==> x in b
    ensures a == [] <==> b == []
  {
    if a != [] { assert a[0] in b; }
    if b != [] { assert b[0] in a; }
  }

  lemma AscendingHeadOnce<T(!new)>(a: seq<T>, key: T -> Key)
    requires Ascending(a, key) && a != []
    ensures a[0] !in a[1..]
  {
    if a[0] in a[1..] {
      var k :| 1 <= k < |a| && a[k] == a[0];
      KeyOrder(key(a[0]), key(a[k]));
      assert false;
    }
  }

  /** Sorting does not depend on the order of the input when the keys are distinct. */
  lemma {:induction false} SortUnique<T(!new)>(a: seq<T>, b: seq<T>, key: T -> Key)
    requires Distinct(a, key) && Distinct(b, key)
    requires forall x :: x in a <==> x in b
    ensures Sort(a, key) == Sort(b, key)
  {
    SortAscending(a, key);
    SortAscending(b, key);
    AscendingUnique(Sort(a, key), Sort(b, key), key);
  }

  // ---- sorted, duplicate-free id lists --------------------------------------------------------

  function IdKey(id: string): Key { Key(0, id) }

  /** Drops an element equal to its left neighbour. */
  function Dedup(s: seq<string>): (r: seq<string>)
    ensures forall x :: x in r <==> x in s
    ensures |r| <= |s|
  {
    if |s| <= 1 then s
    else if s[0] == s[1] then Dedup(s[1..])
    else [s[0]] + Dedup(s[1..])
  }

  lemma {:induction false} DedupAscending(s: seq<string>)
    requires Ordered(s, IdKey)
    ensures Ascending(Dedup(s), IdKey)
  {
    if |s| > 1 {
      DedupAscending(s[1..]);
      if s[0] != s[1] {
        var r := Dedup(s[1..]);
        forall j | 0 <= j < |r| ensures Before(IdKey(s[0]), IdKey(r[j])) {
          assert r[j] in s[1..];
          var k :| 1 <= k < |s| && s[k] == r[j];
          KeyOrder(IdKey(s[0]), IdKey(s[1]));
          KeyOrder(IdKey(s[0]), IdKey(s[k]));
          assert k == 1 || !Before(IdKey(s[k]), IdKey(s[1]));
        }
      }
    }
  }

  /** Sort and remove duplicates. */
  function SortedIds(s: seq<string>): (r: seq<string>)
    ensures forall x :: x in r <==> x in s
  {
    Dedup(Sort(s, IdKey))
  }

  lemma SortedIdsAscending(s: seq<string>)
    ensures Ascending(SortedIds(s), IdKey)
  {
    SortOrdered(s, IdKey);
    DedupAscending(Sort(s, IdKey));
  }
}
