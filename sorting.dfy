/** The stable sort by a numeric key that both halves of the system use: the
    client sorts a copy of the village list with `Array.prototype.sort` and a
    subtracting comparator, the server sorts with Python's `sorted(...,
    reverse=True)`. Both library sorts are stable, so the model is a stable
    insertion sort. */
module Sorting {
  import opened Seqs

  /** a must come strictly before b: its key is smaller (ascending) or larger (descending). */
  predicate Before<T>(a: T, b: T, key: T -> real, asc: bool) {
    if asc then key(a) < key(b) else key(b) < key(a)
  }

  /** No element comes strictly before an element to its left. */
  predicate SortedBy<T>(s: seq<T>, key: T -> real, asc: bool) {
    forall i, j :: 0 <= i < j < |s| ==> !Before(s[j], s[i], key, asc)
  }

  /** The test "has key value k", used to state stability. */
  function KeyIs<T>(key: T -> real, k: real): T -> bool {
    x => key(x) == k
  }

  /** Places x into s in front of the first element x must precede; equal keys stay in front of x. */
  function Insert<T>(s: seq<T>, x: T, key: T -> real, asc: bool): (r: seq<T>)
    ensures |r| == |s| + 1
    ensures multiset(r) == multiset(s) + multiset{x}
  {
    if s == [] then [x]
    else if Before(x, s[0], key, asc) then [x] + s
    else
      assert s == [s[0]] + s[1..];
      [s[0]] + Insert(s[1..], x, key, asc)
  }

  /** Whatever must not precede y in s and x must not precede y in the insertion either. */
  lemma {:induction false} InsertBound<T>(s: seq<T>, x: T, y: T, key: T -> real, asc: bool)
    requires forall i :: 0 <= i < |s| ==> !Before(s[i], y, key, asc)
    requires !Before(x, y, key, asc)
    ensures forall i :: 0 <= i < |s| + 1 ==> !Before(Insert(s, x, key, asc)[i], y, key, asc)
    decreases |s|
  {
    if s != [] && !Before(x, s[0], key, asc) {
      InsertBound(s[1..], x, y, key, asc);
    }
  }

  /** Inserting into a sorted list keeps it sorted. */
  lemma {:induction false} InsertSorted<T>(s: seq<T>, x: T, key: T -> real, asc: bool)
    requires SortedBy(s, key, asc)
    ensures SortedBy(Insert(s, x, key, asc), key, asc)
    decreases |s|
  {
    if s != [] {
      if Before(x, s[0], key, asc) {
        var r := [x] + s;
        forall i, j | 0 <= i < j < |r|
          ensures !Before(r[j], r[i], key, asc)
        {
          if i == 0 {
            assert j == 1 || !Before(s[j - 1], s[0], key, asc);
          }
        }
      } else {
        InsertSorted(s[1..], x, key, asc);
        InsertBound(s[1..], x, s[0], key, asc);
      }
    }
  }

  /** Stable sort of s by key, ascending when asc holds and descending otherwise. */
  function SortBy<T>(s: seq<T>, key: T -> real, asc: bool): (r: seq<T>)
    ensures |r| == |s|
    ensures multiset(r) == multiset(s)
    ensures SortedBy(r, key, asc)
  {
    if s == [] then []
    else
      assert s == s[..|s| - 1] + [s[|s| - 1]];
      var init := SortBy(s[..|s| - 1], key, asc);
      InsertSorted(init, s[|s| - 1], key, asc);
      Insert(init, s[|s| - 1], key, asc)
  }

  /** The tail of a sorted list is sorted. */
  lemma SortedTail<T>(s: seq<T>, key: T -> real, asc: bool)
    requires s != [] && SortedBy(s, key, asc)
    ensures SortedBy(s[1..], key, asc)
  {
    var rest := s[1..];
    forall i, j | 0 <= i < j < |rest|
      ensures !Before(rest[j], rest[i], key, asc)
    {
      assert rest[i] == s[i + 1] && rest[j] == s[j + 1];
    }
  }

  /** When x goes in front of a sorted list, no element of the list shares its key. */
  lemma InsertFront<T>(s: seq<T>, x: T, key: T -> real, asc: bool, k: real)
    requires s != [] && SortedBy(s, key, asc) && Before(x, s[0], key, asc)
    ensures Filter([x] + s, KeyIs(key, k)) == Filter(s, KeyIs(key, k)) + (if key(x) == k then [x] else [])
  {
    var p := KeyIs(key, k);
    FilterCons(x, s, p);
    if key(x) == k {
      forall i | 0 <= i < |s|
        ensures !p(s[i])
      {
        assert i == 0 || !Before(s[i], s[0], key, asc);
      }
      FilterNone(s, p);
    }
  }

  /** Inserting x into a sorted list puts it behind every element with the same key. */
  lemma {:induction false} InsertStable<T>(s: seq<T>, x: T, key: T -> real, asc: bool, k: real)
    requires SortedBy(s, key, asc)
    ensures Filter(Insert(s, x, key, asc), KeyIs(key, k)) == Filter(s, KeyIs(key, k)) + (if key(x) == k then [x] else [])
    decreases |s|
  {
    var p := KeyIs(key, k);
    if s == [] {
      assert Filter([x], p) == Filter([], p) + (if p(x) then [x] else []);
    } else if Before(x, s[0], key, asc) {
      InsertFront(s, x, key, asc, k);
    } else {
      SortedTail(s, key, asc);
      InsertStable(s[1..], x, key, asc, k);
      InsertBehind(s, x, key, asc, k);
    }
  }

  /** When x goes behind the head of s, the head's place among the elements with
      key k does not change. */
  lemma InsertBehind<T>(s: seq<T>, x: T, key: T -> real, asc: bool, k: real)
    requires s != [] && !Before(x, s[0], key, asc)
    requires Filter(Insert(s[1..], x, key, asc), KeyIs(key, k)) == Filter(s[1..], KeyIs(key, k)) + (if key(x) == k then [x] else [])
    ensures Filter(Insert(s, x, key, asc), KeyIs(key, k)) == Filter(s, KeyIs(key, k)) + (if key(x) == k then [x] else [])
  {
    var p := KeyIs(key, k);
    var rest := s[1..];
    var ins := Insert(rest, x, key, asc);
    var head := if p(s[0]) then [s[0]] else [];
    var tail := if key(x) == k then [x] else [];
    FilterCons(s[0], ins, p);
    FilterHead(s, p);
    calc {
      Filter(Insert(s, x, key, asc), p);
      Filter([s[0]] + ins, p);
      head + Filter(ins, p);
      head + (Filter(rest, p) + tail);
      (head + Filter(rest, p)) + tail;
      Filter(s, p) + tail;
    }
  }

  /** The sort is stable: for every key value, the elements with that key appear
      in the output in exactly their input order. */
  lemma {:induction false} SortByStable<T>(s: seq<T>, key: T -> real, asc: bool, k: real)
    ensures Filter(SortBy(s, key, asc), KeyIs(key, k)) == Filter(s, KeyIs(key, k))
    decreases |s|
  {
    if s != [] {
      var init := s[..|s| - 1];
      SortByStable(init, key, asc, k);
      InsertStable(SortBy(init, key, asc), s[|s| - 1], key, asc, k);
    }
  }

  /** Inserting an element that no element must follow appends it. */
  lemma {:induction false} InsertLast<T>(s: seq<T>, x: T, key: T -> real, asc: bool)
    requires forall i :: 0 <= i < |s| ==> !Before(x, s[i], key, asc)
    ensures Insert(s, x, key, asc) == s + [x]
    decreases |s|
  {
    if s != [] {
      InsertLast(s[1..], x, key, asc);
      assert s == [s[0]] + s[1..];
    }
  }

  /** A list already in order is left as it is. */
  lemma {:induction false} SortBySorted<T>(s: seq<T>, key: T -> real, asc: bool)
    requires SortedBy(s, key, asc)
    ensures SortBy(s, key, asc) == s
    decreases |s|
  {
    if s != [] {
      var init := s[..|s| - 1];
      SortedInit(s, key, asc);
      SortBySorted(init, key, asc);
      InsertLast(init, s[|s| - 1], key, asc);
      assert init + [s[|s| - 1]] == s;
    }
  }

  /** Without its last element a sorted list is still sorted, and that element
      must precede none of the others. */
  lemma SortedInit<T>(s: seq<T>, key: T -> real, asc: bool)
    requires s != [] && SortedBy(s, key, asc)
    ensures SortedBy(s[..|s| - 1], key, asc)
    ensures forall i :: 0 <= i < |s| - 1 ==> !Before(s[|s| - 1], s[i], key, asc)
  {
    var init := s[..|s| - 1];
    forall i, j | 0 <= i < j < |init|
      ensures !Before(init[j], init[i], key, asc)
    {
      assert init[i] == s[i] && init[j] == s[j];
    }
  }

  /** Sorting twice with the same key and direction gives the same list as sorting once. */
  lemma SortByIdempotent<T>(s: seq<T>, key: T -> real, asc: bool)
    ensures SortBy(SortBy(s, key, asc), key, asc) == SortBy(s, key, asc)
  {
    SortBySorted(SortBy(s, key, asc), key, asc);
  }
}
