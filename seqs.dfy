/** Sequence operations the dashboard code performs with `filter`, `reduce`
    and `forEach`: keeping the elements that pass a test, adding up a field,
    and the facts about them (order is kept, every element is counted once). */
module Seqs {

  /** `s.filter(p)`: the elements of s that pass p, in their original order.
      Defined from the end so that a loop over a prefix extends it one step at a time. */
  function Filter<T>(s: seq<T>, p: T -> bool): (r: seq<T>)
    ensures |r| <= |s|
    ensures forall i :: 0 <= i < |r| ==> p(r[i])
  {
    if s == [] then []
    else Filter(s[..|s| - 1], p) + (if p(s[|s| - 1]) then [s[|s| - 1]] else [])
  }

  /** `s.reduce((acc, x) => acc + f(x), 0)`. */
  function Sum<T>(s: seq<T>, f: T -> real): real {
    if s == [] then 0.0 else Sum(s[..|s| - 1], f) + f(s[|s| - 1])
  }

  /** The same sum over integer values. */
  function SumInt<T>(s: seq<T>, f: T -> int): int {
    if s == [] then 0 else SumInt(s[..|s| - 1], f) + f(s[|s| - 1])
  }

  /** a is obtained from b by deleting elements: the order of what is kept does not change. */
  predicate Subseq<T(==)>(a: seq<T>, b: seq<T>)
    decreases |b|
  {
    if a == [] then true
    else if b == [] then false
    else (a[|a| - 1] == b[|b| - 1] && Subseq(a[..|a| - 1], b[..|b| - 1])) || Subseq(a, b[..|b| - 1])
  }

  lemma {:induction false} SubseqRefl<T>(s: seq<T>)
    ensures Subseq(s, s)
    decreases |s|
  {
    if s != [] {
      SubseqRefl(s[..|s| - 1]);
    }
  }

  /** A filter keeps what it keeps in the input's order. */
  lemma {:induction false} FilterSubseq<T>(s: seq<T>, p: T -> bool)
    ensures Subseq(Filter(s, p), s)
    decreases |s|
  {
    if s != [] {
      var init := s[..|s| - 1];
      FilterSubseq(init, p);
      if p(s[|s| - 1]) {
        var r := Filter(s, p);
        assert r[..|r| - 1] == Filter(init, p);
      } else {
        assert Filter(s, p) == Filter(init, p);
        if Filter(s, p) != [] {
          assert Subseq(Filter(s, p), s[..|s| - 1]);
        }
      }
    }
  }

  /** Every element that passes the test is kept. */
  lemma {:induction false} FilterKeeps<T>(s: seq<T>, p: T -> bool, i: int)
    requires 0 <= i < |s| && p(s[i])
    ensures s[i] in Filter(s, p)
    decreases |s|
  {
    if i < |s| - 1 {
      FilterKeeps(s[..|s| - 1], p, i);
    }
  }

  /** Every kept element comes from the list. */
  lemma {:induction false} FilterFrom<T>(s: seq<T>, p: T -> bool, i: int)
    requires 0 <= i < |Filter(s, p)|
    ensures Filter(s, p)[i] in s
    decreases |s|
  {
    var init := s[..|s| - 1];
    if i < |Filter(init, p)| {
      FilterFrom(init, p, i);
    }
  }

  /** Subsequences compose: filtering a filtered list is still a subsequence of the original. */
  lemma {:induction false} SubseqTrans<T>(a: seq<T>, b: seq<T>, c: seq<T>)
    requires Subseq(a, b) && Subseq(b, c)
    ensures Subseq(a, c)
    decreases |c|
  {
    if a != [] && c != [] {
      if b[|b| - 1] == c[|c| - 1] && Subseq(b[..|b| - 1], c[..|c| - 1]) {
        if a[|a| - 1] == b[|b| - 1] && Subseq(a[..|a| - 1], b[..|b| - 1]) {
          SubseqTrans(a[..|a| - 1], b[..|b| - 1], c[..|c| - 1]);
        } else {
          SubseqTrans(a, b[..|b| - 1], c[..|c| - 1]);
        }
      } else {
        SubseqTrans(a, b, c[..|c| - 1]);
      }
    }
  }

  /** Elements added at the end of the larger list do not break a subsequence. */
  lemma SubseqExtend<T>(a: seq<T>, b: seq<T>, x: T)
    requires Subseq(a, b)
    ensures Subseq(a, b + [x])
  {
    assert (b + [x])[..|b + [x]| - 1] == b;
  }

  /** Subsequences concatenate: deleting from two pieces deletes from their concatenation. */
  lemma {:induction false} SubseqAppend<T>(a1: seq<T>, b1: seq<T>, a2: seq<T>, b2: seq<T>)
    requires Subseq(a1, b1) && Subseq(a2, b2)
    ensures Subseq(a1 + a2, b1 + b2)
    decreases |b2|
  {
    if b2 == [] {
      assert a2 == [];
      assert a1 + a2 == a1 && b1 + b2 == b1;
    } else {
      var b2i := b2[..|b2| - 1];
      assert (b1 + b2)[..|b1 + b2| - 1] == b1 + b2i;
      if a2 == [] {
        SubseqAppend(a1, b1, a2, b2i);
        assert a1 + a2 == a1;
        SubseqExtend(a1, b1 + b2i, b2[|b2| - 1]);
        assert b1 + b2i + [b2[|b2| - 1]] == b1 + b2;
      } else if a2[|a2| - 1] == b2[|b2| - 1] && Subseq(a2[..|a2| - 1], b2i) {
        SubseqAppend(a1, b1, a2[..|a2| - 1], b2i);
        assert (a1 + a2)[..|a1 + a2| - 1] == a1 + a2[..|a2| - 1];
      } else {
        SubseqAppend(a1, b1, a2, b2i);
      }
    }
  }

  /** Cutting s[i..k] out of s, and deleting from what follows it, leaves a
      subsequence of s. */
  lemma SubseqCut<T>(s: seq<T>, i: int, k: int, rc: seq<T>)
    requires 0 <= i <= k <= |s| && Subseq(rc, s[k..])
    ensures Subseq(s[..i] + rc, s)
  {
    SubseqRefl(s[..i]);
    SubseqAppend([], s[i..k], rc, s[k..]);
    assert [] + rc == rc;
    SubseqAppend(s[..i], s[..i], rc, s[i..k] + s[k..]);
    assert s[..i] + (s[i..k] + s[k..]) == s;
  }

  /** A filter that every element passes leaves the list as it is. */
  lemma {:induction false} FilterAll<T>(s: seq<T>, p: T -> bool)
    requires forall i :: 0 <= i < |s| ==> p(s[i])
    ensures Filter(s, p) == s
    decreases |s|
  {
    if s != [] {
      FilterAll(s[..|s| - 1], p);
    }
  }

  /** A filter that no element passes leaves nothing. */
  lemma {:induction false} FilterNone<T>(s: seq<T>, p: T -> bool)
    requires forall i :: 0 <= i < |s| ==> !p(s[i])
    ensures Filter(s, p) == []
    decreases |s|
  {
    if s != [] {
      FilterNone(s[..|s| - 1], p);
    }
  }

  /** Filtering two tests in turn keeps what passes both. */
  lemma {:induction false} FilterFilter<T>(s: seq<T>, p: T -> bool, q: T -> bool, pq: T -> bool)
    requires forall x :: pq(x) == (p(x) && q(x))
    ensures Filter(Filter(s, p), q) == Filter(s, pq)
    decreases |s|
  {
    if s != [] {
      var init := s[..|s| - 1];
      FilterFilter(init, p, q, pq);
      FilterSnoc(Filter(init, p), s[|s| - 1], q);
      if p(s[|s| - 1]) {
        assert Filter(s, p) == Filter(init, p) + [s[|s| - 1]];
      } else {
        assert Filter(s, p) == Filter(init, p);
      }
    }
  }

  /** Filtering a list extended by one element. */
  lemma FilterSnoc<T>(s: seq<T>, x: T, p: T -> bool)
    ensures Filter(s + [x], p) == Filter(s, p) + (if p(x) then [x] else [])
  {
    assert (s + [x])[..|s + [x]| - 1] == s;
  }

  /** Filtering a list extended at the front by one element. */
  lemma FilterCons<T>(x: T, s: seq<T>, p: T -> bool)
    ensures Filter([x] + s, p) == (if p(x) then [x] else []) + Filter(s, p)
  {
    FilterAppend([x], s, p);
    var one := Filter([x], p);
    assert [x][..0] == [];
    assert one == (if p(x) then [x] else []);
  }

  /** Concatenation is associative. */
  lemma AppendAssoc<T>(a: seq<T>, b: seq<T>, c: seq<T>)
    ensures (a + b) + c == a + (b + c)
  {
  }

  /** Filtering a non-empty list: its head, if it passes, then the filtered tail. */
  lemma FilterHead<T>(s: seq<T>, p: T -> bool)
    requires s != []
    ensures Filter(s, p) == (if p(s[0]) then [s[0]] else []) + Filter(s[1..], p)
  {
    assert s == [s[0]] + s[1..];
    FilterCons(s[0], s[1..], p);
  }

  /** Two tests that agree on every element of s keep the same elements. */
  lemma {:induction false} FilterExt<T>(s: seq<T>, p: T -> bool, q: T -> bool)
    requires forall i :: 0 <= i < |s| ==> p(s[i]) == q(s[i])
    ensures Filter(s, p) == Filter(s, q)
    decreases |s|
  {
    if s != [] {
      FilterExt(s[..|s| - 1], p, q);
    }
  }

  /** Filtering distributes over concatenation. */
  lemma {:induction false} FilterAppend<T>(a: seq<T>, b: seq<T>, p: T -> bool)
    ensures Filter(a + b, p) == Filter(a, p) + Filter(b, p)
    decreases |b|
  {
    if b == [] {
      assert a + b == a;
    } else {
      var bi := b[..|b| - 1];
      assert (a + b)[..|a + b| - 1] == a + bi;
      FilterAppend(a, bi, p);
    }
  }

  /** When every element passes exactly one of three tests, the three filtered
      lengths add up to the length of the list. */
  lemma {:induction false} Partition3<T>(s: seq<T>, p: T -> bool, q: T -> bool, r: T -> bool)
    requires forall i :: 0 <= i < |s| ==> (if p(s[i]) then 1 else 0) + (if q(s[i]) then 1 else 0) + (if r(s[i]) then 1 else 0) == 1
    ensures |Filter(s, p)| + |Filter(s, q)| + |Filter(s, r)| == |s|
    decreases |s|
  {
    if s != [] {
      Partition3(s[..|s| - 1], p, q, r);
    }
  }

  /** Filtered lengths of pairwise exclusive tests never add up to more than the list. */
  lemma {:induction false} Disjoint3<T>(s: seq<T>, p: T -> bool, q: T -> bool, r: T -> bool)
    requires forall i :: 0 <= i < |s| ==> (if p(s[i]) then 1 else 0) + (if q(s[i]) then 1 else 0) + (if r(s[i]) then 1 else 0) <= 1
    ensures |Filter(s, p)| + |Filter(s, q)| + |Filter(s, r)| <= |s|
    decreases |s|
  {
    if s != [] {
      Disjoint3(s[..|s| - 1], p, q, r);
    }
  }

  /** The complement of a filter has the remaining length. */
  lemma {:induction false} FilterComplement<T>(s: seq<T>, p: T -> bool, q: T -> bool)
    requires forall i :: 0 <= i < |s| ==> q(s[i]) == !p(s[i])
    ensures |Filter(s, p)| + |Filter(s, q)| == |s|
    decreases |s|
  {
    if s != [] {
      FilterComplement(s[..|s| - 1], p, q);
    }
  }

  /** A sum of non-negative values is non-negative. */
  lemma {:induction false} SumNonNeg<T>(s: seq<T>, f: T -> real)
    requires forall i :: 0 <= i < |s| ==> f(s[i]) >= 0.0
    ensures Sum(s, f) >= 0.0
    decreases |s|
  {
    if s != [] {
      SumNonNeg(s[..|s| - 1], f);
    }
  }

  /** Summing a list extended by one element. */
  lemma SumSnoc<T>(s: seq<T>, x: T, f: T -> real)
    ensures Sum(s + [x], f) == Sum(s, f) + f(x)
  {
    assert (s + [x])[..|s + [x]| - 1] == s;
  }

  /** Integer summing of an extended list. */
  lemma SumIntSnoc<T>(s: seq<T>, x: T, f: T -> int)
    ensures SumInt(s + [x], f) == SumInt(s, f) + f(x)
  {
    assert (s + [x])[..|s + [x]| - 1] == s;
  }

  /** Two value functions that agree on every element give the same sum. */
  lemma {:induction false} SumExt<T>(s: seq<T>, f: T -> real, g: T -> real)
    requires forall i :: 0 <= i < |s| ==> f(s[i]) == g(s[i])
    ensures Sum(s, f) == Sum(s, g)
    decreases |s|
  {
    if s != [] {
      SumExt(s[..|s| - 1], f, g);
    }
  }

  /** A sum that counts only the elements passing p equals the sum over the filtered list. */
  lemma {:induction false} SumFilter<T>(s: seq<T>, p: T -> bool, f: T -> real, g: T -> real)
    requires forall x :: g(x) == (if p(x) then f(x) else 0.0)
    ensures Sum(s, g) == Sum(Filter(s, p), f)
    decreases |s|
  {
    if s != [] {
      var init := s[..|s| - 1];
      SumFilter(init, p, f, g);
      if p(s[|s| - 1]) {
        assert Filter(s, p) == Filter(init, p) + [s[|s| - 1]];
        SumSnoc(Filter(init, p), s[|s| - 1], f);
      } else {
        assert Filter(s, p) == Filter(init, p);
      }
    }
  }

  /** Applying f to every element, in order: `s.map(f)`. */
  function Map<T, U>(s: seq<T>, f: T -> U): (r: seq<U>)
    ensures |r| == |s|
    ensures forall i :: 0 <= i < |s| ==> r[i] == f(s[i])
  {
    if s == [] then [] else Map(s[..|s| - 1], f) + [f(s[|s| - 1])]
  }

  /** Mapping keeps a subsequence a subsequence. */
  lemma {:induction false} MapSubseq<T, U>(a: seq<T>, b: seq<T>, f: T -> U)
    requires Subseq(a, b)
    ensures Subseq(Map(a, f), Map(b, f))
    decreases |b|
  {
    if a != [] && b != [] {
      var ai, bi := a[..|a| - 1], b[..|b| - 1];
      assert Map(a, f)[..|a| - 1] == Map(ai, f);
      assert Map(b, f)[..|b| - 1] == Map(bi, f);
      if a[|a| - 1] == b[|b| - 1] && Subseq(ai, bi) {
        MapSubseq(ai, bi, f);
      } else {
        MapSubseq(a, bi, f);
      }
    }
  }

  /** Where `slice` starts or stops for an integer argument: a negative one counts
      from the end, and either is clamped into [0, n]. */
  function SliceIndex(i: int, n: nat): (r: nat)
    ensures r <= n
    ensures 0 <= i <= n ==> r == i
    ensures i > n ==> r == n
    ensures i < 0 ==> r == if n + i >= 0 then n + i else 0
  {
    if i < 0 then (if n + i >= 0 then n + i else 0)
    else if i > n then n
    else i
  }

  /** `s.slice(start, end)`. */
  function Slice<T>(s: seq<T>, start: int, end: int): (r: seq<T>)
    ensures |r| <= |s|
    ensures 0 <= start <= end <= |s| ==> r == s[start..end]
    ensures 0 <= end <= start ==> r == []
  {
    var a := SliceIndex(start, |s|);
    var b := SliceIndex(end, |s|);
    if a <= b then s[a..b] else []
  }
}
