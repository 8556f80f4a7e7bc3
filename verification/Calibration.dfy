/** Sorted calibration samples and the counts binary search reads off them. */
module Calibration {

  ghost predicate Sorted(s: seq<real>) {
    forall i, j :: 0 <= i < j < |s| ==> s[i] <= s[j]
  }

  function Insert(x: real, s: seq<real>): (r: seq<real>)
    requires Sorted(s)
    ensures |r| == |s| + 1
    ensures r[0] == (if s == [] || x <= s[0] then x else s[0])
    ensures Sorted(r)
    ensures multiset(r) == multiset(s) + multiset{x}
  {
    if s == [] || x <= s[0] then
      SortedCons(x, s);
      [x] + s
    else
      assert s == [s[0]] + s[1..];
      var t := Insert(x, s[1..]);
      SortedCons(s[0], t);
      [s[0]] + t
  }

  lemma {:induction false} SortedCons(x: real, s: seq<real>)
    requires Sorted(s) && (s == [] || x <= s[0])
    ensures Sorted([x] + s)
  {
    forall i | 0 <= i < |s|
      ensures x <= s[i]
    {
    }
  }

  /** Ascending copy, every value kept with its multiplicity. */
  function Sort(xs: seq<real>): (r: seq<real>)
    ensures Sorted(r) && multiset(r) == multiset(xs) && |r| == |xs|
  {
    if xs == [] then []
    else
      assert xs == [xs[0]] + xs[1..];
      var r := Insert(xs[0], Sort(xs[1..]));
      assert |multiset(r)| == |r| && |multiset(xs)| == |xs|;
      r
  }

  /** Leftmost insertion point of x in s[lo..hi] (`right` false) or the rightmost one. */
  function Bisect(s: seq<real>, x: real, right: bool, lo: nat, hi: nat): (k: nat)
    requires lo <= hi <= |s| && Sorted(s)
    requires forall i :: 0 <= i < lo ==> (if right then s[i] <= x else s[i] < x)
    requires forall i :: hi <= i < |s| ==> (if right then s[i] > x else s[i] >= x)
    ensures k <= |s|
    ensures forall i :: 0 <= i < k ==> (if right then s[i] <= x else s[i] < x)
    ensures forall i :: k <= i < |s| ==> (if right then s[i] > x else s[i] >= x)
    decreases hi - lo
  {
    if lo == hi then lo
    else
      var mid := (lo + hi) / 2;
      if (if right then s[mid] <= x else s[mid] < x)
      then Bisect(s, x, right, mid + 1, hi)
      else Bisect(s, x, right, lo, mid)
  }

  function SearchLeft(s: seq<real>, x: real): nat
    requires Sorted(s)
  {
    Bisect(s, x, false, 0, |s|)
  }

  function SearchRight(s: seq<real>, x: real): nat
    requires Sorted(s)
  {
    Bisect(s, x, true, 0, |s|)
  }

  function CountGreater(xs: seq<real>, x: real): nat {
    if xs == [] then 0 else (if xs[0] > x then 1 else 0) + CountGreater(xs[1..], x)
  }

  function CountEqual(xs: seq<real>, x: real): nat {
    if xs == [] then 0 else (if xs[0] == x then 1 else 0) + CountEqual(xs[1..], x)
  }

  lemma {:induction false} CountConcat(xs: seq<real>, ys: seq<real>, x: real)
    ensures CountGreater(xs + ys, x) == CountGreater(xs, x) + CountGreater(ys, x)
    ensures CountEqual(xs + ys, x) == CountEqual(xs, x) + CountEqual(ys, x)
  {
    if xs == [] {
      assert xs + ys == ys;
    } else {
      assert (xs + ys)[1..] == xs[1..] + ys;
      CountConcat(xs[1..], ys, x);
    }
  }

  lemma {:induction false} CountBounds(xs: seq<real>, x: real)
    ensures CountGreater(xs, x) + CountEqual(xs, x) <= |xs|
    ensures CountEqual(xs, x) == multiset(xs)[x]
    ensures CountEqual(xs, x) > 0 <==> x in xs
  {
    if xs != [] {
      CountBounds(xs[1..], x);
      assert xs == [xs[0]] + xs[1..];
    }
  }

  lemma {:induction false} CountUniform(xs: seq<real>, x: real, above: bool)
    requires forall i :: 0 <= i < |xs| ==> (if above then xs[i] > x else xs[i] < x)
    ensures CountGreater(xs, x) == (if above then |xs| else 0) && CountEqual(xs, x) == 0
  {
    if xs != [] {
      CountUniform(xs[1..], x, above);
    }
  }

  lemma {:induction false} CountSame(xs: seq<real>, x: real)
    requires forall i :: 0 <= i < |xs| ==> xs[i] == x
    ensures CountGreater(xs, x) == 0 && CountEqual(xs, x) == |xs|
  {
    if xs != [] {
      CountSame(xs[1..], x);
    }
  }

  lemma {:induction false} CountRemove(ys: seq<real>, k: nat, x: real)
    requires k < |ys|
    ensures CountGreater(ys, x) == CountGreater(ys[..k] + ys[k + 1..], x) + CountGreater([ys[k]], x)
    ensures CountEqual(ys, x) == CountEqual(ys[..k] + ys[k + 1..], x) + CountEqual([ys[k]], x)
  {
    assert ys == (ys[..k] + [ys[k]]) + ys[k + 1..];
    CountConcat(ys[..k] + [ys[k]], ys[k + 1..], x);
    CountConcat(ys[..k], [ys[k]], x);
    CountConcat(ys[..k], ys[k + 1..], x);
  }

  lemma {:induction false} MultisetRemove(ys: seq<real>, k: nat)
    requires k < |ys|
    ensures multiset(ys[..k] + ys[k + 1..]) == multiset(ys) - multiset{ys[k]}
  {
    assert ys == ys[..k] + [ys[k]] + ys[k + 1..];
  }

  lemma {:induction false} MultisetTail(xs: seq<real>)
    requires xs != []
    ensures multiset(xs[1..]) == multiset(xs) - multiset{xs[0]}
    ensures xs[0] in multiset(xs)
  {
    assert xs == [xs[0]] + xs[1..];
  }

  lemma {:induction false} IndexOf(ys: seq<real>, x: real) returns (k: nat)
    requires x in multiset(ys)
    ensures k < |ys| && ys[k] == x
  {
    k :| 0 <= k < |ys| && ys[k] == x;
  }

  lemma {:induction false} MatchHead(xs: seq<real>, ys: seq<real>) returns (k: nat)
    requires multiset(xs) == multiset(ys) && xs != []
    ensures k < |ys| && ys[k] == xs[0] && multiset(xs[1..]) == multiset(ys[..k] + ys[k + 1..])
  {
    MultisetTail(xs);
    k := IndexOf(ys, xs[0]);
    MultisetRemove(ys, k);
  }

  /** Counting depends on the values only, not on their order. */
  lemma {:induction false} CountsByMultiset(xs: seq<real>, ys: seq<real>, x: real)
    requires multiset(xs) == multiset(ys)
    ensures CountGreater(xs, x) == CountGreater(ys, x) && CountEqual(xs, x) == CountEqual(ys, x)
    decreases |xs|
  {
    if xs == [] {
      assert |multiset(ys)| == |multiset(xs)| == 0;
    } else {
      var k := MatchHead(xs, ys);
      var rest := ys[..k] + ys[k + 1..];
      CountsByMultiset(xs[1..], rest, x);
      CountRemove(ys, k, x);
    }
  }

  /** The values above a value are among those not below any smaller one. */
  lemma {:induction false} CountOrder(xs: seq<real>, u: real, v: real)
    requires u < v
    ensures CountGreater(xs, u) >= CountGreater(xs, v) + CountEqual(xs, v)
  {
    if xs != [] {
      CountOrder(xs[1..], u, v);
    }
  }

  /** Counting one value after another gives the number of positions that hold such a value. */
  lemma {:induction false} CountsArePositions(xs: seq<real>, x: real, n: nat)
    requires n <= |xs|
    ensures CountGreater(xs[..n], x) == |Above(xs, x, n)| && CountEqual(xs[..n], x) == |Tied(xs, x, n)|
  {
    if n > 0 {
      assert xs[..n] == xs[..n - 1] + [xs[n - 1]];
      CountConcat(xs[..n - 1], [xs[n - 1]], x);
      CountsArePositions(xs, x, n - 1);
      OneMorePosition(xs, x, n - 1);
    }
  }

  /** The first n positions that hold a value above x, and those that hold x. */
  ghost function Above(xs: seq<real>, x: real, n: nat): set<nat>
    requires n <= |xs|
  {
    set i: nat | i < n && xs[i] > x
  }

  ghost function Tied(xs: seq<real>, x: real, n: nat): set<nat>
    requires n <= |xs|
  {
    set i: nat | i < n && xs[i] == x
  }

  lemma {:induction false} OneMorePosition(xs: seq<real>, x: real, n: nat)
    requires n < |xs|
    ensures |Above(xs, x, n + 1)| == |Above(xs, x, n)| + (if xs[n] > x then 1 else 0)
    ensures |Tied(xs, x, n + 1)| == |Tied(xs, x, n)| + (if xs[n] == x then 1 else 0)
  {
    if xs[n] > x {
      assert Above(xs, x, n + 1) == Above(xs, x, n) + {n};
    } else {
      assert Above(xs, x, n + 1) == Above(xs, x, n);
    }
    if xs[n] == x {
      assert Tied(xs, x, n + 1) == Tied(xs, x, n) + {n};
    } else {
      assert Tied(xs, x, n + 1) == Tied(xs, x, n);
    }
  }

  /** At most `rank` values lie below v, and more than that do not lie above it. */
  ghost predicate IsRank(xs: seq<real>, v: real, rank: nat) {
    |xs| - CountGreater(xs, v) - CountEqual(xs, v) <= rank < |xs| - CountGreater(xs, v)
  }

  lemma {:induction false} OneValuePerRank(xs: seq<real>, u: real, v: real, rank: nat)
    requires IsRank(xs, u, rank) && IsRank(xs, v, rank)
    ensures u == v
  {
    if u < v {
      CountOrder(xs, u, v);
    } else if v < u {
      CountOrder(xs, v, u);
    }
  }

  /** Sorting puts at each position the value of that rank. */
  lemma {:induction false} SortedAtRank(xs: seq<real>, rank: nat)
    requires rank < |xs|
    ensures IsRank(xs, Sort(xs)[rank], rank)
  {
    var s := Sort(xs);
    var v := s[rank];
    hide Sort;
    SearchCounts(s, v);
    CountsByMultiset(xs, s, v);
    var l, r := SearchLeft(s, v), SearchRight(s, v);
    assert l <= rank < r;
  }

  lemma {:induction false} CountSplit(s: seq<real>, l: nat, r: nat, x: real)
    requires l <= r <= |s|
    requires forall i :: 0 <= i < l ==> s[i] < x
    requires forall i :: l <= i < r ==> s[i] == x
    requires forall i :: r <= i < |s| ==> s[i] > x
    ensures |s| - r == CountGreater(s, x) && r - l == CountEqual(s, x)
  {
    var low, tie, high := s[..l], s[l..r], s[r..];
    assert s == (low + tie) + high;
    CountUniform(low, x, false);
    CountSame(tie, x);
    CountUniform(high, x, true);
    CountConcat(low + tie, high, x);
    CountConcat(low, tie, x);
  }

  /** The two binary searches count the strictly greater and the equal calibration values. */
  lemma {:induction false} SearchCounts(s: seq<real>, x: real)
    requires Sorted(s)
    ensures |s| - SearchRight(s, x) == CountGreater(s, x)
    ensures SearchRight(s, x) - SearchLeft(s, x) == CountEqual(s, x)
  {
    var l, r := SearchLeft(s, x), SearchRight(s, x);
    assert r < |s| ==> s[r] > x;
    CountSplit(s, l, r, x);
  }
}
