/** One masked trunk for all channels. */
module MaskedModels {
  // Channels are predicted group by group, each from the pass in which its group, at every lag, was masked.

  import opened Features
  import opened IntMath
  import opened Timelines

  const MASK_GROUPS_MAX: nat := 8

  // ---- the partition ---------------------------------------------------------------------------------

  /** perm lists 0, ..., |perm| - 1 in some order. */
  ghost predicate IsPermutation(perm: seq<nat>) {
    && InRange(perm, |perm|)
    && (forall i, j :: 0 <= i < j < |perm| ==> perm[i] != perm[j])
    && forall c :: 0 <= c < |perm| ==> In(perm, c)
  }

  /** Every k-th entry from i on. */
  function Stride(perm: seq<nat>, i: nat, k: nat): seq<nat>
    requires k >= 1
    decreases |perm| - i
  {
    if i >= |perm| then [] else [perm[i]] + Stride(perm, i + k, k)
  }

  /** The numbers below n that occur in s, ascending: what sorting makes of a list without repetition. */
  function Ascending(s: seq<nat>, n: nat): (sorted: seq<nat>)
    ensures InRange(sorted, n)
  {
    if n == 0 then [] else Ascending(s, n - 1) + if In(s, n - 1) then [n - 1] else []
  }

  function GroupCount(d: nat): nat { if d < MASK_GROUPS_MAX then d else MASK_GROUPS_MAX }

  /** The fixed groups for a seeded permutation of the channels. */
  function Groups(perm: seq<nat>): (groups: seq<seq<nat>>)
    ensures |groups| == GroupCount(|perm|)
  {
    var k := GroupCount(|perm|);
    seq(k, i requires 0 <= i < k => Ascending(Stride(perm, i, k), |perm|))
  }

  lemma {:induction false} InCons(x: nat, s: seq<nat>, t: nat)
    ensures In([x] + s, t) <==> t == x || In(s, t)
  {
    InConcat([x], s, t);
    assert [x][0] == x;
  }

  lemma {:induction false} AscendingIn(s: seq<nat>, n: nat, t: nat)
    ensures In(Ascending(s, n), t) <==> In(s, t) && t < n
  {
    if n > 0 {
      AscendingIn(s, n - 1, t);
      if In(s, n - 1) {
        InConcat(Ascending(s, n - 1), [n - 1], t);
        assert [n - 1][0] == n - 1;
      } else {
        assert Ascending(s, n) == Ascending(s, n - 1);
      }
    }
  }

  lemma {:induction false} AscendingRises(s: seq<nat>, n: nat)
    ensures Rising(Ascending(s, n))
  {
    if n > 0 {
      AscendingRises(s, n - 1);
    }
  }

  lemma {:induction false} ModStep(p: int, k: nat)
    requires k >= 1 && p >= k
    ensures p % k == (p - k) % k
  {
    var q, r := (p - k) / k, (p - k) % k;
    assert (q + 1) * k == q * k + k;
    DivUnique(p, k, q + 1, r);
  }

  /** Position p is on the stride from i exactly when it is i steps of k away. */
  lemma {:induction false} StrideIn(perm: seq<nat>, i: nat, k: nat, p: nat)
    requires k >= 1 && p < |perm| && IsPermutation(perm)
    ensures In(Stride(perm, i, k), perm[p]) <==> p >= i && (p - i) % k == 0
    decreases |perm| - i
  {
    if i < |perm| {
      StrideIn(perm, i + k, k, p);
      InCons(perm[i], Stride(perm, i + k, k), perm[p]);
      assert perm[p] == perm[i] <==> p == i;
      if p >= i + k {
        ModStep(p - i, k);
      } else if p > i {
        DivUnique(p - i, k, 0, p - i);
      } else if p == i {
        DivUnique(0, k, 0, 0);
      }
    }
  }

  lemma {:induction false} ModAt(p: nat, i: nat, k: nat)
    requires i < k
    ensures p % k == i <==> p >= i && (p - i) % k == 0
  {
    if p >= i {
      var q, r := (p - i) / k, (p - i) % k;
      if i + r < k {
        DivUnique(p, k, q, i + r);
      } else {
        assert (q + 1) * k == q * k + k;
        DivUnique(p, k, q + 1, i + r - k);
      }
    } else {
      DivUnique(p, k, 0, p);
    }
  }

  /** Each channel of 0, ..., d - 1 is in exactly one of the groups, and they hold nothing else. */
  ghost predicate Partitions(groups: seq<seq<nat>>, d: nat) {
    && (forall g :: 0 <= g < |groups| ==> InRange(groups[g], d))
    && (forall c :: 0 <= c < d ==> InOneGroup(groups, c))
  }

  ghost predicate InOneGroup(groups: seq<seq<nat>>, c: nat) { exists g: nat :: OnlyGroup(groups, c, g) }

  ghost predicate OnlyGroup(groups: seq<seq<nat>>, c: nat, g: nat) {
    g < |groups| && forall h :: 0 <= h < |groups| ==> (In(groups[h], c) <==> h == g)
  }

  lemma {:induction false} GroupsPartition(perm: seq<nat>)
    requires IsPermutation(perm)
    ensures Partitions(Groups(perm), |perm|) && |Groups(perm)| == if |perm| < 8 then |perm| else 8
    ensures forall g :: 0 <= g < |Groups(perm)| ==> In(Groups(perm)[g], perm[g]) && Rising(Groups(perm)[g])
  {
    var k, groups := GroupCount(|perm|), Groups(perm);
    forall g | 0 <= g < k
      ensures InRange(groups[g], |perm|) && In(groups[g], perm[g]) && Rising(groups[g])
    {
      AscendingRises(Stride(perm, g, k), |perm|);
      StrideIn(perm, g, k, g);
      AscendingIn(Stride(perm, g, k), |perm|, perm[g]);
      DivUnique(0, k, 0, 0);
    }
    forall c | 0 <= c < |perm|
      ensures InOneGroup(groups, c)
    {
      var g := ChannelsGroup(perm, c);
    }
  }

  lemma {:induction false} ChannelsGroup(perm: seq<nat>, c: nat) returns (g: nat)
    requires IsPermutation(perm) && c < |perm|
    ensures OnlyGroup(Groups(perm), c, g)
  {
    var k, groups := GroupCount(|perm|), Groups(perm);
    assert In(perm, c);
    var p :| 0 <= p < |perm| && perm[p] == c;
    g := p % k;
    hide In;
    forall h | 0 <= h < k
      ensures In(groups[h], c) <==> h == g
    {
      AscendingIn(Stride(perm, h, k), |perm|, c);
      StrideIn(perm, h, k, p);
      ModAt(p, h, k);
    }
  }

  // ---- masking a group --------------------------------------------------------------------------------

  /** The feature columns of a group: each of its channels in every block. */
  function GroupCols(g: seq<nat>, d: nat, blocks: nat): seq<nat> {
    if blocks == 0 then [] else GroupCols(g, d, blocks - 1) + Shifted(g, (blocks - 1) * d)
  }

  /** Column b * d + c of the features, channel c at lag b, is masked exactly when c is in the group. */
  lemma {:induction false} ColsAreOwnHistory(g: seq<nat>, d: nat, blocks: nat, b: nat, c: nat)
    requires InRange(g, d) && c < d
    ensures In(GroupCols(g, d, blocks), b * d + c) <==> b < blocks && In(g, c)
  {
    hide In, InRange;
    if blocks > 0 {
      var last := blocks - 1;
      ColsAreOwnHistory(g, d, last, b, c);
      InConcat(GroupCols(g, d, last), Shifted(g, last * d), b * d + c);
      InShifted(g, last * d, b * d + c);
      if b > last {
        MulMono(last + 1, b, d);
        assert (last + 1) * d == last * d + d;
        InBelow(g, d, b * d + c - last * d);
      } else if b < last {
        MulMono(b + 1, last, d);
        assert (b + 1) * d == b * d + d;
      }
    } else {
      NothingIn(b * d + c);
    }
  }

  lemma {:induction false} NothingIn(t: nat)
    ensures !In([], t)
  {
  }

  /** The features with the given columns zeroed, and the indicator of the group. */
  function ZeroAt(x: seq<real>, cols: seq<nat>): (masked: seq<real>)
    requires InRange(cols, |x|)
    ensures |masked| == |x|
  {
    if cols == [] then x else ZeroAt(x, cols[..|cols| - 1])[cols[|cols| - 1] := 0.0]
  }

  function Indicator(d: nat, g: seq<nat>): (ind: seq<real>)
    requires InRange(g, d)
    ensures |ind| == d
  {
    Scatter(d, g, seq(|g|, _ => 1.0))
  }

  /** The indicator is 1 at exactly the group's channels. */
  lemma {:induction false} IndicatorAt(d: nat, g: seq<nat>, c: nat)
    requires InRange(g, d) && c < d
    ensures Indicator(d, g)[c] == if In(g, c) then 1.0 else 0.0
  {
    if g != [] {
      var m := |g| - 1;
      IndicatorAt(d, g[..m], c);
      assert seq(|g|, _ => 1.0)[..m] == seq(m, _ => 1.0);
      InConcat(g[..m], [g[m]], c);
      assert g[..m] + [g[m]] == g;
      assert [g[m]][0] == g[m];
    }
  }

  lemma {:induction false} ZeroAtKeeps(x: seq<real>, cols: seq<nat>, t: nat)
    requires InRange(cols, |x|) && t < |x|
    ensures ZeroAt(x, cols)[t] == if In(cols, t) then 0.0 else x[t]
  {
    if cols != [] {
      var m := |cols| - 1;
      ZeroAtKeeps(x, cols[..m], t);
      InConcat(cols[..m], [cols[m]], t);
      assert cols[..m] + [cols[m]] == cols;
      assert [cols[m]][0] == cols[m];
    }
  }

  /** A trunk maps masked features and an indicator to one row of quantiles a channel. */
  ghost predicate IsTrunk(trunk: seq<real> -> Matrix, d: nat) {
    forall x :: |x| == (LAG + 1) * d + d ==> OutputOk(trunk(x), d)
  }

  ghost predicate OutputOk(out: Matrix, d: nat) {
    |out| == d && forall c :: 0 <= c < d ==> |out[c]| > MEDIAN_HEAD
  }

  lemma {:induction false} ColsInRange(g: seq<nat>, d: nat, blocks: nat)
    requires InRange(g, d)
    ensures InRange(GroupCols(g, d, blocks), blocks * d)
  {
    if blocks > 0 {
      ColsInRange(g, d, blocks - 1);
      assert blocks * d == (blocks - 1) * d + d;
    }
  }

  /** The trunk's output on a row with group g masked. */
  function MaskedPass(trunk: seq<real> -> Matrix, d: nat, g: seq<nat>, x: seq<real>): (out: Matrix)
    requires IsTrunk(trunk, d) && InRange(g, d) && |x| == (LAG + 1) * d
    ensures OutputOk(out, d)
  {
    ColsInRange(g, d, LAG + 1);
    trunk(ZeroAt(x, GroupCols(g, d, LAG + 1)) + Indicator(d, g))
  }

  /** Two feature rows that differ only in the group's channels, at whatever lag. */
  ghost predicate AgreeOff(x: seq<real>, y: seq<real>, d: nat, g: seq<nat>)
    requires |x| == |y| == (LAG + 1) * d
  {
    forall t :: 0 <= t < |x| && !In(GroupCols(g, d, LAG + 1), t) ==> x[t] == y[t]
  }

  lemma {:induction false} PassIgnoresGroup(trunk: seq<real> -> Matrix, d: nat, g: seq<nat>, x: seq<real>, y: seq<real>)
    requires IsTrunk(trunk, d) && InRange(g, d) && |x| == |y| == (LAG + 1) * d && AgreeOff(x, y, d, g)
    ensures MaskedPass(trunk, d, g, x) == MaskedPass(trunk, d, g, y)
  {
    var cols := GroupCols(g, d, LAG + 1);
    ColsInRange(g, d, LAG + 1);
    forall t | 0 <= t < |x|
      ensures ZeroAt(x, cols)[t] == ZeroAt(y, cols)[t]
    {
      ZeroAtKeeps(x, cols, t);
      ZeroAtKeeps(y, cols, t);
    }
    assert ZeroAt(x, cols) == ZeroAt(y, cols);
  }

  /** Two histories that differ only in the group's channels. */
  ghost predicate HistoriesAgreeOff(z: Matrix, z': Matrix, d: nat, g: seq<nat>)
    requires IsMatrix(z, d) && IsMatrix(z', d)
  {
    |z| == |z'| && forall r, c :: 0 <= r < |z| && 0 <= c < d && !In(g, c) ==> z[r][c] == z'[r][c]
  }

  lemma {:induction false} RowsAgreeOff(z: Matrix, z': Matrix, d: nat, g: seq<nat>, i: nat, blocks: nat, t: nat)
    requires IsMatrix(z, d) && IsMatrix(z', d) && HistoriesAgreeOff(z, z', d, g) && InRange(g, d)
    requires i + LAG < |z| && blocks <= LAG + 1 && t < blocks * d
    ensures !In(GroupCols(g, d, blocks), t) ==> LagRow(z, d, i, blocks)[t] == LagRow(z', d, i, blocks)[t]
  {
    var front := (blocks - 1) * d;
    assert blocks * d == front + d;
    InConcat(GroupCols(g, d, blocks - 1), Shifted(g, front), t);
    if t < front {
      RowsAgreeOff(z, z', d, g, i, blocks - 1, t);
    } else {
      InShifted(g, front, t);
      assert !In(g, t - front) ==> z[i + LAG - (blocks - 1)][t - front] == z'[i + LAG - (blocks - 1)][t - front];
    }
  }

  /** Own-history exclusion: a channel's prediction does not change when its group's channels, its own
      included, change at any time, past or present, whatever the trunk. */
  lemma {:induction false} PredictionIgnoresOwnGroup(trunk: seq<real> -> Matrix, z: Matrix, z': Matrix, d: nat, g: seq<nat>, i: nat)
    requires IsTrunk(trunk, d) && InRange(g, d) && IsMatrix(z, d) && IsMatrix(z', d)
    requires HistoriesAgreeOff(z, z', d, g) && i + LAG < |z|
    ensures MaskedPass(trunk, d, g, LagRow(z, d, i, LAG + 1)) == MaskedPass(trunk, d, g, LagRow(z', d, i, LAG + 1))
  {
    var x, y := LagRow(z, d, i, LAG + 1), LagRow(z', d, i, LAG + 1);
    forall t | 0 <= t < |x| && !In(GroupCols(g, d, LAG + 1), t)
      ensures x[t] == y[t]
    {
      RowsAgreeOff(z, z', d, g, i, LAG + 1, t);
    }
    PassIgnoresGroup(trunk, d, g, x, y);
  }

  // ---- prediction, chunk by chunk and group by group ---------------------------------------------------

  /** Every entry is read from the pass in which its channel's group was masked. */
  ghost predicate ReadMasked(trunk: seq<real> -> Matrix, groups: seq<seq<nat>>, feat: Matrix, d: nat, pred: Matrix)
    requires IsTrunk(trunk, d) && Partitions(groups, d) && IsMatrix(feat, (LAG + 1) * d)
  {
    && |pred| == |feat| && IsMatrix(pred, d)
    && forall r, g, c :: 0 <= r < |feat| && 0 <= g < |groups| && 0 <= c < d && In(groups[g], c) ==>
         pred[r][c] == MaskedPass(trunk, d, groups[g], feat[r])[c][MEDIAN_HEAD]
  }

  method Predict(trunk: seq<real> -> Matrix, groups: seq<seq<nat>>, feat: Matrix, d: nat) returns (pred: Matrix)
    requires IsTrunk(trunk, d) && Partitions(groups, d) && IsMatrix(feat, (LAG + 1) * d)
    ensures ReadMasked(trunk, groups, feat, d, pred)
  {
    hide MaskedPass, IsTrunk, Partitions;
    pred := seq(|feat|, _ => Zeros(d));
    var a := 0;
    while a < |feat|
      invariant 0 <= a <= |feat| && |pred| == |feat| && IsMatrix(pred, d)
      invariant forall r :: 0 <= r < a ==> RowRead(trunk, groups, |groups|, feat[r], d, pred[r])
    {
      var b := if a + EVAL_CHUNK < |feat| then a + EVAL_CHUNK else |feat|;
      for g := 0 to |groups|
        invariant |pred| == |feat| && IsMatrix(pred, d)
        invariant forall r :: 0 <= r < a ==> RowRead(trunk, groups, |groups|, feat[r], d, pred[r])
        invariant forall r :: a <= r < b ==> RowRead(trunk, groups, g, feat[r], d, pred[r])
      {
        for r := a to b
          invariant |pred| == |feat| && IsMatrix(pred, d)
          invariant forall q :: 0 <= q < a ==> RowRead(trunk, groups, |groups|, feat[q], d, pred[q])
          invariant forall q :: a <= q < b ==> RowRead(trunk, groups, if q < r then g + 1 else g, feat[q], d, pred[q])
        {
          var row := ReadGroup(trunk, groups, g, feat[r], d, pred[r]);
          pred := pred[r := row];
        }
      }
      a := b;
    }
    RowsAreRead(trunk, groups, feat, d, pred);
  }

  lemma {:induction false} RowsAreRead(trunk: seq<real> -> Matrix, groups: seq<seq<nat>>, feat: Matrix, d: nat, pred: Matrix)
    requires IsTrunk(trunk, d) && Partitions(groups, d) && IsMatrix(feat, (LAG + 1) * d)
    requires |pred| == |feat| && IsMatrix(pred, d)
    requires forall r :: 0 <= r < |feat| ==> RowRead(trunk, groups, |groups|, feat[r], d, pred[r])
    ensures ReadMasked(trunk, groups, feat, d, pred)
  {
    hide MaskedPass, IsTrunk, In;
    forall r, g, c | 0 <= r < |feat| && 0 <= g < |groups| && 0 <= c < d && In(groups[g], c)
      ensures pred[r][c] == MaskedPass(trunk, d, groups[g], feat[r])[c][MEDIAN_HEAD]
    {
      assert RowRead(trunk, groups, |groups|, feat[r], d, pred[r]);
    }
  }

  /** The entries of the first n groups have been read. */
  ghost predicate RowRead(trunk: seq<real> -> Matrix, groups: seq<seq<nat>>, n: nat, x: seq<real>, d: nat, row: seq<real>)
    requires IsTrunk(trunk, d) && Partitions(groups, d) && |x| == (LAG + 1) * d
  {
    && |row| == d && n <= |groups|
    && forall g, c :: 0 <= g < n && 0 <= c < d && In(groups[g], c) ==>
         row[c] == MaskedPass(trunk, d, groups[g], x)[c][MEDIAN_HEAD]
  }

  method ReadGroup(trunk: seq<real> -> Matrix, groups: seq<seq<nat>>, g: nat, x: seq<real>, d: nat, row: seq<real>) returns (next: seq<real>)
    requires IsTrunk(trunk, d) && Partitions(groups, d) && |x| == (LAG + 1) * d && g < |groups|
    requires RowRead(trunk, groups, g, x, d, row)
    ensures RowRead(trunk, groups, g + 1, x, d, next)
  {
    var out := MaskedPass(trunk, d, groups[g], x);
    next := row;
    for p := 0 to |groups[g]|
      invariant |next| == d
      invariant forall c :: 0 <= c < d ==> next[c] == if In(groups[g][..p], c) then out[c][MEDIAN_HEAD] else row[c]
    {
      forall c: nat | c < d
        ensures In(groups[g][..p + 1], c) <==> In(groups[g][..p], c) || c == groups[g][p]
      {
        InConcat(groups[g][..p], [groups[g][p]], c);
        assert groups[g][..p] + [groups[g][p]] == groups[g][..p + 1];
        assert [groups[g][p]][0] == groups[g][p];
      }
      next := next[groups[g][p] := out[groups[g][p]][MEDIAN_HEAD]];
    }
    assert groups[g][..|groups[g]|] == groups[g];
    forall h, c | 0 <= h < g + 1 && 0 <= c < d && In(groups[h], c)
      ensures next[c] == MaskedPass(trunk, d, groups[h], x)[c][MEDIAN_HEAD]
    {
      assert InOneGroup(groups, c);
    }
  }

  /** The predictions made from a history's feature rows: a channel's are the same for any other history of
      its own group. */
  lemma {:induction false} PredictionsIgnoreOwnGroup(trunk: seq<real> -> Matrix, groups: seq<seq<nat>>, d: nat, z: Matrix, z': Matrix,
                                                     feat: Matrix, feat': Matrix, pred: Matrix, pred': Matrix, g: nat, c: nat)
    requires Partitions(groups, d) && IsTrunk(trunk, d) && IsMatrix(z, d) && IsMatrix(z', d)
    requires g < |groups| && c < d && In(groups[g], c) && HistoriesAgreeOff(z, z', d, groups[g]) && |z| > LAG
    requires AreFeatures(z, d, feat) && AreFeatures(z', d, feat')
    requires ReadMasked(trunk, groups, feat, d, pred) && ReadMasked(trunk, groups, feat', d, pred')
    ensures forall r :: 0 <= r < |z| - LAG ==> pred[r][c] == pred'[r][c]
  {
    assert InRange(groups[g], d);
    assert |z| == |z'|;
    hide LagRow, MaskedPass, IsTrunk, HistoriesAgreeOff, Partitions, In;
    forall r | 0 <= r < |z| - LAG
      ensures pred[r][c] == pred'[r][c]
    {
      PredictionIgnoresOwnGroup(trunk, z, z', d, groups[g], r);
      assert pred[r][c] == MaskedPass(trunk, d, groups[g], feat[r])[c][MEDIAN_HEAD];
      assert pred'[r][c] == MaskedPass(trunk, d, groups[g], feat'[r])[c][MEDIAN_HEAD];
    }
  }

  ghost predicate AreFeatures(z: Matrix, d: nat, feat: Matrix)
    requires IsMatrix(z, d)
  {
    && |z| > LAG && |feat| == |z| - LAG
    && IsMatrix(feat, (LAG + 1) * d)
    && forall i :: 0 <= i < |feat| ==> feat[i] == LagRow(z, d, i, LAG + 1)
  }
}
