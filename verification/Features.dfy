/** Lagged feature matrices, and the dense weights that exclude a channel's own history. */
module Features {
  import opened IntMath
  import opened RealMath
  import opened Sums
  import opened Timelines

  const LAG: nat := 8
  const EVAL_CHUNK: nat := 4096

  /** Quantiles 0.1, 0.5, 0.9 are predicted; the median is the one read. */
  const QUANTILE_HEADS: nat := 3
  const MEDIAN_HEAD: nat := 1

  type Matrix = seq<seq<real>>

  ghost predicate IsMatrix(z: Matrix, d: nat) { forall r :: 0 <= r < |z| ==> |z[r]| == d }

  function Gather(x: seq<real>, idx: seq<nat>): (g: seq<real>)
    requires forall p :: 0 <= p < |idx| ==> idx[p] < |x|
    ensures |g| == |idx| && forall p :: 0 <= p < |idx| ==> g[p] == x[idx[p]]
  {
    seq(|idx|, p requires 0 <= p < |idx| => x[idx[p]])
  }

  function Zeros(n: nat): seq<real> { seq(n, _ => 0.0) }

  ghost predicate InRange(idx: seq<nat>, n: nat) { forall p :: 0 <= p < |idx| ==> idx[p] < n }

  /** n zeros with v written at the positions idx, one after the other. */
  function Scatter(n: nat, idx: seq<nat>, v: seq<real>): (w: seq<real>)
    requires |v| == |idx| && InRange(idx, n)
    ensures |w| == n
  {
    if idx == [] then Zeros(n)
    else
      var m := |idx| - 1;
      Scatter(n, idx[..m], v[..m])[idx[m] := v[m]]
  }

  lemma {:induction false} DotSnoc(x: seq<real>, w: seq<real>, a: real, b: real)
    requires |x| == |w|
    ensures Dot(x + [a], w + [b]) == Dot(x, w) + Times(a, b)
  {
    hide Times;
    if x == [] {
      assert x + [a] == [a] && w + [b] == [b];
    } else {
      assert (x + [a])[1..] == x[1..] + [a] && (w + [b])[1..] == w[1..] + [b];
      DotSnoc(x[1..], w[1..], a, b);
    }
  }

  lemma {:induction false} DotZeros(x: seq<real>)
    ensures Dot(x, Zeros(|x|)) == 0.0
  {
    if x != [] {
      assert Zeros(|x|)[1..] == Zeros(|x[1..]|);
      DotZeros(x[1..]);
    }
  }

  lemma {:induction false} DotUpdate(x: seq<real>, w: seq<real>, i: nat, v: real)
    requires |x| == |w| && i < |w| && w[i] == 0.0
    ensures Dot(x, w[i := v]) == Dot(x, w) + Times(x[i], v)
  {
    TimesSplit(x[0], 0.0, 0.0);
    hide Times;
    if i == 0 {
      assert w[0 := v][1..] == w[1..];
    } else {
      assert w[i := v][1..] == w[1..][i - 1 := v];
      DotUpdate(x[1..], w[1..], i - 1, v);
    }
  }

  lemma {:induction false} ScatterAt(n: nat, idx: seq<nat>, v: seq<real>, t: nat)
    requires |v| == |idx| && InRange(idx, n) && t < n
    ensures (forall p :: 0 <= p < |idx| ==> idx[p] != t) ==> Scatter(n, idx, v)[t] == 0.0
    ensures Rising(idx) ==> forall p :: 0 <= p < |idx| && idx[p] == t ==> Scatter(n, idx, v)[t] == v[p]
  {
    if idx != [] {
      var m := |idx| - 1;
      ScatterAt(n, idx[..m], v[..m], t);
    }
  }

  /** The full dot product with scattered weights is the dot product on the kept columns. */
  lemma {:induction false} DotScatter(x: seq<real>, idx: seq<nat>, v: seq<real>)
    requires |v| == |idx| && InRange(idx, |x|) && Rising(idx)
    ensures Dot(x, Scatter(|x|, idx, v)) == Dot(Gather(x, idx), v)
  {
    hide Times;
    if idx == [] {
      DotZeros(x);
    } else {
      var m := |idx| - 1;
      DotScatter(x, idx[..m], v[..m]);
      ScatterAt(|x|, idx[..m], v[..m], idx[m]);
      DotUpdate(x, Scatter(|x|, idx[..m], v[..m]), idx[m], v[m]);
      DotSnoc(Gather(x, idx[..m]), v[..m], x[idx[m]], v[m]);
      assert Gather(x, idx) == Gather(x, idx[..m]) + [x[idx[m]]];
      assert v == v[..m] + [v[m]];
    }
  }

  // ---- columns -----------------------------------------------------------------------------------------

  /** The channels but one, in order. */
  function Others(d: nat, j: nat): (others: seq<nat>)
    ensures InRange(others, d) && |others| == if j < d then d - 1 else d
    ensures forall p :: 0 <= p < |others| ==> others[p] != j
  {
    if d == 0 then [] else Others(d - 1, j) + if d - 1 == j then [] else [d - 1]
  }

  /** The columns of all blocks but channel j's own: own history is never a feature. */
  function Keep(d: nat, j: nat, blocks: nat): (keep: seq<nat>)
    ensures |keep| == blocks * if j < d then d - 1 else d
  {
    if blocks == 0 then []
    else
      var n := |Others(d, j)|;
      assert blocks * n == (blocks - 1) * n + n;
      Keep(d, j, blocks - 1) + Shifted(Others(d, j), (blocks - 1) * d)
  }

  function Shifted(idx: seq<nat>, offset: nat): (s: seq<nat>)
    ensures |s| == |idx| && forall p :: 0 <= p < |idx| ==> s[p] == idx[p] + offset
  {
    seq(|idx|, p requires 0 <= p < |idx| => idx[p] + offset)
  }

  lemma {:induction false} OthersRise(d: nat, j: nat)
    ensures Rising(Others(d, j))
  {
    if d > 0 {
      OthersRise(d - 1, j);
    }
  }

  lemma {:induction false} KeepRises(d: nat, j: nat, blocks: nat)
    ensures Rising(Keep(d, j, blocks)) && InRange(Keep(d, j, blocks), blocks * d)
  {
    hide Rising, InRange, Others, Shifted;
    if blocks > 0 {
      var front := (blocks - 1) * d;
      assert blocks * d == front + d;
      KeepRises(d, j, blocks - 1);
      OthersRise(d, j);
      ShiftRises(Others(d, j), d, front);
      ConcatRises(Keep(d, j, blocks - 1), Shifted(Others(d, j), front), front, front + d);
    } else {
      NoneRise(0);
    }
  }

  lemma {:induction false} NoneRise(n: nat)
    ensures Rising([]) && InRange([], n)
  {
  }

  lemma {:induction false} ShiftRises(idx: seq<nat>, d: nat, offset: nat)
    requires Rising(idx) && InRange(idx, d)
    ensures Rising(Shifted(idx, offset)) && InRange(Shifted(idx, offset), offset + d)
    ensures forall p :: 0 <= p < |idx| ==> Shifted(idx, offset)[p] >= offset
  {
  }

  lemma {:induction false} ConcatRises(a: seq<nat>, b: seq<nat>, n: nat, m: nat)
    requires Rising(a) && Rising(b) && InRange(a, n) && InRange(b, m) && n <= m
    requires forall p :: 0 <= p < |b| ==> b[p] >= n
    ensures Rising(a + b) && InRange(a + b, m)
  {
  }

  // ---- feature rows --------------------------------------------------------------------------------------

  /** Row i of the first blocks: the row LAG + i itself, then the rows before it. */
  function LagRow(z: Matrix, d: nat, i: nat, blocks: nat): (row: seq<real>)
    requires IsMatrix(z, d) && i + LAG < |z| && blocks <= LAG + 1
    ensures |row| == blocks * d
  {
    if blocks == 0 then []
    else
      assert blocks * d == (blocks - 1) * d + d;
      LagRow(z, d, i, blocks - 1) + z[i + LAG - (blocks - 1)]
  }

  /** The same for target channel j, from the other channels only. */
  function OtherRow(z: Matrix, d: nat, j: nat, i: nat, blocks: nat): seq<real>
    requires IsMatrix(z, d) && i + LAG < |z| && blocks <= LAG + 1
  {
    if blocks == 0 then []
    else OtherRow(z, d, j, i, blocks - 1) + Gather(z[i + LAG - (blocks - 1)], Others(d, j))
  }

  /** A channel's own features are the kept columns of the shared ones. */
  lemma {:induction false} OtherRowIsKept(z: Matrix, d: nat, j: nat, i: nat, blocks: nat)
    requires IsMatrix(z, d) && i + LAG < |z| && blocks <= LAG + 1
    ensures InRange(Keep(d, j, blocks), blocks * d)
    ensures OtherRow(z, d, j, i, blocks) == Gather(LagRow(z, d, i, blocks), Keep(d, j, blocks))
  {
    KeepRises(d, j, blocks);
    if blocks > 0 {
      OtherRowIsKept(z, d, j, i, blocks - 1);
      var front, row := LagRow(z, d, i, blocks - 1), z[i + LAG - (blocks - 1)];
      assert blocks * d == (blocks - 1) * d + d;
      GatherConcat(front, row, Keep(d, j, blocks - 1), Others(d, j));
    }
  }

  lemma {:induction false} OtherAt(d: nat, j: nat, p: nat)
    requires j < d && p < d - 1
    ensures |Others(d, j)| == d - 1 && Others(d, j)[p] == if p < j then p else p + 1
  {
    if j == d - 1 {
      OthersAll(d - 1, j, p);
    } else if p < d - 2 {
      OtherAt(d - 1, j, p);
    }
  }

  lemma {:induction false} OthersAll(d: nat, j: nat, p: nat)
    requires d <= j && p < d
    ensures Others(d, j)[p] == p
  {
    if p < d - 1 {
      OthersAll(d - 1, j, p);
    }
  }

  /** Input t of channel j's net for row 8 + i: from as many rows back as there are whole blocks of the d - 1 other
      channels before it, the channel at its place in the block, j left out. */
  function Input(z: Matrix, d: nat, j: nat, i: nat, t: int): real
    requires IsMatrix(z, d)
  {
    if d < 2 || t < 0 || !(0 <= i + 8 - BlockOf(t, d - 1) < |z|) then 0.0
    else z[i + 8 - BlockOf(t, d - 1)][if PlaceOf(t, d - 1) < j then PlaceOf(t, d - 1) else PlaceOf(t, d - 1) + 1]
  }

  function BlockOf(t: nat, n: nat): nat
    requires n >= 1
  {
    t / n
  }

  function PlaceOf(t: nat, n: nat): (p: nat)
    requires n >= 1
    ensures p < n
  {
    t % n
  }

  lemma {:induction false} BlockAndPlace(q: nat, n: nat, p: nat)
    requires p < n
    ensures q * n + p >= 0 && BlockOf(q * n + p, n) == q && PlaceOf(q * n + p, n) == p
  {
    DivUnique(q * n + p, n, q, p);
  }

  lemma {:induction false} InputAt(z: Matrix, d: nat, j: nat, i: nat, blocks: nat, t: nat)
    requires IsMatrix(z, d) && i + LAG < |z| && blocks <= LAG + 1 && j < d && t < blocks * (d - 1)
    ensures |OtherRow(z, d, j, i, blocks)| == blocks * (d - 1) && OtherRow(z, d, j, i, blocks)[t] == Input(z, d, j, i, t)
  {
    hide Input, Others;
    OtherRowIsKept(z, d, j, i, blocks);
    OtherRowIsKept(z, d, j, i, blocks - 1);
    assert blocks * (d - 1) == (blocks - 1) * (d - 1) + (d - 1);
    if t < (blocks - 1) * (d - 1) {
      InputAt(z, d, j, i, blocks - 1, t);
    } else {
      LastBlockAt(z, d, j, i, blocks, t - (blocks - 1) * (d - 1));
    }
  }

  lemma {:induction false} LastBlockAt(z: Matrix, d: nat, j: nat, i: nat, blocks: nat, p: nat)
    requires IsMatrix(z, d) && i + LAG < |z| && 1 <= blocks <= LAG + 1 && j < d && p < d - 1
    ensures Gather(z[i + LAG - (blocks - 1)], Others(d, j))[p] == Input(z, d, j, i, (blocks - 1) * (d - 1) + p)
  {
    BlockAndPlace(blocks - 1, d - 1, p);
    OtherAt(d, j, p);
    hide Others, BlockOf, PlaceOf;
  }

  lemma {:induction false} GatherConcat(x: seq<real>, y: seq<real>, a: seq<nat>, b: seq<nat>)
    requires InRange(a, |x|) && InRange(b, |y|)
    ensures InRange(a + Shifted(b, |x|), |x + y|)
    ensures Gather(x + y, a + Shifted(b, |x|)) == Gather(x, a) + Gather(y, b)
  {
  }

  method LagFeatures(z: Matrix, d: nat) returns (feat: Matrix)
    requires IsMatrix(z, d) && |z| > LAG
    ensures |feat| == |z| - LAG && forall i :: 0 <= i < |feat| ==> feat[i] == LagRow(z, d, i, LAG + 1)
  {
    feat := z[LAG..];
    for k := 1 to LAG + 1
      invariant |feat| == |z| - LAG && forall i :: 0 <= i < |feat| ==> feat[i] == LagRow(z, d, i, k)
    {
      feat := AppendBlock(z, d, feat, k);
    }
  }

  /** Widens every row by the block of rows k before. */
  method AppendBlock(z: Matrix, d: nat, feat: Matrix, k: nat) returns (wider: Matrix)
    requires IsMatrix(z, d) && |z| > LAG && 1 <= k <= LAG
    requires |feat| == |z| - LAG && forall i :: 0 <= i < |feat| ==> feat[i] == LagRow(z, d, i, k)
    ensures |wider| == |feat| && forall i :: 0 <= i < |wider| ==> wider[i] == LagRow(z, d, i, k + 1)
  {
    var block := z[LAG - k..|z| - k];
    wider := [];
    for i := 0 to |feat|
      invariant |wider| == i && forall r :: 0 <= r < i ==> wider[r] == LagRow(z, d, r, k + 1)
    {
      assert block[i] == z[i + LAG - k];
      wider := wider + [feat[i] + block[i]];
    }
  }

  method FeaturesFor(z: Matrix, d: nat, j: nat) returns (feats: Matrix)
    requires IsMatrix(z, d) && |z| > LAG && j < d
    ensures |feats| == |z| - LAG && forall i :: 0 <= i < |feats| ==> feats[i] == OtherRow(z, d, j, i, LAG + 1)
  {
    var others := Others(d, j);
    feats := seq(|z| - LAG, _ => []);
    for k := 0 to LAG + 1
      invariant |feats| == |z| - LAG && forall i :: 0 <= i < |feats| ==> feats[i] == OtherRow(z, d, j, i, k)
    {
      var wider: Matrix := [];
      for i := 0 to |feats|
        invariant |wider| == i && forall r :: 0 <= r < i ==> wider[r] == OtherRow(z, d, j, r, k + 1)
      {
        wider := wider + [feats[i] + Gather(z[LAG - k..|z| - k][i], others)];
      }
      feats := wider;
    }
  }

  // ---- masked and unpacked weights ------------------------------------------------------------------------

  /** The hard input mask of training: zero on channel j's columns, in every block. */
  function Mask(d: nat, j: nat, blocks: nat): (m: seq<bool>)
    ensures |m| == blocks * d
  {
    if blocks == 0 then []
    else
      assert blocks * d == (blocks - 1) * d + d;
      Mask(d, j, blocks - 1) + seq(d, c => c != j)
  }

  function Masked(w: seq<real>, m: seq<bool>): (masked: seq<real>)
    requires |w| == |m|
    ensures |masked| == |w|
  {
    seq(|w|, t requires 0 <= t < |w| => if m[t] then w[t] else 0.0)
  }

  predicate In(idx: seq<nat>, t: nat) { exists p :: 0 <= p < |idx| && idx[p] == t }

  lemma {:induction false} InConcat(a: seq<nat>, b: seq<nat>, t: nat)
    ensures In(a + b, t) <==> In(a, t) || In(b, t)
  {
    var ab := a + b;
    if p :| 0 <= p < |ab| && ab[p] == t {
      assert if p < |a| then a[p] == t else b[p - |a|] == t;
    }
    if p :| 0 <= p < |a| && a[p] == t {
      assert ab[p] == t;
    }
    if p :| 0 <= p < |b| && b[p] == t {
      assert ab[|a| + p] == t;
    }
  }

  lemma {:induction false} InShifted(idx: seq<nat>, offset: nat, t: nat)
    ensures In(Shifted(idx, offset), t) <==> t >= offset && In(idx, t - offset)
  {
    var shifted := Shifted(idx, offset);
    if p :| 0 <= p < |shifted| && shifted[p] == t {
      assert idx[p] == t - offset;
    }
    if t >= offset && In(idx, t - offset) {
      var p :| 0 <= p < |idx| && idx[p] == t - offset;
      assert shifted[p] == t;
    }
  }

  lemma {:induction false} OthersCover(d: nat, j: nat, c: nat)
    ensures In(Others(d, j), c) <==> c < d && c != j
  {
    if d > 0 {
      OthersCover(d - 1, j, c);
      var last: seq<nat> := if d - 1 == j then [] else [d - 1];
      assert In(last, c) <==> c == d - 1 && c != j by {
        if d - 1 != j {
          assert last[0] == d - 1;
        }
      }
      InConcat(Others(d - 1, j), last, c);
    }
  }

  lemma {:induction false} InBelow(idx: seq<nat>, n: nat, t: nat)
    requires InRange(idx, n)
    ensures In(idx, t) ==> t < n
  {
  }

  /** The unmasked columns are the kept ones. */
  lemma {:induction false} MaskIsKeep(d: nat, j: nat, blocks: nat, t: nat)
    requires t < blocks * d
    ensures Mask(d, j, blocks)[t] <==> In(Keep(d, j, blocks), t)
  {
    hide In, InRange, Others, Shifted, Rising;
    var front := (blocks - 1) * d;
    assert blocks * d == front + d;
    KeepRises(d, j, blocks - 1);
    InConcat(Keep(d, j, blocks - 1), Shifted(Others(d, j), front), t);
    InShifted(Others(d, j), front, t);
    InBelow(Keep(d, j, blocks - 1), front, t);
    if t < front {
      MaskIsKeep(d, j, blocks - 1, t);
    } else {
      OthersCover(d, j, t - front);
    }
  }

  /** Unpacking a channel's masked training weights and scattering them back gives the masked weights. */
  lemma {:induction false} UnpackedScattersBack(d: nat, j: nat, w: seq<real>)
    requires |w| == (LAG + 1) * d
    ensures InRange(Keep(d, j, LAG + 1), |w|)
    ensures var masked := Masked(w, Mask(d, j, LAG + 1));
            Scatter(|w|, Keep(d, j, LAG + 1), Gather(masked, Keep(d, j, LAG + 1))) == masked
  {
    var keep := Keep(d, j, LAG + 1);
    var masked := Masked(w, Mask(d, j, LAG + 1));
    KeepRises(d, j, LAG + 1);
    var v := Gather(masked, keep);
    var back := Scatter(|w|, keep, v);
    forall t | 0 <= t < |w|
      ensures back[t] == masked[t]
    {
      MaskIsKeep(d, j, LAG + 1, t);
      ScatterAt(|w|, keep, v, t);
      assert (exists p :: 0 <= p < |keep| && keep[p] == t) <==> In(keep, t);
      if Mask(d, j, LAG + 1)[t] {
        var p :| 0 <= p < |keep| && keep[p] == t;
        assert v[p] == masked[t];
      }
    }
  }
}
