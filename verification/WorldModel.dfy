/** One small net per channel. */
module WorldModels {
  // Each net predicts its channel from the other channels; they are evaluated net by net, or stacked over
  // all channels on shared features.

  import opened Features
  import opened RealMath
  import opened Sums
  import opened Timelines

  const BATCHED_FROM: nat := 100000

  /** Two linear layers: hidden rows w1 over the features, quantile rows w2 over the hidden values. */
  datatype Net = Net(w1: Matrix, b1: seq<real>, w2: Matrix, b2: seq<real>)

  ghost predicate IsNet(net: Net, features: nat) {
    && |net.b1| == |net.w1| && |net.b2| == |net.w2| == QUANTILE_HEADS
    && IsMatrix(net.w1, features) && IsMatrix(net.w2, |net.w1|)
  }

  /** The activations of the hidden layer, for any activation function. */
  function Hidden(act: real -> real, net: Net, x: seq<real>): (h: seq<real>)
    requires IsNet(net, |x|)
    ensures |h| == |net.w1|
  {
    seq(|net.w1|, u requires 0 <= u < |net.w1| => act(Dot(x, net.w1[u]) + net.b1[u]))
  }

  function Predict(act: real -> real, net: Net, x: seq<real>): real
    requires IsNet(net, |x|)
  {
    Dot(Hidden(act, net, x), net.w2[MEDIAN_HEAD]) + net.b2[MEDIAN_HEAD]
  }

  ghost predicate AreNets(nets: seq<Net>, d: nat) {
    |nets| == d && forall j :: 0 <= j < d ==> IsNet(nets[j], (LAG + 1) * (d - 1))
  }

  // ---- stacking and unpacking -----------------------------------------------------------------------

  /** The net of channel j over all features, its weights at the kept columns and zeros at its own. */
  function Stack(net: Net, d: nat, j: nat): (dense: Net)
    requires j < d && IsNet(net, (LAG + 1) * (d - 1))
    ensures IsNet(dense, (LAG + 1) * d)
  {
    KeepRises(d, j, LAG + 1);
    net.(w1 := seq(|net.w1|, u requires 0 <= u < |net.w1| => Scatter((LAG + 1) * d, Keep(d, j, LAG + 1), net.w1[u])))
  }

  /** The weights training used for channel j: its own columns masked out. */
  function MaskOwn(trained: Net, d: nat, j: nat): (masked: Net)
    requires IsNet(trained, (LAG + 1) * d)
    ensures IsNet(masked, (LAG + 1) * d)
  {
    trained.(w1 := seq(|trained.w1|, u requires 0 <= u < |trained.w1| => Masked(trained.w1[u], Mask(d, j, LAG + 1))))
  }

  /** The per-channel net unpacked from the group's weights. */
  function Unpack(trained: Net, d: nat, j: nat): (net: Net)
    requires j < d && IsNet(trained, (LAG + 1) * d)
    ensures IsNet(net, (LAG + 1) * (d - 1))
  {
    KeepRises(d, j, LAG + 1);
    var masked := MaskOwn(trained, d, j);
    trained.(w1 := seq(|trained.w1|, u requires 0 <= u < |trained.w1| => Gather(masked.w1[u], Keep(d, j, LAG + 1))))
  }

  /** A stacked net on the shared features predicts what the net predicts on its kept columns. */
  lemma {:induction false} StackPredicts(act: real -> real, net: Net, d: nat, j: nat, x: seq<real>)
    requires j < d && IsNet(net, (LAG + 1) * (d - 1)) && |x| == (LAG + 1) * d
    ensures InRange(Keep(d, j, LAG + 1), |x|)
    ensures Predict(act, Stack(net, d, j), x) == Predict(act, net, Gather(x, Keep(d, j, LAG + 1)))
  {
    KeepRises(d, j, LAG + 1);
    var keep, dense := Keep(d, j, LAG + 1), Stack(net, d, j);
    hide Keep, Rising, InRange;
    forall u | 0 <= u < |net.w1|
      ensures Dot(x, dense.w1[u]) == Dot(Gather(x, keep), net.w1[u])
    {
      DotScatter(x, keep, net.w1[u]);
    }
    hide Stack, Dot, Scatter;
    assert Hidden(act, dense, x) == Hidden(act, net, Gather(x, keep));
  }

  lemma {:induction false} StackUndoesUnpack(trained: Net, d: nat, j: nat)
    requires j < d && IsNet(trained, (LAG + 1) * d)
    ensures Stack(Unpack(trained, d, j), d, j) == MaskOwn(trained, d, j)
  {
    var back, masked := Stack(Unpack(trained, d, j), d, j), MaskOwn(trained, d, j);
    forall u | 0 <= u < |trained.w1|
      ensures back.w1[u] == masked.w1[u]
    {
      UnpackedScattersBack(d, j, trained.w1[u]);
    }
    assert back.w1 == masked.w1;
  }

  /** The net kept for scoring predicts, from the other channels alone, exactly what the masked group weights
      predicted from all features when it was trained and calibrated. */
  lemma {:induction false} ScoringMatchesTraining(act: real -> real, trained: Net, z: Matrix, d: nat, j: nat, i: nat)
    requires IsMatrix(z, d) && i + LAG < |z| && j < d && IsNet(trained, (LAG + 1) * d)
    ensures |OtherRow(z, d, j, i, LAG + 1)| == (LAG + 1) * (d - 1)
    ensures Predict(act, Unpack(trained, d, j), OtherRow(z, d, j, i, LAG + 1))
         == Predict(act, MaskOwn(trained, d, j), LagRow(z, d, i, LAG + 1))
  {
    OtherRowIsKept(z, d, j, i, LAG + 1);
    StackPredicts(act, Unpack(trained, d, j), d, j, LagRow(z, d, i, LAG + 1));
    StackUndoesUnpack(trained, d, j);
  }

  // ---- residuals -----------------------------------------------------------------------------------------

  lemma {:induction false} OtherRowLength(z: Matrix, d: nat, j: nat, i: nat)
    requires IsMatrix(z, d) && i + LAG < |z| && j < d
    ensures |OtherRow(z, d, j, i, LAG + 1)| == (LAG + 1) * (d - 1)
  {
    OtherRowIsKept(z, d, j, i, LAG + 1);
  }

  /** What channel j's net predicts for row LAG + i from the other channels. */
  function Prediction(act: real -> real, nets: seq<Net>, z: Matrix, d: nat, i: nat, j: nat): real
    requires AreNets(nets, d) && IsMatrix(z, d) && i + LAG < |z| && j < d
  {
    OtherRowLength(z, d, j, i);
    Predict(act, nets[j], OtherRow(z, d, j, i, LAG + 1))
  }

  /** Observed minus predicted, in units of the calibrated scale, for every row that has a full past. */
  ghost predicate AreResiduals(act: real -> real, nets: seq<Net>, scales: seq<real>, z: Matrix, d: nat, rz: Matrix)
    requires AreNets(nets, d) && |scales| == d && IsMatrix(z, d) && forall j :: 0 <= j < d ==> scales[j] > 0.0
  {
    && |rz| == (if |z| <= LAG then 0 else |z| - LAG)
    && IsMatrix(rz, d)
    && forall i, j :: 0 <= i < |rz| && 0 <= j < d ==> rz[i][j] == (z[LAG + i][j] - Prediction(act, nets, z, d, i, j)) / scales[j]
  }

  method Scale(pred: array2<real>, scales: seq<real>, z: Matrix, d: nat) returns (rz: Matrix)
    requires IsMatrix(z, d) && |z| > LAG && |scales| == d && forall j :: 0 <= j < d ==> scales[j] > 0.0
    requires pred.Length0 == |z| - LAG && pred.Length1 == d
    ensures |rz| == |z| - LAG
    ensures forall i, j :: 0 <= i < |rz| && 0 <= j < d ==> |rz[i]| == d && rz[i][j] == (z[LAG + i][j] - pred[i, j]) / scales[j]
    ensures forall i :: 0 <= i < |rz| ==> |rz[i]| == d
  {
    rz := [];
    for i := 0 to |z| - LAG
      invariant |rz| == i
      invariant forall r :: 0 <= r < i ==> |rz[r]| == d && forall j :: 0 <= j < d ==> rz[r][j] == (z[LAG + r][j] - pred[r, j]) / scales[j]
    {
      rz := rz + [seq(d, j requires 0 <= j < d reads pred => (z[LAG + i][j] - pred[i, j]) / scales[j])];
    }
  }

  /** Net by net, each on its own features. */
  method ResidualsByNet(act: real -> real, nets: seq<Net>, scales: seq<real>, z: Matrix, d: nat) returns (rz: Matrix)
    requires AreNets(nets, d) && |scales| == d && IsMatrix(z, d) && |z| > LAG && forall j :: 0 <= j < d ==> scales[j] > 0.0
    ensures AreResiduals(act, nets, scales, z, d, rz)
  {
    hide OtherRow, Predict, Keep;
    var n := |z| - LAG;
    var pred := new real[n, d];
    for j := 0 to d
      invariant forall r, c :: 0 <= r < n && 0 <= c < j ==> pred[r, c] == Prediction(act, nets, z, d, r, c)
    {
      var feats := FeaturesFor(z, d, j);
      for i := 0 to n
        invariant forall r, c :: 0 <= r < n && 0 <= c < j ==> pred[r, c] == Prediction(act, nets, z, d, r, c)
        invariant forall r :: 0 <= r < i ==> pred[r, j] == Prediction(act, nets, z, d, r, j)
      {
        OtherRowLength(z, d, j, i);
        pred[i, j] := Predict(act, nets[j], feats[i]);
        assert pred[i, j] == Prediction(act, nets, z, d, i, j);
      }
    }
    rz := Scale(pred, scales, z, d);
  }

  /** The stacked nets on the shared row of features. */
  lemma {:induction false} StackedPrediction(act: real -> real, nets: seq<Net>, z: Matrix, d: nat, i: nat, j: nat)
    requires AreNets(nets, d) && IsMatrix(z, d) && i + LAG < |z| && j < d
    ensures Predict(act, Stack(nets[j], d, j), LagRow(z, d, i, LAG + 1)) == Prediction(act, nets, z, d, i, j)
  {
    OtherRowIsKept(z, d, j, i, LAG + 1);
    OtherRowLength(z, d, j, i);
    StackPredicts(act, nets[j], d, j, LagRow(z, d, i, LAG + 1));
  }

  method StackAll(nets: seq<Net>, d: nat) returns (stacked: seq<Net>)
    requires AreNets(nets, d)
    ensures |stacked| == d && forall j :: 0 <= j < d ==> stacked[j] == Stack(nets[j], d, j)
  {
    stacked := [];
    for j := 0 to d
      invariant |stacked| == j && forall c :: 0 <= c < j ==> stacked[c] == Stack(nets[c], d, c)
    {
      stacked := stacked + [Stack(nets[j], d, j)];
    }
  }

  /** All nets stacked over the shared features, in chunks of rows. */
  method ResidualsBatched(act: real -> real, nets: seq<Net>, scales: seq<real>, z: Matrix, d: nat) returns (rz: Matrix)
    requires AreNets(nets, d) && |scales| == d && IsMatrix(z, d) && |z| > LAG && forall j :: 0 <= j < d ==> scales[j] > 0.0
    ensures AreResiduals(act, nets, scales, z, d, rz)
  {
    hide OtherRow, Predict, LagRow, Stack, Keep, Prediction;
    var n := |z| - LAG;
    var stacked := StackAll(nets, d);
    var feat := LagFeatures(z, d);
    var pred := new real[n, d];
    var a := 0;
    while a < n
      invariant 0 <= a <= n
      invariant forall r, c :: 0 <= r < a && 0 <= c < d ==> pred[r, c] == Prediction(act, nets, z, d, r, c)
    {
      var b := if a + EVAL_CHUNK < n then a + EVAL_CHUNK else n;
      for i := a to b
        invariant forall r, c :: 0 <= r < i && 0 <= c < d ==> pred[r, c] == Prediction(act, nets, z, d, r, c)
      {
        for j := 0 to d
          invariant forall r, c :: 0 <= r < i && 0 <= c < d ==> pred[r, c] == Prediction(act, nets, z, d, r, c)
          invariant forall c :: 0 <= c < j ==> pred[i, c] == Prediction(act, nets, z, d, i, c)
        {
          StackedPrediction(act, nets, z, d, i, j);
          pred[i, j] := Predict(act, stacked[j], feat[i]);
        }
      }
      a := b;
    }
    rz := Scale(pred, scales, z, d);
  }

  // ---- the prediction written out -------------------------------------------------------------------

  /** What input t adds to a hidden unit of channel j's net with input weights w. */
  function InputTerm(w: seq<real>, z: Matrix, d: nat, j: nat, i: nat): int -> real
    requires IsMatrix(z, d)
  {
    t => if 0 <= t < |w| then Times(Input(z, d, j, i, t), w[t]) else 0.0
  }

  /** What hidden unit u adds to the median head, head 1 of three. */
  function UnitTerm(act: real -> real, net: Net, z: Matrix, d: nat, j: nat, i: nat): int -> real
    requires IsMatrix(z, d)
  {
    u => if 0 <= u < |net.w1| && u < |net.b1| && |net.w2| == 3 && u < |net.w2[1]|
         then Times(act(Sigma(0, 9 * (d - 1), InputTerm(net.w1[u], z, d, j, i)) + net.b1[u]), net.w2[1][u])
         else 0.0
  }

  /** The sum over the hidden units, and the bias of the median head. */
  function NetOutput(act: real -> real, net: Net, z: Matrix, d: nat, j: nat, i: nat): real
    requires IsMatrix(z, d)
  {
    Sigma(0, |net.w1|, UnitTerm(act, net, z, d, j, i)) + if |net.b2| == 3 then net.b2[1] else 0.0
  }

  lemma {:induction false} UnitInputIsSum(w: seq<real>, z: Matrix, d: nat, j: nat, i: nat)
    requires IsMatrix(z, d) && i + LAG < |z| && j < d && |w| == (LAG + 1) * (d - 1)
    ensures |OtherRow(z, d, j, i, LAG + 1)| == |w|
    ensures Dot(OtherRow(z, d, j, i, LAG + 1), w) == Sigma(0, 9 * (d - 1), InputTerm(w, z, d, j, i))
  {
    hide OtherRow, Input, Times, IsMatrix;
    OtherRowLength(z, d, j, i);
    var x, f := OtherRow(z, d, j, i, LAG + 1), InputTerm(w, z, d, j, i);
    forall t | 0 <= t < |x|
      ensures f(0 + t) == Times(x[t], w[t])
    {
      InputAt(z, d, j, i, LAG + 1, t);
    }
    hide InputTerm;
    DotIsSigma(x, w, 0, f);
  }

  lemma {:induction false} HiddenUnit(act: real -> real, net: Net, z: Matrix, d: nat, j: nat, i: nat, u: nat)
    requires IsMatrix(z, d) && i + LAG < |z| && j < d && IsNet(net, (LAG + 1) * (d - 1)) && u < |net.w1|
    requires IsNet(net, |OtherRow(z, d, j, i, LAG + 1)|)
    ensures UnitTerm(act, net, z, d, j, i)(u)
         == Times(Hidden(act, net, OtherRow(z, d, j, i, LAG + 1))[u], net.w2[MEDIAN_HEAD][u])
  {
    hide OtherRow, InputTerm, Times, Dot, Sigma;
    UnitInputIsSum(net.w1[u], z, d, j, i);
  }

  /** The prediction for a channel: over the hidden units, the weight of the median head times the activation of the
      weighted inputs plus the unit's bias; and the head's own bias. */
  lemma {:induction false} PredictionIsSum(act: real -> real, nets: seq<Net>, z: Matrix, d: nat, i: nat, j: nat)
    requires AreNets(nets, d) && IsMatrix(z, d) && i + LAG < |z| && j < d
    ensures Prediction(act, nets, z, d, i, j) == NetOutput(act, nets[j], z, d, j, i)
  {
    OtherRowLength(z, d, j, i);
    var net, x, f := nets[j], OtherRow(z, d, j, i, LAG + 1), UnitTerm(act, nets[j], z, d, j, i);
    var h, w := Hidden(act, net, x), net.w2[MEDIAN_HEAD];
    hide OtherRow, UnitTerm, Hidden, Times, Dot, Sigma;
    forall u | 0 <= u < |h|
      ensures f(0 + u) == Times(h[u], w[u])
    {
      HiddenUnit(act, net, z, d, j, i, u);
    }
    DotIsSigma(h, w, 0, f);
  }

  /** Every residual as the observed value less that sum, over the channel's scale. */
  ghost predicate WrittenOut(act: real -> real, nets: seq<Net>, scales: seq<real>, z: Matrix, d: nat, rz: Matrix)
    requires |nets| == |scales| == d && IsMatrix(z, d) && forall j :: 0 <= j < d ==> scales[j] > 0.0
  {
    && |rz| == (if |z| <= 8 then 0 else |z| - 8)
    && forall i, j :: 0 <= i < |rz| && 0 <= j < d ==>
         |rz[i]| == d && rz[i][j] == (z[8 + i][j] - NetOutput(act, nets[j], z, d, j, i)) / scales[j]
  }

  lemma {:induction false} ResidualsAreWrittenOut(act: real -> real, nets: seq<Net>, scales: seq<real>, z: Matrix, d: nat, rz: Matrix)
    requires AreNets(nets, d) && |scales| == d && IsMatrix(z, d) && forall j :: 0 <= j < d ==> scales[j] > 0.0
    requires AreResiduals(act, nets, scales, z, d, rz)
    ensures WrittenOut(act, nets, scales, z, d, rz)
  {
    hide NetOutput, Prediction;
    forall i, j | 0 <= i < |rz| && 0 <= j < d
      ensures |rz[i]| == d && rz[i][j] == (z[8 + i][j] - NetOutput(act, nets[j], z, d, j, i)) / scales[j]
    {
      PredictionIsSum(act, nets, z, d, i, j);
    }
  }

  lemma {:induction false} NoResiduals(act: real -> real, nets: seq<Net>, scales: seq<real>, z: Matrix, d: nat)
    requires AreNets(nets, d) && |scales| == d && IsMatrix(z, d) && forall j :: 0 <= j < d ==> scales[j] > 0.0
    requires |z| <= LAG
    ensures AreResiduals(act, nets, scales, z, d, []) && WrittenOut(act, nets, scales, z, d, [])
  {
  }

  // ---- the residuals either way --------------------------------------------------------------------

  /** Batched on a device when there is enough to score, net by net otherwise: the residuals are the same. */
  method ResidualZ(act: real -> real, nets: seq<Net>, scales: seq<real>, z: Matrix, d: nat, cuda: bool) returns (rz: Matrix)
    requires AreNets(nets, d) && |scales| == d && IsMatrix(z, d) && forall j :: 0 <= j < d ==> scales[j] > 0.0
    ensures AreResiduals(act, nets, scales, z, d, rz)
    ensures WrittenOut(act, nets, scales, z, d, rz)
  {
    hide AreResiduals, WrittenOut, AreNets;
    if |z| <= LAG {
      rz := [];
      NoResiduals(act, nets, scales, z, d);
      return;
    }
    if cuda && (|z| - LAG) * d > BATCHED_FROM {
      rz := ResidualsBatched(act, nets, scales, z, d);
    } else {
      rz := ResidualsByNet(act, nets, scales, z, d);
    }
    ResidualsAreWrittenOut(act, nets, scales, z, d, rz);
  }
}
