/**
 * The online back-propagation network of src/BackPropNetworks.py.
 *
 * The pure steps (`forward`, `gradient_output`, `gradient_back`,
 * `weight_delta`, the arithmetic of `update_weights`) are functions of
 * explicit arguments; what a whole `run` computes is specified by
 * `Activation`, `Gradient`, `Deltas`, `NewWeights` and `PushFront`; the
 * class `BackPropNetwork` holds the state that `run` updates in place.
 */
module BackPropNetworks {
  import opened Wrappers
  import opened LinAlg
  import opened Gates
  import opened MomentumPolicy

  /** The offset added to every activation derivative. */
  const DerivativeOffset: real := 0.1

  /** Draws of numpy's `ranf`: every entry in [0, 1). */
  predicate UnitDraws(draws: Mat) {
    forall r, c :: 0 <= r < |draws| && 0 <= c < |draws[r]| ==> 0.0 <= draws[r][c] < 1.0
  }

  /**
   * `init_weights_matrix`: m+1 rows (the last one for the bias) by n
   * columns, or m rows without bias, of draws mapped to [-0.25, 0.25).
   */
  function InitWeightsMatrix(draws: Mat, m: nat, n: nat, bias: bool): (w: Mat)
    requires IsMat(draws, if bias then m + 1 else m, n) && UnitDraws(draws)
    ensures IsMat(w, if bias then m + 1 else m, n)
    ensures forall r, c :: 0 <= r < |w| && 0 <= c < n ==> -0.25 <= w[r][c] < 0.25
  {
    seq(|draws|, r requires 0 <= r < |draws| =>
      seq(n, c requires 0 <= c < n => draws[r][c] / 2.0 - 0.25))
  }

  function Gate(exp: Exp, gated: bool, x: real): (y: real)
    ensures gated ==> 0.0 < y < 1.0
  {
    if gated then Sigmf(exp, x) else x
  }

  /**
   * `forward`: the activation a with a bias unit 1 appended, times w, then
   * gated. Entry c is the weighted sum of a through column c plus the
   * bias weight w[|a|][c] (the last row).
   */
  function Forward(exp: Exp, a: Row, w: Mat, cols: nat, gated: bool): (z: Row)
    requires IsMat(w, |a| + 1, cols)
    ensures |z| == cols
    ensures forall c :: 0 <= c < |z| ==>
              z[c] == Gate(exp, gated, Dot(a, Column(w, c), |a|) + w[|a|][c])
  {
    var raw := VecMat(a + [1.0], w, cols);
    BiasedEntries(a, w, cols);
    seq(|raw|, c requires 0 <= c < |raw| => Gate(exp, gated, raw[c]))
  }

  /** Entry c of [a, 1] · w is the weighted sum of a through column c plus the bias weight. */
  lemma BiasedEntries(a: Row, w: Mat, cols: nat)
    requires IsMat(w, |a| + 1, cols)
    ensures forall c :: 0 <= c < cols ==>
              VecMat(a + [1.0], w, cols)[c] == Dot(a, Column(w, c), |a|) + w[|a|][c]
  {
    forall c | 0 <= c < cols
      ensures VecMat(a + [1.0], w, cols)[c] == Dot(a, Column(w, c), |a|) + w[|a|][c]
    {
      var col := Column(w, c);
      assert VecMat(a + [1.0], w, cols)[c] == Dot(a + [1.0], col, |a| + 1);
      DotWithBias(a, col);
      assert col[|a|] == w[|a|][c];
    }
  }

  /** The bias unit contributes exactly the last weight of the column. */
  lemma DotWithBias(a: Row, col: Row)
    requires |col| == |a| + 1
    ensures Dot(a + [1.0], col, |a| + 1) == Dot(a, col, |a|) + col[|a|]
  {
    assert (a + [1.0])[..|a|] == a[..|a|];
    DotPrefix(a + [1.0], col, a, col, |a|);
  }

  /**
   * `gradient_output`: the goal loses its leading |goal| - |out| entries
   * (the label units); the error is the output minus that trimmed goal
   * and the gradient is the error times the linear derivative 1 + 0.1.
   */
  function GradientOutput(out: Row, goal: Row): (eg: (Row, Row))
    requires |goal| >= |out|
    ensures |eg.0| == |out| && |eg.1| == |out|
    ensures forall k :: 0 <= k < |out| ==> eg.0[k] == out[k] - goal[|goal| - |out| + k]
    ensures forall k :: 0 <= k < |out| ==> eg.1[k] == 1.1 * eg.0[k]
  {
    var lSize := |goal| - |out|;
    var trimmed := if lSize != 0 then goal[lSize..] else goal;
    var error := RowSub(out, trimmed);
    (error, RowScale(1.0 + DerivativeOffset, error))
  }

  /**
   * `gradient_back`: the upper gradient times the transpose of w without
   * its bias row, scaled by the derivative a(1 - a) + 0.1.
   */
  function GradientBack(upper: Row, w: Mat, a: Row): (g: Row)
    requires IsMat(w, |a| + 1, |upper|)
    ensures |g| == |a|
    ensures forall j :: 0 <= j < |a| ==>
              g[j] == Dot(upper, w[j], |upper|) * (a[j] * (1.0 - a[j]) + DerivativeOffset)
  {
    var noBias := w[..|w| - 1];
    var descent := VecMatT(upper, noBias);
    seq(|a|, j requires 0 <= j < |a| => descent[j] * (a[j] * (1.0 - a[j]) + DerivativeOffset))
  }

  /** The bias row of the weights takes no part in `gradient_back`. */
  lemma GradientBackIgnoresBias(upper: Row, w1: Mat, w2: Mat, a: Row)
    requires IsMat(w1, |a| + 1, |upper|) && IsMat(w2, |a| + 1, |upper|)
    requires w1[..|a|] == w2[..|a|]
    ensures GradientBack(upper, w1, a) == GradientBack(upper, w2, a)
  {
    forall j | 0 <= j < |a| ensures w1[j] == w2[j] {
      assert w1[j] == w1[..|a|][j] && w2[j] == w2[..|a|][j];
    }
  }

  /**
   * `weight_delta`: the outer product of the activation with a bias unit
   * appended and the upper gradient; its last row is the gradient itself.
   */
  function WeightDelta(upper: Row, a: Row): (d: Mat)
    ensures IsMat(d, |a| + 1, |upper|)
    ensures forall r, c {:trigger d[r][c]} :: 0 <= r < |a| && 0 <= c < |upper| ==> d[r][c] == a[r] * upper[c]
    ensures d[|a|] == upper
  {
    Outer(a + [1.0], upper)
  }

  /** The learning rate of row r of boundary i. */
  function RateOf(i: nat, r: nat, global: real, col: Row): real
    requires i == 0 ==> r < |col|
  {
    if i == 0 then col[r] else global
  }

  /**
   * The gradient-descent half of `update_weights`: boundary 0 scales row r
   * of the delta by col[r], every other boundary by the global rate.
   */
  function Descent(i: nat, w: Mat, delta: Mat, global: real, col: Row): (base: Mat)
    requires SameShape(w, delta) && (i == 0 ==> |col| == |w|)
    ensures SameShape(base, w)
    ensures forall r, c {:trigger base[r][c]} :: 0 <= r < |w| && 0 <= c < |w[r]| ==>
              base[r][c] == w[r][c] - delta[r][c] * RateOf(i, r, global, col)
  {
    if i == 0 then MatSub(w, ScaleRows(delta, col)) else MatSub(w, MatScale(global, delta))
  }

  /** Every snapshot of the inertia queue has a matrix at boundary i shaped like `w`. */
  predicate SnapshotsFit(inertia: seq<seq<Mat>>, i: nat, w: Mat) {
    forall t :: 0 <= t < |inertia| ==> i < |inertia[t]| && SameShape(inertia[t][i], w)
  }

  /** `base` plus f(s) times snapshot s at boundary i, for s < t. */
  function MomentumAccum(f: nat -> real, inertia: seq<seq<Mat>>, i: nat, base: Mat, t: nat): (acc: Mat)
    requires t <= |inertia| && SnapshotsFit(inertia, i, base)
    ensures SameShape(acc, base)
  {
    if t == 0 then base
    else MatAdd(MomentumAccum(f, inertia, i, base, t - 1), MatScale(f(t - 1), inertia[t - 1][i]))
  }

  /** The sum of f(s) * inertia[s][i][r][c] for s < t. */
  function WeightedSum(f: nat -> real, inertia: seq<seq<Mat>>, i: nat, r: nat, c: nat, t: nat): real
    requires t <= |inertia|
    requires forall s :: 0 <= s < t ==> i < |inertia[s]| && r < |inertia[s][i]| && c < |inertia[s][i][r]|
  {
    if t == 0 then 0.0 else WeightedSum(f, inertia, i, r, c, t - 1) + f(t - 1) * inertia[t - 1][i][r][c]
  }

  lemma {:induction false} MomentumAccumEntry(f: nat -> real, inertia: seq<seq<Mat>>, i: nat, base: Mat, t: nat, r: nat, c: nat)
    requires t <= |inertia| && SnapshotsFit(inertia, i, base)
    requires r < |base| && c < |base[r]|
    ensures MomentumAccum(f, inertia, i, base, t)[r][c] == base[r][c] + WeightedSum(f, inertia, i, r, c, t)
  {
    if t > 0 {
      MomentumAccumEntry(f, inertia, i, base, t - 1, r, c);
    }
  }

  /**
   * `update_weights` for boundary i: the descent step, then for a constant
   * momentum m the term m * inertia[0][i], for a decay f the terms
   * f(t) * inertia[t][i] over the whole queue.
   */
  function UpdatedWeights(momentum: Momentum, inertia: seq<seq<Mat>>, i: nat, w: Mat, delta: Mat,
                          global: real, col: Row): (nw: Mat)
    requires |inertia| >= 1 && SnapshotsFit(inertia, i, w)
    requires SameShape(w, delta) && (i == 0 ==> |col| == |w|)
    ensures SameShape(nw, w)
  {
    var base := Descent(i, w, delta, global, col);
    match momentum
    case Constant(m) => MatAdd(base, MatScale(m, inertia[0][i]))
    case Decay(f) => MomentumAccum(f, inertia, i, base, |inertia|)
  }

  /** Entry (r, c) of the updated weights, for each kind of momentum. */
  lemma UpdatedWeightsEntry(momentum: Momentum, inertia: seq<seq<Mat>>, i: nat, w: Mat, delta: Mat,
                            global: real, col: Row, r: nat, c: nat)
    requires |inertia| >= 1 && SnapshotsFit(inertia, i, w)
    requires SameShape(w, delta) && (i == 0 ==> |col| == |w|)
    requires r < |w| && c < |w[r]|
    ensures momentum.Constant? ==>
              UpdatedWeights(momentum, inertia, i, w, delta, global, col)[r][c]
                == w[r][c] - delta[r][c] * RateOf(i, r, global, col) + momentum.value * inertia[0][i][r][c]
    ensures momentum.Decay? ==>
              UpdatedWeights(momentum, inertia, i, w, delta, global, col)[r][c]
                == w[r][c] - delta[r][c] * RateOf(i, r, global, col)
                   + WeightedSum(momentum.weightAt, inertia, i, r, c, |inertia|)
  {
    if momentum.Decay? {
      var base := Descent(i, w, delta, global, col);
      MomentumAccumEntry(momentum.weightAt, inertia, i, base, |inertia|, r, c);
    }
  }

  /** On the first run the queue holds one zero snapshot and momentum adds nothing. */
  lemma {:induction false} FirstRunNoMomentum(momentum: Momentum, inertia: seq<seq<Mat>>, i: nat, w: Mat, delta: Mat,
                                              global: real, col: Row)
    requires |inertia| == 1 && SnapshotsFit(inertia, i, w)
    requires forall r, c :: 0 <= r < |w| && 0 <= c < |w[r]| ==> inertia[0][i][r][c] == 0.0
    requires SameShape(w, delta) && (i == 0 ==> |col| == |w|)
    ensures UpdatedWeights(momentum, inertia, i, w, delta, global, col) == Descent(i, w, delta, global, col)
  {
    var nw := UpdatedWeights(momentum, inertia, i, w, delta, global, col);
    var base := Descent(i, w, delta, global, col);
    forall r, c | 0 <= r < |w| && 0 <= c < |w[r]| ensures nw[r][c] == base[r][c] {
      UpdatedWeightsEntry(momentum, inertia, i, w, delta, global, col, r, c);
    }
    MatExt(nw, base);
  }

  /** One weight matrix per layer boundary, of n_i + 1 rows (bias last) and n_{i+1} columns. */
  predicate WeightsFit(sizes: seq<nat>, weights: seq<Mat>) {
    |sizes| >= 2 && |weights| == |sizes| - 1 &&
    forall i {:trigger weights[i]} :: 0 <= i < |weights| ==> IsMat(weights[i], sizes[i] + 1, sizes[i + 1])
  }

  /** One activation row per layer, of the layer's width. */
  predicate ActsFit(sizes: seq<nat>, acts: seq<Row>) {
    |acts| == |sizes| && forall l {:trigger acts[l]} :: 0 <= l < |acts| ==> |acts[l]| == sizes[l]
  }

  /** Every snapshot of the queue is shaped like the weights. */
  predicate InertiaFits(sizes: seq<nat>, inertia: seq<seq<Mat>>) {
    forall t {:trigger inertia[t]} :: 0 <= t < |inertia| ==> WeightsFit(sizes, inertia[t])
  }

  /** A snapshot of zeros shaped like the weights. */
  function ZeroSnapshot(sizes: seq<nat>): (z: seq<Mat>)
    requires |sizes| >= 2
    ensures WeightsFit(sizes, z)
    ensures forall i :: 0 <= i < |z| ==> z[i] == ZeroMat(sizes[i] + 1, sizes[i + 1])
  {
    var z := seq(|sizes| - 1, i requires 0 <= i < |sizes| - 1 => ZeroMat(sizes[i] + 1, sizes[i + 1]));
    forall i | 0 <= i < |z| ensures IsMat(z[i], sizes[i] + 1, sizes[i + 1]) { }
    z
  }

  /**
   * The activation of layer l after propagating `stimulus`: layer 0 is the
   * stimulus, hidden layers are sigmoid-gated, the output layer is linear.
   */
  function Activation(exp: Exp, sizes: seq<nat>, weights: seq<Mat>, stimulus: Row, l: nat): (a: Row)
    requires WeightsFit(sizes, weights) && |stimulus| == sizes[0] && l < |sizes|
    ensures |a| == sizes[l]
    ensures 0 < l < |sizes| - 1 ==> forall k :: 0 <= k < |a| ==> 0.0 < a[k] < 1.0
  {
    if l == 0 then stimulus
    else
      Forward(exp, Activation(exp, sizes, weights, stimulus, l - 1), weights[l - 1], sizes[l], l < |sizes| - 1)
  }

  /** All layer activations after propagating `stimulus`. */
  function Activations(exp: Exp, sizes: seq<nat>, weights: seq<Mat>, stimulus: Row): (acts: seq<Row>)
    requires WeightsFit(sizes, weights) && |stimulus| == sizes[0]
    ensures ActsFit(sizes, acts) && acts[0] == stimulus
    ensures forall l :: 0 <= l < |sizes| ==> acts[l] == Activation(exp, sizes, weights, stimulus, l)
  {
    seq(|sizes|, l requires 0 <= l < |sizes| => Activation(exp, sizes, weights, stimulus, l))
  }

  /** Forwarding the activation of layer l - 1 gives the activation of layer l. */
  lemma ActivationStep(exp: Exp, sizes: seq<nat>, weights: seq<Mat>, stimulus: Row, l: nat, prev: Row)
    requires WeightsFit(sizes, weights) && |stimulus| == sizes[0] && 0 < l < |sizes|
    requires prev == Activation(exp, sizes, weights, stimulus, l - 1)
    ensures Forward(exp, prev, weights[l - 1], sizes[l], l < |sizes| - 1) == Activation(exp, sizes, weights, stimulus, l)
  {
  }

  /** A sequence holding every layer's activation is `Activations`. */
  lemma ActivationsFromLayers(exp: Exp, sizes: seq<nat>, weights: seq<Mat>, stimulus: Row, acts: seq<Row>)
    requires WeightsFit(sizes, weights) && |stimulus| == sizes[0] && |acts| == |sizes|
    requires forall l :: 0 <= l < |sizes| ==> acts[l] == Activation(exp, sizes, weights, stimulus, l)
    ensures acts == Activations(exp, sizes, weights, stimulus)
  {
  }

  /** The output layer is the linear image of the last hidden layer (or of the stimulus, with two layers). */
  lemma OutputIsLinear(exp: Exp, sizes: seq<nat>, weights: seq<Mat>, stimulus: Row, c: nat)
    requires WeightsFit(sizes, weights) && |stimulus| == sizes[0] && c < sizes[|sizes| - 1]
    ensures Activation(exp, sizes, weights, stimulus, |sizes| - 1)[c]
              == Dot(Activation(exp, sizes, weights, stimulus, |sizes| - 2),
                     Column(weights[|sizes| - 2], c), sizes[|sizes| - 2])
                 + weights[|sizes| - 2][sizes[|sizes| - 2]][c]
  {
  }

  /**
   * The gradient of layer l (1 <= l < n): the output gradient at the top,
   * `gradient_back` of the gradient above it for the hidden layers.
   */
  function Gradient(sizes: seq<nat>, weights: seq<Mat>, acts: seq<Row>, goal: Row, l: nat): (g: Row)
    requires WeightsFit(sizes, weights) && ActsFit(sizes, acts)
    requires |goal| >= sizes[|sizes| - 1] && 1 <= l < |sizes|
    ensures |g| == sizes[l]
    decreases |sizes| - l
  {
    if l == |sizes| - 1 then GradientOutput(acts[l], goal).1
    else GradientBack(Gradient(sizes, weights, acts, goal, l + 1), weights[l], acts[l])
  }

  /** Back-propagating the gradient of layer l + 1 gives the gradient of hidden layer l. */
  lemma GradientStep(sizes: seq<nat>, weights: seq<Mat>, acts: seq<Row>, goal: Row, l: nat, upper: Row)
    requires WeightsFit(sizes, weights) && ActsFit(sizes, acts) && |goal| >= sizes[|sizes| - 1]
    requires 1 <= l < |sizes| - 1 && upper == Gradient(sizes, weights, acts, goal, l + 1)
    ensures GradientBack(upper, weights[l], acts[l]) == Gradient(sizes, weights, acts, goal, l)
  {
  }

  /** The unscaled weight delta of boundary i: `weight_delta` of the gradient of layer i + 1. */
  function Delta(sizes: seq<nat>, weights: seq<Mat>, acts: seq<Row>, goal: Row, i: nat): (d: Mat)
    requires WeightsFit(sizes, weights) && ActsFit(sizes, acts) && |goal| >= sizes[|sizes| - 1]
    requires i < |weights|
    ensures IsMat(d, sizes[i] + 1, sizes[i + 1])
  {
    WeightDelta(Gradient(sizes, weights, acts, goal, i + 1), acts[i])
  }

  /** A gradient known to be layer i + 1's gives boundary i's delta. */
  lemma DeltaOfGradient(sizes: seq<nat>, weights: seq<Mat>, acts: seq<Row>, goal: Row, i: nat, g: Row)
    requires WeightsFit(sizes, weights) && ActsFit(sizes, acts) && |goal| >= sizes[|sizes| - 1]
    requires i < |weights| && g == Gradient(sizes, weights, acts, goal, i + 1)
    ensures WeightDelta(g, acts[i]) == Delta(sizes, weights, acts, goal, i)
  {
  }

  /** The unscaled weight deltas of every boundary, each shaped like its weight matrix. */
  function Deltas(sizes: seq<nat>, weights: seq<Mat>, acts: seq<Row>, goal: Row): (ds: seq<Mat>)
    requires WeightsFit(sizes, weights) && ActsFit(sizes, acts) && |goal| >= sizes[|sizes| - 1]
    ensures WeightsFit(sizes, ds)
    ensures forall i :: 0 <= i < |ds| ==> ds[i] == Delta(sizes, weights, acts, goal, i)
  {
    var ds := seq(|weights|, i requires 0 <= i < |weights| => Delta(sizes, weights, acts, goal, i));
    forall i | 0 <= i < |ds| ensures IsMat(ds[i], sizes[i] + 1, sizes[i + 1]) { }
    ds
  }

  /** Every snapshot of a queue shaped like the weights fits boundary i. */
  lemma SnapshotsShaped(sizes: seq<nat>, weights: seq<Mat>, inertia: seq<seq<Mat>>, i: nat)
    requires WeightsFit(sizes, weights) && InertiaFits(sizes, inertia) && i < |weights|
    ensures SnapshotsFit(inertia, i, weights[i])
  {
    forall t | 0 <= t < |inertia| ensures i < |inertia[t]| && SameShape(inertia[t][i], weights[i]) {
      assert WeightsFit(sizes, inertia[t]);
      assert IsMat(inertia[t][i], sizes[i] + 1, sizes[i + 1]);
    }
  }

  /** The updated weights of boundary i: `update_weights` with the boundary's delta. */
  function NewWeight(sizes: seq<nat>, weights: seq<Mat>, acts: seq<Row>, goal: Row, inertia: seq<seq<Mat>>,
                     momentum: Momentum, global: real, col: Row, i: nat): (w: Mat)
    requires WeightsFit(sizes, weights) && ActsFit(sizes, acts) && |goal| >= sizes[|sizes| - 1]
    requires 1 <= |inertia| && InertiaFits(sizes, inertia) && |col| == sizes[0] + 1
    requires i < |weights|
    ensures IsMat(w, sizes[i] + 1, sizes[i + 1])
  {
    SnapshotsShaped(sizes, weights, inertia, i);
    UpdatedWeights(momentum, inertia, i, weights[i], Delta(sizes, weights, acts, goal, i), global, col)
  }

  /** The weights after `backpropagate`: every boundary updated from the old weights and queue. */
  function NewWeights(sizes: seq<nat>, weights: seq<Mat>, acts: seq<Row>, goal: Row, inertia: seq<seq<Mat>>,
                      momentum: Momentum, global: real, col: Row): (nw: seq<Mat>)
    requires WeightsFit(sizes, weights) && ActsFit(sizes, acts) && |goal| >= sizes[|sizes| - 1]
    requires 1 <= |inertia| && InertiaFits(sizes, inertia) && |col| == sizes[0] + 1
    ensures WeightsFit(sizes, nw)
    ensures forall i :: 0 <= i < |nw| ==> nw[i] == NewWeight(sizes, weights, acts, goal, inertia, momentum, global, col, i)
  {
    var nw := seq(|weights|, i requires 0 <= i < |weights| => NewWeight(sizes, weights, acts, goal, inertia, momentum, global, col, i));
    forall i | 0 <= i < |nw| ensures IsMat(nw[i], sizes[i] + 1, sizes[i + 1]) { }
    nw
  }

  /**
   * Deltas built from the gradients of every layer, and boundaries updated
   * with them, are `Deltas` and `NewWeights`.
   */
  lemma BoundaryUpdates(sizes: seq<nat>, weights: seq<Mat>, acts: seq<Row>, goal: Row, inertia: seq<seq<Mat>>,
                        momentum: Momentum, global: real, col: Row,
                        gradients: seq<Row>, deltas: seq<Mat>, updated: seq<Mat>)
    requires WeightsFit(sizes, weights) && ActsFit(sizes, acts) && |goal| >= sizes[|sizes| - 1]
    requires 1 <= |inertia| && InertiaFits(sizes, inertia) && |col| == sizes[0] + 1
    requires |gradients| == |sizes| && forall k :: 1 <= k < |sizes| ==> gradients[k] == Gradient(sizes, weights, acts, goal, k)
    requires |deltas| == |weights| && forall k :: 0 <= k < |weights| ==> deltas[k] == WeightDelta(gradients[k + 1], acts[k])
    requires forall k :: 0 <= k < |weights| ==> SnapshotsFit(inertia, k, weights[k]) && SameShape(weights[k], deltas[k])
    requires |updated| == |weights| &&
             forall k :: 0 <= k < |weights| ==> updated[k] == UpdatedWeights(momentum, inertia, k, weights[k], deltas[k], global, col)
    ensures deltas == Deltas(sizes, weights, acts, goal)
    ensures updated == NewWeights(sizes, weights, acts, goal, inertia, momentum, global, col)
  {
    var ds := Deltas(sizes, weights, acts, goal);
    forall k | 0 <= k < |weights| ensures deltas[k] == ds[k] {
      DeltaOfGradient(sizes, weights, acts, goal, k, gradients[k + 1]);
    }
  }

  /**
   * `appendleft` then `pop` past capacity: x goes in front, the oldest
   * entry is dropped when the queue would exceed `cap`.
   */
  function PushFront<T>(q: seq<T>, x: T, cap: nat): (r: seq<T>)
    requires 1 <= cap && |q| <= cap
    ensures 1 <= |r| <= cap
    ensures |r| == if |q| < cap then |q| + 1 else cap
    ensures r[0] == x && r[1..] == q[..|r| - 1]
  {
    var pushed := [x] + q;
    if |pushed| > cap then pushed[..|pushed| - 1] else pushed
  }

  /** Pushing a snapshot shaped like the weights keeps every snapshot of the queue shaped like them. */
  lemma PushFrontFits(sizes: seq<nat>, q: seq<seq<Mat>>, x: seq<Mat>, cap: nat)
    requires 1 <= cap && |q| <= cap
    requires InertiaFits(sizes, q) && WeightsFit(sizes, x)
    ensures InertiaFits(sizes, PushFront(q, x, cap))
  {
    var r := PushFront(q, x, cap);
    forall t | 0 <= t < |r| ensures WeightsFit(sizes, r[t]) {
      if t > 0 {
        assert r[t] == r[1..][t - 1] == q[t - 1];
      }
    }
  }

  /**
   * The constructor's default momentum `exp_decay`: its weights fall to
   * the memory threshold, so `init_momentum` ends on it.
   */
  function DefaultMomentum(exp: Exp): (m: Momentum)
    ensures m.Decay? && forall n: nat :: m.weightAt(n) == ExpDecay(exp, n)
    ensures exists k: nat :: k >= 1 && m.weightAt(k) <= MemoryThreshold
  {
    var m := Decay((n: nat) => ExpDecay(exp, n));
    ExpDecayBound(exp, 249);
    assert m.weightAt(249) <= MemoryThreshold;
    m
  }

  /**
   * The loop of `propagate` as written (src/BackPropNetworks.py, lines 215-218): the index of
   * the layer the final linear `forward` writes is the loop variable plus
   * one, and the loop variable is unbound when range(1, n - 1) is empty.
   */
  method OutputLayerAsWritten(nLayers: nat) returns (out: Option<nat>)
    requires nLayers >= 2
    ensures out.Some? <==> nLayers >= 3
    ensures out.Some? ==> out.value == nLayers - 1
  {
    var layer: Option<nat> := None;
    for l := 1 to nLayers - 1
      invariant layer == if l == 1 then None else Some(l - 1)
    {
      layer := Some(l);
    }
    if layer.None? {
      return None;
    }
    out := Some(layer.value + 1);
  }

  class BackPropNetwork {
    /** The neuron count of each layer, input first, output last. */
    const sizes: seq<nat>
    const exp: Exp
    /** The global learning rate, used by every boundary after the first. */
    const lrnGlobal: real
    /** The per-row learning rates of the first boundary. */
    const lrnColumn: Row
    const momentum: Momentum
    const inertiaMemory: nat

    var neurons: seq<Row>
    var weights: seq<Mat>
    /** Past unscaled weight deltas, most recent first. */
    var inertia: seq<seq<Mat>>
    /** The output error of the last `run`, None before the first one. */
    var error: Option<Row>

    ghost predicate Valid()
      reads this
    {
      WeightsFit(sizes, weights) && ActsFit(sizes, neurons) &&
      |lrnColumn| == sizes[0] + 1 &&
      1 <= |inertia| <= inertiaMemory && InertiaFits(sizes, inertia) &&
      (error.Some? ==> |error.value| == sizes[|sizes| - 1])
    }

    constructor (nNeurons: seq<nat>, nSalient: nat, lrnRates: (real, real, real), momentumSpec: Momentum,
                 draws: seq<Mat>, exp: Exp)
      requires |nNeurons| >= 2 && nSalient <= nNeurons[0]
      requires |draws| == |nNeurons| - 1
      requires forall i :: 0 <= i < |draws| ==> IsMat(draws[i], nNeurons[i] + 1, nNeurons[i + 1]) && UnitDraws(draws[i])
      requires momentumSpec.Decay? ==> exists k: nat :: k >= 1 && momentumSpec.weightAt(k) <= MemoryThreshold
      ensures Valid()
      ensures sizes == nNeurons && this.exp == exp
      ensures forall l :: 0 <= l < |sizes| ==> neurons[l] == Zeros(sizes[l])
      ensures forall i :: 0 <= i < |weights| ==> weights[i] == InitWeightsMatrix(draws[i], sizes[i], sizes[i + 1], true)
      ensures inertia == [ZeroSnapshot(sizes)]
      ensures lrnGlobal == lrnRates.0
      ensures lrnColumn == RateColumn(sizes[0], nSalient, lrnRates.0, lrnRates.1, lrnRates.2)
      ensures MomentumChoice(momentumSpec, lrnGlobal, lrnColumn, momentum, inertiaMemory)
      ensures error.None?
    {
      var n := |nNeurons|;
      sizes := nNeurons;
      this.exp := exp;
      error := None;
      neurons := seq(n, l requires 0 <= l < n => Zeros(nNeurons[l]));
      weights := seq(n - 1, i requires 0 <= i < n - 1 => InitWeightsMatrix(draws[i], nNeurons[i], nNeurons[i + 1], true));
      inertia := [ZeroSnapshot(nNeurons)];
      lrnGlobal := lrnRates.0;
      var col := RateColumn(nNeurons[0], nSalient, lrnRates.0, lrnRates.1, lrnRates.2);
      lrnColumn := col;
      var chosen, memory := InitMomentum(momentumSpec, lrnRates.0, col);
      momentum, inertiaMemory := chosen, memory;
    }

    /** `propagate`: writes the stimulus into layer 0 and recomputes every later layer. */
    method Propagate(stimulus: Row)
      requires Valid() && |stimulus| == sizes[0]
      modifies this
      ensures Valid()
      ensures weights == old(weights) && inertia == old(inertia) && error == old(error)
      ensures neurons == Activations(exp, sizes, weights, stimulus)
    {
      var n := |sizes|;
      neurons := neurons[0 := stimulus];
      var layer := 1;
      while layer < n - 1
        modifies this`neurons
        invariant 1 <= layer <= n - 1
        invariant ActsFit(sizes, neurons)
        invariant forall k :: 0 <= k < layer ==> neurons[k] == Activation(exp, sizes, weights, stimulus, k)
      {
        ActivationStep(exp, sizes, weights, stimulus, layer, neurons[layer - 1]);
        neurons := neurons[layer := Forward(exp, neurons[layer - 1], weights[layer - 1], sizes[layer], true)];
        layer := layer + 1;
      }
      ActivationStep(exp, sizes, weights, stimulus, layer, neurons[layer - 1]);
      neurons := neurons[layer := Forward(exp, neurons[layer - 1], weights[layer - 1], sizes[layer], false)];
      ActivationsFromLayers(exp, sizes, weights, stimulus, neurons);
    }

    /**
     * The arithmetic of `update_weights` for boundary i: the descent step,
     * then the momentum term accumulated over the queue.
     */
    method UpdateWeights(i: nat, delta: Mat) returns (newWeights: Mat)
      requires Valid() && i < |weights| && IsMat(delta, sizes[i] + 1, sizes[i + 1])
      ensures newWeights == UpdatedWeights(momentum, inertia, i, weights[i], delta, lrnGlobal, lrnColumn)
    {
      var base;
      if i == 0 {
        base := MatSub(weights[i], ScaleRows(delta, lrnColumn));
      } else {
        base := MatSub(weights[i], MatScale(lrnGlobal, delta));
      }
      newWeights := base;
      match momentum
      case Constant(m) =>
        newWeights := MatAdd(newWeights, MatScale(m, inertia[0][i]));
      case Decay(f) =>
        var t := 0;
        while t < |inertia|
          invariant 0 <= t <= |inertia|
          invariant newWeights == MomentumAccum(f, inertia, i, base, t)
        {
          newWeights := MatAdd(newWeights, MatScale(f(t), inertia[t][i]));
          t := t + 1;
        }
    }

    /**
     * The first loop of `backpropagate`: the output gradient, then every
     * hidden gradient from the one above it, downwards. Entry 0 is unused.
     */
    method Gradients(goal: Row) returns (gradients: seq<Row>)
      requires Valid() && |goal| >= sizes[|sizes| - 1]
      ensures |gradients| == |sizes|
      ensures forall k :: 1 <= k < |sizes| ==> gradients[k] == Gradient(sizes, weights, neurons, goal, k)
    {
      var n := |sizes|;
      gradients := seq(n, _ => []);
      gradients := gradients[n - 1 := GradientOutput(neurons[n - 1], goal).1];
      var layer := n - 2;
      while layer > 0
        invariant 0 <= layer <= n - 2
        invariant |gradients| == n
        invariant forall k :: layer < k < n ==> gradients[k] == Gradient(sizes, weights, neurons, goal, k)
      {
        GradientStep(sizes, weights, neurons, goal, layer, gradients[layer + 1]);
        gradients := gradients[layer := GradientBack(gradients[layer + 1], weights[layer], neurons[layer])];
        layer := layer - 1;
      }
    }

    /** The deltas of the second loop of `backpropagate`: boundary i's from the gradient of layer i + 1. */
    method WeightDeltas(gradients: seq<Row>) returns (deltas: seq<Mat>)
      requires Valid() && |gradients| == |sizes|
      requires forall k :: 0 < k < |sizes| ==> |gradients[k]| == sizes[k]
      ensures |deltas| == |weights|
      ensures forall k :: 0 <= k < |weights| ==> deltas[k] == WeightDelta(gradients[k + 1], neurons[k])
      ensures forall k :: 0 <= k < |weights| ==> IsMat(deltas[k], sizes[k] + 1, sizes[k + 1])
    {
      deltas := [];
      for layer := 0 to |weights|
        invariant |deltas| == layer
        invariant forall k :: 0 <= k < layer ==> deltas[k] == WeightDelta(gradients[k + 1], neurons[k])
        invariant forall k :: 0 <= k < layer ==> IsMat(deltas[k], sizes[k] + 1, sizes[k + 1])
      {
        deltas := deltas + [WeightDelta(gradients[layer + 1], neurons[layer])];
      }
    }

    /** The updates of the second loop of `backpropagate`: every boundary's weights moved by its delta. */
    method UpdateAll(deltas: seq<Mat>) returns (updated: seq<Mat>)
      requires Valid() && |deltas| == |weights|
      requires forall k :: 0 <= k < |weights| ==> IsMat(deltas[k], sizes[k] + 1, sizes[k + 1])
      ensures forall k :: 0 <= k < |weights| ==> SnapshotsFit(inertia, k, weights[k]) && SameShape(weights[k], deltas[k])
      ensures |updated| == |weights|
      ensures forall k :: 0 <= k < |weights| ==>
                updated[k] == UpdatedWeights(momentum, inertia, k, weights[k], deltas[k], lrnGlobal, lrnColumn)
    {
      forall k | 0 <= k < |weights| ensures SnapshotsFit(inertia, k, weights[k]) && SameShape(weights[k], deltas[k]) {
        SnapshotsShaped(sizes, weights, inertia, k);
      }
      updated := [];
      for layer := 0 to |weights|
        invariant |updated| == layer
        invariant forall k :: 0 <= k < layer ==>
                    updated[k] == UpdatedWeights(momentum, inertia, k, weights[k], deltas[k], lrnGlobal, lrnColumn)
      {
        var next := UpdateWeights(layer, deltas[layer]);
        updated := updated + [next];
      }
    }

    /**
     * `backpropagate`: every gradient from the current weights, then every
     * boundary updated, then the unscaled deltas pushed onto the queue; the
     * gradients are handed back when `r` is set.
     */
    method Backpropagate(goal: Row, r: bool) returns (grads: Option<seq<Row>>)
      requires Valid() && |goal| >= sizes[|sizes| - 1]
      modifies this
      ensures Valid()
      ensures neurons == old(neurons)
      ensures error == Some(GradientOutput(neurons[|sizes| - 1], goal).0)
      ensures weights == NewWeights(sizes, old(weights), neurons, goal, old(inertia), momentum, lrnGlobal, lrnColumn)
      ensures inertia == PushFront(old(inertia), Deltas(sizes, old(weights), neurons, goal), inertiaMemory)
      ensures grads.Some? <==> r
      ensures r ==> |grads.value| == |sizes| &&
                    forall k :: 1 <= k < |sizes| ==> grads.value[k] == Gradient(sizes, old(weights), neurons, goal, k)
    {
      var gradients := Gradients(goal);
      var weightDeltas := WeightDeltas(gradients);
      var updated := UpdateAll(weightDeltas);
      BoundaryUpdates(sizes, weights, neurons, goal, inertia, momentum, lrnGlobal, lrnColumn,
                      gradients, weightDeltas, updated);
      var queue := [weightDeltas] + inertia;
      if |queue| > inertiaMemory {
        queue := queue[..|queue| - 1];
      }
      PushFrontFits(sizes, inertia, weightDeltas, inertiaMemory);
      error := Some(GradientOutput(neurons[|sizes| - 1], goal).0);
      weights := updated;
      inertia := queue;
      grads := if r then Some(gradients) else None;
    }

    /**
     * `run`: propagates the stimulus and back-propagates against the goal,
     * the stimulus itself when no goal is given.
     */
    method Run(stimulus: Row, goal: Option<Row>)
      requires Valid() && |stimulus| == sizes[0]
      requires |goal.GetOr(stimulus)| >= sizes[|sizes| - 1]
      modifies this
      ensures Valid()
      ensures neurons == Activations(exp, sizes, old(weights), stimulus)
      ensures error == Some(GradientOutput(neurons[|sizes| - 1], goal.GetOr(stimulus)).0)
      ensures weights == NewWeights(sizes, old(weights), neurons, goal.GetOr(stimulus), old(inertia),
                                    momentum, lrnGlobal, lrnColumn)
      ensures inertia == PushFront(old(inertia), Deltas(sizes, old(weights), neurons, goal.GetOr(stimulus)),
                                   inertiaMemory)
    {
      var target := if goal.None? then stimulus else goal.value;
      Propagate(stimulus);
      var _ := Backpropagate(target, false);
    }
  }
}
