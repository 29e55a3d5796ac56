/**
 * Learning-rate and momentum configuration of the network
 * (src/BackPropNetworks.py, constructor and `init_momentum`).
 */
module MomentumPolicy {
  import opened LinAlg

  /**
   * The momentum parameter: a constant weight for the most recent update,
   * or a function giving the weight of the t-th most recent update.
   */
  datatype Momentum = Constant(value: real) | Decay(weightAt: nat -> real)

  /** Past updates whose momentum weight is at most this are forgotten. */
  const MemoryThreshold: real := 0.001

  /** m is the first index from 1 on where the decay weight is at most the threshold. */
  ghost predicate IsMemoryLength(f: nat -> real, m: nat) {
    m >= 1 && f(m) <= MemoryThreshold && forall k :: 1 <= k < m ==> f(k) > MemoryThreshold
  }

  /** The sum of f(x) over x < m. */
  function TotalWeight(f: nat -> real, m: nat): real {
    if m == 0 then 0.0 else TotalWeight(f, m - 1) + f(m - 1)
  }

  /** The total weight given to the retained history of `memory` updates. */
  function RetainedWeight(momentum: Momentum, memory: nat): real {
    match momentum
    case Constant(c) => c
    case Decay(f) => TotalWeight(f, memory)
  }

  function Fill(n: nat, x: real): (r: Row)
    ensures |r| == n && forall k :: 0 <= k < n ==> r[k] == x
  {
    seq(n, _ => x)
  }

  /**
   * The learning-rate column of the first weight matrix: one rate per
   * input unit and one for the bias row.
   */
  function RateColumn(n0: nat, nSalient: nat, global: real, salient: real, nonSalient: real): (col: Row)
    requires nSalient <= n0
    ensures |col| == n0 + 1
    ensures forall r :: 0 <= r < nSalient ==> col[r] == salient
    ensures forall r :: nSalient <= r < n0 ==> col[r] == nonSalient
    ensures col[n0] == global
  {
    Fill(nSalient, salient) + Fill(n0 - nSalient, nonSalient) + [global]
  }

  /** The smallest entry of a non-empty row. */
  function MinOf(s: Row): (m: real)
    requires |s| > 0
    ensures m in s
    ensures forall k :: 0 <= k < |s| ==> m <= s[k]
  {
    if |s| == 1 then s[0]
    else
      var t := MinOf(s[1..]);
      if s[0] <= t then s[0] else t
  }

  /** The smallest learning rate in use: the global one or one of the column. */
  function MinRate(global: real, col: Row): (m: real)
    requires |col| > 0
    ensures m <= global && (m == global || m in col)
    ensures forall k :: 0 <= k < |col| ==> m <= col[k]
  {
    var c := MinOf(col);
    if global <= c then global else c
  }

  /**
   * What `init_momentum` decides: a constant is kept with a memory of one
   * update; a decay function keeps the memory where it falls to the
   * threshold if its total weight there is below the smallest learning
   * rate, and is otherwise replaced by half that rate, with memory one.
   */
  ghost predicate MomentumChoice(spec: Momentum, global: real, col: Row, chosen: Momentum, memory: nat)
    requires |col| > 0
  {
    memory >= 1 &&
    match spec
    case Constant(c) => chosen.Constant? && chosen.value == c && memory == 1
    case Decay(f) =>
      (chosen.Decay? && chosen.weightAt == f && IsMemoryLength(f, memory)
        && TotalWeight(f, memory) < MinRate(global, col))
      ||
      (chosen.Constant? && chosen.value == MinRate(global, col) / 2.0 && memory == 1
        && exists m :: IsMemoryLength(f, m) && TotalWeight(f, m) >= MinRate(global, col))
  }

  /** The memory length of a decay function is unique. */
  lemma MemoryLengthUnique(f: nat -> real, m1: nat, m2: nat)
    requires IsMemoryLength(f, m1) && IsMemoryLength(f, m2)
    ensures m1 == m2
  {
  }

  /**
   * `init_momentum`: searches the memory length of a decay function and
   * checks its total weight against the smallest learning rate. The
   * search only ends when the function reaches the threshold, so that is
   * required of it.
   */
  method InitMomentum(spec: Momentum, global: real, col: Row) returns (chosen: Momentum, memory: nat)
    requires |col| > 0
    requires spec.Decay? ==> exists k: nat :: k >= 1 && spec.weightAt(k) <= MemoryThreshold
    ensures MomentumChoice(spec, global, col, chosen, memory)
    ensures spec.Decay? && MinRate(global, col) > 0.0 ==>
              RetainedWeight(chosen, memory) < MinRate(global, col)
  {
    match spec
    case Constant(c) =>
      chosen, memory := spec, 1;
    case Decay(f) =>
      ghost var w: nat :| w >= 1 && f(w) <= MemoryThreshold;
      var r := 1.0;
      var m := 0;
      while r > MemoryThreshold
        invariant m <= w
        invariant r == if m == 0 then 1.0 else f(m)
        invariant forall k :: 1 <= k < m ==> f(k) > MemoryThreshold
        decreases w - m
      {
        m := m + 1;
        r := f(m);
      }
      assert IsMemoryLength(f, m);
      var minRate := MinRate(global, col);
      if TotalWeight(f, m) < minRate {
        chosen, memory := spec, m;
      } else {
        chosen, memory := Constant(minRate / 2.0), 1;
      }
  }
}
