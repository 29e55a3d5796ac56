/**
 * The two module-level helpers of the network: the logistic gate `sigmf`
 * and the default momentum decay `exp_decay`. The exponential itself is
 * a parameter `exp`, known by two facts the real exponential has: it is
 * positive, and exp(x) * (1 - x) <= 1 for x <= 0 (from exp(y) >= 1 + y).
 */
module Gates {

  /** An exponential function: positive, and exp(-y) at most 1 / (1 + y) for y >= 0. */
  type Exp = f: real -> real
    | (forall x :: f(x) > 0.0) && (forall y :: y >= 0.0 ==> AtNegative(f, y) * (1.0 + y) <= 1.0)
    witness (x: real) => if x <= 0.0 then 1.0 / (1.0 - x) else 1.0 + x

  /** f(-y): names the point where the bound of `Exp` applies. */
  function AtNegative(f: real -> real, y: real): real {
    f(-y)
  }

  /** The logistic function 1 / (1 + exp(-m)). */
  function Sigmf(exp: Exp, m: real): (r: real)
    ensures 0.0 < r < 1.0
  {
    1.0 / (1.0 + exp(-m))
  }

  /** The default momentum: 0.25 * exp(-n) for the n-th past update. */
  function ExpDecay(exp: Exp, n: nat): (r: real)
    ensures 0.0 < r
  {
    0.25 * exp(-(n as real))
  }

  /** The n-th decay weight is at most 0.25 / (1 + n), so it falls towards 0. */
  lemma ExpDecayBound(exp: Exp, n: nat)
    ensures ExpDecay(exp, n) * (1.0 + n as real) <= 0.25
  {
    assert AtNegative(exp, n as real) * (1.0 + n as real) <= 1.0;
  }
}
