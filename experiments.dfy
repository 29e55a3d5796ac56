/**
 * The stimulus and result bookkeeping of src/Experiments.py: the pair
 * of prototypes with a chosen overlap (`generate_stims`), a category of
 * exemplars drawn around a prototype (`generate_category`), the layout
 * of the familiarisation stimuli, the decoding of a subject's number
 * into its condition and contrast set, and the CSV rows of the contrast
 * test and of the familiarisation errors. Random draws are parameters.
 */
module Experiments {
  import opened Wrappers
  import opened LinAlg
  import opened Text
  import opened Subjects

  // ---------------------------------------------------------------------
  // generate_stims

  /** Python's `int(x)` on a non-negative float: truncation, here the floor. */
  function Trunc(x: real): (k: int)
    requires x >= 0.0
    ensures 0 <= k && k as real <= x < k as real + 1.0
  {
    x.Floor
  }

  /** The overlapping units: ratio·size truncated, plus one when the rest would be odd. */
  function NOverlap(size: nat, ratio: real): nat
    requires 0.0 <= ratio <= 1.0
  {
    assert ratio * size as real <= size as real by {
      assert ratio * size as real <= 1.0 * size as real;
    }
    var k := Trunc(ratio * size as real);
    if (size - k) % 2 == 1 then k + 1 else k
  }

  /** The number of units on which the two stimuli differ. */
  function NDiff(size: nat, ratio: real): int
    requires 0.0 <= ratio <= 1.0
  {
    size - NOverlap(size, ratio)
  }

  /**
   * The differing units are an even number between 0 and size: what is
   * left after the truncated overlap, rounded down to even.
   */
  lemma NDiffSpec(size: nat, ratio: real)
    requires 0.0 <= ratio <= 1.0
    ensures var d := NDiff(size, ratio);
      && 0 <= d <= size
      && d % 2 == 0
      && d == 2 * ((size - Trunc(ratio * size as real)) / 2)
  {
    assert ratio * size as real <= size as real by {
      assert ratio * size as real <= 1.0 * size as real;
    }
  }

  /** The elements of a sequence of indices, as a set. */
  function Elems(xs: seq<nat>): set<nat> {
    set x | x in xs
  }

  predicate Distinct(xs: seq<nat>) {
    forall a, b :: 0 <= a < b < |xs| ==> xs[a] != xs[b]
  }

  lemma {:induction false} DistinctCard(xs: seq<nat>)
    requires Distinct(xs)
    ensures |Elems(xs)| == |xs|
  {
    if |xs| > 0 {
      var init := xs[..|xs| - 1];
      DistinctCard(init);
      assert Elems(xs) == Elems(init) + {xs[|xs| - 1]};
    }
  }

  /** `np.setdiff1d(xs, ys)` without its sorting: the elements of xs not in ys. */
  function Without(xs: seq<nat>, ys: seq<nat>): (r: seq<nat>)
    ensures forall x :: x in r <==> x in xs && x !in ys
  {
    if |xs| == 0 then []
    else (if xs[0] in ys then [] else [xs[0]]) + Without(xs[1..], ys)
  }

  /** The positions holding 0 in a row. */
  function ZeroSet(s: Row): set<nat> {
    set p: nat | p < |s| && s[p] == 0.0
  }

  /** What numpy's two `choice` calls return: distinct in-range indices of the right counts. */
  predicate ValidDraws(size: nat, nDiff: int, iDiff: seq<nat>, iStim1: seq<nat>) {
    && |iDiff| == nDiff && Distinct(iDiff) && (forall k :: 0 <= k < |iDiff| ==> iDiff[k] < size)
    && |iStim1| == nDiff / 2 && Distinct(iStim1) && (forall k :: 0 <= k < |iStim1| ==> iStim1[k] in iDiff)
  }

  /**
   * `generate_stims`: two all-ones rows; stim1 is zeroed on the drawn
   * half iStim1 of the differing units iDiff, stim2 on the other half.
   * Each row has exactly NDiff/2 zeros, the zero sets are disjoint and
   * together make up iDiff, and the rows agree exactly off iDiff.
   */
  method GenerateStims(size: nat, ratio: real, iDiff: seq<nat>, iStim1: seq<nat>) returns (stim1: Row, stim2: Row)
    requires 0.0 <= ratio <= 1.0
    requires ValidDraws(size, NDiff(size, ratio), iDiff, iStim1)
    ensures |stim1| == size && |stim2| == size
    ensures forall p :: 0 <= p < size ==> stim1[p] == if p in iStim1 then 0.0 else 1.0
    ensures forall p :: 0 <= p < size ==> stim2[p] == if p in iDiff && p !in iStim1 then 0.0 else 1.0
    ensures ZeroSet(stim1) == Elems(iStim1) && ZeroSet(stim2) == Elems(iDiff) - Elems(iStim1)
    ensures |ZeroSet(stim1)| == NDiff(size, ratio) / 2 == |ZeroSet(stim2)|
    ensures ZeroSet(stim1) !! ZeroSet(stim2) && ZeroSet(stim1) + ZeroSet(stim2) == Elems(iDiff)
    ensures forall p :: 0 <= p < size ==> (stim1[p] == stim2[p] <==> p !in iDiff)
  {
    var s1 := new real[size](_ => 1.0);
    var s2 := new real[size](_ => 1.0);
    var iStim2 := Without(iDiff, iStim1);
    InRange(size, iDiff, iStim1);
    ZeroAt(s1, iStim1);
    ZeroAt(s2, iStim2);
    stim1, stim2 := s1[..], s2[..];
    ZeroHalves(size, ratio, iDiff, iStim1, stim1, stim2);
  }

  /** numpy's `a[0, idx] = 0` on a row of ones: zero exactly the listed positions. */
  method ZeroAt(a: array<real>, idx: seq<nat>)
    requires forall p :: 0 <= p < a.Length ==> a[p] == 1.0
    requires forall k :: 0 <= k < |idx| ==> idx[k] < a.Length
    modifies a
    ensures ZeroedOn(a[..], idx)
  {
    assert ZeroedOn(a[..], idx[..0]);
    for k := 0 to |idx|
      invariant ZeroedOn(a[..], idx[..k])
    {
      ghost var before := a[..];
      ZeroStep(before, idx[..k], idx[k]);
      assert idx[..k + 1] == idx[..k] + [idx[k]];
      a[idx[k]] := 0.0;
      assert a[..] == before[idx[k] := 0.0];
    }
    assert idx[..|idx|] == idx;
  }

  /** The row is 0 exactly at the listed positions and 1 elsewhere. */
  predicate ZeroedOn(row: Row, idx: seq<nat>) {
    forall p :: 0 <= p < |row| ==> row[p] == if p in idx then 0.0 else 1.0
  }

  /** Zeroing one more position extends the list of zeroed positions. */
  lemma ZeroStep(row: Row, idx: seq<nat>, i: nat)
    requires ZeroedOn(row, idx) && i < |row|
    ensures ZeroedOn(row[i := 0.0], idx + [i])
  {
  }

  /** Both index lists stay within the row. */
  lemma InRange(size: nat, iDiff: seq<nat>, iStim1: seq<nat>)
    requires forall k :: 0 <= k < |iDiff| ==> iDiff[k] < size
    requires forall k :: 0 <= k < |iStim1| ==> iStim1[k] in iDiff
    ensures forall k :: 0 <= k < |iStim1| ==> iStim1[k] < size
    ensures forall k :: 0 <= k < |Without(iDiff, iStim1)| ==> Without(iDiff, iStim1)[k] < size
  {
    var w := Without(iDiff, iStim1);
    forall k | 0 <= k < |w| ensures w[k] < size {
      assert w[k] in w;
      var j :| 0 <= j < |iDiff| && iDiff[j] == w[k];
    }
    forall k | 0 <= k < |iStim1| ensures iStim1[k] < size {
      var j :| 0 <= j < |iDiff| && iDiff[j] == iStim1[k];
    }
  }

  /** The zero sets of the two rows, from their entries. */
  lemma ZeroHalves(size: nat, ratio: real, iDiff: seq<nat>, iStim1: seq<nat>, stim1: Row, stim2: Row)
    requires 0.0 <= ratio <= 1.0
    requires ValidDraws(size, NDiff(size, ratio), iDiff, iStim1)
    requires |stim1| == size && |stim2| == size
    requires ZeroedOn(stim1, iStim1) && ZeroedOn(stim2, Without(iDiff, iStim1))
    ensures forall p :: 0 <= p < size ==> stim1[p] == if p in iStim1 then 0.0 else 1.0
    ensures forall p :: 0 <= p < size ==> stim2[p] == if p in iDiff && p !in iStim1 then 0.0 else 1.0
    ensures ZeroSet(stim1) == Elems(iStim1) && ZeroSet(stim2) == Elems(iDiff) - Elems(iStim1)
    ensures |ZeroSet(stim1)| == NDiff(size, ratio) / 2 == |ZeroSet(stim2)|
    ensures ZeroSet(stim1) !! ZeroSet(stim2) && ZeroSet(stim1) + ZeroSet(stim2) == Elems(iDiff)
  {
    var d, h := Elems(iDiff), Elems(iStim1);
    forall x | x in d ensures x < size {
      var k :| 0 <= k < |iDiff| && iDiff[k] == x;
    }
    assert ZeroSet(stim1) == h;
    assert ZeroSet(stim2) == d - h;
    HalfCards(size, ratio, iDiff, iStim1);
  }

  /** The drawn half and the rest of the differing units each number NDiff / 2. */
  lemma HalfCards(size: nat, ratio: real, iDiff: seq<nat>, iStim1: seq<nat>)
    requires 0.0 <= ratio <= 1.0
    requires ValidDraws(size, NDiff(size, ratio), iDiff, iStim1)
    ensures Elems(iStim1) <= Elems(iDiff)
    ensures |Elems(iStim1)| == NDiff(size, ratio) / 2 == |Elems(iDiff) - Elems(iStim1)|
  {
    var d, h := Elems(iDiff), Elems(iStim1);
    forall x | x in h ensures x in d {
      var k :| 0 <= k < |iStim1| && iStim1[k] == x;
    }
    DistinctCard(iDiff);
    DistinctCard(iStim1);
    NDiffSpec(size, ratio);
    assert d == (d - h) + h && (d - h) * h == {};
  }

  // ---------------------------------------------------------------------
  // generate_category

  /** The step budget of the rejection sampler. */
  const Budget: nat := 100000

  datatype CategoryError =
    | BudgetExhausted  // `raise NotImplementedError` once `steps` reaches the budget
    | NoCandidate      // a method other than "continuous" never binds `new_exemplar`

  /** Draws of numpy's `uniform(-noise, noise, prototype.shape)`, one per step. */
  ghost predicate NoiseFits(prototype: Row, noise: nat -> Row) {
    forall k :: |noise(k)| == |prototype|
  }

  /** The candidate of step k: the prototype plus that step's noise. */
  function Candidate(prototype: Row, noise: nat -> Row, k: nat): (c: Row)
    requires NoiseFits(prototype, noise)
    ensures |c| == |prototype|
    ensures forall j :: 0 <= j < |c| ==> c[j] == prototype[j] + noise(k)[j]
  {
    RowAdd(prototype, noise(k))
  }

  /** A candidate is kept iff it is at least minDist from every exemplar kept so far. */
  predicate Far(exemplars: seq<Row>, c: Row, dist: (Row, Row) -> real, minDist: real) {
    forall j :: 0 <= j < |exemplars| ==> dist(exemplars[j], c) >= minDist
  }

  /**
   * The exemplar list after k steps: the prototype, then each accepted
   * candidate in order; once n exemplars are accepted, nothing changes.
   */
  function Grow(prototype: Row, noise: nat -> Row, dist: (Row, Row) -> real, minDist: real, n: nat, k: nat)
    : (ex: seq<Row>)
    requires NoiseFits(prototype, noise)
    ensures 1 <= |ex| <= n + 1 && ex[0] == prototype
  {
    if k == 0 then [prototype]
    else
      var prev := Grow(prototype, noise, dist, minDist, n, k - 1);
      if |prev| - 1 >= n then prev
      else
        var c := Candidate(prototype, noise, k);
        if Far(prev, c, dist, minDist) then prev + [c] else prev
  }

  /** Every list entry lies at least minDist from every earlier one. */
  predicate Separated(ex: seq<Row>, dist: (Row, Row) -> real, minDist: real) {
    forall i, j :: 0 <= j < i < |ex| ==> dist(ex[j], ex[i]) >= minDist
  }

  /**
   * What sampling keeps: every exemplar is minDist from the prototype and
   * from each earlier exemplar, and is the candidate of some step <= k.
   */
  lemma {:induction false} GrowSpec(prototype: Row, noise: nat -> Row, dist: (Row, Row) -> real, minDist: real,
                                    n: nat, k: nat)
    requires NoiseFits(prototype, noise)
    ensures var ex := Grow(prototype, noise, dist, minDist, n, k);
      && Separated(ex, dist, minDist)
      && forall i :: 1 <= i < |ex| ==> exists t :: 1 <= t <= k && ex[i] == Candidate(prototype, noise, t)
  {
    if k > 0 {
      GrowSpec(prototype, noise, dist, minDist, n, k - 1);
    }
  }

  /** Once the quota is met the list stays as it is. */
  lemma {:induction false} GrowStable(prototype: Row, noise: nat -> Row, dist: (Row, Row) -> real, minDist: real,
                                      n: nat, k: nat, j: nat)
    requires NoiseFits(prototype, noise)
    requires k <= j && |Grow(prototype, noise, dist, minDist, n, k)| == n + 1
    ensures Grow(prototype, noise, dist, minDist, n, j) == Grow(prototype, noise, dist, minDist, n, k)
  {
    if k < j {
      GrowStable(prototype, noise, dist, minDist, n, k, j - 1);
    }
  }

  /**
   * The outcome of `generate_category` as written: it fails when the
   * method is not "continuous" and an exemplar is wanted, and when the
   * last step of the budget is taken, which happens iff the quota was
   * not met within Budget - 1 steps.
   */
  function CategoryAsWritten(continuous: bool, prototype: Row, n: nat, noise: nat -> Row,
                             dist: (Row, Row) -> real, minDist: real): Result<seq<Row>, CategoryError>
    requires NoiseFits(prototype, noise)
  {
    if !continuous && n > 0 then Failure(NoCandidate)
    else if |Grow(prototype, noise, dist, minDist, n, Budget - 1)| - 1 < n then Failure(BudgetExhausted)
    else Success(Grow(prototype, noise, dist, minDist, n, Budget)[1..])
  }

  /**
   * A category that is returned has exactly n exemplars, without the
   * prototype, each minDist from the prototype and from every earlier
   * exemplar, each the candidate of some step.
   */
  lemma CategoryAsWrittenSpec(continuous: bool, prototype: Row, n: nat, noise: nat -> Row,
                              dist: (Row, Row) -> real, minDist: real)
    requires NoiseFits(prototype, noise)
    ensures var r := CategoryAsWritten(continuous, prototype, n, noise, dist, minDist);
      r.Success? ==>
        && |r.value| == n
        && (forall i :: 0 <= i < n ==> dist(prototype, r.value[i]) >= minDist)
        && (forall i, j :: 0 <= j < i < n ==> dist(r.value[j], r.value[i]) >= minDist)
        && (forall i :: 0 <= i < n ==> exists t :: 1 <= t <= Budget && r.value[i] == Candidate(prototype, noise, t))
  {
    var r := CategoryAsWritten(continuous, prototype, n, noise, dist, minDist);
    if r.Success? {
      var ex := Grow(prototype, noise, dist, minDist, n, Budget - 1);
      GrowStable(prototype, noise, dist, minDist, n, Budget - 1, Budget);
      GrowSpec(prototype, noise, dist, minDist, n, Budget);
      var all := Grow(prototype, noise, dist, minDist, n, Budget);
      assert forall i :: 0 <= i < n ==> r.value[i] == all[i + 1];
    }
  }

  /** The source's inner loop: scan the exemplars and stop at the first one closer than minDist. */
  method IsFar(exemplars: seq<Row>, candidate: Row, dist: (Row, Row) -> real, minDist: real) returns (far: bool)
    ensures far <==> Far(exemplars, candidate, dist, minDist)
  {
    var j := 0;
    while j < |exemplars|
      invariant 0 <= j <= |exemplars|
      invariant Far(exemplars[..j], candidate, dist, minDist)
    {
      if dist(exemplars[j], candidate) < minDist {
        return false;
      }
      j := j + 1;
    }
    assert exemplars[..j] == exemplars;
    return true;
  }

  /**
   * `generate_category`: rejection sampling with a step budget. Each step
   * draws a candidate and keeps it unless it is closer than minDist to
   * the prototype or to an exemplar kept before. After the loop it fails
   * when the quota is not met, not (as written) whenever the last step of
   * the budget was taken.
   */
  method GenerateCategory(prototype: Row, n: nat, continuous: bool, noise: nat -> Row,
                          dist: (Row, Row) -> real, minDist: real)
    returns (r: Result<seq<Row>, CategoryError>)
    requires NoiseFits(prototype, noise)
    ensures r == IntendedCategory(continuous, prototype, n, noise, dist, minDist)
  {
    var count := 0;
    var steps := 0;
    var exemplars := [prototype];
    while count < n && steps < Budget
      invariant 0 <= steps <= Budget
      invariant exemplars == Grow(prototype, noise, dist, minDist, n, steps)
      invariant count == |exemplars| - 1
      invariant steps > 0 ==> continuous
    {
      steps := steps + 1;
      if !continuous {
        return Failure(NoCandidate);
      }
      var candidate := RowAdd(prototype, noise(steps));
      var far := IsFar(exemplars, candidate, dist, minDist);
      if far {
        exemplars := exemplars + [candidate];
        count := count + 1;
      }
    }
    if count < n {
      return Failure(BudgetExhausted);
    }
    if !continuous && n > 0 {
      // the loop body ran and returned above
      assert false;
    }
    GrowStable(prototype, noise, dist, minDist, n, steps, Budget);
    r := Success(exemplars[1..]);
  }

  /**
   * The evidently intended outcome: fail only when the quota is still not
   * met after the whole budget.
   */
  function IntendedCategory(continuous: bool, prototype: Row, n: nat, noise: nat -> Row,
                            dist: (Row, Row) -> real, minDist: real): (r: Result<seq<Row>, CategoryError>)
    requires NoiseFits(prototype, noise)
    ensures r.Failure? <==>
              (!continuous && n > 0) || |Grow(prototype, noise, dist, minDist, n, Budget)| - 1 < n
    ensures r.Success? ==> |r.value| == n && Separated([prototype] + r.value, dist, minDist)
  {
    if !continuous && n > 0 then Failure(NoCandidate)
    else
      var ex := Grow(prototype, noise, dist, minDist, n, Budget);
      GrowSpec(prototype, noise, dist, minDist, n, Budget);
      assert [prototype] + ex[1..] == ex;
      if |ex| - 1 < n then Failure(BudgetExhausted) else Success(ex[1..])
  }

  /**
   * The code as written and the intended outcome differ exactly when the
   * quota is met by the draw of the very last step of the budget.
   */
  lemma CategoryDiffersOnlyAtLastStep(continuous: bool, prototype: Row, n: nat, noise: nat -> Row,
                                      dist: (Row, Row) -> real, minDist: real)
    requires NoiseFits(prototype, noise)
    ensures CategoryAsWritten(continuous, prototype, n, noise, dist, minDist)
            != IntendedCategory(continuous, prototype, n, noise, dist, minDist)
            <==>
            && (continuous || n == 0)
            && |Grow(prototype, noise, dist, minDist, n, Budget - 1)| - 1 < n
            && |Grow(prototype, noise, dist, minDist, n, Budget)| - 1 == n
  {
    var before := Grow(prototype, noise, dist, minDist, n, Budget - 1);
    if |before| - 1 >= n {
      GrowStable(prototype, noise, dist, minDist, n, Budget - 1, Budget);
    }
  }

  /** The fixed noise of the example: zero until the last step of the budget. */
  function ExampleNoise(k: nat): Row {
    if k < Budget then [0.0] else [1.0]
  }

  /** The distance of the example: 0 between equal rows, 1 otherwise. */
  function ExampleDistance(a: Row, b: Row): real {
    if a == b then 0.0 else 1.0
  }

  /** With the example draws, every step before the last rejects its candidate. */
  lemma {:induction false} ExampleRejectsEarly(k: nat)
    requires k < Budget
    ensures Grow([0.0], ExampleNoise, ExampleDistance, 1.0, 1, k) == [[0.0]]
  {
    if k > 0 {
      ExampleRejectsEarly(k - 1);
      var c := Candidate([0.0], ExampleNoise, k);
      assert c == [0.0];
      assert !Far([[0.0]], c, ExampleDistance, 1.0) by {
        assert ExampleDistance([[0.0]][0], c) == 0.0;
      }
    }
  }

  /**
   * One exemplar wanted, the prototype [0.0], every candidate but the
   * last equal to it: the last draw of the budget fills the quota, yet
   * the written code raises, while the intended outcome is that exemplar.
   */
  lemma LastDrawFillsQuota()
    ensures CategoryAsWritten(true, [0.0], 1, ExampleNoise, ExampleDistance, 1.0) == Failure(BudgetExhausted)
    ensures IntendedCategory(true, [0.0], 1, ExampleNoise, ExampleDistance, 1.0) == Success([[1.0]])
  {
    ExampleRejectsEarly(Budget - 1);
    ExampleAcceptsLast(Budget);
  }

  /** With the example draws, the last step of the budget accepts its candidate. */
  lemma ExampleAcceptsLast(k: nat)
    requires k == Budget
    ensures Grow([0.0], ExampleNoise, ExampleDistance, 1.0, 1, k) == [[0.0], [1.0]]
  {
    var prev := Grow([0.0], ExampleNoise, ExampleDistance, 1.0, 1, k - 1);
    assert prev == [[0.0]] by { ExampleRejectsEarly(k - 1); }
    var c := Candidate([0.0], ExampleNoise, k);
    assert c == [1.0];
    assert Far(prev, c, ExampleDistance, 1.0) by {
      assert prev[0] != c;
    }
  }

  // ---------------------------------------------------------------------
  // Familiarisation stimuli (Experiment.__init__)

  /** `l_stims`: condition 0 has two all-zero label parts, condition 1 the two generated labels. */
  function LabelStims(lSize: nat, labels: (Row, Row)): (l: seq<seq<Row>>)
    ensures |l| == 2 && |l[0]| == 2 && |l[1]| == 2
  {
    [[Zeros(lSize), Zeros(lSize)], [labels.0, labels.1]]
  }

  /** Two categories of at least six exemplars each. */
  predicate Categories(c: seq<seq<Row>>) {
    |c| == 2 && |c[0]| >= 6 && |c[1]| >= 6
  }

  /** The head exemplar category shown with exemplar i of category cat. */
  function HeadCategory(i: nat, cat: nat): nat {
    (i + cat) % 2
  }

  /** Stimulus i of category cat in condition cond: label, head, tail side by side. */
  function FamStim(lStims: seq<seq<Row>>, hStims: seq<seq<Row>>, tStims: seq<seq<Row>>,
                   cond: nat, cat: nat, i: nat): Row
    requires |lStims| == 2 && |lStims[0]| == 2 && |lStims[1]| == 2
    requires Categories(hStims) && Categories(tStims)
    requires cond < 2 && cat < 2 && i < 6
  {
    lStims[cond][cat] + hStims[HeadCategory(i, cat)][i] + tStims[cat][i]
  }

  /**
   * `fam_stims`, built in nested loops as the constructor does:
   * fam[cond][cat][i] for two conditions, two categories and six stimuli.
   */
  method BuildFamStims(lSize: nat, labels: (Row, Row), hStims: seq<seq<Row>>, tStims: seq<seq<Row>>)
    returns (fam: seq<seq<seq<Row>>>)
    requires Categories(hStims) && Categories(tStims)
    ensures |fam| == 2 && forall cond :: 0 <= cond < 2 ==> |fam[cond]| == 2
    ensures forall cond, cat :: 0 <= cond < 2 && 0 <= cat < 2 ==> |fam[cond][cat]| == 6
    ensures forall cond, cat, i :: 0 <= cond < 2 && 0 <= cat < 2 && 0 <= i < 6 ==>
              fam[cond][cat][i] == FamStim(LabelStims(lSize, labels), hStims, tStims, cond, cat, i)
  {
    var lStims := LabelStims(lSize, labels);
    fam := [];
    for cond := 0 to 2
      invariant |fam| == cond
      invariant forall c :: 0 <= c < cond ==> |fam[c]| == 2
      invariant forall c, k :: 0 <= c < cond && 0 <= k < 2 ==> |fam[c][k]| == 6
      invariant forall c, k, i :: 0 <= c < cond && 0 <= k < 2 && 0 <= i < 6 ==>
                  fam[c][k][i] == FamStim(lStims, hStims, tStims, c, k, i)
    {
      var categories := [];
      for cat := 0 to 2
        invariant |categories| == cat
        invariant forall k :: 0 <= k < cat ==> |categories[k]| == 6
        invariant forall k, i :: 0 <= k < cat && 0 <= i < 6 ==>
                    categories[k][i] == FamStim(lStims, hStims, tStims, cond, k, i)
      {
        var stims := [];
        for i := 0 to 6
          invariant |stims| == i
          invariant forall j :: 0 <= j < i ==> stims[j] == FamStim(lStims, hStims, tStims, cond, cat, j)
        {
          stims := stims + [lStims[cond][cat] + hStims[(i + cat) % 2][i] + tStims[cat][i]];
        }
        categories := categories + [stims];
      }
      fam := fam + [categories];
    }
  }

  /**
   * A familiarisation stimulus splits back into its label, head and tail
   * parts; the label part is all zeros in condition 0.
   */
  lemma FamStimParts(lSize: nat, labels: (Row, Row), hStims: seq<seq<Row>>, tStims: seq<seq<Row>>,
                     hSize: nat, tSize: nat, cond: nat, cat: nat, i: nat)
    requires Categories(hStims) && Categories(tStims) && |labels.0| == lSize && |labels.1| == lSize
    requires forall c, j :: 0 <= c < 2 && 0 <= j < 6 ==> |hStims[c][j]| == hSize && |tStims[c][j]| == tSize
    requires cond < 2 && cat < 2 && i < 6
    ensures var s := FamStim(LabelStims(lSize, labels), hStims, tStims, cond, cat, i);
      && |s| == lSize + hSize + tSize
      && s[..lSize] == (if cond == 0 then Zeros(lSize) else if cat == 0 then labels.0 else labels.1)
      && s[lSize..lSize + hSize] == hStims[HeadCategory(i, cat)][i]
      && s[lSize + hSize..] == tStims[cat][i]
  {
    var s := FamStim(LabelStims(lSize, labels), hStims, tStims, cond, cat, i);
    var l := LabelStims(lSize, labels)[cond][cat];
    var h := hStims[HeadCategory(i, cat)][i];
    assert s == l + h + tStims[cat][i];
    assert s[..lSize] == l;
    assert s[lSize..lSize + hSize] == h;
  }

  /**
   * The tail always follows the category while the head follows it for
   * even i only: exactly three of the six stimuli of a category show a
   * head of their own category, and the two categories' stimulus i
   * never share a head category.
   */
  lemma HeadsAreUninformative(cat: nat)
    requires cat < 2
    ensures |set i | 0 <= i < 6 && HeadCategory(i, cat) == cat| == 3
    ensures forall i :: 0 <= i < 6 ==> (HeadCategory(i, cat) == cat <==> i % 2 == 0)
    ensures forall i :: 0 <= i < 6 ==> HeadCategory(i, 0) != HeadCategory(i, 1)
  {
    assert (set i | 0 <= i < 6 && HeadCategory(i, cat) == cat) == {0, 2, 4};
  }

  // ---------------------------------------------------------------------
  // Subject types (run_subject)

  /** `format(v, '0{width}b')` for v < 2^width and width >= 1. */
  function Binary(v: nat, width: nat): (s: string)
    ensures |s| == width && forall k :: 0 <= k < width ==> s[k] == '0' || s[k] == '1'
  {
    if width == 0 then "" else Binary(v / 2, width - 1) + [if v % 2 == 0 then '0' else '1']
  }

  function Pow2(n: nat): nat {
    if n == 0 then 1 else 2 * Pow2(n - 1)
  }

  /** Python's `int(s, 2)`. */
  function ParseBinary(s: string): nat {
    if |s| == 0 then 0 else 2 * ParseBinary(s[..|s| - 1]) + (if s[|s| - 1] == '1' then 1 else 0)
  }

  /** Reading the digits back gives the number when it fits the width. */
  lemma {:induction false} ParseBinaryOf(v: nat, width: nat)
    requires v < Pow2(width)
    ensures ParseBinary(Binary(v, width)) == v
  {
    if width > 0 {
      var s := Binary(v, width);
      assert s[..|s| - 1] == Binary(v / 2, width - 1);
      ParseBinaryOf(v / 2, width - 1);
    }
  }

  /** `s_type`: the subject's number modulo 4 as two binary digits. */
  function SubjectType(subject: nat): (s: string)
    ensures |s| == 2 && IsDigit(s[0]) && IsDigit(s[1])
    ensures ParseBinary(s) == subject % 4
  {
    ParseBinaryOf(subject % 4, 2);
    Binary(subject % 4, 2)
  }

  /** `int(s_type[0])`: 0 for no label, 1 for label. */
  function Condition(subject: nat): nat {
    DigitValue(SubjectType(subject)[0])
  }

  /** `int(s_type[1])`: which of the two contrast stimulus sets. */
  function ContrastSet(subject: nat): nat {
    DigitValue(SubjectType(subject)[1])
  }

  /** The two digits are (subject % 4) / 2 and subject % 2. */
  lemma SubjectTypeBits(subject: nat)
    ensures Condition(subject) == (subject % 4) / 2 < 2
    ensures ContrastSet(subject) == subject % 2 < 2
    ensures Condition(subject) == 1 <==> subject % 4 >= 2
  {
    var v := subject % 4;
    var s := SubjectType(subject);
    assert s == Binary(v, 2);
    assert s[0] == (if v / 2 == 0 then '0' else '1') && s[1] == (if v % 2 == 0 then '0' else '1') by {
      assert Binary(v, 2) == Binary(v / 2, 1) + [if v % 2 == 0 then '0' else '1'];
      assert Binary(v / 2, 1) == Binary(v / 4, 0) + [if (v / 2) % 2 == 0 then '0' else '1'];
    }
    assert subject % 2 == v % 2;
  }

  /** The condition × contrast-set pairs of subjects first .. first + 3. */
  function PairsFrom(first: nat): set<(nat, nat)> {
    set s: nat | first <= s < first + 4 :: (Condition(s), ContrastSet(s))
  }

  /** Any four consecutive subjects cover the four condition × contrast-set pairs. */
  lemma Counterbalanced(first: nat)
    ensures PairsFrom(first) == {(0, 0), (0, 1), (1, 0), (1, 1)}
  {
    var all: set<(nat, nat)> := {(0, 0), (0, 1), (1, 0), (1, 1)};
    forall p | p in all ensures p in PairsFrom(first) {
      var s := SubjectWithPair(first, p.0, p.1);
    }
    forall p | p in PairsFrom(first) ensures p in all {
      var s: nat :| first <= s < first + 4 && p == (Condition(s), ContrastSet(s));
      SubjectTypeBits(s);
    }
  }

  /** The subject among first .. first + 3 whose number modulo 4 is 2c + t. */
  lemma SubjectWithPair(first: nat, c: nat, t: nat) returns (s: nat)
    requires c < 2 && t < 2
    ensures first <= s < first + 4 && Condition(s) == c && ContrastSet(s) == t
  {
    var q, k, r := first / 4, first % 4, 2 * c + t;
    s := if r >= k then 4 * q + r else 4 * (q + 1) + r;
    assert first == 4 * q + k;
    assert s % 4 == r;
    SubjectTypeBits(s);
  }

  /** No two of four consecutive subjects share a pair: each pair occurs exactly once. */
  lemma CounterbalancedOnce(first: nat)
    ensures forall s, s' :: first <= s < s' < first + 4 ==>
              Condition(s) != Condition(s') || ContrastSet(s) != ContrastSet(s')
  {
    forall s, s' | first <= s < s' < first + 4
      ensures Condition(s) != Condition(s') || ContrastSet(s) != ContrastSet(s')
    {
      SubjectTypeBits(s);
      SubjectTypeBits(s');
      assert s % 4 != s' % 4 by {
        assert 0 < s' - s < 4;
      }
    }
  }

  // ---------------------------------------------------------------------
  // CSV rows

  const ConditionNames: seq<string> := ["no_label", "label"]

  function ConditionName(subject: nat): (name: string)
    ensures name == "label" <==> subject % 4 >= 2
  {
    SubjectTypeBits(subject);
    ConditionNames[Condition(subject)]
  }

  const ContrastColumns: seq<string> := ["subject", "condition", "contrast_type", "feature", "looking_time"]

  /** The header line of the contrast table. */
  const ContrastHeader: string := Join(ContrastColumns, ',')

  /** The row order of a subject's contrast results: Head/Old, Head/New, Tail/Old, Tail/New. */
  const TrialKeys: seq<(string, string)> := [("Head", "Old"), ("Head", "New"), ("Tail", "Old"), ("Tail", "New")]

  function TimeAt(lt: LookingTimes, k: nat): nat
    requires k < 4
  {
    match k
    case 0 => lt.headOld
    case 1 => lt.headNew
    case 2 => lt.tailOld
    case _ => lt.tailNew
  }

  /** A condition name holds no comma and no line break. */
  lemma ConditionNamePlain(subject: nat)
    ensures ',' !in ConditionName(subject) && '\n' !in ConditionName(subject)
  {
    SubjectTypeBits(subject);
    assert ConditionName(subject) in ConditionNames;
  }

  /** No field holds a comma or a line break. */
  predicate Plain(fields: seq<string>) {
    forall k :: 0 <= k < |fields| ==> ',' !in fields[k] && '\n' !in fields[k]
  }

  lemma NatToStringPlain(n: nat)
    ensures ',' !in NatToString(n) && '\n' !in NatToString(n)
  {
    var s := NatToString(n);
    assert forall k :: 0 <= k < |s| ==> IsDigit(s[k]);
  }

  /** The five fields of row k of a subject's contrast results. */
  function ContrastFields(subject: nat, lt: LookingTimes, k: nat): (fields: seq<string>)
    requires k < 4
    ensures |fields| == 5 && Plain(fields)
  {
    NatToStringPlain(subject);
    NatToStringPlain(TimeAt(lt, k));
    SubjectTypeBits(subject);
    [NatToString(subject), ConditionName(subject), TrialKeys[k].0, TrialKeys[k].1, NatToString(TimeAt(lt, k))]
  }

  /** A line of CSV is its fields joined by commas; splitting it gives them back. */
  lemma PlainLine(fields: seq<string>)
    requires |fields| >= 1 && Plain(fields)
    ensures '\n' !in Join(fields, ',') && Split(Join(fields, ','), ',') == fields
  {
    JoinAvoids(fields, ',', '\n');
    SplitJoin(fields, ',');
  }

  /** The header lines split back into their column names. */
  lemma ContrastHeaderSplits()
    ensures '\n' !in ContrastHeader && Split(ContrastHeader, ',') == ContrastColumns
  {
    PlainLine(ContrastColumns);
  }

  lemma FamErrorHeaderSplits(layout: ErrorLayout)
    ensures '\n' !in FamErrorHeader(layout) && Split(FamErrorHeader(layout), ',') == ErrorColumns(layout)
  {
    match layout
    case AsWritten =>
      ColumnsPlain(FamErrorColumnsAsWritten);
    case PerGroup =>
      ColumnsPlain(FamErrorColumns);
  }

  /** Column names free of separators split back out of their header line. */
  lemma ColumnsPlain(columns: seq<string>)
    requires columns == FamErrorColumnsAsWritten || columns == FamErrorColumns
    ensures '\n' !in Join(columns, ',') && Split(Join(columns, ','), ',') == columns
  {
    assert Plain(columns);
    PlainLine(columns);
  }

  /** The text of a file of lines: the lines joined by line breaks, plus a final one. */
  lemma FileLines(header: string, body: seq<string>)
    requires '\n' !in header && forall k :: 0 <= k < |body| ==> '\n' !in body[k]
    ensures Split(Join([header] + body, '\n') + "\n", '\n') == [header] + body + [""]
  {
    HeaderAndBody(header, body);
    FileOfLines([header] + body);
  }

  lemma HeaderAndBody(header: string, body: seq<string>)
    requires '\n' !in header && forall k :: 0 <= k < |body| ==> '\n' !in body[k]
    ensures forall k :: 0 <= k < |[header] + body| ==> '\n' !in ([header] + body)[k]
  {
    var lines := [header] + body;
    forall k | 0 <= k < |lines| ensures '\n' !in lines[k] {
      if k > 0 {
        assert lines[k] == body[k - 1];
      }
    }
  }

  lemma FileOfLines(lines: seq<string>)
    requires |lines| >= 1 && forall k :: 0 <= k < |lines| ==> '\n' !in lines[k]
    ensures Split(Join(lines, '\n') + "\n", '\n') == lines + [""]
  {
    JoinSnoc(lines, "", '\n');
    assert Join(lines, '\n') + "\n" == Join(lines, '\n') + ['\n'] + "";
    SplitJoin(lines + [""], '\n');
  }

  /** A subject's four lines of contrast results, in trial order. */
  function SubjectContrastLines(subject: nat, lt: LookingTimes): seq<string> {
    seq(4, k requires 0 <= k < 4 => Join(ContrastFields(subject, lt, k), ','))
  }

  /** The contrast lines of all subjects, in the order of the data. */
  function ContrastLines(data: seq<(nat, LookingTimes)>): (lines: seq<string>)
    ensures |lines| == 4 * |data|
  {
    if |data| == 0 then []
    else ContrastLines(data[..|data| - 1]) + SubjectContrastLines(data[|data| - 1].0, data[|data| - 1].1)
  }

  /** No contrast line holds a line break. */
  lemma {:induction false} ContrastLinesPlain(data: seq<(nat, LookingTimes)>)
    ensures forall i :: 0 <= i < |ContrastLines(data)| ==> '\n' !in ContrastLines(data)[i]
  {
    if |data| > 0 {
      ContrastLinesPlain(data[..|data| - 1]);
      var last := SubjectContrastLines(data[|data| - 1].0, data[|data| - 1].1);
      forall k | 0 <= k < 4 ensures '\n' !in last[k] {
        PlainLine(ContrastFields(data[|data| - 1].0, data[|data| - 1].1, k));
      }
    }
  }

  lemma ContrastLinesSnoc(data: seq<(nat, LookingTimes)>, s: nat)
    requires s < |data|
    ensures ContrastLines(data[..s + 1]) == ContrastLines(data[..s]) + SubjectContrastLines(data[s].0, data[s].1)
  {
    assert data[..s + 1][..s] == data[..s];
  }

  /** Line 4s + k of the contrast lines is trial k of subject s; no line holds a line break. */
  lemma {:induction false} ContrastLinesAt(data: seq<(nat, LookingTimes)>, s: nat, k: nat)
    requires s < |data| && k < 4
    ensures '\n' !in ContrastLines(data)[4 * s + k]
    ensures Split(ContrastLines(data)[4 * s + k], ',') == ContrastFields(data[s].0, data[s].1, k)
  {
    var init := data[..|data| - 1];
    if s < |data| - 1 {
      ContrastLinesAt(init, s, k);
      assert ContrastLines(data)[4 * s + k] == ContrastLines(init)[4 * s + k];
    } else {
      PlainLine(ContrastFields(data[s].0, data[s].1, k));
    }
  }

  /**
   * `output_contrast_data` without the file write: the header line, then
   * four lines per subject in the order of the data (see ContrastLinesAt
   * for their fields), then an empty last piece after the final line break.
   */
  method OutputContrastData(data: seq<(nat, LookingTimes)>) returns (text: string)
    ensures Split(text, '\n') == [ContrastHeader] + ContrastLines(data) + [""]
    ensures Split(Split(text, '\n')[0], ',') == ContrastColumns
  {
    var header := ContrastHeader;
    var rows := [header];
    for s := 0 to |data|
      invariant rows == [header] + ContrastLines(data[..s])
    {
      var subject, lt := data[s].0, data[s].1;
      ghost var prefix, mine := rows, SubjectContrastLines(subject, lt);
      for ct := 0 to 2
        invariant rows == prefix + mine[..2 * ct]
      {
        for ft := 0 to 2
          invariant rows == prefix + mine[..2 * ct + ft]
        {
          var k := 2 * ct + ft;
          PrefixSnoc(mine, k);
          AppendAssoc(prefix, mine[..k], [mine[k]]);
          rows := rows + [Join(ContrastFields(subject, lt, k), ',')];
        }
      }
      assert mine[..4] == mine;
      ContrastLinesSnoc(data, s);
      AppendAssoc([header], ContrastLines(data[..s]), mine);
    }
    assert data[..|data|] == data;
    text := Join(rows, '\n') + "\n";
    ContrastLinesPlain(data);
    ContrastHeaderSplits();
    FileLines(header, ContrastLines(data));
  }

  /** `str` of a list of three floats: "[a, b, c]", floats written by `repr`. */
  function ErrorListRepr(e: BlockErrors, repr: real -> string): string {
    "[" + repr(e.labelError) + ", " + repr(e.salientError) + ", " + repr(e.otherError) + "]"
  }

  /** A float repr never holds a comma or a line break. */
  ghost predicate ReprPlain(repr: real -> string) {
    forall x :: ',' !in repr(x) && '\n' !in repr(x)
  }

  /** The header as written: four columns, the three errors meant to share one. */
  const FamErrorColumnsAsWritten: seq<string> := ["subject", "condition", "block", "error"]

  /** A row as written: subject, condition, block and `str` of the error list. */
  function FamErrorRowAsWritten(subject: nat, block: nat, e: BlockErrors, repr: real -> string): string {
    Join([NatToString(subject), ConditionName(subject), NatToString(block), ErrorListRepr(e, repr)], ',')
  }

  /**
   * As written, `str` of the error list puts two more commas in the row:
   * it splits into six fields under a four-column header.
   */
  lemma FamErrorRowFields(subject: nat, block: nat, e: BlockErrors, repr: real -> string)
    requires ReprPlain(repr)
    ensures '\n' !in FamErrorRowAsWritten(subject, block, e, repr)
    ensures Split(FamErrorRowAsWritten(subject, block, e, repr), ',')
            == [NatToString(subject), ConditionName(subject), NatToString(block),
                "[" + repr(e.labelError), " " + repr(e.salientError), " " + repr(e.otherError) + "]"]
    ensures |Split(FamErrorRowAsWritten(subject, block, e, repr), ',')| == 6 != |FamErrorColumnsAsWritten|
  {
    var head := [NatToString(subject), ConditionName(subject), NatToString(block)];
    var all := head + ErrorListPieces(e, repr);
    FamErrorRowJoin(subject, block, e, repr);
    assert Plain(all) by {
      NatToStringPlain(subject);
      NatToStringPlain(block);
      ConditionNamePlain(subject);
    }
    PlainLine(all);
  }

  /** The corrected header: one column per error group. */
  const FamErrorColumns: seq<string> :=
    ["subject", "condition", "block", "label_error", "salient_error", "non_salient_error"]

  /**
   * A row of the error table: subject, condition, block and each of the
   * three mean errors in a field of its own, one field per column.
   */
  function FamErrorRow(subject: nat, block: nat, e: BlockErrors, repr: real -> string): (row: string)
    requires ReprPlain(repr)
    ensures '\n' !in row
    ensures Split(row, ',') == [NatToString(subject), ConditionName(subject), NatToString(block),
                                repr(e.labelError), repr(e.salientError), repr(e.otherError)]
    ensures |Split(row, ',')| == |FamErrorColumns|
  {
    var fields := [NatToString(subject), ConditionName(subject), NatToString(block),
                   repr(e.labelError), repr(e.salientError), repr(e.otherError)];
    NatToStringPlain(subject);
    NatToStringPlain(block);
    ConditionNamePlain(subject);
    PlainLine(fields);
    Join(fields, ',')
  }

  /**
   * The two layouts of the error table: the one written (an `error`
   * column holding `str` of the three errors) and the corrected one.
   */
  datatype ErrorLayout = AsWritten | PerGroup

  function ErrorColumns(layout: ErrorLayout): seq<string> {
    match layout
    case AsWritten => FamErrorColumnsAsWritten
    case PerGroup => FamErrorColumns
  }

  /** The header line of the error table. */
  function FamErrorHeader(layout: ErrorLayout): string {
    Join(ErrorColumns(layout), ',')
  }

  /**
   * A row in either layout. It never holds a line break, and it has as
   * many fields as the header has columns only in the corrected layout.
   */
  function ErrorRow(layout: ErrorLayout, subject: nat, block: nat, e: BlockErrors, repr: real -> string): (row: string)
    requires ReprPlain(repr)
    ensures '\n' !in row
    ensures |Split(row, ',')| == |ErrorColumns(layout)| <==> layout == PerGroup
  {
    match layout
    case AsWritten =>
      FamErrorRowFields(subject, block, e, repr);
      FamErrorRowAsWritten(subject, block, e, repr)
    case PerGroup =>
      FamErrorRow(subject, block, e, repr)
  }

  /** The error table's rows: one per (subject, block), subjects and blocks in the order of the data. */
  function FamErrorRows(data: seq<(nat, seq<(nat, BlockErrors)>)>, repr: real -> string, layout: ErrorLayout)
    : (rows: seq<string>)
    requires ReprPlain(repr)
  {
    if |data| == 0 then []
    else FamErrorRows(data[..|data| - 1], repr, layout) + SubjectErrorRows(data[|data| - 1].0, data[|data| - 1].1, repr, layout)
  }

  function SubjectErrorRows(subject: nat, blocks: seq<(nat, BlockErrors)>, repr: real -> string, layout: ErrorLayout)
    : (rows: seq<string>)
    requires ReprPlain(repr)
    ensures |rows| == |blocks|
    ensures forall b :: 0 <= b < |blocks| ==> rows[b] == ErrorRow(layout, subject, blocks[b].0, blocks[b].1, repr)
  {
    seq(|blocks|, b requires 0 <= b < |blocks| => ErrorRow(layout, subject, blocks[b].0, blocks[b].1, repr))
  }

  function TotalBlocks(data: seq<(nat, seq<(nat, BlockErrors)>)>): nat {
    if |data| == 0 then 0 else TotalBlocks(data[..|data| - 1]) + |data[|data| - 1].1|
  }

  /** Exactly one row per (subject, block), and no row holds a line break. */
  lemma {:induction false} FamErrorRowsCount(data: seq<(nat, seq<(nat, BlockErrors)>)>, repr: real -> string,
                                             layout: ErrorLayout)
    requires ReprPlain(repr)
    ensures |FamErrorRows(data, repr, layout)| == TotalBlocks(data)
    ensures forall k :: 0 <= k < |FamErrorRows(data, repr, layout)| ==> '\n' !in FamErrorRows(data, repr, layout)[k]
  {
    if |data| > 0 {
      FamErrorRowsCount(data[..|data| - 1], repr, layout);
    }
  }

  /** The pieces of `str` of the error list between its commas. */
  function ErrorListPieces(e: BlockErrors, repr: real -> string): seq<string> {
    ["[" + repr(e.labelError), " " + repr(e.salientError), " " + repr(e.otherError) + "]"]
  }

  /** The error list's text is its pieces joined by commas. */
  lemma ErrorListJoin(e: BlockErrors, repr: real -> string)
    ensures ErrorListRepr(e, repr) == Join(ErrorListPieces(e, repr), ',')
  {
    var fields := ErrorListPieces(e, repr);
    assert Join(fields[1..], ',') == fields[1] + [','] + fields[2] by {
      assert fields[1..][1..] == [fields[2]];
    }
    assert ", " == [','] + " ";
  }

  /** A row as written is its first three fields and the error list's pieces, joined by commas. */
  lemma FamErrorRowJoin(subject: nat, block: nat, e: BlockErrors, repr: real -> string)
    ensures FamErrorRowAsWritten(subject, block, e, repr)
            == Join([NatToString(subject), ConditionName(subject), NatToString(block)] + ErrorListPieces(e, repr), ',')
  {
    var head := [NatToString(subject), ConditionName(subject), NatToString(block)];
    ErrorListJoin(e, repr);
    JoinConcat(head, ErrorListPieces(e, repr), ',');
    JoinSnoc(head, ErrorListRepr(e, repr), ',');
    assert head + [ErrorListRepr(e, repr)]
        == [NatToString(subject), ConditionName(subject), NatToString(block), ErrorListRepr(e, repr)];
  }

  lemma {:induction false} JoinConcat(xs: seq<string>, ys: seq<string>, sep: char)
    requires |xs| >= 1 && |ys| >= 1
    ensures Join(xs + ys, sep) == Join(xs, sep) + [sep] + Join(ys, sep)
  {
    if |xs| == 1 {
      assert (xs + ys)[1..] == ys;
    } else {
      assert (xs + ys)[1..] == xs[1..] + ys;
      JoinConcat(xs[1..], ys, sep);
    }
  }

  /**
   * The error half of `output_fam_data`, without the file write, in
   * either layout: the header line, then the rows of `FamErrorRows`, then
   * an empty last piece after the final line break.
   */
  method OutputFamErrors(data: seq<(nat, seq<(nat, BlockErrors)>)>, repr: real -> string, layout: ErrorLayout)
    returns (text: string)
    requires ReprPlain(repr)
    ensures Split(text, '\n') == [FamErrorHeader(layout)] + FamErrorRows(data, repr, layout) + [""]
    ensures |Split(text, '\n')| == 2 + TotalBlocks(data)
    ensures Split(Split(text, '\n')[0], ',') == ErrorColumns(layout)
  {
    var header := FamErrorHeader(layout);
    var rows := [header];
    for s := 0 to |data|
      invariant rows == [header] + FamErrorRows(data[..s], repr, layout)
    {
      var subject, blocks := data[s].0, data[s].1;
      ghost var prefix := rows;
      for b := 0 to |blocks|
        invariant rows == prefix + SubjectErrorRows(subject, blocks[..b], repr, layout)
      {
        SubjectErrorRowsSnoc(subject, blocks, b, repr, layout);
        AppendAssoc(prefix, SubjectErrorRows(subject, blocks[..b], repr, layout),
                    [ErrorRow(layout, subject, blocks[b].0, blocks[b].1, repr)]);
        rows := rows + [ErrorRow(layout, subject, blocks[b].0, blocks[b].1, repr)];
      }
      assert blocks[..|blocks|] == blocks;
      FamErrorRowsSnoc(data, s, repr, layout);
      AppendAssoc([header], FamErrorRows(data[..s], repr, layout), SubjectErrorRows(subject, blocks, repr, layout));
    }
    assert data[..|data|] == data;
    text := Join(rows, '\n') + "\n";
    ErrorFileSplits(data, repr, layout);
  }

  /** The error file's text splits into its header, its rows and an empty last piece. */
  lemma ErrorFileSplits(data: seq<(nat, seq<(nat, BlockErrors)>)>, repr: real -> string, layout: ErrorLayout)
    requires ReprPlain(repr)
    ensures var lines := Split(Join([FamErrorHeader(layout)] + FamErrorRows(data, repr, layout), '\n') + "\n", '\n');
      && lines == [FamErrorHeader(layout)] + FamErrorRows(data, repr, layout) + [""]
      && |lines| == 2 + TotalBlocks(data)
      && Split(lines[0], ',') == ErrorColumns(layout)
  {
    FamErrorRowsCount(data, repr, layout);
    FamErrorHeaderSplits(layout);
    FileLines(FamErrorHeader(layout), FamErrorRows(data, repr, layout));
  }

  lemma SubjectErrorRowsSnoc(subject: nat, blocks: seq<(nat, BlockErrors)>, b: nat, repr: real -> string,
                             layout: ErrorLayout)
    requires ReprPlain(repr) && b < |blocks|
    ensures SubjectErrorRows(subject, blocks[..b + 1], repr, layout)
            == SubjectErrorRows(subject, blocks[..b], repr, layout) + [ErrorRow(layout, subject, blocks[b].0, blocks[b].1, repr)]
  {
  }

  lemma FamErrorRowsSnoc(data: seq<(nat, seq<(nat, BlockErrors)>)>, s: nat, repr: real -> string, layout: ErrorLayout)
    requires ReprPlain(repr) && s < |data|
    ensures FamErrorRows(data[..s + 1], repr, layout)
            == FamErrorRows(data[..s], repr, layout) + SubjectErrorRows(data[s].0, data[s].1, repr, layout)
  {
    assert data[..s + 1][..s] == data[..s];
  }
}
