/**
 * The two trial schedulers a simulated subject runs: the familiarisation
 * training and the contrast test. The subject's network is seen only
 * through what the schedulers read from it after each `run` call: the
 * error row, the hidden layer and the Euclidean norm. Since the network
 * is deterministic once its initial weights are fixed, those readings
 * are functions of the run history, the stimuli presented so far.
 */
module Subjects {
  import opened LinAlg
  import opened Text

  /** What the schedulers read from the network after a run history. */
  datatype NetView = NetView(
    error: seq<Row> -> Row,   // `net.error` after the last run of the history
    hidden: seq<Row> -> Row,  // `net.neurons[1]` after the last run of the history
    norm: Row -> real)        // `np.linalg.norm`

  /** The four contrast stimuli: head or tail feature, old or new exemplar. */
  datatype ContrastStims = ContrastStims(headOld: Row, headNew: Row, tailOld: Row, tailNew: Row)

  /** The four looking times of a contrast test, keyed like the stimuli. */
  datatype LookingTimes = LookingTimes(headOld: nat, headNew: nat, tailOld: nat, tailNew: nat)

  /** The mean error norms of a recorded block, per group of output units. */
  datatype BlockErrors = BlockErrors(labelError: real, salientError: real, otherError: real)

  function Repeat(x: Row, n: nat): (r: seq<Row>)
    ensures |r| == n && forall k {:trigger r[k]} :: 0 <= k < n ==> r[k] == x
  {
    seq(n, _ => x)
  }

  lemma RepeatSucc(x: Row, n: nat)
    ensures Repeat(x, n + 1) == [x] + Repeat(x, n) == Repeat(x, n) + [x]
  {
  }

  // ---------------------------------------------------------------------
  // Contrast test

  /**
   * The number of `run` calls a trial makes when it may still make
   * `budget` of them: it stops after the first call whose error norm is
   * at most the threshold.
   */
  function TrialCalls(net: NetView, h: seq<Row>, stim: Row, budget: nat, threshold: real): (n: nat)
    ensures n <= budget
    ensures budget > 0 ==> n >= 1
    decreases budget
  {
    if budget == 0 then 0
    else if net.norm(net.error(h + [stim])) <= threshold then 1
    else 1 + TrialCalls(net, h + [stim], stim, budget - 1, threshold)
  }

  /**
   * The looking time of one trial started after history h. The loop's
   * error starts at 1, so a threshold of 1 or more makes no call at all.
   */
  function LookingTime(net: NetView, h: seq<Row>, stim: Row, presTime: nat, threshold: real): nat
  {
    if 1.0 > threshold then TrialCalls(net, h, stim, presTime, threshold) else 0
  }

  /**
   * A trial's calls are a prefix of presentations of the same stimulus:
   * every call but the last has an error norm above the threshold, and a
   * trial ends before the presentation time only on a call at or below it.
   */
  lemma {:induction false} TrialCallsStop(net: NetView, h: seq<Row>, stim: Row, budget: nat, threshold: real)
    decreases budget
    ensures var n := TrialCalls(net, h, stim, budget, threshold);
      && (forall j :: 1 <= j < n ==> net.norm(net.error(h + Repeat(stim, j))) > threshold)
      && (0 < n < budget ==> net.norm(net.error(h + Repeat(stim, n))) <= threshold)
  {
    if budget > 0 {
      var h' := h + [stim];
      assert Repeat(stim, 0) == [] && Repeat(stim, 1) == [stim];
      assert h + Repeat(stim, 1) == h' == h' + Repeat(stim, 0);
      if net.norm(net.error(h')) > threshold {
        var n' := TrialCalls(net, h', stim, budget - 1, threshold);
        TrialCallsStop(net, h', stim, budget - 1, threshold);
        forall j | 1 <= j <= n' + 1
          ensures h + Repeat(stim, j) == h' + Repeat(stim, j - 1)
        {
          RepeatSucc(stim, j - 1);
        }
        forall j | 1 <= j < n' + 1
          ensures net.norm(net.error(h + Repeat(stim, j))) > threshold
        {
          if j > 1 {
            assert net.norm(net.error(h' + Repeat(stim, j - 1))) > threshold;
          }
        }
        if 0 < n' + 1 < budget {
          assert net.norm(net.error(h' + Repeat(stim, n'))) <= threshold;
        }
      }
    }
  }

  /**
   * The looking time lies in [0, presTime]; it is 0 exactly when there is
   * no time or the threshold is at least the starting error 1; every call
   * but the last is above the threshold, and a look shorter than the
   * presentation time ended on a call at or below it.
   */
  lemma LookingTimeSpec(net: NetView, h: seq<Row>, stim: Row, presTime: nat, threshold: real)
    ensures var t := LookingTime(net, h, stim, presTime, threshold);
      && t <= presTime
      && (t == 0 <==> presTime == 0 || threshold >= 1.0)
      && (forall j :: 1 <= j < t ==> net.norm(net.error(h + Repeat(stim, j))) > threshold)
      && (0 < t < presTime ==> net.norm(net.error(h + Repeat(stim, t))) <= threshold)
  {
    if 1.0 > threshold {
      TrialCallsStop(net, h, stim, presTime, threshold);
    }
  }

  // ---------------------------------------------------------------------
  // Familiarisation training

  /** Python's `step` test for recording a training block. */
  predicate Recorded(step: nat, nSteps: nat, recEpoch: nat)
    requires recEpoch > 0
  {
    (1 + step) % recEpoch == 0 || step == nSteps - 1 || step == 0
  }

  /** The recorded steps among the first k of nSteps, in order. */
  function RecordedSteps(k: nat, nSteps: nat, recEpoch: nat): (r: seq<nat>)
    requires recEpoch > 0
    ensures |r| <= k
    ensures forall j {:trigger r[j]} :: 0 <= j < |r| ==> r[j] < k
  {
    if k == 0 then []
    else RecordedSteps(k - 1, nSteps, recEpoch) + (if Recorded(k - 1, nSteps, recEpoch) then [k - 1] else [])
  }

  /** A step is recorded iff the test holds for it; the record lists them in increasing order. */
  lemma {:induction false} RecordedStepsSpec(k: nat, nSteps: nat, recEpoch: nat)
    requires recEpoch > 0
    ensures var r := RecordedSteps(k, nSteps, recEpoch);
      && (forall s: nat :: s in r <==> s < k && Recorded(s, nSteps, recEpoch))
      && (forall i, j :: 0 <= i < j < |r| ==> r[i] < r[j])
  {
    if k > 0 {
      RecordedStepsSpec(k - 1, nSteps, recEpoch);
    }
  }

  /** With a recording epoch of 1 every step is recorded. */
  lemma {:induction false} EveryStepRecorded(k: nat, nSteps: nat)
    ensures RecordedSteps(k, nSteps, 1) == seq(k, s => s)
  {
    if k > 0 {
      EveryStepRecorded(k - 1, nSteps);
    }
  }

  /** A shuffled `np.arange(n)`: every index below n exactly once. */
  predicate IsPermutation(p: seq<nat>, n: nat) {
    && |p| == n
    && (forall k :: 0 <= k < n ==> p[k] < n)
    && (forall a, b :: 0 <= a < b < n ==> p[a] != p[b])
    && (forall i :: 0 <= i < n ==> i in p)
  }

  /** Two categories of at least n stimuli each, and n indices below n per category. */
  predicate Fits(stims: seq<seq<Row>>, perms: seq<seq<nat>>, n: nat) {
    && |stims| == 2 && |perms| == 2 && |stims[0]| >= n && |stims[1]| >= n
    && |perms[0]| == n && |perms[1]| == n
    && forall c, k :: 0 <= c < 2 && 0 <= k < n ==> perms[c][k] < n
  }

  /** As `Fits`, with n stimuli in category 0 and each index list a permutation. */
  predicate Shaped(stims: seq<seq<Row>>, perms: seq<seq<nat>>, n: nat) {
    Fits(stims, perms, n) && |stims[0]| == n && IsPermutation(perms[0], n) && IsPermutation(perms[1], n)
  }

  /** The presentation order of one training block: per stim index, category 0 then 1. */
  function Block(stims: seq<seq<Row>>, perms: seq<seq<nat>>, n: nat): (b: seq<Row>)
    requires Fits(stims, perms, n)
    ensures |b| == 2 * n
  {
    seq(2 * n, m requires 0 <= m < 2 * n => stims[m % 2][perms[m % 2][m / 2]])
  }

  /** The key `str(cat) + str(idx)` under which call m of a block stores its hidden layer. */
  function StimTypes(perms: seq<seq<nat>>, n: nat): (keys: seq<string>)
    requires |perms| == 2 && |perms[0]| == n && |perms[1]| == n
    ensures |keys| == 2 * n
  {
    seq(2 * n, m requires 0 <= m < 2 * n => NatToString(m % 2) + NatToString(perms[m % 2][m / 2]))
  }

  /** All training calls of nSteps blocks. */
  function Schedule(block: seq<Row>, nSteps: nat): (s: seq<Row>)
    ensures |s| == nSteps * |block|
  {
    if nSteps == 0 then [] else Schedule(block, nSteps - 1) + block
  }

  /** A Python slice of the error row: `[lo:hi]` or `[lo:]`. */
  datatype Span = Span(lo: nat, hi: nat) | From(lo: nat)

  /** Python's clamped slice of e. */
  function Slice(e: Row, span: Span): Row {
    var l := if span.lo < |e| then span.lo else |e|;
    var u := if span.From? || span.hi >= |e| then |e| else span.hi;
    if l <= u then e[l..u] else []
  }

  /** The norms of a slice of the error after each call of `calls`, made after history h. */
  function Norms(net: NetView, h: seq<Row>, calls: seq<Row>, span: Span): (r: seq<real>)
    ensures |r| == |calls|
  {
    if |calls| == 0 then []
    else Norms(net, h, calls[..|calls| - 1], span) + [net.norm(Slice(net.error(h + calls), span))]
  }

  /** The hidden layer after each call of `calls`, stored under that call's key. */
  function HiddenReps(net: NetView, h: seq<Row>, calls: seq<Row>, keys: seq<string>): map<string, Row>
    requires |calls| <= |keys|
  {
    if |calls| == 0 then map[]
    else HiddenReps(net, h, calls[..|calls| - 1], keys)[keys[|calls| - 1] := net.hidden(h + calls)]
  }

  /** What a recorded block collects: `block_h_reps` and the three error lists. */
  datatype Gathered = Gathered(reps: map<string, Row>, labelErrs: seq<real>, salientErrs: seq<real>, otherErrs: seq<real>)

  /** What a block of calls made after history h collects when it is recorded, and when it is not. */
  function Gather(rec: bool, net: NetView, h: seq<Row>, calls: seq<Row>, keys: seq<string>, iLabel: nat, iSalient: nat): Gathered
    requires |calls| <= |keys|
  {
    if rec then
      Gathered(HiddenReps(net, h, calls, keys), Norms(net, h, calls, Span(0, iLabel)),
               Norms(net, h, calls, Span(iLabel, iSalient)), Norms(net, h, calls, From(iSalient)))
    else Gathered(map[], [], [], [])
  }

  /** One more call adds its hidden layer under its key and one norm to each error list. */
  lemma GatherSnoc(rec: bool, net: NetView, h: seq<Row>, calls: seq<Row>, x: Row, keys: seq<string>, iLabel: nat, iSalient: nat)
    requires |calls| < |keys|
    ensures var g := Gather(rec, net, h, calls, keys, iLabel, iSalient);
      var h' := h + calls + [x];
      var e := net.error(h');
      Gather(rec, net, h, calls + [x], keys, iLabel, iSalient)
      == if rec then Gathered(g.reps[keys[|calls|] := net.hidden(h')],
                              g.labelErrs + [net.norm(Slice(e, Span(0, iLabel)))],
                              g.salientErrs + [net.norm(Slice(e, Span(iLabel, iSalient)))],
                              g.otherErrs + [net.norm(Slice(e, From(iSalient)))])
         else g
  {
    assert (calls + [x])[..|calls|] == calls;
    assert h + (calls + [x]) == h + calls + [x];
  }

  function Sum(xs: seq<real>): real {
    if |xs| == 0 then 0.0 else Sum(xs[..|xs| - 1]) + xs[|xs| - 1]
  }

  /** `np.mean` of a non-empty list. */
  function Mean(xs: seq<real>): real
    requires |xs| > 0
  {
    Sum(xs) / |xs| as real
  }

  /** The error record of a block of calls made after history h. */
  function BlockErrorsAfter(net: NetView, h: seq<Row>, block: seq<Row>, iLabel: nat, iSalient: nat): BlockErrors
    requires |block| > 0
  {
    BlockErrors(
      Mean(Norms(net, h, block, Span(0, iLabel))),
      Mean(Norms(net, h, block, Span(iLabel, iSalient))),
      Mean(Norms(net, h, block, From(iSalient))))
  }

  /** The error records of the first k of nSteps steps, keyed 1 + step. */
  function ErrorRecords(net: NetView, h: seq<Row>, block: seq<Row>, k: nat, nSteps: nat, recEpoch: nat,
                        iLabel: nat, iSalient: nat): seq<(nat, BlockErrors)>
    requires recEpoch > 0 && |block| > 0
  {
    if k == 0 then []
    else
      ErrorRecords(net, h, block, k - 1, nSteps, recEpoch, iLabel, iSalient)
      + (if Recorded(k - 1, nSteps, recEpoch)
         then [(k, BlockErrorsAfter(net, h + Schedule(block, k - 1), block, iLabel, iSalient))]
         else [])
  }

  /** The hidden-layer records of the first k of nSteps steps, keyed 1 + step. */
  function RepRecords(net: NetView, h: seq<Row>, block: seq<Row>, keys: seq<string>, k: nat, nSteps: nat,
                      recEpoch: nat): seq<(nat, map<string, Row>)>
    requires recEpoch > 0 && |block| <= |keys|
  {
    if k == 0 then []
    else
      RepRecords(net, h, block, keys, k - 1, nSteps, recEpoch)
      + (if Recorded(k - 1, nSteps, recEpoch)
         then [(k, HiddenReps(net, h + Schedule(block, k - 1), block, keys))]
         else [])
  }

  /** The records of one more step are those of the earlier steps plus what that step gathered, when it is recorded. */
  lemma RecordsStep(net: NetView, h: seq<Row>, block: seq<Row>, keys: seq<string>, step: nat, nSteps: nat,
                    recEpoch: nat, iLabel: nat, iSalient: nat, g: Gathered)
    requires recEpoch > 0 && 0 < |block| <= |keys|
    requires g == Gather(Recorded(step, nSteps, recEpoch), net, h + Schedule(block, step), block, keys, iLabel, iSalient)
    ensures h + Schedule(block, step + 1) == h + Schedule(block, step) + block
    ensures Recorded(step, nSteps, recEpoch) ==> |g.labelErrs| == |g.salientErrs| == |g.otherErrs| == |block|
    ensures var rec := Recorded(step, nSteps, recEpoch);
      && ErrorRecords(net, h, block, step + 1, nSteps, recEpoch, iLabel, iSalient)
         == ErrorRecords(net, h, block, step, nSteps, recEpoch, iLabel, iSalient)
            + (if rec then [(1 + step, BlockErrors(Mean(g.labelErrs), Mean(g.salientErrs), Mean(g.otherErrs)))] else [])
      && RepRecords(net, h, block, keys, step + 1, nSteps, recEpoch)
         == RepRecords(net, h, block, keys, step, nSteps, recEpoch) + (if rec then [(1 + step, g.reps)] else [])
  {
    AppendAssoc(h, Schedule(block, step), block);
  }

  /**
   * Record j belongs to the j-th recorded step s: it is keyed 1 + s and
   * holds the errors of the block presented after s earlier blocks.
   */
  lemma {:induction false} ErrorRecordsAt(net: NetView, h: seq<Row>, block: seq<Row>, k: nat, nSteps: nat,
                                          recEpoch: nat, iLabel: nat, iSalient: nat)
    requires recEpoch > 0 && |block| > 0
    ensures var r := ErrorRecords(net, h, block, k, nSteps, recEpoch, iLabel, iSalient);
      var steps := RecordedSteps(k, nSteps, recEpoch);
      && |r| == |steps|
      && forall j :: 0 <= j < |r| ==>
           r[j] == (1 + steps[j], BlockErrorsAfter(net, h + Schedule(block, steps[j]), block, iLabel, iSalient))
  {
    if k > 0 {
      ErrorRecordsAt(net, h, block, k - 1, nSteps, recEpoch, iLabel, iSalient);
    }
  }

  /** The same correspondence for the hidden-layer records. */
  lemma {:induction false} RepRecordsAt(net: NetView, h: seq<Row>, block: seq<Row>, keys: seq<string>, k: nat,
                                        nSteps: nat, recEpoch: nat)
    requires recEpoch > 0 && |block| <= |keys|
    ensures var r := RepRecords(net, h, block, keys, k, nSteps, recEpoch);
      var steps := RecordedSteps(k, nSteps, recEpoch);
      && |r| == |steps|
      && forall j :: 0 <= j < |r| ==>
           r[j] == (1 + steps[j], HiddenReps(net, h + Schedule(block, steps[j]), block, keys))
  {
    if k > 0 {
      RepRecordsAt(net, h, block, keys, k - 1, nSteps, recEpoch);
    }
  }

  /** The keys of a block are distinct: a one-digit category, then a distinct index. */
  lemma StimTypesDistinct(perms: seq<seq<nat>>, n: nat, a: nat, b: nat)
    requires |perms| == 2 && IsPermutation(perms[0], n) && IsPermutation(perms[1], n)
    requires a < b < 2 * n
    ensures StimTypes(perms, n)[a] != StimTypes(perms, n)[b]
  {
    var keys := StimTypes(perms, n);
    if keys[a] == keys[b] {
      var ca, cb := NatToString(a % 2), NatToString(b % 2);
      var ia, ib := NatToString(perms[a % 2][a / 2]), NatToString(perms[b % 2][b / 2]);
      assert |ca| == 1 && |cb| == 1;
      assert ca == keys[a][..1] && cb == keys[b][..1];
      NatToStringInjective(a % 2, b % 2);
      assert ia == keys[a][1..] && ib == keys[b][1..];
      NatToStringInjective(perms[a % 2][a / 2], perms[b % 2][b / 2]);
      assert false;
    }
  }

  /** The first len keys, as a set. */
  function KeySet(keys: seq<string>, len: nat): set<string>
    requires len <= |keys|
  {
    set m | 0 <= m < len :: keys[m]
  }

  /** The last write of a key is the only write when keys are distinct. */
  lemma {:induction false} HiddenRepsKeys(net: NetView, h: seq<Row>, calls: seq<Row>, keys: seq<string>)
    requires |calls| <= |keys|
    ensures HiddenReps(net, h, calls, keys).Keys == KeySet(keys, |calls|)
  {
    if |calls| > 0 {
      HiddenRepsKeys(net, h, calls[..|calls| - 1], keys);
    }
  }

  lemma {:induction false} HiddenRepsAt(net: NetView, h: seq<Row>, calls: seq<Row>, keys: seq<string>)
    requires |calls| <= |keys|
    requires forall a, b :: 0 <= a < b < |calls| ==> keys[a] != keys[b]
    ensures forall m :: 0 <= m < |calls| ==>
              keys[m] in HiddenReps(net, h, calls, keys) && HiddenReps(net, h, calls, keys)[keys[m]] == net.hidden(h + calls[..m + 1])
  {
    if |calls| > 0 {
      var n := |calls| - 1;
      var c := calls[..n];
      HiddenRepsAt(net, h, c, keys);
      var before := HiddenReps(net, h, c, keys);
      var after := HiddenReps(net, h, calls, keys);
      forall m | 0 <= m < |calls| ensures keys[m] in after && after[keys[m]] == net.hidden(h + calls[..m + 1]) {
        if m < n {
          assert keys[m] != keys[n];
          assert c[..m + 1] == calls[..m + 1];
        } else {
          assert calls[..m + 1] == calls;
        }
      }
    }
  }

  /** Every key `str(cat) + str(idx)` for both categories and every index below n. */
  function AllStimTypes(n: nat): set<string> {
    set c, i | 0 <= c < 2 && 0 <= i < n :: NatToString(c) + NatToString(i)
  }

  /** The keys of a block are exactly `str(cat) + str(idx)` for both categories and every index. */
  lemma StimTypesCover(perms: seq<seq<nat>>, n: nat)
    requires |perms| == 2 && IsPermutation(perms[0], n) && IsPermutation(perms[1], n)
    ensures KeySet(StimTypes(perms, n), 2 * n) == AllStimTypes(n)
  {
    var keys := StimTypes(perms, n);
    var want := AllStimTypes(n);
    var have := KeySet(keys, 2 * n);
    forall x | x in have ensures x in want {
      var m :| 0 <= m < 2 * n && keys[m] == x;
      StimTypeIn(perms, n, m);
    }
    forall x | x in want ensures x in have {
      var c, i :| 0 <= c < 2 && 0 <= i < n && x == NatToString(c) + NatToString(i);
      var m := StimTypeAt(perms, n, c, i);
    }
  }

  /** Every key of a block is one of the 2n keys. */
  lemma StimTypeIn(perms: seq<seq<nat>>, n: nat, m: nat)
    requires |perms| == 2 && IsPermutation(perms[0], n) && IsPermutation(perms[1], n)
    requires m < 2 * n
    ensures StimTypes(perms, n)[m] in AllStimTypes(n)
  {
    var c, i := m % 2, perms[m % 2][m / 2];
    assert StimTypes(perms, n)[m] == NatToString(c) + NatToString(i);
  }

  /** Each of the 2n keys is the key of some presentation of the block. */
  lemma StimTypeAt(perms: seq<seq<nat>>, n: nat, c: nat, i: nat) returns (m: nat)
    requires |perms| == 2 && IsPermutation(perms[0], n) && IsPermutation(perms[1], n)
    requires c < 2 && i < n
    ensures m < 2 * n && StimTypes(perms, n)[m] == NatToString(c) + NatToString(i)
  {
    assert i in perms[c];
    var k :| 0 <= k < |perms[c]| && perms[c][k] == i;
    m := 2 * k + c;
    assert m % 2 == c && m / 2 == k;
  }

  /**
   * A recorded block holds one hidden layer for each of the 2n keys
   * `str(cat) + str(idx)`, taken right after that stimulus was presented.
   */
  lemma BlockHiddenReps(net: NetView, h: seq<Row>, stims: seq<seq<Row>>, perms: seq<seq<nat>>, n: nat)
    requires Shaped(stims, perms, n)
    ensures var reps := HiddenReps(net, h, Block(stims, perms, n), StimTypes(perms, n));
      && reps.Keys == AllStimTypes(n)
      && |reps.Keys| == 2 * n
      && forall m :: 0 <= m < 2 * n ==>
           reps[StimTypes(perms, n)[m]] == net.hidden(h + Block(stims, perms, n)[..m + 1])
  {
    var block, keys := Block(stims, perms, n), StimTypes(perms, n);
    forall a, b | 0 <= a < b < |block| ensures keys[a] != keys[b] {
      StimTypesDistinct(perms, n, a, b);
    }
    HiddenRepsKeys(net, h, block, keys);
    HiddenRepsAt(net, h, block, keys);
    StimTypesCover(perms, n);
    KeysCard(keys, 2 * n);
  }

  lemma {:induction false} KeysCard(keys: seq<string>, len: nat)
    requires len <= |keys|
    requires forall a, b :: 0 <= a < b < len ==> keys[a] != keys[b]
    ensures |KeySet(keys, len)| == len
  {
    if len > 0 {
      KeysCard(keys, len - 1);
      KeySetSnoc(keys, len - 1);
      assert keys[len - 1] !in KeySet(keys, len - 1) by {
        forall m | 0 <= m < len - 1 ensures keys[m] != keys[len - 1] { }
      }
    }
  }

  lemma KeySetSnoc(keys: seq<string>, len: nat)
    requires len < |keys|
    ensures KeySet(keys, len + 1) == KeySet(keys, len) + {keys[len]}
  {
    forall x | x in KeySet(keys, len + 1) ensures x in KeySet(keys, len) + {keys[len]} {
      var m :| 0 <= m < len + 1 && x == keys[m];
      if m < len { assert x in KeySet(keys, len); }
    }
  }

  /** Presentation k of a block: stim index k / 2, category k % 2. */
  lemma BlockAt(stims: seq<seq<Row>>, perms: seq<seq<nat>>, n: nat, stim: nat, cat: nat)
    requires Fits(stims, perms, n) && stim < n && cat < 2
    ensures var m := 2 * stim + cat;
      && m < 2 * n
      && Block(stims, perms, n)[..m + 1] == Block(stims, perms, n)[..m] + [stims[cat][perms[cat][stim]]]
      && StimTypes(perms, n)[m] == NatToString(cat) + NatToString(perms[cat][stim])
  {
    var m := 2 * stim + cat;
    Halve(stim, cat);
    var block := Block(stims, perms, n);
    assert block[m] == stims[cat][perms[cat][stim]];
    PrefixSnoc(block, m);
  }

  lemma Halve(q: nat, r: nat)
    requires r < 2
    ensures (2 * q + r) / 2 == q && (2 * q + r) % 2 == r
  {
  }

  /** `GatherSnoc` for the call at position m of a block, whose key is keys[m]. */
  lemma GatherAt(rec: bool, net: NetView, h: seq<Row>, block: seq<Row>, keys: seq<string>, m: nat, x: Row, key: string,
                 iLabel: nat, iSalient: nat)
    requires m < |block| <= |keys| && block[..m + 1] == block[..m] + [x] && keys[m] == key
    ensures var g := Gather(rec, net, h, block[..m], keys, iLabel, iSalient);
      var h' := h + block[..m] + [x];
      var e := net.error(h');
      && h + block[..m + 1] == h'
      && Gather(rec, net, h, block[..m + 1], keys, iLabel, iSalient)
         == if rec then Gathered(g.reps[key := net.hidden(h')],
                                 g.labelErrs + [net.norm(Slice(e, Span(0, iLabel)))],
                                 g.salientErrs + [net.norm(Slice(e, Span(iLabel, iSalient)))],
                                 g.otherErrs + [net.norm(Slice(e, From(iSalient)))])
            else g
  {
    GatherSnoc(rec, net, h, block[..m], x, keys, iLabel, iSalient);
    AppendAssoc(h, block[..m], [x]);
  }

  class Subject {
    const net: NetView
    /** The stimuli presented to the network so far, oldest first. */
    var history: seq<Row>

    constructor (net: NetView)
      ensures this.net == net && history == []
    {
      this.net := net;
      history := [];
    }

    /** One `net.run(stimulus)`: the network has now seen the stimulus too. */
    method Run(stimulus: Row)
      modifies this`history
      ensures history == old(history) + [stimulus]
    {
      history := history + [stimulus];
    }

    /** One contrast trial: present the stimulus until the error is small or the time is up. */
    method Trial(stim: Row, presTime: nat, threshold: real) returns (t: nat)
      modifies this`history
      ensures t == LookingTime(net, old(history), stim, presTime, threshold)
      ensures history == old(history) + Repeat(stim, t)
    {
      var timeLeft: nat := presTime;
      var error := 1.0;
      while timeLeft > 0 && error > threshold
        invariant timeLeft <= presTime
        invariant history == old(history) + Repeat(stim, presTime - timeLeft)
        invariant LookingTime(net, old(history), stim, presTime, threshold)
                  == if error > threshold
                     then presTime - timeLeft + TrialCalls(net, history, stim, timeLeft, threshold)
                     else presTime - timeLeft
      {
        Run(stim);
        RepeatSucc(stim, presTime - timeLeft);
        error := net.norm(net.error(history));
        timeLeft := timeLeft - 1;
      }
      t := presTime - timeLeft;
    }

    /**
     * The contrast test: four trials in the order Head/Old, Head/New,
     * Tail/Old, Tail/New, all on the subject's own network, so each trial
     * starts from the history the previous one left.
     */
    method ContrastTest(stims: ContrastStims, presTime: nat, threshold: real) returns (lt: LookingTimes)
      modifies this`history
      ensures var h1 := old(history) + Repeat(stims.headOld, lt.headOld);
        var h2 := h1 + Repeat(stims.headNew, lt.headNew);
        var h3 := h2 + Repeat(stims.tailOld, lt.tailOld);
        && lt.headOld == LookingTime(net, old(history), stims.headOld, presTime, threshold)
        && lt.headNew == LookingTime(net, h1, stims.headNew, presTime, threshold)
        && lt.tailOld == LookingTime(net, h2, stims.tailOld, presTime, threshold)
        && lt.tailNew == LookingTime(net, h3, stims.tailNew, presTime, threshold)
        && history == h3 + Repeat(stims.tailNew, lt.tailNew)
    {
      var headOld := Trial(stims.headOld, presTime, threshold);
      var headNew := Trial(stims.headNew, presTime, threshold);
      var tailOld := Trial(stims.tailOld, presTime, threshold);
      var tailNew := Trial(stims.tailNew, presTime, threshold);
      lt := LookingTimes(headOld, headNew, tailOld, tailNew);
    }

    /**
     * One training step: every stimulus index in shuffled order, category
     * 0 then 1, saving hidden layers and error norms when `rec` holds.
     */
    method PresentBlock(stims: seq<seq<Row>>, perms: seq<seq<nat>>, n: nat, rec: bool, iLabel: nat, iSalient: nat)
      returns (reps: map<string, Row>, labelErrs: seq<real>, salientErrs: seq<real>, otherErrs: seq<real>)
      requires Fits(stims, perms, n)
      modifies this`history
      ensures history == old(history) + Block(stims, perms, n)
      ensures Gathered(reps, labelErrs, salientErrs, otherErrs)
              == Gather(rec, net, old(history), Block(stims, perms, n), StimTypes(perms, n), iLabel, iSalient)
    {
      ghost var block := Block(stims, perms, n);
      ghost var keys := StimTypes(perms, n);
      ghost var h0 := history;
      reps, labelErrs, salientErrs, otherErrs := map[], [], [], [];
      for stim := 0 to n
        invariant history == h0 + block[..2 * stim]
        invariant Gathered(reps, labelErrs, salientErrs, otherErrs)
                  == Gather(rec, net, h0, block[..2 * stim], keys, iLabel, iSalient)
      {
        for cat := 0 to 2
          invariant history == h0 + block[..2 * stim + cat]
          invariant Gathered(reps, labelErrs, salientErrs, otherErrs)
                    == Gather(rec, net, h0, block[..2 * stim + cat], keys, iLabel, iSalient)
        {
          var x := stims[cat][perms[cat][stim]];
          BlockAt(stims, perms, n, stim, cat);
          GatherAt(rec, net, h0, block, keys, 2 * stim + cat, x, NatToString(cat) + NatToString(perms[cat][stim]),
                   iLabel, iSalient);
          Run(x);
          if rec {
            var key := NatToString(cat) + NatToString(perms[cat][stim]);
            var e := net.error(history);
            reps := reps[key := net.hidden(history)];
            labelErrs := labelErrs + [net.norm(Slice(e, Span(0, iLabel)))];
            salientErrs := salientErrs + [net.norm(Slice(e, Span(iLabel, iSalient)))];
            otherErrs := otherErrs + [net.norm(Slice(e, From(iSalient)))];
          }
        }
      }
      assert block[..2 * n] == block;
    }

    /**
     * The familiarisation training: nSteps blocks of the same shuffled
     * order, recording a block's hidden layers and mean error norms,
     * keyed 1 + step, whenever `Recorded` holds of its step.
     */
    method FamTraining(stims: seq<seq<Row>>, nSteps: nat, recEpoch: nat, perms: seq<seq<nat>>,
                       iLabel: nat, iSalient: nat)
      returns (errors: seq<(nat, BlockErrors)>, hReps: seq<(nat, map<string, Row>)>)
      requires |stims| == 2 && |stims[0]| > 0 && Shaped(stims, perms, |stims[0]|)
      requires recEpoch > 0
      modifies this`history
      ensures var block := Block(stims, perms, |stims[0]|);
        && history == old(history) + Schedule(block, nSteps)
        && errors == ErrorRecords(net, old(history), block, nSteps, nSteps, recEpoch, iLabel, iSalient)
        && hReps == RepRecords(net, old(history), block, StimTypes(perms, |stims[0]|), nSteps, nSteps, recEpoch)
    {
      var n := |stims[0]|;
      ghost var block := Block(stims, perms, n);
      ghost var keys := StimTypes(perms, n);
      ghost var h0 := history;
      errors, hReps := [], [];
      for step := 0 to nSteps
        invariant history == h0 + Schedule(block, step)
        invariant errors == ErrorRecords(net, h0, block, step, nSteps, recEpoch, iLabel, iSalient)
        invariant hReps == RepRecords(net, h0, block, keys, step, nSteps, recEpoch)
      {
        var rec := (1 + step) % recEpoch == 0 || step == nSteps - 1 || step == 0;
        var reps, labelErrs, salientErrs, otherErrs := PresentBlock(stims, perms, n, rec, iLabel, iSalient);
        RecordsStep(net, h0, block, keys, step, nSteps, recEpoch, iLabel, iSalient,
                    Gathered(reps, labelErrs, salientErrs, otherErrs));
        if rec {
          hReps := hReps + [(1 + step, reps)];
          errors := errors + [(1 + step, BlockErrors(Mean(labelErrs), Mean(salientErrs), Mean(otherErrs)))];
        }
      }
    }
  }
}
