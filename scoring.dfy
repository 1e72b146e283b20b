/**
 * What iterNextBatch computes from a filled batch: the running maximum of
 * the similarities, the loss, and the gradient calls with their
 * coefficients (src/BatchMaker.cpp, the max tracking and the loss loop).
 */
module Scoring {
  import opened Kernels
  import opened Collaborators

  /** MIN_SIMILARITY: the seed of the running maximum. */
  const MinSimilarity: real := -10.0

  datatype MaxSim = MaxSim(index: int, value: real)

  /**
   * maxSimIndex/maxSimValue after the similarities s were seen in order,
   * from the seed (0, -10), replacing on a strictly greater value.
   */
  function RunningMax(s: seq<real>): MaxSim
  {
    if s == [] then MaxSim(0, MinSimilarity)
    else
      var p := RunningMax(s[..|s| - 1]);
      if s[|s| - 1] > p.value then MaxSim(|s| - 1, s[|s| - 1]) else p
  }

  /**
   * The running maximum is max(-10, max s) and its index is the first
   * position holding it, or 0 when no similarity exceeds -10.
   */
  lemma {:induction false} RunningMaxIsFirstMaximum(s: seq<real>)
    ensures var r := RunningMax(s);
      && 0 <= r.index && (r.index < |s| || r.index == 0)
      && r.value >= MinSimilarity
      && (forall j :: 0 <= j < |s| ==> s[j] <= r.value)
      && (r.value == MinSimilarity ==> r.index == 0)
      && (r.value > MinSimilarity ==>
            r.index < |s| && s[r.index] == r.value && forall j :: 0 <= j < r.index ==> s[j] < r.value)
  {
    if s != [] {
      var init := s[..|s| - 1];
      RunningMaxIsFirstMaximum(init);
      forall j | 0 <= j < |init|
        ensures s[j] == init[j]
      {
      }
    }
  }

  /** The positive is a slot of the batch, or slot 0 of an empty one. */
  lemma RunningMaxIndexInRange(s: seq<real>)
    ensures 0 <= RunningMax(s).index && (RunningMax(s).index < |s| || RunningMax(s).index == 0)
  {
    RunningMaxIsFirstMaximum(s);
  }

  /** One more similarity seen: the maximum moves to it exactly when it is strictly greater. */
  lemma RunningMaxStep(s: seq<real>, x: real)
    ensures RunningMax(s + [x]) ==
      if x > RunningMax(s).value then MaxSim(|s|, x) else RunningMax(s)
  {
    assert (s + [x])[..|s|] == s;
  }

  /** A division by bs - 1 is reached only when bs != 1. */
  predicate NegativesWeighted(bs: int, maxIdx: int, n: int)
  {
    bs == 1 ==> n == 0 || (n == 1 && maxIdx == 0)
  }

  /** The loss term of element i at distance d: the positive at direction -1, a negative at +1 and divided by bs - 1. */
  function Term(m: Numerics, bs: int, maxIdx: int, i: int, d: real): real
    requires i != maxIdx ==> bs != 1
  {
    var direction := if i == maxIdx then -1.0 else 1.0;
    var subloss := LogExp(m, direction * d);
    if direction == -1.0 then subloss else subloss / (bs - 1) as real
  }

  /** batch->loss after the loss loop has seen the first n distances of d, starting from 0. */
  function BatchLoss(m: Numerics, bs: int, maxIdx: int, d: seq<real>, n: nat): real
    requires n <= |d| && NegativesWeighted(bs, maxIdx, n)
  {
    if n == 0 then 0.0
    else BatchLoss(m, bs, maxIdx, d, n - 1) + Term(m, bs, maxIdx, n - 1, d[n - 1])
  }

  /** The sum of logexp(d[i]) over the negatives among the first n elements. */
  function NegativeLossSum(m: Numerics, maxIdx: int, d: seq<real>, n: nat): real
    requires n <= |d|
  {
    if n == 0 then 0.0
    else NegativeLossSum(m, maxIdx, d, n - 1) + (if n - 1 == maxIdx then 0.0 else LogExp(m, d[n - 1]))
  }

  /** The loss term of the positive: logexp at direction -1, not divided. */
  lemma PositiveTerm(m: Numerics, bs: int, i: int, d: real)
    ensures Term(m, bs, i, i, d) == LogExp(m, -d)
  {
    assert -1.0 * d == -d;
  }

  /** The loss term of a negative: logexp at direction +1, divided by bs - 1. */
  lemma NegativeTerm(m: Numerics, bs: int, maxIdx: int, i: int, d: real)
    requires i != maxIdx && bs != 1
    ensures Term(m, bs, maxIdx, i, d) == LogExp(m, d) / (bs - 1) as real
  {
    assert 1.0 * d == d;
  }

  lemma DivideSum(a: real, b: real, k: real)
    requires k != 0.0
    ensures a / k + b / k == (a + b) / k
  {
  }

  /**
   * Negative-sampling normalisation: the loss is the positive's
   * logexp(-d) plus the negatives' logexp(d) summed and divided by bs - 1.
   */
  lemma {:induction false} LossSplitsIntoPositiveAndNegatives(m: Numerics, bs: int, maxIdx: int, d: seq<real>, n: nat)
    requires bs >= 2 && 0 <= maxIdx && n <= |d|
    ensures BatchLoss(m, bs, maxIdx, d, n) ==
      (if maxIdx < n then LogExp(m, -d[maxIdx]) else 0.0) + NegativeLossSum(m, maxIdx, d, n) / (bs - 1) as real
  {
    if n > 0 {
      var last := n - 1;
      var x := d[last];
      var k := (bs - 1) as real;
      LossSplitsIntoPositiveAndNegatives(m, bs, maxIdx, d, last);
      var neg := NegativeLossSum(m, maxIdx, d, last);
      var pos := if maxIdx < last then LogExp(m, -d[maxIdx]) else 0.0;
      assert BatchLoss(m, bs, maxIdx, d, n) == pos + neg / k + Term(m, bs, maxIdx, last, x);
      if last == maxIdx {
        PositiveTerm(m, bs, last, x);
        assert NegativeLossSum(m, maxIdx, d, n) == neg;
      } else {
        NegativeTerm(m, bs, maxIdx, last, x);
        DivideSum(neg, LogExp(m, x), k);
        assert NegativeLossSum(m, maxIdx, d, n) == neg + LogExp(m, x);
      }
    }
  }

  /** With a batch of one the only element is the positive: the loss is logexp(-d), no division. */
  lemma SingleElementIsPositive(m: Numerics, d: real)
    ensures BatchLoss(m, 1, 0, [d], 1) == LogExp(m, -d)
  {
    PositiveTerm(m, 1, 0, d);
  }

  /** batch->losses after the sampling loop: the distance of the target to each context. */
  function Distances(geo: Geometry, target: int, ctx: seq<int>): seq<real>
  {
    seq(|ctx|, i requires 0 <= i < |ctx| => geo.dist(target, ctx[i]))
  }

  /** One call of diffDist: the target, the context and the coefficient. */
  datatype DiffCall = DiffCall(target: int, context: int, coef: real)

  /** The coefficient of element i: diff of neglogexp for the positive, diff of logexp over bs - 1 for a negative. */
  function Coefficient(m: Numerics, bs: int, maxIdx: int, i: int, d: real): real
    requires i != maxIdx ==> bs != 1
  {
    if i == maxIdx then m.diff(NegLogExpFn(m), d)
    else m.diff(LogExpFn(m), d) / (bs - 1) as real
  }

  /** The diffDist calls of the loss loop, one per element, in order. */
  function DiffCalls(m: Numerics, bs: int, maxIdx: int, target: int, ctx: seq<int>, d: seq<real>): (r: seq<DiffCall>)
    requires |ctx| == |d| && NegativesWeighted(bs, maxIdx, |d|)
  {
    seq(|d|, i requires 0 <= i < |d| => DiffCall(target, ctx[i], Coefficient(m, bs, maxIdx, i, d[i])))
  }

  /** grads->at succeeds for both indexes of the call on a table of n accumulators. */
  predicate Addressable(c: DiffCall, n: int)
  {
    0 <= c.target < n && 0 <= c.context < n
  }

  /**
   * How many calls run before grads->at throws: the length of the longest
   * prefix of addressable calls, so the call after it, if any, is not.
   */
  function AddressablePrefix(cs: seq<DiffCall>, n: int): (p: nat)
    ensures p <= |cs|
    ensures forall i :: 0 <= i < p ==> Addressable(cs[i], n)
    ensures p < |cs| ==> !Addressable(cs[p], n)
  {
    if cs == [] || !Addressable(cs[0], n) then 0
    else 1 + AddressablePrefix(cs[1..], n)
  }

  /**
   * One diffDist call: the target's and the context's accumulators are
   * updated in place, and no other.
   */
  function Apply(geo: Geometry, g: seq<Accumulator>, c: DiffCall): (r: seq<Accumulator>)
    requires Addressable(c, |g|)
    ensures |r| == |g|
    ensures forall j :: 0 <= j < |g| && j != c.target && j != c.context ==> r[j] == g[j]
  {
    var pair := geo.diffDist(c.target, c.context, g[c.target], g[c.context], c.coef);
    g[c.target := pair.0][c.context := pair.1]
  }

  /** The accumulator table after the first n calls of cs, in order; its size never changes. */
  function Accumulate(geo: Geometry, g: seq<Accumulator>, cs: seq<DiffCall>, n: nat): (r: seq<Accumulator>)
    requires n <= AddressablePrefix(cs, |g|)
    ensures |r| == |g|
  {
    if n == 0 then g
    else Apply(geo, Accumulate(geo, g, cs, n - 1), cs[n - 1])
  }

  /** An accumulator that no call names is left as it was. */
  lemma {:induction false} AccumulateTouchesOnlyNamed(geo: Geometry, g: seq<Accumulator>, cs: seq<DiffCall>, n: nat, j: int)
    requires n <= AddressablePrefix(cs, |g|) && 0 <= j < |g|
    requires forall i :: 0 <= i < n ==> cs[i].target != j && cs[i].context != j
    ensures Accumulate(geo, g, cs, n)[j] == g[j]
  {
    if n > 0 {
      AccumulateTouchesOnlyNamed(geo, g, cs, n - 1, j);
    }
  }

  /**
   * One turn of the loss loop at element i, with the first i calls applied:
   * grads->at succeeds exactly when call i is addressable, and then the
   * table and the loss grow by call i and term i.
   */
  lemma LossLoopStep(m: Numerics, geo: Geometry, bs: int, maxIdx: int, t: int, ctx: seq<int>, d: seq<real>,
                     g0: seq<Accumulator>, i: nat)
    requires |ctx| == |d| && NegativesWeighted(bs, maxIdx, |d|)
    requires i < |d| && i <= AddressablePrefix(DiffCalls(m, bs, maxIdx, t, ctx, d), |g0|)
    ensures var cs := DiffCalls(m, bs, maxIdx, t, ctx, d);
      && (i < AddressablePrefix(cs, |g0|) <==> 0 <= t < |g0| && 0 <= ctx[i] < |g0|)
      && (i < AddressablePrefix(cs, |g0|) ==>
            var g := Accumulate(geo, g0, cs, i);
            var pair := geo.diffDist(t, ctx[i], g[t], g[ctx[i]], Coefficient(m, bs, maxIdx, i, d[i]));
            && Accumulate(geo, g0, cs, i + 1) == g[t := pair.0][ctx[i] := pair.1]
            && BatchLoss(m, bs, maxIdx, d, i + 1) == BatchLoss(m, bs, maxIdx, d, i) + Term(m, bs, maxIdx, i, d[i]))
  {
    var cs := DiffCalls(m, bs, maxIdx, t, ctx, d);
    assert cs[i] == DiffCall(t, ctx[i], Coefficient(m, bs, maxIdx, i, d[i]));
  }

  /**
   * The calls of a batch touch only the target's and the contexts'
   * accumulators: every other entity's accumulator is left as it was.
   */
  lemma BatchTouchesOnlyItsEntities(m: Numerics, geo: Geometry, bs: int, maxIdx: int, target: int, ctx: seq<int>,
                                    d: seq<real>, g: seq<Accumulator>)
    requires |ctx| == |d| && NegativesWeighted(bs, maxIdx, |d|)
    ensures var cs := DiffCalls(m, bs, maxIdx, target, ctx, d);
      forall j :: 0 <= j < |g| && j != target && j !in ctx ==>
        Accumulate(geo, g, cs, AddressablePrefix(cs, |g|))[j] == g[j]
  {
    var cs := DiffCalls(m, bs, maxIdx, target, ctx, d);
    forall j | 0 <= j < |g| && j != target && j !in ctx
      ensures Accumulate(geo, g, cs, AddressablePrefix(cs, |g|))[j] == g[j]
    {
      AccumulateTouchesOnlyNamed(geo, g, cs, AddressablePrefix(cs, |g|), j);
    }
  }
}
