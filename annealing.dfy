/**
 * BatchMaker::positiveRatio: the probability of a "close" draw, annealed
 * linearly from ratioNeighbors to maxRatioValue over totaliter batches.
 */
module Annealing {
  /**
   * The double that positiveRatio returns. With totaliter == 0 the
   * division is by zero and IEEE 754 gives an infinity or NaN.
   */
  datatype Ratio = Finite(value: real) | PosInf | NegInf | NaN

  /** ratioNeighbors + progress * (maxRatioValue - ratioNeighbors) / totaliter. */
  function PositiveRatio(start: real, max: real, progress: nat, total: int): Ratio
  {
    var numerator := progress as real * (max - start);
    if total != 0 then Finite(start + numerator / total as real)
    else if numerator > 0.0 then PosInf
    else if numerator < 0.0 then NegInf
    else NaN
  }

  /**
   * The ratio is finite exactly when totaliter is not zero; it starts at
   * ratioNeighbors and reaches maxRatioValue after totaliter batches. With
   * totaliter == 0 it is NaN exactly when 0 / 0 is computed.
   */
  lemma RatioEndpoints(start: real, max: real, progress: nat, total: int)
    ensures var r := PositiveRatio(start, max, progress, total);
      && (r.Finite? <==> total != 0)
      && (total != 0 && progress == 0 ==> r == Finite(start))
      && (total != 0 && progress == total ==> r == Finite(max))
      && (total == 0 ==> (r == NaN <==> progress == 0 || start == max))
  {
    if total != 0 && progress == total {
      var d := max - start;
      assert progress as real * d / total as real == d;
    }
  }

  /**
   * `u > positiveRatio()` in double arithmetic: the test that turns a draw
   * into a negative (uniformly random) one. Every comparison with NaN is false.
   */
  predicate Exceeds(u: real, r: Ratio)
  {
    match r
    case Finite(p) => u > p
    case PosInf => false
    case NegInf => true
    case NaN => false
  }

  /** The ratio never decreases while training progresses, once the configuration is ordered. */
  lemma RatioNondecreasing(start: real, max: real, p: nat, q: nat, total: int)
    requires total > 0 && start <= max && p <= q
    ensures PositiveRatio(start, max, p, total).value <= PositiveRatio(start, max, q, total).value
  {
    var d := max - start;
    assert p as real * d <= q as real * d by {
      assert (q - p) as real * d >= 0.0;
    }
    DivideMonotone(p as real * d, q as real * d, total as real);
  }

  lemma DivideMonotone(a: real, b: real, c: real)
    requires a <= b && c > 0.0
    ensures a / c <= b / c
  {
    assert b / c - a / c == (b - a) / c;
  }

  /** Between the two ends of training the ratio stays between its two configured values. */
  lemma RatioWithinBounds(start: real, max: real, p: nat, total: int)
    requires total > 0 && start <= max && p <= total
    ensures start <= PositiveRatio(start, max, p, total).value <= max
  {
    RatioEndpoints(start, max, 0, total);
    RatioEndpoints(start, max, total, total);
    RatioNondecreasing(start, max, 0, p, total);
    RatioNondecreasing(start, max, p, total, total);
  }

  /** With equal ratios the annealing is switched off: the ratio is the same at every step. */
  lemma RatioConstantWhenEqual(start: real, p: nat, q: nat, total: int)
    ensures PositiveRatio(start, start, p, total) == PositiveRatio(start, start, q, total)
  {
  }
}
