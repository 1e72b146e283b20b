/**
 * The clamped logistic kernels of BatchMaker (logexp, neglogexp, exp).
 * std::log, std::exp and NumericalDifferentiate::diff are floating-point
 * routines outside the core; they are carried as uninterpreted functions,
 * so every fact proved here holds whatever they compute.
 */
module Kernels {
  /** MAX_EXP: the saturation bound of every kernel argument. */
  const MaxExp: real := 16.0

  /** The numeric routines the kernels and the gradient loop call. */
  datatype Numerics = Numerics(
    log: real -> real,
    exp: real -> real,
    /** NumericalDifferentiate::diff(f, x): the derivative of f at x. */
    diff: (real -> real, real) -> real,
    /** EuclideanGeometry::dot on feature vectors. */
    dot: (seq<real>, seq<real>) -> real)

  /** The argument a kernel actually feeds to exp: x saturated to [-MaxExp, MaxExp]. */
  function Clamp(x: real): (r: real)
    ensures -MaxExp <= r <= MaxExp
    ensures -MaxExp <= x <= MaxExp ==> r == x
    ensures x >= MaxExp ==> r == MaxExp
    ensures x <= -MaxExp ==> r == -MaxExp
  {
    if x > MaxExp then MaxExp else if x < -MaxExp then -MaxExp else x
  }

  /** BatchMaker::logexp: log(1 + e^-x), saturated outside [-16, 16]. */
  function LogExp(m: Numerics, x: real): (r: real)
  {
    if x > MaxExp then m.log(1.0 + m.exp(-MaxExp))
    else if x < -MaxExp then m.log(1.0 + m.exp(MaxExp))
    else m.log(1.0 + m.exp(-x))
  }

  /** BatchMaker::neglogexp: log(1 + e^x), saturated outside [-16, 16]. */
  function NegLogExp(m: Numerics, x: real): (r: real)
  {
    if x > MaxExp then m.log(1.0 + m.exp(MaxExp))
    else if x < -MaxExp then m.log(1.0 + m.exp(-MaxExp))
    else m.log(1.0 + m.exp(x))
  }

  /** BatchMaker::exp: e^-x, saturated outside [-16, 16]. */
  function ClampedExp(m: Numerics, x: real): (r: real)
  {
    if x > MaxExp then m.exp(-MaxExp)
    else if x < -MaxExp then m.exp(MaxExp)
    else m.exp(-x)
  }

  /** The kernels as function values, the form handed to diff. */
  function LogExpFn(m: Numerics): real -> real
  {
    x => LogExp(m, x)
  }

  function NegLogExpFn(m: Numerics): real -> real
  {
    x => NegLogExp(m, x)
  }

  /** logexp and neglogexp feed exp the argument saturated to [-16, 16]. */
  lemma KernelsClampArgument(m: Numerics, x: real)
    ensures LogExp(m, x) == m.log(1.0 + m.exp(-Clamp(x)))
    ensures NegLogExp(m, x) == m.log(1.0 + m.exp(Clamp(x)))
    ensures ClampedExp(m, x) == m.exp(-Clamp(x))
  {
  }

  /** Past the bound, logexp returns its boundary value (a distance of 1000 costs what 16 costs). */
  lemma LogExpSaturates(m: Numerics, x: real)
    ensures x >= MaxExp ==> LogExp(m, x) == LogExp(m, MaxExp)
    ensures x <= -MaxExp ==> LogExp(m, x) == LogExp(m, -MaxExp)
  {
  }

  lemma NegLogExpSaturates(m: Numerics, x: real)
    ensures x >= MaxExp ==> NegLogExp(m, x) == NegLogExp(m, MaxExp)
    ensures x <= -MaxExp ==> NegLogExp(m, x) == NegLogExp(m, -MaxExp)
  {
  }

  lemma ClampedExpSaturates(m: Numerics, x: real)
    ensures x >= MaxExp ==> ClampedExp(m, x) == ClampedExp(m, MaxExp)
    ensures x <= -MaxExp ==> ClampedExp(m, x) == ClampedExp(m, -MaxExp)
  {
  }

  /**
   * neglogexp is logexp mirrored, at every argument, saturated ones
   * included: the positive element's loss term logexp(-d) and the function
   * differentiated for it, neglogexp, are the same function of d.
   */
  lemma NegLogExpMirrorsLogExp(m: Numerics, x: real)
    ensures NegLogExp(m, x) == LogExp(m, -x)
  {
  }
}
