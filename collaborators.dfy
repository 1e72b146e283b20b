/**
 * The engine's external collaborators, as oracles: the two entity
 * samplers, the hyperbolic geometry of the embedding table and the
 * per-entity gradient accumulators. A sampler's hidden random state is
 * the tick k its functions are applied to: the engine advances it by one
 * for every draw.
 */
module Collaborators {
  /** NEIGHBORHOOD: the window of a close draw in vocabulary mode. */
  const Neighborhood: int := 10

  /** The scratch pair (index, feature vector) a vocabulary draw fills. */
  datatype Sample = Sample(index: int, features: seq<real>)

  /** VecBinder: random and close vocabulary entities with their feature vectors. */
  datatype VecBinder = VecBinder(
    dimension: nat,
    /** getRandomVector at tick k */
    randomVector: nat -> Sample,
    /** getRandomCloseVector(features, window) at tick k */
    randomCloseVector: (nat, seq<real>, int) -> Sample)

  /** Similarity: random entities and precomputed pairwise similarities. */
  datatype Similarity = Similarity(
    /** getRandomIndex at tick k */
    randomIndex: nat -> int,
    /** getSimilarity(target, index) */
    similarity: (int, int) -> real,
    /** getCloseSimilarity(target) at tick k: the close index it writes and the similarity it returns */
    closeSimilarity: (nat, int) -> (int, real))

  /** Exactly one sampler is wired into an engine: a tagged variant instead of two nullable pointers. */
  datatype Source = FromVecBinder(binder: VecBinder) | FromSimilarity(sims: Similarity)
  {
    /** Every entity the sampler can return is an index of the n-entity vocabulary. */
    ghost predicate IndicesBelow(n: int)
    {
      match this
      case FromVecBinder(b) =>
        (forall k: nat :: 0 <= b.randomVector(k).index < n) &&
        (forall k: nat, v: seq<real>, w: int :: 0 <= b.randomCloseVector(k, v, w).index < n)
      case FromSimilarity(s) =>
        (forall k: nat :: 0 <= s.randomIndex(k) < n) &&
        (forall k: nat, t: int :: 0 <= s.closeSimilarity(k, t).0 < n)
    }
  }

  /** args->format: the hyperbolic space selector. */
  datatype Format = Poincare | PoincareStack | Lorentz | Unrecognised(code: int)

  /** One gradient accumulator: PoincareVector, PoincareStack or LorentzVector. */
  datatype Accumulator =
    | PoincareVector(pmf: real, coords: seq<real>)
    | PoincareStackVector(coords: seq<real>)
    | LorentzVector(celerity: real, coords: seq<real>)

  /** The embedding table's geometry, addressed by entity index. */
  datatype Geometry = Geometry(
    /** pemb->at(a)->dist(*pemb->at(b)) */
    dist: (int, int) -> real,
    /** pemb->at(a)->diffDist(pemb->at(b), (ga, gb), coef): the two accumulators afterwards */
    diffDist: (int, int, Accumulator, Accumulator, real) -> (Accumulator, Accumulator),
    /** HyperbolicVector::project */
    project: Accumulator -> Accumulator)

  function Zeros(n: nat): (v: seq<real>)
    ensures |v| == n && forall i :: 0 <= i < n ==> v[i] == 0.0
  {
    seq(n, _ => 0.0)
  }

  /** The accumulator the constructor allocates for one entity: zero, projected on the ball models. */
  function FreshAccumulator(format: Format, pmf: real, celerity: real, dim: nat, geo: Geometry): Accumulator
    requires !format.Unrecognised?
  {
    match format
    case Poincare => geo.project(PoincareVector(pmf, Zeros(dim)))
    case PoincareStack => geo.project(PoincareStackVector(Zeros(dim)))
    case Lorentz => LorentzVector(celerity, Zeros(dim))
  }
}
