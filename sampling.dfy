/**
 * The rejection sampling of one batch (src/BatchMaker.cpp, the two
 * do-while loops): each draw is negative or close by the annealed ratio,
 * and is retried while its index is already chosen. `fuel` bounds the
 * number of draws; the source has no bound.
 */
module Sampling {
  import opened Outcomes
  import opened Annealing
  import opened Collaborators

  /** An accepted context: its index and its similarity to the target. */
  datatype Drawn = Drawn(index: int, similarity: real)

  /** Everything one draw depends on within a batch. */
  datatype Sampler = Sampler(
    source: Source,
    /** Random::Double(1.0) at tick k */
    uniform: nat -> real,
    dot: (seq<real>, seq<real>) -> real,
    /** ratioNeighbors, maxRatioValue, progress and totaliter: the inputs of positiveRatio */
    start: real,
    max: real,
    progress: nat,
    total: int,
    target: int,
    targetVector: seq<real>)
  {
    /** The body of the do-while at tick k. */
    function Attempt(k: nat): Drawn
    {
      var negative := Exceeds(uniform(k), PositiveRatio(start, max, progress, total));
      match source
      case FromVecBinder(b) =>
        var s := if negative then b.randomVector(k) else b.randomCloseVector(k, targetVector, Neighborhood);
        Drawn(s.index, dot(targetVector, s.features))
      case FromSimilarity(sims) =>
        if negative then Drawn(sims.randomIndex(k), sims.similarity(target, sims.randomIndex(k)))
        else Drawn(sims.closeSimilarity(k, target).0, sims.closeSimilarity(k, target).1)
    }
  }

  /** The target draw at tick k. */
  function TargetIndexAt(source: Source, k: nat): (t: int)
  {
    match source
    case FromVecBinder(b) => b.randomVector(k).index
    case FromSimilarity(sims) => sims.randomIndex(k)
  }

  /** The accepted draws of a batch and the tick after the last draw. */
  datatype Sampled = Sampled(draws: seq<Drawn>, next: nat)

  function Prefixed(pre: seq<Drawn>, r: Option<Sampled>): Option<Sampled>
  {
    match r
    case None => None
    case Some(s) => Some(Sampled(pre + s.draws, s.next))
  }

  lemma PrefixedNothing(r: Option<Sampled>)
    ensures Prefixed([], r) == r
  {
    if r.Some? {
      assert [] + r.value.draws == r.value.draws;
    }
  }

  lemma PrefixedTwice(a: seq<Drawn>, b: seq<Drawn>, r: Option<Sampled>)
    ensures Prefixed(a, Prefixed(b, r)) == Prefixed(a + b, r)
  {
    if r.Some? {
      assert a + (b + r.value.draws) == (a + b) + r.value.draws;
    }
  }

  /**
   * The attempt stream a is the sampler's: its draw at every tick. The
   * trigger keeps the stream abstract until a draw is actually computed.
   */
  ghost predicate Streams(s: Sampler, a: nat -> Drawn)
  {
    forall k: nat {:trigger s.Attempt(k)} :: a(k) == s.Attempt(k)
  }

  /** The attempts of s as one stream value. */
  ghost function Attempts(s: Sampler): nat -> Drawn
  {
    s.Attempt
  }

  lemma AttemptsStream(s: Sampler)
    ensures Streams(s, Attempts(s))
  {
  }

  /**
   * Rejection sampling over the attempt stream a: n contexts drawn from
   * tick k on, rejecting every index in `excluded` or accepted before;
   * None when the fuel runs out first.
   */
  ghost function SampleFrom(a: nat -> Drawn, k: nat, excluded: set<int>, n: nat, fuel: nat): Option<Sampled>
    decreases fuel
  {
    if n == 0 then Some(Sampled([], k))
    else if fuel == 0 then None
    else
      var d := a(k);
      if d.index in excluded then SampleFrom(a, k + 1, excluded, n, fuel - 1)
      else Prefixed([d], SampleFrom(a, k + 1, excluded + {d.index}, n - 1, fuel - 1))
  }

  /**
   * The property the rejection loop exists for: n contexts, pairwise
   * distinct, none of them excluded (the target is excluded from the start).
   */
  lemma {:induction false} SampledDistinct(a: nat -> Drawn, k: nat, excluded: set<int>, n: nat, fuel: nat)
    requires SampleFrom(a, k, excluded, n, fuel).Some?
    ensures var r := SampleFrom(a, k, excluded, n, fuel).value;
      && |r.draws| == n && k <= r.next
      && (forall i :: 0 <= i < n ==> r.draws[i].index !in excluded)
      && (forall i, j :: 0 <= i < j < n ==> r.draws[i].index != r.draws[j].index)
    decreases fuel
  {
    if n > 0 {
      var d := a(k);
      if d.index in excluded {
        SampledDistinct(a, k + 1, excluded, n, fuel - 1);
      } else {
        var rest := excluded + {d.index};
        SampledDistinct(a, k + 1, rest, n - 1, fuel - 1);
        var tail := SampleFrom(a, k + 1, rest, n - 1, fuel - 1).value.draws;
        var r := SampleFrom(a, k, excluded, n, fuel).value;
        assert r.draws == [d] + tail;
        forall i | 0 < i < n
          ensures r.draws[i] == tail[i - 1] && r.draws[i].index != d.index
        {
          assert tail[i - 1].index !in rest;
        }
      }
    }
  }

  function Indexes(ds: seq<Drawn>): (r: seq<int>)
  {
    seq(|ds|, i requires 0 <= i < |ds| => ds[i].index)
  }

  function Similarities(ds: seq<Drawn>): (r: seq<real>)
  {
    seq(|ds|, i requires 0 <= i < |ds| => ds[i].similarity)
  }

  lemma IndexesAppend(ds: seq<Drawn>, d: Drawn)
    ensures Indexes(ds + [d]) == Indexes(ds) + [d.index]
  {
  }

  /** The indexes a batch holds, as a set. */
  function Members(s: seq<int>): set<int>
  {
    set x | x in s
  }

  lemma MembersAppend(s: seq<int>, x: int)
    ensures Members(s + [x]) == Members(s) + {x}
  {
  }

  lemma SimilaritiesAppend(ds: seq<Drawn>, d: Drawn)
    ensures Similarities(ds + [d]) == Similarities(ds) + [d.similarity]
  {
  }

  /**
   * The fuel only bounds the search: given more, a batch that was found
   * is found again, identical.
   */
  lemma {:induction false} FuelOnlyBounds(a: nat -> Drawn, k: nat, excluded: set<int>, n: nat, fuel: nat, more: nat)
    requires SampleFrom(a, k, excluded, n, fuel).Some? && fuel <= more
    ensures SampleFrom(a, k, excluded, n, more) == SampleFrom(a, k, excluded, n, fuel)
    decreases fuel
  {
    if n > 0 {
      var d := a(k);
      if d.index in excluded {
        FuelOnlyBounds(a, k + 1, excluded, n, fuel - 1, more - 1);
      } else {
        FuelOnlyBounds(a, k + 1, excluded + {d.index}, n - 1, fuel - 1, more - 1);
      }
    }
  }

  /** A sampler confined to the vocabulary attempts only vocabulary entities. */
  lemma AttemptsInVocabulary(s: Sampler, n: int)
    requires s.source.IndicesBelow(n)
    ensures forall k: nat :: 0 <= s.Attempt(k).index < n
  {
  }

  /** Every accepted context comes from the stream, so it lies where the stream's attempts lie. */
  lemma {:induction false} DrawsInVocabulary(a: nat -> Drawn, k: nat, excluded: set<int>, n: nat, fuel: nat, vocSize: int)
    requires forall j: nat :: 0 <= a(j).index < vocSize
    requires SampleFrom(a, k, excluded, n, fuel).Some?
    ensures var r := SampleFrom(a, k, excluded, n, fuel).value;
      forall i :: 0 <= i < |r.draws| ==> 0 <= r.draws[i].index < vocSize
    decreases fuel
  {
    if n > 0 {
      var d := a(k);
      if d.index in excluded {
        DrawsInVocabulary(a, k + 1, excluded, n, fuel - 1, vocSize);
      } else {
        DrawsInVocabulary(a, k + 1, excluded + {d.index}, n - 1, fuel - 1, vocSize);
      }
    }
  }

  /**
   * A vocabulary of two entities and a batch of one: whatever the draws,
   * the single context is the entity that is not the target.
   */
  lemma TwoEntitiesOneContext(s: Sampler, k: nat, fuel: nat)
    requires s.source.IndicesBelow(2) && 0 <= s.target < 2
    requires SampleFrom(Attempts(s), k, {s.target}, 1, fuel).Some?
    ensures var r := SampleFrom(Attempts(s), k, {s.target}, 1, fuel).value;
      |r.draws| == 1 && r.draws[0].index == 1 - s.target
  {
    SampledDistinct(Attempts(s), k, {s.target}, 1, fuel);
    AttemptsInVocabulary(s, 2);
    DrawsInVocabulary(Attempts(s), k, {s.target}, 1, fuel, 2);
  }
}
