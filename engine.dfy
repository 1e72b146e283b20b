/**
 * BatchMaker and its reusable Batch buffer (src/BatchMaker.cpp): the two
 * constructors and iterNextBatch.
 */
module Engine {
  import opened Outcomes
  import opened Kernels
  import opened Annealing
  import opened Collaborators
  import opened Sampling
  import opened Scoring

  /** The fields of Args the engine reads. */
  datatype Args = Args(
    bs: nat,
    posthres: real,
    maxposthres: real,
    sampling: int,
    format: Format,
    pmf: real,
    celerity: real)

  /** The fatal configuration errors of construction. */
  datatype ConfigError =
    | RatioOrder          // assert(maxRatioValue >= ratioNeighbors) fails
    | UnimplementedSpace  // throw "Unimplemented hyperbolic space"

  /** How a call of iterNextBatch ends. */
  datatype Outcome =
    | Ready       // the batch is returned
    | Exhausted   // the fuel ran out inside a do-while, where the source keeps drawing
    | OutOfRange  // grads->at threw std::out_of_range in the loss loop

  /** BatchMaker::Batch: allocated once, overwritten by every call. */
  class Batch {
    var targetIndex: int
    var targetVector: seq<real>
    var contextIndexes: seq<int>
    var contextSimilarity: seq<real>
    var losses: seq<real>
    var grads: seq<Accumulator>
    var maxSimIndex: int
    var maxSimValue: real
    var loss: real
    var niter: int
    var chosen: set<int>

    /** Every field but niter, which only the vocabulary-mode constructor sets. */
    constructor (bs: nat, targetVector: seq<real>, grads: seq<Accumulator>)
      ensures this.targetIndex == -1 && this.targetVector == targetVector && this.grads == grads
      ensures contextIndexes == seq(bs, _ => -1)
      ensures contextSimilarity == Zeros(bs) && losses == Zeros(bs)
      ensures maxSimIndex == 0 && maxSimValue == MinSimilarity && loss == 0.0 && chosen == {}
    {
      this.targetIndex := -1;
      this.targetVector := targetVector;
      contextIndexes := seq(bs, _ => -1);
      contextSimilarity := Zeros(bs);
      this.grads := grads;
      maxSimIndex := 0;
      maxSimValue := MinSimilarity;
      loss := 0.0;
      losses := Zeros(bs);
      chosen := {};
    }
  }

  /**
   * The constructors' loop: one fresh accumulator per vocabulary entity,
   * appended in index order; the first entity of an unrecognised format
   * throws, so an empty vocabulary never does.
   */
  method AllocateGrads(format: Format, vocSize: nat, dim: nat, pmf: real, celerity: real, geo: Geometry)
    returns (r: Option<seq<Accumulator>>)
    ensures r.None? <==> format.Unrecognised? && vocSize > 0
    ensures r.Some? ==> |r.value| == vocSize
    ensures r.Some? ==> forall i :: 0 <= i < vocSize ==> r.value[i] == FreshAccumulator(format, pmf, celerity, dim, geo)
  {
    var grads: seq<Accumulator> := [];
    for i := 0 to vocSize
      invariant |grads| == i
      invariant i > 0 ==> !format.Unrecognised?
      invariant forall j :: 0 <= j < i ==> grads[j] == FreshAccumulator(format, pmf, celerity, dim, geo)
    {
      match format {
        case Poincare =>
          grads := grads + [PoincareVector(pmf, Zeros(dim))];
          grads := grads[i := geo.project(grads[i])];
        case PoincareStack =>
          grads := grads + [PoincareStackVector(Zeros(dim))];
          grads := grads[i := geo.project(grads[i])];
        case Lorentz =>
          grads := grads + [LorentzVector(celerity, Zeros(dim))];
        case Unrecognised(_) =>
          return None;
      }
    }
    return Some(grads);
  }

  /**
   * The sampler of a vocabulary confined to n entities keeps every diffDist
   * call of the batch addressable: grads->at never throws.
   */
  lemma InVocabularyNeverOutOfRange(m: Numerics, s: Sampler, k: nat, fuel: nat, maxIdx: int, d: seq<real>, n: int)
    requires s.source.IndicesBelow(n) && 0 <= s.target < n
    requires SampleFrom(Attempts(s), k, {s.target}, |d|, fuel).Some? && NegativesWeighted(|d|, maxIdx, |d|)
    ensures var ctx := Indexes(SampleFrom(Attempts(s), k, {s.target}, |d|, fuel).value.draws);
      |ctx| == |d| && AddressablePrefix(DiffCalls(m, |d|, maxIdx, s.target, ctx, d), n) == |d|
  {
    SampledDistinct(Attempts(s), k, {s.target}, |d|, fuel);
    AttemptsInVocabulary(s, n);
    DrawsInVocabulary(Attempts(s), k, {s.target}, |d|, fuel, n);
  }

  /**
   * The first |done| slots of a batch hold the draws `done`: their
   * indexes, similarities and distances to target t, the running maximum
   * over the similarities, and chosen holds t and the indexes.
   */
  ghost predicate SlotsHold(geo: Geometry, t: int, ctx: seq<int>, sims: seq<real>, losses: seq<real>,
                            maxIdx: int, maxValue: real, chosen: set<int>, done: seq<Drawn>)
  {
    && |done| <= |ctx| && |done| <= |sims| && |done| <= |losses|
    && ctx[..|done|] == Indexes(done)
    && sims[..|done|] == Similarities(done)
    && losses[..|done|] == Distances(geo, t, Indexes(done))
    && MaxSim(maxIdx, maxValue) == RunningMax(Similarities(done))
    && chosen == {t} + Members(Indexes(done))
  }

  /** Recording draw d in the next slot extends what the slots hold by d. */
  lemma SlotsStep(geo: Geometry, t: int, done: seq<Drawn>, d: Drawn, ctx: seq<int>, sims: seq<real>, losses: seq<real>,
                  maxIdx: int, maxValue: real, chosen: set<int>, maxIdx': int, maxValue': real)
    requires SlotsHold(geo, t, ctx, sims, losses, maxIdx, maxValue, chosen, done)
    requires |done| < |ctx| && |done| < |sims| && |done| < |losses|
    requires MaxSim(maxIdx', maxValue') ==
      if d.similarity > maxValue then MaxSim(|done|, d.similarity) else MaxSim(maxIdx, maxValue)
    ensures var i := |done|;
      SlotsHold(geo, t, ctx[i := d.index], sims[i := d.similarity], losses[i := geo.dist(t, d.index)],
                maxIdx', maxValue', chosen + {d.index}, done + [d])
  {
    var i := |done|;
    IndexesAppend(done, d);
    SimilaritiesAppend(done, d);
    MembersAppend(Indexes(done), d.index);
    RunningMaxStep(Similarities(done), d.similarity);
    assert ctx[i := d.index][..i + 1] == ctx[..i] + [d.index];
    assert sims[i := d.similarity][..i + 1] == sims[..i] + [d.similarity];
    assert losses[i := geo.dist(t, d.index)][..i + 1] == losses[..i] + [geo.dist(t, d.index)];
    assert Distances(geo, t, Indexes(done) + [d.index]) == Distances(geo, t, Indexes(done)) + [geo.dist(t, d.index)];
  }

  /**
   * grads, loss and chosen hold the outcome of the loss loop over target t,
   * contexts ctx and distances d, run from table g0 and chosen set chosen0:
   * the loop stopped at the first call naming an index outside the table
   * (thrown exactly when that is before the end), the table holds the
   * calls applied up to there and the loss their terms; when the loop ran
   * to the end, no accumulator other than the target's and the contexts'
   * changed.
   */
  ghost predicate LossLoopDone(m: Numerics, geo: Geometry, bs: int, maxIdx: int, t: int, ctx: seq<int>, d: seq<real>,
                               g0: seq<Accumulator>, chosen0: set<int>,
                               grads: seq<Accumulator>, loss: real, chosen: set<int>, thrown: bool)
  {
    && |ctx| == |d| == bs && NegativesWeighted(bs, maxIdx, bs)
    && var cs := DiffCalls(m, bs, maxIdx, t, ctx, d);
    var p := AddressablePrefix(cs, |g0|);
    && (thrown <==> p < bs)
    && grads == Accumulate(geo, g0, cs, p)
    && loss == BatchLoss(m, bs, maxIdx, d, p)
    && chosen == (if p >= 1 then {} else chosen0)
    && (!thrown ==> forall j :: 0 <= j < |g0| && j != t && j !in ctx ==> grads[j] == g0[j])
  }

  /**
   * The loss loop ends where the addressable prefix of its calls ends: by a
   * throw when that is before the last element, normally otherwise.
   */
  lemma LossLoopEnds(m: Numerics, geo: Geometry, bs: int, maxIdx: int, t: int, ctx: seq<int>, d: seq<real>,
                     g0: seq<Accumulator>, chosen0: set<int>, n: nat)
    requires |ctx| == |d| == bs && NegativesWeighted(bs, maxIdx, bs)
    requires n == AddressablePrefix(DiffCalls(m, bs, maxIdx, t, ctx, d), |g0|)
    ensures LossLoopDone(m, geo, bs, maxIdx, t, ctx, d, g0, chosen0,
                         Accumulate(geo, g0, DiffCalls(m, bs, maxIdx, t, ctx, d), n), BatchLoss(m, bs, maxIdx, d, n),
                         if n >= 1 then {} else chosen0, n < bs)
  {
    BatchTouchesOnlyItsEntities(m, geo, bs, maxIdx, t, ctx, d, g0);
  }

  class BatchMaker {
    const bs: nat
    const ratioNeighbors: real
    const maxRatioValue: real
    const totaliter: int
    var progress: nat
    const source: Source
    const geometry: Geometry
    const numerics: Numerics
    /** Random::Double(1.0) at tick k */
    const uniform: nat -> real
    /** The tick of the random sources: one per draw so far. */
    var draws: nat
    const batch: Batch
    /** The per-slot vectors were allocated with bs elements. */
    ghost predicate Valid()
      reads batch`contextIndexes, batch`contextSimilarity, batch`losses
    {
      |batch.contextIndexes| == bs && |batch.contextSimilarity| == bs && |batch.losses| == bs
    }

    /** The fields both constructors set; the mode-specific ones are the factories' arguments. */
    constructor (source: Source, geometry: Geometry, numerics: Numerics, uniform: nat -> real,
                 nloop: int, args: Args, targetVector: seq<real>, grads: seq<Accumulator>)
      ensures Valid() && fresh(batch)
      ensures this.source == source && this.geometry == geometry
      ensures this.numerics == numerics && this.uniform == uniform
      ensures bs == args.bs && ratioNeighbors == args.posthres && maxRatioValue == args.maxposthres
      ensures totaliter == nloop * args.sampling && progress == 0 && draws == 0
      ensures batch.targetIndex == -1 && batch.targetVector == targetVector && batch.grads == grads
      ensures batch.contextIndexes == seq(args.bs, _ => -1)
      ensures batch.contextSimilarity == Zeros(args.bs) && batch.losses == Zeros(args.bs)
      ensures batch.maxSimIndex == 0 && batch.maxSimValue == MinSimilarity && batch.loss == 0.0 && batch.chosen == {}
    {
      bs := args.bs;
      ratioNeighbors := args.posthres;
      maxRatioValue := args.maxposthres;
      totaliter := nloop * args.sampling;
      progress := 0;
      this.source := source;
      this.geometry := geometry;
      this.numerics := numerics;
      this.uniform := uniform;
      draws := 0;
      batch := new Batch(args.bs, targetVector, grads);
    }

    /** The draw context of the current batch. */
    ghost function SamplerFor(target: int, targetVector: seq<real>, progress: nat): Sampler
    {
      Sampler(source, uniform, numerics.dot, ratioNeighbors, maxRatioValue, progress, totaliter, target, targetVector)
    }

    /**
     * The batch holds the outcome of rejection sampling from tick k at
     * training step `step`: the bs accepted draws, pairwise distinct and
     * none of them the target, with their similarities, the running
     * maximum over them and their distances to the target.
     */
    ghost predicate HoldsSample(k: nat, step: nat, fuel: nat)
      reads this`draws, batch`targetIndex, batch`targetVector, batch`niter
      reads batch`contextIndexes, batch`contextSimilarity, batch`losses, batch`maxSimIndex, batch`maxSimValue
    {
      var r := SampleFrom(Attempts(SamplerFor(batch.targetIndex, batch.targetVector, step)),
                          k, {batch.targetIndex}, bs, fuel);
      && r.Some? && batch.niter == bs && draws == r.value.next
      && batch.contextIndexes == Indexes(r.value.draws)
      && batch.contextSimilarity == Similarities(r.value.draws)
      && |batch.contextIndexes| == bs
      && (forall i, j :: 0 <= i < j < bs ==> batch.contextIndexes[i] != batch.contextIndexes[j])
      && (forall i :: 0 <= i < bs ==> batch.contextIndexes[i] != batch.targetIndex)
      && MaxSim(batch.maxSimIndex, batch.maxSimValue) == RunningMax(batch.contextSimilarity)
      && batch.losses == Distances(geometry, batch.targetIndex, batch.contextIndexes)
      && NegativesWeighted(bs, batch.maxSimIndex, bs)
    }

    /** LossLoopDone over the batch's fields, from accumulator table g0 and chosen set chosen0. */
    ghost predicate Accumulated(g0: seq<Accumulator>, chosen0: set<int>, thrown: bool)
      reads batch`grads, batch`loss, batch`chosen
      reads batch`maxSimIndex, batch`targetIndex, batch`contextIndexes, batch`losses
    {
      LossLoopDone(numerics, geometry, bs, batch.maxSimIndex, batch.targetIndex, batch.contextIndexes, batch.losses,
                   g0, chosen0, batch.grads, batch.loss, batch.chosen, thrown)
    }

    /**
     * iterNextBatch: sample a target and bs distinct contexts, then run the
     * loss loop, which applies one diffDist call per context until
     * grads->at meets an index outside the accumulator table.
     */
    method IterNextBatch(fuel: nat) returns (r: Outcome, b: Batch)
      requires Valid()
      modifies this`progress, this`draws, batch
      ensures Valid() && b == batch && |batch.grads| == |old(batch.grads)|
      ensures batch.targetIndex == TargetIndexAt(source, old(draws))
      ensures batch.targetVector ==
        if source.FromVecBinder? then source.binder.randomVector(old(draws)).features else old(batch.targetVector)
      ensures r.Exhausted? <==>
        SampleFrom(Attempts(SamplerFor(batch.targetIndex, batch.targetVector, old(progress))),
                   old(draws) + 1, {batch.targetIndex}, bs, fuel).None?
      ensures !r.Exhausted? ==> HoldsSample(old(draws) + 1, old(progress), fuel)
      ensures !r.Exhausted? ==>
        Accumulated(old(batch.grads), {batch.targetIndex} + Members(batch.contextIndexes), r.OutOfRange?)
      ensures progress == if r.Ready? then old(progress) + 1 else old(progress)
    {
      b := batch;
      var ok := SampleBatch(fuel);
      if !ok {
        return Exhausted, b;
      }
      var thrown := AccumulateGradients();
      if thrown {
        return OutOfRange, b;
      }
      progress := progress + 1;
      r := Ready;
    }

    /**
     * The sampling half of iterNextBatch, in either mode: chosen cleared,
     * the target drawn and excluded, the per-batch fields reset, and the
     * bs slots filled by rejection sampling.
     */
    method SampleBatch(fuel: nat) returns (ok: bool)
      requires Valid()
      modifies this`draws, batch`targetIndex, batch`targetVector, batch`chosen
      modifies batch`maxSimIndex, batch`maxSimValue, batch`loss, batch`niter
      modifies batch`contextIndexes, batch`contextSimilarity, batch`losses
      ensures Valid() && batch.loss == 0.0 && batch.niter == bs
      ensures batch.targetIndex == TargetIndexAt(source, old(draws))
      ensures batch.targetVector ==
        if source.FromVecBinder? then source.binder.randomVector(old(draws)).features else old(batch.targetVector)
      ensures ok <==>
        SampleFrom(Attempts(SamplerFor(batch.targetIndex, batch.targetVector, progress)),
                   old(draws) + 1, {batch.targetIndex}, bs, fuel).Some?
      ensures ok ==> HoldsSample(old(draws) + 1, progress, fuel)
      ensures ok ==> batch.chosen == {batch.targetIndex} + Members(batch.contextIndexes)
    {
      batch.chosen := {};
      DrawTarget();
      ghost var s := SamplerFor(batch.targetIndex, batch.targetVector, progress);
      ghost var a := Attempts(s);
      AttemptsStream(s);
      ok := FillContexts(fuel, s, a);
      if ok {
        RunningMaxIndexInRange(batch.contextSimilarity);
        SampledDistinct(a, old(draws) + 1, {batch.targetIndex}, bs, fuel);
      }
    }

    /** The target draw of either mode and the per-batch resets. */
    method DrawTarget()
      requires Valid()
      modifies this`draws, batch`targetIndex, batch`targetVector, batch`chosen
      modifies batch`maxSimIndex, batch`maxSimValue, batch`loss, batch`niter
      ensures Valid() && draws == old(draws) + 1
      ensures batch.targetIndex == TargetIndexAt(source, old(draws))
      ensures batch.targetVector ==
        if source.FromVecBinder? then source.binder.randomVector(old(draws)).features else old(batch.targetVector)
      ensures batch.chosen == old(batch.chosen) + {batch.targetIndex}
      ensures batch.maxSimIndex == 0 && batch.maxSimValue == MinSimilarity && batch.loss == 0.0 && batch.niter == bs
    {
      match source {
        case FromVecBinder(binder) =>
          var pair := binder.randomVector(draws);
          batch.targetIndex := pair.index;
          batch.chosen := batch.chosen + {batch.targetIndex};
          batch.targetVector := pair.features;
        case FromSimilarity(sims) =>
          batch.targetIndex := sims.randomIndex(draws);
          batch.chosen := batch.chosen + {batch.targetIndex};
      }
      draws := draws + 1;
      batch.maxSimIndex := 0;
      batch.maxSimValue := MinSimilarity;
      batch.loss := 0.0;
      batch.niter := bs;
    }

    /**
     * The first |done| slots hold the accepted draws done: their indexes,
     * similarities and distances to the target, the running maximum over
     * them, and chosen holds the target and them.
     */
    ghost predicate Filled(done: seq<Drawn>)
      reads batch`contextIndexes, batch`contextSimilarity, batch`losses, batch`targetIndex
      reads batch`maxSimIndex, batch`maxSimValue, batch`chosen
    {
      SlotsHold(geometry, batch.targetIndex, batch.contextIndexes, batch.contextSimilarity, batch.losses,
                batch.maxSimIndex, batch.maxSimValue, batch.chosen, done)
    }

    /**
     * The sampling loop: for each slot, draw until an index not yet chosen
     * comes up, then record it, its similarity, the running maximum and
     * its distance to the target.
     */
    method FillContexts(fuel: nat, ghost s: Sampler, ghost a: nat -> Drawn) returns (ok: bool)
      requires Valid() && batch.niter == bs && batch.chosen == {batch.targetIndex}
      requires batch.maxSimIndex == 0 && batch.maxSimValue == MinSimilarity
      requires s == SamplerFor(batch.targetIndex, batch.targetVector, progress) && Streams(s, a)
      modifies this`draws, batch`chosen, batch`maxSimIndex, batch`maxSimValue
      modifies batch`contextIndexes, batch`contextSimilarity, batch`losses
      ensures Valid()
      ensures ok == SampleFrom(a, old(draws), {batch.targetIndex}, bs, fuel).Some?
      ensures ok ==>
        var r := SampleFrom(a, old(draws), {batch.targetIndex}, bs, fuel).value;
        && draws == r.next
        && batch.contextIndexes == Indexes(r.draws)
        && batch.contextSimilarity == Similarities(r.draws)
      ensures ok ==> MaxSim(batch.maxSimIndex, batch.maxSimValue) == RunningMax(batch.contextSimilarity)
      ensures ok ==> batch.losses == Distances(geometry, batch.targetIndex, batch.contextIndexes)
      ensures ok ==> batch.chosen == {batch.targetIndex} + Members(batch.contextIndexes)
    {
      ghost var spec := SampleFrom(a, draws, {batch.targetIndex}, bs, fuel);
      ghost var done: seq<Drawn> := [];
      var left := fuel;
      var i := 0;
      PrefixedNothing(spec);
      while i < batch.niter
        invariant Valid() && 0 <= i <= bs && |done| == i
        invariant spec == Prefixed(done, SampleFrom(a, draws, batch.chosen, bs - i, left))
        invariant Filled(done)
      {
        ghost var d;
        ok, left, d := FillSlot(i, s, a, done, left);
        if !ok {
          return;
        }
        PrefixedTwice(done, [d], SampleFrom(a, draws, batch.chosen, bs - (i + 1), left));
        done := done + [d];
        i := i + 1;
      }
      assert done + [] == done;
      assert batch.contextIndexes[..bs] == batch.contextIndexes;
      assert batch.contextSimilarity[..bs] == batch.contextSimilarity;
      assert batch.losses[..bs] == batch.losses;
      return true;
    }

    /** One pass of the sampling loop: the do-while for slot i, then the slot's bookkeeping. */
    method FillSlot(i: nat, ghost s: Sampler, ghost a: nat -> Drawn, ghost done: seq<Drawn>, left: nat)
      returns (ok: bool, rest: nat, ghost d: Drawn)
      requires Valid() && i < bs && |done| == i && Filled(done)
      requires s == SamplerFor(batch.targetIndex, batch.targetVector, progress) && Streams(s, a)
      modifies this`draws, batch`chosen, batch`maxSimIndex, batch`maxSimValue
      modifies batch`contextIndexes, batch`contextSimilarity, batch`losses
      ensures Valid()
      ensures !ok ==> SampleFrom(a, old(draws), old(batch.chosen), bs - i, left) == None
      ensures ok ==>
        && SampleFrom(a, old(draws), old(batch.chosen), bs - i, left) ==
             Prefixed([d], SampleFrom(a, draws, batch.chosen, bs - (i + 1), rest))
        && Filled(done + [d])
    {
      var t := batch.targetIndex;
      d := a(draws);
      var index, features;
      ok, index, features, rest := DrawUntilFresh(i, s, a, bs - i, left);
      if !ok {
        return;
      }
      d := a(draws - 1);
      ghost var ctx0, sims0, losses0 := batch.contextIndexes, batch.contextSimilarity, batch.losses;
      ghost var maxIdx0, maxValue0, chosen0 := batch.maxSimIndex, batch.maxSimValue, batch.chosen;
      RecordContext(i, index, features, d);
      SlotsStep(geometry, t, done, d, ctx0, sims0, losses0, maxIdx0, maxValue0, chosen0,
                batch.maxSimIndex, batch.maxSimValue);
    }

    /**
     * The do-while of slot i: draw until the index is not in chosen, with
     * at most `left` draws; `rest` is what remains of them.
     */
    method DrawUntilFresh(i: nat, ghost s: Sampler, ghost a: nat -> Drawn, n: nat, left: nat)
      returns (ok: bool, index: int, features: seq<real>, rest: nat)
      requires Valid() && i < bs && n >= 1
      requires s == SamplerFor(batch.targetIndex, batch.targetVector, progress) && Streams(s, a)
      modifies this`draws, batch`contextSimilarity
      ensures Valid()
      ensures !ok ==> SampleFrom(a, old(draws), batch.chosen, n, left) == None
      ensures ok ==>
        && draws > old(draws)
        && var d := a(draws - 1);
        && index == d.index && index !in batch.chosen
        && SampleFrom(a, old(draws), batch.chosen, n, left) ==
             Prefixed([d], SampleFrom(a, draws, batch.chosen + {index}, n - 1, rest))
        && (source.FromVecBinder? ==> numerics.dot(batch.targetVector, features) == d.similarity)
        && (source.FromSimilarity? ==> batch.contextSimilarity[i] == d.similarity)
      ensures batch.contextSimilarity[..i] == old(batch.contextSimilarity)[..i]
    {
      ghost var spec := SampleFrom(a, draws, batch.chosen, n, left);
      rest := left;
      index, features := 0, [];
      var accepted := false;
      while !accepted
        invariant Valid()
        invariant draws >= old(draws) && (accepted ==> draws > old(draws))
        invariant !accepted ==> spec == SampleFrom(a, draws, batch.chosen, n, rest)
        invariant accepted ==>
          && var d := a(draws - 1);
          && index == d.index && index !in batch.chosen
          && spec == Prefixed([d], SampleFrom(a, draws, batch.chosen + {index}, n - 1, rest))
          && (source.FromVecBinder? ==> numerics.dot(batch.targetVector, features) == d.similarity)
          && (source.FromSimilarity? ==> batch.contextSimilarity[i] == d.similarity)
        invariant batch.contextSimilarity[..i] == old(batch.contextSimilarity)[..i]
        decreases rest
      {
        if rest == 0 {
          return false, index, features, rest;
        }
        rest := rest - 1;
        index, features := DrawOnce(i, s, a);
        accepted := index !in batch.chosen;
      }
      ok := true;
    }

    /**
     * One pass of the do-while body at the current tick: negative or close
     * by the annealed ratio; in similarity mode contextSimilarity[i] is
     * overwritten by the draw's similarity, whether or not it is accepted.
     */
    method DrawOnce(i: nat, ghost s: Sampler, ghost a: nat -> Drawn) returns (index: int, features: seq<real>)
      requires Valid() && i < bs
      requires s == SamplerFor(batch.targetIndex, batch.targetVector, progress) && Streams(s, a)
      modifies this`draws, batch`contextSimilarity
      ensures Valid() && draws == old(draws) + 1
      ensures index == a(old(draws)).index
      ensures source.FromVecBinder? ==>
        numerics.dot(batch.targetVector, features) == a(old(draws)).similarity &&
        batch.contextSimilarity == old(batch.contextSimilarity)
      ensures source.FromSimilarity? ==>
        batch.contextSimilarity == old(batch.contextSimilarity)[i := a(old(draws)).similarity]
    {
      assert a(draws) == s.Attempt(draws);
      var t := batch.targetIndex;
      features := [];
      var negative := Exceeds(uniform(draws), PositiveRatio(ratioNeighbors, maxRatioValue, progress, totaliter));
      match source {
        case FromVecBinder(binder) =>
          var pair := if negative then binder.randomVector(draws)
                      else binder.randomCloseVector(draws, batch.targetVector, Neighborhood);
          index, features := pair.index, pair.features;
        case FromSimilarity(sims) =>
          if negative {
            index := sims.randomIndex(draws);
            batch.contextSimilarity := batch.contextSimilarity[i := sims.similarity(t, index)];
          } else {
            var (close, similarity) := sims.closeSimilarity(draws, t);
            index := close;
            batch.contextSimilarity := batch.contextSimilarity[i := similarity];
          }
      }
      draws := draws + 1;
    }

    /** What follows the do-while: chosen, the slot's index and similarity, the running maximum, the distance. */
    method RecordContext(i: nat, index: int, features: seq<real>, ghost d: Drawn)
      requires Valid() && i < bs && d.index == index
      requires source.FromVecBinder? ==> numerics.dot(batch.targetVector, features) == d.similarity
      requires source.FromSimilarity? ==> batch.contextSimilarity[i] == d.similarity
      modifies batch`chosen, batch`maxSimIndex, batch`maxSimValue
      modifies batch`contextIndexes, batch`contextSimilarity, batch`losses
      ensures Valid() && batch.chosen == old(batch.chosen) + {index}
      ensures batch.contextIndexes == old(batch.contextIndexes)[i := index]
      ensures batch.contextSimilarity == old(batch.contextSimilarity)[i := d.similarity]
      ensures batch.losses == old(batch.losses)[i := geometry.dist(batch.targetIndex, index)]
      ensures MaxSim(batch.maxSimIndex, batch.maxSimValue) ==
        if d.similarity > old(batch.maxSimValue) then MaxSim(i, d.similarity)
        else MaxSim(old(batch.maxSimIndex), old(batch.maxSimValue))
    {
      batch.chosen := batch.chosen + {index};
      batch.contextIndexes := batch.contextIndexes[i := index];
      if source.FromVecBinder? {
        batch.contextSimilarity := batch.contextSimilarity[i := numerics.dot(batch.targetVector, features)];
      }
      if batch.contextSimilarity[i] > batch.maxSimValue {
        batch.maxSimIndex := i;
        batch.maxSimValue := batch.contextSimilarity[i];
      }
      batch.losses := batch.losses[i := geometry.dist(batch.targetIndex, batch.contextIndexes[i])];
    }

    /**
     * The loss loop: per element, the coefficient, the (target, context)
     * accumulator pair fetched with grads->at, the diffDist call, the
     * clearing of chosen and the loss term. `thrown` reports the
     * std::out_of_range of grads->at, which leaves the earlier elements applied.
     */
    method AccumulateGradients() returns (thrown: bool)
      requires Valid() && batch.niter == bs && batch.loss == 0.0
      requires NegativesWeighted(bs, batch.maxSimIndex, bs)
      modifies batch`grads, batch`loss, batch`chosen
      ensures Accumulated(old(batch.grads), old(batch.chosen), thrown)
    {
      var t, maxIdx, ctx, d := batch.targetIndex, batch.maxSimIndex, batch.contextIndexes, batch.losses;
      ghost var g0 := batch.grads;
      ghost var cs := DiffCalls(numerics, bs, maxIdx, t, ctx, d);
      ghost var p := AddressablePrefix(cs, |g0|);
      var i := 0;
      while i < batch.niter
        invariant 0 <= i <= p && NegativesWeighted(bs, maxIdx, i)
        invariant batch.loss == BatchLoss(numerics, bs, maxIdx, d, i)
        invariant batch.grads == Accumulate(geometry, g0, cs, i)
        invariant batch.chosen == if i >= 1 then {} else old(batch.chosen)
      {
        var c := ctx[i];
        LossLoopStep(numerics, geometry, bs, maxIdx, t, ctx, d, g0, i);
        if !(0 <= t < |batch.grads| && 0 <= c < |batch.grads|) {
          LossLoopEnds(numerics, geometry, bs, maxIdx, t, ctx, d, g0, old(batch.chosen), i);
          return true;
        }
        ApplyElement(g0, i);
        i := i + 1;
      }
      LossLoopEnds(numerics, geometry, bs, maxIdx, t, ctx, d, g0, old(batch.chosen), i);
      return false;
    }

    /**
     * One pass of the loss loop once grads->at has found both accumulators:
     * the diffDist call with element i's coefficient, the clearing of
     * chosen and element i's loss term.
     */
    method ApplyElement(ghost g0: seq<Accumulator>, i: nat)
      requires Valid() && NegativesWeighted(bs, batch.maxSimIndex, bs)
      requires i < AddressablePrefix(DiffCalls(numerics, bs, batch.maxSimIndex, batch.targetIndex,
                                               batch.contextIndexes, batch.losses), |g0|)
      requires batch.grads == Accumulate(geometry, g0, DiffCalls(numerics, bs, batch.maxSimIndex, batch.targetIndex,
                                                                  batch.contextIndexes, batch.losses), i)
      requires batch.loss == BatchLoss(numerics, bs, batch.maxSimIndex, batch.losses, i)
      modifies batch`grads, batch`loss, batch`chosen
      ensures batch.grads == Accumulate(geometry, g0, DiffCalls(numerics, bs, batch.maxSimIndex, batch.targetIndex,
                                                                 batch.contextIndexes, batch.losses), i + 1)
      ensures batch.loss == BatchLoss(numerics, bs, batch.maxSimIndex, batch.losses, i + 1)
      ensures batch.chosen == {}
    {
      var t, maxIdx, c, d := batch.targetIndex, batch.maxSimIndex, batch.contextIndexes[i], batch.losses;
      LossLoopStep(numerics, geometry, bs, maxIdx, t, batch.contextIndexes, d, g0, i);
      // the derivative of neglogexp (positive) or logexp (negative), shared over the negatives
      var coef := Coefficient(numerics, bs, maxIdx, i, d[i]);
      var (gt, gc) := geometry.diffDist(t, c, batch.grads[t], batch.grads[c], coef);
      batch.grads := batch.grads[t := gt][c := gc];
      batch.chosen := {};
      batch.loss := batch.loss + Term(numerics, bs, maxIdx, i, d[i]);
    }
  }

  /**
   * The vocabulary-mode constructor: the ratio order is asserted first,
   * targetVector is a zero vector of the binder's dimension, niter is bs.
   */
  method NewWithVecBinder(binder: VecBinder, vocSize: nat, dim: nat, geometry: Geometry, numerics: Numerics,
                          uniform: nat -> real, nloop: int, args: Args)
    returns (r: Result<BatchMaker, ConfigError>)
    ensures r.Failure? <==> args.maxposthres < args.posthres || (args.format.Unrecognised? && vocSize > 0)
    ensures r.Failure? ==> r.error == if args.maxposthres < args.posthres then RatioOrder else UnimplementedSpace
    ensures r.Success? ==>
      var m := r.value;
      && fresh(m) && fresh(m.batch) && m.Valid()
      && m.source == FromVecBinder(binder) && m.bs == args.bs && m.progress == 0
      && m.geometry == geometry && m.numerics == numerics && m.uniform == uniform && m.draws == 0
      && m.totaliter == nloop * args.sampling
      && m.ratioNeighbors == args.posthres && m.maxRatioValue == args.maxposthres
      && m.maxRatioValue >= m.ratioNeighbors
      && m.batch.targetIndex == -1
      && m.batch.targetVector == Zeros(binder.dimension) && m.batch.niter == args.bs
      && |m.batch.grads| == vocSize
      && (forall i :: 0 <= i < vocSize ==>
            m.batch.grads[i] == FreshAccumulator(args.format, args.pmf, args.celerity, dim, geometry))
      && m.batch.contextIndexes == seq(args.bs, _ => -1)
      && m.batch.contextSimilarity == Zeros(args.bs) && m.batch.losses == Zeros(args.bs)
      && m.batch.maxSimIndex == 0 && m.batch.maxSimValue == MinSimilarity && m.batch.loss == 0.0
      && m.batch.chosen == {}
  {
    if args.maxposthres < args.posthres {
      return Failure(RatioOrder);
    }
    var grads := AllocateGrads(args.format, vocSize, dim, args.pmf, args.celerity, geometry);
    if grads.None? {
      return Failure(UnimplementedSpace);
    }
    var m := new BatchMaker(FromVecBinder(binder), geometry, numerics, uniform, nloop, args,
                            Zeros(binder.dimension), grads.value);
    m.batch.niter := args.bs;
    return Success(m);
  }

  /**
   * The similarity-mode constructor: no ratio check, an empty targetVector,
   * and niter left unset until the first iterNextBatch.
   */
  method NewWithSimilarity(sims: Similarity, vocSize: nat, dim: nat, geometry: Geometry, numerics: Numerics,
                           uniform: nat -> real, nloop: int, args: Args)
    returns (r: Result<BatchMaker, ConfigError>)
    ensures r.Failure? <==> args.format.Unrecognised? && vocSize > 0
    ensures r.Failure? ==> r.error == UnimplementedSpace
    ensures r.Success? ==>
      var m := r.value;
      && fresh(m) && fresh(m.batch) && m.Valid()
      && m.source == FromSimilarity(sims) && m.bs == args.bs && m.progress == 0
      && m.geometry == geometry && m.numerics == numerics && m.uniform == uniform && m.draws == 0
      && m.totaliter == nloop * args.sampling
      && m.ratioNeighbors == args.posthres && m.maxRatioValue == args.maxposthres
      && m.batch.targetIndex == -1
      && m.batch.targetVector == []
      && |m.batch.grads| == vocSize
      && (forall i :: 0 <= i < vocSize ==>
            m.batch.grads[i] == FreshAccumulator(args.format, args.pmf, args.celerity, dim, geometry))
      && m.batch.contextIndexes == seq(args.bs, _ => -1)
      && m.batch.contextSimilarity == Zeros(args.bs) && m.batch.losses == Zeros(args.bs)
      && m.batch.maxSimIndex == 0 && m.batch.maxSimValue == MinSimilarity && m.batch.loss == 0.0
      && m.batch.chosen == {}
  {
    var grads := AllocateGrads(args.format, vocSize, dim, args.pmf, args.celerity, geometry);
    if grads.None? {
      return Failure(UnimplementedSpace);
    }
    var m := new BatchMaker(FromSimilarity(sims), geometry, numerics, uniform, nloop, args, [], grads.value);
    return Success(m);
  }
}
