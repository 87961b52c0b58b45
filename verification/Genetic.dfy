/**
  * The genetic budget engine. Numbers are reals, `exp` is any positive, strictly increasing function, and the random
  * draws are arguments: what is proved holds for all draws.
  */
module Genetic {
  import opened Options

  const POPULATION_SIZE: nat := 12
  const GENERATIONS: nat := 6
  const BUDGET_MIN := 0.05
  const BUDGET_MAX := 3.0
  const BUDGET_BASELINE := 2.0
  const LOG_LIMIT: nat := 20

  datatype TrafficDna = TrafficDna(threatRatio: real, systemHealth: real, isDdos: bool, isCritical: bool)

  ghost predicate LikeExp(exp: real -> real) {
    (forall x :: exp(x) > 0.0) && forall x, y :: x < y ==> exp(x) < exp(y)
  }

  function Abs(x: real): real {
    if x < 0.0 then -x else x
  }

  function Clamp(x: real): real {
    if x < BUDGET_MIN then BUDGET_MIN else if x > BUDGET_MAX then BUDGET_MAX else x
  }

  /******* Fitness *******/

  function Fitness(ceiling: real, dna: TrafficDna, exp: real -> real): real {
    var score :=
      if dna.isDdos then
        100.0 * exp(-5.0 * (ceiling - BUDGET_MIN)) * (if ceiling > 0.5 then 0.1 else 1.0)
      else if dna.isCritical then
        100.0 * exp(-3.0 * Abs(ceiling - 2.5)) * (if ceiling < BUDGET_BASELINE then 0.4 else 1.0)
      else
        100.0 * exp(-4.0 * ((ceiling - BUDGET_BASELINE) * (ceiling - BUDGET_BASELINE)))
        - dna.threatRatio * 40.0 + dna.systemHealth * 15.0;
    if score < 0.0 then 0.0 else score
  }

  /** Under a DDoS pattern a ceiling is fitter exactly when it is lower. */
  lemma DdosPrefersLower(a: real, b: real, dna: TrafficDna, exp: real -> real)
    requires LikeExp(exp) && dna.isDdos
    ensures Fitness(a, dna, exp) > Fitness(b, dna, exp) <==> a < b
  {
    var x, y := -5.0 * (a - BUDGET_MIN), -5.0 * (b - BUDGET_MIN);
    assert exp(x) > 0.0 && exp(y) > 0.0;
    assert x < y ==> exp(x) < exp(y);
    assert y < x ==> exp(y) < exp(x);
  }

  /** Under a critical load nothing is fitter than 2.50, and otherwise nothing is fitter than the baseline. */
  lemma PeakFitness(c: real, dna: TrafficDna, exp: real -> real)
    requires LikeExp(exp) && !dna.isDdos
    ensures Fitness(c, dna, exp) <= Fitness(if dna.isCritical then 2.5 else BUDGET_BASELINE, dna, exp)
  {
    var x := -3.0 * Abs(c - 2.5);
    var y := -4.0 * ((c - BUDGET_BASELINE) * (c - BUDGET_BASELINE));
    assert (c - BUDGET_BASELINE) * (c - BUDGET_BASELINE) >= 0.0;
    assert -3.0 * Abs(2.5 - 2.5) == 0.0;
    assert -4.0 * ((BUDGET_BASELINE - BUDGET_BASELINE) * (BUDGET_BASELINE - BUDGET_BASELINE)) == 0.0;
    assert exp(x) > 0.0 && exp(y) > 0.0;
    assert x < 0.0 ==> exp(x) < exp(0.0);
    assert y < 0.0 ==> exp(y) < exp(0.0);
  }

  /** The bounds cut the score off only in normal traffic; elsewhere it falls off from the lowest ceiling, or around 2.50. */
  lemma FitnessIs(c: real, dna: TrafficDna, exp: real -> real)
    requires LikeExp(exp)
    ensures dna.isDdos && c <= 0.5 ==> Fitness(c, dna, exp) == 100.0 * exp(-5.0 * (c - 0.05))
    ensures dna.isDdos && c > 0.5 ==> Fitness(c, dna, exp) == 10.0 * exp(-5.0 * (c - 0.05))
    ensures !dna.isDdos && dna.isCritical && c < 2.0 ==> Fitness(c, dna, exp) == 40.0 * exp(-3.0 * (2.5 - c))
    ensures !dna.isDdos && dna.isCritical && 2.0 <= c <= 2.5 ==> Fitness(c, dna, exp) == 100.0 * exp(-3.0 * (2.5 - c))
    ensures !dna.isDdos && dna.isCritical && c > 2.5 ==> Fitness(c, dna, exp) == 100.0 * exp(-3.0 * (c - 2.5))
    ensures !dna.isDdos && !dna.isCritical ==>
      var score := 100.0 * exp(-4.0 * ((c - 2.0) * (c - 2.0))) - 40.0 * dna.threatRatio + 15.0 * dna.systemHealth;
      Fitness(c, dna, exp) == if score >= 0.0 then score else 0.0
  {
    assert exp(-5.0 * (c - 0.05)) > 0.0 && exp(-3.0 * (2.5 - c)) > 0.0 && exp(-3.0 * (c - 2.5)) > 0.0;
    assert dna.isCritical ==> -3.0 * Abs(c - 2.5) == if c <= 2.5 then -3.0 * (2.5 - c) else -3.0 * (c - 2.5);
  }

  function Blend(a: real, b: real, alpha: real): real {
    alpha * a + (1.0 - alpha) * b
  }

  /** Blending stays between the parents. */
  lemma BlendIsBetween(a: real, b: real, alpha: real)
    requires 0.0 <= alpha <= 1.0
    ensures a <= b ==> a <= Blend(a, b, alpha) <= b
    ensures b <= a ==> b <= Blend(a, b, alpha) <= a
  {
    assert Blend(a, b, alpha) == b - alpha * (b - a);
    assert Blend(a, b, alpha) == a + (1.0 - alpha) * (b - a);
    if a <= b {
      ProductSign(alpha, b - a);
      ProductSign(1.0 - alpha, b - a);
    } else {
      ProductSign(alpha, a - b);
      ProductSign(1.0 - alpha, a - b);
      assert alpha * (a - b) == -(alpha * (b - a));
      assert (1.0 - alpha) * (a - b) == -((1.0 - alpha) * (b - a));
    }
  }

  lemma ProductSign(x: real, y: real)
    requires x >= 0.0 && y >= 0.0
    ensures x * y >= 0.0
  {
  }

  /******* Genomes *******/

  class BudgetGenome {
    var ceiling: real
    var fitness: real

    constructor (ceiling: real)
      ensures this.ceiling == ceiling && fitness == 0.0
    {
      this.ceiling, fitness := ceiling, 0.0;
    }

    /** Either nothing happens, or the ceiling is shifted by what was drawn, as far as the bounds allow. */
    method Mutate(delta: Option<real>)
      modifies this`ceiling
      ensures ceiling == Mutated(old(ceiling), delta)
      ensures ceiling == old(ceiling) || 0.05 <= ceiling <= 3.0
    {
      if delta.Some? {
        ceiling := Clamp(ceiling + delta.value);
      }
    }
  }

  function Mutated(ceiling: real, delta: Option<real>): real {
    if delta.Some? then Clamp(ceiling + delta.value) else ceiling
  }

  /** What two parents with these fitnesses make: a blend, or the fitter one, within the bounds. */
  function Crossed(a: real, b: real, aIsFitter: bool, alpha: Option<real>): real {
    Clamp(if alpha.Some? then Blend(a, b, alpha.value) else if aIsFitter then a else b)
  }

  /** The child lies between its parents as far as the bounds allow, and always within the bounds. */
  method Crossover(a: BudgetGenome, b: BudgetGenome, alpha: Option<real>) returns (child: BudgetGenome)
    requires alpha.Some? ==> 0.0 <= alpha.value < 1.0
    ensures fresh(child) && child.fitness == 0.0
    ensures child.ceiling == Crossed(a.ceiling, b.ceiling, a.fitness >= b.fitness, alpha)
    ensures 0.05 <= child.ceiling <= 3.0
    ensures a.ceiling <= b.ceiling ==> Clamp(a.ceiling) <= child.ceiling <= Clamp(b.ceiling)
    ensures b.ceiling <= a.ceiling ==> Clamp(b.ceiling) <= child.ceiling <= Clamp(a.ceiling)
  {
    hide Blend;
    var x, y := a.ceiling, b.ceiling;
    var ceiling;
    if alpha.Some? {
      BlendIsBetween(x, y, alpha.value);
      ceiling := Blend(x, y, alpha.value);
    } else {
      ceiling := if a.fitness >= b.fitness then x else y;
    }
    ClampedBetween(x, y, ceiling);
    child := new BudgetGenome(Clamp(ceiling));
  }

  lemma ClampedBetween(x: real, y: real, z: real)
    requires x <= z <= y || y <= z <= x
    ensures BUDGET_MIN <= Clamp(z) <= BUDGET_MAX
    ensures x <= y ==> Clamp(x) <= Clamp(z) <= Clamp(y)
    ensures y <= x ==> Clamp(y) <= Clamp(z) <= Clamp(x)
  {
  }

  /******* Populations *******/

  function Ceilings(population: seq<BudgetGenome>): (c: seq<real>)
    reads population
    ensures |c| == |population|
    ensures forall i :: 0 <= i < |population| ==> c[i] == population[i].ceiling
  {
    seq(|population|, i requires 0 <= i < |population| reads population => population[i].ceiling)
  }

  /** At least as fit as every ceiling of the list. */
  predicate Fittest(best: real, ceilings: seq<real>, dna: TrafficDna, exp: real -> real) {
    forall i :: 0 <= i < |ceilings| ==> Fitness(best, dna, exp) >= Fitness(ceilings[i], dna, exp)
  }

  /** Fitter first. */
  predicate Ranked(population: seq<BudgetGenome>)
    reads population
  {
    forall i, j :: 0 <= i < j < |population| ==> population[i].fitness >= population[j].fitness
  }

  /** Puts a genome behind all that are at least as fit. */
  method Insert(ranked: seq<BudgetGenome>, genome: BudgetGenome) returns (r: seq<BudgetGenome>)
    requires Ranked(ranked)
    ensures Ranked(r) && multiset(r) == multiset(ranked) + multiset{genome}
    ensures multiset(Ceilings(r)) == multiset(Ceilings(ranked)) + multiset{genome.ceiling}
  {
    var i := 0;
    while i < |ranked| && ranked[i].fitness >= genome.fitness
      invariant i <= |ranked|
      invariant forall j :: 0 <= j < i ==> ranked[j].fitness >= genome.fitness
    {
      i := i + 1;
    }
    r := Inserted(ranked, i, genome);
    InsertedMultiset(ranked, i, genome);
    InsertedCeilings(ranked, i, genome);
    InsertedRanked(ranked, i, genome);
  }

  function Inserted<T>(items: seq<T>, i: nat, x: T): seq<T>
    requires i <= |items|
  {
    items[..i] + [x] + items[i..]
  }

  lemma InsertedMultiset<T>(items: seq<T>, i: nat, x: T)
    requires i <= |items|
    ensures multiset(Inserted(items, i, x)) == multiset(items) + multiset{x}
  {
    assert items == items[..i] + items[i..];
  }

  lemma InsertedCeilings(ranked: seq<BudgetGenome>, i: nat, genome: BudgetGenome)
    requires i <= |ranked|
    ensures multiset(Ceilings(Inserted(ranked, i, genome))) == multiset(Ceilings(ranked)) + multiset{genome.ceiling}
  {
    CeilingsInserted(ranked, i, genome);
    hide Inserted, Ceilings;
    InsertedMultiset(Ceilings(ranked), i, genome.ceiling);
  }

  lemma CeilingsInserted(ranked: seq<BudgetGenome>, i: nat, genome: BudgetGenome)
    requires i <= |ranked|
    ensures Ceilings(Inserted(ranked, i, genome)) == Inserted(Ceilings(ranked), i, genome.ceiling)
  {
  }

  lemma InsertedRanked(ranked: seq<BudgetGenome>, i: nat, genome: BudgetGenome)
    requires i <= |ranked| && Ranked(ranked)
    requires forall j :: 0 <= j < i ==> ranked[j].fitness >= genome.fitness
    requires i < |ranked| ==> ranked[i].fitness < genome.fitness
    ensures Ranked(Inserted(ranked, i, genome))
  {
    forall j | i <= j < |ranked| ensures genome.fitness >= ranked[j].fitness {
      assert ranked[i].fitness >= ranked[j].fitness;
    }
  }

  lemma EmptyRanked()
    ensures Ranked([]) && Ceilings([]) == []
  {
  }

  lemma OneMoreGenome(population: seq<BudgetGenome>, i: nat)
    requires i < |population|
    ensures multiset(population[..i + 1]) == multiset(population[..i]) + multiset{population[i]}
    ensures multiset(Ceilings(population[..i + 1])) == multiset(Ceilings(population[..i])) + multiset{population[i].ceiling}
  {
    assert population[..i + 1] == population[..i] + [population[i]];
    assert Ceilings(population[..i + 1]) == Ceilings(population[..i]) + [population[i].ceiling];
  }

  method SortByFitness(population: seq<BudgetGenome>) returns (r: seq<BudgetGenome>)
    ensures Ranked(r) && multiset(r) == multiset(population) && multiset(Ceilings(r)) == multiset(Ceilings(population))
  {
    hide Ceilings, Ranked;
    r := [];
    EmptyRanked();
    for i := 0 to |population|
      invariant Ranked(r) && multiset(r) == multiset(population[..i])
      invariant multiset(Ceilings(r)) == multiset(Ceilings(population[..i]))
    {
      OneMoreGenome(population, i);
      r := Insert(r, population[i]);
    }
    assert population[..|population|] == population;
  }

  /******* The engine *******/

  /** The nearest whole number, halves to even. */
  function Nearest(x: real): (n: int)
    ensures -0.5 <= n as real - x <= 0.5
    ensures n as real - x == 0.5 || n as real - x == -0.5 ==> n % 2 == 0
  {
    var down := x.Floor;
    var part := x - down as real;
    if part < 0.5 || (part == 0.5 && down % 2 == 0) then down else down + 1
  }

  /** To four decimals. */
  function Round4(x: real): (r: real)
    ensures -0.00005 <= r - x <= 0.00005
  {
    Nearest(x * 10000.0) as real / 10000.0
  }

  /** Halves of the last decimal go to the even neighbour. */
  lemma RoundIsNearest(x: real) returns (n: int)
    ensures Round4(x) == n as real / 10000.0
    ensures Round4(x) - x == 0.00005 || Round4(x) - x == -0.00005 ==> n % 2 == 0
  {
    n := Nearest(x * 10000.0);
    hide Nearest;
    assert Round4(x) * 10000.0 == n as real;
  }

  /** The draws for one child: two pairs of candidates, whether and how its parents are blended, and its mutation. */
  datatype BreedDraw = BreedDraw(first: (nat, nat), second: (nat, nat), alpha: Option<real>, delta: Option<real>)

  predicate IsPair(pair: (nat, nat)) {
    pair.0 < POPULATION_SIZE && pair.1 < POPULATION_SIZE && pair.0 != pair.1
  }

  predicate IsBreedDraw(d: BreedDraw) {
    IsPair(d.first) && IsPair(d.second) && (d.alpha.Some? ==> 0.0 <= d.alpha.value < 1.0)
  }

  predicate AreBreedDraws(draws: seq<BreedDraw>) {
    |draws| == POPULATION_SIZE - 2 && forall i :: 0 <= i < |draws| ==> IsBreedDraw(draws[i])
  }

  /** The fitter of two candidates. */
  function Winner(ranking: seq<real>, pair: (nat, nat), dna: TrafficDna, exp: real -> real): real
    requires |ranking| == POPULATION_SIZE && IsPair(pair)
  {
    if Fitness(ranking[pair.0], dna, exp) >= Fitness(ranking[pair.1], dna, exp) then ranking[pair.0] else ranking[pair.1]
  }

  function ChildCeiling(ranking: seq<real>, d: BreedDraw, dna: TrafficDna, exp: real -> real): real
    requires |ranking| == POPULATION_SIZE && IsBreedDraw(d)
  {
    var a, b := Winner(ranking, d.first, dna, exp), Winner(ranking, d.second, dna, exp);
    Mutated(Crossed(a, b, Fitness(a, dna, exp) >= Fitness(b, dna, exp), d.alpha), d.delta)
  }

  /** The ceilings of a population, fittest first. */
  predicate IsRanking(ranking: seq<real>, ceilings: seq<real>, dna: TrafficDna, exp: real -> real) {
    multiset(ranking) == multiset(ceilings) &&
    forall i, j :: 0 <= i < j < |ranking| ==> Fitness(ranking[i], dna, exp) >= Fitness(ranking[j], dna, exp)
  }

  /** The next generation: the first two of a ranking, and a child for each draw. */
  predicate NextGeneration(ranking: seq<real>, draws: seq<BreedDraw>, after: seq<real>, dna: TrafficDna, exp: real -> real)
    requires |ranking| == POPULATION_SIZE && AreBreedDraws(draws)
  {
    |after| == POPULATION_SIZE && after[0] == ranking[0] && after[1] == ranking[1] &&
    forall i :: 2 <= i < POPULATION_SIZE ==> after[i] == ChildCeiling(ranking, draws[i - 2], dna, exp)
  }

  /** What one generation makes of a population with the ceilings `before`. */
  predicate Evolved(before: seq<real>, after: seq<real>, dna: TrafficDna, exp: real -> real) {
    |after| == 12 && after[0] in before && after[1] in before && Fittest(after[0], before, dna, exp) &&
    forall i :: 2 <= i < |after| ==> 0.05 <= after[i] <= 3.0
  }

  lemma ChildInRange(ranking: seq<real>, d: BreedDraw, dna: TrafficDna, exp: real -> real)
    requires |ranking| == POPULATION_SIZE && IsBreedDraw(d)
    ensures 0.05 <= ChildCeiling(ranking, d, dna, exp) <= 3.0
  {
    hide Fitness, Blend;
  }

  /** A child's parents each won their pair; unless it is a blend it is the fitter of them; a mutation shifts it. */
  lemma ChildIs(ranking: seq<real>, d: BreedDraw, dna: TrafficDna, exp: real -> real) returns (a: real, b: real, bred: real)
    requires |ranking| == 12 && IsBreedDraw(d)
    ensures a in {ranking[d.first.0], ranking[d.first.1]} && b in {ranking[d.second.0], ranking[d.second.1]}
    ensures Fitness(a, dna, exp) >= Fitness(ranking[d.first.0], dna, exp) && Fitness(a, dna, exp) >= Fitness(ranking[d.first.1], dna, exp)
    ensures Fitness(b, dna, exp) >= Fitness(ranking[d.second.0], dna, exp) && Fitness(b, dna, exp) >= Fitness(ranking[d.second.1], dna, exp)
    ensures d.alpha.Some? ==> bred == d.alpha.value * a + (1.0 - d.alpha.value) * b
    ensures d.alpha.None? ==> bred == if Fitness(a, dna, exp) >= Fitness(b, dna, exp) then a else b
    ensures ChildCeiling(ranking, d, dna, exp) == if d.delta.Some? then Bounded(Bounded(bred) + d.delta.value) else Bounded(bred)
  {
    hide Fitness, Crossed, Mutated, Bounded, Blend;
    a, b := Winner(ranking, d.first, dna, exp), Winner(ranking, d.second, dna, exp);
    var aIsFitter := Fitness(a, dna, exp) >= Fitness(b, dna, exp);
    bred := CrossedIs(a, b, aIsFitter, d.alpha);
    MutatedIs(Crossed(a, b, aIsFitter, d.alpha), d.delta);
    assert ChildCeiling(ranking, d, dna, exp) == Mutated(Crossed(a, b, aIsFitter, d.alpha), d.delta);
  }

  lemma CrossedIs(a: real, b: real, aIsFitter: bool, alpha: Option<real>) returns (bred: real)
    ensures alpha.Some? ==> bred == alpha.value * a + (1.0 - alpha.value) * b
    ensures alpha.None? ==> bred == if aIsFitter then a else b
    ensures Crossed(a, b, aIsFitter, alpha) == Bounded(bred)
  {
    bred := if alpha.Some? then Blend(a, b, alpha.value) else if aIsFitter then a else b;
  }

  lemma MutatedIs(child: real, delta: Option<real>)
    ensures Mutated(child, delta) == if delta.Some? then Bounded(child + delta.value) else child
  {
  }

  function Bounded(x: real): (r: real)
    ensures 0.05 <= r <= 3.0 && (0.05 <= x <= 3.0 ==> r == x) && (x < 0.05 ==> r == 0.05) && (x > 3.0 ==> r == 3.0)
  {
    Clamp(x)
  }

  lemma GenerationEvolves(before: seq<real>, ranking: seq<real>, draws: seq<BreedDraw>, after: seq<real>,
                          dna: TrafficDna, exp: real -> real)
    requires |ranking| == POPULATION_SIZE && AreBreedDraws(draws)
    requires IsRanking(ranking, before, dna, exp) && NextGeneration(ranking, draws, after, dna, exp)
    ensures Evolved(before, after, dna, exp)
  {
    hide Fitness, ChildCeiling;
    assert ranking[0] in multiset(ranking) && ranking[1] in multiset(ranking);
    forall i | 0 <= i < |before| ensures Fitness(ranking[0], dna, exp) >= Fitness(before[i], dna, exp) {
      assert before[i] in multiset(before);
      assert before[i] in ranking;
    }
    forall i | 2 <= i < POPULATION_SIZE ensures 0.05 <= after[i] <= 3.0 { ChildInRange(ranking, draws[i - 2], dna, exp); }
  }

  lemma RangeIsKept(before: seq<real>, after: seq<real>, dna: TrafficDna, exp: real -> real)
    requires Evolved(before, after, dna, exp) && AllInRange(before)
    ensures AllInRange(after)
  {
  }

  predicate AllInRange(ceilings: seq<real>) {
    forall i :: 0 <= i < |ceilings| ==> 0.05 <= ceilings[i] <= 3.0
  }

  /** Being the fittest carries over from one generation to the next. */
  lemma FittestCarriesOver(start: seq<real>, before: seq<real>, after: seq<real>, dna: TrafficDna, exp: real -> real)
    requires Evolved(before, after, dna, exp) && before != [] && Fittest(before[0], start, dna, exp)
    ensures Fittest(after[0], start, dna, exp)
  {
    hide Fitness;
  }

  /** Under a DDoS pattern the fittest ceiling is no greater than any other. */
  lemma FittestIsLowest(best: real, ceilings: seq<real>, dna: TrafficDna, exp: real -> real)
    requires LikeExp(exp) && dna.isDdos
    ensures Fittest(best, ceilings, dna, exp) <==> forall i :: 0 <= i < |ceilings| ==> best <= ceilings[i]
  {
    hide Fitness, LikeExp;
    forall i | 0 <= i < |ceilings| ensures Fitness(best, dna, exp) >= Fitness(ceilings[i], dna, exp) <==> best <= ceilings[i] {
      DdosPrefersLower(ceilings[i], best, dna, exp);
    }
  }

  method EvaluateAll(population: seq<BudgetGenome>, dna: TrafficDna, exp: real -> real)
    modifies population
    ensures forall g :: g in population ==> g.ceiling == old(g.ceiling) && g.fitness == Fitness(g.ceiling, dna, exp)
  {
    hide Fitness;
    for i := 0 to |population|
      invariant forall g :: g in population ==> g.ceiling == old(g.ceiling)
      invariant forall j :: 0 <= j < i ==> population[j].fitness == Fitness(population[j].ceiling, dna, exp)
    {
      population[i].fitness := Fitness(population[i].ceiling, dna, exp);
    }
  }

  /** A ranked list gives a ranking of the ceilings of any permutation of it. */
  lemma RankedCeilings(ranked: seq<BudgetGenome>, population: seq<BudgetGenome>, dna: TrafficDna, exp: real -> real)
    requires Ranked(ranked) && multiset(ranked) == multiset(population)
    requires multiset(Ceilings(ranked)) == multiset(Ceilings(population))
    requires forall g :: g in population ==> g.fitness == Fitness(g.ceiling, dna, exp)
    ensures |ranked| == |population| && IsRanking(Ceilings(ranked), Ceilings(population), dna, exp)
    ensures forall g :: g in ranked ==> g.fitness == Fitness(g.ceiling, dna, exp)
  {
    hide Fitness, Ceilings;
    assert |multiset(ranked)| == |multiset(population)|;
    forall g | g in ranked ensures g in population {
      assert g in multiset(ranked);
      assert g in multiset(population);
    }
    forall i | 0 <= i < |ranked| ensures ranked[i].fitness == Fitness(Ceilings(ranked)[i], dna, exp) {
      assert ranked[i] in ranked;
    }
  }

  method BreedChild(ranked: seq<BudgetGenome>, draw: BreedDraw, dna: TrafficDna, exp: real -> real) returns (child: BudgetGenome)
    requires |ranked| == POPULATION_SIZE && IsBreedDraw(draw)
    requires forall g :: g in ranked ==> g.fitness == Fitness(g.ceiling, dna, exp)
    ensures fresh(child) && child.ceiling == ChildCeiling(Ceilings(ranked), draw, dna, exp)
  {
    hide Fitness, Ceilings, Crossed, Mutated, Clamp;
    var a := Tournament(ranked, draw.first, dna, exp);
    var b := Tournament(ranked, draw.second, dna, exp);
    child := Crossover(a, b, draw.alpha);
    child.Mutate(draw.delta);
  }

  /** The two kept ceilings, and a child of two tournament winners for each draw, mutated. */
  method Breed(ranked: seq<BudgetGenome>, draws: seq<BreedDraw>, dna: TrafficDna, exp: real -> real) returns (next: seq<BudgetGenome>)
    requires |ranked| == POPULATION_SIZE && AreBreedDraws(draws)
    requires forall g :: g in ranked ==> g.fitness == Fitness(g.ceiling, dna, exp)
    ensures fresh(next) && NextGeneration(Ceilings(ranked), draws, Ceilings(next), dna, exp)
  {
    hide Fitness, Ceilings, ChildCeiling;
    var kept := new BudgetGenome(ranked[0].ceiling);
    var runnerUp := new BudgetGenome(ranked[1].ceiling);
    next := [kept, runnerUp];
    while |next| < POPULATION_SIZE
      invariant 2 <= |next| <= POPULATION_SIZE && fresh(next)
      invariant next[0].ceiling == ranked[0].ceiling && next[1].ceiling == ranked[1].ceiling
      invariant forall i :: 2 <= i < |next| ==> next[i].ceiling == ChildCeiling(Ceilings(ranked), draws[i - 2], dna, exp)
    {
      var child := BreedChild(ranked, draws[|next| - 2], dna, exp);
      next := next + [child];
    }
  }

  const NEAR_BASELINE: nat := POPULATION_SIZE / 3

  function Uniform(low: real, high: real, draw: real): real {
    low + (high - low) * draw
  }

  /** Where a draw puts a seed: around the baseline, without bounds, for the first third, and within the bounds for the rest. */
  function SeedCeiling(draws: seq<real>, i: nat): real
    requires i < |draws|
  {
    if i < NEAR_BASELINE then BUDGET_BASELINE + draws[i] else Uniform(BUDGET_MIN, BUDGET_MAX, draws[i])
  }

  /** Draws for a population: any numbers for the first third, numbers from [0, 1] for the rest. */
  predicate AreDraws(draws: seq<real>) {
    |draws| == POPULATION_SIZE && forall i :: NEAR_BASELINE <= i < POPULATION_SIZE ==> 0.0 <= draws[i] <= 1.0
  }

  method SeedPopulation(draws: seq<real>) returns (population: seq<BudgetGenome>)
    requires AreDraws(draws)
    ensures fresh(population) && |population| == POPULATION_SIZE
    ensures forall i :: 0 <= i < |population| ==> population[i].ceiling == SeedCeiling(draws, i) && population[i].fitness == 0.0
  {
    hide Uniform;
    population := [];
    while |population| < NEAR_BASELINE
      invariant |population| <= NEAR_BASELINE && fresh(population)
      invariant forall i :: 0 <= i < |population| ==> population[i].ceiling == SeedCeiling(draws, i) && population[i].fitness == 0.0
    {
      var genome := new BudgetGenome(BUDGET_BASELINE + draws[|population|]);
      population := population + [genome];
    }
    while |population| < POPULATION_SIZE
      invariant NEAR_BASELINE <= |population| <= POPULATION_SIZE && fresh(population)
      invariant forall i :: 0 <= i < |population| ==> population[i].ceiling == SeedCeiling(draws, i) && population[i].fitness == 0.0
    {
      var genome := new BudgetGenome(Uniform(BUDGET_MIN, BUDGET_MAX, draws[|population|]));
      population := population + [genome];
    }
  }

  /** Four seeds lie around the baseline, eight are spread over the bounds. */
  lemma SeedIs(draws: seq<real>, i: nat)
    requires AreDraws(draws) && i < 12
    ensures i < 4 ==> SeedCeiling(draws, i) == 2.0 + draws[i]
    ensures i >= 4 ==> SeedCeiling(draws, i) == 0.05 + 2.95 * draws[i]
  {
  }

  /** A seeded population lies within the bounds exactly when the unbounded draws stay between -1.95 and 1.00. */
  lemma SeedsInRangeIff(draws: seq<real>)
    requires AreDraws(draws)
    ensures AllInRange(seq(|draws|, i requires 0 <= i < |draws| => SeedCeiling(draws, i))) <==>
      forall i :: 0 <= i < 4 ==> -1.95 <= draws[i] <= 1.0
  {
    var seeds := seq(|draws|, i requires 0 <= i < |draws| => SeedCeiling(draws, i));
    forall i | NEAR_BASELINE <= i < |draws| ensures BUDGET_MIN <= seeds[i] <= BUDGET_MAX {
      ProductSign(BUDGET_MAX - BUDGET_MIN, draws[i]);
      ProductSign(BUDGET_MAX - BUDGET_MIN, 1.0 - draws[i]);
    }
    forall i | 0 <= i < NEAR_BASELINE ensures BUDGET_MIN <= seeds[i] <= BUDGET_MAX <==> -1.95 <= draws[i] <= 1.0 {
      assert seeds[i] == BUDGET_BASELINE + draws[i];
    }
  }

  class Engine {
    var currentCeiling: real
    var generationCount: nat
    var population: seq<BudgetGenome>
    var log: seq<real>

    constructor (draws: seq<real>)
      requires AreDraws(draws)
      ensures currentCeiling == 2.0 && generationCount == 0 && log == []
      ensures fresh(population) && |population| == 12
      ensures forall i :: 0 <= i < |population| ==> population[i].ceiling == SeedCeiling(draws, i)
    {
      currentCeiling, generationCount, log := BUDGET_BASELINE, 0, [];
      new;
      population := SeedPopulation(draws);
    }

    /** One generation: the two fittest are kept, the others are bred from fitter members of random pairs. */
    method Evolve(dna: TrafficDna, exp: real -> real, draws: seq<BreedDraw>) returns (best: real, ghost ranking: seq<real>)
      requires |population| == POPULATION_SIZE && AreBreedDraws(draws)
      modifies this`population, this`generationCount, population
      ensures fresh(population) && |ranking| == POPULATION_SIZE
      ensures IsRanking(ranking, old(Ceilings(population)), dna, exp)
      ensures NextGeneration(ranking, draws, Ceilings(population), dna, exp)
      ensures Evolved(old(Ceilings(population)), Ceilings(population), dna, exp)
      ensures best == Ceilings(population)[0]
      ensures generationCount == old(generationCount) + 1
    {
      hide Fitness, Ceilings, NextGeneration, IsRanking, Evolved;
      ghost var before := Ceilings(population);
      EvaluateAll(population, dna, exp);
      assert Ceilings(population) == before;
      var ranked := SortByFitness(population);
      RankedCeilings(ranked, population, dna, exp);
      ranking := Ceilings(ranked);
      var next := Breed(ranked, draws, dna, exp);
      GenerationEvolves(before, ranking, draws, Ceilings(next), dna, exp);
      population := next;
      generationCount := generationCount + 1;
      SizeOf(ranking, draws, Ceilings(next), dna, exp);
      best := population[0].ceiling;
    }

    /** Six generations; `best` is the evolved ceiling before it is rounded. */
    method Tick(dna: TrafficDna, exp: real -> real, draws: seq<seq<BreedDraw>>) returns (best: real)
      requires |population| == POPULATION_SIZE
      requires |draws| == GENERATIONS && forall i :: 0 <= i < GENERATIONS ==> AreBreedDraws(draws[i])
      modifies this, population
      ensures |population| == POPULATION_SIZE && fresh(population)
      ensures Fittest(best, old(Ceilings(population)), dna, exp)
      ensures best == Ceilings(population)[0]
      ensures AllInRange(old(Ceilings(population))) ==> AllInRange(Ceilings(population))
      ensures currentCeiling == Round4(best)
      ensures generationCount == old(generationCount) + 6
      ensures log == LastEntries(old(log) + [currentCeiling])
    {
      hide Fitness, Ceilings, Round4;
      ghost var start := Ceilings(population);
      ghost var before := start;
      ghost var ranking;
      best, ranking := Evolve(dna, exp, draws[0]);
      if AllInRange(before) { RangeIsKept(before, Ceilings(population), dna, exp); }
      for i := 1 to GENERATIONS
        invariant |population| == POPULATION_SIZE && fresh(population)
        invariant best == Ceilings(population)[0] && Fittest(best, start, dna, exp)
        invariant AllInRange(start) ==> AllInRange(Ceilings(population))
        invariant generationCount == old(generationCount) + i
        invariant log == old(log)
      {
        before := Ceilings(population);
        best, ranking := Evolve(dna, exp, draws[i]);
        FittestCarriesOver(start, before, Ceilings(population), dna, exp);
        if AllInRange(before) { RangeIsKept(before, Ceilings(population), dna, exp); }
      }
      currentCeiling := Round4(best);
      log := log + [currentCeiling];
      if |log| > LOG_LIMIT { log := log[1..]; }
    }
  }

  function LastEntries(entries: seq<real>): (r: seq<real>)
    ensures |entries| <= 20 ==> r == entries
    ensures |entries| == 21 ==> |r| == 20 && forall i :: 0 <= i < 20 ==> r[i] == entries[i + 1]
  {
    if |entries| > LOG_LIMIT then entries[1..] else entries
  }

  lemma SizeOf(ranking: seq<real>, draws: seq<BreedDraw>, after: seq<real>, dna: TrafficDna, exp: real -> real)
    requires |ranking| == POPULATION_SIZE && AreBreedDraws(draws) && NextGeneration(ranking, draws, after, dna, exp)
    ensures |after| == POPULATION_SIZE
  {
  }

  /** The fitter of two different members. */
  method Tournament(population: seq<BudgetGenome>, pair: (nat, nat), dna: TrafficDna, exp: real -> real)
    returns (winner: BudgetGenome)
    requires |population| == POPULATION_SIZE && IsPair(pair)
    requires forall g :: g in population ==> g.fitness == Fitness(g.ceiling, dna, exp)
    ensures winner in population && winner.ceiling == Winner(Ceilings(population), pair, dna, exp)
  {
    hide Fitness, Ceilings;
    var a, b := population[pair.0], population[pair.1];
    assert a in population && b in population;
    winner := if a.fitness >= b.fitness then a else b;
  }
}
