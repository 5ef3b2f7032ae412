/** The game record and its four requirement scores (`Game.kt`), each the bottleneck
    multiplier times a fixed constant, truncated. */
module GameData {
  import opened Numeric

  /** A game of the catalog. Intensities are on a 0..1 scale. */
  datatype Game = Game(
    id: int,
    name: string,
    genre: string,
    recommendedCpu: string,
    recommendedGpu: string,
    bottleneckMultiplier: real,
    cpuIntensity: real,
    gpuIntensity: real,
    minCpuScore: int,
    recCpuScore: int,
    minGpuScore: int,
    recGpuScore: int)

  const MinCpuBase: real := 15000.0
  const RecCpuBase: real := 25000.0
  const MinGpuBase: real := 8000.0
  const RecGpuBase: real := 15000.0

  /** Requirement score for a base constant: `toInt(base * multiplier)`. */
  function Requirement(base: real, multiplier: real): (r: int)
    requires 0.0 < base
    ensures 0.0 <= multiplier ==> 0 <= r
    ensures multiplier == 1.0 && base <= IntMax as real ==> r as real <= base < r as real + 1.0
  {
    MulNonNegative(base, multiplier);
    ToInt(base * multiplier)
  }

  function MinCpuScore(m: real): int { Requirement(MinCpuBase, m) }
  function RecCpuScore(m: real): int { Requirement(RecCpuBase, m) }
  function MinGpuScore(m: real): int { Requirement(MinGpuBase, m) }
  function RecGpuScore(m: real): int { Requirement(RecGpuBase, m) }

  /** The four requirement fields agree with the multiplier. */
  ghost predicate Derived(g: Game)
  {
    && g.minCpuScore == MinCpuScore(g.bottleneckMultiplier)
    && g.recCpuScore == RecCpuScore(g.bottleneckMultiplier)
    && g.minGpuScore == MinGpuScore(g.bottleneckMultiplier)
    && g.recGpuScore == RecGpuScore(g.bottleneckMultiplier)
  }

  /** Builds a game whose omitted fields take their defaults: multiplier 1.0, both
      intensities 0.7, and the derived requirement scores. */
  function NewGame(
    id: int, name: string, genre: string, recommendedCpu: string, recommendedGpu: string,
    bottleneckMultiplier: real := 1.0, cpuIntensity: real := 0.7, gpuIntensity: real := 0.7): (g: Game)
    ensures Derived(g)
    ensures g.id == id && g.name == name && g.genre == genre
    ensures g.recommendedCpu == recommendedCpu && g.recommendedGpu == recommendedGpu
    ensures g.bottleneckMultiplier == bottleneckMultiplier
    ensures g.cpuIntensity == cpuIntensity && g.gpuIntensity == gpuIntensity
  {
    Game(id, name, genre, recommendedCpu, recommendedGpu, bottleneckMultiplier, cpuIntensity, gpuIntensity,
         MinCpuScore(bottleneckMultiplier), RecCpuScore(bottleneckMultiplier),
         MinGpuScore(bottleneckMultiplier), RecGpuScore(bottleneckMultiplier))
  }

  /** A game built with every default has intensities 0.7 and requirements
      15000 / 25000 / 8000 / 15000. */
  lemma DefaultGame(id: int, name: string, genre: string, cpu: string, gpu: string)
    ensures NewGame(id, name, genre, cpu, gpu).cpuIntensity == 0.7
    ensures NewGame(id, name, genre, cpu, gpu).gpuIntensity == 0.7
    ensures NewGame(id, name, genre, cpu, gpu).bottleneckMultiplier == 1.0
    ensures NewGame(id, name, genre, cpu, gpu).minCpuScore == 15000
    ensures NewGame(id, name, genre, cpu, gpu).recCpuScore == 25000
    ensures NewGame(id, name, genre, cpu, gpu).minGpuScore == 8000
    ensures NewGame(id, name, genre, cpu, gpu).recGpuScore == 15000
  {
    ToIntOfWhole(15000);
    ToIntOfWhole(25000);
    ToIntOfWhole(8000);
  }

  /** Requirements never fall as the multiplier grows. */
  lemma {:induction false} RequirementMonotone(base: real, m1: real, m2: real)
    requires 0.0 < base && m1 <= m2
    ensures Requirement(base, m1) <= Requirement(base, m2)
  {
    assert base * m1 <= base * m2 by {
      assert base * m2 - base * m1 == base * (m2 - m1);
      MulNonNegative(base, m2 - m1);
    }
    ToIntMonotone(base * m1, base * m2);
  }

  /** A larger base constant gives a larger requirement for a non-negative multiplier. */
  lemma {:induction false} RequirementGrowsWithBase(b1: real, b2: real, m: real)
    requires 0.0 < b1 <= b2 && 0.0 <= m
    ensures Requirement(b1, m) <= Requirement(b2, m)
  {
    assert b1 * m <= b2 * m by {
      assert b2 * m - b1 * m == (b2 - b1) * m;
      MulNonNegative(b2 - b1, m);
    }
    ToIntMonotone(b1 * m, b2 * m);
  }

  /** For a non-negative multiplier, minimum is at most recommended, and the GPU
      requirement is at most the CPU one. */
  lemma RequirementOrder(m: real)
    requires 0.0 <= m
    ensures MinCpuScore(m) <= RecCpuScore(m)
    ensures MinGpuScore(m) <= RecGpuScore(m)
    ensures MinGpuScore(m) <= MinCpuScore(m)
    ensures RecGpuScore(m) <= RecCpuScore(m)
  {
    RequirementGrowsWithBase(MinCpuBase, RecCpuBase, m);
    RequirementGrowsWithBase(MinGpuBase, RecGpuBase, m);
    RequirementGrowsWithBase(MinGpuBase, MinCpuBase, m);
    RequirementGrowsWithBase(RecGpuBase, RecCpuBase, m);
  }
}
