/** The GPU record and the attributes derived from its raw fields when the record is built
    (`Gpu.kt`): idle temperature, maximum safe and throttle temperatures, the recommended
    cooler and the general score. Unlike the CPU record, every brand test here is exact
    string equality. */
module GpuData {
  import opened Numeric
  import opened Text
  import opened Tiers

  /** A GPU as the catalog stores it. Clocks are in MHz, memory in GB, TDP in watts. */
  datatype Gpu = Gpu(
    id: int,
    name: string,
    brand: string,
    memory: int,
    baseClock: int,
    turboClock: int,
    effectiveClock: int,
    tdp: int,
    coolingFans: int,
    caseSlots: int,
    baseTemperature: int,
    maxSafeTemperature: int,
    thermalThrottleTemp: int,
    recommendedCooling: string,
    score: int)

  /** Idle temperature in °C: the first applicable branch gives a constant plus `tdp / k`,
      clamped to [30, 45]. */
  function BaseTemp(brand: string, tdp: int, memory: int): (t: int)
    ensures 30 <= t <= 45
    ensures brand != "NVIDIA" && brand != "AMD" ==> t == Clamp(30 + TDiv(tdp, 18), 30, 45)
  {
    var raw :=
      if brand == "NVIDIA" && tdp > 250 then 38 + TDiv(tdp, 15)
      else if brand == "NVIDIA" then 32 + TDiv(tdp, 20)
      else if brand == "AMD" && memory >= 16 then 36 + TDiv(tdp, 12)
      else 30 + TDiv(tdp, 18);
    Clamp(raw, 30, 45)
  }

  function MaxSafeTemp(brand: string): (t: int)
    ensures t == 83 || t == 85 || t == 80
    ensures brand != "NVIDIA" && brand != "AMD" ==> t == 80
  {
    if brand == "NVIDIA" then 83 else if brand == "AMD" then 85 else 80
  }

  function ThrottleTemp(brand: string): (t: int)
    ensures t == 88 || t == 90 || t == 85
    ensures brand != "NVIDIA" && brand != "AMD" ==> t == 85
  {
    if brand == "NVIDIA" then 88 else if brand == "AMD" then 90 else 85
  }

  const WaterCooling := "Water Cooling Recomendado (AIO ou Custom Loop)"
  const TriFanCooling := "Cooler Tri-Fan ou Water Cooling"
  const QualityDualFanCooling := "Cooler Dual-Fan de qualidade"
  const StandardDualFanCooling := "Cooler Dual-Fan padrão"

  /** The recommended cooler. The memory size is a parameter of the derivation but plays no
      part in it. */
  function RecommendedCooling(tdp: int, memory: int): (c: string)
    ensures tdp > 300 <==> c == WaterCooling
    ensures 200 < tdp <= 300 <==> c == TriFanCooling
    ensures 150 < tdp <= 200 <==> c == QualityDualFanCooling
    ensures tdp <= 150 <==> c == StandardDualFanCooling
  {
    if tdp > 300 then WaterCooling
    else if tdp > 200 then TriFanCooling
    else if tdp > 150 then QualityDualFanCooling
    else StandardDualFanCooling
  }

  const NvidiaTiers: Ladder := [
    (Has("RTX 50"), 1.8), (Has("RTX 40"), 1.5), (Has("RTX 30"), 1.2),
    (Has("RTX 20"), 1.0), (Has("GTX 16"), 0.7), (Has("GTX"), 0.6)]

  const AmdTiers: Ladder := [(Has("RX 7"), 1.4), (Has("RX 6"), 1.1), (Has("RX 5"), 0.9)]

  /** Generation multiplier of the general score; brands other than exactly "NVIDIA" and
      "AMD" get the neutral 1.0. */
  function BrandBonus(name: string, brand: string): (b: real)
    ensures 0.6 <= b <= 1.8
    ensures brand != "NVIDIA" && brand != "AMD" ==> b == 1.0
  {
    BonusWithin(name, NvidiaTiers, 1.0, 0.6, 1.8);
    BonusWithin(name, AmdTiers, 1.0, 0.6, 1.8);
    if brand == "NVIDIA" then Bonus(name, NvidiaTiers, 1.0)
    else if brand == "AMD" then Bonus(name, AmdTiers, 1.0)
    else 1.0
  }

  /** Clock-and-memory part of the score: `toInt(effectiveClock * 0.1 + memory * 500)`. */
  function BaseScore(effectiveClock: int, memory: int): (s: int)
    ensures 0 <= effectiveClock && 0 <= memory ==> 0 <= s
  {
    ToInt(effectiveClock as real * 0.1 + (memory * 500) as real)
  }

  /** General score: the base score scaled by the generation multiplier. */
  function GpuScore(name: string, brand: string, effectiveClock: int, memory: int): (s: int)
    ensures 0 <= effectiveClock && 0 <= memory ==> 0 <= s
  {
    Scale(BaseScore(effectiveClock, memory), BrandBonus(name, brand))
  }

  /** The five derived fields agree with the derivations from the raw fields. */
  ghost predicate Derived(g: Gpu)
  {
    && g.baseTemperature == BaseTemp(g.brand, g.tdp, g.memory)
    && g.maxSafeTemperature == MaxSafeTemp(g.brand)
    && g.thermalThrottleTemp == ThrottleTemp(g.brand)
    && g.recommendedCooling == RecommendedCooling(g.tdp, g.memory)
    && g.score == GpuScore(g.name, g.brand, g.effectiveClock, g.memory)
  }

  /** Builds a GPU whose derived fields take their default values. */
  function NewGpu(
    id: int, name: string, brand: string, memory: int,
    baseClock: int, turboClock: int, effectiveClock: int, tdp: int,
    coolingFans: int, caseSlots: int): (g: Gpu)
    ensures Derived(g)
    ensures g.id == id && g.name == name && g.brand == brand && g.memory == memory
    ensures g.baseClock == baseClock && g.turboClock == turboClock && g.effectiveClock == effectiveClock
    ensures g.tdp == tdp && g.coolingFans == coolingFans && g.caseSlots == caseSlots
    ensures 30 <= g.baseTemperature <= 45
    ensures g.maxSafeTemperature < g.thermalThrottleTemp
  {
    Gpu(id, name, brand, memory, baseClock, turboClock, effectiveClock, tdp, coolingFans, caseSlots,
        BaseTemp(brand, tdp, memory), MaxSafeTemp(brand), ThrottleTemp(brand),
        RecommendedCooling(tdp, memory), GpuScore(name, brand, effectiveClock, memory))
  }

  /** Every brand throttles exactly 5 °C above its safe limit. */
  lemma ThrottleAboveMaxSafe(brand: string)
    ensures ThrottleTemp(brand) == MaxSafeTemp(brand) + 5
  {
  }

  /** "nvidia" in lower case is not "NVIDIA": it takes the generic temperatures and the
      neutral score multiplier. */
  lemma LowerCaseNvidia(name: string, tdp: int, memory: int)
    ensures BaseTemp("nvidia", tdp, memory) == Clamp(30 + TDiv(tdp, 18), 30, 45)
    ensures MaxSafeTemp("nvidia") == 80 && ThrottleTemp("nvidia") == 85
    ensures BrandBonus(name, "nvidia") == 1.0
  {
    assert "nvidia" != "NVIDIA" by { assert "nvidia"[0] != "NVIDIA"[0]; }
    assert "nvidia" != "AMD";
  }

  /** The recommended cooler does not depend on the memory size. */
  lemma CoolingIgnoresMemory(tdp: int, memory1: int, memory2: int)
    ensures RecommendedCooling(tdp, memory1) == RecommendedCooling(tdp, memory2)
  {
  }

  /** "GTX 16" is tried before "GTX": a GTX 16 series name that matches no RTX rung gets 0.7. */
  lemma {:induction false} Gtx16BeforeGtx(name: string)
    requires ContainsIC(name, "GTX 16")
    requires !ContainsIC(name, "RTX 50") && !ContainsIC(name, "RTX 40")
    requires !ContainsIC(name, "RTX 30") && !ContainsIC(name, "RTX 20")
    ensures BrandBonus(name, "NVIDIA") == 0.7
  {
    assert Holds(NvidiaTiers[4].0, name);
    assert forall j :: 0 <= j < 4 ==> !Holds(NvidiaTiers[j].0, name);
  }

  /** A concrete GTX 1660 gets 0.7 rather than the plain GTX 0.6. */
  lemma Gtx1660Bonus()
    ensures BrandBonus("GeForce GTX 1660", "NVIDIA") == 0.7
  {
    var n := "GeForce GTX 1660";
    assert StartsWithIC(n[8..], "GTX 16");
    ContainsICSpec(n, "GTX 16");
    NotContainsRtx(n);
    Gtx16BeforeGtx(n);
  }

  /** "GeForce GTX 1660" contains no "RTX". */
  lemma NotContainsRtx(n: string)
    requires n == "GeForce GTX 1660"
    ensures !ContainsIC(n, "RTX 50") && !ContainsIC(n, "RTX 40")
    ensures !ContainsIC(n, "RTX 30") && !ContainsIC(n, "RTX 20")
  {
    assert forall i :: 0 <= i < |n| - 1 ==> !(Lower(n[i]) == 'r' && Lower(n[i + 1]) == 't');
    MissingLeadingPair(n, "RTX 50");
    MissingLeadingPair(n, "RTX 40");
    MissingLeadingPair(n, "RTX 30");
    MissingLeadingPair(n, "RTX 20");
  }

  /** With a non-negative multiplier, the general score never falls as the effective clock
      or the memory grows. */
  lemma {:induction false} GpuScoreMonotone(
    name: string, brand: string, clock1: int, clock2: int, memory1: int, memory2: int)
    requires clock1 <= clock2 && memory1 <= memory2
    ensures GpuScore(name, brand, clock1, memory1) <= GpuScore(name, brand, clock2, memory2)
  {
    ToIntMonotone(clock1 as real * 0.1 + (memory1 * 500) as real, clock2 as real * 0.1 + (memory2 * 500) as real);
    ScaleMonotone(BaseScore(clock1, memory1), BaseScore(clock2, memory2), BrandBonus(name, brand));
  }

  /** For an unrecognised brand the general score is the base score itself. */
  lemma UnknownBrandScore(name: string, brand: string, effectiveClock: int, memory: int)
    requires brand != "NVIDIA" && brand != "AMD"
    ensures GpuScore(name, brand, effectiveClock, memory) == BaseScore(effectiveClock, memory)
  {
    assert BaseScore(effectiveClock, memory) as real * 1.0 == BaseScore(effectiveClock, memory) as real;
  }
}
