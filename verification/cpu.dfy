/** The CPU record and the attributes derived from its raw fields when the record is built
    (`Cpu.kt`): idle temperature, maximum safe temperature, throttle temperature and the
    general score. */
module CpuData {
  import opened Numeric
  import opened Text
  import opened Tiers

  /** A CPU as the catalog stores it. The last four fields are derived by `NewCpu` unless a
      catalog entry passes them explicitly. Clocks are in GHz, TDP in watts. */
  datatype Cpu = Cpu(
    id: int,
    name: string,
    brand: string,
    socket: string,
    baseClock: real,
    turboClock: real,
    cores: int,
    threads: int,
    tdp: int,
    maxRam: int,
    l1Cache: string,
    l2Cache: string,
    l3Cache: string,
    eccSupported: string,
    multithreadingSupported: string,
    baseTemperature: int,
    maxSafeTemperature: int,
    thermalThrottleTemp: int,
    score: int)

  predicate IsIntel(brand: string) { ContainsIC(brand, "Intel") }
  predicate IsAmd(brand: string) { ContainsIC(brand, "AMD") }

  /** Idle temperature in °C. Brands are matched by case-insensitive containment; the first
      applicable branch gives a constant plus `tdp / k`, and the result is clamped to [30, 50]. */
  function BaseTemp(brand: string, tdp: int, turboClock: real): (t: int)
    ensures 30 <= t <= 50
  {
    var raw :=
      if IsIntel(brand) && tdp > 100 then 38 + TDiv(tdp, 12)
      else if IsIntel(brand) then 32 + TDiv(tdp, 18)
      else if IsAmd(brand) && turboClock > 4.5 then 36 + TDiv(tdp, 15)
      else 30 + TDiv(tdp, 20);
    Clamp(raw, 30, 50)
  }

  function MaxSafeTemp(brand: string): (t: int)
    ensures t == 100 || t == 95 || t == 85
  {
    if IsIntel(brand) then 100 else if IsAmd(brand) then 95 else 85
  }

  function ThrottleTemp(brand: string): (t: int)
    ensures t == 105 || t == 90 || t == 85
  {
    if IsIntel(brand) then 105 else if IsAmd(brand) then 90 else 85
  }

  /** Core-count multiplier of the general score; counts outside 1..16 fall to the top rung. */
  function CoreBonus(cores: int): (b: real)
    ensures 0.6 <= b <= 1.8
    ensures (cores <= 0 || cores >= 17) ==> b == 1.8
  {
    if 1 <= cores <= 2 then 0.6
    else if 3 <= cores <= 4 then 0.8
    else if 5 <= cores <= 6 then 1.0
    else if 7 <= cores <= 8 then 1.2
    else if 9 <= cores <= 12 then 1.4
    else if 13 <= cores <= 16 then 1.6
    else 1.8
  }

  const AmdTiers: Ladder := [
    (Has("Ryzen 9"), 1.8), (Has("Ryzen 7"), 1.4), (Has("Ryzen 5"), 1.1), (Has("Ryzen 3"), 0.9)]

  const IntelTiers: Ladder := [
    (Has("i9"), 1.8), (Has("i7"), 1.4), (Has("i5"), 1.1), (Has("i3"), 0.9)]

  /** Model-tier multiplier of the general score. The brand must be exactly "AMD" or "Intel";
      any other spelling gets the neutral 1.0. */
  function BrandBonus(name: string, brand: string): (b: real)
    ensures 0.9 <= b <= 1.8
    ensures brand != "AMD" && brand != "Intel" ==> b == 1.0
  {
    BonusWithin(name, AmdTiers, 1.0, 0.9, 1.8);
    BonusWithin(name, IntelTiers, 1.0, 0.9, 1.8);
    if brand == "AMD" then Bonus(name, AmdTiers, 1.0)
    else if brand == "Intel" then Bonus(name, IntelTiers, 1.0)
    else 1.0
  }

  /** The clock the general score uses: turbo when positive, otherwise base. */
  function ScoreClock(baseClock: real, turboClock: real): (c: real)
    ensures turboClock > 0.0 ==> c == turboClock
    ensures turboClock <= 0.0 ==> c == baseClock
  {
    if turboClock > 0.0 then turboClock else baseClock
  }

  /** General score: `toInt(toInt(clock * 1000) * coreBonus * brandBonus)`, on the clock
      `ScoreClock` picks. */
  function CpuScore(name: string, brand: string, baseClock: real, turboClock: real, cores: int): (s: int)
    ensures 0.0 <= ScoreClock(baseClock, turboClock) ==> 0 <= s
  {
    ScoreAtClock(name, brand, ScoreClock(baseClock, turboClock), cores)
  }

  /** The general score for a given clock. */
  function ScoreAtClock(name: string, brand: string, clock: real, cores: int): (s: int)
    ensures 0.0 <= clock ==> 0 <= s
  {
    Scale(ToInt(clock * 1000.0), ScoreFactor(name, brand, cores))
  }

  /** The product `coreBonus * brandBonus` applied to the clock score. */
  function ScoreFactor(name: string, brand: string, cores: int): (k: real)
    ensures 0.54 <= k <= 3.24
  {
    var c, b := CoreBonus(cores), BrandBonus(name, brand);
    assert 0.6 * b <= c * b <= 1.8 * b;
    c * b
  }

  /** The four derived fields agree with the derivations from the raw fields. */
  ghost predicate Derived(c: Cpu)
  {
    && c.baseTemperature == BaseTemp(c.brand, c.tdp, c.turboClock)
    && c.maxSafeTemperature == MaxSafeTemp(c.brand)
    && c.thermalThrottleTemp == ThrottleTemp(c.brand)
    && c.score == CpuScore(c.name, c.brand, c.baseClock, c.turboClock, c.cores)
  }

  /** Builds a CPU whose derived fields take their default values. */
  function NewCpu(
    id: int, name: string, brand: string, socket: string,
    baseClock: real, turboClock: real, cores: int, threads: int, tdp: int, maxRam: int,
    l1Cache: string, l2Cache: string, l3Cache: string,
    eccSupported: string, multithreadingSupported: string): (c: Cpu)
    ensures Derived(c)
    ensures c.id == id && c.name == name && c.brand == brand && c.socket == socket
    ensures c.baseClock == baseClock && c.turboClock == turboClock
    ensures c.cores == cores && c.threads == threads && c.tdp == tdp && c.maxRam == maxRam
    ensures c.l1Cache == l1Cache && c.l2Cache == l2Cache && c.l3Cache == l3Cache
    ensures c.eccSupported == eccSupported && c.multithreadingSupported == multithreadingSupported
    ensures 30 <= c.baseTemperature <= 50
  {
    Cpu(id, name, brand, socket, baseClock, turboClock, cores, threads, tdp, maxRam,
        l1Cache, l2Cache, l3Cache, eccSupported, multithreadingSupported,
        BaseTemp(brand, tdp, turboClock), MaxSafeTemp(brand), ThrottleTemp(brand),
        CpuScore(name, brand, baseClock, turboClock, cores))
  }

  /** For a fixed brand and turbo clock, the idle temperature never falls as TDP grows,
      including across the Intel step from `32 + tdp/18` to `38 + tdp/12` above 100 W. */
  lemma {:induction false} BaseTempMonotone(brand: string, tdp1: int, tdp2: int, turboClock: real)
    requires tdp1 <= tdp2
    ensures BaseTemp(brand, tdp1, turboClock) <= BaseTemp(brand, tdp2, turboClock)
  {
    TDivMonotone(tdp1, tdp2, 12);
    TDivMonotone(tdp1, tdp2, 18);
    TDivMonotone(tdp1, tdp2, 15);
    TDivMonotone(tdp1, tdp2, 20);
    if IsIntel(brand) && tdp1 <= 100 < tdp2 {
      TDivMonotone(tdp1, 100, 18);
      TDivMonotone(101, tdp2, 12);
      assert TDiv(100, 18) == 5 && TDiv(101, 12) == 8;
    }
  }

  /** Throttle versus safe limit: Intel throttles 5 °C above its safe limit, an AMD brand
      (not containing "Intel") 5 °C below it, and any other brand at it. */
  lemma CpuThrottleVsMaxSafe(brand: string)
    ensures IsIntel(brand) ==> ThrottleTemp(brand) == MaxSafeTemp(brand) + 5
    ensures !IsIntel(brand) && IsAmd(brand) ==> ThrottleTemp(brand) == MaxSafeTemp(brand) - 5
    ensures !IsIntel(brand) && !IsAmd(brand) ==> ThrottleTemp(brand) == MaxSafeTemp(brand)
  {
  }

  /** The thermal derivations do not see the case of the brand. */
  lemma ThermalsIgnoreBrandCase(b1: string, b2: string, tdp: int, turboClock: real)
    requires SameIgnoringCase(b1, b2)
    ensures BaseTemp(b1, tdp, turboClock) == BaseTemp(b2, tdp, turboClock)
    ensures MaxSafeTemp(b1) == MaxSafeTemp(b2) && ThrottleTemp(b1) == ThrottleTemp(b2)
  {
    ContainsICIgnoresCase(b1, b2, "Intel");
    ContainsICIgnoresCase(b1, b2, "AMD");
  }

  /** "amd" in lower case gets AMD temperatures but the neutral score bonus. */
  lemma LowerCaseAmd(name: string)
    ensures MaxSafeTemp("amd") == 95 && ThrottleTemp("amd") == 90
    ensures BrandBonus(name, "amd") == 1.0
  {
    assert StartsWithIC("amd", "AMD");
    assert !ContainsIC("amd", "Intel");
  }

  /** The core multiplier never falls as the core count grows from one core upward. */
  lemma CoreBonusMonotone(c1: int, c2: int)
    requires 1 <= c1 <= c2
    ensures CoreBonus(c1) <= CoreBonus(c2)
  {
  }

  /** The general score never falls as the clock it uses grows (from zero upward). */
  lemma {:induction false} CpuScoreMonotone(name: string, brand: string, clock1: real, clock2: real, cores: int)
    requires 0.0 < clock1 <= clock2
    ensures CpuScore(name, brand, 0.0, clock1, cores) <= CpuScore(name, brand, 0.0, clock2, cores)
  {
    assert ScoreClock(0.0, clock1) == clock1 && ScoreClock(0.0, clock2) == clock2;
    ToIntMonotone(clock1 * 1000.0, clock2 * 1000.0);
    ScaleMonotone(ToInt(clock1 * 1000.0), ToInt(clock2 * 1000.0), ScoreFactor(name, brand, cores));
  }

  /** The general score reads the turbo clock when it is positive and the base clock otherwise. */
  lemma CpuScoreClockChoice(name: string, brand: string, base1: real, base2: real, turbo: real, cores: int)
    ensures turbo > 0.0 ==> CpuScore(name, brand, base1, turbo, cores) == CpuScore(name, brand, base2, turbo, cores)
    ensures turbo <= 0.0 && base1 > 0.0 ==> CpuScore(name, brand, base1, turbo, cores) == CpuScore(name, brand, 0.0, base1, cores)
  {
    assert turbo > 0.0 ==> ScoreClock(base1, turbo) == ScoreClock(base2, turbo);
    assert turbo <= 0.0 && base1 > 0.0 ==> ScoreClock(base1, turbo) == ScoreClock(0.0, base1);
  }
}
