/** The gaming engine (`BenchmarkGames.kt`): gaming scores for CPUs and GPUs, the bottleneck
    estimator with its "overkill" exits and severity labels, the load-temperature estimator and
    the throttle-risk steps. */
module BenchmarkGames {
  import opened Numeric
  import opened Text
  import opened Tiers
  import opened Wrappers
  import CpuData
  import GpuData
  import GameData

  type Cpu = CpuData.Cpu
  type Gpu = GpuData.Gpu
  type Game = GameData.Game

  // ---------------------------------------------------------------------------------------
  // Gaming scores

  const SeriesTiers: Ladder := [
    (Has("Ryzen 9"), 1.8), (Has("Ryzen 7"), 1.4), (Has("Ryzen 5"), 1.1), (Has("Ryzen 3"), 0.9),
    (Both(HasCased("G"), Has("Ryzen")), 0.85)]

  const GenerationTiers: Ladder := [
    (Has("9950"), 1.5), (Has("9900"), 1.4), (Has("9800"), 1.3), (Has("5800"), 1.2),
    (Has("5700"), 1.15), (Has("5600"), 1.1), (Has("3600"), 1.0)]

  const CacheTiers: Ladder := [(Has("X3D"), 1.8), (Has("G"), 0.9)]

  lemma MulPositive(a: real, b: real)
    ensures 0.0 < a && 0.0 < b ==> 0.0 < a * b
  {
  }

  /** Series multiplier: Ryzen tiers, then a case-sensitive "G" in a Ryzen name. */
  function SeriesBonus(name: string): (b: real)
    ensures 0.85 <= b <= 1.8
  {
    BonusWithin(name, SeriesTiers, 1.0, 0.85, 1.8);
    Bonus(name, SeriesTiers, 1.0)
  }

  /** Generation multiplier, by model number. */
  function GenerationBonus(name: string): (b: real)
    ensures 1.0 <= b <= 1.5
  {
    BonusWithin(name, GenerationTiers, 1.0, 1.0, 1.5);
    Bonus(name, GenerationTiers, 1.0)
  }

  /** Cache multiplier: 3D V-Cache parts first, then any "G" (ignoring case). */
  function CacheBonus(name: string): (b: real)
    ensures 0.9 <= b <= 1.8
  {
    BonusWithin(name, CacheTiers, 1.0, 0.9, 1.8);
    Bonus(name, CacheTiers, 1.0)
  }

  /** Product of the four CPU gaming multipliers: core count, series, generation and cache.
      The core multiplier has the same steps as the general score's. */
  function CpuGamingFactor(name: string, cores: int): (k: real)
    ensures 0.0 < k
  {
    var c, s, g, x := CpuData.CoreBonus(cores), SeriesBonus(name), GenerationBonus(name), CacheBonus(name);
    MulPositive(c, s);
    MulPositive(c * s, g);
    MulPositive(c * s * g, x);
    c * s * g * x
  }

  /** CPU gaming score: `toInt(toInt(clock * 800) * core * series * generation * cache)` on
      the turbo clock when it is positive, else the base clock. */
  function CpuGamingScore(cpu: Cpu): (s: int)
    ensures 0.0 <= CpuData.ScoreClock(cpu.baseClock, cpu.turboClock) ==> 0 <= s
  {
    CpuGamingScoreAt(cpu.name, cpu.cores, CpuData.ScoreClock(cpu.baseClock, cpu.turboClock))
  }

  function CpuGamingScoreAt(name: string, cores: int, clock: real): (s: int)
    ensures 0.0 <= clock ==> 0 <= s
  {
    Scale(ToInt(clock * 800.0), CpuGamingFactor(name, cores))
  }

  const ArchitectureTiers: Ladder := [
    (Has("RTX 50"), 1.8), (Has("RTX 40"), 1.5), (Has("RTX 30"), 1.2), (Has("RTX 20"), 1.0),
    (Has("RX 7"), 1.4), (Has("RX 6"), 1.1), (Has("RX 5"), 0.9),
    (Has("GTX 16"), 0.7), (Has("GTX"), 0.6)]

  const BusWidthTiers: Ladder := [
    (Has("6600"), 0.9), (Has("6700"), 1.0), (Has("6800"), 1.2), (Has("6900"), 1.3),
    (Has("3070"), 1.1), (Has("3080"), 1.3), (Has("3090"), 1.4)]

  /** Memory-size multiplier of the GPU gaming score. */
  function VramBonus(memory: int): (b: real)
    ensures 0.8 <= b <= 1.6
    ensures (memory < 4 || memory > 24) ==> b == 1.0
  {
    if 4 <= memory <= 6 then 0.8
    else if 7 <= memory <= 8 then 1.0
    else if 9 <= memory <= 12 then 1.2
    else if 13 <= memory <= 16 then 1.4
    else if 17 <= memory <= 24 then 1.6
    else 1.0
  }

  /** Architecture multiplier, by product line. */
  function ArchitectureBonus(name: string): (b: real)
    ensures 0.6 <= b <= 1.8
  {
    BonusWithin(name, ArchitectureTiers, 1.0, 0.6, 1.8);
    Bonus(name, ArchitectureTiers, 1.0)
  }

  /** Bus-width multiplier, by model number. */
  function BusWidthBonus(name: string): (b: real)
    ensures 0.9 <= b <= 1.4
  {
    BonusWithin(name, BusWidthTiers, 1.0, 0.9, 1.4);
    Bonus(name, BusWidthTiers, 1.0)
  }

  /** Product of the three GPU gaming multipliers: architecture, memory size and bus width. */
  function GpuGamingFactor(name: string, memory: int): (k: real)
    ensures 0.0 < k
  {
    var a, v, w := ArchitectureBonus(name), VramBonus(memory), BusWidthBonus(name);
    MulPositive(a, v);
    MulPositive(a * v, w);
    a * v * w
  }

  /** GPU gaming score: `toInt(toInt(effectiveClock * 0.002 + memory * 0.8) * factor)`. */
  function GpuGamingScore(gpu: Gpu): (s: int)
    ensures 0 <= gpu.effectiveClock && 0 <= gpu.memory ==> 0 <= s
  {
    GpuGamingScoreAt(gpu.name, gpu.memory, gpu.effectiveClock)
  }

  function GpuGamingScoreAt(name: string, memory: int, effectiveClock: int): (s: int)
    ensures 0 <= effectiveClock && 0 <= memory ==> 0 <= s
  {
    Scale(ToInt(effectiveClock as real * 0.002 + memory as real * 0.8), GpuGamingFactor(name, memory))
  }

  /** GPU-side weight of a display resolution; unknown resolutions weigh 1.0. */
  function ResolutionMultiplier(resolution: string): (m: real)
    ensures m == 0.3 || m == 1.0 || m == 2.0 || m == 3.0
    ensures m == 0.3 <==> resolution == "1024x768"
    ensures m == 2.0 <==> resolution == "2560x1440"
    ensures m == 3.0 <==> resolution == "3840x2160"
  {
    if resolution == "1024x768" then 0.3
    else if resolution == "1920x1080" then 1.0
    else if resolution == "2560x1440" then 2.0
    else if resolution == "3840x2160" then 3.0
    else 1.0
  }

  // ---------------------------------------------------------------------------------------
  // Bottleneck

  const OverkillLabel := "Hardware Overkill"

  /** `isOverkillForGame`, on the two gaming scores. */
  predicate OverkillScores(cpuScore: int, gpuScore: int, multiplier: real)
  {
    || (multiplier < 0.5 && cpuScore > 4000 && gpuScore > 4000)
    || (multiplier < 0.8 && cpuScore > 5000 && gpuScore > 5000)
  }

  predicate IsOverkillForGame(cpu: Cpu, gpu: Gpu, game: Game)
  {
    OverkillScores(CpuGamingScore(cpu), GpuGamingScore(gpu), game.bottleneckMultiplier)
  }

  /** The three early exits of `calculateBottleneck`, in order. */
  predicate EarlyOverkill(cpuScore: int, gpuScore: int, multiplier: real, resolution: string)
  {
    var modern := cpuScore > 3000 && gpuScore > 3000;
    || (multiplier < 0.8 && resolution == "1024x768" && modern)
    || (multiplier < 0.4 && modern)
    || OverkillScores(cpuScore, gpuScore, multiplier)
  }

  /** CPU score weighted by the game: flat 0.3 for light games (multiplier below 0.8),
      otherwise `0.5 + 0.5 * cpuIntensity`. */
  function WeightedCpu(cpuScore: int, multiplier: real, cpuIntensity: real): (w: real)
    ensures multiplier < 0.8 ==> w == cpuScore as real * 0.3
  {
    if multiplier < 0.8 then cpuScore as real * 0.3
    else cpuScore as real * (0.5 + cpuIntensity * 0.5)
  }

  /** GPU score weighted by the game (flat 0.2 for light games) and by the resolution. */
  function WeightedGpu(gpuScore: int, multiplier: real, gpuIntensity: real, resolution: string): (w: real)
    ensures multiplier < 0.8 ==> w == gpuScore as real * 0.2 * ResolutionMultiplier(resolution)
  {
    var adjusted :=
      if multiplier < 0.8 then gpuScore as real * 0.2
      else gpuScore as real * (0.5 + gpuIntensity * 0.5);
    adjusted * ResolutionMultiplier(resolution)
  }

  /** The percentage's divisor is not zero, so no NaN or infinity arises. */
  predicate DivisionDefined(cpuWeighted: real, gpuWeighted: real)
  {
    if gpuWeighted > cpuWeighted then gpuWeighted != 0.0 else cpuWeighted != 0.0
  }

  /** The larger of the two weighted scores, the divisor of the percentage. */
  function Larger(cpuWeighted: real, gpuWeighted: real): real
  {
    if gpuWeighted > cpuWeighted then gpuWeighted else cpuWeighted
  }

  /** Signed bottleneck percentage: positive when the GPU side outweighs the CPU side (the CPU
      limits), capped at 99 before the sign is applied. */
  function Percent(cpuWeighted: real, gpuWeighted: real): (p: real)
    requires DivisionDefined(cpuWeighted, gpuWeighted)
    ensures 0.0 <= cpuWeighted ==> -99.0 <= p <= 99.0
    ensures 0.0 <= cpuWeighted ==> (p > 0.0 <==> gpuWeighted > cpuWeighted)
    ensures 0.0 <= cpuWeighted ==>
      Abs(p) == RealAtMost(Abs(gpuWeighted - cpuWeighted) / Larger(cpuWeighted, gpuWeighted) * 100.0, 99.0)
  {
    if gpuWeighted > cpuWeighted then
      assert 0.0 < (gpuWeighted - cpuWeighted) / gpuWeighted || cpuWeighted < 0.0;
      RealAtMost((gpuWeighted - cpuWeighted) / gpuWeighted * 100.0, 99.0)
    else
      -RealAtMost((cpuWeighted - gpuWeighted) / cpuWeighted * 100.0, 99.0)
  }

  /** The severity word for a magnitude of at least the balanced threshold. */
  function LevelWord(magnitude: real): string
  {
    if magnitude < 15.0 then "Leve"
    else if magnitude < 30.0 then "Moderado"
    else if magnitude < 50.0 then "Significativo"
    else "Extremo"
  }

  /** Severity label returned with the percentage. */
  function SeverityLabel(p: real): (text: string)
    ensures Abs(p) < 5.0 <==> text == "Equilibrado"
  {
    if Abs(p) < 5.0 then "Equilibrado"
    else if p > 0.0 then
      if p < 15.0 then "Leve (CPU limitando)"
      else if p < 30.0 then "Moderado (CPU limitando)"
      else if p < 50.0 then "Significativo (CPU limitando)"
      else "Extremo (CPU limitando)"
    else
      if Abs(p) < 15.0 then "Leve (GPU limitando)"
      else if Abs(p) < 30.0 then "Moderado (GPU limitando)"
      else if Abs(p) < 50.0 then "Significativo (GPU limitando)"
      else "Extremo (GPU limitando)"
  }

  /** `calculateBottleneck` on the two gaming scores. */
  function BottleneckFromScores(cpuScore: int, gpuScore: int, game: Game, resolution: string): (r: (real, string))
    requires
      || EarlyOverkill(cpuScore, gpuScore, game.bottleneckMultiplier, resolution)
      || DivisionDefined(
           WeightedCpu(cpuScore, game.bottleneckMultiplier, game.cpuIntensity),
           WeightedGpu(gpuScore, game.bottleneckMultiplier, game.gpuIntensity, resolution))
    ensures EarlyOverkill(cpuScore, gpuScore, game.bottleneckMultiplier, resolution) ==> r == (0.0, OverkillLabel)
    ensures !EarlyOverkill(cpuScore, gpuScore, game.bottleneckMultiplier, resolution) ==> r.1 == SeverityLabel(r.0)
  {
    if EarlyOverkill(cpuScore, gpuScore, game.bottleneckMultiplier, resolution) then (0.0, OverkillLabel)
    else
      var p := Percent(
        WeightedCpu(cpuScore, game.bottleneckMultiplier, game.cpuIntensity),
        WeightedGpu(gpuScore, game.bottleneckMultiplier, game.gpuIntensity, resolution));
      (p, SeverityLabel(p))
  }

  /** `calculateBottleneck`: the CPU and the GPU enter only through their gaming scores. */
  function CalculateBottleneck(cpu: Cpu, gpu: Gpu, game: Game, resolution: string): (r: (real, string))
    requires
      || EarlyOverkill(CpuGamingScore(cpu), GpuGamingScore(gpu), game.bottleneckMultiplier, resolution)
      || DivisionDefined(
           WeightedCpu(CpuGamingScore(cpu), game.bottleneckMultiplier, game.cpuIntensity),
           WeightedGpu(GpuGamingScore(gpu), game.bottleneckMultiplier, game.gpuIntensity, resolution))
    ensures IsOverkillForGame(cpu, gpu, game) ==> r == (0.0, OverkillLabel)
    ensures r.1 == OverkillLabel <==> EarlyOverkill(CpuGamingScore(cpu), GpuGamingScore(gpu), game.bottleneckMultiplier, resolution)
    ensures !EarlyOverkill(CpuGamingScore(cpu), GpuGamingScore(gpu), game.bottleneckMultiplier, resolution) ==> r.1 == SeverityLabel(r.0)
  {
    OverkillLabelIffEarlyExit(CpuGamingScore(cpu), GpuGamingScore(gpu), game, resolution);
    BottleneckFromScores(CpuGamingScore(cpu), GpuGamingScore(gpu), game, resolution)
  }

  /** Table severity (`getBottleneckSeverity`): a wider balanced band, below 8. */
  function BottleneckSeverity(p: real): (text: string)
    ensures Abs(p) < 8.0 <==> text == "✅ Balanceado"
  {
    if Abs(p) < 8.0 then "✅ Balanceado"
    else if p > 0.0 then
      if p < 15.0 then "⚠️ Leve (CPU)"
      else if p < 30.0 then "🔶 Moderado (CPU)"
      else if p < 50.0 then "🔴 Significativo (CPU)"
      else "💀 Extremo (CPU)"
    else
      if Abs(p) < 15.0 then "⚠️ Leve (GPU)"
      else if Abs(p) < 30.0 then "🔶 Moderado (GPU)"
      else if Abs(p) < 50.0 then "🔴 Significativo (GPU)"
      else "💀 Extremo (GPU)"
  }

  /** The mark the table puts before each severity word. */
  function LevelMark(magnitude: real): string
  {
    if magnitude < 15.0 then "⚠️ "
    else if magnitude < 30.0 then "🔶 "
    else if magnitude < 50.0 then "🔴 "
    else "💀 "
  }

  // ---------------------------------------------------------------------------------------
  // Load temperature and throttle risk

  /** `estimatedTemp.coerceAtMost(ceiling).coerceAtLeast(base)`. */
  function LoadTemp(base: int, load: int, ceiling: int): (t: int)
    ensures base <= t
    ensures t <= base + load || t == base
    ensures base <= ceiling ==> t <= ceiling
    ensures base <= base + load <= ceiling ==> t == base + load
  {
    AtLeast(AtMost(base + load, ceiling), base)
  }

  /** CPU temperature rise for a game intensity: 40 % of TDP above 0.8, 30 % above 0.5,
      else 20 %. */
  function CpuLoad(tdp: int, intensity: real): int
  {
    if intensity > 0.8 then ToInt(tdp as real * 0.4)
    else if intensity > 0.5 then ToInt(tdp as real * 0.3)
    else ToInt(tdp as real * 0.2)
  }

  function CpuCeiling(tdp: int): (c: int)
    ensures c == 85 || c == 80 || c == 75
  {
    if tdp > 150 then 85 else if tdp > 100 then 80 else 75
  }

  function GpuLoad(tdp: int, intensity: real): int
  {
    if intensity > 0.8 then ToInt(tdp as real * 0.3)
    else if intensity > 0.5 then ToInt(tdp as real * 0.2)
    else ToInt(tdp as real * 0.1)
  }

  function GpuCeiling(tdp: int): (c: int)
    ensures c == 85 || c == 80 || c == 75
  {
    if tdp > 200 then 85 else if tdp > 120 then 80 else 75
  }

  /** The CPU intensity of the game, or 1.0 when there is no game. */
  function CpuIntensityOf(game: Option<Game>): (i: real)
    ensures game.None? ==> i == 1.0
    ensures game.Some? ==> i == game.value.cpuIntensity
  {
    match game
    case None => 1.0
    case Some(g) => g.cpuIntensity
  }

  function GpuIntensityOf(game: Option<Game>): (i: real)
    ensures game.None? ==> i == 1.0
    ensures game.Some? ==> i == game.value.gpuIntensity
  {
    match game
    case None => 1.0
    case Some(g) => g.gpuIntensity
  }

  /** Estimated CPU temperature under a game's load. */
  function CpuGamingTemp(cpu: Cpu, game: Option<Game>): (t: int)
    ensures cpu.baseTemperature <= t
    ensures cpu.baseTemperature <= CpuCeiling(cpu.tdp) ==> t <= CpuCeiling(cpu.tdp)
  {
    LoadTemp(cpu.baseTemperature, CpuLoad(cpu.tdp, CpuIntensityOf(game)), CpuCeiling(cpu.tdp))
  }

  /** Estimated GPU temperature under a game's load. */
  function GpuGamingTemp(gpu: Gpu, game: Option<Game>): (t: int)
    ensures gpu.baseTemperature <= t
    ensures gpu.baseTemperature <= GpuCeiling(gpu.tdp) ==> t <= GpuCeiling(gpu.tdp)
  {
    LoadTemp(gpu.baseTemperature, GpuLoad(gpu.tdp, GpuIntensityOf(game)), GpuCeiling(gpu.tdp))
  }

  /** CPU throttle risk in percent for a temperature, against the CPU's own limits. */
  function CpuRisk(temp: int, throttle: int, maxSafe: int): (r: int)
    ensures r in {90, 75, 60, 45, 30, 20, 10, 5}
  {
    if temp >= throttle then 90
    else if temp >= maxSafe then 75
    else if temp >= 85 then 60
    else if temp >= 80 then 45
    else if temp >= 75 then 30
    else if temp >= 70 then 20
    else if temp >= 65 then 10
    else 5
  }

  /** GPU throttle risk in percent for a temperature, against the GPU's own limits. */
  function GpuRisk(temp: int, throttle: int, maxSafe: int): (r: int)
    ensures r in {90, 80, 65, 50, 35, 20, 10, 5}
  {
    if temp >= throttle then 90
    else if temp >= maxSafe then 80
    else if temp >= 85 then 65
    else if temp >= 80 then 50
    else if temp >= 75 then 35
    else if temp >= 70 then 20
    else if temp >= 65 then 10
    else 5
  }

  /** `calculateThermalRisk`: the pair (CPU risk, GPU risk) under the game's load. */
  function ThermalRisk(cpu: Cpu, gpu: Gpu, game: Game): (r: (int, int))
    ensures r.0 in {90, 75, 60, 45, 30, 20, 10, 5}
    ensures r.1 in {90, 80, 65, 50, 35, 20, 10, 5}
  {
    (CpuRisk(CpuGamingTemp(cpu, Some(game)), cpu.thermalThrottleTemp, cpu.maxSafeTemperature),
     GpuRisk(GpuGamingTemp(gpu, Some(game)), gpu.thermalThrottleTemp, gpu.maxSafeTemperature))
  }

  /** The risk label for one risk figure. */
  function RiskLabel(risk: int): string
  {
    if risk >= 80 then "🔥 Alto Risco (Throttling provável)"
    else if risk >= 60 then "⚠️ Médio Risco (Monitorar temperaturas)"
    else if risk >= 40 then "🔶 Risco Moderado (Atenção necessária)"
    else if risk >= 20 then "🟡 Aquecimento Normal (Sistema estável)"
    else "✅ Baixo Risco (Temperaturas seguras)"
  }

  /** `getOverallThermalRisk`: each rung asks whether either risk reaches its threshold. */
  function OverallThermalRisk(risk: (int, int)): (text: string)
    ensures text == RiskLabel(if risk.0 >= risk.1 then risk.0 else risk.1)
  {
    var (c, g) := risk;
    if c >= 80 || g >= 80 then "🔥 Alto Risco (Throttling provável)"
    else if c >= 60 || g >= 60 then "⚠️ Médio Risco (Monitorar temperaturas)"
    else if c >= 40 || g >= 40 then "🔶 Risco Moderado (Atenção necessária)"
    else if c >= 20 || g >= 20 then "🟡 Aquecimento Normal (Sistema estável)"
    else "✅ Baixo Risco (Temperaturas seguras)"
  }

  // ---------------------------------------------------------------------------------------
  // Severity labels, read back as level and side

  /** Outside the balanced band, the returned label is the level word of |p| followed by the
      limiting side: the CPU when p is positive. */
  lemma SeverityLabelCpuSide(p: real)
    requires p >= 5.0
    ensures SeverityLabel(p) == LevelWord(p) + " (CPU limitando)"
  {
    CpuLabelTexts();
  }

  lemma SeverityLabelGpuSide(p: real)
    requires p <= -5.0
    ensures SeverityLabel(p) == LevelWord(-p) + " (GPU limitando)"
  {
    GpuLabelTexts();
    assert Abs(p) == -p;
  }

  /** The labels outside the balanced band, spelled as level word and side. */
  lemma CpuLabelTexts()
    ensures "Leve" + " (CPU limitando)" == "Leve (CPU limitando)"
    ensures "Moderado" + " (CPU limitando)" == "Moderado (CPU limitando)"
    ensures "Significativo" + " (CPU limitando)" == "Significativo (CPU limitando)"
    ensures "Extremo" + " (CPU limitando)" == "Extremo (CPU limitando)"
  {
  }

  lemma GpuLabelTexts()
    ensures "Leve" + " (GPU limitando)" == "Leve (GPU limitando)"
    ensures "Moderado" + " (GPU limitando)" == "Moderado (GPU limitando)"
    ensures "Significativo" + " (GPU limitando)" == "Significativo (GPU limitando)"
    ensures "Extremo" + " (GPU limitando)" == "Extremo (GPU limitando)"
  {
  }

  /** The table label has the same level word, with its mark, outside its wider balanced band. */
  lemma BottleneckSeverityCpuSide(p: real)
    requires p >= 8.0
    ensures BottleneckSeverity(p) == LevelMark(p) + LevelWord(p) + " (CPU)"
  {
    CpuTableTexts();
  }

  lemma BottleneckSeverityGpuSide(p: real)
    requires p <= -8.0
    ensures BottleneckSeverity(p) == LevelMark(-p) + LevelWord(-p) + " (GPU)"
  {
    GpuTableTexts();
    assert Abs(p) == -p;
  }

  /** The table's labels outside its balanced band, spelled as mark, level word and side. */
  lemma CpuTableTexts()
    ensures "⚠️ " + "Leve" + " (CPU)" == "⚠️ Leve (CPU)"
    ensures "🔶 " + "Moderado" + " (CPU)" == "🔶 Moderado (CPU)"
    ensures "🔴 " + "Significativo" + " (CPU)" == "🔴 Significativo (CPU)"
    ensures "💀 " + "Extremo" + " (CPU)" == "💀 Extremo (CPU)"
  {
  }

  lemma GpuTableTexts()
    ensures "⚠️ " + "Leve" + " (GPU)" == "⚠️ Leve (GPU)"
    ensures "🔶 " + "Moderado" + " (GPU)" == "🔶 Moderado (GPU)"
    ensures "🔴 " + "Significativo" + " (GPU)" == "🔴 Significativo (GPU)"
    ensures "💀 " + "Extremo" + " (GPU)" == "💀 Extremo (GPU)"
  {
  }

  /** Between 5 and 8 (in magnitude) the two labels disagree: the returned label reports a
      light bottleneck while the table reports a balanced system. */
  lemma SeverityBandsDisagree(p: real)
    requires 5.0 <= Abs(p) < 8.0
    ensures SeverityLabel(p) != "Equilibrado"
    ensures BottleneckSeverity(p) == "✅ Balanceado"
    ensures p > 0.0 ==> SeverityLabel(p) == "Leve (CPU limitando)"
    ensures p < 0.0 ==> SeverityLabel(p) == "Leve (GPU limitando)"
  {
  }

  // ---------------------------------------------------------------------------------------
  // Gaming-score properties

  /** The CPU gaming score reads the turbo clock when it is positive, the base clock otherwise. */
  lemma CpuGamingClockChoice(cpu: Cpu)
    ensures cpu.turboClock > 0.0 ==> CpuGamingScore(cpu) == CpuGamingScoreAt(cpu.name, cpu.cores, cpu.turboClock)
    ensures cpu.turboClock <= 0.0 ==> CpuGamingScore(cpu) == CpuGamingScoreAt(cpu.name, cpu.cores, cpu.baseClock)
  {
  }

  /** For a fixed name and core count, the CPU gaming score never falls as the clock grows. */
  lemma {:induction false} CpuGamingScoreMonotone(name: string, cores: int, clock1: real, clock2: real)
    requires clock1 <= clock2
    ensures CpuGamingScoreAt(name, cores, clock1) <= CpuGamingScoreAt(name, cores, clock2)
  {
    ToIntMonotone(clock1 * 800.0, clock2 * 800.0);
    ScaleMonotone(ToInt(clock1 * 800.0), ToInt(clock2 * 800.0), CpuGamingFactor(name, cores));
  }

  /** For a fixed name and memory size, the GPU gaming score never falls as the effective
      clock grows. */
  lemma {:induction false} GpuGamingScoreMonotone(name: string, memory: int, clock1: int, clock2: int)
    requires clock1 <= clock2
    ensures GpuGamingScoreAt(name, memory, clock1) <= GpuGamingScoreAt(name, memory, clock2)
  {
    var x1 := clock1 as real * 0.002 + memory as real * 0.8;
    var x2 := clock2 as real * 0.002 + memory as real * 0.8;
    ToIntMonotone(x1, x2);
    ScaleMonotone(ToInt(x1), ToInt(x2), GpuGamingFactor(name, memory));
  }

  /** The "X3D" cache test comes before the "G" test: every X3D name gets 1.8. */
  lemma X3dCacheBonus(name: string)
    requires ContainsIC(name, "X3D")
    ensures CacheBonus(name) == 1.8
  {
    assert Holds(CacheTiers[0].0, name);
  }

  /** A name with a "G" (in either case) but no "X3D" gets 0.9. */
  lemma GCacheBonus(name: string)
    requires !ContainsIC(name, "X3D") && ContainsIC(name, "G")
    ensures CacheBonus(name) == 0.9
  {
    assert !Holds(CacheTiers[0].0, name) && Holds(CacheTiers[1].0, name);
  }

  // ---------------------------------------------------------------------------------------
  // Bottleneck properties

  /** The overkill label is returned exactly when one of the early exits is taken. */
  lemma OverkillLabelIffEarlyExit(cpuScore: int, gpuScore: int, game: Game, resolution: string)
    requires
      || EarlyOverkill(cpuScore, gpuScore, game.bottleneckMultiplier, resolution)
      || DivisionDefined(
           WeightedCpu(cpuScore, game.bottleneckMultiplier, game.cpuIntensity),
           WeightedGpu(gpuScore, game.bottleneckMultiplier, game.gpuIntensity, resolution))
    ensures BottleneckFromScores(cpuScore, gpuScore, game, resolution).1 == OverkillLabel
        <==> EarlyOverkill(cpuScore, gpuScore, game.bottleneckMultiplier, resolution)
  {
    var r := BottleneckFromScores(cpuScore, gpuScore, game, resolution);
    if !EarlyOverkill(cpuScore, gpuScore, game.bottleneckMultiplier, resolution) {
      SeverityLabelNotOverkill(r.0);
    }
  }

  /** No severity label is the overkill label. */
  lemma SeverityLabelNotOverkill(p: real)
    ensures SeverityLabel(p) != OverkillLabel
  {
    assert |OverkillLabel| == 17;
  }

  /** Past the early exits, with a non-negative weighted CPU score, the percentage lies in
      [-99, 99] and is positive exactly when the scaled GPU score outweighs the CPU score. */
  lemma BottleneckPercent(cpuScore: int, gpuScore: int, game: Game, resolution: string)
    requires !EarlyOverkill(cpuScore, gpuScore, game.bottleneckMultiplier, resolution)
    requires DivisionDefined(
               WeightedCpu(cpuScore, game.bottleneckMultiplier, game.cpuIntensity),
               WeightedGpu(gpuScore, game.bottleneckMultiplier, game.gpuIntensity, resolution))
    requires 0.0 <= WeightedCpu(cpuScore, game.bottleneckMultiplier, game.cpuIntensity)
    ensures -99.0 <= BottleneckFromScores(cpuScore, gpuScore, game, resolution).0 <= 99.0
    ensures BottleneckFromScores(cpuScore, gpuScore, game, resolution).0 > 0.0
        <==> WeightedGpu(gpuScore, game.bottleneckMultiplier, game.gpuIntensity, resolution)
             > WeightedCpu(cpuScore, game.bottleneckMultiplier, game.cpuIntensity)
  {
  }

  /** The name tests of the debug trace do not matter: two CPUs with the same gaming score
      give the same result. */
  lemma BottleneckSeesOnlyScores(cpu1: Cpu, cpu2: Cpu, gpu: Gpu, game: Game, resolution: string)
    requires CpuGamingScore(cpu1) == CpuGamingScore(cpu2)
    requires
      || EarlyOverkill(CpuGamingScore(cpu1), GpuGamingScore(gpu), game.bottleneckMultiplier, resolution)
      || DivisionDefined(
           WeightedCpu(CpuGamingScore(cpu1), game.bottleneckMultiplier, game.cpuIntensity),
           WeightedGpu(GpuGamingScore(gpu), game.bottleneckMultiplier, game.gpuIntensity, resolution))
    ensures CalculateBottleneck(cpu1, gpu, game, resolution) == CalculateBottleneck(cpu2, gpu, game, resolution)
  {
  }

  /** In a light game the intensities play no part in the weighting. */
  lemma LightGameIgnoresIntensity(score: int, multiplier: real, i1: real, i2: real, resolution: string)
    requires multiplier < 0.8
    ensures WeightedCpu(score, multiplier, i1) == WeightedCpu(score, multiplier, i2)
    ensures WeightedGpu(score, multiplier, i1, resolution) == WeightedGpu(score, multiplier, i2, resolution)
  {
  }

  // ---------------------------------------------------------------------------------------
  // Temperature and risk properties

  /** Without a game, the estimate is that of a game at full intensity. */
  lemma NoGameIsFullIntensity(cpu: Cpu, gpu: Gpu, game: Game)
    requires game.cpuIntensity > 0.8 && game.gpuIntensity > 0.8
    ensures CpuGamingTemp(cpu, None) == CpuGamingTemp(cpu, Some(game))
    ensures GpuGamingTemp(gpu, None) == GpuGamingTemp(gpu, Some(game))
  {
  }

  /** A larger load never gives a lower estimate. */
  lemma LoadTempMonotone(base: int, load1: int, load2: int, ceiling: int)
    requires load1 <= load2
    ensures LoadTemp(base, load1, ceiling) <= LoadTemp(base, load2, ceiling)
  {
  }

  /** For a non-negative TDP, the CPU load never falls as the game intensity grows. */
  lemma {:induction false} CpuLoadMonotone(tdp: int, i1: real, i2: real)
    requires 0 <= tdp && i1 <= i2
    ensures CpuLoad(tdp, i1) <= CpuLoad(tdp, i2)
  {
    ToIntMonotone(tdp as real * 0.2, tdp as real * 0.3);
    ToIntMonotone(tdp as real * 0.3, tdp as real * 0.4);
  }

  lemma {:induction false} GpuLoadMonotone(tdp: int, i1: real, i2: real)
    requires 0 <= tdp && i1 <= i2
    ensures GpuLoad(tdp, i1) <= GpuLoad(tdp, i2)
  {
    ToIntMonotone(tdp as real * 0.1, tdp as real * 0.2);
    ToIntMonotone(tdp as real * 0.2, tdp as real * 0.3);
  }

  /** A more CPU-intensive game never lowers the CPU estimate; likewise for the GPU. */
  lemma {:induction false} GamingTempMonotone(cpu: Cpu, gpu: Gpu, g1: Option<Game>, g2: Option<Game>)
    requires 0 <= cpu.tdp && 0 <= gpu.tdp
    requires CpuIntensityOf(g1) <= CpuIntensityOf(g2) && GpuIntensityOf(g1) <= GpuIntensityOf(g2)
    ensures CpuGamingTemp(cpu, g1) <= CpuGamingTemp(cpu, g2)
    ensures GpuGamingTemp(gpu, g1) <= GpuGamingTemp(gpu, g2)
  {
    CpuLoadMonotone(cpu.tdp, CpuIntensityOf(g1), CpuIntensityOf(g2));
    GpuLoadMonotone(gpu.tdp, GpuIntensityOf(g1), GpuIntensityOf(g2));
    LoadTempMonotone(cpu.baseTemperature, CpuLoad(cpu.tdp, CpuIntensityOf(g1)), CpuLoad(cpu.tdp, CpuIntensityOf(g2)), CpuCeiling(cpu.tdp));
    LoadTempMonotone(gpu.baseTemperature, GpuLoad(gpu.tdp, GpuIntensityOf(g1)), GpuLoad(gpu.tdp, GpuIntensityOf(g2)), GpuCeiling(gpu.tdp));
  }

  /** A game at least as demanding on both components never lowers either risk figure. */
  lemma {:induction false} ThermalRiskMonotone(cpu: Cpu, gpu: Gpu, g1: Game, g2: Game)
    requires 0 <= cpu.tdp && 0 <= gpu.tdp
    requires g1.cpuIntensity <= g2.cpuIntensity && g1.gpuIntensity <= g2.gpuIntensity
    ensures ThermalRisk(cpu, gpu, g1).0 <= ThermalRisk(cpu, gpu, g2).0
    ensures ThermalRisk(cpu, gpu, g1).1 <= ThermalRisk(cpu, gpu, g2).1
  {
    GamingTempMonotone(cpu, gpu, Some(g1), Some(g2));
    CpuRiskMonotone(CpuGamingTemp(cpu, Some(g1)), CpuGamingTemp(cpu, Some(g2)), cpu.thermalThrottleTemp, cpu.maxSafeTemperature);
    GpuRiskMonotone(GpuGamingTemp(gpu, Some(g1)), GpuGamingTemp(gpu, Some(g2)), gpu.thermalThrottleTemp, gpu.maxSafeTemperature);
  }

  /** For fixed limits, a hotter component never has a lower throttle risk. */
  lemma CpuRiskMonotone(t1: int, t2: int, throttle: int, maxSafe: int)
    requires t1 <= t2
    ensures CpuRisk(t1, throttle, maxSafe) <= CpuRisk(t2, throttle, maxSafe)
  {
  }

  lemma GpuRiskMonotone(t1: int, t2: int, throttle: int, maxSafe: int)
    requires t1 <= t2
    ensures GpuRisk(t1, throttle, maxSafe) <= GpuRisk(t2, throttle, maxSafe)
  {
  }

  /** The overall label does not depend on which component carries the larger risk. */
  lemma OverallThermalRiskSymmetric(a: int, b: int)
    ensures OverallThermalRisk((a, b)) == OverallThermalRisk((b, a))
  {
  }
}
