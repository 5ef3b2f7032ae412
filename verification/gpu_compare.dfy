/** The side-by-side GPU comparison (`BenchmarkGpus.compareGpus`): a composite score, six
    signed difference rows, a cooling-class comparison, performance per watt and a thermal
    verdict built on an estimated gaming temperature. */
module GpuComparison {
  import opened Numeric
  import opened Text
  import opened Comparison
  import opened Wrappers
  import GpuData

  type Gpu = GpuData.Gpu

  // ---------------------------------------------------------------------------------------
  // Scores

  /** The TDP credit of the score formulas: `250 - tdp.coerceAtMost(250)`. */
  function TdpCredit(tdp: int): (c: int)
    ensures 0 <= c
    ensures tdp >= 250 ==> c == 0
    ensures 0 <= tdp ==> c <= 250
  {
    250 - AtMost(tdp, 250)
  }

  /** A lower TDP never earns less credit. */
  lemma TdpCreditAntitone(t1: int, t2: int)
    requires t1 <= t2
    ensures TdpCredit(t2) <= TdpCredit(t1)
  {
  }

  /** `calculateScore`: 1000 points per GB of VRAM, a point per 100 MHz of boost clock
      (truncating division), and 5 points per watt of TDP credit. */
  function Score(gpu: Gpu): (s: int)
    ensures 0 <= gpu.tdp ==> gpu.memory * 1000 + TDiv(gpu.turboClock, 100) <= s <= gpu.memory * 1000 + TDiv(gpu.turboClock, 100) + 1250
    ensures gpu.tdp >= 250 ==> s == gpu.memory * 1000 + TDiv(gpu.turboClock, 100)
  {
    gpu.memory * 1000 + TDiv(gpu.turboClock, 100) + TdpCredit(gpu.tdp) * 5
  }

  /** More VRAM, a higher boost clock and a lower TDP never lower the score. */
  lemma ScoreMonotone(g1: Gpu, g2: Gpu)
    requires g1.memory <= g2.memory && g1.turboClock <= g2.turboClock && g2.tdp <= g1.tdp
    ensures Score(g1) <= Score(g2)
  {
    TDivMonotone(g1.turboClock, g2.turboClock, 100);
    TdpCreditAntitone(g2.tdp, g1.tdp);
  }

  /** `calculatePerformancePerWatt`: whole score points per watt, 0 for a TDP that is not
      positive. */
  function PerformancePerWatt(gpu: Gpu): (p: int)
    ensures gpu.tdp <= 0 ==> p == 0
    ensures gpu.tdp > 0 && Score(gpu) >= 0 ==> 0 <= p && p * gpu.tdp <= Score(gpu) < (p + 1) * gpu.tdp
  {
    if gpu.tdp > 0 then TDiv(Score(gpu), gpu.tdp) else 0
  }

  // ---------------------------------------------------------------------------------------
  // Thermal estimates

  /** Cooling class by TDP: water cooling (4), triple fan (3), quality dual fan (2) or
      standard dual fan (1). */
  function CoolingLevel(tdp: int): (level: int)
    ensures 1 <= level <= 4
    ensures level == 4 <==> tdp > 300
    ensures level >= 3 <==> tdp > 200
    ensures level >= 2 <==> tdp > 150
  {
    if tdp > 300 then 4 else if tdp > 200 then 3 else if tdp > 150 then 2 else 1
  }

  /** A hungrier GPU never needs a lighter cooler. */
  lemma CoolingLevelMonotone(t1: int, t2: int)
    requires t1 <= t2
    ensures CoolingLevel(t1) <= CoolingLevel(t2)
  {
  }

  /** Share of the TDP added to the idle temperature under gaming load. */
  function LoadFactor(tdp: int): (k: real)
    ensures 0.25 <= k <= 0.55
  {
    if tdp > 300 then 0.55 else if tdp > 200 then 0.45 else if tdp > 150 then 0.35 else 0.25
  }

  /** `estimateGamingTemp`: the idle temperature plus the truncated load share of the TDP,
      capped 5 °C below the maximum safe temperature. */
  function GamingTemp(gpu: Gpu): (t: int)
    ensures t <= gpu.maxSafeTemperature - 5
    ensures 0 <= gpu.tdp ==> t >= AtMost(gpu.baseTemperature, gpu.maxSafeTemperature - 5)
  {
    AtMost(gpu.baseTemperature + Scale(gpu.tdp, LoadFactor(gpu.tdp)), gpu.maxSafeTemperature - 5)
  }

  /** A warmer idle temperature never gives a cooler gaming estimate. */
  lemma GamingTempMonotone(g1: Gpu, g2: Gpu)
    requires g1.tdp == g2.tdp && g1.maxSafeTemperature == g2.maxSafeTemperature
    requires g1.baseTemperature <= g2.baseTemperature
    ensures GamingTemp(g1) <= GamingTemp(g2)
  {
  }

  /** `calculateThermalScore`: three points per degree between the gaming estimate and the
      throttle point, plus two per watt of TDP credit. */
  function ThermalScore(gpu: Gpu): (s: int)
    ensures s >= 3 * (gpu.thermalThrottleTemp - gpu.maxSafeTemperature + 5)
    ensures 0 <= gpu.tdp ==> s <= 3 * (gpu.thermalThrottleTemp - AtMost(gpu.baseTemperature, gpu.maxSafeTemperature - 5)) + 500
  {
    (gpu.thermalThrottleTemp - GamingTemp(gpu)) * 3 + TdpCredit(gpu.tdp) * 2
  }

  // ---------------------------------------------------------------------------------------
  // Ratings and deltas

  const RatingExcellent := "🏆 Excelente"
  const RatingGood := "✅ Boa"
  const RatingFair := "⚠️ Regular"
  const RatingPoor := "❌ Problemática"
  const WaterCooling := " (Requer WC)"
  const TriFan := " (Requer Tri-Fan)"

  /** The band of the idle-to-limit gap. */
  function ThermalBand(gap: int): (band: string)
    ensures band == RatingExcellent <==> gap > 40
    ensures band == RatingGood <==> 30 < gap <= 40
    ensures band == RatingFair <==> 20 < gap <= 30
    ensures band == RatingPoor <==> gap <= 20
  {
    assert RatingExcellent[0] != RatingGood[0] && RatingExcellent[0] != RatingFair[0] && RatingExcellent[0] != RatingPoor[0];
    assert RatingGood[0] != RatingFair[0] && RatingGood[0] != RatingPoor[0] && RatingFair[0] != RatingPoor[0];
    if gap > 40 then RatingExcellent else if gap > 30 then RatingGood else if gap > 20 then RatingFair else RatingPoor
  }

  /** The cooling note appended to the band. */
  function CoolingNote(tdp: int): (note: string)
    ensures note == "" <==> tdp <= 200
    ensures note == WaterCooling <==> tdp > 300
  {
    assert |WaterCooling| != |TriFan|;
    if tdp > 300 then WaterCooling else if tdp > 200 then TriFan else ""
  }

  /** `getThermalEfficiencyRating`: the band of the gap, then the cooling note. */
  function ThermalEfficiencyRating(gpu: Gpu): (text: string)
    ensures StartsWith(text, ThermalBand(gpu.maxSafeTemperature - gpu.baseTemperature))
    ensures |text| == |ThermalBand(gpu.maxSafeTemperature - gpu.baseTemperature)| <==> gpu.tdp <= 200
  {
    var band := ThermalBand(gpu.maxSafeTemperature - gpu.baseTemperature);
    var text := band + CoolingNote(gpu.tdp);
    assert text[..|band|] == band;
    text
  }

  /** The rating carries a cooling note exactly when the cooling class is a triple fan or
      water cooling. */
  lemma RatingNoteMatchesCoolingLevel(gpu: Gpu)
    ensures |ThermalEfficiencyRating(gpu)| > |ThermalBand(gpu.maxSafeTemperature - gpu.baseTemperature)|
      <==> CoolingLevel(gpu.tdp) >= 3
  {
  }

  const Same := "≈ Igual"
  const Similar := "≈ Similar"

  /** `compareThermalValues`: "🔥 +d" when the first is warmer, "❄️ -d" when cooler; the
      marks lead the text, so the row never counts in a tally. */
  function CompareThermalValues(t1: int, t2: int, unit: string): (s: string)
    ensures Neutral(s)
    ensures s == Same <==> t1 == t2
  {
    if t1 > t2 then "🔥 +" + IntToString(t1 - t2) + unit
    else if t2 > t1 then "❄️ -" + IntToString(t2 - t1) + unit
    else Same
  }

  /** `compareCoolingRequirements` on the two cooling classes. */
  function CompareCooling(level1: int, level2: int): (s: string)
    ensures Neutral(s)
    ensures s == Similar <==> level1 == level2
  {
    if level1 > level2 then "❄️ +" + IntToString(level1 - level2) + "nível"
    else if level2 > level1 then "💨 -" + IntToString(level2 - level1) + "nível"
    else Similar
  }

  /** `getDifference` of this file: "N/A" against a zero, otherwise the signed percent. */
  function GpuDifference(v1: int, v2: int): (s: string)
    ensures v2 == 0 ==> s == "N/A"
    ensures FavorsFirst(s) <==> v2 != 0 && PercentDifference(v1, v2) > 0
    ensures FavorsSecond(s) <==> v2 != 0 && PercentDifference(v1, v2) < 0
  {
    if v2 == 0 then "N/A" else DifferenceText(v1, v2)
  }

  /** Equal values never count, whether or not they are zero. */
  lemma GpuDifferenceOfEqual(v: int)
    ensures Neutral(GpuDifference(v, v) + "%")
  {
  }

  /** `getBetterThermalChoice` on two names and thermal scores: a lead of more than 15
      points crowns the first 12 characters of the name. */
  function BetterThermalChoice(name1: string, score1: int, name2: string, score2: int): (s: string)
    ensures Neutral(s)
    ensures score1 > score2 + 15 ==> s == Crowned(name1, 12)
    ensures score2 > score1 + 15 ==> s == Crowned(name2, 12)
    ensures -15 <= score1 - score2 <= 15 <==> s == Equivalent
  {
    Verdict(name1, score1, name2, score2, 15, 12)
  }

  // ---------------------------------------------------------------------------------------
  // The table

  const KeyPerformance := "🎮 Performance Geral"
  const KeyMemory := "💾 VRAM"
  const KeyClock := "⚡ Clock Boost"
  const KeyPower := "🔋 Consumo Energético"
  const KeyBaseTemp := "🌡️ Temperatura Base"
  const KeyMaxSafe := "🔥 Temperatura Máxima Segura"
  const KeyThrottle := "⚠️ Thermal Throttling"
  const KeyCooling := "❄️ Resfriamento Recomendado"
  const KeyPerWatt := "⚡ Performance por Watt"
  const KeyThermal := "🏆 Eficiência Térmica"

  const GpuKeys: seq<string> := [
    KeyPerformance, KeyMemory, KeyClock, KeyPower, KeyBaseTemp,
    KeyMaxSafe, KeyThrottle, KeyCooling, KeyPerWatt, KeyThermal]

  const GpuCaptions: seq<string> := [
    "Overall Score", "Memória de Vídeo", "Frequência Máxima", "TDP (Watts)", "Temperatura em Idle",
    "Limite de Segurança", "Início do Throttling", "Tipo de Cooler", "Eficiência Energética", "Avaliação Térmica"]

  /** What the comparison shows of one GPU. */
  datatype Profile = Profile(
    name: string, score: int, memory: int, turboClock: int, tdp: int,
    baseTemperature: int, maxSafeTemperature: int, thermalThrottleTemp: int,
    recommendedCooling: string, coolingLevel: int, perWatt: int, rating: string, thermalScore: int)

  /** The profile of a GPU, computed once per side. */
  function ProfileOf(g: Gpu): (p: Profile)
    ensures p.name == g.name && p.memory == g.memory && p.turboClock == g.turboClock && p.tdp == g.tdp
    ensures p.maxSafeTemperature == g.maxSafeTemperature && p.thermalThrottleTemp == g.thermalThrottleTemp
    ensures 1 <= p.coolingLevel <= 4
  {
    Profile(g.name, Score(g), g.memory, g.turboClock, g.tdp, g.baseTemperature, g.maxSafeTemperature,
            g.thermalThrottleTemp, g.recommendedCooling, CoolingLevel(g.tdp), PerformancePerWatt(g),
            ThermalEfficiencyRating(g), ThermalScore(g))
  }

  /** The column of values shown for one GPU, in key order. */
  function Column(p: Profile): (values: seq<string>)
    ensures |values| == 10
  {
    [ IntToString(p.score), IntToString(p.memory) + " GB", IntToString(p.turboClock) + " MHz",
      IntToString(p.tdp) + "W", IntToString(p.baseTemperature) + "°C",
      IntToString(p.maxSafeTemperature) + "°C", IntToString(p.thermalThrottleTemp) + "°C",
      p.recommendedCooling, IntToString(p.perWatt) + " pts/W", p.rating ]
  }

  /** The deltas of the performance, VRAM, clock, TDP and idle-temperature rows. */
  function LeadingDeltas(p1: Profile, p2: Profile, rule: Signing): (deltas: seq<string>)
    ensures |deltas| == 5
    ensures FavorsFirst(deltas[0]) <==> p2.score != 0 && PercentDifference(p1.score, p2.score) > 0
    ensures FavorsSecond(deltas[0]) <==> p2.score != 0 && PercentDifference(p1.score, p2.score) < 0
    ensures deltas[1] == Signed(rule, p1.memory, p2.memory, "GB")
    ensures deltas[2] == Signed(rule, p1.turboClock, p2.turboClock, "MHz")
    ensures deltas[3] == Signed(rule, p1.tdp, p2.tdp, "W")
    ensures Neutral(deltas[4])
  {
    [ GpuDifference(p1.score, p2.score) + "%",
      Signed(rule, p1.memory, p2.memory, "GB"),
      Signed(rule, p1.turboClock, p2.turboClock, "MHz"),
      Signed(rule, p1.tdp, p2.tdp, "W"),
      CompareThermalValues(p1.baseTemperature, p2.baseTemperature, "°C") ]
  }

  /** The deltas of the safe-limit, throttle, cooling, per-watt and thermal rows. */
  function TrailingDeltas(p1: Profile, p2: Profile, rule: Signing): (deltas: seq<string>)
    ensures |deltas| == 5
    ensures deltas[0] == Signed(rule, p1.maxSafeTemperature, p2.maxSafeTemperature, "°C")
    ensures deltas[1] == Signed(rule, p1.thermalThrottleTemp, p2.thermalThrottleTemp, "°C")
    ensures Neutral(deltas[2]) && Neutral(deltas[4])
    ensures FavorsFirst(deltas[3]) <==> p2.perWatt != 0 && PercentDifference(p1.perWatt, p2.perWatt) > 0
    ensures FavorsSecond(deltas[3]) <==> p2.perWatt != 0 && PercentDifference(p1.perWatt, p2.perWatt) < 0
  {
    [ Signed(rule, p1.maxSafeTemperature, p2.maxSafeTemperature, "°C"),
      Signed(rule, p1.thermalThrottleTemp, p2.thermalThrottleTemp, "°C"),
      CompareCooling(p1.coolingLevel, p2.coolingLevel),
      GpuDifference(p1.perWatt, p2.perWatt) + "%",
      BetterThermalChoice(p1.name, p1.thermalScore, p2.name, p2.thermalScore) ]
  }

  /** The delta column under a rule for the five signed rows: VRAM, boost clock, TDP,
      maximum safe temperature and throttle point. */
  function GpuDeltas(p1: Profile, p2: Profile, rule: Signing): (deltas: seq<string>)
    ensures |deltas| == 10
    ensures FavorsFirst(deltas[0]) <==> p2.score != 0 && PercentDifference(p1.score, p2.score) > 0
    ensures FavorsSecond(deltas[0]) <==> p2.score != 0 && PercentDifference(p1.score, p2.score) < 0
    ensures deltas[1] == Signed(rule, p1.memory, p2.memory, "GB")
    ensures deltas[2] == Signed(rule, p1.turboClock, p2.turboClock, "MHz")
    ensures deltas[3] == Signed(rule, p1.tdp, p2.tdp, "W")
    ensures deltas[5] == Signed(rule, p1.maxSafeTemperature, p2.maxSafeTemperature, "°C")
    ensures deltas[6] == Signed(rule, p1.thermalThrottleTemp, p2.thermalThrottleTemp, "°C")
    ensures Neutral(deltas[4]) && Neutral(deltas[7]) && Neutral(deltas[9])
    ensures FavorsFirst(deltas[8]) <==> p2.perWatt != 0 && PercentDifference(p1.perWatt, p2.perWatt) > 0
    ensures FavorsSecond(deltas[8]) <==> p2.perWatt != 0 && PercentDifference(p1.perWatt, p2.perWatt) < 0
  {
    var a, b := LeadingDeltas(p1, p2, rule), TrailingDeltas(p1, p2, rule);
    assert forall i :: 0 <= i < 5 ==> (a + b)[i + 5] == b[i];
    a + b
  }

  /** The ten rows under a rule: each value column comes from its own GPU alone. */
  function GpuTable(p1: Profile, p2: Profile, rule: Signing): (rows: seq<Row>)
    ensures |rows| == 10 && Keys(rows) == GpuKeys
    ensures forall i :: 0 <= i < 10 ==> rows[i].first == Column(p1)[i] && rows[i].second == Column(p2)[i]
    ensures forall i :: 0 <= i < 10 ==> rows[i].delta == GpuDeltas(p1, p2, rule)[i]
  {
    var rows := Zip(GpuKeys, GpuCaptions, Column(p1), Column(p2), GpuDeltas(p1, p2, rule));
    rows
  }

  /** `compareGpus`: the signed rows are marked "+" when the first value is higher and "-"
      otherwise, also when the two are equal. */
  function CompareGpus(g1: Gpu, g2: Gpu): (rows: seq<Row>)
    ensures |rows| == 10 && Keys(rows) == GpuKeys
    ensures FollowsGpuPercent(rows[0].delta, Score(g1), Score(g2))
    ensures FollowsSigned(rows[1].delta, g1.memory, g2.memory)
    ensures FollowsSigned(rows[2].delta, g1.turboClock, g2.turboClock)
    ensures FollowsSigned(rows[3].delta, g1.tdp, g2.tdp)
    ensures FollowsSigned(rows[5].delta, g1.maxSafeTemperature, g2.maxSafeTemperature)
    ensures FollowsSigned(rows[6].delta, g1.thermalThrottleTemp, g2.thermalThrottleTemp)
    ensures FollowsGpuPercent(rows[8].delta, PerformancePerWatt(g1), PerformancePerWatt(g2))
    ensures Neutral(rows[4].delta) && Neutral(rows[7].delta) && Neutral(rows[9].delta)
  {
    var p1, p2 := ProfileOf(g1), ProfileOf(g2);
    var d := GpuDeltas(p1, p2, AsWritten);
    var rows := GpuTable(p1, p2, AsWritten);
    assert forall i :: 0 <= i < 10 ==> rows[i].delta == d[i];
    rows
  }

  /** A delta under the as-written sign rule: "+" when the first value is higher, "-"
      otherwise, equal values included. */
  predicate FollowsSigned(delta: string, a: int, b: int)
  {
    (FavorsFirst(delta) <==> a > b) && (FavorsSecond(delta) <==> a <= b)
  }

  /** A delta that follows the relative difference, and counts for neither side when the
      second value is zero ("N/A"). */
  predicate FollowsGpuPercent(delta: string, v1: int, v2: int)
  {
    && (FavorsFirst(delta) <==> v2 != 0 && PercentDifference(v1, v2) > 0)
    && (FavorsSecond(delta) <==> v2 != 0 && PercentDifference(v1, v2) < 0)
  }

  /** Exchanging the GPUs exchanges the two value columns of every row. */
  lemma CompareGpusSwapsColumns(g1: Gpu, g2: Gpu)
    ensures forall i :: 0 <= i < 10 ==>
      && CompareGpus(g2, g1)[i].first == CompareGpus(g1, g2)[i].second
      && CompareGpus(g2, g1)[i].second == CompareGpus(g1, g2)[i].first
  {
    assert CompareGpus(g1, g2) == GpuTable(ProfileOf(g1), ProfileOf(g2), AsWritten);
    assert CompareGpus(g2, g1) == GpuTable(ProfileOf(g2), ProfileOf(g1), AsWritten);
  }

  /** The delta sides of two equal profiles: the score and per-watt rows compare a value
      with itself, so they count for neither side; the signed rows count for the second
      side exactly when the rule is the one as written. */
  lemma EqualProfilesRows(p: Profile, rule: Signing)
    ensures forall i :: 0 <= i < 10 ==> !FavorsFirst(GpuTable(p, p, rule)[i].delta)
    ensures forall i :: 0 <= i < 10 ==>
      (FavorsSecond(GpuTable(p, p, rule)[i].delta) <==> rule == AsWritten && 1 <= i <= 6 && i != 4)
  {
    var rows, d := GpuTable(p, p, rule), GpuDeltas(p, p, rule);
    assert forall i :: 0 <= i < 10 ==> rows[i].delta == d[i];
  }

  /** As written, two equal profiles split the table 0 to 5: each signed row reads "-0". */
  lemma EqualProfilesTally(p: Profile)
    ensures Tally(GpuTable(p, p, AsWritten)) == (0, 5)
  {
    var rows := GpuTable(p, p, AsWritten);
    EqualProfilesRows(p, AsWritten);
    assert rows[..0] == [];
    TallyStep(rows, 0);
    TallyStep(rows, 1);
    TallyStep(rows, 2);
    TallyStep(rows, 3);
    TallyStep(rows, 4);
    TallyStep(rows, 5);
    TallyStep(rows, 6);
    TallyStep(rows, 7);
    TallyStep(rows, 8);
    TallyStep(rows, 9);
    assert rows[..10] == rows;
  }

  /** As written, a GPU compared with itself loses every signed row ("-0GB", "-0MHz", "-0W",
      "-0°C" twice), so the screen declares the second one the winner by "5 x 0". */
  lemma IdenticalGpusFavorSecond(g: Gpu, advantage: string)
    ensures Tally(CompareGpus(g, g)) == (0, 5)
    ensures Decide(Tally(CompareGpus(g, g)), advantage).winner == Some(Second)
    ensures Decide(Tally(CompareGpus(g, g)), advantage).score == ScoreText(5, 0)
  {
    EqualProfilesTally(ProfileOf(g));
  }

  /** `compareGpus` with the signed rows of equal values left neutral. */
  function CompareGpusCorrected(g1: Gpu, g2: Gpu): (rows: seq<Row>)
    ensures |rows| == 10 && Keys(rows) == GpuKeys
    ensures FavorsFirst(rows[1].delta) <==> g1.memory > g2.memory
    ensures FavorsSecond(rows[1].delta) <==> g1.memory < g2.memory
    ensures FavorsSecond(rows[3].delta) <==> g1.tdp < g2.tdp
  {
    GpuTable(ProfileOf(g1), ProfileOf(g2), EqualNeutral)
  }

  /** With the correction a GPU compared with itself ties. */
  lemma IdenticalGpusTie(g: Gpu, advantage: string)
    ensures Tally(CompareGpusCorrected(g, g)) == (0, 0)
    ensures Decide(Tally(CompareGpusCorrected(g, g)), advantage).winner == None
  {
    EqualProfilesRows(ProfileOf(g), EqualNeutral);
    TallyNeutral(CompareGpusCorrected(g, g));
  }
}
