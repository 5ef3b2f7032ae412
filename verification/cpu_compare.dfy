/** The side-by-side CPU comparison (`BenchmarkUtils.compareCpus`): four clock-based scores, a
    TDP row, a heavy-workload temperature estimate capped below the throttle point, an
    overclock-risk step function of the thermal headroom, a stability rating and a thermal
    verdict. */
module CpuComparison {
  import opened Numeric
  import opened Text
  import opened Comparison
  import opened Wrappers
  import CpuData

  type Cpu = CpuData.Cpu

  // ---------------------------------------------------------------------------------------
  // Scores

  /** `(turboClock * cores * threads * 1000).toInt()`. */
  function OverallScore(cpu: Cpu): int
  {
    Scale(cpu.cores * cpu.threads * 1000, cpu.turboClock)
  }

  /** `(turboClock * 1000).toInt()`. */
  function SingleCoreScore(cpu: Cpu): int
  {
    Scale(1000, cpu.turboClock)
  }

  /** `(turboClock * cores * 500).toInt()`. */
  function MultiCoreScore(cpu: Cpu): int
  {
    Scale(cpu.cores * 500, cpu.turboClock)
  }

  /** `(turboClock * cores * 10).toInt()`: the "FPS" of the gaming row. */
  function EstimateFps(cpu: Cpu): int
  {
    Scale(cpu.cores * 10, cpu.turboClock)
  }

  /** With non-negative core and thread counts, a higher turbo clock never lowers any of the
      four scores. */
  lemma {:induction false} ScoresMonotoneInTurbo(c1: Cpu, c2: Cpu)
    requires c1.cores == c2.cores && c1.threads == c2.threads
    requires 0 <= c1.cores && 0 <= c1.threads && c1.turboClock <= c2.turboClock
    ensures OverallScore(c1) <= OverallScore(c2)
    ensures SingleCoreScore(c1) <= SingleCoreScore(c2)
    ensures MultiCoreScore(c1) <= MultiCoreScore(c2)
    ensures EstimateFps(c1) <= EstimateFps(c2)
  {
    MulMonotone(0, c1.cores, c1.threads);
    MulMonotone(0, c1.cores * c1.threads, 1000);
    ScaleMonotoneInFactor(c1.cores * c1.threads * 1000, c1.turboClock, c2.turboClock);
    ScaleMonotoneInFactor(1000, c1.turboClock, c2.turboClock);
    ScaleMonotoneInFactor(c1.cores * 500, c1.turboClock, c2.turboClock);
    ScaleMonotoneInFactor(c1.cores * 10, c1.turboClock, c2.turboClock);
  }

  // ---------------------------------------------------------------------------------------
  // Heavy-workload temperature and overclock risk

  const ProblematicModels: seq<string> := ["13", "14", "i9-13", "i7-13", "i5-13", "i9-14", "i7-14", "i5-14"]

  /** `isProblematicIntelGen`: the name contains one of the listed patterns, ignoring case. */
  predicate IsProblematicIntelGen(name: string)
  {
    exists i :: 0 <= i < |ProblematicModels| && ContainsIC(name, ProblematicModels[i])
  }

  /** The six longer patterns add nothing: a name is listed exactly when it contains "13" or
      "14". */
  lemma ProblematicIffGeneration(name: string)
    ensures IsProblematicIntelGen(name) <==> ContainsIC(name, "13") || ContainsIC(name, "14")
  {
    assert ProblematicModels[0] == "13" && ProblematicModels[1] == "14";
    if IsProblematicIntelGen(name) {
      var i :| 0 <= i < |ProblematicModels| && ContainsIC(name, ProblematicModels[i]);
      if i >= 2 {
        var p := ProblematicModels[i];
        assert StartsWithIC(p[3..], p[3..]);
        ContainsICSpec(p, p[3..]);
        assert p[3..] == "13" || p[3..] == "14";
        ContainsICTransitive(name, p, p[3..]);
      }
    }
  }

  /** Heat factor for the TDP class. */
  function HeavyTdpMultiplier(tdp: int): (m: real)
    ensures 1.1 <= m <= 1.6
  {
    if tdp > 150 then 1.6 else if tdp > 100 then 1.4 else if tdp > 65 then 1.2 else 1.1
  }

  /** Heat factor for the brand; the brand test is exact equality with "Intel". */
  function HeavyBrandMultiplier(brand: string, name: string): (m: real)
    ensures 1.0 <= m <= 1.5
    ensures brand != "Intel" ==> m == 1.0
  {
    if brand == "Intel" && IsProblematicIntelGen(name) then 1.5
    else if brand == "Intel" then 1.2
    else 1.0
  }

  /** The idle temperature scaled by both heat factors, before truncation. */
  function HeavyHeat(cpu: Cpu): real
  {
    cpu.baseTemperature as real * (HeavyTdpMultiplier(cpu.tdp) * HeavyBrandMultiplier(cpu.brand, cpu.name))
  }

  /** `estimateHeavyWorkloadTemp`: the scaled idle temperature, truncated and capped 5 °C
      below the throttle point. */
  function HeavyWorkloadTemp(cpu: Cpu): (t: int)
    ensures t <= cpu.thermalThrottleTemp - 5
  {
    AtMost(ToInt(HeavyHeat(cpu)), cpu.thermalThrottleTemp - 5)
  }

  /** The estimate never falls below the idle temperature, unless the cap does. */
  lemma HeavyWorkloadTempAtLeastBase(cpu: Cpu)
    requires 0 <= cpu.baseTemperature <= IntMax
    ensures HeavyWorkloadTemp(cpu) >= AtMost(cpu.baseTemperature, cpu.thermalThrottleTemp - 5)
  {
    HeatAtLeastBase(cpu.baseTemperature, HeavyTdpMultiplier(cpu.tdp) * HeavyBrandMultiplier(cpu.brand, cpu.name));
  }

  lemma HeatAtLeastBase(base: int, m: real)
    requires 0 <= base <= IntMax && 1.0 <= m
    ensures base <= ToInt(base as real * m)
  {
    MulNonNegative(base as real, m - 1.0);
    assert base as real * m - base as real == base as real * (m - 1.0);
    ToIntMonotone(base as real, base as real * m);
    ToIntOfWhole(base);
  }

  /** Overclock risk in percent for a thermal headroom in °C. */
  function OverclockRiskForHeadroom(headroom: int): (r: int)
    ensures r in {85, 60, 40, 25, 15}
  {
    if headroom < 10 then 85
    else if headroom < 20 then 60
    else if headroom < 30 then 40
    else if headroom < 40 then 25
    else 15
  }

  /** More headroom never means more risk. */
  lemma OverclockRiskMonotone(h1: int, h2: int)
    requires h1 <= h2
    ensures OverclockRiskForHeadroom(h2) <= OverclockRiskForHeadroom(h1)
  {
  }

  /** `getOverclockRisk`: the first `return` ends the function, so only the headroom rule
      is reachable. The heavy-workload cap leaves at least 5 °C of headroom. */
  function OverclockRisk(cpu: Cpu): (r: int)
    ensures r in {85, 60, 40, 25, 15}
    ensures cpu.thermalThrottleTemp - HeavyWorkloadTemp(cpu) >= 5
  {
    OverclockRiskForHeadroom(cpu.thermalThrottleTemp - HeavyWorkloadTemp(cpu))
  }

  // ---------------------------------------------------------------------------------------
  // Ratings and thermal verdicts

  const Problematic := "❌ Problemático"
  const NeedsAttention := "⚠️ Requer atenção"
  const Good := "✅ Bom"
  const Excellent := "🏆 Excelente"

  /** `getThermalStabilityRating` on a temperature and a risk. */
  function StabilityRating(temp: int, risk: int): (text: string)
    ensures text == Problematic <==> temp > 85 || risk > 70
    ensures text == NeedsAttention <==> !(temp > 85 || risk > 70) && (temp > 75 || risk > 50)
    ensures text == Excellent <==> temp <= 65 && risk <= 30
  {
    if temp > 85 || risk > 70 then Problematic
    else if temp > 75 || risk > 50 then NeedsAttention
    else if temp > 65 || risk > 30 then Good
    else Excellent
  }

  /** Severity of a rating, from excellent (0) to problematic (3). */
  function StabilityLevel(text: string): nat
  {
    if text == Problematic then 3 else if text == NeedsAttention then 2 else if text == Good then 1 else 0
  }

  /** A hotter or riskier CPU never gets a better rating. */
  lemma StabilityRatingMonotone(t1: int, r1: int, t2: int, r2: int)
    requires t1 <= t2 && r1 <= r2
    ensures StabilityLevel(StabilityRating(t1, r1)) <= StabilityLevel(StabilityRating(t2, r2))
  {
    assert Problematic != NeedsAttention && Problematic != Good && Problematic != Excellent;
    assert NeedsAttention != Good && NeedsAttention != Excellent && Good != Excellent;
  }

  /** `compareThermalRisk`: the larger value gets "❄️ +d", the smaller "🔥 -d", with the unit
      "%" for risks and "°C" for temperatures. */
  function ThermalDelta(v1: int, v2: int, isOverclock: bool): (s: string)
    ensures !FavorsFirst(s) && !FavorsSecond(s)
    ensures s == Equivalent <==> v1 == v2
  {
    var unit := if isOverclock then "%" else "°C";
    if v1 > v2 then "❄️ +" + IntToString(v1 - v2) + unit
    else if v2 > v1 then "🔥 -" + IntToString(v2 - v1) + unit
    else Equivalent
  }

  /** `calculateThermalScore`: the mean of the temperature margin (not below 0) and the
      risk margin, in truncating integer division. */
  function ThermalScore(temp: int, risk: int): (s: int)
    ensures risk <= 100 ==> 0 <= s
  {
    TDiv(AtLeast(100 - temp, 0) + (100 - risk), 2)
  }

  /** A cooler or less risky CPU never gets a lower thermal score. */
  lemma ThermalScoreMonotone(t1: int, r1: int, t2: int, r2: int)
    requires t1 <= t2 && r1 <= r2
    ensures ThermalScore(t2, r2) <= ThermalScore(t1, r1)
  {
    TDivMonotone(AtLeast(100 - t2, 0) + (100 - r2), AtLeast(100 - t1, 0) + (100 - r1), 2);
  }

  /** `getBetterThermalChoice` on two names and thermal scores: a lead of more than 10
      points crowns the first 10 characters of the name. */
  function BetterThermalChoice(name1: string, score1: int, name2: string, score2: int): (s: string)
    ensures Neutral(s)
    ensures score1 > score2 + 10 ==> s == Crowned(name1, 10)
    ensures score2 > score1 + 10 ==> s == Crowned(name2, 10)
    ensures -10 <= score1 - score2 <= 10 <==> s == Equivalent
  {
    Verdict(name1, score1, name2, score2, 10, 10)
  }

  // ---------------------------------------------------------------------------------------
  // The table

  const KeyPerformance := "Performance"
  const KeySingleCore := "Single-Core"
  const KeyMultiCore := "Multi-Core"
  const KeyGaming := "Gaming"
  const KeyEfficiency := "Eficiência"
  const KeyTemperature := "🌡️ Temp. Gaming/Trabalho Pesado"
  const KeyOverclock := "⚠️ Risco Overclock"
  const KeyStability := "🔥 Estabilidade Térmica"

  const CpuKeys: seq<string> := [
    KeyPerformance, KeySingleCore, KeyMultiCore, KeyGaming,
    KeyEfficiency, KeyTemperature, KeyOverclock, KeyStability]

  /** What the comparison shows of one CPU: its name, the four scores, its TDP, the
      heavy-workload temperature and the overclock risk. */
  datatype Profile = Profile(
    name: string, overall: int, singleCore: int, multiCore: int, fps: int,
    tdp: int, heavyTemp: int, overclockRisk: int)

  /** The profile of a CPU, computed once per side. */
  function ProfileOf(cpu: Cpu): (p: Profile)
    ensures p.name == cpu.name && p.tdp == cpu.tdp
    ensures p.heavyTemp <= cpu.thermalThrottleTemp - 5
    ensures p.overclockRisk in {85, 60, 40, 25, 15}
  {
    Profile(cpu.name, OverallScore(cpu), SingleCoreScore(cpu), MultiCoreScore(cpu), EstimateFps(cpu),
            cpu.tdp, HeavyWorkloadTemp(cpu), OverclockRisk(cpu))
  }

  /** The column of values shown for one CPU, in key order. */
  function Column(p: Profile): (values: seq<string>)
    ensures |values| == 8
  {
    [ IntToString(p.overall), IntToString(p.singleCore), IntToString(p.multiCore), IntToString(p.fps),
      IntToString(p.tdp), IntToString(p.heavyTemp) + "°C", IntToString(p.overclockRisk) + "%",
      StabilityRating(p.heavyTemp, p.overclockRisk) ]
  }

  /** The thermal verdict of the last row. */
  function StabilityVerdict(p1: Profile, p2: Profile): (s: string)
    ensures !FavorsFirst(s) && !FavorsSecond(s)
  {
    BetterThermalChoice(p1.name, ThermalScore(p1.heavyTemp, p1.overclockRisk),
                        p2.name, ThermalScore(p2.heavyTemp, p2.overclockRisk))
  }

  const CpuCaptions: seq<string> := [
    "Overall Score", "Single Thread Score", "Multi Thread Score", "FPS Estimado (1080p)",
    "TDP (W)", "Temperatura estimada", "Probabilidade superaquecimento", "Avaliação geral"]

  /** The delta column, with the text of the TDP row given: the score rows carry the
      relative difference in percent, and the three thermal rows never count in a tally. */
  function CpuDeltas(p1: Profile, p2: Profile, tdpDelta: string): (deltas: seq<string>)
    ensures |deltas| == 8
    ensures deltas[0] == PercentDelta(p1.overall, p2.overall)
    ensures deltas[1] == PercentDelta(p1.singleCore, p2.singleCore)
    ensures deltas[2] == PercentDelta(p1.multiCore, p2.multiCore)
    ensures deltas[3] == PercentDelta(p1.fps, p2.fps)
    ensures deltas[4] == tdpDelta
    ensures Neutral(deltas[5]) && Neutral(deltas[6]) && Neutral(deltas[7])
  {
    var a, b := ScoreDeltas(p1, p2), ThermalDeltas(p1, p2);
    var d := a + ([tdpDelta] + b);
    assert forall i :: 0 <= i < 4 ==> d[i] == a[i];
    assert forall i :: 0 <= i < 3 ==> d[i + 5] == b[i];
    d
  }

  /** The four score rows' deltas: the relative difference in percent. */
  function ScoreDeltas(p1: Profile, p2: Profile): (deltas: seq<string>)
    ensures |deltas| == 4
    ensures deltas[0] == PercentDelta(p1.overall, p2.overall)
    ensures deltas[1] == PercentDelta(p1.singleCore, p2.singleCore)
    ensures deltas[2] == PercentDelta(p1.multiCore, p2.multiCore)
    ensures deltas[3] == PercentDelta(p1.fps, p2.fps)
  {
    [ PercentDelta(p1.overall, p2.overall),
      PercentDelta(p1.singleCore, p2.singleCore),
      PercentDelta(p1.multiCore, p2.multiCore),
      PercentDelta(p1.fps, p2.fps) ]
  }

  /** The three thermal rows' deltas, none of which counts in a tally. */
  function ThermalDeltas(p1: Profile, p2: Profile): (deltas: seq<string>)
    ensures |deltas| == 3
    ensures Neutral(deltas[0]) && Neutral(deltas[1]) && Neutral(deltas[2])
  {
    [ ThermalDelta(p1.heavyTemp, p2.heavyTemp, false),
      ThermalDelta(p1.overclockRisk, p2.overclockRisk, true),
      StabilityVerdict(p1, p2) ]
  }

  /** The eight rows for two profiles, with the delta text of the TDP row given: each value
      column comes from its own CPU alone. */
  function CpuTable(p1: Profile, p2: Profile, tdpDelta: string): (rows: seq<Row>)
    ensures |rows| == 8 && Keys(rows) == CpuKeys
    ensures forall i :: 0 <= i < 8 ==> rows[i].first == Column(p1)[i] && rows[i].second == Column(p2)[i]
    ensures forall i :: 0 <= i < 8 ==> rows[i].delta == CpuDeltas(p1, p2, tdpDelta)[i]
  {
    var rows := Zip(CpuKeys, CpuCaptions, Column(p1), Column(p2), CpuDeltas(p1, p2, tdpDelta));
    rows
  }

  /** `compareCpus`: the TDP row is marked "+" when the first TDP is higher and "-" otherwise,
      also when the two are equal. */
  function CompareCpus(c1: Cpu, c2: Cpu): (rows: seq<Row>)
    ensures |rows| == 8 && Keys(rows) == CpuKeys
    ensures FavorsFirst(rows[4].delta) <==> c1.tdp > c2.tdp
    ensures FavorsSecond(rows[4].delta) <==> c1.tdp <= c2.tdp
    ensures FollowsPercent(rows[0].delta, OverallScore(c1), OverallScore(c2))
    ensures FollowsPercent(rows[1].delta, SingleCoreScore(c1), SingleCoreScore(c2))
    ensures FollowsPercent(rows[2].delta, MultiCoreScore(c1), MultiCoreScore(c2))
    ensures FollowsPercent(rows[3].delta, EstimateFps(c1), EstimateFps(c2))
    ensures Neutral(rows[5].delta) && Neutral(rows[6].delta) && Neutral(rows[7].delta)
  {
    var p1, p2 := ProfileOf(c1), ProfileOf(c2);
    var d := CpuDeltas(p1, p2, SignedDelta(c1.tdp, c2.tdp, "W"));
    var rows := CpuTable(p1, p2, SignedDelta(c1.tdp, c2.tdp, "W"));
    assert forall i :: 0 <= i < 8 ==> rows[i].delta == d[i];
    rows
  }

  /** Exchanging the CPUs exchanges the two value columns of every row. */
  lemma CompareCpusSwapsColumns(c1: Cpu, c2: Cpu)
    ensures forall i :: 0 <= i < 8 ==>
      && CompareCpus(c2, c1)[i].first == CompareCpus(c1, c2)[i].second
      && CompareCpus(c2, c1)[i].second == CompareCpus(c1, c2)[i].first
  {
    var p1, p2 := ProfileOf(c1), ProfileOf(c2);
    var t, u := CompareCpus(c1, c2), CompareCpus(c2, c1);
    assert t == CpuTable(p1, p2, SignedDelta(c1.tdp, c2.tdp, "W"));
    assert u == CpuTable(p2, p1, SignedDelta(c2.tdp, c1.tdp, "W"));
  }

  /** With equal profiles every row except the TDP row counts for neither side. */
  lemma EqualProfilesOnlyTdpCounts(p: Profile, tdpDelta: string)
    ensures forall i :: 0 <= i < 8 && i != 4 ==> Neutral(CpuDeltas(p, p, tdpDelta)[i])
  {
    var d := CpuDeltas(p, p, tdpDelta);
    assert PercentDifference(p.overall, p.overall) == 0 && PercentDifference(p.singleCore, p.singleCore) == 0;
    assert PercentDifference(p.multiCore, p.multiCore) == 0 && PercentDifference(p.fps, p.fps) == 0;
  }

  /** As written, a CPU compared with itself loses: the TDP row reads "-0W", which the
      tally counts for the second CPU, so the screen declares the second one the winner by
      "1 x 0". */
  lemma IdenticalCpusFavorSecond(c: Cpu, advantage: string)
    ensures Tally(CompareCpus(c, c)) == (0, 1)
    ensures Decide(Tally(CompareCpus(c, c)), advantage).winner == Some(Second)
    ensures Decide(Tally(CompareCpus(c, c)), advantage).score == ScoreText(1, 0)
  {
    var p := ProfileOf(c);
    var rows := CompareCpus(c, c);
    assert rows == CpuTable(p, p, SignedDelta(c.tdp, c.tdp, "W"));
    EqualProfilesOnlyTdpCounts(p, SignedDelta(c.tdp, c.tdp, "W"));
    TallyOneDecisive(rows, 4);
    TallyOne(rows[4]);
  }

  /** `compareCpus` with the TDP row of equal values left neutral. */
  function CompareCpusCorrected(c1: Cpu, c2: Cpu): (rows: seq<Row>)
    ensures |rows| == 8 && Keys(rows) == CpuKeys
    ensures FavorsFirst(rows[4].delta) <==> c1.tdp > c2.tdp
    ensures FavorsSecond(rows[4].delta) <==> c1.tdp < c2.tdp
    ensures c1.tdp != c2.tdp ==> rows == CompareCpus(c1, c2)
  {
    CpuTable(ProfileOf(c1), ProfileOf(c2), SignedDeltaCorrected(c1.tdp, c2.tdp, "W"))
  }

  /** With the correction a CPU compared with itself ties. */
  lemma IdenticalCpusTie(c: Cpu, advantage: string)
    ensures Tally(CompareCpusCorrected(c, c)) == (0, 0)
    ensures Decide(Tally(CompareCpusCorrected(c, c)), advantage).winner == None
  {
    var p := ProfileOf(c);
    var rows := CompareCpusCorrected(c, c);
    EqualProfilesOnlyTdpCounts(p, SignedDeltaCorrected(c.tdp, c.tdp, "W"));
    TallyNeutral(rows);
  }
}
