/** The hardware-adequacy analyzer behind the game performance screen
    (`GamePerformanceScreen.kt`): requirements scaled by resolution, a first-match
    classification of each component, a decision table combining the two, the message and
    recommendation for the combined status, and a confidence step function. */
module GamePerformance {
  import opened Numeric
  import GameData
  import BenchmarkGames

  type Game = GameData.Game

  datatype ComponentStatus = Overkill | Excellent | Adequate | Insufficient

  datatype OverallStatus =
    | AllOverkill       // OVERKILL
    | AllExcellent      // EXCELLENT
    | Balanced          // BALANCED
    | AllAdequate       // ADEQUATE
    | CpuStrongGpuOk    // CPU_STRONG_GPU_OK
    | GpuStrongCpuOk    // GPU_STRONG_CPU_OK
    | CpuBottleneck     // CPU_BOTTLENECK
    | GpuBottleneck     // GPU_BOTTLENECK
    | InsufficientBoth  // INSUFFICIENT_BOTH

  datatype GameRequirements = GameRequirements(
    minimumCpu: real, recommendedCpu: real, minimumGpu: real, recommendedGpu: real)

  datatype HardwareAnalysis = HardwareAnalysis(
    overallStatus: OverallStatus,
    cpuStatus: ComponentStatus,
    gpuStatus: ComponentStatus,
    message: string,
    recommendation: string,
    confidenceLevel: real)

  // ---------------------------------------------------------------------------------------
  // Requirements

  /** `Game.getMinCpuScore()` and its three siblings: the same constants as the game
      record's own derivations. */
  function GetMinCpuScore(game: Game): (r: int)
    ensures r == GameData.MinCpuScore(game.bottleneckMultiplier)
    ensures GameData.Derived(game) ==> r == game.minCpuScore
  {
    ToInt(15000.0 * game.bottleneckMultiplier)
  }

  function GetRecCpuScore(game: Game): (r: int)
    ensures r == GameData.RecCpuScore(game.bottleneckMultiplier)
    ensures GameData.Derived(game) ==> r == game.recCpuScore
  {
    ToInt(25000.0 * game.bottleneckMultiplier)
  }

  function GetMinGpuScore(game: Game): (r: int)
    ensures r == GameData.MinGpuScore(game.bottleneckMultiplier)
    ensures GameData.Derived(game) ==> r == game.minGpuScore
  {
    ToInt(8000.0 * game.bottleneckMultiplier)
  }

  function GetRecGpuScore(game: Game): (r: int)
    ensures r == GameData.RecGpuScore(game.bottleneckMultiplier)
    ensures GameData.Derived(game) ==> r == game.recGpuScore
  {
    ToInt(15000.0 * game.bottleneckMultiplier)
  }

  /** Requirement weight of a display resolution; unknown resolutions weigh 1.0. */
  function RequirementMultiplier(resolution: string): (m: real)
    ensures m == 0.6 || m == 1.0 || m == 1.6 || m == 2.8
    ensures m == 0.6 <==> resolution == "1024x768"
    ensures m == 1.6 <==> resolution == "2560x1440"
    ensures m == 2.8 <==> resolution == "3840x2160"
  {
    if resolution == "1024x768" then 0.6
    else if resolution == "1920x1080" then 1.0
    else if resolution == "2560x1440" then 1.6
    else if resolution == "3840x2160" then 2.8
    else 1.0
  }

  /** The game's four requirement scores, scaled by the resolution weight. */
  function GetGameRequirements(game: Game, resolution: string): GameRequirements
  {
    var m := RequirementMultiplier(resolution);
    GameRequirements(
      GetMinCpuScore(game) as real * m, GetRecCpuScore(game) as real * m,
      GetMinGpuScore(game) as real * m, GetRecGpuScore(game) as real * m)
  }

  /** For a non-negative bottleneck multiplier the scaled requirements are non-negative and
      each minimum is at most its recommendation. */
  lemma RequirementsOrdered(game: Game, resolution: string)
    requires 0.0 <= game.bottleneckMultiplier
    ensures var r := GetGameRequirements(game, resolution);
      && 0.0 <= r.minimumCpu <= r.recommendedCpu
      && 0.0 <= r.minimumGpu <= r.recommendedGpu
  {
    var m := RequirementMultiplier(resolution);
    GameData.RequirementOrder(game.bottleneckMultiplier);
    ScaleOrder(GetMinCpuScore(game), GetRecCpuScore(game), m);
    ScaleOrder(GetMinGpuScore(game), GetRecGpuScore(game), m);
  }

  lemma ScaleOrder(a: int, b: int, m: real)
    requires 0 <= a <= b && 0.0 < m
    ensures 0.0 <= a as real * m <= b as real * m
  {
    assert b as real * m - a as real * m == (b - a) as real * m;
    MulNonNegative((b - a) as real, m);
    MulNonNegative(a as real, m);
  }

  /** One factor scales all four requirements: each is its 1080p value times the
      resolution weight. */
  lemma RequirementsScaleTogether(game: Game, resolution: string)
    ensures var r, base := GetGameRequirements(game, resolution), GetGameRequirements(game, "1920x1080");
      && r.minimumCpu == base.minimumCpu * RequirementMultiplier(resolution)
      && r.recommendedCpu == base.recommendedCpu * RequirementMultiplier(resolution)
      && r.minimumGpu == base.minimumGpu * RequirementMultiplier(resolution)
      && r.recommendedGpu == base.recommendedGpu * RequirementMultiplier(resolution)
  {
  }

  // ---------------------------------------------------------------------------------------
  // Classification

  /** First-match classification of one component against its requirements. */
  function Classify(score: real, recommended: real, minimum: real): (s: ComponentStatus)
    ensures s == Overkill <==> score >= recommended * 1.5
    ensures s == Excellent <==> recommended * 1.2 <= score < recommended * 1.5
    ensures s == Adequate <==>
      score < recommended * 1.5 && score < recommended * 1.2 && (score >= recommended || score >= minimum * 1.2)
  {
    if score >= recommended * 1.5 then Overkill
    else if score >= recommended * 1.2 then Excellent
    else if score >= recommended then Adequate
    else if score >= minimum * 1.2 then Adequate
    else Insufficient
  }

  /** With a non-negative recommendation, a component is insufficient exactly when it falls
      short of the recommendation and of 1.2 times the minimum. */
  lemma InsufficientIff(score: real, recommended: real, minimum: real)
    requires 0.0 <= recommended
    ensures Classify(score, recommended, minimum) == Insufficient
        <==> score < recommended && score < minimum * 1.2
  {
  }

  /** Rank of a component status, from insufficient (0) to overkill (3). */
  function Rank(s: ComponentStatus): (r: nat)
    ensures r <= 3
    ensures r == 0 <==> s == Insufficient
    ensures r == 3 <==> s == Overkill
  {
    match s
    case Insufficient => 0
    case Adequate => 1
    case Excellent => 2
    case Overkill => 3
  }

  /** A higher score never gets a lower classification. */
  lemma ClassifyMonotone(score1: real, score2: real, recommended: real, minimum: real)
    requires score1 <= score2
    ensures Rank(Classify(score1, recommended, minimum)) <= Rank(Classify(score2, recommended, minimum))
  {
  }

  // ---------------------------------------------------------------------------------------
  // Decision table

  /** Excellent or overkill: the statuses the first combined test accepts. */
  predicate AtLeastExcellent(s: ComponentStatus)
  {
    s == Excellent || s == Overkill
  }

  /** `determineOverallStatus`. */
  function DetermineOverallStatus(
    cpuStatus: ComponentStatus, gpuStatus: ComponentStatus,
    cpuScore: real, gpuScore: real, requirements: GameRequirements): (o: OverallStatus)
    ensures o == InsufficientBoth <==> cpuStatus == Insufficient && gpuStatus == Insufficient
    ensures o == CpuBottleneck <==> cpuStatus == Insufficient && gpuStatus != Insufficient
    ensures o == GpuBottleneck <==> cpuStatus != Insufficient && gpuStatus == Insufficient
    ensures o == CpuStrongGpuOk <==> cpuStatus == Excellent && gpuStatus == Adequate
    ensures o == GpuStrongCpuOk <==> cpuStatus == Adequate && gpuStatus == Excellent
    ensures o == AllAdequate <==> cpuStatus == Adequate && gpuStatus == Adequate
    ensures o == AllOverkill <==>
      && AtLeastExcellent(cpuStatus) && AtLeastExcellent(gpuStatus)
      && cpuScore > requirements.recommendedCpu * 1.5 && gpuScore > requirements.recommendedGpu * 1.5
    ensures o == AllExcellent <==>
      && AtLeastExcellent(cpuStatus) && AtLeastExcellent(gpuStatus)
      && !(cpuScore > requirements.recommendedCpu * 1.5 && gpuScore > requirements.recommendedGpu * 1.5)
  {
    if cpuStatus == Insufficient && gpuStatus == Insufficient then InsufficientBoth
    else if cpuStatus == Insufficient then CpuBottleneck
    else if gpuStatus == Insufficient then GpuBottleneck
    else if (cpuStatus == Overkill || cpuStatus == Excellent) && (gpuStatus == Overkill || gpuStatus == Excellent) then
      if cpuScore > requirements.recommendedCpu * 1.5 && gpuScore > requirements.recommendedGpu * 1.5
      then AllOverkill
      else AllExcellent
    else if cpuStatus == Adequate && gpuStatus == Adequate then AllAdequate
    else if cpuStatus == Excellent && gpuStatus == Adequate then CpuStrongGpuOk
    else if cpuStatus == Adequate && gpuStatus == Excellent then GpuStrongCpuOk
    else Balanced
  }

  /** Overkill paired with adequate, in either order, is balanced; and only those two pairs
      are. */
  lemma BalancedIff(c: ComponentStatus, g: ComponentStatus, cs: real, gs: real, req: GameRequirements)
    ensures DetermineOverallStatus(c, g, cs, gs, req) == Balanced
        <==> (c == Overkill && g == Adequate) || (c == Adequate && g == Overkill)
  {
  }

  /** The status with the roles of CPU and GPU exchanged. */
  function Mirror(o: OverallStatus): OverallStatus
  {
    match o
    case CpuStrongGpuOk => GpuStrongCpuOk
    case GpuStrongCpuOk => CpuStrongGpuOk
    case CpuBottleneck => GpuBottleneck
    case GpuBottleneck => CpuBottleneck
    case _ => o
  }

  /** Exchanging CPU and GPU twice changes nothing. */
  lemma MirrorInvolution(o: OverallStatus)
    ensures Mirror(Mirror(o)) == o
  {
  }

  function Swap(r: GameRequirements): GameRequirements
  {
    GameRequirements(r.minimumGpu, r.recommendedGpu, r.minimumCpu, r.recommendedCpu)
  }

  /** The decision table treats CPU and GPU alike: exchanging them mirrors the result. */
  lemma DecisionTableSymmetric(c: ComponentStatus, g: ComponentStatus, cs: real, gs: real, req: GameRequirements)
    ensures DetermineOverallStatus(g, c, gs, cs, Swap(req)) == Mirror(DetermineOverallStatus(c, g, cs, gs, req))
  {
  }

  // ---------------------------------------------------------------------------------------
  // Message, recommendation and confidence

  /** `generateAnalysisMessage`: the component statuses are parameters but play no part. */
  function AnalysisMessage(overall: OverallStatus, cpuStatus: ComponentStatus, gpuStatus: ComponentStatus): (m: string)
    ensures |m| > 0
  {
    match overall
    case AllOverkill => "🚀 Hardware mais que suficiente! Configuração premium."
    case AllExcellent => "✅ Hardware excelente! Ideal para este jogo."
    case Balanced => "⚖️ Hardware balanceado e adequado."
    case AllAdequate => "✔️ Hardware suficiente, mas pode ter limitações."
    case CpuStrongGpuOk => "💪 CPU excelente, GPU adequada."
    case GpuStrongCpuOk => "🎨 GPU excelente, CPU adequada."
    case CpuBottleneck => "⚠️ CPU pode limitar o desempenho."
    case GpuBottleneck => "⚠️ GPU pode limitar o desempenho."
    case InsufficientBoth => "❌ Hardware insuficiente para este jogo."
  }

  /** Common tail of the two bottleneck recommendations. */
  const LimitingSuffix := " é o principal limitante - considere upgrade."

  /** `generateRecommendation`: neither the component statuses nor the game name play a part. */
  function Recommendation(overall: OverallStatus, cpuStatus: ComponentStatus, gpuStatus: ComponentStatus, gameName: string): (m: string)
    ensures |m| > 0
  {
    match overall
    case AllOverkill => "Use configurações Ultra/Máximas com tranquilidade."
    case AllExcellent => "Configurações Altas/Ultra recomendadas."
    case Balanced => "Configurações Médias/Altas para melhor equilíbrio."
    case AllAdequate => "Use configurações Médias para performance estável."
    case CpuStrongGpuOk => "Considere upgrade da GPU para melhor experiência."
    case GpuStrongCpuOk => "Upgrade do CPU melhoraria o desempenho."
    case CpuBottleneck => "CPU" + LimitingSuffix
    case GpuBottleneck => "GPU" + LimitingSuffix
    case InsufficientBoth => "Configurações Baixas ou upgrade do sistema."
  }

  /** Message and recommendation depend on the overall status only. */
  lemma TextsIgnoreComponents(
    o: OverallStatus, c1: ComponentStatus, g1: ComponentStatus, n1: string,
    c2: ComponentStatus, g2: ComponentStatus, n2: string)
    ensures AnalysisMessage(o, c1, g1) == AnalysisMessage(o, c2, g2)
    ensures Recommendation(o, c1, g1, n1) == Recommendation(o, c2, g2, n2)
  {
  }

  /** Distinct overall statuses get distinct messages and distinct recommendations. */
  lemma TextsDistinguishStatuses(o1: OverallStatus, o2: OverallStatus, c: ComponentStatus, g: ComponentStatus, n: string)
    requires o1 != o2
    ensures AnalysisMessage(o1, c, g) != AnalysisMessage(o2, c, g)
    ensures Recommendation(o1, c, g, n) != Recommendation(o2, c, g, n)
  {
    MessagesDiffer(o1, o2, c, g);
    RecommendationsDiffer(o1, o2, c, g, n);
  }

  /** Length of each message and, for the short ones, its third and fourth characters:
      distinct per status. */
  function MessageKey(o: OverallStatus): (nat, char, char)
  {
    match o
    case AllOverkill => (53, '.', '.')
    case AllExcellent => (43, '.', '.')
    case Balanced => (34, ' ', 'H')
    case AllAdequate => (48, '.', '.')
    case CpuStrongGpuOk => (30, 'C', 'P')
    case GpuStrongCpuOk => (30, 'G', 'P')
    case CpuBottleneck => (33, ' ', 'C')
    case GpuBottleneck => (33, ' ', 'G')
    case InsufficientBoth => (39, 'H', 'a')
  }

  /** The key read off a message text. */
  function KeyOfMessage(m: string): (nat, char, char)
    requires |m| >= 4
  {
    (|m|, if |m| < 40 then m[2] else m[|m| - 1], if |m| < 40 then m[3] else m[|m| - 1])
  }

  lemma MessageHasKey(o: OverallStatus, c: ComponentStatus, g: ComponentStatus)
    ensures |AnalysisMessage(o, c, g)| >= 4 && KeyOfMessage(AnalysisMessage(o, c, g)) == MessageKey(o)
  {
    if o.AllOverkill? || o.AllExcellent? || o.Balanced? {
      MessageKeyOf1(o, c, g);
    } else if o.AllAdequate? || o.CpuStrongGpuOk? || o.GpuStrongCpuOk? {
      MessageKeyOf2(o, c, g);
    } else {
      MessageKeyOf3(o, c, g);
    }
  }

  /** The keys of the messages, three statuses at a time. */
  lemma MessageKeyOf1(o: OverallStatus, c: ComponentStatus, g: ComponentStatus)
    requires o.AllOverkill? || o.AllExcellent? || o.Balanced?
    ensures |AnalysisMessage(o, c, g)| >= 4 && KeyOfMessage(AnalysisMessage(o, c, g)) == MessageKey(o)
  {
  }

  lemma MessageKeyOf2(o: OverallStatus, c: ComponentStatus, g: ComponentStatus)
    requires o.AllAdequate? || o.CpuStrongGpuOk? || o.GpuStrongCpuOk?
    ensures |AnalysisMessage(o, c, g)| >= 4 && KeyOfMessage(AnalysisMessage(o, c, g)) == MessageKey(o)
  {
  }

  lemma MessageKeyOf3(o: OverallStatus, c: ComponentStatus, g: ComponentStatus)
    requires o.CpuBottleneck? || o.GpuBottleneck? || o.InsufficientBoth?
    ensures |AnalysisMessage(o, c, g)| >= 4 && KeyOfMessage(AnalysisMessage(o, c, g)) == MessageKey(o)
  {
  }

  lemma MessagesDiffer(o1: OverallStatus, o2: OverallStatus, c: ComponentStatus, g: ComponentStatus)
    requires o1 != o2
    ensures AnalysisMessage(o1, c, g) != AnalysisMessage(o2, c, g)
  {
    MessageHasKey(o1, c, g);
    MessageHasKey(o2, c, g);
    assert MessageKey(o1) != MessageKey(o2);
  }

  /** Length, next-to-last character and, for the two bottleneck texts, first character of
      each recommendation: distinct per status. */
  function RecommendationKey(o: OverallStatus): (nat, char, char)
  {
    match o
    case AllOverkill => (50, 'e', ' ')
    case AllExcellent => (39, 's', ' ')
    case Balanced => (50, 'o', ' ')
    case AllAdequate => (50, 'l', ' ')
    case CpuStrongGpuOk => (49, 'a', ' ')
    case GpuStrongCpuOk => (39, 'o', ' ')
    case CpuBottleneck => (48, 'e', 'C')
    case GpuBottleneck => (48, 'e', 'G')
    case InsufficientBoth => (43, 'a', ' ')
  }

  /** The key read off a recommendation text. */
  function KeyOfRecommendation(m: string): (nat, char, char)
    requires |m| >= 2
  {
    (|m|, m[|m| - 2], if |m| == 48 then m[0] else ' ')
  }

  lemma RecommendationHasKey(o: OverallStatus, c: ComponentStatus, g: ComponentStatus, n: string)
    ensures |Recommendation(o, c, g, n)| >= 2 && KeyOfRecommendation(Recommendation(o, c, g, n)) == RecommendationKey(o)
  {
    if o.AllOverkill? || o.AllExcellent? || o.Balanced? {
      RecommendationKeyOf1(o, c, g, n);
    } else if o.AllAdequate? || o.CpuStrongGpuOk? || o.GpuStrongCpuOk? {
      RecommendationKeyOf2(o, c, g, n);
    } else {
      RecommendationKeyOf3(o, c, g, n);
    }
  }

  /** The keys of the recommendations, three statuses at a time. */
  lemma RecommendationKeyOf1(o: OverallStatus, c: ComponentStatus, g: ComponentStatus, n: string)
    requires o.AllOverkill? || o.AllExcellent? || o.Balanced?
    ensures |Recommendation(o, c, g, n)| >= 2 && KeyOfRecommendation(Recommendation(o, c, g, n)) == RecommendationKey(o)
  {
  }

  lemma RecommendationKeyOf2(o: OverallStatus, c: ComponentStatus, g: ComponentStatus, n: string)
    requires o.AllAdequate? || o.CpuStrongGpuOk? || o.GpuStrongCpuOk?
    ensures |Recommendation(o, c, g, n)| >= 2 && KeyOfRecommendation(Recommendation(o, c, g, n)) == RecommendationKey(o)
  {
  }

  lemma RecommendationKeyOf3(o: OverallStatus, c: ComponentStatus, g: ComponentStatus, n: string)
    requires o.CpuBottleneck? || o.GpuBottleneck? || o.InsufficientBoth?
    ensures |Recommendation(o, c, g, n)| >= 2 && KeyOfRecommendation(Recommendation(o, c, g, n)) == RecommendationKey(o)
  {
  }

  lemma RecommendationsDiffer(o1: OverallStatus, o2: OverallStatus, c: ComponentStatus, g: ComponentStatus, n: string)
    requires o1 != o2
    ensures Recommendation(o1, c, g, n) != Recommendation(o2, c, g, n)
  {
    RecommendationHasKey(o1, c, g, n);
    RecommendationHasKey(o2, c, g, n);
    assert RecommendationKey(o1) != RecommendationKey(o2);
  }

  /** Confidence for an average score/recommendation ratio. */
  function ConfidenceForRatio(average: real): (c: real)
    ensures c in {0.95, 0.90, 0.85, 0.75, 0.65, 0.50}
  {
    if average >= 1.5 then 0.95
    else if average >= 1.2 then 0.90
    else if average >= 1.0 then 0.85
    else if average >= 0.8 then 0.75
    else if average >= 0.6 then 0.65
    else 0.50
  }

  /** `calculateConfidence`: the step function of the mean of the two score/recommendation
      ratios. */
  function Confidence(cpuScore: real, gpuScore: real, requirements: GameRequirements): (c: real)
    requires requirements.recommendedCpu > 0.0 && requirements.recommendedGpu > 0.0
    ensures c in {0.95, 0.90, 0.85, 0.75, 0.65, 0.50}
    ensures cpuScore >= requirements.recommendedCpu * 1.5 && gpuScore >= requirements.recommendedGpu * 1.5 ==> c == 0.95
    ensures cpuScore < requirements.recommendedCpu * 0.6 && gpuScore < requirements.recommendedGpu * 0.6 ==> c == 0.50
  {
    var cpuRatio := cpuScore / requirements.recommendedCpu;
    var gpuRatio := gpuScore / requirements.recommendedGpu;
    RatioBounds(cpuScore, requirements.recommendedCpu);
    RatioBounds(gpuScore, requirements.recommendedGpu);
    ConfidenceForRatio((cpuRatio + gpuRatio) / 2.0)
  }

  lemma RatioBounds(score: real, recommended: real)
    requires recommended > 0.0
    ensures score >= recommended * 1.5 ==> score / recommended >= 1.5
    ensures score < recommended * 0.6 ==> score / recommended < 0.6
  {
  }

  /** Confidence never falls as the average ratio grows. */
  lemma ConfidenceMonotone(a1: real, a2: real)
    requires a1 <= a2
    ensures ConfidenceForRatio(a1) <= ConfidenceForRatio(a2)
  {
  }

  /** With the other score fixed, a higher CPU score never lowers the confidence. */
  lemma {:induction false} ConfidenceMonotoneInCpu(cs1: real, cs2: real, gs: real, req: GameRequirements)
    requires req.recommendedCpu > 0.0 && req.recommendedGpu > 0.0
    requires cs1 <= cs2
    ensures Confidence(cs1, gs, req) <= Confidence(cs2, gs, req)
  {
    assert cs1 / req.recommendedCpu <= cs2 / req.recommendedCpu by {
      assert cs2 / req.recommendedCpu - cs1 / req.recommendedCpu == (cs2 - cs1) / req.recommendedCpu;
    }
    ConfidenceMonotone(
      (cs1 / req.recommendedCpu + gs / req.recommendedGpu) / 2.0,
      (cs2 / req.recommendedCpu + gs / req.recommendedGpu) / 2.0);
  }

  // ---------------------------------------------------------------------------------------
  // The analysis

  /** `analyzeHardwareAdequacy` on the two gaming scores. */
  function AnalyzeScores(cpuScore: real, gpuScore: real, game: Game, resolution: string): (a: HardwareAnalysis)
    requires GetGameRequirements(game, resolution).recommendedCpu > 0.0
    requires GetGameRequirements(game, resolution).recommendedGpu > 0.0
    ensures var req := GetGameRequirements(game, resolution);
      && a.cpuStatus == Classify(cpuScore, req.recommendedCpu, req.minimumCpu)
      && a.gpuStatus == Classify(gpuScore, req.recommendedGpu, req.minimumGpu)
    ensures a.overallStatus == InsufficientBoth <==> a.cpuStatus == Insufficient && a.gpuStatus == Insufficient
    ensures a.confidenceLevel in {0.95, 0.90, 0.85, 0.75, 0.65, 0.50}
    ensures a.overallStatus == AllOverkill ==>
      a.cpuStatus == Overkill && a.gpuStatus == Overkill && a.confidenceLevel == 0.95
    ensures a.overallStatus == DetermineOverallStatus(
      a.cpuStatus, a.gpuStatus, cpuScore, gpuScore, GetGameRequirements(game, resolution))
    ensures a.message == AnalysisMessage(a.overallStatus, a.cpuStatus, a.gpuStatus)
    ensures a.recommendation == Recommendation(a.overallStatus, a.cpuStatus, a.gpuStatus, game.name)
    ensures a.confidenceLevel == Confidence(cpuScore, gpuScore, GetGameRequirements(game, resolution))
  {
    var req := GetGameRequirements(game, resolution);
    var c := Classify(cpuScore, req.recommendedCpu, req.minimumCpu);
    var g := Classify(gpuScore, req.recommendedGpu, req.minimumGpu);
    var o := DetermineOverallStatus(c, g, cpuScore, gpuScore, req);
    HardwareAnalysis(o, c, g, AnalysisMessage(o, c, g), Recommendation(o, c, g, game.name),
                     Confidence(cpuScore, gpuScore, req))
  }

  /** `analyzeHardwareAdequacy`: the components enter through their gaming scores. */
  function AnalyzeHardwareAdequacy(cpu: BenchmarkGames.Cpu, gpu: BenchmarkGames.Gpu, game: Game, resolution: string): (a: HardwareAnalysis)
    requires GetGameRequirements(game, resolution).recommendedCpu > 0.0
    requires GetGameRequirements(game, resolution).recommendedGpu > 0.0
    ensures var req := GetGameRequirements(game, resolution);
      && a.cpuStatus == Classify(BenchmarkGames.CpuGamingScore(cpu) as real, req.recommendedCpu, req.minimumCpu)
      && a.gpuStatus == Classify(BenchmarkGames.GpuGamingScore(gpu) as real, req.recommendedGpu, req.minimumGpu)
    ensures a.overallStatus == InsufficientBoth <==> a.cpuStatus == Insufficient && a.gpuStatus == Insufficient
    ensures a.confidenceLevel in {0.95, 0.90, 0.85, 0.75, 0.65, 0.50}
    ensures a.overallStatus == AllOverkill ==>
      a.cpuStatus == Overkill && a.gpuStatus == Overkill && a.confidenceLevel == 0.95
    ensures a.overallStatus == DetermineOverallStatus(
      a.cpuStatus, a.gpuStatus,
      BenchmarkGames.CpuGamingScore(cpu) as real, BenchmarkGames.GpuGamingScore(gpu) as real,
      GetGameRequirements(game, resolution))
    ensures a.message == AnalysisMessage(a.overallStatus, a.cpuStatus, a.gpuStatus)
    ensures a.recommendation == Recommendation(a.overallStatus, a.cpuStatus, a.gpuStatus, game.name)
    ensures a.confidenceLevel == Confidence(
      BenchmarkGames.CpuGamingScore(cpu) as real, BenchmarkGames.GpuGamingScore(gpu) as real,
      GetGameRequirements(game, resolution))
  {
    AnalyzeScores(BenchmarkGames.CpuGamingScore(cpu) as real, BenchmarkGames.GpuGamingScore(gpu) as real, game, resolution)
  }

  /** Both components at exactly 1.5 times their recommendation are each classified overkill,
      yet the overall status is only excellent: the overall test is strict. */
  lemma ExactlyOneAndHalfIsExcellent(game: Game, resolution: string)
    requires GetGameRequirements(game, resolution).recommendedCpu > 0.0
    requires GetGameRequirements(game, resolution).recommendedGpu > 0.0
    ensures var req := GetGameRequirements(game, resolution);
      var a := AnalyzeScores(req.recommendedCpu * 1.5, req.recommendedGpu * 1.5, game, resolution);
      a.cpuStatus == Overkill && a.gpuStatus == Overkill && a.overallStatus == AllExcellent
  {
  }
}
