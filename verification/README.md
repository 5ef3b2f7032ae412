# Hardware catalogue scoring, in Dafny

A model of the decision logic of an Android catalogue of PC parts (CPUs, GPUs and games).
The app works out a component's derived thermal figures and performance score when it is
built. It rates a CPU and a GPU together for a game: their gaming scores, the bottleneck
percentage and its label, the estimated gaming temperatures and thermal risk, and the
adequacy analysis against the game's requirements. It also builds the side-by-side
comparison tables of two CPUs or two GPUs, and the comparison screens read a winner and a
headline from those tables. The selection and search behaviour of the comparison screens
is modelled as well.

The model keeps each operation's branches, thresholds and texts, with these numeric
conventions:

- Kotlin `Float`/`Double` values are `real`. Rounding to IEEE precision is not modelled.
- `Int` is `int`.
- `.toInt()` is `Numeric.ToInt`. It truncates toward zero and saturates at the 32-bit `Int`
  limits. Saturation matters where a division by zero produces an infinity.
- Integer `/` is `Numeric.TDiv`, which truncates toward zero.
- `coerceIn`, `coerceAtMost` and `coerceAtLeast` are `Numeric.Clamp`, `Numeric.AtMost` and
  `Numeric.AtLeast`.
- `contains(…, ignoreCase = true)` is `Text.ContainsIC`, with ASCII case folding.
- A comparison map becomes a sequence of `Comparison.Row` values in insertion order. Each
  row holds its key, caption, both values and the difference text (`values[3]`).

Modules:

| module | file | models |
|---|---|---|
| `Numeric` | numeric.dfy | Kotlin's conversions, truncating division and clamps |
| `Text` | text.dfy | `contains`, case-insensitive `contains`, blank test, decimal `toString` |
| `Tiers`, `Wrappers` | tiers.dfy | the first-match `when` ladders over name substrings; `Option` |
| `CpuData` | cpu.dfy | the `Cpu` record and its derived fields |
| `GpuData` | gpu.dfy | the `Gpu` record and its derived fields |
| `GameData` | game.dfy | the `Game` record and its requirement scores |
| `BenchmarkGames` | games.dfy | gaming scores, bottleneck, gaming temperatures, thermal risk |
| `GamePerformance` | adequacy.dfy | the hardware adequacy analysis of the game-performance screen |
| `Comparison` | rows.dfy | comparison rows, signed and percentage differences, tally and decision |
| `CpuComparison` | cpu_compare.dfy | the eight-row CPU comparison and its thermal helpers |
| `GpuComparison` | gpu_compare.dfy | the ten-row GPU comparison and its thermal helpers |
| `Screens` | screens.dfy | winner and headline of the comparison screens |
| `Selection` | selection.dfy | selection, search and navigation of the comparison screens |

## Model

| member | source | states |
|---|---|---|
| Numeric.Trunc | app/src/main/java/com/silenciopz/hardware/data/Cpu.kt:58 | Converting a fraction to `Int` drops the fractional part toward zero: the result is within one of the input and no farther from zero. |
| Numeric.ToInt | app/src/main/java/com/silenciopz/hardware/data/Cpu.kt:88 | `.toInt()` stays inside the 32-bit `Int` range. It equals the truncation whenever that fits, and it is never negative for a non-negative input. |
| Numeric.ToIntMonotone | app/src/main/java/com/silenciopz/hardware/data/Cpu.kt:88 | `.toInt()` never reverses the order of two values. |
| Numeric.TDiv | app/src/main/java/com/silenciopz/hardware/data/Cpu.kt:27-30 | `Int` division by a positive divisor truncates toward zero: quotient times divisor is within one divisor of the dividend, on the dividend's side of zero. |
| Numeric.TDivMonotone | app/src/main/java/com/silenciopz/hardware/data/Cpu.kt:27-30 | A larger dividend never gives a smaller truncated quotient. |
| Numeric.Clamp | app/src/main/java/com/silenciopz/hardware/data/Cpu.kt:31 | `coerceIn(lo, hi)` lands in the range. It keeps values inside it and sends values below or above to the nearer bound. |
| Numeric.AtMost | app/src/main/java/com/silenciopz/hardware/utils/BenchmarkGpus.kt:74 | `coerceAtMost(hi)` gives the smaller of the value and the bound. |
| Numeric.Scale | app/src/main/java/com/silenciopz/hardware/data/Cpu.kt:88 | Scaling a non-negative score by a non-negative factor and truncating gives a non-negative score. |
| Numeric.ScaleMonotone | app/src/main/java/com/silenciopz/hardware/data/Cpu.kt:88 | The truncated scaled score grows with the score for a fixed non-negative factor. |
| Numeric.ScaleMonotoneInFactor | app/src/main/java/com/example/silenciohardwarestore/utils/BenchmarkUtils.kt:61-76 | The truncated scaled score grows with the factor for a fixed non-negative score. |
| Text.ContainsSpec | app/src/main/java/com/silenciopz/hardware/ui/components/CpuComparisonScreen.kt:51-63 | `contains` holds exactly when the pattern occurs at some position of the text. |
| Text.ContainsTransitive | app/src/main/java/com/silenciopz/hardware/ui/components/CpuComparisonScreen.kt:51-63 | A text that contains a string also contains every substring of that string. |
| Text.ContainsICSpec | app/src/main/java/com/silenciopz/hardware/data/Cpu.kt:27 | `contains(…, ignoreCase = true)` holds exactly when the pattern matches at some position with letters compared case-insensitively. |
| Text.ContainsICTransitive | app/src/main/java/com/silenciopz/hardware/ui/components/CpuComparisonScreen.kt:51-63 | Case-insensitive containment is transitive. |
| Text.ContainsICIgnoresCase | app/src/main/java/com/silenciopz/hardware/data/Cpu.kt:27-47 | Texts that differ only in letter case contain the same patterns, ignoring case. |
| Text.IntToString | app/src/main/java/com/silenciopz/hardware/ui/components/CpuComparisonScreen.kt:51-63 | The decimal text of an `Int` starts with '-' exactly for negative numbers and with a digit otherwise. |
| Text.IntToStringRoundTrip | app/src/main/java/com/silenciopz/hardware/ui/components/CpuComparisonScreen.kt:51-63 | Reading back the decimal text of a number gives the number. |
| Text.IntToStringInjective | app/src/main/java/com/silenciopz/hardware/ui/components/CpuComparisonScreen.kt:51-63 | Different numbers have different decimal texts, so a search on the core count or TDP text tells the numbers apart. |
| Text.Take | app/src/main/java/com/example/silenciohardwarestore/utils/BenchmarkUtils.kt:159-160 | `take(n)` is a prefix of the text, of length `n` or the whole text if shorter. |
| Tiers.FirstMatch | app/src/main/java/com/silenciopz/hardware/data/Cpu.kt:70-86 | A `when` ladder picks the first entry whose name test holds. Every entry before it fails, and none holds when it runs off the end. |
| Tiers.Bonus | app/src/main/java/com/silenciopz/hardware/data/Cpu.kt:70-86 | The ladder's bonus is the first matching entry's value, or the `else` value when no entry matches. |
| Tiers.BonusWithin | app/src/main/java/com/silenciopz/hardware/data/Cpu.kt:70-86 | A ladder whose values and fallback lie within bounds gives a bonus within those bounds. |
| CpuData.BaseTemp | app/src/main/java/com/silenciopz/hardware/data/Cpu.kt:25-32 | The idle temperature always lies between 30 and 50 °C. |
| CpuData.BaseTempMonotone | app/src/main/java/com/silenciopz/hardware/data/Cpu.kt:25-31 | For a fixed brand and turbo clock, a higher TDP never lowers the idle temperature, including across the Intel 100 W step. |
| CpuData.MaxSafeTemp | app/src/main/java/com/silenciopz/hardware/data/Cpu.kt:34-40 | The maximum safe temperature is 100 (Intel), 95 (AMD) or 85 °C. |
| CpuData.ThrottleTemp | app/src/main/java/com/silenciopz/hardware/data/Cpu.kt:42-48 | The throttle temperature is 105 (Intel), 90 (AMD) or 85 °C. |
| CpuData.CpuThrottleVsMaxSafe | app/src/main/java/com/silenciopz/hardware/data/Cpu.kt:34-48 | Intel throttles 5 °C above its safe maximum, AMD 5 °C below it, and other brands exactly at it. |
| CpuData.ThermalsIgnoreBrandCase | app/src/main/java/com/silenciopz/hardware/data/Cpu.kt:25-48 | The derived temperatures depend on the brand only up to letter case. |
| CpuData.LowerCaseAmd | app/src/main/java/com/silenciopz/hardware/data/Cpu.kt:25-86 | "amd" gets AMD temperatures, because the thermal tests ignore case. It gets no AMD score bonus, because the score's brand test is exact. |
| CpuData.CoreBonus | app/src/main/java/com/silenciopz/hardware/data/Cpu.kt:60-68 | The core multiplier lies between 0.6 and 1.8. Core counts outside 1..16, zero and negatives included, get 1.8. |
| CpuData.CoreBonusMonotone | app/src/main/java/com/silenciopz/hardware/data/Cpu.kt:60-68 | Over positive core counts, more cores never give a lower multiplier. |
| CpuData.BrandBonus | app/src/main/java/com/silenciopz/hardware/data/Cpu.kt:70-86 | The model multiplier lies between 0.9 and 1.8. A brand other than exactly "AMD" or "Intel" gets 1.0. |
| CpuData.ScoreFactor | app/src/main/java/com/silenciopz/hardware/data/Cpu.kt:60-88 | The combined core and model factor lies between 0.54 and 3.24. |
| CpuData.CpuScore | app/src/main/java/com/silenciopz/hardware/data/Cpu.kt:50-89 | The score is never negative when the clock used is non-negative. |
| CpuData.CpuScoreClockChoice | app/src/main/java/com/silenciopz/hardware/data/Cpu.kt:57-58 | A positive turbo clock decides the score and the base clock is ignored; otherwise the base clock is used. |
| CpuData.CpuScoreMonotone | app/src/main/java/com/silenciopz/hardware/data/Cpu.kt:57-88 | For the same model and core count, a higher clock never gives a lower score. |
| CpuData.NewCpu | app/src/main/java/com/silenciopz/hardware/data/Cpu.kt:3-22 | Building a CPU keeps every given field and fills the four defaults from their functions. The idle temperature is 30 to 50 °C. |
| GpuData.BaseTemp | app/src/main/java/com/example/silenciohardwarestore/data/Gpu.kt:21-28 | The idle temperature lies between 30 and 45 °C. Brands other than exactly "NVIDIA" or "AMD" use the plain `30 + tdp/18` rule. |
| GpuData.MaxSafeTemp | app/src/main/java/com/example/silenciohardwarestore/data/Gpu.kt:30-36 | The safe maximum is 83 (NVIDIA), 85 (AMD) or 80 °C for any other brand text. |
| GpuData.ThrottleTemp | app/src/main/java/com/example/silenciohardwarestore/data/Gpu.kt:38-44 | The throttle temperature is 88 (NVIDIA), 90 (AMD) or 85 °C for any other brand text. |
| GpuData.ThrottleAboveMaxSafe | app/src/main/java/com/example/silenciohardwarestore/data/Gpu.kt:30-44 | Every GPU throttles exactly 5 °C above its safe maximum. |
| GpuData.LowerCaseNvidia | app/src/main/java/com/example/silenciohardwarestore/data/Gpu.kt:21-80 | "nvidia" is not NVIDIA: the brand tests are exact, so it gets the default temperatures and no bonus. |
| GpuData.RecommendedCooling | app/src/main/java/com/example/silenciohardwarestore/data/Gpu.kt:46-53 | The four cooler texts partition the TDP axis at 150, 200 and 300 W, each band iff the TDP lies in it. |
| GpuData.CoolingIgnoresMemory | app/src/main/java/com/example/silenciohardwarestore/data/Gpu.kt:46-53 | The cooling recommendation does not depend on the memory size. |
| GpuData.BrandBonus | app/src/main/java/com/example/silenciohardwarestore/data/Gpu.kt:63-80 | The series multiplier lies between 0.6 and 1.8. Brands other than exactly "NVIDIA" or "AMD" get 1.0. |
| GpuData.Gtx16BeforeGtx | app/src/main/java/com/example/silenciohardwarestore/data/Gpu.kt:64-71 | A GTX 16 name with no RTX series gets 0.7, not the plain GTX 0.6, because the GTX 16 test comes first. |
| GpuData.Gtx1660Bonus | app/src/main/java/com/example/silenciohardwarestore/data/Gpu.kt:64-71 | "GeForce GTX 1660" from NVIDIA gets the 0.7 multiplier. |
| GpuData.BaseScore | app/src/main/java/com/example/silenciohardwarestore/data/Gpu.kt:61 | The base score of a non-negative clock and memory is non-negative. |
| GpuData.GpuScore | app/src/main/java/com/example/silenciohardwarestore/data/Gpu.kt:55-83 | The score of a non-negative clock and memory is non-negative. |
| GpuData.GpuScoreMonotone | app/src/main/java/com/example/silenciohardwarestore/data/Gpu.kt:61-82 | For the same name and brand, more clock and more memory never lower the score. |
| GpuData.UnknownBrandScore | app/src/main/java/com/example/silenciohardwarestore/data/Gpu.kt:63-82 | For a brand without a ladder, the score is the base score unscaled. |
| GpuData.NewGpu | app/src/main/java/com/example/silenciohardwarestore/data/Gpu.kt:3-19 | Building a GPU keeps the given fields and fills the defaults. The idle temperature is 30 to 45 °C and the safe maximum is below the throttle point. |
| GameData.Requirement | app/src/main/java/com/example/silenciohardwarestore/data/Game.kt:18-32 | A requirement score is non-negative for a non-negative multiplier. With multiplier 1 it is the base score. |
| GameData.RequirementMonotone | app/src/main/java/com/example/silenciohardwarestore/data/Game.kt:18-32 | A larger bottleneck multiplier never lowers a requirement. |
| GameData.RequirementGrowsWithBase | app/src/main/java/com/example/silenciohardwarestore/data/Game.kt:18-32 | A larger base never lowers a requirement. |
| GameData.RequirementOrder | app/src/main/java/com/example/silenciohardwarestore/data/Game.kt:18-32 | Minimum ≤ recommended for CPU and GPU, and the GPU figure ≤ the CPU figure, for any non-negative multiplier. |
| GameData.NewGame | app/src/main/java/com/example/silenciohardwarestore/data/Game.kt:3-16 | Building a game keeps the given fields and derives the four requirement scores from the multiplier. |
| GameData.DefaultGame | app/src/main/java/com/example/silenciohardwarestore/data/Game.kt:9-15 | The defaults give intensities 0.7 and multiplier 1, hence requirements 15000/25000 (CPU) and 8000/15000 (GPU). |
| BenchmarkGames.SeriesBonus | app/src/main/java/com/silenciopz/hardware/utils/BenchmarkGames.kt:167-175 | The CPU series multiplier lies between 0.85 and 1.8. |
| BenchmarkGames.GenerationBonus | app/src/main/java/com/silenciopz/hardware/utils/BenchmarkGames.kt:177-186 | The generation multiplier lies between 1.0 and 1.5. |
| BenchmarkGames.CacheBonus | app/src/main/java/com/silenciopz/hardware/utils/BenchmarkGames.kt:188-192 | The cache multiplier lies between 0.9 and 1.8. |
| BenchmarkGames.X3dCacheBonus | app/src/main/java/com/silenciopz/hardware/utils/BenchmarkGames.kt:188-192 | An X3D model always gets the 1.8 cache multiplier. |
| BenchmarkGames.GCacheBonus | app/src/main/java/com/silenciopz/hardware/utils/BenchmarkGames.kt:188-192 | A name with a "G" and no X3D gets 0.9, whatever else it contains. |
| BenchmarkGames.CpuGamingFactor | app/src/main/java/com/silenciopz/hardware/utils/BenchmarkGames.kt:157-192 | The product of the CPU gaming multipliers is positive. |
| BenchmarkGames.CpuGamingScore | app/src/main/java/com/silenciopz/hardware/utils/BenchmarkGames.kt:152-195 | The CPU gaming score is non-negative when the clock used is non-negative. |
| BenchmarkGames.CpuGamingScoreAt | app/src/main/java/com/silenciopz/hardware/utils/BenchmarkGames.kt:153-194 | The gaming score at a given non-negative clock is non-negative. |
| BenchmarkGames.CpuGamingClockChoice | app/src/main/java/com/silenciopz/hardware/utils/BenchmarkGames.kt:153 | A positive turbo clock is used, otherwise the base clock. |
| BenchmarkGames.CpuGamingScoreMonotone | app/src/main/java/com/silenciopz/hardware/utils/BenchmarkGames.kt:153-194 | For the same name and cores, a higher clock never lowers the gaming score. |
| BenchmarkGames.VramBonus | app/src/main/java/com/silenciopz/hardware/utils/BenchmarkGames.kt:221-228 | The VRAM multiplier lies between 0.8 and 1.6. Memory below 4 or above 24 GB gets 1.0. |
| BenchmarkGames.ArchitectureBonus | app/src/main/java/com/silenciopz/hardware/utils/BenchmarkGames.kt:208-219 | The architecture multiplier lies between 0.6 and 1.8. |
| BenchmarkGames.BusWidthBonus | app/src/main/java/com/silenciopz/hardware/utils/BenchmarkGames.kt:230-239 | The bus-width multiplier lies between 0.9 and 1.4. |
| BenchmarkGames.GpuGamingFactor | app/src/main/java/com/silenciopz/hardware/utils/BenchmarkGames.kt:208-239 | The product of the GPU gaming multipliers is positive. |
| BenchmarkGames.GpuGamingScore | app/src/main/java/com/silenciopz/hardware/utils/BenchmarkGames.kt:197-244 | The GPU gaming score is non-negative for non-negative clock and memory. |
| BenchmarkGames.GpuGamingScoreAt | app/src/main/java/com/silenciopz/hardware/utils/BenchmarkGames.kt:198-243 | The GPU gaming score at a given clock is non-negative for non-negative inputs. |
| BenchmarkGames.GpuGamingScoreMonotone | app/src/main/java/com/silenciopz/hardware/utils/BenchmarkGames.kt:198-243 | For the same name and memory, a higher effective clock never lowers the gaming score. |
| BenchmarkGames.ResolutionMultiplier | app/src/main/java/com/silenciopz/hardware/utils/BenchmarkGames.kt:252-260 | The GPU weight is 0.3, 2.0 or 3.0 exactly for 1024x768, 1440p and 4K. Every other text gets 1.0. |
| BenchmarkGames.WeightedCpu | app/src/main/java/com/silenciopz/hardware/utils/BenchmarkGames.kt:97-113 | For light games (multiplier < 0.8) the CPU weight is a flat 0.3, regardless of intensity. |
| BenchmarkGames.WeightedGpu | app/src/main/java/com/silenciopz/hardware/utils/BenchmarkGames.kt:97-113 | For light games the GPU weight is a flat 0.2 times the resolution weight. |
| BenchmarkGames.LightGameIgnoresIntensity | app/src/main/java/com/silenciopz/hardware/utils/BenchmarkGames.kt:97-113 | For light games the weighted scores do not depend on the game's intensities. |
| BenchmarkGames.Percent | app/src/main/java/com/silenciopz/hardware/utils/BenchmarkGames.kt:117-121 | The percentage lies in -99..99 and is positive exactly when the GPU side outweighs the CPU side. Its magnitude is the gap divided by the larger side, times 100, capped at 99. |
| BenchmarkGames.SeverityLabel | app/src/main/java/com/silenciopz/hardware/utils/BenchmarkGames.kt:123-138 | The label is "Equilibrado" exactly when the percentage is below 5 in absolute value. |
| BenchmarkGames.SeverityLabelCpuSide | app/src/main/java/com/silenciopz/hardware/utils/BenchmarkGames.kt:123-138 | A percentage of 5 or more is labelled by its level with "(CPU limitando)". |
| BenchmarkGames.SeverityLabelGpuSide | app/src/main/java/com/silenciopz/hardware/utils/BenchmarkGames.kt:123-138 | A percentage of -5 or less is labelled by its level with "(GPU limitando)". |
| BenchmarkGames.SeverityLabelNotOverkill | app/src/main/java/com/silenciopz/hardware/utils/BenchmarkGames.kt:123-138 | No severity label coincides with the overkill label. |
| BenchmarkGames.BottleneckFromScores | app/src/main/java/com/silenciopz/hardware/utils/BenchmarkGames.kt:55-150 | An early exit returns (0, "Hardware Overkill"). Otherwise the label is the severity of the returned percentage. |
| BenchmarkGames.OverkillLabelIffEarlyExit | app/src/main/java/com/silenciopz/hardware/utils/BenchmarkGames.kt:62-78 | The overkill label is returned exactly when one of the early exits is taken. |
| BenchmarkGames.BottleneckPercent | app/src/main/java/com/silenciopz/hardware/utils/BenchmarkGames.kt:97-149 | Past the exits, the percentage lies in [-99, 99] and is positive iff the weighted GPU score outweighs the CPU score. |
| BenchmarkGames.CalculateBottleneck | app/src/main/java/com/silenciopz/hardware/utils/BenchmarkGames.kt:55-150 | Overkill gives (0, the overkill label). The overkill label appears exactly when one of the three early exits applies to the two gaming scores. Otherwise the label is the severity of the returned percentage. |
| BenchmarkGames.BottleneckSeesOnlyScores | app/src/main/java/com/silenciopz/hardware/utils/BenchmarkGames.kt:55-150 | Two CPUs with the same gaming score get the same bottleneck result; the name tests only feed the debug trace. |
| BenchmarkGames.BottleneckSeverity | app/src/main/java/com/silenciopz/hardware/utils/BenchmarkGames.kt:401-417 | The table label is "✅ Balanceado" exactly when the percentage is below 8 in absolute value. |
| BenchmarkGames.BottleneckSeverityCpuSide | app/src/main/java/com/silenciopz/hardware/utils/BenchmarkGames.kt:401-417 | A percentage of 8 or more gets its mark and level with "(CPU)". |
| BenchmarkGames.BottleneckSeverityGpuSide | app/src/main/java/com/silenciopz/hardware/utils/BenchmarkGames.kt:401-417 | A percentage of -8 or less gets its mark and level with "(GPU)". |
| BenchmarkGames.SeverityBandsDisagree | app/src/main/java/com/silenciopz/hardware/utils/BenchmarkGames.kt:123-138 | For 5 ≤ \|p\| < 8 the two labellings disagree: the bottleneck label says "Leve", the table says balanced. |
| BenchmarkGames.LoadTemp | app/src/main/java/com/silenciopz/hardware/utils/BenchmarkGames.kt:286 | The gaming temperature is at least the idle temperature. It is the idle temperature plus the load when that stays under the ceiling, and it never exceeds a ceiling above idle. |
| BenchmarkGames.LoadTempMonotone | app/src/main/java/com/silenciopz/hardware/utils/BenchmarkGames.kt:286 | More load never lowers the gaming temperature. |
| BenchmarkGames.CpuCeiling | app/src/main/java/com/silenciopz/hardware/utils/BenchmarkGames.kt:264-287 | The CPU temperature ceiling is 85, 80 or 75 °C. |
| BenchmarkGames.GpuCeiling | app/src/main/java/com/silenciopz/hardware/utils/BenchmarkGames.kt:290-312 | The GPU temperature ceiling is 85, 80 or 75 °C. |
| BenchmarkGames.CpuIntensityOf | app/src/main/java/com/silenciopz/hardware/utils/BenchmarkGames.kt:262-287 | Without a game the intensity is 1.0; with one it is the game's CPU intensity. |
| BenchmarkGames.GpuIntensityOf | app/src/main/java/com/silenciopz/hardware/utils/BenchmarkGames.kt:290-312 | Without a game the intensity is 1.0; with one it is the game's GPU intensity. |
| BenchmarkGames.CpuGamingTemp | app/src/main/java/com/silenciopz/hardware/utils/BenchmarkGames.kt:264-287 | The CPU gaming temperature is at least its idle temperature, and at most the ceiling when idle is below it. |
| BenchmarkGames.GpuGamingTemp | app/src/main/java/com/silenciopz/hardware/utils/BenchmarkGames.kt:290-312 | The GPU gaming temperature is at least its idle temperature, and at most the ceiling when idle is below it. |
| BenchmarkGames.CpuLoadMonotone | app/src/main/java/com/silenciopz/hardware/utils/BenchmarkGames.kt:264-287 | A more intensive game never lowers the CPU load. |
| BenchmarkGames.GpuLoadMonotone | app/src/main/java/com/silenciopz/hardware/utils/BenchmarkGames.kt:290-312 | A more intensive game never lowers the GPU load. |
| BenchmarkGames.GamingTempMonotone | app/src/main/java/com/silenciopz/hardware/utils/BenchmarkGames.kt:262-312 | More intensive games never lower the estimated gaming temperatures. |
| BenchmarkGames.NoGameIsFullIntensity | app/src/main/java/com/silenciopz/hardware/utils/BenchmarkGames.kt:262-312 | A game above 0.8 intensity is treated like no game, at full intensity. |
| BenchmarkGames.CpuRisk | app/src/main/java/com/silenciopz/hardware/utils/BenchmarkGames.kt:322-331 | The CPU risk is one of 90, 75, 60, 45, 30, 20, 10, 5. |
| BenchmarkGames.CpuRiskMonotone | app/src/main/java/com/silenciopz/hardware/utils/BenchmarkGames.kt:322-331 | A hotter CPU never has a lower risk. |
| BenchmarkGames.GpuRisk | app/src/main/java/com/silenciopz/hardware/utils/BenchmarkGames.kt:333-342 | The GPU risk is one of 90, 80, 65, 50, 35, 20, 10, 5. |
| BenchmarkGames.GpuRiskMonotone | app/src/main/java/com/silenciopz/hardware/utils/BenchmarkGames.kt:333-342 | A hotter GPU never has a lower risk. |
| BenchmarkGames.ThermalRisk | app/src/main/java/com/silenciopz/hardware/utils/BenchmarkGames.kt:318-348 | Each risk lies in its own ladder: 90/75/60/45/30/20/10/5 for the CPU and 90/80/65/50/35/20/10/5 for the GPU. |
| BenchmarkGames.ThermalRiskMonotone | app/src/main/java/com/silenciopz/hardware/utils/BenchmarkGames.kt:318-348 | A game at least as CPU- and GPU-intensive never lowers either risk figure, for components with non-negative TDP. |
| BenchmarkGames.OverallThermalRisk | app/src/main/java/com/silenciopz/hardware/utils/BenchmarkGames.kt:377-388 | The overall label is the label of the larger of the two risks. |
| BenchmarkGames.OverallThermalRiskSymmetric | app/src/main/java/com/silenciopz/hardware/utils/BenchmarkGames.kt:377-388 | The overall label does not depend on the order of the two risks. |
| GamePerformance.GetMinCpuScore | app/src/main/java/com/example/silenciohardwarestore/ui/components/GamePerformanceScreen.kt:833-835 | The extension ignores the stored field and recomputes `(15000 * bottleneckMultiplier).toInt()`. That equals the stored minimum CPU score whenever the record was derived from its multiplier. |
| GamePerformance.GetRecCpuScore | app/src/main/java/com/example/silenciohardwarestore/ui/components/GamePerformanceScreen.kt:837-839 | Recomputed as `(25000 * bottleneckMultiplier).toInt()`, not read from the record. It equals the stored recommended CPU score of a derived record. |
| GamePerformance.GetMinGpuScore | app/src/main/java/com/example/silenciohardwarestore/ui/components/GamePerformanceScreen.kt:841-843 | Recomputed as `(8000 * bottleneckMultiplier).toInt()`, not read from the record. It equals the stored minimum GPU score of a derived record. |
| GamePerformance.GetRecGpuScore | app/src/main/java/com/example/silenciohardwarestore/ui/components/GamePerformanceScreen.kt:845-847 | Recomputed as `(15000 * bottleneckMultiplier).toInt()`, not read from the record. It equals the stored recommended GPU score of a derived record. |
| GamePerformance.RequirementMultiplier | app/src/main/java/com/example/silenciohardwarestore/ui/components/GamePerformanceScreen.kt:289-309 | The requirement weight is 0.6, 1.6 or 2.8 exactly for 1024x768, 1440p and 4K. Every other text gets 1.0. |
| GamePerformance.RequirementsOrdered | app/src/main/java/com/example/silenciohardwarestore/ui/components/GamePerformanceScreen.kt:289-309 | Scaled requirements keep minimum ≤ recommended for each component, and all are non-negative. |
| GamePerformance.RequirementsScaleTogether | app/src/main/java/com/example/silenciohardwarestore/ui/components/GamePerformanceScreen.kt:289-309 | Each requirement is its 1080p value times the one resolution weight. |
| GamePerformance.Classify | app/src/main/java/com/example/silenciohardwarestore/ui/components/GamePerformanceScreen.kt:261-275 | The four statuses partition the score axis. Overkill starts at 1.5× the recommendation and excellent at 1.2×. Adequate starts at the recommendation, or at 1.2× the minimum when that is lower. Everything below is insufficient. |
| GamePerformance.InsufficientIff | app/src/main/java/com/example/silenciohardwarestore/ui/components/GamePerformanceScreen.kt:261-275 | With a non-negative recommendation, a score is insufficient exactly when it is below the recommendation and below 1.2× the minimum. |
| GamePerformance.Rank | app/src/main/java/com/example/silenciohardwarestore/ui/components/GamePerformanceScreen.kt:552-560 | Ranking the statuses puts insufficient lowest and overkill highest. |
| GamePerformance.ClassifyMonotone | app/src/main/java/com/example/silenciohardwarestore/ui/components/GamePerformanceScreen.kt:261-275 | A higher score never gets a lower status. |
| GamePerformance.DetermineOverallStatus | app/src/main/java/com/example/silenciohardwarestore/ui/components/GamePerformanceScreen.kt:311-343 | Each of the eight combined statuses holds exactly under its own pair of component statuses. Both components excellent or overkill gives "all overkill" when both scores are strictly above 1.5× their recommendation, and "all excellent" otherwise. |
| GamePerformance.BalancedIff | app/src/main/java/com/example/silenciohardwarestore/ui/components/GamePerformanceScreen.kt:311-343 | The overall status is balanced exactly for overkill paired with adequate, in either order. |
| GamePerformance.MirrorInvolution | app/src/main/java/com/example/silenciohardwarestore/ui/components/GamePerformanceScreen.kt:536-560 | Swapping the CPU and GPU roles of an overall status twice gives it back. |
| GamePerformance.DecisionTableSymmetric | app/src/main/java/com/example/silenciohardwarestore/ui/components/GamePerformanceScreen.kt:311-343 | Swapping CPU and GPU swaps the overall status to its mirror: the decision table treats both components alike. |
| GamePerformance.AnalysisMessage | app/src/main/java/com/example/silenciohardwarestore/ui/components/GamePerformanceScreen.kt:345-361 | Every status has a non-empty message. |
| GamePerformance.Recommendation | app/src/main/java/com/example/silenciohardwarestore/ui/components/GamePerformanceScreen.kt:363-380 | Every status has a non-empty recommendation. |
| GamePerformance.TextsIgnoreComponents | app/src/main/java/com/example/silenciohardwarestore/ui/components/GamePerformanceScreen.kt:345-380 | The message and recommendation depend only on the overall status. |
| GamePerformance.TextsDistinguishStatuses | app/src/main/java/com/example/silenciohardwarestore/ui/components/GamePerformanceScreen.kt:345-380 | Different overall statuses give different messages and different recommendations. |
| GamePerformance.MessageHasKey | app/src/main/java/com/example/silenciohardwarestore/ui/components/GamePerformanceScreen.kt:345-361 | Each message has a length and two characters that identify its status. |
| GamePerformance.MessagesDiffer | app/src/main/java/com/example/silenciohardwarestore/ui/components/GamePerformanceScreen.kt:345-361 | Different overall statuses give different messages. |
| GamePerformance.RecommendationHasKey | app/src/main/java/com/example/silenciohardwarestore/ui/components/GamePerformanceScreen.kt:363-380 | Each recommendation has a length and two characters that identify its status. |
| GamePerformance.RecommendationsDiffer | app/src/main/java/com/example/silenciohardwarestore/ui/components/GamePerformanceScreen.kt:363-380 | Different overall statuses give different recommendations. |
| GamePerformance.ConfidenceForRatio | app/src/main/java/com/example/silenciohardwarestore/ui/components/GamePerformanceScreen.kt:382-395 | The confidence is one of 0.95, 0.90, 0.85, 0.75, 0.65, 0.50. |
| GamePerformance.ConfidenceMonotone | app/src/main/java/com/example/silenciohardwarestore/ui/components/GamePerformanceScreen.kt:382-395 | A higher average ratio never lowers the confidence. |
| GamePerformance.Confidence | app/src/main/java/com/example/silenciohardwarestore/ui/components/GamePerformanceScreen.kt:382-395 | Both scores at 1.5× recommended or more give 0.95. Both below 0.6× give 0.50. |
| GamePerformance.ConfidenceMonotoneInCpu | app/src/main/java/com/example/silenciohardwarestore/ui/components/GamePerformanceScreen.kt:382-395 | A higher CPU score never lowers the confidence. |
| GamePerformance.AnalyzeScores | app/src/main/java/com/example/silenciohardwarestore/ui/components/GamePerformanceScreen.kt:254-287 | Each component is classified against its scaled requirements. The overall status is the decision table applied to them, and the message, recommendation and confidence are the ones built from those statuses and the score-to-requirement ratios. Overall insufficient-both holds iff both are insufficient, and overall overkill implies both are overkill with 0.95 confidence. |
| GamePerformance.AnalyzeHardwareAdequacy | app/src/main/java/com/example/silenciohardwarestore/ui/components/GamePerformanceScreen.kt:254-287 | The CPU and GPU statuses classify the two gaming scores against the resolution-weighted requirements. The overall status is the decision table applied to them. "Insufficient both" holds exactly when both are insufficient. The message and recommendation are the texts for those three statuses and the game name, and the confidence is the level read off the two gaming-score-to-requirement ratios. It is one of the six levels, and 0.95 whenever the overall status is overkill. |
| GamePerformance.ExactlyOneAndHalfIsExcellent | app/src/main/java/com/example/silenciohardwarestore/ui/components/GamePerformanceScreen.kt:261-343 | At exactly 1.5× recommended both components are overkill, yet the overall status is only excellent, because the overall test is strict. |
| Comparison.Keys | app/src/main/java/com/example/silenciohardwarestore/utils/BenchmarkUtils.kt:8-59 | The keys of a table are its rows' keys, in order. |
| Comparison.Zip | app/src/main/java/com/example/silenciohardwarestore/utils/BenchmarkUtils.kt:8-59 | A table built from parallel columns has one row per key holding that key's entries. |
| Comparison.SignedText | app/src/main/java/com/example/silenciohardwarestore/utils/BenchmarkUtils.kt:180 | A difference reads "+…" exactly when positive and "-…" exactly when negative. |
| Comparison.SignedTextRoundTrip | app/src/main/java/com/example/silenciohardwarestore/utils/BenchmarkUtils.kt:180 | Reading back the signed text of a difference gives the difference. |
| Comparison.SignedMagnitude | app/src/main/java/com/example/silenciohardwarestore/utils/BenchmarkUtils.kt:38 | As written, the TDP row reads "+" iff the first is larger and "-" otherwise, equal values included. |
| Comparison.SignedMagnitudeRoundTrip | app/src/main/java/com/example/silenciohardwarestore/utils/BenchmarkUtils.kt:38 | The row's text still reads back as the signed difference. |
| Comparison.SignedDelta | app/src/main/java/com/example/silenciohardwarestore/utils/BenchmarkUtils.kt:38 | With the unit appended, "+" iff the first is larger and "-" iff it is not. |
| Comparison.SignedDeltaCorrected | app/src/main/java/com/example/silenciohardwarestore/utils/BenchmarkUtils.kt:38 | Corrected: "+" iff larger, "-" iff smaller. It agrees with the original whenever the values differ. |
| Comparison.Signed | app/src/main/java/com/silenciopz/hardware/utils/BenchmarkGpus.kt:19-49 | The GPU signed rows under either rule: as written, equal values count for the second GPU; corrected, they count for neither. |
| Comparison.PercentDifference | app/src/main/java/com/example/silenciohardwarestore/utils/BenchmarkUtils.kt:178-181 | Equal values give 0. For a positive base the sign says whether the first exceeds the second by at least 1%. For a zero base the sign is the first value's sign. |
| Comparison.DifferenceText | app/src/main/java/com/example/silenciohardwarestore/utils/BenchmarkUtils.kt:178-181 | The percentage text reads "+" exactly when the difference is positive and "-" exactly when it is negative. |
| Comparison.PercentDelta | app/src/main/java/com/example/silenciohardwarestore/utils/BenchmarkUtils.kt:14 | With "%" appended, the row still favours the first CPU exactly when the difference is positive and the second exactly when it is negative. |
| Comparison.EqualValuesPercentNeutral | app/src/main/java/com/example/silenciohardwarestore/utils/BenchmarkUtils.kt:178-181 | Equal values read "0", which favours neither side. |
| Comparison.Crowned | app/src/main/java/com/example/silenciohardwarestore/utils/BenchmarkUtils.kt:154-163 | The crowned text starts with the trophy and is at most five characters longer than the width. |
| Comparison.Verdict | app/src/main/java/com/example/silenciohardwarestore/utils/BenchmarkUtils.kt:154-163 | The one whose thermal score leads by more than the margin is crowned. Within the margin the verdict is "equivalent", and no verdict favours a side in the tally. |
| Comparison.VerdictSymmetric | app/src/main/java/com/example/silenciohardwarestore/utils/BenchmarkUtils.kt:154-163 | Swapping the two components does not change the verdict. |
| Comparison.Tally | app/src/main/java/com/silenciopz/hardware/ui/components/CpuComparisonScreen.kt:792-798 | Wins counted for the two sides never exceed the number of rows. |
| Comparison.CountWins | app/src/main/java/com/silenciopz/hardware/ui/components/CpuComparisonScreen.kt:792-798 | The counting loop computes the tally of the rows. |
| Comparison.TallyAppend | app/src/main/java/com/silenciopz/hardware/ui/components/CpuComparisonScreen.kt:792-798 | Tallies add over concatenated tables. |
| Comparison.TallyOne | app/src/main/java/com/silenciopz/hardware/ui/components/CpuComparisonScreen.kt:792-798 | A single row counts for the first side on "+", for the second on "-", and for neither otherwise. |
| Comparison.TallyNeutral | app/src/main/java/com/silenciopz/hardware/ui/components/CpuComparisonScreen.kt:792-798 | A table of neutral rows counts nothing. |
| Comparison.TallyAllSecond | app/src/main/java/com/silenciopz/hardware/ui/components/CpuComparisonScreen.kt:792-798 | A table of "-" rows counts every row for the second side. |
| Comparison.TallyOneDecisive | app/src/main/java/com/silenciopz/hardware/ui/components/CpuComparisonScreen.kt:792-798 | When all other rows are neutral, only the one remaining row decides the tally. |
| Comparison.Decide | app/src/main/java/com/silenciopz/hardware/ui/components/CpuComparisonScreen.kt:800-818 | Tie iff equal wins, first iff more, second iff fewer. A tie reads "EMPATE" / "Performance equivalente". |
| Comparison.DecidedScore | app/src/main/java/com/silenciopz/hardware/ui/components/CpuComparisonScreen.kt:800-812 | A decided score reads winner's count, " x ", loser's count. |
| Comparison.DecideSymmetric | app/src/main/java/com/silenciopz/hardware/ui/components/CpuComparisonScreen.kt:800-818 | Swapping the counts swaps the winner and keeps the score text. |
| Comparison.ScoreTextInjective | app/src/main/java/com/silenciopz/hardware/ui/components/CpuComparisonScreen.kt:804-810 | Different counts give different score texts. |
| CpuComparison.ScoresMonotoneInTurbo | app/src/main/java/com/example/silenciohardwarestore/utils/BenchmarkUtils.kt:61-76 | For the same cores and threads, a higher turbo clock never lowers any of the four scores. |
| CpuComparison.ProblematicIffGeneration | app/src/main/java/com/example/silenciohardwarestore/utils/BenchmarkUtils.kt:172-176 | The problematic Intel generations are exactly the names containing "13" or "14". |
| CpuComparison.HeavyTdpMultiplier | app/src/main/java/com/example/silenciohardwarestore/utils/BenchmarkUtils.kt:82-87 | The TDP heat multiplier lies between 1.1 and 1.6. |
| CpuComparison.HeavyBrandMultiplier | app/src/main/java/com/example/silenciohardwarestore/utils/BenchmarkUtils.kt:89-93 | The brand heat multiplier lies between 1.0 and 1.5. Only a brand of exactly "Intel" gets more than 1.0. |
| CpuComparison.HeavyWorkloadTemp | app/src/main/java/com/example/silenciohardwarestore/utils/BenchmarkUtils.kt:80-98 | The heavy-workload temperature never exceeds 5 °C below throttling. |
| CpuComparison.HeavyWorkloadTempAtLeastBase | app/src/main/java/com/example/silenciohardwarestore/utils/BenchmarkUtils.kt:80-98 | It is at least the idle temperature, capped by the same limit. |
| CpuComparison.OverclockRiskForHeadroom | app/src/main/java/com/example/silenciohardwarestore/utils/BenchmarkUtils.kt:105-111 | The risk is one of 85, 60, 40, 25, 15. |
| CpuComparison.OverclockRiskMonotone | app/src/main/java/com/example/silenciohardwarestore/utils/BenchmarkUtils.kt:105-111 | More headroom never means more risk. |
| CpuComparison.OverclockRisk | app/src/main/java/com/example/silenciohardwarestore/utils/BenchmarkUtils.kt:100-111 | The risk is one of the five bands. The headroom it is read from is at least 5 °C, because the heavy-workload estimate is capped 5 °C below throttling. |
| CpuComparison.StabilityRating | app/src/main/java/com/example/silenciohardwarestore/utils/BenchmarkUtils.kt:131-141 | The "problematic", "needs attention" and "excellent" ratings each hold exactly under their temperature and risk thresholds. |
| CpuComparison.StabilityRatingMonotone | app/src/main/java/com/example/silenciohardwarestore/utils/BenchmarkUtils.kt:131-141 | A hotter or riskier CPU never gets a better rating. |
| CpuComparison.ThermalDelta | app/src/main/java/com/example/silenciohardwarestore/utils/BenchmarkUtils.kt:143-152 | The thermal rows never read as a win for either side. They read "equivalent" exactly for equal values. |
| CpuComparison.ThermalScore | app/src/main/java/com/example/silenciohardwarestore/utils/BenchmarkUtils.kt:165-170 | The thermal score is non-negative for risks up to 100. |
| CpuComparison.ThermalScoreMonotone | app/src/main/java/com/example/silenciohardwarestore/utils/BenchmarkUtils.kt:165-170 | Hotter or riskier never scores higher. |
| CpuComparison.BetterThermalChoice | app/src/main/java/com/example/silenciohardwarestore/utils/BenchmarkUtils.kt:154-163 | Crowned beyond a 10-point lead, equivalent within it, and never counted in the tally. |
| CpuComparison.ProfileOf | app/src/main/java/com/example/silenciohardwarestore/utils/BenchmarkUtils.kt:61-176 | A CPU's figures as the table uses them: name and TDP kept, heavy temperature below the throttle limit, risk in its set. |
| CpuComparison.Column | app/src/main/java/com/example/silenciohardwarestore/utils/BenchmarkUtils.kt:8-59 | Each CPU column has eight values. |
| CpuComparison.StabilityVerdict | app/src/main/java/com/example/silenciohardwarestore/utils/BenchmarkUtils.kt:52-57 | The stability row is never counted for either side. |
| CpuComparison.CpuDeltas | app/src/main/java/com/example/silenciohardwarestore/utils/BenchmarkUtils.kt:8-59 | Each of the four score rows carries the percentage text of its own two scores, in table order. The TDP row is the signed TDP text, and the three thermal rows are neutral. |
| CpuComparison.ScoreDeltas | app/src/main/java/com/example/silenciohardwarestore/utils/BenchmarkUtils.kt:10-33 | The overall, single-core, multi-core and FPS rows each compare the matching pair of values, in that order. |
| CpuComparison.ThermalDeltas | app/src/main/java/com/example/silenciohardwarestore/utils/BenchmarkUtils.kt:40-57 | The heavy-workload, overclock-risk and stability rows never favour either CPU in a count. |
| CpuComparison.CpuTable | app/src/main/java/com/example/silenciohardwarestore/utils/BenchmarkUtils.kt:8-59 | Eight rows under the eight fixed keys, each holding both columns' values and its difference. |
| CpuComparison.CompareCpus | app/src/main/java/com/example/silenciohardwarestore/utils/BenchmarkUtils.kt:8-59 | Each of the four score rows favours the CPU its percentage difference favours, and neither when that truncates to 0. The TDP row favours the first CPU iff its TDP is higher and the second iff it is not. The three thermal rows favour neither. |
| CpuComparison.CompareCpusSwapsColumns | app/src/main/java/com/example/silenciohardwarestore/utils/BenchmarkUtils.kt:8-59 | Swapping the CPUs swaps the two value columns. |
| CpuComparison.EqualProfilesOnlyTdpCounts | app/src/main/java/com/example/silenciohardwarestore/utils/BenchmarkUtils.kt:8-59 | Comparing a CPU with itself, every row but TDP is neutral. |
| CpuComparison.IdenticalCpusFavorSecond | app/src/main/java/com/example/silenciohardwarestore/utils/BenchmarkUtils.kt:38 | As written, a CPU compared with itself loses "1 x 0" to itself on the TDP row. |
| CpuComparison.CompareCpusCorrected | app/src/main/java/com/example/silenciohardwarestore/utils/BenchmarkUtils.kt:38 | Corrected: equal TDPs favour neither side, and the table is unchanged when the TDPs differ. |
| CpuComparison.IdenticalCpusTie | app/src/main/java/com/example/silenciohardwarestore/utils/BenchmarkUtils.kt:38 | With the correction, a CPU compared with itself ties. |
| GpuComparison.TdpCredit | app/src/main/java/com/silenciopz/hardware/utils/BenchmarkGpus.kt:74 | The TDP credit is between 0 and 250 and is 0 from 250 W up. |
| GpuComparison.TdpCreditAntitone | app/src/main/java/com/silenciopz/hardware/utils/BenchmarkGpus.kt:74 | A higher TDP never earns more credit. |
| GpuComparison.Score | app/src/main/java/com/silenciopz/hardware/utils/BenchmarkGpus.kt:72-75 | The score is memory×1000 plus clock/100, plus at most 1250 for a low TDP. |
| GpuComparison.ScoreMonotone | app/src/main/java/com/silenciopz/hardware/utils/BenchmarkGpus.kt:72-75 | More memory, more clock and less TDP never lower the score. |
| GpuComparison.PerformancePerWatt | app/src/main/java/com/silenciopz/hardware/utils/BenchmarkGpus.kt:77-80 | Points per watt is the truncated quotient of score by TDP, or 0 without a positive TDP. |
| GpuComparison.CoolingLevel | app/src/main/java/com/silenciopz/hardware/utils/BenchmarkGpus.kt:128-135 | Level 4 iff TDP > 300, at least 3 iff > 200, at least 2 iff > 150, else 1. |
| GpuComparison.CoolingLevelMonotone | app/src/main/java/com/silenciopz/hardware/utils/BenchmarkGpus.kt:128-135 | A higher TDP never needs less cooling. |
| GpuComparison.LoadFactor | app/src/main/java/com/silenciopz/hardware/utils/BenchmarkGpus.kt:150-155 | The load factor lies between 0.25 and 0.55. |
| GpuComparison.GamingTemp | app/src/main/java/com/silenciopz/hardware/utils/BenchmarkGpus.kt:148-160 | The gaming estimate stays 5 °C below the safe maximum, and it is at least idle, capped by that limit. |
| GpuComparison.GamingTempMonotone | app/src/main/java/com/silenciopz/hardware/utils/BenchmarkGpus.kt:148-160 | A warmer idle never gives a cooler gaming estimate. |
| GpuComparison.ThermalScore | app/src/main/java/com/silenciopz/hardware/utils/BenchmarkGpus.kt:162-168 | The thermal score is bounded by the throttle margin over the gaming estimate. |
| GpuComparison.ThermalBand | app/src/main/java/com/silenciopz/hardware/utils/BenchmarkGpus.kt:84-89 | The four ratings partition the idle-to-maximum gap at 20, 30 and 40 °C. |
| GpuComparison.CoolingNote | app/src/main/java/com/silenciopz/hardware/utils/BenchmarkGpus.kt:91-95 | No note up to 200 W, and the water-cooling note exactly above 300 W. |
| GpuComparison.ThermalEfficiencyRating | app/src/main/java/com/silenciopz/hardware/utils/BenchmarkGpus.kt:82-98 | The rating starts with the band, and a cooling note follows exactly above 200 W. |
| GpuComparison.RatingNoteMatchesCoolingLevel | app/src/main/java/com/silenciopz/hardware/utils/BenchmarkGpus.kt:82-135 | A GPU at cooling level 3 or more carries a note after its band. |
| GpuComparison.CompareThermalValues | app/src/main/java/com/silenciopz/hardware/utils/BenchmarkGpus.kt:100-106 | Thermal rows never count for a side, and read "same" exactly for equal values. |
| GpuComparison.CompareCooling | app/src/main/java/com/silenciopz/hardware/utils/BenchmarkGpus.kt:117-126 | The cooling row never counts for a side, and reads "similar" exactly for equal levels. |
| GpuComparison.GpuDifference | app/src/main/java/com/silenciopz/hardware/utils/BenchmarkGpus.kt:170-174 | A zero base reads "N/A". Otherwise the text's sign is the sign of the percentage difference. |
| GpuComparison.GpuDifferenceOfEqual | app/src/main/java/com/silenciopz/hardware/utils/BenchmarkGpus.kt:170-174 | Equal values give a neutral difference. |
| GpuComparison.BetterThermalChoice | app/src/main/java/com/silenciopz/hardware/utils/BenchmarkGpus.kt:137-146 | Crowned beyond a 15-point lead, equivalent within it, never counted. |
| GpuComparison.ProfileOf | app/src/main/java/com/silenciopz/hardware/utils/BenchmarkGpus.kt:7-70 | A GPU's figures as the table uses them, with cooling level 1 to 4. |
| GpuComparison.Column | app/src/main/java/com/silenciopz/hardware/utils/BenchmarkGpus.kt:7-70 | Each GPU column has ten values. |
| GpuComparison.LeadingDeltas | app/src/main/java/com/silenciopz/hardware/utils/BenchmarkGpus.kt:9-38 | Score row by percentage. Memory, clock and TDP rows signed. The idle-temperature row neutral. |
| GpuComparison.TrailingDeltas | app/src/main/java/com/silenciopz/hardware/utils/BenchmarkGpus.kt:39-68 | Safe-maximum and throttle rows signed. Cooling and rating rows neutral. Per-watt row by percentage. |
| GpuComparison.GpuDeltas | app/src/main/java/com/silenciopz/hardware/utils/BenchmarkGpus.kt:7-70 | The ten differences, row by row, as above. |
| GpuComparison.GpuTable | app/src/main/java/com/silenciopz/hardware/utils/BenchmarkGpus.kt:7-70 | Ten rows under the fixed keys with both columns' values and the differences. |
| GpuComparison.CompareGpus | app/src/main/java/com/silenciopz/hardware/utils/BenchmarkGpus.kt:7-70 | The score and per-watt rows follow the percentage difference, and favour neither side when the second value is 0 ("N/A"). The memory, clock, TDP, safe-maximum and throttle rows favour the first GPU iff its value is higher and the second otherwise. The idle-temperature, cooling and rating rows favour neither. |
| GpuComparison.CompareGpusSwapsColumns | app/src/main/java/com/silenciopz/hardware/utils/BenchmarkGpus.kt:7-70 | Swapping the GPUs swaps the value columns. |
| GpuComparison.EqualProfilesRows | app/src/main/java/com/silenciopz/hardware/utils/BenchmarkGpus.kt:19-49 | Comparing a GPU with itself, no row favours the first GPU. As written, exactly the five signed rows favour the second. |
| GpuComparison.EqualProfilesTally | app/src/main/java/com/silenciopz/hardware/utils/BenchmarkGpus.kt:19-49 | That tally is (0, 5). |
| GpuComparison.IdenticalGpusFavorSecond | app/src/main/java/com/silenciopz/hardware/utils/BenchmarkGpus.kt:19-49 | As written, a GPU compared with itself loses "5 x 0" to itself. |
| GpuComparison.CompareGpusCorrected | app/src/main/java/com/silenciopz/hardware/utils/BenchmarkGpus.kt:19-49 | Corrected: equal values favour neither side. |
| GpuComparison.IdenticalGpusTie | app/src/main/java/com/silenciopz/hardware/utils/BenchmarkGpus.kt:19-49 | With the correction, a GPU compared with itself ties. |
| Screens.LookupSpec | app/src/main/java/com/silenciopz/hardware/ui/components/CpuComparisonScreen.kt:828-837 | A category's advantage name is the first entry for its key, and there is one iff the key is listed. |
| Screens.AdvantagesFor | app/src/main/java/com/silenciopz/hardware/ui/components/CpuComparisonScreen.kt:825-839 | At most one advantage per row. |
| Screens.AdvantagesForSpec | app/src/main/java/com/silenciopz/hardware/ui/components/CpuComparisonScreen.kt:825-839 | Every advantage names a row that favours the side. Every such row with a named key contributes its name. |
| Screens.Headline | app/src/main/java/com/silenciopz/hardware/ui/components/CpuComparisonScreen.kt:841-849 | No advantages gives "Excelente Performance". |
| Screens.HeadlineSpec | app/src/main/java/com/silenciopz/hardware/ui/components/CpuComparisonScreen.kt:841-849 | The headline is the first priority entry present among the advantages. Only when none is present does it fall back to "Vantagem em" plus the first advantage, or to the fallback. |
| Screens.DetermineWinner | app/src/main/java/com/silenciopz/hardware/ui/components/CpuComparisonScreen.kt:788-820 | The side with more counted rows wins, and its count comes first in the score text. Equal counts tie as "EMPATE". A decided headline is taken from the first component's "+" rows, whichever side won. |
| Screens.DetermineWinnerCorrected | app/src/main/java/com/silenciopz/hardware/ui/components/CpuComparisonScreen.kt:805-811 | Corrected: the same winner and score text, but the headline comes from the winner's own rows. It is unchanged when the first side wins. |
| Screens.CorrectedHeadlineFromWinnerRow | app/src/main/java/com/silenciopz/hardware/ui/components/CpuComparisonScreen.kt:805-849 | With the correction, a priority headline names a category whose row counts for the winner. |
| Screens.CpuWinner | app/src/main/java/com/silenciopz/hardware/ui/components/CpuComparisonScreen.kt:788-820 | The CPU screen's verdict: the winner and score text follow the tally. A decided headline comes from the CPU names of the "+" rows, by the CPU priority list. |
| Screens.CpuScreenNamesScoreRowsOnly | app/src/main/java/com/silenciopz/hardware/ui/components/CpuComparisonScreen.kt:829-836 | Of the eight categories of the CPU table, the screen names only the four score rows; the other four keys are spelled differently. This assumes the screen's table has the keys of the modelled `compareCpus`. |
| Screens.ManyThreadsRows | app/src/main/java/com/example/silenciohardwarestore/utils/BenchmarkUtils.kt:8-76 | For two eight-core CPUs, one with 16 threads at 4.0 GHz and 125 W and one with 8 threads at 5.0 GHz and 105 W, the overall score and TDP rows count for the first CPU. The single-core, multi-core and gaming rows count for the second. |
| Screens.ManyThreadsPatternTally | app/src/main/java/com/silenciopz/hardware/ui/components/CpuComparisonScreen.kt:792-798 | That table tallies 2 rows to 3. |
| Screens.ManyThreadsFirstAdvantages | app/src/main/java/com/silenciopz/hardware/ui/components/CpuComparisonScreen.kt:825-839 | On that table the screen names only "Performance Geral" for the first CPU. |
| Screens.ManyThreadsSecondAdvantages | app/src/main/java/com/silenciopz/hardware/ui/components/CpuComparisonScreen.kt:825-839 | ... and "Single-Core", "Multi-Core" and "Desempenho em Jogos" for the second. |
| Screens.CpuHeadlineFromLoser | app/src/main/java/com/silenciopz/hardware/ui/components/CpuComparisonScreen.kt:807-811 | As written, the second CPU wins "3 x 2" headed "Performance Superior", the row it lost. Corrected, the headline is "Melhor para Gaming", from its gaming row. |
| Screens.GpuWinner | app/src/main/java/com/silenciopz/hardware/ui/components/GpuComparisonScreen.kt:724-756 | The GPU screen's verdict: the winner and score text follow the tally. A decided headline comes from the GPU names of the "+" rows, by the GPU priority list. |
| Screens.GpuScreenNamesNoRow | app/src/main/java/com/silenciopz/hardware/ui/components/GpuComparisonScreen.kt:761-773 | None of the ten category keys of the GPU table is named by the GPU screen. |
| Screens.GpuHeadlineAlwaysFallback | app/src/main/java/com/silenciopz/hardware/ui/components/GpuComparisonScreen.kt:758-786 | So a decided GPU comparison always reads "Excelente Performance". |
| Selection.RemoveFirst | app/src/main/java/com/silenciopz/hardware/ui/components/CpuComparisonScreen.kt:180-190 | Removing a component takes out one occurrence. It leaves the list unchanged when absent, and otherwise shortens it by one. |
| Selection.RemoveFirstCutsFirstIndex | app/src/main/java/com/silenciopz/hardware/ui/components/CpuComparisonScreen.kt:180-190 | The others keep their order: the first occurrence's position is cut out. |
| Selection.Toggle | app/src/main/java/com/silenciopz/hardware/ui/components/CpuComparisonScreen.kt:180-190 | Selecting appends while fewer than two are selected and is ignored at two. Deselecting removes the component. |
| Selection.Tap | app/src/main/java/com/silenciopz/hardware/ui/components/CpuComparisonScreen.kt:527 | Tapping a selected card deselects it. Tapping another selects it while there is room and does nothing otherwise. |
| Selection.TapKeepsValid | app/src/main/java/com/silenciopz/hardware/ui/components/CpuComparisonScreen.kt:180-204 | Taps keep at most two components, never the same one twice. |
| Selection.TapTwiceRestores | app/src/main/java/com/silenciopz/hardware/ui/components/CpuComparisonScreen.kt:527 | A second tap undoes a first tap that selected. |
| Selection.Compared | app/src/main/java/com/silenciopz/hardware/ui/components/CpuComparisonScreen.kt:65 | The comparison is shown iff it was requested and exactly two are selected, in selection order. |
| Selection.PressCompare | app/src/main/java/com/silenciopz/hardware/ui/components/CpuComparisonScreen.kt:222-224 | The button requests the comparison only with two selected, and changes nothing else. |
| Selection.Back | app/src/main/java/com/silenciopz/hardware/ui/components/CpuComparisonScreen.kt:70-74 | Going back hides the comparison and clears the selection and the search. |
| Selection.BackThenCompareNeedsTwo | app/src/main/java/com/silenciopz/hardware/ui/components/CpuComparisonScreen.kt:65-74 | After going back, the comparison needs two new taps and a press, and then compares those two in order. |
| Selection.ClearSelection | app/src/main/java/com/example/silenciohardwarestore/ui/components/GpuComparisonScreen.kt:139-142 | Clearing empties the selection and the search and leaves the request flag as it is. |
| Selection.FilterSeq | app/src/main/java/com/silenciopz/hardware/ui/components/CpuComparisonScreen.kt:51-63 | The kept entries are exactly those that pass, in their original order, each with its original number of copies. |
| Selection.FilterSeqKeepsAll | app/src/main/java/com/silenciopz/hardware/ui/components/CpuComparisonScreen.kt:51-63 | When every entry passes, nothing is dropped. |
| Selection.CpuCatalog | app/src/main/java/com/silenciopz/hardware/ui/components/CpuComparisonScreen.kt:41 | The CPU catalogue is exactly the loaded CPUs with a non-empty name. |
| Selection.GpuCatalog | app/src/main/java/com/silenciopz/hardware/ui/components/GpuComparisonScreen.kt:43 | The GPU catalogue is exactly the loaded GPUs with a non-empty name. |
| Selection.FilterCpus | app/src/main/java/com/silenciopz/hardware/ui/components/CpuComparisonScreen.kt:51-63 | A blank query shows every CPU. Otherwise a CPU is shown iff its name, brand or socket contains the query ignoring case, or its core count or TDP text contains it. |
| Selection.FilterGpus | app/src/main/java/com/silenciopz/hardware/ui/components/GpuComparisonScreen.kt:53-64 | A blank query shows every GPU. Otherwise a GPU is shown iff its name or brand contains the query ignoring case, or its memory or TDP text contains it. |
| Selection.EmptyQueryMatchesAll | app/src/main/java/com/silenciopz/hardware/ui/components/CpuComparisonScreen.kt:51-63 | The empty query is blank, and every component matches it. |
| Selection.CpuSearchIgnoresCase | app/src/main/java/com/silenciopz/hardware/ui/components/CpuComparisonScreen.kt:51-63 | A query matching a CPU's name also matches it typed in another letter case. |

## Left out

- The Compose user interface is not modelled: layout, cards, colours, dialogs and the main menu and activity. Only the state changes the screens make are modelled.
- Loading the catalogues (`GameDataSource` and the CPU and GPU data sources) is not modelled. Catalogues are parameters.
- `calculateGamePerformance` and `getThermalWarning` format numbers with `"%.1f"`. Printf-style formatting is not modelled.
- The debug `println` traces in `calculateBottleneck` are not modelled; they do not affect its result.
- `estimateFps` is a stub that always returns (200, 200) and has no caller in the modelled logic.
- `compareFpsValues` in both utilities is never called from the modelled entry points. Neither are `getCpuRecommendation`, `getGpuRecommendation`, `getOverallRecommendation` and `getIdealResolution` in `BenchmarkGames.kt`.
- `compareWithRecommended` looks components up by name in the data sources, which are not modelled.
- The second `when` in `getOverclockRisk` can never be reached, because it follows a `return`.
- The GPU comparison screen of the second package has the same search, selection and navigation logic as the first, and the `Selection` members model both. Its comparison table comes from that package's own `BenchmarkGpus`, which is not part of this model.
- IEEE-754 rounding, NaN and infinities are not modelled; `Float`/`Double` are exact reals. The one place where infinity changes a result is `getDifference` with a zero divisor. There the saturating `toInt` is modelled, so an infinite quotient gives the extreme `Int` values and `0/0` gives 0.
- 32-bit wrap-around of `Int` `+` and `*` is not modelled; integers are unbounded.
- Case-insensitive comparison folds only ASCII letters.
- The `BenchmarkGames` and `Cpu` variants of the second package are not part of this model. It uses the gaming scores of `com/silenciopz/hardware/utils/BenchmarkGames.kt` and the `Cpu` shape of `com/silenciopz/hardware/data/Cpu.kt` throughout.
- BenchmarkGames.BottleneckFromScores: requires the bottleneck division to be defined (weighted scores that are not both zero on the side divided by), because the source would produce NaN there, which is not modelled.
- BenchmarkGames.CalculateBottleneck: same requirement as `BottleneckFromScores`.
- GamePerformance.Confidence: requires positive recommended scores, because a zero recommendation divides by zero in the source.
- The CPU comparison screen imports `BenchmarkUtils` from its own package, and that copy is not part of this model. The model assumes that it builds the same table as the other package's `BenchmarkUtils.compareCpus`, with the same keys. The screen-side statements about CPU tables rest on that assumption, including `Screens.CpuScreenNamesScoreRowsOnly` and the second finding.
- Text.Take: counts characters (Unicode scalar values), while Kotlin `take` counts UTF-16 code units. The two agree on names without characters outside the Basic Multilingual Plane.
- CpuComparison.HeavyWorkloadTempAtLeastBase: requires an idle temperature within 0..`Int.MAX_VALUE`, which every derived CPU has (30 to 50 °C).

## Findings

| source | as written | input that shows it | evidently intended | confidence | as-written member | corrected member |
|---|---|---|---|---|---|---|
| app/src/main/java/com/example/silenciohardwarestore/utils/BenchmarkUtils.kt:38 | `if (a > b) "+…" else "-…"` marks equal TDPs as "-0W", a win for the second CPU. The GPU table does the same on five rows (app/src/main/java/com/silenciopz/hardware/utils/BenchmarkGpus.kt:19-49). | Any CPU compared with itself: the tally is 0 to 1 and the screen shows the second CPU winning "1 x 0". A GPU with itself loses "5 x 0". | Equal values favour neither side, so a component compared with itself ties. | not executed | CpuComparison.IdenticalCpusFavorSecond | CpuComparison.IdenticalCpusTie |
| app/src/main/java/com/silenciopz/hardware/ui/components/CpuComparisonScreen.kt:807-811 | When the second CPU wins, `getMainAdvantage(cpu2, cpu1, result)` still collects the rows marked "+", which are the first CPU's wins. | Two eight-core CPUs: 16 threads at 4.0 GHz and 125 W against 8 threads at 5.0 GHz and 105 W. The first wins the overall score ("+60%") and TDP rows, the second the single-core, multi-core and gaming rows ("-20%" each). The second wins "3 x 2" headed "Performance Superior", the row it lost. | The headline comes from the winner's rows: "Melhor para Gaming". | not executed | Screens.CpuHeadlineFromLoser | Screens.DetermineWinnerCorrected |

Further behaviour of the source that the model records without correcting:

- The CPU screen names only the four score rows of the CPU table. Its table spells the other four keys differently: `Screens.CpuScreenNamesScoreRowsOnly`. This depends on pairing the screen with the modelled `compareCpus`, as noted under "## Left out".
- The GPU screen names none of the GPU table's keys, so a decided GPU comparison always reads "Excelente Performance": `Screens.GpuHeadlineAlwaysFallback`.
- The bottleneck label treats 5 % as balanced while the table label treats 8 % as balanced: `BenchmarkGames.SeverityBandsDisagree`.
- A component is overkill from 1.5× the recommendation, but the overall status needs both strictly above it: `GamePerformance.ExactlyOneAndHalfIsExcellent`.
- `getDifference` divides by the second value, so swapping the two values does not simply negate the percentage.
