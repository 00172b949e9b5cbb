/** Interaction analysis: three pairwise interactions between the wave, the
    wind and safety, an overall synergy counted from their impacts, a conflict
    resolution with the priority safety > quality > size, special
    "chemistry" patterns, and the one-paragraph assessment built from all of
    them with the same priority. */
module InteractionAnalysis {

  import opened Js
  import opened Features

  /** The source's interaction types 'synergy', 'conflict' and 'neutral'. */
  datatype Kind = Synergy | Conflict | NoEffect

  datatype Interaction = Interaction(kind: Kind, description: string, impact: Impact)

  /** Every interaction the analysers return pairs its type with the matching
      impact: synergy is positive, conflict negative, neutral neutral. */
  predicate Coherent(i: Interaction)
  {
    && (i.kind == Synergy <==> i.impact == Positive)
    && (i.kind == Conflict <==> i.impact == Negative)
    && (i.kind == NoEffect <==> i.impact == Neutral)
  }

  // ---------------------------------------------------------------------
  // The three pairwise interactions
  // ---------------------------------------------------------------------

  /** analyzeWavePowerVsTexture. The wave size is passed but never read. */
  function AnalyzeWavePowerVsTexture(power: Power, size: Size, texture: Texture): (r: Interaction)
    ensures Coherent(r)
    ensures r.kind == Conflict <==> texture in {BlownOut, Choppy}
    ensures r.kind == Synergy <==> texture.IsSmooth() && !power.Dangerous?
    ensures r.kind == NoEffect <==> texture == Textured || (texture.IsSmooth() && power == Dangerous)
  {
    if texture == BlownOut then
      Interaction(Conflict, "浪面被風吹亂，影響浪況品質", Negative)
    else if (texture == Glassy || texture == Clean) && (power == Weak || power == Moderate) then
      Interaction(Synergy, "小浪配上鏡面般的浪面，適合長板", Positive)
    else if (texture == Glassy || texture == Clean) && (power == Solid || power == Heavy) then
      Interaction(Synergy, "有力的浪配上乾淨的浪面", Positive)
    else if texture == Choppy then
      Interaction(Conflict, "浪面凌亂，降低浪況品質", Negative)
    else
      Interaction(NoEffect, "浪面質地普通", Neutral)
  }

  /** The wave size plays no part in analyzeWavePowerVsTexture. */
  lemma WavePowerVsTextureIgnoresSize(power: Power, s1: Size, s2: Size, texture: Texture)
    ensures AnalyzeWavePowerVsTexture(power, s1, texture) == AnalyzeWavePowerVsTexture(power, s2, texture)
  {
  }

  /** analyzePeriodVsHeight. */
  function AnalyzePeriodVsHeight(period: SwellClass, size: Size): (r: Interaction)
    ensures Coherent(r)
    ensures r.kind == Synergy <==> period.IsGroomed() && size in {Ankle, Knee, Thigh, Waist, Chest, Shoulder, Head}
    ensures r.kind == Conflict <==> period == WindSwell && size in {Chest, Shoulder, Head, Overhead}
  {
    if (period == GroundSwell || period == LongPeriod) && size in {Ankle, Knee, Thigh, Waist} then
      Interaction(Synergy, "雖然浪小，但長週期帶來紮實的推力", Positive)
    else if period == WindSwell && size in {Chest, Shoulder, Head, Overhead} then
      Interaction(Conflict, "浪雖大但週期短，缺乏推力", Negative)
    else if (period == GroundSwell || period == LongPeriod) && size in {Chest, Shoulder, Head} then
      Interaction(Synergy, "長週期配上適中浪高，能量充沛", Positive)
    else
      Interaction(NoEffect, "浪高與週期搭配普通", Neutral)
  }

  /** A mixed swell never interacts with the height, and neither does a flat
      sea or a double-overhead one. */
  lemma PeriodVsHeightNeutralCases(period: SwellClass, size: Size)
    requires period == MixedSwell || size == Flat || size == DoubleOverhead
    ensures AnalyzePeriodVsHeight(period, size).kind == NoEffect
  {
  }

  /** analyzeWindVsSafety; `impact` is the wind's impact with a missing one
      already read as neutral. */
  function AnalyzeWindVsSafety(strength: Strength, impact: Impact): (r: Interaction)
    ensures Coherent(r)
    ensures r.kind == Conflict <==> strength in {StrongWind, DangerousWind}
    ensures r.kind == Synergy <==> strength !in {StrongWind, DangerousWind} && impact == Positive
  {
    if strength == DangerousWind then
      Interaction(Conflict, "風速過強，存在安全疑慮", Negative)
    else if strength == StrongWind then
      Interaction(Conflict, "風力較強，需注意安全", Negative)
    else if impact == Positive then
      Interaction(Synergy, "風向風速理想", Positive)
    else
      Interaction(NoEffect, "風況普通", Neutral)
  }

  /** The three interactions of one forecast. */
  datatype Interactions = Interactions(wavePowerVsTexture: Interaction, periodVsHeight: Interaction, windVsSafety: Interaction)

  /** `impact || 'neutral'`: a missing impact counts as neutral. */
  function WindImpactOrNeutral(wind: WindFeatures): (r: Impact)
    ensures wind.impact == None ==> r == Neutral
    ensures wind.impact.Some? ==> r == wind.impact.value
  {
    if wind.impact.Some? then wind.impact.value else Neutral
  }

  /** The interactions object of generateOverallAssessment: every one is
      coherent, the wave-power one ignores the size, and a missing wind impact
      is read as neutral. */
  function AnalyzeInteractions(wave: WaveFeatures, wind: WindFeatures): (r: Interactions)
    ensures Coherent(r.wavePowerVsTexture) && Coherent(r.periodVsHeight) && Coherent(r.windVsSafety)
    ensures wind.impact == None ==> r.windVsSafety == AnalyzeWindVsSafety(wind.strength, Neutral)
  {
    Interactions(
      AnalyzeWavePowerVsTexture(wave.power, wave.size, wind.texture),
      AnalyzePeriodVsHeight(wave.period, wave.size),
      AnalyzeWindVsSafety(wind.strength, WindImpactOrNeutral(wind)))
  }

  // ---------------------------------------------------------------------
  // Overall synergy
  // ---------------------------------------------------------------------

  /** The number of interactions with the given impact (the source's
      `filter(...).length`). */
  function CountImpact(s: seq<Interaction>, impact: Impact): (n: nat)
    ensures n <= |s|
    ensures n == 0 <==> forall k :: 0 <= k < |s| ==> s[k].impact != impact
    ensures n == |s| <==> forall k :: 0 <= k < |s| ==> s[k].impact == impact
  {
    if |s| == 0 then 0
    else (if s[0].impact == impact then 1 else 0) + CountImpact(s[1..], impact)
  }

  /** Every interaction has exactly one of the three impacts. */
  lemma {:induction false} CountsAddUp(s: seq<Interaction>)
    ensures CountImpact(s, Positive) + CountImpact(s, Negative) + CountImpact(s, Neutral) == |s|
  {
    if |s| > 0 {
      CountsAddUp(s[1..]);
    }
  }

  datatype Overall = Excellent | Good | Mixed | Poor
  {
    /** Poor < Mixed < Good < Excellent. */
    function Rank(): (n: nat)
      ensures n < 4
    {
      match this
      case Poor => 0
      case Mixed => 1
      case Good => 2
      case Excellent => 3
    }
  }

  /** determineOverallSynergy. */
  function DetermineOverallSynergy(a: Interaction, b: Interaction, c: Interaction, safety: Safety): (o: Overall)
    ensures !safety.Safe? ==> o == Poor
    ensures var pos, neg := CountImpact([a, b, c], Positive), CountImpact([a, b, c], Negative);
      safety.Safe? ==>
        && (o == Excellent <==> a.impact == Positive && b.impact == Positive && c.impact == Positive)
        && (o == Good <==> pos == 2 && neg == 0)
        && (o == Poor <==> neg >= 2)
        && (o == Mixed <==> pos < 3 && !(pos == 2 && neg == 0) && neg < 2)
  {
    if safety == Danger || safety == Warning then Poor
    else
      var interactions := [a, b, c];
      var positiveCount := CountImpact(interactions, Positive);
      var negativeCount := CountImpact(interactions, Negative);
      CountOfThree(a, b, c, Positive);
      if positiveCount == 3 then Excellent
      else if positiveCount >= 2 && negativeCount == 0 then Good
      else if negativeCount >= 2 then Poor
      else if negativeCount == 1 then Mixed
      else Mixed
  }

  /** Negative < neutral < positive. */
  function ImpactRank(i: Impact): nat
  {
    match i
    case Negative => 0
    case Neutral => 1
    case Positive => 2
  }

  /** Improving one interaction's impact never lowers the overall synergy. */
  lemma SynergyMonotone(a: Interaction, a2: Interaction, b: Interaction, c: Interaction, safety: Safety)
    requires ImpactRank(a.impact) <= ImpactRank(a2.impact)
    ensures DetermineOverallSynergy(a, b, c, safety).Rank() <= DetermineOverallSynergy(a2, b, c, safety).Rank()
  {
  }

  /** 1 when the interaction has the impact, 0 otherwise. */
  function Indicator(i: Interaction, impact: Impact): nat
  {
    if i.impact == impact then 1 else 0
  }

  /** The count over three interactions, one by one. */
  lemma CountOfThree(a: Interaction, b: Interaction, c: Interaction, impact: Impact)
    ensures CountImpact([a, b, c], impact) == Indicator(a, impact) + Indicator(b, impact) + Indicator(c, impact)
  {
    assert [a, b, c][1..] == [b, c];
    assert [b, c][1..] == [c];
    assert [c][1..] == [];
  }

  /** Only the impacts count, not which interaction has them. */
  lemma SynergyIgnoresOrder(a: Interaction, b: Interaction, c: Interaction, safety: Safety)
    ensures DetermineOverallSynergy(a, b, c, safety) == DetermineOverallSynergy(b, a, c, safety)
    ensures DetermineOverallSynergy(a, b, c, safety) == DetermineOverallSynergy(b, c, a, safety)
  {
    forall impact: Impact
      ensures CountImpact([a, b, c], impact) == CountImpact([b, a, c], impact) == CountImpact([b, c, a], impact)
    {
      CountOfThree(a, b, c, impact);
      CountOfThree(b, a, c, impact);
      CountOfThree(b, c, a, impact);
    }
  }

  // ---------------------------------------------------------------------
  // Conflict resolution
  // ---------------------------------------------------------------------

  /** The dominant factor: 'safety', 'quality', 'size' or 'none'. */
  datatype Factor = SafetyFactor | Quality | SizeFactor | NoFactor

  datatype Resolution = Resolution(dominant: Factor, resolution: string, priorityApplied: bool)

  /** The quality test of resolveConflicts: a conflict in either quality
      interaction, caused by a rough surface or by a short period under
      chest- or shoulder-high waves. */
  predicate QualityConflict(wave: WaveFeatures, wind: WindFeatures, interactions: Interactions)
  {
    (interactions.wavePowerVsTexture.kind == Conflict || interactions.periodVsHeight.kind == Conflict) &&
    (wind.texture in {BlownOut, Choppy} || (wave.period == WindSwell && wave.size in {Chest, Shoulder}))
  }

  /** resolveConflicts: safety first, then quality, then size. */
  function ResolveConflicts(wave: WaveFeatures, wind: WindFeatures, interactions: Interactions, safety: Safety): (r: Resolution)
    ensures r.priorityApplied <==> r.dominant != NoFactor
    ensures r.dominant == SafetyFactor <==> !safety.Safe?
    ensures r.dominant == Quality <==> safety.Safe? && QualityConflict(wave, wind, interactions)
    ensures r.dominant == SizeFactor <==>
              safety.Safe? && !QualityConflict(wave, wind, interactions) &&
              (wave.power == Dangerous || wave.size == DoubleOverhead)
  {
    if safety == Danger then
      Resolution(SafetyFactor, "安全疑慮為首要考量，其他條件次之", true)
    else if safety == Warning then
      Resolution(SafetyFactor, "需注意安全，建議謹慎評估", true)
    else if (interactions.wavePowerVsTexture.kind == Conflict || interactions.periodVsHeight.kind == Conflict)
         && (wind.texture == BlownOut || wind.texture == Choppy) then
      Resolution(Quality, "浪面品質影響整體體驗，比浪高更重要", true)
    else if (interactions.wavePowerVsTexture.kind == Conflict || interactions.periodVsHeight.kind == Conflict)
         && wave.period == WindSwell && (wave.size == Chest || wave.size == Shoulder) then
      Resolution(Quality, "週期短導致浪缺乏推力，儘管浪高看似足夠", true)
    else if wave.power == Dangerous || wave.size == DoubleOverhead then
      Resolution(SizeFactor, "浪況強勁，適合進階玩家", true)
    else
      Resolution(NoFactor, "各項條件相對平衡", false)
  }

  /** With the interactions of the same forecast, a choppy or blown-out
      surface always makes quality the dominant factor when safety allows. */
  lemma RoughSurfaceMeansQuality(wave: WaveFeatures, wind: WindFeatures)
    requires wind.texture in {BlownOut, Choppy}
    ensures ResolveConflicts(wave, wind, AnalyzeInteractions(wave, wind), Safe).dominant == Quality
  {
    assert AnalyzeInteractions(wave, wind).wavePowerVsTexture.kind == Conflict;
  }

  /** A short period under head-high or overhead waves is a period conflict,
      yet resolveConflicts only names quality for chest and shoulder sizes:
      on a surface that is not rough the period conflict is not the dominant
      factor. */
  lemma HeadHighWindSwellNotQuality(wave: WaveFeatures, wind: WindFeatures)
    requires wave.period == WindSwell && wave.size in {Head, Overhead}
    requires wind.texture !in {BlownOut, Choppy}
    ensures AnalyzeInteractions(wave, wind).periodVsHeight.kind == Conflict
    ensures ResolveConflicts(wave, wind, AnalyzeInteractions(wave, wind), Safe).dominant != Quality
  {
  }

  // ---------------------------------------------------------------------
  // Chemistry
  // ---------------------------------------------------------------------

  datatype Pattern = PerfectConditions | WastedPotential | LongboardParadise | HiddenGem | NoPattern

  datatype Chemistry = Chemistry(hasChemistry: bool, pattern: Pattern, description: string)

  /** detectChemistry: the first of four patterns that matches. */
  function DetectChemistry(wave: WaveFeatures, wind: WindFeatures): (c: Chemistry)
    ensures c.hasChemistry <==> c.pattern != NoPattern
    ensures c.hasChemistry <==> c.description != ""
    ensures c.pattern == PerfectConditions <==>
              wave.power in {Solid, Heavy} && wind.texture.IsSmooth() && wave.period.IsGroomed() &&
              wave.size in {Chest, Shoulder, Head}
    ensures c.pattern == WastedPotential <==> wave.power in {Solid, Heavy} && wind.texture == BlownOut
    ensures c.pattern == LongboardParadise <==>
              wave.power == Weak && wind.texture.IsSmooth() && wave.period.IsGroomed() && wave.size in {Ankle, Knee}
    ensures c.pattern == HiddenGem ==>
              wave.size in {Thigh, Waist} && wave.period.IsGroomed() &&
              (wind.texture.Glassy? || wind.texture.Clean? || wind.texture.Textured?)
  {
    var power, size, period, texture := wave.power, wave.size, wave.period, wind.texture;
    if (power == Solid || power == Heavy) && (texture == Clean || texture == Glassy)
       && (period == GroundSwell || period == LongPeriod) && (size == Chest || size == Shoulder || size == Head) then
      Chemistry(true, PerfectConditions, "理想的浪高、長週期與乾淨的浪面，完美組合")
    else if (power == Solid || power == Heavy) && texture == BlownOut then
      Chemistry(true, WastedPotential, "浪況本身不錯，但被風吹亂而浪費了潛力")
    else if power == Weak && (texture == Glassy || texture == Clean)
         && (period == GroundSwell || period == LongPeriod) && (size == Ankle || size == Knee) then
      Chemistry(true, LongboardParadise, "小浪配上鏡面般的浪面與長週期，長板玩家的天堂")
    else if (size == Thigh || size == Waist) && (period == GroundSwell || period == LongPeriod)
         && texture != BlownOut && texture != Choppy then
      Chemistry(true, HiddenGem, "浪雖小但週期長，隱藏的好浪況")
    else
      Chemistry(false, NoPattern, "")
  }

  /** Every groomed swell at thigh or waist height on a surface that is not
      rough has some chemistry. */
  lemma GroomedSmallSurfHasChemistry(wave: WaveFeatures, wind: WindFeatures)
    requires wave.size in {Thigh, Waist} && wave.period.IsGroomed() && wind.texture !in {BlownOut, Choppy}
    ensures DetectChemistry(wave, wind).hasChemistry
  {
  }

  // ---------------------------------------------------------------------
  // Overall assessment
  // ---------------------------------------------------------------------

  const DangerOpening: string := "危險海況，存在嚴重安全疑慮（"
  const DangerClosing: string := "），強烈建議不要下水。"
  const WarningOpening: string := "需注意安全（"
  const SummaryOpening: string := "綜合來看，"

  /** The fixed summaries for each overall synergy when no priority rule
      applies. */
  const ExcellentSummary: string := "綜合來看，各項條件配合良好，浪況優異，適合衝浪。"
  const GoodSummary: string := "綜合來看，條件不錯，值得下水。"
  const MixedSummary: string := "綜合來看，條件普通，可以衝浪但非最佳狀態。"
  const PoorSummary: string := "綜合來看，條件不佳，建議等待改善。"
  const PoorClosing: string := "。不建議下水。"

  /** The concern list as the template renders it. */
  function ConcernList(concerns: seq<string>): string
  {
    Join(concerns, "、")
  }

  /** generateOverallAssessment: safety first, then chemistry, then the
      overall synergy (with the conflict resolution for mixed and poor). */
  function GenerateOverallAssessment(wave: WaveFeatures, wind: WindFeatures, safety: Safety, concerns: seq<string>): (r: string)
    ensures |r| > 0
    ensures safety == Danger ==> DangerOpening <= r
    ensures safety == Warning ==> WarningOpening <= r
    ensures safety == Safe && DetectChemistry(wave, wind).hasChemistry ==> r == DetectChemistry(wave, wind).description
    ensures safety == Safe && !DetectChemistry(wave, wind).hasChemistry ==> SummaryOpening <= r
    ensures safety == Safe && !DetectChemistry(wave, wind).hasChemistry ==>
              var i := AnalyzeInteractions(wave, wind);
              var overall := DetermineOverallSynergy(i.wavePowerVsTexture, i.periodVsHeight, i.windVsSafety, safety);
              var c := ResolveConflicts(wave, wind, i, safety);
              && (overall == Excellent ==> r == ExcellentSummary)
              && (overall == Good ==> r == GoodSummary)
              && (overall == Mixed && !c.priorityApplied ==> r == MixedSummary)
              && (overall == Poor && !c.priorityApplied ==> r == PoorSummary)
              && (overall == Mixed && c.priorityApplied ==> r == SummaryOpening + c.resolution + "。")
              && (overall == Poor && c.priorityApplied ==> r == SummaryOpening + c.resolution + PoorClosing)
  {
    var interactions := AnalyzeInteractions(wave, wind);
    var overall := DetermineOverallSynergy(
      interactions.wavePowerVsTexture, interactions.periodVsHeight, interactions.windVsSafety, safety);
    var resolution := ResolveConflicts(wave, wind, interactions, safety);
    var chemistry := DetectChemistry(wave, wind);
    if safety == Danger then
      DangerOpening + ConcernList(concerns) + DangerClosing
    else if safety == Warning then
      WarningOpening + ConcernList(concerns) + "），" + resolution.resolution + "。建議謹慎評估自身能力。"
    else if chemistry.hasChemistry then
      chemistry.description
    else if overall == Excellent then ExcellentSummary
    else if overall == Good then GoodSummary
    else if overall == Mixed then
      if resolution.priorityApplied then SummaryOpening + resolution.resolution + "。"
      else MixedSummary
    else
      if resolution.priorityApplied then SummaryOpening + resolution.resolution + PoorClosing
      else PoorSummary
  }

  /** In dangerous conditions the assessment names every safety concern. */
  lemma DangerNamesEveryConcern(wave: WaveFeatures, wind: WindFeatures, concerns: seq<string>, k: nat)
    requires k < |concerns|
    ensures Includes(GenerateOverallAssessment(wave, wind, Danger, concerns), concerns[k])
  {
    JoinIncludesParts(concerns, "、", k);
    IncludesInConcat(DangerOpening, ConcernList(concerns), DangerClosing, concerns[k]);
  }

  /** With a warning the assessment names every safety concern and the
      warning's resolution. */
  lemma WarningNamesConcernsAndResolution(wave: WaveFeatures, wind: WindFeatures, concerns: seq<string>, k: nat)
    requires k < |concerns|
    ensures Includes(GenerateOverallAssessment(wave, wind, Warning, concerns), concerns[k])
    ensures Includes(GenerateOverallAssessment(wave, wind, Warning, concerns), "需注意安全，建議謹慎評估")
  {
    var list := ConcernList(concerns);
    var res := ResolveConflicts(wave, wind, AnalyzeInteractions(wave, wind), Warning).resolution;
    var tail := "），" + res + "。建議謹慎評估自身能力。";
    assert GenerateOverallAssessment(wave, wind, Warning, concerns) == WarningOpening + list + tail;
    JoinIncludesParts(concerns, "、", k);
    IncludesInConcat(WarningOpening, list, tail, concerns[k]);
    IncludesSelf(res);
    IncludesInConcat(WarningOpening + list + "），", res, "。建議謹慎評估自身能力。", res);
    assert WarningOpening + list + "），" + res + "。建議謹慎評估自身能力。" == WarningOpening + list + tail;
  }

  /** On a safe sea without chemistry, mixed and poor conditions to which a
      priority rule applies quote the rule's resolution, and poor ones also
      advise against going out. */
  lemma SummaryQuotesResolution(wave: WaveFeatures, wind: WindFeatures, concerns: seq<string>)
    requires !DetectChemistry(wave, wind).hasChemistry
    ensures var i := AnalyzeInteractions(wave, wind);
      var overall := DetermineOverallSynergy(i.wavePowerVsTexture, i.periodVsHeight, i.windVsSafety, Safe);
      var c := ResolveConflicts(wave, wind, i, Safe);
      var r := GenerateOverallAssessment(wave, wind, Safe, concerns);
      overall in {Mixed, Poor} && c.priorityApplied ==>
        Includes(r, c.resolution) && (overall == Poor ==> Includes(r, PoorClosing))
  {
    var i := AnalyzeInteractions(wave, wind);
    var overall := DetermineOverallSynergy(i.wavePowerVsTexture, i.periodVsHeight, i.windVsSafety, Safe);
    var c := ResolveConflicts(wave, wind, i, Safe);
    if overall in {Mixed, Poor} && c.priorityApplied {
      var closing := if overall == Mixed then "。" else PoorClosing;
      assert GenerateOverallAssessment(wave, wind, Safe, concerns) == SummaryOpening + c.resolution + closing;
      IncludesSelf(c.resolution);
      IncludesInConcat(SummaryOpening, c.resolution, closing, c.resolution);
      if overall == Poor {
        IncludesSelf(PoorClosing);
        IncludesInConcat(SummaryOpening + c.resolution, PoorClosing, "", PoorClosing);
        assert SummaryOpening + c.resolution + PoorClosing + "" == SummaryOpening + c.resolution + PoorClosing;
      }
    }
  }

  /** Safety overrides everything: in dangerous conditions the assessment
      depends on the concerns alone, not on the wave or the wind. */
  lemma DangerIgnoresConditions(w1: WaveFeatures, x1: WindFeatures, w2: WaveFeatures, x2: WindFeatures, concerns: seq<string>)
    ensures GenerateOverallAssessment(w1, x1, Danger, concerns) == GenerateOverallAssessment(w2, x2, Danger, concerns)
  {
  }
}
