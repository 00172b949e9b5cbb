/** Board suitability: an ordered chain of predicates per board (first match
    wins, the danger test always first), and a score-based recommendation in
    which the funboard wins ties. */
module BoardSuitability {

  import opened Js
  import opened Features

  datatype Suitability = Perfect | Good | Fair | Challenging | Unsuitable

  /** A board's verdict: the suitability and the reasoning sentence. The
      emoji the source attaches is determined by the suitability and is not
      modelled. */
  datatype Verdict = Verdict(suitability: Suitability, reasoning: string)

  /** The reasoning all three boards give in dangerous conditions. */
  const DangerReason: string := "危險海況不適合任何板型"

  // ---------------------------------------------------------------------
  // Longboard
  // ---------------------------------------------------------------------

  /** Small: ankle to waist. */
  predicate SmallSurf(s: Size)
  {
    s in {Ankle, Knee, Thigh, Waist}
  }

  /** Shoulder high or bigger. */
  predicate BigSurf(s: Size)
  {
    s in {Shoulder, Head, Overhead, DoubleOverhead}
  }

  /** assessLongboard. */
  function AssessLongboard(wave: WaveFeatures, wind: WindFeatures, safety: Safety): (v: Verdict)
    ensures v.suitability == Unsuitable <==> safety == Danger
    ensures safety == Danger ==> v.reasoning == DangerReason
    ensures v.suitability == Perfect <==>
              safety != Danger && SmallSurf(wave.size) && wave.period.IsGroomed() && wind.texture.IsSmooth()
    ensures v.suitability == Good <==>
              safety != Danger && wave.size in {Ankle, Knee, Thigh, Waist, Chest} &&
              wave.period in {MixedSwell, GroundSwell, LongPeriod} && wind.texture.IsSmooth() &&
              !(SmallSurf(wave.size) && wave.period.IsGroomed())
    ensures v.suitability == Challenging <==>
              safety != Danger &&
              ((BigSurf(wave.size) && wave.power in {Heavy, Dangerous}) ||
               (!BigSurf(wave.size) && wave.period == WindSwell))
  {
    var size, period, power, texture := wave.size, wave.period, wave.power, wind.texture;
    if safety == Danger then
      Verdict(Unsuitable, DangerReason)
    else if size in {Ankle, Knee, Thigh, Waist} && period in {GroundSwell, LongPeriod} && texture in {Glassy, Clean} then
      Verdict(Perfect, "小浪配上長週期與乾淨浪面,長板能輕鬆起乘並享受滑行")
    else if size in {Ankle, Knee, Thigh, Waist, Chest} && period in {GroundSwell, LongPeriod, MixedSwell}
         && texture in {Glassy, Clean} then
      Verdict(Good, "浪況適中,週期足夠,長板能發揮優勢")
    else if size in {Ankle, Knee, Thigh, Waist, Chest} && period in {GroundSwell, LongPeriod, MixedSwell}
         && texture == Textured then
      Verdict(Fair, "浪高與週期適合長板,但浪面略顯凌亂")
    else if size == Flat && period in {GroundSwell, LongPeriod} then
      Verdict(Fair, "浪極小但週期長,長板仍可能抓到一些浪")
    else if size in {Shoulder, Head, Overhead, DoubleOverhead} then
      if power in {Heavy, Dangerous} then Verdict(Challenging, "浪況強勁,長板較難控制且有安全疑慮")
      else Verdict(Fair, "浪稍大但仍可控,有經驗的長板玩家可嘗試")
    else if period == WindSwell then
      Verdict(Challenging, "風浪週期短,長板難以獲得足夠推力")
    else
      Verdict(Fair, "條件普通,長板可以使用但非最佳狀態")
  }

  /** The longboard only looks at the safety level for 'danger'. */
  lemma LongboardIgnoresWarning(wave: WaveFeatures, wind: WindFeatures)
    ensures AssessLongboard(wave, wind, Warning) == AssessLongboard(wave, wind, Safe)
  {
  }

  // ---------------------------------------------------------------------
  // Shortboard
  // ---------------------------------------------------------------------

  /** Chest to head high. */
  predicate MidSurf(s: Size)
  {
    s in {Chest, Shoulder, Head}
  }

  /** The shortboard's ideal: chest to head, solid or heavy, smooth, groomed. */
  predicate ShortboardIdeal(wave: WaveFeatures, wind: WindFeatures)
  {
    MidSurf(wave.size) && wave.power in {Solid, Heavy} && wind.texture.IsSmooth() && wave.period.IsGroomed()
  }

  /** Waist to shoulder, moderate or solid, and not a wind swell. */
  predicate ShortboardFits(wave: WaveFeatures)
  {
    wave.size in {Waist, Chest, Shoulder} && wave.power in {Moderate, Solid} && wave.period != WindSwell
  }

  /** Overhead or bigger, or dangerous power. */
  predicate BigOrDangerous(wave: WaveFeatures)
  {
    wave.size in {Overhead, DoubleOverhead} || wave.power.Dangerous?
  }

  /** assessShortboard. Fair is every remaining case. */
  function AssessShortboard(wave: WaveFeatures, wind: WindFeatures, safety: Safety): (v: Verdict)
    ensures v.suitability == Unsuitable <==> safety == Danger
    ensures safety == Danger ==> v.reasoning == DangerReason
    ensures v.suitability == Perfect <==> safety != Danger && ShortboardIdeal(wave, wind)
    ensures v.suitability == Good <==>
              safety != Danger && ShortboardFits(wave) && wind.texture.IsSmooth() && !ShortboardIdeal(wave, wind)
    ensures v.suitability == Challenging <==>
              safety != Danger &&
              ((wave.size in {Flat, Ankle, Knee, Thigh} && wave.power.Weak?) ||
               (MidSurf(wave.size) && wave.period.WindSwell?) ||
               (BigOrDangerous(wave) && safety.Warning? &&
                !(wave.size in {Thigh, Waist} && wave.period.IsGroomed() && wind.texture.IsSmooth())) ||
               (wind.texture.BlownOut? && !BigOrDangerous(wave)))
  {
    var size, period, power, texture := wave.size, wave.period, wave.power, wind.texture;
    if safety == Danger then
      Verdict(Unsuitable, DangerReason)
    else if size in {Chest, Shoulder, Head} && power in {Solid, Heavy} && texture in {Glassy, Clean}
         && period in {GroundSwell, LongPeriod} then
      Verdict(Perfect, "理想浪高配上紮實推力與乾淨浪面,短板能盡情發揮")
    else if size in {Waist, Chest, Shoulder} && power in {Moderate, Solid} && period != WindSwell
         && texture in {Glassy, Clean} then
      Verdict(Good, "浪高與推力適中,短板能順利起乘並做動作")
    else if size in {Waist, Chest, Shoulder} && power in {Moderate, Solid} && period != WindSwell
         && texture == Textured then
      Verdict(Fair, "浪況基本符合短板需求,但浪面略顯凌亂")
    else if size in {Flat, Ankle, Knee, Thigh} && power == Weak then
      Verdict(Challenging, "浪太小且缺乏推力,短板難以起乘")
    else if size in {Thigh, Waist} && period in {GroundSwell, LongPeriod} && texture in {Glassy, Clean} then
      Verdict(Fair, "浪小但週期長,有經驗的短板玩家仍可起乘")
    else if size in {Chest, Shoulder, Head} && period == WindSwell then
      Verdict(Challenging, "浪雖大但週期短,缺乏推力且容易關門")
    else if size in {Overhead, DoubleOverhead} || power == Dangerous then
      if safety == Warning then Verdict(Challenging, "浪況強勁,僅適合進階玩家")
      else Verdict(Fair, "大浪條件,適合有經驗的短板玩家挑戰")
    else if texture == BlownOut then
      Verdict(Challenging, "浪面被風吹亂,難以做動作")
    else
      Verdict(Fair, "條件普通,短板可以使用但非最佳狀態")
  }

  /** A warning only changes the shortboard's verdict in the big-wave branch,
      which it turns from fair into challenging. */
  lemma ShortboardWarningOnlyForBigSurf(wave: WaveFeatures, wind: WindFeatures)
    ensures AssessShortboard(wave, wind, Warning) != AssessShortboard(wave, wind, Safe) ==>
              (wave.size in {Overhead, DoubleOverhead} || wave.power == Dangerous) &&
              AssessShortboard(wave, wind, Safe).suitability == Fair &&
              AssessShortboard(wave, wind, Warning).suitability == Challenging
  {
  }

  // ---------------------------------------------------------------------
  // Funboard
  // ---------------------------------------------------------------------

  /** The funboard's catch-all verdict. */
  const FunboardDefault: Verdict := Verdict(Good, "趣味板的多功能性適合當前條件")

  const FunboardStruggles: Verdict := Verdict(Challenging, "條件不佳,影響趣味板的表現")

  /** Knee to shoulder, not dangerous, and not blown out: the funboard's
      broad good range. */
  predicate FunboardFits(wave: WaveFeatures, wind: WindFeatures)
  {
    wave.size in {Knee, Thigh, Waist, Chest, Shoulder} && !wave.power.Dangerous? && !wind.texture.BlownOut?
  }

  /** Thigh to chest, moderate or solid, and not rough: the funboard's ideal. */
  predicate FunboardIdeal(wave: WaveFeatures, wind: WindFeatures)
  {
    wave.size in {Thigh, Waist, Chest} && wave.power in {Moderate, Solid} && wind.texture in {Glassy, Clean, Textured}
  }

  /** The two fair cases: tiny weak surf, or head-high and bigger heavy surf. */
  predicate FunboardFair(wave: WaveFeatures)
  {
    (wave.size in {Flat, Ankle} && wave.power.Weak?) ||
    (wave.size in {Head, Overhead} && wave.power in {Heavy, Dangerous})
  }

  /** assessFunboard. The warning is consulted only once the perfect, good
      and fair branches have failed, and the catch-all verdict is good. */
  function AssessFunboard(wave: WaveFeatures, wind: WindFeatures, safety: Safety): (v: Verdict)
    ensures v.suitability == Unsuitable <==> safety == Danger
    ensures safety == Danger ==> v.reasoning == DangerReason
    ensures v.suitability == Perfect <==> safety != Danger && FunboardIdeal(wave, wind)
    ensures v.suitability == Fair <==> safety != Danger && FunboardFair(wave)
    ensures v.suitability == Challenging <==>
              safety != Danger && (wind.texture.BlownOut? || safety.Warning?) &&
              !FunboardFits(wave, wind) && !FunboardFair(wave)
    ensures v.suitability == Good <==>
              safety != Danger && !FunboardIdeal(wave, wind) &&
              (FunboardFits(wave, wind) ||
               (!FunboardFair(wave) && !wind.texture.BlownOut? && !safety.Warning?))
  {
    var size, power, texture := wave.size, wave.power, wind.texture;
    if safety == Danger then
      Verdict(Unsuitable, DangerReason)
    else if size in {Thigh, Waist, Chest} && power in {Moderate, Solid} && texture in {Glassy, Clean, Textured} then
      Verdict(Perfect, "中等浪況,趣味板能兼顧起乘容易度與操控性")
    else if size in {Knee, Thigh, Waist, Chest, Shoulder} && power != Dangerous && texture != BlownOut then
      Verdict(Good, "浪況適合趣味板的多功能特性")
    else if size in {Flat, Ankle} && power == Weak then
      Verdict(Fair, "浪太小,長板會更容易起乘")
    else if size in {Head, Overhead} && power in {Heavy, Dangerous} then
      Verdict(Fair, "浪況強勁,短板會更靈活")
    else if texture == BlownOut || safety == Warning then
      FunboardStruggles
    else
      FunboardDefault
  }

  /** A warning is only consulted after the perfect, good and fair branches:
      it changes nothing except turning the catch-all 'good' into
      'challenging'. */
  lemma FunboardWarningComesLast(wave: WaveFeatures, wind: WindFeatures)
    ensures AssessFunboard(wave, wind, Warning) ==
              if AssessFunboard(wave, wind, Safe) == FunboardDefault then FunboardStruggles
              else AssessFunboard(wave, wind, Safe)
  {
  }

  // ---------------------------------------------------------------------
  // Recommendation
  // ---------------------------------------------------------------------

  /** The scoreMap of determineRecommendedBoard. Every suitability has an
      entry, so the `|| 0` fallback never applies. */
  function Score(s: Suitability): (n: nat)
    ensures 1 <= n <= 5
    ensures n <= 2 <==> s in {Challenging, Unsuitable}
    ensures n == 5 <==> s == Perfect
  {
    match s
    case Perfect => 5
    case Good => 4
    case Fair => 3
    case Challenging => 2
    case Unsuitable => 1
  }

  datatype Recommendation = Longboard | Shortboard | Funboard | NoBoard

  function Max3(a: int, b: int, c: int): (m: int)
    ensures m >= a && m >= b && m >= c
    ensures m == a || m == b || m == c
  {
    if a >= b && a >= c then a else if b >= c then b else c
  }

  /** determineRecommendedBoard: nothing when even the best score is at most
      2 (challenging); otherwise a board with the best score, the funboard
      winning every tie and the longboard beating the shortboard. */
  function DetermineRecommendedBoard(longboard: Verdict, shortboard: Verdict, funboard: Verdict): (r: Recommendation)
    ensures var l, s, f := Score(longboard.suitability), Score(shortboard.suitability), Score(funboard.suitability);
      && (r == NoBoard <==> Max3(l, s, f) <= 2)
      && (r == Funboard <==> f > 2 && f >= l && f >= s)
      && (r == Longboard <==> l > 2 && l > f && l >= s)
      && (r == Shortboard <==> s > 2 && s > f && s > l)
  {
    var l := Score(longboard.suitability);
    var s := Score(shortboard.suitability);
    var f := Score(funboard.suitability);
    var maxScore := Max3(l, s, f);
    if maxScore <= 2 then NoBoard
    else if f == maxScore then Funboard
    else if l == maxScore then Longboard
    else if s == maxScore then Shortboard
    else Funboard
  }

  /** The boardNames table; every recommendation has a name. */
  function BoardName(r: Recommendation): (name: string)
    ensures name in {"長板", "短板", "Fun Board", "無"}
    ensures name == "無" <==> r == NoBoard
  {
    match r
    case Longboard => "長板"
    case Shortboard => "短板"
    case Funboard => "Fun Board"
    case NoBoard => "無"
  }

  datatype BoardReport = BoardReport(
    longboard: Verdict, shortboard: Verdict, funboard: Verdict,
    recommended: Recommendation, recommendedName: string)

  /** analyzeBoardSuitability. */
  function AnalyzeBoardSuitability(wave: WaveFeatures, wind: WindFeatures, safety: Safety): (rep: BoardReport)
    ensures rep.longboard == AssessLongboard(wave, wind, safety)
    ensures rep.shortboard == AssessShortboard(wave, wind, safety)
    ensures rep.funboard == AssessFunboard(wave, wind, safety)
    ensures rep.recommended == DetermineRecommendedBoard(rep.longboard, rep.shortboard, rep.funboard)
    ensures rep.recommendedName in {"長板", "短板", "Fun Board", "無"}
    ensures rep.recommendedName == BoardName(rep.recommended)
    ensures safety == Danger ==> rep.recommended == NoBoard
  {
    var longboard := AssessLongboard(wave, wind, safety);
    var shortboard := AssessShortboard(wave, wind, safety);
    var funboard := AssessFunboard(wave, wind, safety);
    var recommended := DetermineRecommendedBoard(longboard, shortboard, funboard);
    BoardReport(longboard, shortboard, funboard, recommended, BoardName(recommended))
  }

  /** Without a safety concern and with a surface that is not blown out, the
      funboard is at least fair, so some board is always recommended. */
  lemma CalmSeaAlwaysRecommends(wave: WaveFeatures, wind: WindFeatures)
    requires wind.texture != BlownOut
    ensures AnalyzeBoardSuitability(wave, wind, Safe).recommended != NoBoard
  {
    var f := AssessFunboard(wave, wind, Safe);
    assert f.suitability != Challenging && f.suitability != Unsuitable;
  }

  /** A funboard and a longboard both rated good: the funboard is
      recommended. */
  lemma FunboardWinsTie()
    ensures var wave := WaveFeatures(Weak, Chest, MixedSwell);
      var wind := WindFeatures(Clean, LightWind, None);
      AssessLongboard(wave, wind, Safe).suitability == Good &&
      AssessFunboard(wave, wind, Safe).suitability == Good &&
      AnalyzeBoardSuitability(wave, wind, Safe).recommended == Funboard
  {
  }
}
