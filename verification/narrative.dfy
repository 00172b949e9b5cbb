/** Wind narrative: one of a fixed set of sentences chosen from the wind
    type and its speed (km/h), with thresholds that differ per type, plus the
    two lookup tables that name a wind type and its quality in Chinese. */
module Narrative {

  import opened Js
  import opened WindAnalysis

  /** The closing remark of each sentence generateWindNarrative can produce. */
  datatype WindRemark =
    | TooStrong       // offshore above 30: may blow surfers out to sea
    | IdealOffshore   // offshore 15..25: ideal, clean faces
    | Glassy          // offshore below 8: glassy, nearly windless
    | GoodOffshore    // offshore otherwise: good direction, tidy faces
    | LightOnshore    // onshore below 8: little effect
    | MessyOnshore    // onshore 8..20: messy faces, average
    | StrongOnshore   // onshore from 20: strong onshore, poor
    | GentleCross     // cross-shore below 10: mild, stable
    | WobblyCross     // cross-shore 10..20: some chop, average
    | StrongCross     // cross-shore from 20: unstable, be careful

  /** The sentence: the fixed "not enough wind information" sentence, or a
      type word (absent in the glassy sentence), the speed and a remark. The
      decimal rendering of the speed is not modelled. */
  datatype WindNarrative =
    | WindInfoMissing
    | WindSentence(typeWord: Option<string>, speed: real, remark: WindRemark)

  /** The local windTypeMap of generateWindNarrative. */
  function NarrativeTypeWord(t: WindType): (r: string)
    ensures r == "" <==> t == Unknown
  {
    match t
    case Offshore => "離岸風"
    case Onshore => "向岸風"
    case CrossShore => "側風"
    case Unknown => ""
  }

  /** generateWindNarrative. */
  function GenerateWindNarrative(windDirText: Option<string>, windSpeed: Option<real>, beachFacing: Option<int>): (n: WindNarrative)
    ensures var a := AnalyzeWind(windDirText, windSpeed, beachFacing);
      && (n == WindInfoMissing <==> a.kind == Unknown)
      && (n.WindSentence? ==> n.speed == a.speed)
      && (a.kind == Offshore ==>
            (a.speed > 30.0 <==> n.remark == TooStrong) &&
            (15.0 <= a.speed <= 25.0 <==> n.remark == IdealOffshore) &&
            (a.speed < 8.0 <==> n.remark == Glassy) &&
            ((8.0 <= a.speed < 15.0 || 25.0 < a.speed <= 30.0) <==> n.remark == GoodOffshore))
      && (a.kind == Onshore ==>
            (a.speed < 8.0 <==> n.remark == LightOnshore) &&
            (8.0 <= a.speed < 20.0 <==> n.remark == MessyOnshore) &&
            (20.0 <= a.speed <==> n.remark == StrongOnshore))
      && (a.kind == CrossShore ==>
            (a.speed < 10.0 <==> n.remark == GentleCross) &&
            (10.0 <= a.speed < 20.0 <==> n.remark == WobblyCross) &&
            (20.0 <= a.speed <==> n.remark == StrongCross))
      && (n.WindSentence? ==> (n.typeWord == None <==> n.remark == Glassy))
      && (n.WindSentence? && n.typeWord.Some? ==> n.typeWord.value == NarrativeTypeWord(a.kind))
  {
    var analysis := AnalyzeWind(windDirText, windSpeed, beachFacing);
    if analysis.kind == Unknown then WindInfoMissing
    else
      var speed := analysis.speed;
      var word := Some(NarrativeTypeWord(analysis.kind));
      if analysis.kind == Offshore then
        if speed > 30.0 then WindSentence(word, speed, TooStrong)
        else if speed >= 15.0 && speed <= 25.0 then WindSentence(word, speed, IdealOffshore)
        else if speed < 8.0 then WindSentence(None, speed, Glassy)
        else WindSentence(word, speed, GoodOffshore)
      else if analysis.kind == Onshore then
        if speed < 8.0 then WindSentence(word, speed, LightOnshore)
        else if speed >= 8.0 && speed < 20.0 then WindSentence(word, speed, MessyOnshore)
        else WindSentence(word, speed, StrongOnshore)
      else
        if speed < 10.0 then WindSentence(word, speed, GentleCross)
        else if speed >= 10.0 && speed < 20.0 then WindSentence(word, speed, WobblyCross)
        else WindSentence(word, speed, StrongCross)
  }

  /** getWindQualityText. `Unknown` also covers every unlisted string that is
      not the name of an inherited Object property (such as 'toString'); those
      fall back to the same '--'. */
  function GetWindQualityText(windType: WindType): (r: string)
    ensures windType == Offshore ==> r == "優"
    ensures windType == CrossShore ==> r == "普通"
    ensures windType == Onshore ==> r == "差"
    ensures windType == Unknown ==> r == "--"
  {
    match windType
    case Offshore => "優"
    case CrossShore => "普通"
    case Onshore => "差"
    case Unknown => "--"
  }

  /** getWindTypeText. `Unknown` also covers every unlisted string that is
      not the name of an inherited Object property; those fall back to the
      same '風向未知'. */
  function GetWindTypeText(windType: WindType): (r: string)
    ensures windType == Offshore ==> r == "離岸風"
    ensures windType == Onshore ==> r == "向岸風"
    ensures windType == CrossShore ==> r == "側風"
    ensures windType == Unknown ==> r == "風向未知"
  {
    match windType
    case Offshore => "離岸風"
    case Onshore => "向岸風"
    case CrossShore => "側風"
    case Unknown => "風向未知"
  }

  /** The quality text is the placeholder exactly when getWindQuality says
      'unknown', and the three known types get three different words. */
  lemma QualityTextFollowsQuality(t1: WindType, t2: WindType)
    ensures GetWindQualityText(t1) == "--" <==> GetWindQuality(t1) == UnknownQuality
    ensures GetWindQualityText(t1) == GetWindQualityText(t2) <==> GetWindQuality(t1) == GetWindQuality(t2)
  {
  }

  /** Every sentence that names the wind type names it as getWindTypeText
      does. */
  lemma NarrativeNamesTypeAsTypeText(windDirText: Option<string>, windSpeed: Option<real>, beachFacing: Option<int>)
    ensures var n := GenerateWindNarrative(windDirText, windSpeed, beachFacing);
      n.WindSentence? && n.typeWord.Some? ==>
        n.typeWord.value == GetWindTypeText(AnalyzeWind(windDirText, windSpeed, beachFacing).kind)
  {
    var a := AnalyzeWind(windDirText, windSpeed, beachFacing);
    var n := GenerateWindNarrative(windDirText, windSpeed, beachFacing);
    if n.WindSentence? && n.typeWord.Some? {
      assert n.typeWord.value == NarrativeTypeWord(a.kind) && a.kind != Unknown;
      TypeWordsAgree(a.kind);
    }
  }

  /** The narrative's own type map and getWindTypeText agree on the three
      known types. */
  lemma TypeWordsAgree(t: WindType)
    requires t != Unknown
    ensures NarrativeTypeWord(t) == GetWindTypeText(t)
  {
  }

  /** Offshore wind above 30 km/h gets the safety warning whatever else holds,
      and onshore wind of 20 km/h or more the strong-onshore sentence. */
  lemma StrongWindSentences(text: Option<string>, speed: real, facing: int)
    ensures var a := AnalyzeWind(text, Some(speed), Some(facing));
      var n := GenerateWindNarrative(text, Some(speed), Some(facing));
      (a.kind == Offshore && speed > 30.0 ==> n == WindSentence(Some("離岸風"), speed, TooStrong)) &&
      (a.kind == Onshore && speed >= 20.0 ==> n == WindSentence(Some("向岸風"), speed, StrongOnshore))
  {
  }
}
