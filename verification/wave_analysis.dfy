/** Wave classifier: buckets a wave height (metres) into the body scale, a
    period (seconds) into a swell class, and the pair into a power tier, then
    combines the three into the one-line wave narrative. */
module WaveAnalysis {

  import opened Js
  import opened Features

  // ---------------------------------------------------------------------
  // Body scale
  // ---------------------------------------------------------------------

  /** The nine heights (metres) that separate the ten body-scale steps:
      step n covers [Edge(n - 1), Edge(n)). */
  function Edge(n: nat): real
    requires n < 9
  {
    [0.2, 0.4, 0.6, 0.8, 1.0, 1.3, 1.6, 2.0, 2.5][n]
  }

  /** The Chinese label the source returns for each step. */
  function BodyLabel(s: Size): string
  {
    match s
    case Flat => "平坦"
    case Ankle => "腳踝浪"
    case Knee => "膝蓋浪"
    case Thigh => "大腿浪"
    case Waist => "腰浪"
    case Chest => "胸浪"
    case Shoulder => "肩浪"
    case Head => "頭浪"
    case Overhead => "過頭浪"
    case DoubleOverhead => "兩倍人高"
  }

  /** getBodyHeightScale: the step whose half-open interval holds the height. */
  function BodyHeightScale(height: real): (s: Size)
    ensures s.Step() == 0 || Edge(s.Step() - 1) <= height
    ensures s.Step() == 9 || height < Edge(s.Step())
  {
    if height < 0.2 then Flat
    else if height < 0.4 then Ankle
    else if height < 0.6 then Knee
    else if height < 0.8 then Thigh
    else if height < 1.0 then Waist
    else if height < 1.3 then Chest
    else if height < 1.6 then Shoulder
    else if height < 2.0 then Head
    else if height < 2.5 then Overhead
    else DoubleOverhead
  }

  /** The edges increase, so the intervals do not overlap. */
  lemma EdgesIncrease(m: nat, n: nat)
    requires m < n < 9
    ensures Edge(m) < Edge(n)
  {
  }

  /** A higher wave never lands on a lower step. */
  lemma BodyScaleMonotone(h1: real, h2: real)
    requires h1 <= h2
    ensures BodyHeightScale(h1).Step() <= BodyHeightScale(h2).Step()
  {
    var a, b := BodyHeightScale(h1).Step(), BodyHeightScale(h2).Step();
    if a > b {
      EdgesIncrease(b, a - 1);
      assert false;
    }
  }

  /** The intervals are closed below: each edge itself starts the next step. */
  lemma BodyScaleEdges()
    ensures BodyHeightScale(0.19) == Flat && BodyHeightScale(0.2) == Ankle
    ensures BodyHeightScale(0.99) == Waist && BodyHeightScale(1.0) == Chest
    ensures BodyHeightScale(2.49) == Overhead && BodyHeightScale(2.5) == DoubleOverhead
    ensures BodyLabel(BodyHeightScale(0.2)) == "腳踝浪" && BodyLabel(BodyHeightScale(2.5)) == "兩倍人高"
  {
  }

  // ---------------------------------------------------------------------
  // Period class
  // ---------------------------------------------------------------------

  /** categorizePeriod's record: the swell class tag, its Chinese name and a
      quality word. */
  datatype PeriodInfo = PeriodInfo(kind: SwellClass, desc: string, quality: string)

  /** categorizePeriod. */
  function CategorizePeriod(period: real): (r: PeriodInfo)
    ensures r.kind == WindSwell <==> period < 6.0
    ensures r.kind == MixedSwell <==> 6.0 <= period < 9.0
    ensures r.kind == GroundSwell <==> 9.0 <= period < 12.0
    ensures r.kind == LongPeriod <==> 12.0 <= period
  {
    if period < 6.0 then PeriodInfo(WindSwell, "風浪", "雜亂")
    else if period < 9.0 then PeriodInfo(MixedSwell, "混合浪", "普通")
    else if period < 12.0 then PeriodInfo(GroundSwell, "湧浪", "良好")
    else PeriodInfo(LongPeriod, "長週期湧浪", "優異")
  }

  /** A longer period never gives a shorter swell class. */
  lemma PeriodClassMonotone(p1: real, p2: real)
    requires p1 <= p2
    ensures CategorizePeriod(p1).kind.Step() <= CategorizePeriod(p2).kind.Step()
  {
  }

  // ---------------------------------------------------------------------
  // Power
  // ---------------------------------------------------------------------

  /** The six power tiers of determinePower, weakest first:
      軟弱, 普通, 尚可, 有力, 強勁, 危險. */
  datatype Energy = Soft | Ordinary | Passable | Punchy | Strong | Hazardous
  {
    function Tier(): (n: nat)
      ensures n < 6
    {
      match this
      case Soft => 0
      case Ordinary => 1
      case Passable => 2
      case Punchy => 3
      case Strong => 4
      case Hazardous => 5
    }

    function Label(): string
    {
      match this
      case Soft => "軟弱"
      case Ordinary => "普通"
      case Passable => "尚可"
      case Punchy => "有力"
      case Strong => "強勁"
      case Hazardous => "危險"
    }
  }

  /** determinePower: the period picks a band, the height a tier within it. */
  function DeterminePower(height: real, period: real): (e: Energy)
    ensures period < 6.0 ==> e in {Soft, Ordinary, Passable}
    ensures 6.0 <= period ==> e != Passable
    ensures e == Hazardous ==> 9.0 <= period
    ensures 12.0 <= period ==> e != Soft && (e == Hazardous <==> 2.0 <= height)
  {
    if period < 6.0 then
      if height < 0.8 then Soft
      else if height < 1.5 then Ordinary
      else Passable
    else if period < 9.0 then
      if height < 0.5 then Soft
      else if height < 1.0 then Ordinary
      else if height < 2.0 then Punchy
      else Strong
    else if period < 12.0 then
      if height < 0.4 then Soft
      else if height < 0.8 then Ordinary
      else if height < 1.5 then Punchy
      else if height < 2.5 then Strong
      else Hazardous
    else
      if height < 0.5 then Ordinary
      else if height < 1.0 then Punchy
      else if height < 2.0 then Strong
      else Hazardous
  }

  /** Within any one period band a higher wave never has less power. */
  lemma PowerMonotoneInHeight(h1: real, h2: real, period: real)
    requires h1 <= h2
    ensures DeterminePower(h1, period).Tier() <= DeterminePower(h2, period).Tier()
  {
  }

  /** For a fixed height a longer period never has less power. */
  lemma PowerMonotoneInPeriod(height: real, p1: real, p2: real)
    requires p1 <= p2
    ensures DeterminePower(height, p1).Tier() <= DeterminePower(height, p2).Tier()
  {
  }

  /** Periods of exactly 6, 9 and 12 seconds belong to the longer band. */
  lemma PowerBandBoundaries()
    ensures DeterminePower(0.8, 5.9) == Ordinary
    ensures DeterminePower(0.8, 6.0) == Ordinary
    ensures DeterminePower(0.8, 9.0) == Punchy
    ensures DeterminePower(0.8, 12.0) == Punchy
    ensures DeterminePower(0.45, 9.0) == Ordinary && DeterminePower(0.45, 8.9) == Soft
    ensures DeterminePower(2.0, 12.0) == Hazardous && DeterminePower(2.0, 11.9) == Strong
  {
  }

  // ---------------------------------------------------------------------
  // Narrative
  // ---------------------------------------------------------------------

  /** generateWaveNarrative's sentence: either the fixed "not enough wave
      information" sentence, or the template filled with the height, its body
      scale, the period, its swell description and the power tier. */
  datatype WaveNarrative =
    | WaveInfoMissing
    | WaveReport(height: real, scale: Size, period: real, periodDesc: string, power: Energy)

  /** generateWaveNarrative. `None` is an undefined argument. */
  function GenerateWaveNarrative(height: Option<real>, period: Option<real>): (n: WaveNarrative)
    ensures n == WaveInfoMissing <==>
              height == None || period == None || height == Some(0.0) || period == Some(0.0)
    ensures n.WaveReport? ==>
              n.height == height.value && n.period == period.value &&
              n.scale == BodyHeightScale(n.height) &&
              n.periodDesc == CategorizePeriod(n.period).desc &&
              n.power == DeterminePower(n.height, n.period)
  {
    if height == None || period == None || height == Some(0.0) || period == Some(0.0) then
      WaveInfoMissing
    else
      var h, p := height.value, period.value;
      WaveReport(h, BodyHeightScale(h), p, CategorizePeriod(p).desc, DeterminePower(h, p))
  }

  /** A wave at least 2 m high with a period of 12 s or more is reported,
      and its power as 危險. */
  lemma NarrativeReportsDanger(height: real, period: real)
    requires 2.0 <= height && 12.0 <= period
    ensures GenerateWaveNarrative(Some(height), Some(period)).WaveReport?
    ensures GenerateWaveNarrative(Some(height), Some(period)).power.Label() == "危險"
  {
  }
}
