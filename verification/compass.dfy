/** convertDegreesToDirection: a bearing in degrees to a label of the
    sixteen-point compass, index Math.round(deg / 22.5) % 16. */
module Compass {

  import opened Js

  /** The argument as the function sees it: undefined, null, the string
      "None", or anything else, in which case only what parseFloat makes of
      it matters (`None` when that is NaN). */
  datatype DegreesInput = Undefined | Null | NoneText | Given(parsed: Option<real>)

  /** The result: the placeholder "--", a compass label, or the undefined
      that indexing the label array out of range yields. */
  datatype Direction = Placeholder | Point(name: string) | OutOfRange

  /** The sixteen labels clockwise from north, 22.5 degrees apart. */
  const Labels16: seq<string> := [
    "北", "北北東", "東北", "東北東", "東", "東南東", "東南", "南南東",
    "南", "南南西", "西南", "西南西", "西", "西北西", "西北", "北北西"
  ]

  function ConvertDegreesToDirection(degrees: DegreesInput): (r: Direction)
    ensures r == Placeholder <==>
              degrees in {Undefined, Null, NoneText} || degrees == Given(None)
    ensures degrees.Given? && degrees.parsed.Some? && degrees.parsed.value >= 0.0 ==>
              r == Point(Labels16[Round(degrees.parsed.value / 22.5) % 16])
    ensures degrees.Given? && degrees.parsed.Some? && degrees.parsed.value < 0.0 ==>
              (r == OutOfRange <==> Round(degrees.parsed.value / 22.5) % 16 != 0) &&
              (r != OutOfRange ==> r == Point(Labels16[0]))
  {
    match degrees
    case Undefined => Placeholder
    case Null => Placeholder
    case NoneText => Placeholder
    case Given(parsed) =>
      match parsed
      case None => Placeholder
      case Some(val) =>
        var index := Rem(Round(val / 22.5), 16);
        if 0 <= index < 16 then Point(Labels16[index]) else OutOfRange
  }

  /** The cardinal points and the wrap at 360. */
  lemma CardinalPoints()
    ensures ConvertDegreesToDirection(Given(Some(0.0))) == Point("北")
    ensures ConvertDegreesToDirection(Given(Some(360.0))) == Point("北")
    ensures ConvertDegreesToDirection(Given(Some(90.0))) == Point("東")
    ensures ConvertDegreesToDirection(Given(Some(180.0))) == Point("南")
    ensures ConvertDegreesToDirection(Given(Some(270.0))) == Point("西")
  {
    assert Round(360.0 / 22.5) == 16 && Round(90.0 / 22.5) == 4;
    assert Round(180.0 / 22.5) == 8 && Round(270.0 / 22.5) == 12;
  }

  /** Halves round up: 11.25 is already north-north-east, and 348.75 wraps to
      north. */
  lemma HalvesRoundUp()
    ensures ConvertDegreesToDirection(Given(Some(11.25))) == Point("北北東")
    ensures ConvertDegreesToDirection(Given(Some(11.2))) == Point("北")
    ensures ConvertDegreesToDirection(Given(Some(348.75))) == Point("北")
    ensures ConvertDegreesToDirection(Given(Some(348.7))) == Point("北北西")
  {
  }

  /** Negative bearings are not normalised: down to -11.25 they round to
      (minus) zero and read as north, just below that the index is negative
      and the lookup is undefined, and a whole number of turns back
      (-360) is north again. */
  lemma NegativeBearings()
    ensures ConvertDegreesToDirection(Given(Some(-11.25))) == Point("北")
    ensures ConvertDegreesToDirection(Given(Some(-11.3))) == OutOfRange
    ensures ConvertDegreesToDirection(Given(Some(-90.0))) == OutOfRange
    ensures ConvertDegreesToDirection(Given(Some(-360.0))) == Point("北")
  {
  }

  /** Math.round commutes with adding a whole number. */
  lemma RoundShift(x: real, k: int)
    ensures Round(x + k as real) == Round(x) + k
  {
    var a, b := Round(x + k as real), Round(x) + k;
    assert b as real - 0.5 <= x + k as real < b as real + 0.5;
  }

  /** A full turn more gives the same label, for any bearing that is not
      negative. */
  lemma FullTurnSameLabel(val: real)
    requires val >= 0.0
    ensures ConvertDegreesToDirection(Given(Some(val + 360.0))) == ConvertDegreesToDirection(Given(Some(val)))
  {
    assert (val + 360.0) / 22.5 == val / 22.5 + 16.0;
    var j := Round(val / 22.5);
    RoundShift(val / 22.5, 16);
    assert Round((val + 360.0) / 22.5) == j + 16;
    assert j >= 0 && Rem(j + 16, 16) == Rem(j, 16);
  }
}
