/** Wind geometry: angle normalisation, the minimal angular difference,
    parsing of the direction text, the offshore / onshore / cross-shore
    classification relative to the beach facing, and its quality.

    The direction keys of windAnalysis.js are written here exactly as the
    characters that appear in that file: each is the UTF-8 encoding of a
    Chinese direction name (北, 東, 南, 西, with 偏 "leaning" as a prefix)
    read back one byte per character, with the bytes that have no such
    character left out. The substring relations between the keys are the
    same as between the Chinese names. */
module WindAnalysis {

  import opened Js

  // ---------------------------------------------------------------------
  // Angles
  // ---------------------------------------------------------------------

  /** normalizeAngle: the JavaScript remainder by 360, lifted into [0, 360)
      when negative. The result is the residue of the input modulo 360. */
  function NormalizeAngle(angle: int): (r: int)
    ensures 0 <= r < 360
    ensures r == angle % 360
  {
    var n := Rem(angle, 360);
    RemResidue(angle, n);
    if n < 0 then n + 360 else n
  }

  /** The JavaScript remainder by 360 is the residue, or the residue less
      360 when it is negative. */
  lemma RemResidue(angle: int, n: int)
    requires n == Rem(angle, 360)
    ensures n >= 0 ==> n == angle % 360
    ensures n < 0 ==> n + 360 == angle % 360
  {
    if angle < 0 {
      var q, m := (-angle) / 360, (-angle) % 360;
      assert -angle == 360 * q + m && 0 <= m < 360;
      if m > 0 {
        assert angle == 360 * (-q - 1) + (360 - m);
      } else {
        assert angle == 360 * (-q);
      }
    }
  }

  /** The distance from 0 to a residue d in [0, 360), going the short way
      round. */
  function Fold(d: int): int
  {
    if d > 180 then 360 - d else d
  }

  /** getAngularDifference: the smaller of the two arcs between the angles. */
  function AngularDifference(a: int, b: int): (r: int)
    ensures 0 <= r <= 180
  {
    var na, nb := NormalizeAngle(a), NormalizeAngle(b);
    var diff := if na >= nb then na - nb else nb - na;
    if diff > 180 then 360 - diff else diff
  }

  /** The difference only depends on the gap between the angles, modulo 360. */
  lemma AngularDifferenceOfGap(a: int, b: int)
    ensures AngularDifference(a, b) == Fold((a - b) % 360)
  {
    var na, nb := NormalizeAngle(a), NormalizeAngle(b);
    var qa, qb := a / 360, b / 360;
    assert a == 360 * qa + na && b == 360 * qb + nb;
    if na >= nb {
      ResidueOf(a - b, qa - qb, na - nb);
    } else {
      ResidueOf(a - b, qa - qb - 1, na - nb + 360);
    }
  }

  /** The residue modulo 360 is the remainder of any such decomposition. */
  lemma ResidueOf(x: int, q: int, r: int)
    requires x == 360 * q + r && 0 <= r < 360
    ensures x % 360 == r
  {
  }

  /** The difference is zero exactly for angles that agree modulo 360. */
  lemma AngularDifferenceZero(a: int, b: int)
    ensures AngularDifference(a, b) == 0 <==> (a - b) % 360 == 0
  {
    AngularDifferenceOfGap(a, b);
  }

  lemma AngularDifferenceSymmetric(a: int, b: int)
    ensures AngularDifference(a, b) == AngularDifference(b, a)
  {
  }

  // ---------------------------------------------------------------------
  // Direction text
  // ---------------------------------------------------------------------

  /** The single directions 北, 東, 南, 西 and the prefix 偏 ("leaning"). */
  const North: string := "\U{E5}\U{152}\U{2014}"
  const East: string := "\U{E6}\U{B1}"
  const South: string := "\U{E5}\U{2014}"
  const West: string := "\U{E8}\U{A5}\U{BF}"
  const Lean: string := "\U{E5}"

  /** The compound keys, named in their character order: NorthEast is 北東,
      EastNorth is 東北 (both north-east), LeanNorth is 偏北, and so on. */
  const LeanNorth: string := "\U{E5}\U{E5}\U{152}\U{2014}"
  const EastNorth: string := "\U{E6}\U{B1}\U{E5}\U{152}\U{2014}"
  const NorthEast: string := "\U{E5}\U{152}\U{2014}\U{E6}\U{B1}"
  const LeanEast: string := "\U{E5}\U{E6}\U{B1}"
  const EastSouth: string := "\U{E6}\U{B1}\U{E5}\U{2014}"
  const SouthEast: string := "\U{E5}\U{2014}\U{E6}\U{B1}"
  const LeanSouth: string := "\U{E5}\U{E5}\U{2014}"
  const WestSouth: string := "\U{E8}\U{A5}\U{BF}\U{E5}\U{2014}"
  const SouthWest: string := "\U{E5}\U{2014}\U{E8}\U{A5}\U{BF}"
  const LeanWest: string := "\U{E5}\U{E8}\U{A5}\U{BF}"
  const WestNorth: string := "\U{E8}\U{A5}\U{BF}\U{E5}\U{152}\U{2014}"
  const NorthWest: string := "\U{E5}\U{152}\U{2014}\U{E8}\U{A5}\U{BF}"

  /** Each compound key is its two parts written one after the other. */
  lemma CompoundKeys()
    ensures LeanNorth == Lean + North && EastNorth == East + North && NorthEast == North + East
    ensures LeanEast == Lean + East && EastSouth == East + South && SouthEast == South + East
    ensures LeanSouth == Lean + South && WestSouth == West + South && SouthWest == South + West
    ensures LeanWest == Lean + West && WestNorth == West + North && NorthWest == North + West
  {
  }

  /** One entry of the direction map: a key and the angle (degrees, the
      direction the wind comes from) it stands for. */
  datatype DirEntry = DirEntry(key: string, angle: int)

  /** The direction map in the order the source declares it; JavaScript's
      Object.entries visits string keys in that order. */
  const DirTable: seq<DirEntry> := [
    DirEntry(North, 0), DirEntry(LeanNorth, 0),
    DirEntry(EastNorth, 45), DirEntry(NorthEast, 45),
    DirEntry(East, 90), DirEntry(LeanEast, 90),
    DirEntry(EastSouth, 135), DirEntry(SouthEast, 135),
    DirEntry(South, 180), DirEntry(LeanSouth, 180),
    DirEntry(WestSouth, 225), DirEntry(SouthWest, 225),
    DirEntry(West, 270), DirEntry(LeanWest, 270),
    DirEntry(WestNorth, 315), DirEntry(NorthWest, 315)
  ]

  /** The position of the first entry whose key occurs in the text. */
  function FirstMatch(text: string, table: seq<DirEntry>): (r: Option<nat>)
    ensures r.Some? ==> r.value < |table| && Includes(text, table[r.value].key)
    ensures forall j :: 0 <= j < |table| && (r.None? || j < r.value) ==> !Includes(text, table[j].key)
  {
    if |table| == 0 then None
    else if Includes(text, table[0].key) then Some(0)
    else
      match FirstMatch(text, table[1..])
      case None => None
      case Some(k) => Some(k + 1)
  }

  /** The loop of parseWindDirection over a given table: empty or missing
      text and "--" are rejected, otherwise the first entry whose key occurs
      in the text gives the angle. */
  function ParseWith(table: seq<DirEntry>, text: Option<string>): (r: Option<int>)
    ensures text == None || text == Some("") || text == Some("--") ==> r == None
    ensures r.Some? ==> exists e :: e in table && e.angle == r.value && Includes(text.value, e.key)
  {
    if text == None || text.value == "" || text.value == "--" then None
    else
      match FirstMatch(text.value, table)
      case None => None
      case Some(i) => Some(table[i].angle)
  }

  /** A text is rejected exactly when it is missing, empty, "--", or holds
      none of the keys. */
  lemma ParseFailsIffNoKey(table: seq<DirEntry>, text: Option<string>)
    ensures ParseWith(table, text) == None <==>
              (text == None || text.value == "" || text.value == "--" ||
               forall e :: e in table ==> !Includes(text.value, e.key))
  {
  }

  /** parseWindDirection, with the map as the source orders it. */
  function ParseWindDirection(text: Option<string>): (r: Option<int>)
    ensures text == None || text == Some("") || text == Some("--") ==> r == None
    ensures text.Some? && text.value != "--" && Includes(text.value, North) ==> r == Some(0)
  {
    ParseWith(DirTable, text)
  }

  /** As written, the first-match order makes the four diagonal directions
      unreachable: 北 is inside 東北, 北東, 西北 and 北西, 東 inside 東南 and
      南東, 南 inside 西南 and 南西, and each single key comes first. */
  lemma ParseWindDirectionOnlyCardinal(text: Option<string>)
    ensures ParseWindDirection(text) in {None, Some(0), Some(90), Some(180), Some(270)}
  {
    if text != None && text.value != "" && text.value != "--" {
      var m := FirstMatch(text.value, DirTable);
      if m.Some? {
        FirstMatchSkipsDiagonals(text.value);
        assert ParseWindDirection(text) == Some(DirTable[m.value].angle);
      }
    }
  }

  /** An entry whose key contains the key of an earlier entry is never the
      first match. */
  lemma ShadowedNeverFirst(t: string, table: seq<DirEntry>, j: nat, i: nat)
    requires j < i < |table| && Includes(table[i].key, table[j].key)
    ensures FirstMatch(t, table) != Some(i)
  {
    if FirstMatch(t, table) == Some(i) {
      IncludesTransitive(t, table[i].key, table[j].key);
      assert false;
    }
  }

  /** In the source's table every diagonal entry contains the key of an
      earlier single-direction entry: 北 (entry 0), 東 (entry 4) or 南
      (entry 8). */
  lemma NorthShadows()
    ensures Includes(DirTable[2].key, DirTable[0].key) && Includes(DirTable[3].key, DirTable[0].key)
    ensures Includes(DirTable[14].key, DirTable[0].key) && Includes(DirTable[15].key, DirTable[0].key)
  {
    assert DirTable[0] == DirEntry(North, 0);
    assert DirTable[2] == DirEntry(EastNorth, 45) && DirTable[3] == DirEntry(NorthEast, 45);
    assert DirTable[14] == DirEntry(WestNorth, 315) && DirTable[15] == DirEntry(NorthWest, 315);
    DiagonalsHoldCardinals();
  }

  lemma EastShadows()
    ensures Includes(DirTable[6].key, DirTable[4].key) && Includes(DirTable[7].key, DirTable[4].key)
  {
    assert DirTable[4] == DirEntry(East, 90);
    assert DirTable[6] == DirEntry(EastSouth, 135) && DirTable[7] == DirEntry(SouthEast, 135);
    DiagonalsHoldCardinals();
  }

  lemma SouthShadows()
    ensures Includes(DirTable[10].key, DirTable[8].key) && Includes(DirTable[11].key, DirTable[8].key)
  {
    assert DirTable[8] == DirEntry(South, 180);
    assert DirTable[10] == DirEntry(WestSouth, 225) && DirTable[11] == DirEntry(SouthWest, 225);
    DiagonalsHoldCardinals();
  }

  /** The angles of the entries that are not diagonal. */
  lemma CardinalAngles()
    ensures DirTable[0].angle == 0 && DirTable[1].angle == 0
    ensures DirTable[4].angle == 90 && DirTable[5].angle == 90
    ensures DirTable[8].angle == 180 && DirTable[9].angle == 180
    ensures DirTable[12].angle == 270 && DirTable[13].angle == 270
  {
  }

  /** The first match in the source's table has a cardinal angle. */
  lemma FirstMatchSkipsDiagonals(t: string)
    requires FirstMatch(t, DirTable).Some?
    ensures DirTable[FirstMatch(t, DirTable).value].angle in {0, 90, 180, 270}
  {
    var i := FirstMatch(t, DirTable).value;
    FirstMatchNotDiagonal(t);
    CardinalAngles();
  }

  /** The first match in the source's table is never a diagonal entry. */
  lemma FirstMatchNotDiagonal(t: string)
    requires FirstMatch(t, DirTable).Some?
    ensures FirstMatch(t, DirTable).value in {0, 1, 4, 5, 8, 9, 12, 13}
  {
    var i := FirstMatch(t, DirTable).value;
    NorthShadows();
    EastShadows();
    SouthShadows();
    ShadowedNeverFirst(t, DirTable, 0, 2);
    ShadowedNeverFirst(t, DirTable, 0, 3);
    ShadowedNeverFirst(t, DirTable, 4, 6);
    ShadowedNeverFirst(t, DirTable, 4, 7);
    ShadowedNeverFirst(t, DirTable, 8, 10);
    ShadowedNeverFirst(t, DirTable, 8, 11);
    ShadowedNeverFirst(t, DirTable, 0, 14);
    ShadowedNeverFirst(t, DirTable, 0, 15);
    assert i < 16 && i != 2 && i != 3 && i != 6 && i != 7 && i != 10 && i != 11 && i != 14 && i != 15;
  }

  /** Every diagonal key contains a single key that comes before it. */
  lemma DiagonalsHoldCardinals()
    ensures Includes(EastNorth, North) && Includes(NorthEast, North)
    ensures Includes(WestNorth, North) && Includes(NorthWest, North)
    ensures Includes(EastSouth, East) && Includes(SouthEast, East)
    ensures Includes(WestSouth, South) && Includes(SouthWest, South)
  {
    assert North <= EastNorth[2..] && North <= NorthEast[0..];
    IncludesAt(EastNorth, North, 2);
    IncludesAt(NorthEast, North, 0);
    assert North <= WestNorth[3..] && North <= NorthWest[0..];
    IncludesAt(WestNorth, North, 3);
    IncludesAt(NorthWest, North, 0);
    assert East <= EastSouth[0..] && East <= SouthEast[2..];
    IncludesAt(EastSouth, East, 0);
    IncludesAt(SouthEast, East, 2);
    assert South <= WestSouth[3..] && South <= SouthWest[0..];
    IncludesAt(WestSouth, South, 3);
    IncludesAt(SouthWest, South, 0);
  }

  /** The key the source maps to 45 (東北) is parsed as 0. */
  lemma ParseWindDirectionMisreadsNorthEast()
    ensures DirEntry(EastNorth, 45) in DirTable
    ensures ParseWindDirection(Some(EastNorth)) == Some(0)
  {
    assert DirTable[2] == DirEntry(EastNorth, 45);
    assert North <= EastNorth[2..];
    IncludesAt(EastNorth, North, 2);
  }

  /** The first character of every key: the lead byte of a three-byte UTF-8
      sequence, read as the single character å, æ or è. */
  const LeadChars: set<char> := {'\U{E5}', '\U{E6}', '\U{E8}'}

  lemma KeysStartWithLeadChar()
    ensures forall e :: e in DirTable ==> |e.key| > 0 && e.key[0] in LeadChars
  {
  }

  /** A text free of those characters holds no key, so the parser rejects it
      and analyzeWind reports an unknown wind. Every properly encoded Chinese
      direction text is such a text. */
  lemma ReadableTextNeverParses(text: string, windSpeed: Option<real>, beachFacing: Option<int>)
    requires forall k :: 0 <= k < |text| ==> text[k] !in LeadChars
    ensures ParseWindDirection(Some(text)) == None
    ensures AnalyzeWind(Some(text), windSpeed, beachFacing).kind == Unknown
  {
    KeysStartWithLeadChar();
    ParseFailsIffNoKey(DirTable, Some(text));
  }

  /** The text 偏東風, properly encoded, is not read as any direction. */
  lemma EastWindTextUnknown(windSpeed: Option<real>, beachFacing: Option<int>)
    ensures ParseWindDirection(Some("偏東風")) == None
    ensures AnalyzeWind(Some("偏東風"), windSpeed, beachFacing).kind == Unknown
  {
    ReadableTextNeverParses("偏東風", windSpeed, beachFacing);
  }

  /** No key is longer than an earlier one or equal to it. */
  predicate LongestFirst(table: seq<DirEntry>)
  {
    forall j, i :: 0 <= j < i < |table| ==>
      |table[i].key| <= |table[j].key| && table[i].key != table[j].key
  }

  /** Every key of the table is at least (or below) a given length. */
  predicate KeysAtLeast(table: seq<DirEntry>, n: nat)
  {
    forall e :: e in table ==> n <= |e.key|
  }

  predicate KeysBelow(table: seq<DirEntry>, n: nat)
  {
    forall e :: e in table ==> |e.key| < n
  }

  lemma LongestFirstAppend(a: seq<DirEntry>, b: seq<DirEntry>, n: nat)
    requires LongestFirst(a) && LongestFirst(b) && KeysAtLeast(a, n) && KeysBelow(b, n)
    ensures LongestFirst(a + b)
  {
    forall j, i | 0 <= j < i < |a + b|
      ensures |(a + b)[i].key| <= |(a + b)[j].key| && (a + b)[i].key != (a + b)[j].key
    {
      if j < |a| && |a| <= i {
        assert (a + b)[j] in a && (a + b)[i] in b;
      }
    }
  }

  /** The same map with the longer keys first (a stable sort by key length),
      so that a compound direction is tried before the single direction it
      contains; grouped by key length. */
  const Keys6: seq<DirEntry> := [DirEntry(WestNorth, 315), DirEntry(NorthWest, 315)]
  const Keys5: seq<DirEntry> :=
    [DirEntry(EastNorth, 45), DirEntry(NorthEast, 45), DirEntry(WestSouth, 225), DirEntry(SouthWest, 225)]
  const Keys4: seq<DirEntry> :=
    [DirEntry(LeanNorth, 0), DirEntry(EastSouth, 135), DirEntry(SouthEast, 135), DirEntry(LeanWest, 270)]
  const Keys3: seq<DirEntry> :=
    [DirEntry(North, 0), DirEntry(LeanEast, 90), DirEntry(LeanSouth, 180), DirEntry(West, 270)]
  const Keys2: seq<DirEntry> := [DirEntry(East, 90), DirEntry(South, 180)]
  const LongestFirstTable: seq<DirEntry> := Keys6 + Keys5 + Keys4 + Keys3 + Keys2

  lemma KeyGroupsOrdered()
    ensures LongestFirst(Keys6) && LongestFirst(Keys5) && LongestFirst(Keys4)
    ensures LongestFirst(Keys3) && LongestFirst(Keys2)
  {
  }

  /** The keys of each group have the group's length. */
  lemma KeyGroupLengths()
    ensures KeysAtLeast(Keys6, 6)
    ensures KeysAtLeast(Keys5, 5) && KeysBelow(Keys5, 6)
    ensures KeysAtLeast(Keys4, 4) && KeysBelow(Keys4, 5)
    ensures KeysAtLeast(Keys3, 3) && KeysBelow(Keys3, 4)
    ensures KeysBelow(Keys2, 3)
  {
    KeyLengths6And5();
    KeyLengths4();
    KeyLengths3And2();
  }

  lemma KeyLengths6And5()
    ensures KeysAtLeast(Keys6, 6)
    ensures KeysAtLeast(Keys5, 5) && KeysBelow(Keys5, 6)
  {
    assert |WestNorth| == 6 && |NorthWest| == 6;
    assert |EastNorth| == 5 && |NorthEast| == 5 && |WestSouth| == 5 && |SouthWest| == 5;
  }

  lemma KeyLengths4()
    ensures KeysAtLeast(Keys4, 4) && KeysBelow(Keys4, 5)
  {
    assert |LeanNorth| == 4 && |EastSouth| == 4 && |SouthEast| == 4 && |LeanWest| == 4;
  }

  lemma KeyLengths3And2()
    ensures KeysAtLeast(Keys3, 3) && KeysBelow(Keys3, 4)
    ensures KeysBelow(Keys2, 3)
  {
    assert |North| == 3 && |LeanEast| == 3 && |LeanSouth| == 3 && |West| == 3;
    assert |East| == 2 && |South| == 2;
  }

  lemma KeysAtLeastAppend(a: seq<DirEntry>, b: seq<DirEntry>, n: nat, m: nat)
    requires KeysAtLeast(a, n) && KeysAtLeast(b, m) && m <= n
    ensures KeysAtLeast(a + b, m)
  {
  }

  lemma LongestFirstTableOrdered()
    ensures LongestFirst(LongestFirstTable)
  {
    KeyGroupsOrdered();
    KeyGroupLengths();
    LongestFirstAppend(Keys6, Keys5, 6);
    KeysAtLeastAppend(Keys6, Keys5, 6, 5);
    LongestFirstAppend(Keys6 + Keys5, Keys4, 5);
    KeysAtLeastAppend(Keys6 + Keys5, Keys4, 5, 4);
    LongestFirstAppend(Keys6 + Keys5 + Keys4, Keys3, 4);
    KeysAtLeastAppend(Keys6 + Keys5 + Keys4, Keys3, 4, 3);
    LongestFirstAppend(Keys6 + Keys5 + Keys4 + Keys3, Keys2, 3);
  }

  /** The two tables hold the same entries. */
  lemma SameEntries()
    ensures forall e :: e in DirTable <==> e in LongestFirstTable
  {
  }

  /** In a longest-first table every key finds its own entry. */
  lemma {:induction false} OwnKeyFound(table: seq<DirEntry>, i: nat)
    requires LongestFirst(table) && i < |table|
    ensures FirstMatch(table[i].key, table) == Some(i)
  {
    var k := table[i].key;
    IncludesSelf(k);
    var m := FirstMatch(k, table);
    assert m.Some? && m.value <= i;
    if m.value < i {
      IncludesLength(k, table[m.value].key);
      assert false;
    }
  }

  /** parseWindDirection as evidently intended: the same map, longest key
      first. */
  function ParseWindDirectionLongestFirst(text: Option<string>): (r: Option<int>)
    ensures text == None || text == Some("") || text == Some("--") ==> r == None
    ensures r.Some? ==> exists e :: e in DirTable && e.angle == r.value && Includes(text.value, e.key)
  {
    SameEntries();
    ParseWith(LongestFirstTable, text)
  }

  /** The corrected parser reads every key of the source's map as the angle
      the map gives it. */
  lemma LongestFirstReadsEveryKey(e: DirEntry)
    requires e in DirTable
    ensures ParseWindDirectionLongestFirst(Some(e.key)) == Some(e.angle)
  {
    SameEntries();
    LongestFirstTableOrdered();
    var j :| 0 <= j < |LongestFirstTable| && LongestFirstTable[j] == e;
    OwnKeyFound(LongestFirstTable, j);
    KeysNeverRejected();
  }

  /** No key of the map is one of the texts the parser rejects outright. */
  lemma KeysNeverRejected()
    ensures forall e :: e in DirTable ==> e.key != "" && e.key != "--"
  {
  }

  /** Both orders reject exactly the same texts: they hold the same keys. */
  lemma ParsersAgreeOnRejection(text: Option<string>)
    ensures ParseWindDirection(text) == None <==> ParseWindDirectionLongestFirst(text) == None
  {
    ParseFailsIffNoKey(DirTable, text);
    ParseFailsIffNoKey(LongestFirstTable, text);
    SameEntries();
  }

  // ---------------------------------------------------------------------
  // Wind type and quality
  // ---------------------------------------------------------------------

  /** Wind type relative to the beach. `Unknown` is the source's 'unknown',
      and also stands for any other string handed to the quality and text
      tables that is not the name of an inherited Object property; all three
      treat such strings like 'unknown'. analyzeWind itself only ever
      produces the four tags. */
  datatype WindType = Offshore | Onshore | CrossShore | Unknown

  /** calculateWindType: offshore when the wind comes from within 45 degrees
      of the direction opposite the facing, onshore when within 45 degrees
      of the facing itself, cross-shore in between. */
  function CalculateWindType(windDirection: int, spotOrientation: int): (t: WindType)
    ensures t != Unknown
    ensures t == Offshore <==> AngularDifference(windDirection, spotOrientation) >= 135
    ensures t == Onshore <==> AngularDifference(windDirection, spotOrientation) <= 45
  {
    var diff := AngularDifference(windDirection, spotOrientation);
    if diff >= 135 && diff <= 180 then Offshore
    else if diff >= 0 && diff <= 45 then Onshore
    else CrossShore
  }

  /** Turning the wind and the beach by the same angle keeps the type. */
  lemma WindTypeRotationInvariant(windDirection: int, spotOrientation: int, turn: int)
    ensures CalculateWindType(windDirection + turn, spotOrientation + turn)
         == CalculateWindType(windDirection, spotOrientation)
  {
    AngularDifferenceOfGap(windDirection + turn, spotOrientation + turn);
    AngularDifferenceOfGap(windDirection, spotOrientation);
    assert (windDirection + turn) - (spotOrientation + turn) == windDirection - spotOrientation;
  }

  /** The ends of the bands: a difference of exactly 45 is onshore and of
      exactly 135 offshore. */
  lemma WindTypeBandEnds()
    ensures CalculateWindType(45, 0) == Onshore
    ensures CalculateWindType(46, 0) == CrossShore
    ensures CalculateWindType(134, 0) == CrossShore
    ensures CalculateWindType(135, 0) == Offshore
    ensures CalculateWindType(180, 0) == Offshore && CalculateWindType(0, 0) == Onshore
  {
  }

  datatype WindQuality = Excellent | Fair | Poor | UnknownQuality
  {
    /** 0 for unknown, then poor, fair, excellent. */
    function Rank(): nat
    {
      match this
      case UnknownQuality => 0
      case Poor => 1
      case Fair => 2
      case Excellent => 3
    }
  }

  /** getWindQuality. */
  function GetWindQuality(windType: WindType): (q: WindQuality)
    ensures q == Excellent <==> windType == Offshore
    ensures q == Fair <==> windType == CrossShore
    ensures q == Poor <==> windType == Onshore
    ensures q == UnknownQuality <==> windType == Unknown
  {
    match windType
    case Offshore => Excellent
    case CrossShore => Fair
    case Onshore => Poor
    case Unknown => UnknownQuality
  }

  /** The further the wind turns away from the facing, the better the
      quality never gets worse. */
  lemma QualityImprovesAwayFromFacing(w1: int, w2: int, facing: int)
    requires AngularDifference(w1, facing) <= AngularDifference(w2, facing)
    ensures GetWindQuality(CalculateWindType(w1, facing)).Rank()
         <= GetWindQuality(CalculateWindType(w2, facing)).Rank()
  {
  }

  // ---------------------------------------------------------------------
  // Direction label
  // ---------------------------------------------------------------------

  /** The eight labels of getWindDirectionLabel, clockwise from north. */
  const Labels8: seq<string> := [North, EastNorth, East, EastSouth, South, WestSouth, West, WestNorth]

  /** The index getWindDirectionLabel looks up: Math.round of the normalised
      angle over 45, modulo 8. It picks the point of the eight-point compass
      nearest the direction. */
  function DirectionIndex(direction: int): (i: nat)
    ensures i < 8
    ensures AngularDifference(45 * i, direction) <= 22
  {
    var n := NormalizeAngle(direction);
    var j := Round(n as real / 45.0);
    NearestMultiple(n, j);
    var i := Rem(j, 8);
    DirectionIndexNearest(direction, n, j, i);
    i
  }

  /** Math.round(n / 45) is the multiple of 45 within 22 degrees of n. */
  lemma NearestMultiple(n: int, j: int)
    requires 0 <= n < 360 && j == Round(n as real / 45.0)
    ensures 45 * j - 22 <= n <= 45 * j + 22 && 0 <= j <= 8
  {
    assert (j as real) - 0.5 <= n as real / 45.0 < (j as real) + 0.5;
    assert (j as real) * 45.0 - 22.5 <= n as real < (j as real) * 45.0 + 22.5;
    assert ((45 * j) as real) - 22.5 <= n as real < ((45 * j) as real) + 22.5;
  }

  lemma DirectionIndexNearest(direction: int, n: int, j: int, i: int)
    requires n == NormalizeAngle(direction) && 45 * j - 22 <= n <= 45 * j + 22
    requires 0 <= j <= 8 && i == j % 8
    ensures AngularDifference(45 * i, direction) <= 22
  {
    assert 0 <= 45 * i < 360;
    assert NormalizeAngle(45 * i) == 45 * i;
  }

  /** getWindDirectionLabel. */
  function GetWindDirectionLabel(direction: int): (r: string)
    ensures r in Labels8
  {
    Labels8[DirectionIndex(direction)]
  }

  /** 0 and 359 are both north; 22 still is, 23 is already north-east. */
  lemma DirectionLabelNorth()
    ensures GetWindDirectionLabel(0) == North && GetWindDirectionLabel(359) == North
    ensures GetWindDirectionLabel(22) == North && GetWindDirectionLabel(23) == EastNorth
  {
    assert Round(359 as real / 45.0) == 8 && Round(22 as real / 45.0) == 0 && Round(23 as real / 45.0) == 1;
    assert DirectionIndex(0) == 0 && DirectionIndex(359) == 0;
    assert DirectionIndex(22) == 0 && DirectionIndex(23) == 1;
  }

  // ---------------------------------------------------------------------
  // analyzeWind
  // ---------------------------------------------------------------------

  /** The emoji analyzeWind attaches: a question mark for unknown, sparkles
      for offshore, a wind face for cross-shore, a dash for onshore; the
      cyclone it starts from is the fallback for any other type. */
  datatype WindIcon = QuestionMark | Cyclone | Sparkles | WindFace | DashSymbol

  datatype WindReport = WindReport(kind: WindType, quality: WindQuality, direction: Option<int>, speed: real, icon: WindIcon)

  /** `windSpeed || 0`: a missing speed, or any other falsy one, reads as 0. */
  function SpeedOrZero(speed: Option<real>): (r: real)
    ensures speed == None ==> r == 0.0
    ensures speed.Some? ==> r == speed.value
  {
    if speed == None then 0.0 else speed.value
  }

  /** analyzeWind. `None` for the text is undefined or null; for the speed,
      any falsy value; for the facing, undefined. The direction is read with
      the source's parseWindDirection, so a known direction is always one of
      the four cardinal angles (ParseWindDirectionOnlyCardinal). */
  function AnalyzeWind(windDirText: Option<string>, windSpeed: Option<real>, beachFacing: Option<int>): (r: WindReport)
    ensures r.kind == Unknown <==> ParseWindDirection(windDirText) == None || beachFacing == None
    ensures r.kind == Unknown <==> r.direction == None
    ensures r.kind == Unknown ==> r.quality == UnknownQuality && r.icon == QuestionMark
    ensures r.speed == (if windSpeed == None then 0.0 else windSpeed.value)
    ensures r.quality == GetWindQuality(r.kind)
    ensures r.direction.Some? ==>
              r.direction == ParseWindDirection(windDirText) &&
              r.direction.value in {0, 90, 180, 270} &&
              r.kind == CalculateWindType(r.direction.value, beachFacing.value)
    ensures r.icon != Cyclone
    ensures r.kind == Offshore <==> r.icon == Sparkles
    ensures r.kind == CrossShore <==> r.icon == WindFace
    ensures r.kind == Onshore <==> r.icon == DashSymbol
  {
    ParseWindDirectionOnlyCardinal(windDirText);
    var windDirection := ParseWindDirection(windDirText);
    if windDirection == None || beachFacing == None then
      WindReport(Unknown, UnknownQuality, None, SpeedOrZero(windSpeed), QuestionMark)
    else
      var windType := CalculateWindType(windDirection.value, beachFacing.value);
      var icon :=
        if windType == Offshore then Sparkles
        else if windType == CrossShore then WindFace
        else if windType == Onshore then DashSymbol
        else Cyclone;
      WindReport(windType, GetWindQuality(windType), windDirection, SpeedOrZero(windSpeed), icon)
  }
}
