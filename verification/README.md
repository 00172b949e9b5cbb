# Surf-condition classifiers

A Dafny model of the stateless rule engine behind the surf forecast service.
The engine turns raw forecast numbers and categorical features into Chinese
labels, verdicts and sentences:

- the wave classifier buckets a height into a ten-step body scale, a period
  into four swell classes, and the pair into six power tiers;
- the wind classifier looks up a wind-direction text in a table of direction
  keys to get degrees, classifies the wind as offshore, onshore or
  cross-shore against the beach facing, and rates it;
- the compass helper maps a bearing onto the sixteen-point compass;
- the narrative generator picks the wind sentence from the wind type and
  speed;
- the board assessor rates the longboard, shortboard and funboard, and
  recommends one;
- the interaction analyser relates wave, wind and safety, and writes the
  overall assessment.

Every function of the core is pure, so the model is pure too. It uses
datatypes, functions with named results, and lemmas. Modules:

- `Js`: the JavaScript built-ins the code relies on, with their exact
  semantics. These are `Math.round`, the truncating `%`, `String.includes`
  and `Array.join`.
- `Features`: the categorical tags passed between classifiers, as closed
  enumerations.
- `WaveAnalysis`, `WindAnalysis`, `Compass`, `Narrative`, `BoardSuitability`
  and `InteractionAnalysis`: one module per source file.

The direction keys in `windAnalysis.js` are not stored as readable Chinese.
Each key is the UTF-8 encoding of a Chinese direction name, read back one
byte per character as in Windows-1252. The bytes 0x81, 0x8D, 0x8F and 0x9D
have no character there and are absent from the keys, so 偏 is the single
character å, 東 is æ±, and 南 is å—. The model writes each key with exactly
the characters that appear in the file. The substring relations between the
keys are the same as between the Chinese names, and those relations are what
the parser's behaviour depends on. A direction text is only read when it
arrives in that same form, with those bytes dropped; the example in the
source's own documentation comment is written that way. A decoder that keeps
those bytes (as U+0081 and the like) produces texts that hold no key for 偏,
東 or 南. A properly encoded Chinese text such as 偏東風 holds no key, so the parser
rejects it and `analyzeWind` reports an unknown wind
(`WindAnalysis.ReadableTextNeverParses`).

## Model

| member | source | states |
|---|---|---|
| Js.Round | debug_baishawan.js:12 | Math.round gives the integer within half of x, rounding a half upward |
| Js.Rem | windAnalysis.js:12 | the JavaScript remainder takes the dividend's sign, lies strictly inside (-d, d), and equals the mathematical residue for a non-negative dividend |
| Js.Includes | windAnalysis.js:50 | String.prototype.includes: the key occurs at some offset of the text, so it is never longer than the text |
| Js.Join | interactionAnalysis.js:364 | joining no parts gives ""; otherwise the length is the parts' lengths plus one separator between each pair |
| Js.JoinIncludesParts | interactionAnalysis.js:364 | every part occurs in the joined text |
| WaveAnalysis.BodyHeightScale | waveAnalysis.js:11-22 | the returned step is the one whose half-open interval [edge, next edge) holds the height |
| WaveAnalysis.BodyScaleMonotone | waveAnalysis.js:11-22 | a higher wave never lands on a lower step |
| WaveAnalysis.EdgesIncrease | waveAnalysis.js:12-20 | the thresholds strictly increase, so the intervals do not overlap |
| WaveAnalysis.BodyScaleEdges | waveAnalysis.js:12-21 | each threshold height itself belongs to the higher step; 0.2 m is labelled 腳踝浪 and 2.5 m 兩倍人高 |
| WaveAnalysis.CategorizePeriod | waveAnalysis.js:29-39 | wind swell iff under 6 s, mixed iff 6-9 s, ground swell iff 9-12 s, long period iff 12 s or more |
| WaveAnalysis.PeriodClassMonotone | waveAnalysis.js:29-39 | a longer period never gives a shorter swell class |
| WaveAnalysis.DeterminePower | waveAnalysis.js:47-77 | periods under 6 s give one of the three weakest tiers; from 6 s the 尚可 tier never occurs; 危險 needs a period of 9 s or more; from 12 s the power is never 軟弱 and is 危險 exactly from 2 m |
| WaveAnalysis.PowerMonotoneInHeight | waveAnalysis.js:47-77 | for a fixed period, a higher wave never has less power |
| WaveAnalysis.PowerMonotoneInPeriod | waveAnalysis.js:47-77 | for a fixed height, a longer period never gives less power |
| WaveAnalysis.PowerBandBoundaries | waveAnalysis.js:48-76 | periods of exactly 6, 9 and 12 s fall in the longer band |
| WaveAnalysis.GenerateWaveNarrative | waveAnalysis.js:85-101 | the "information missing" sentence appears exactly when a value is undefined or zero; otherwise the sentence carries the height, its body scale, the period, its swell name and the power tier |
| WaveAnalysis.NarrativeReportsDanger | waveAnalysis.js:85-101 | a wave of at least 2 m with a period of at least 12 s is reported, and as 危險 |
| WindAnalysis.NormalizeAngle | windAnalysis.js:11-17 | the result lies in [0, 360) and is the angle's residue modulo 360, negative angles included |
| WindAnalysis.AngularDifference | windAnalysis.js:23-26 | the difference lies in [0, 180] |
| WindAnalysis.AngularDifferenceOfGap | windAnalysis.js:23-26 | the difference depends only on the gap between the angles modulo 360, folded to the short arc |
| WindAnalysis.AngularDifferenceZero | windAnalysis.js:23-26 | the difference is zero exactly when the angles agree modulo 360 |
| WindAnalysis.AngularDifferenceSymmetric | windAnalysis.js:23-26 | the difference is symmetric |
| WindAnalysis.CompoundKeys | windAnalysis.js:38-45 | each compound key of the map is its two single parts written in sequence |
| WindAnalysis.FirstMatch | windAnalysis.js:49-53 | the loop returns the first entry whose key occurs in the text; no earlier key occurs |
| WindAnalysis.ParseWith | windAnalysis.js:33-56 | missing, empty or "--" text is rejected; a result is the angle of some entry whose key occurs in the text |
| WindAnalysis.ParseFailsIffNoKey | windAnalysis.js:33-56 | a text is rejected exactly when it is missing, empty, "--", or contains no key |
| WindAnalysis.ParseWindDirection | windAnalysis.js:33-56 | the source's map order: rejections as above, and any text containing the key for 北 reads as 0 |
| WindAnalysis.ParseWindDirectionOnlyCardinal | windAnalysis.js:37-53 | as written, the parser only ever yields 0, 90, 180 or 270 (or nothing) |
| WindAnalysis.ShadowedNeverFirst | windAnalysis.js:49-53 | an entry whose key contains the key of an earlier entry is never the first match |
| WindAnalysis.FirstMatchNotDiagonal | windAnalysis.js:38-53 | the first match in the source's order is never one of the eight diagonal entries |
| WindAnalysis.FirstMatchSkipsDiagonals | windAnalysis.js:38-53 | the first match in the source's order always has the angle 0, 90, 180 or 270 |
| WindAnalysis.DiagonalsHoldCardinals | windAnalysis.js:38-45 | every diagonal key contains a single-direction key listed before it |
| WindAnalysis.ParseWindDirectionMisreadsNorthEast | windAnalysis.js:38-39 | 東北 is mapped to 45, yet the text 東北 parses as 0 |
| WindAnalysis.KeysStartWithLeadChar | windAnalysis.js:37-46 | every key is non-empty and starts with å, æ or è, the lead byte of a UTF-8 Chinese character read as one character |
| WindAnalysis.ReadableTextNeverParses | windAnalysis.js:33-56 | a text with none of those characters, as every properly encoded Chinese text is, is rejected by the parser, and analyzeWind then reports an unknown wind |
| WindAnalysis.EastWindTextUnknown | windAnalysis.js:130-136 | the properly encoded text 偏東風 is not read as a direction, and the wind is unknown |
| WindAnalysis.LongestFirstTableOrdered | windAnalysis.js:37-46 | the reordered map lists its keys longest first, with no key repeated |
| WindAnalysis.SameEntries | windAnalysis.js:37-46 | the reordered map has exactly the entries of the source's map |
| WindAnalysis.OwnKeyFound | windAnalysis.js:49-53 | in a longest-first map, every key's first match is its own entry |
| WindAnalysis.ParseWindDirectionLongestFirst | windAnalysis.js:33-56 | the corrected parser has the same rejections, and any result is the angle of a key that occurs in the text |
| WindAnalysis.LongestFirstReadsEveryKey | windAnalysis.js:37-46 | the corrected parser reads every key of the map as the angle the map gives it |
| WindAnalysis.ParsersAgreeOnRejection | windAnalysis.js:33-56 | both orders reject exactly the same texts |
| WindAnalysis.CalculateWindType | windAnalysis.js:73-88 | the result is never unknown; offshore iff the difference is at least 135; onshore iff it is at most 45 |
| WindAnalysis.WindTypeRotationInvariant | windAnalysis.js:73-88 | turning the wind and the beach by the same angle keeps the type |
| WindAnalysis.WindTypeBandEnds | windAnalysis.js:77-87 | a difference of exactly 45 is onshore, and of exactly 135 offshore |
| WindAnalysis.GetWindQuality | windAnalysis.js:96-107 | excellent iff offshore, fair iff cross-shore, poor iff onshore, unknown otherwise |
| WindAnalysis.QualityImprovesAwayFromFacing | windAnalysis.js:73-107 | the further the wind is from the beach facing, the better or equal its quality |
| WindAnalysis.DirectionIndex | windAnalysis.js:116-118 | the label index lies in 0..7 and names the eight-point direction within 22 degrees of the wind |
| WindAnalysis.NearestMultiple | windAnalysis.js:118 | Math.round of a normalised angle over 45 gives the multiple of 45 within 22 degrees |
| WindAnalysis.DirectionIndexNearest | windAnalysis.js:116-118 | taking that multiple modulo 8 keeps it within 22 degrees of the wind |
| WindAnalysis.GetWindDirectionLabel | windAnalysis.js:115-120 | the label is always one of the eight labels, never undefined |
| WindAnalysis.DirectionLabelNorth | windAnalysis.js:115-120 | 0, 22 and 359 read as 北; 23 already reads as 東北 |
| WindAnalysis.SpeedOrZero | windAnalysis.js:138 | `windSpeed \|\| 0`: a falsy speed reads as 0, any other as itself |
| WindAnalysis.AnalyzeWind | windAnalysis.js:130-159 | unknown exactly when parseWindDirection rejects the text or the facing is missing, and then with no direction, unknown quality and a question mark; the speed defaults to 0; the quality is getWindQuality of the type; a known direction is parseWindDirection's result, hence 0, 90, 180 or 270, and the type is calculateWindType of it and the facing; each type has its own icon, and the fallback icon never appears |
| Compass.ConvertDegreesToDirection | debug_baishawan.js:7-14 | "--" exactly for undefined, null, "None" and unparsable input; a non-negative bearing gives the label at Math.round(deg/22.5) mod 16; a negative bearing gives 北 when that remainder is zero and undefined otherwise |
| Compass.CardinalPoints | debug_baishawan.js:11-13 | 0 and 360 are 北, 90 is 東, 180 is 南, 270 is 西 |
| Compass.HalvesRoundUp | debug_baishawan.js:12 | 11.25 is already 北北東, and 348.75 wraps to 北 |
| Compass.NegativeBearings | debug_baishawan.js:12-13 | -11.25 and -360 read as 北; -11.3 and -90 index outside the array |
| Compass.RoundShift | debug_baishawan.js:12 | Math.round commutes with adding a whole number |
| Compass.FullTurnSameLabel | debug_baishawan.js:11-13 | a non-negative bearing and the same bearing one full turn later get the same label |
| Narrative.NarrativeTypeWord | narrativeGeneration.js:26-31 | the narrative's type map names the three known types and has no word (undefined) for unknown |
| Narrative.GenerateWindNarrative | narrativeGeneration.js:18-71 | the missing-information sentence appears exactly when the wind type is unknown; for each type, each remark holds exactly on its speed band; only the glassy sentence omits the type word, and the word is the type's name |
| Narrative.GetWindQualityText | narrativeGeneration.js:79-87 | 優 for offshore, 普通 for cross-shore, 差 for onshore, -- otherwise |
| Narrative.GetWindTypeText | narrativeGeneration.js:95-103 | 離岸風, 向岸風 and 側風 for the three types, 風向未知 otherwise |
| Narrative.QualityTextFollowsQuality | narrativeGeneration.js:79-87 | the text is -- exactly when getWindQuality says unknown, and two types share a text exactly when they share a quality |
| Narrative.TypeWordsAgree | narrativeGeneration.js:26-31 | the narrative's own type map agrees with getWindTypeText on the three known types |
| Narrative.NarrativeNamesTypeAsTypeText | narrativeGeneration.js:18-71 | every sentence that names the wind type names it as getWindTypeText does |
| Narrative.StrongWindSentences | narrativeGeneration.js:34-60 | offshore wind above 30 gives the warning sentence; onshore wind of 20 or more gives the strong-onshore sentence |
| BoardSuitability.AssessLongboard | boardSuitability.js:13-99 | unsuitable exactly in danger; perfect exactly for ankle-to-waist waves with a groomed swell and a smooth surface; good exactly for the wider ankle-to-chest, non-wind-swell, smooth case that is not perfect; challenging exactly for big heavy surf or for a wind swell under shoulder height |
| BoardSuitability.LongboardIgnoresWarning | boardSuitability.js:18 | a warning gives the same verdict as a safe sea |
| BoardSuitability.AssessShortboard | boardSuitability.js:104-223 | unsuitable exactly in danger; perfect exactly for chest-to-head solid or heavy waves on a groomed swell with a smooth surface; good exactly for waist-to-shoulder moderate or solid waves that are not a wind swell, on a smooth surface, short of perfect; challenging exactly for weak surf up to thigh height, a chest-to-head wind swell, overhead or dangerous surf under a warning (unless thigh or waist high, groomed and smooth), or a blown-out surface on surf that is not overhead or dangerous; fair in every other case |
| BoardSuitability.ShortboardWarningOnlyForBigSurf | boardSuitability.js:190-206 | a warning changes the verdict only for overhead or dangerous surf, turning fair into challenging |
| BoardSuitability.AssessFunboard | boardSuitability.js:228-306 | unsuitable exactly in danger; perfect exactly for thigh-to-chest moderate or solid waves on a glassy, clean or textured surface; fair exactly for weak flat-to-ankle surf or heavy or dangerous head-to-overhead surf; challenging exactly when the surface is blown out or there is a warning and neither the broad good range (knee to shoulder, not dangerous, not blown out) nor a fair case applies; good in the broad range short of perfect, and as the catch-all when the surface is not blown out and there is no warning |
| BoardSuitability.FunboardWarningComesLast | boardSuitability.js:291-305 | a warning only turns the catch-all good verdict into challenging |
| BoardSuitability.Score | boardSuitability.js:312-318 | every suitability scores 1 to 5, with perfect alone at 5 and only challenging and unsuitable at 2 or less |
| BoardSuitability.Max3 | boardSuitability.js:326 | Math.max of three scores is one of them and at least each of them |
| BoardSuitability.DetermineRecommendedBoard | boardSuitability.js:311-343 | no board exactly when the best score is at most 2; otherwise the funboard whenever it ties for the best, the longboard when it strictly beats the funboard and ties or beats the shortboard, and the shortboard only when it strictly beats both |
| BoardSuitability.BoardName | boardSuitability.js:355-360 | every recommendation has a name, and 無 names exactly the no-board case |
| BoardSuitability.AnalyzeBoardSuitability | boardSuitability.js:348-369 | the report holds the three assessments and the recommendation made from them, with a defined name; in danger no board is recommended |
| BoardSuitability.CalmSeaAlwaysRecommends | boardSuitability.js:228-343 | on a safe sea with a surface that is not blown out, some board is always recommended |
| BoardSuitability.FunboardWinsTie | boardSuitability.js:333-336 | on a concrete input where the longboard and the funboard are both good, the funboard is recommended |
| InteractionAnalysis.AnalyzeWavePowerVsTexture | interactionAnalysis.js:9-55 | type and impact agree; conflict iff the surface is blown out or choppy; synergy iff it is smooth and the power is not dangerous |
| InteractionAnalysis.WavePowerVsTextureIgnoresSize | interactionAnalysis.js:9 | the wave size argument has no effect |
| InteractionAnalysis.AnalyzePeriodVsHeight | interactionAnalysis.js:60-103 | type and impact agree; synergy iff a groomed swell meets ankle-to-head waves; conflict iff a wind swell meets chest-to-overhead waves |
| InteractionAnalysis.PeriodVsHeightNeutralCases | interactionAnalysis.js:60-103 | a mixed swell, a flat sea and double-overhead waves are always neutral |
| InteractionAnalysis.AnalyzeWindVsSafety | interactionAnalysis.js:108-142 | type and impact agree; conflict iff the wind is strong or dangerous; synergy iff it is neither and its impact is positive |
| InteractionAnalysis.WindImpactOrNeutral | interactionAnalysis.js:331 | `impact \|\| 'neutral'`: a missing impact reads as neutral, a given one as itself |
| InteractionAnalysis.AnalyzeInteractions | interactionAnalysis.js:317-338 | all three interactions are coherent, and a missing wind impact is analysed as neutral |
| InteractionAnalysis.CountImpact | interactionAnalysis.js:154-155 | the count is at most the length, zero iff no interaction has the impact, and the full length iff all have it |
| InteractionAnalysis.CountsAddUp | interactionAnalysis.js:154-155 | the positive, negative and neutral counts add up to the number of interactions |
| InteractionAnalysis.DetermineOverallSynergy | interactionAnalysis.js:147-178 | poor under any safety concern; otherwise excellent iff all three are positive, good iff exactly two are positive and none negative, poor iff two or more are negative, mixed in every other case |
| InteractionAnalysis.CountOfThree | interactionAnalysis.js:153-155 | the count over three interactions is the sum of their individual contributions |
| InteractionAnalysis.SynergyMonotone | interactionAnalysis.js:147-178 | improving one interaction's impact never lowers the overall synergy |
| InteractionAnalysis.SynergyIgnoresOrder | interactionAnalysis.js:147-178 | the order of the three interactions does not matter |
| InteractionAnalysis.ResolveConflicts | interactionAnalysis.js:183-242 | a priority is applied iff some factor dominates; safety iff there is a warning or danger; otherwise quality iff a quality interaction conflicts because of a rough surface or a wind swell under chest- or shoulder-high waves; otherwise size iff the power is dangerous or the waves are double overhead |
| InteractionAnalysis.RoughSurfaceMeansQuality | interactionAnalysis.js:202-214 | with the forecast's own interactions, a choppy or blown-out surface on a safe sea always makes quality dominant |
| InteractionAnalysis.HeadHighWindSwellNotQuality | interactionAnalysis.js:74-83 | a wind swell under head-high or overhead waves is a period conflict, yet on a surface that is not rough quality does not dominate |
| InteractionAnalysis.DetectChemistry | interactionAnalysis.js:247-311 | there is chemistry iff a pattern is named iff the description is non-empty; each of the first three patterns holds exactly under its own conditions; the hidden gem needs thigh or waist waves, a groomed swell and a surface that is not rough |
| InteractionAnalysis.GroomedSmallSurfHasChemistry | interactionAnalysis.js:292-303 | thigh- or waist-high waves on a groomed swell and a surface that is not rough always have some chemistry |
| InteractionAnalysis.GenerateOverallAssessment | interactionAnalysis.js:316-394 | the text is never empty; danger and warning open with their safety sentences; otherwise chemistry's description is used verbatim when present; otherwise the text follows the overall synergy: a fixed sentence each for excellent and good, and for mixed and poor the resolution sentence when a priority rule applies and a fixed sentence when none does |
| InteractionAnalysis.SummaryQuotesResolution | interactionAnalysis.js:378-390 | on a safe sea without chemistry, a mixed or poor text to which a priority rule applies contains the resolution, and a poor one also advises against going out |
| InteractionAnalysis.DangerNamesEveryConcern | interactionAnalysis.js:363-364 | in danger every safety concern appears in the text |
| InteractionAnalysis.WarningNamesConcernsAndResolution | interactionAnalysis.js:365-366 | with a warning every concern, and the warning's resolution, appear in the text |
| InteractionAnalysis.DangerIgnoresConditions | interactionAnalysis.js:363-364 | in danger the text depends only on the concerns, not on the wave or the wind |

## Left out

- Number rendering in the sentences is left out: `toFixed` in the wave sentence, and JavaScript's default number-to-text conversion of `${speed}` in the wind sentences. The sentences are modelled as datatypes that hold the numbers and the chosen labels.
- Emoji strings are left out. The wind report keeps one enumeration constant per emoji; the board verdicts leave their emoji out, since it follows from the suitability.
- Only the `convertDegreesToDirection` helper of `debug_baishawan.js` is modelled. The buoy fetching, logging and the API key are network and I/O code.
- `Compass.ConvertDegreesToDirection` computes on exact reals, not IEEE doubles: the division by 22.5 is exact and there is no Infinity. Rounding differences of doubles near a half step are not modelled.
- `parseFloat` is not modelled. `Compass.DegreesInput` receives its result, with `None` standing for NaN.
- `WaveAnalysis.GenerateWaveNarrative`: `None` is `undefined`. A `null` height or period is not modelled, because the source would crash on it.
- Angles in the wind module are whole degrees. A fractional beach facing is not modelled.
- `WindAnalysis.AnalyzeWind` treats a missing facing as `undefined`. A `null` facing is not modelled; the source would pass it to the arithmetic.
- String tags outside each enumeration are folded into one constructor. `Features.Safety.Safe` stands for any level other than danger or warning, and `WindAnalysis.WindType.Unknown` for any unlisted type. The source treats these inputs alike, with one exception, noted next.
- Inherited Object property names as wind types are not modelled. The text tables of `narrativeGeneration.js` look the type up in an object literal, so a type such as 'toString' or 'constructor' yields the inherited function instead of the '--' or '風向未知' fallback, while `getWindQuality`'s strict switch treats it as unknown. `analyzeWind` only ever produces the four tags, so such names cannot reach the tables from the classifiers modelled here.
- `WindAnalysis.LongestFirstReadsEveryKey` states the corrected parser only for texts that are exactly one key. Longer texts such as a key followed by 風 are only covered by the weaker guarantee of `WindAnalysis.ParseWindDirectionLongestFirst`.
- The rest of the repository is not part of this model: the HTTP server, the forecast cache, the data-merging scripts and the station-listing scripts.

## Findings

| source | as written | input that shows it | evidently intended | confidence | as-written member | corrected member |
|---|---|---|---|---|---|---|
| windAnalysis.js:37-53 | the parser takes the first key of the map that occurs in the text, and the single keys 北, 東 and 南 come before the compound keys that contain them | the file's key for 東北 (mapped to 45), in its byte-per-character form, contains the file's key for 北 (mapped to 0, listed first), so that text parses as 0; no text ever parses as 45, 135, 225 or 315 | compound keys match before the single keys they contain, so every key reads as its own angle | not executed | WindAnalysis.ParseWindDirectionOnlyCardinal | WindAnalysis.LongestFirstReadsEveryKey |

`WindAnalysis.AnalyzeWind`, and through it the wind narrative, reads the
direction as the source does, with `WindAnalysis.ParseWindDirection`. The
corrected parser `WindAnalysis.ParseWindDirectionLongestFirst` stands beside
it; both parsers reject exactly the same texts
(`WindAnalysis.ParsersAgreeOnRejection`).
