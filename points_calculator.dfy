/**
 * The point-delta rule: the absolute rating difference selects a band of the
 * point table, the band gives the points for an expected and for an
 * unexpected result, a defeat is damped by a class-dependent factor, and the
 * category coefficient scales the whole.
 */
module PointsCalculator {
  import opened Wrappers
  import opened Numbers
  import opened MatchTypes
  import opened Competitions

  /** The inclusive upper limit of a band; the last band has none (`Infinity`). */
  datatype Bound = AtMost(max: real) | Unbounded

  datatype PointRange = PointRange(max: Bound, expected: real, unexpected: real)

  /** The base points of a band: for the result the ratings predicted, and for the other one. */
  datatype RangePoints = RangePoints(expected: real, unexpected: real)

  const PointRanges: seq<PointRange> := [
    PointRange(AtMost(25.0), 9.0, 10.0),
    PointRange(AtMost(50.0), 8.0, 12.0),
    PointRange(AtMost(75.0), 7.0, 14.0),
    PointRange(AtMost(100.0), 6.0, 16.0),
    PointRange(AtMost(150.0), 5.0, 18.0),
    PointRange(AtMost(200.0), 4.0, 20.0),
    PointRange(AtMost(250.0), 3.0, 24.0),
    PointRange(AtMost(300.0), 2.0, 28.0),
    PointRange(AtMost(400.0), 1.0, 32.0),
    PointRange(Unbounded, 0.0, 40.0)
  ]

  const DefeatFactorInterclub: real := 0.8
  const DefeatFactorTournament: real := 0.5

  /** `pointDiff <= r.max`, which is false when the difference is NaN. */
  predicate Within(pointDiff: Num, b: Bound) {
    pointDiff.Finite? && (b.Unbounded? || pointDiff.value <= b.max)
  }

  /** Only a number fits under a band's limit, and every number fits under the unbounded one. */
  lemma WithinOnlyNumbers(pointDiff: Num, b: Bound)
    ensures Within(pointDiff, b) ==> pointDiff.Finite?
    ensures b.Unbounded? ==> (Within(pointDiff, b) <==> pointDiff.Finite?)
  {
  }

  /** `Array.find` over the bands: the index of the first band the difference fits in. */
  function FindRange(ranges: seq<PointRange>, pointDiff: Num): (k: Option<nat>)
    ensures k.Some? ==> k.value < |ranges| && Within(pointDiff, ranges[k.value].max)
    ensures k.Some? ==> forall j :: 0 <= j < k.value ==> !Within(pointDiff, ranges[j].max)
    ensures k.None? ==> forall j :: 0 <= j < |ranges| ==> !Within(pointDiff, ranges[j].max)
  {
    if ranges == [] then None
    else if Within(pointDiff, ranges[0].max) then Some(0)
    else
      match FindRange(ranges[1..], pointDiff)
      case None => None
      case Some(k) => Some(k + 1)
  }

  /** The band's points, or 0 and 40 when no band matches. */
  function GetPointsFromRange(pointDiff: Num): (p: RangePoints)
    ensures 0.0 <= p.expected < p.unexpected <= 40.0
  {
    match FindRange(PointRanges, pointDiff)
    case Some(k) => RangePoints(PointRanges[k].expected, PointRanges[k].unexpected)
    case None => RangePoints(0.0, 40.0)
  }

  /** How much of the band's points a defeat costs, by competition class. */
  function DefeatFactor(isInterclub: bool): real {
    if isInterclub then DefeatFactorInterclub else DefeatFactorTournament
  }

  /** A defeat costs a fraction of the band's points, a larger one in interclub than in a tournament. */
  lemma DefeatFactorDamps(isInterclub: bool)
    ensures 0.0 < DefeatFactor(isInterclub) < 1.0
    ensures DefeatFactor(false) < DefeatFactor(true)
  {
  }

  /** The coefficient a valid match is scaled by. */
  function Coef(m: Match): (c: real)
    requires HasCoefficient(m)
    ensures 0.65 <= c <= 2.5
  {
    CoefficientRange(m.competitionType, m.competition);
    Coefficients(m.competitionType)[m.competition]
  }

  /** The coefficient applied to the base points, and the sign of the result. */
  function FinalPoints(basePoints: real, coef: real, isVictory: bool): (r: real)
    requires 0.0 <= basePoints && 0.0 <= coef
    ensures isVictory ==> 0.0 <= r
    ensures !isVictory ==> r <= 0.0
  {
    var finalPoints := basePoints * coef;
    if isVictory then finalPoints else -finalPoints
  }

  /** The unsigned points of a result, before the category coefficient. */
  function CalculateBasePoints(pointDiff: Num, isVictory: bool, isFavorite: bool, isInterclub: bool): (r: real)
    ensures 0.0 <= r <= 40.0
  {
    var p := GetPointsFromRange(pointDiff);
    if isVictory then
      (if isFavorite then p.expected else p.unexpected)
    else
      (if isFavorite then p.unexpected else p.expected) * DefeatFactor(isInterclub)
  }

  /**
   * The signed rating change of one match played at rating `currentPoints`.
   * `parse` stands for `parseFloat`, applied to the opponent's rating text.
   */
  function CalculatePointsForMatch(m: Match, currentPoints: Num, parse: Parser): (delta: real)
    requires HasCoefficient(m)
    ensures m.result == Victory ==> 0.0 <= delta
    ensures m.result == Defeat ==> delta <= 0.0
  {
    var opponentPoints := parse(m.opponentPoints);
    var pointDiff := Abs(Minus(currentPoints, opponentPoints));
    var isVictory := m.result == Victory;
    var isInterclub := m.competitionType == Interclub;
    var isFavorite := Greater(currentPoints, opponentPoints);
    var basePoints := CalculateBasePoints(pointDiff, isVictory, isFavorite, isInterclub);
    FinalPoints(basePoints, Coef(m), isVictory)
  }

  /** The band table written as thresholds: the reference the lookup is checked against. */
  function BandOf(d: real): RangePoints {
    if d <= 25.0 then RangePoints(9.0, 10.0)
    else if d <= 50.0 then RangePoints(8.0, 12.0)
    else if d <= 75.0 then RangePoints(7.0, 14.0)
    else if d <= 100.0 then RangePoints(6.0, 16.0)
    else if d <= 150.0 then RangePoints(5.0, 18.0)
    else if d <= 200.0 then RangePoints(4.0, 20.0)
    else if d <= 250.0 then RangePoints(3.0, 24.0)
    else if d <= 300.0 then RangePoints(2.0, 28.0)
    else if d <= 400.0 then RangePoints(1.0, 32.0)
    else RangePoints(0.0, 40.0)
  }

  /** Some band matches every number, because the last band is unbounded; only NaN matches none. */
  lemma EveryDifferenceHasBand(pointDiff: Num)
    ensures FindRange(PointRanges, pointDiff).Some? <==> pointDiff.Finite?
  {
    if pointDiff.Finite? {
      assert Within(pointDiff, PointRanges[|PointRanges| - 1].max);
    }
  }

  /** The lookup returns the first band whose limit is at least the difference, as the thresholds say. */
  lemma GetPointsMatchesThresholds(d: real)
    ensures GetPointsFromRange(Finite(d)) == BandOf(d)
  {
    EveryDifferenceHasBand(Finite(d));
    var k := FindRange(PointRanges, Finite(d)).value;
    assert k < 10;
    if k > 0 { assert !Within(Finite(d), PointRanges[k - 1].max); }
  }

  /** A NaN difference selects no band and falls back to 0 expected and 40 unexpected points. */
  lemma NaNDifferenceFallsBack()
    ensures GetPointsFromRange(NaN) == RangePoints(0.0, 40.0)
  {
    EveryDifferenceHasBand(NaN);
  }

  /** The band limits are inclusive: a difference of 25 is in the first band, 26 in the second. */
  lemma BandLimitsAreInclusive()
    ensures GetPointsFromRange(Finite(25.0)) == RangePoints(9.0, 10.0)
    ensures GetPointsFromRange(Finite(26.0)) == RangePoints(8.0, 12.0)
  {
    GetPointsMatchesThresholds(25.0);
    GetPointsMatchesThresholds(26.0);
  }

  /**
   * Along the table the limits grow, the expected points never increase, the
   * unexpected points never decrease, and every band pays more for the
   * unexpected result.
   */
  lemma BandsAreMonotone()
    ensures forall i, j :: 0 <= i < j < |PointRanges| ==>
      PointRanges[i].expected >= PointRanges[j].expected &&
      PointRanges[i].unexpected <= PointRanges[j].unexpected &&
      PointRanges[i].max.AtMost? &&
      (PointRanges[j].max.AtMost? ==> PointRanges[i].max.max < PointRanges[j].max.max)
    ensures forall i :: 0 <= i < |PointRanges| ==> PointRanges[i].expected < PointRanges[i].unexpected
  {
  }


  /** The base points of two numeric ratings, read off the band table, before the coefficient and the sign. */
  lemma DeltaBase(m: Match, c: real, o: real, parse: Parser)
    requires HasCoefficient(m)
    requires parse(m.opponentPoints) == Finite(o)
    ensures var band := BandOf(if c >= o then c - o else o - c);
      var base :=
        if m.result == Victory then (if c > o then band.expected else band.unexpected)
        else (if c > o then band.unexpected else band.expected) * (if m.competitionType == Interclub then 0.8 else 0.5);
      CalculatePointsForMatch(m, Finite(c), parse) == FinalPoints(base, Coef(m), m.result == Victory)
  {
    var d := if c >= o then c - o else o - c;
    assert Abs(Minus(Finite(c), parse(m.opponentPoints))) == Finite(d);
    assert Greater(Finite(c), parse(m.opponentPoints)) == (c > o);
    GetPointsMatchesThresholds(d);
    var isVictory := m.result == Victory;
    var base := CalculateBasePoints(Finite(d), isVictory, c > o, m.competitionType == Interclub);
    assert CalculatePointsForMatch(m, Finite(c), parse) == FinalPoints(base, Coef(m), isVictory);
    var band := BandOf(d);
    assert base ==
        if m.result == Victory then (if c > o then band.expected else band.unexpected)
        else (if c > o then band.unexpected else band.expected) * (if m.competitionType == Interclub then 0.8 else 0.5);
  }

  /**
   * The delta for two numeric ratings: the favourite is the strictly higher
   * rating; a victory earns the band's points for the predicted or the upset
   * result, a defeat costs the other value damped by 0.8 (interclub) or 0.5
   * (tournament); the coefficient then scales it and a defeat makes it negative.
   */
  lemma DeltaFormula(m: Match, c: real, o: real, parse: Parser)
    requires HasCoefficient(m)
    requires parse(m.opponentPoints) == Finite(o)
    ensures var band := BandOf(if c >= o then c - o else o - c);
      var base :=
        if m.result == Victory then (if c > o then band.expected else band.unexpected)
        else (if c > o then band.unexpected else band.expected) * (if m.competitionType == Interclub then 0.8 else 0.5);
      CalculatePointsForMatch(m, Finite(c), parse) == (if m.result == Victory then base * Coef(m) else -(base * Coef(m)))
  {
    DeltaBase(m, c, o, parse);
  }

  /** Equal ratings are not a favourite: a victory earns the unexpected points of the first band. */
  lemma TieIsNotFavourite(m: Match, c: real, parse: Parser)
    requires HasCoefficient(m)
    requires parse(m.opponentPoints) == Finite(c)
    ensures m.result == Victory ==> CalculatePointsForMatch(m, Finite(c), parse) == 10.0 * Coef(m)
    ensures m.result == Defeat ==>
      CalculatePointsForMatch(m, Finite(c), parse) == -(9.0 * DefeatFactor(m.competitionType == Interclub) * Coef(m))
  {
    DeltaFormula(m, c, c, parse);
  }

  /** Shifting both ratings by the same amount leaves the delta unchanged. */
  lemma ShiftInvariance(m: Match, c: real, o: real, shift: real, shiftedText: string, parse: Parser)
    requires HasCoefficient(m)
    requires parse(m.opponentPoints) == Finite(o)
    requires parse(shiftedText) == Finite(o + shift)
    ensures CalculatePointsForMatch(m.(opponentPoints := shiftedText), Finite(c + shift), parse)
      == CalculatePointsForMatch(m, Finite(c), parse)
  {
    var shifted := m.(opponentPoints := shiftedText);
    // The difference and the favourite, all the delta depends on besides the match, are unchanged.
    assert Minus(Finite(c + shift), parse(shifted.opponentPoints)) == Minus(Finite(c), parse(m.opponentPoints));
    assert Greater(Finite(c + shift), parse(shifted.opponentPoints)) == Greater(Finite(c), parse(m.opponentPoints));
  }

  /**
   * A rating that does not parse does not make the delta NaN: no band
   * matches, nobody is favourite, so a victory earns 40 times the coefficient
   * and a defeat costs nothing.
   */
  lemma NaNRatingDelta(m: Match, currentPoints: Num, parse: Parser)
    requires HasCoefficient(m)
    requires currentPoints.NaN? || parse(m.opponentPoints).NaN?
    ensures CalculatePointsForMatch(m, currentPoints, parse) ==
      if m.result == Victory then 40.0 * Coef(m) else 0.0
  {
    NaNDifferenceFallsBack();
    var isVictory := m.result == Victory;
    var base := CalculateBasePoints(NaN, isVictory, false, m.competitionType == Interclub);
    assert Abs(Minus(currentPoints, parse(m.opponentPoints))) == NaN;
    assert !Greater(currentPoints, parse(m.opponentPoints));
    assert CalculatePointsForMatch(m, currentPoints, parse) == FinalPoints(base, Coef(m), isVictory);
    assert base == if isVictory then 40.0 else 0.0;
  }

  /** Favourite wins (1000 against 950, 'Autres provinciales'): 8 x 0.85. */
  lemma FavouriteVictoryExample(parse: Parser)
    requires parse("950") == Finite(950.0)
    ensures CalculatePointsForMatch(Match(1, Victory, Interclub, AutresProvinciales, "950", true),
                                    Finite(1000.0), parse) == 6.8
  {
    DeltaFormula(Match(1, Victory, Interclub, AutresProvinciales, "950", true), 1000.0, 950.0, parse);
  }

  /** Underdog wins (1004 against 1220): 24 x 0.85. */
  lemma UnderdogVictoryExample(parse: Parser)
    requires parse("1220") == Finite(1220.0)
    ensures CalculatePointsForMatch(Match(1, Victory, Interclub, AutresProvinciales, "1220", true),
                                    Finite(1004.0), parse) == 20.4
  {
    DeltaFormula(Match(1, Victory, Interclub, AutresProvinciales, "1220", true), 1004.0, 1220.0, parse);
  }

  /** Underdog wins a 'Tournoi Série B & C' match (1000 against 1250): 24 x 1. */
  lemma TournamentVictoryExample(parse: Parser)
    requires parse("1250") == Finite(1250.0)
    ensures CalculatePointsForMatch(Match(1, Victory, Tournament, TournoiSerieBC, "1250", true),
                                    Finite(1000.0), parse) == 24.0
  {
    var m := Match(1, Victory, Tournament, TournoiSerieBC, "1250", true);
    assert Coef(m) == 1.0;
    assert BandOf(250.0) == RangePoints(3.0, 24.0);
    DeltaFormula(m, 1000.0, 1250.0, parse);
    assert FinalPoints(24.0, 1.0, true) == 24.0;
  }

  /** Beyond 400 points the underdog's victory earns 40 (1000 against 1500): 40 x 0.85. */
  lemma LargeGapVictoryExample(parse: Parser)
    requires parse("1500") == Finite(1500.0)
    ensures CalculatePointsForMatch(Match(1, Victory, Interclub, AutresProvinciales, "1500", true),
                                    Finite(1000.0), parse) == 34.0
  {
    DeltaFormula(Match(1, Victory, Interclub, AutresProvinciales, "1500", true), 1000.0, 1500.0, parse);
  }

  /** Underdog loses in interclub (1000 against 1200): -(4 x 0.8 x 0.85). */
  lemma UnderdogDefeatExample(parse: Parser)
    requires parse("1200") == Finite(1200.0)
    ensures CalculatePointsForMatch(Match(1, Defeat, Interclub, AutresProvinciales, "1200", true),
                                    Finite(1000.0), parse) == -2.72
  {
    DeltaFormula(Match(1, Defeat, Interclub, AutresProvinciales, "1200", true), 1000.0, 1200.0, parse);
  }

  /** Favourite loses in interclub (1000 against 800): -(20 x 0.8 x 0.85). */
  lemma FavouriteDefeatExample(parse: Parser)
    requires parse("800") == Finite(800.0)
    ensures CalculatePointsForMatch(Match(1, Defeat, Interclub, AutresProvinciales, "800", true),
                                    Finite(1000.0), parse) == -13.6
  {
    DeltaFormula(Match(1, Defeat, Interclub, AutresProvinciales, "800", true), 1000.0, 800.0, parse);
  }

  /** Underdog loses a tournament match (1000 against 1100): -(6 x 0.5 x 1). */
  lemma TournamentDefeatExample(parse: Parser)
    requires parse("1100") == Finite(1100.0)
    ensures CalculatePointsForMatch(Match(1, Defeat, Tournament, TournoiSerieBC, "1100", true),
                                    Finite(1000.0), parse) == -3.0
  {
    var m := Match(1, Defeat, Tournament, TournoiSerieBC, "1100", true);
    assert Coef(m) == 1.0;
    assert BandOf(100.0) == RangePoints(6.0, 16.0);
    DeltaFormula(m, 1000.0, 1100.0, parse);
    assert FinalPoints(6.0 * 0.5, 1.0, false) == -3.0;
  }

  /** Equal ratings (1000 against 1000) win the unexpected points: 10 x 0.85. */
  lemma TieVictoryExample(parse: Parser)
    requires parse("1000") == Finite(1000.0)
    ensures CalculatePointsForMatch(Match(1, Victory, Interclub, AutresProvinciales, "1000", true),
                                    Finite(1000.0), parse) == 8.5
  {
    DeltaFormula(Match(1, Victory, Interclub, AutresProvinciales, "1000", true), 1000.0, 1000.0, parse);
  }
}
