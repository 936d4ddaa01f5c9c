/**
 * The running-rating computation: starting from the rating the user typed,
 * every completed match with an opponent rating is applied in list order,
 * each at the rating the previous one left, and the summary reports the start,
 * the end, the total change and one line per applied match.
 *
 * The fold is written over the pricing callback it is given, as the hook's
 * `map` callback closes over `calculatePointsForMatch`; `PriceWith` is that
 * callback.
 */
module Calculation {
  import opened Wrappers
  import opened Numbers
  import opened MatchTypes
  import opened Competitions
  import opened PointsCalculator

  /** The rating change of a match played at a rating; defined on the matches it can price. */
  type Pricing = (Match, Num) --> real

  /** The calculator, as the callback the fold applies. */
  function PriceWith(parse: Parser): (price: Pricing)
    ensures forall m, n | HasCoefficient(m) ::
      price.requires(m, n) && price(m, n) == CalculatePointsForMatch(m, n, parse)
  {
    (m: Match, n: Num) requires HasCoefficient(m) => CalculatePointsForMatch(m, n, parse)
  }

  /** A match counts once it is marked complete and has an opponent rating. */
  predicate IsEligible(m: Match) {
    m.isComplete && m.opponentPoints != ""
  }

  /** Every match of the list can be priced: its category is in its class's table. */
  predicate AllRated(ms: seq<Match>) {
    forall m | m in ms :: HasCoefficient(m)
  }

  /** Every match of the list is in the callback's domain. */
  ghost predicate Priced(ms: seq<Match>, price: Pricing) {
    forall m, n | m in ms :: price.requires(m, n)
  }

  /** The filter step: the eligible matches, in list order. */
  function Eligible(ms: seq<Match>): (r: seq<Match>)
    ensures |r| <= |ms|
    ensures forall m :: m in r <==> m in ms && IsEligible(m)
  {
    if ms == [] then []
    else if IsEligible(ms[0]) then [ms[0]] + Eligible(ms[1..])
    else Eligible(ms[1..])
  }

  /** Filtering a concatenation filters each part. */
  lemma {:induction false} EligibleAppend(a: seq<Match>, b: seq<Match>)
    ensures Eligible(a + b) == Eligible(a) + Eligible(b)
  {
    if a == [] {
      assert a + b == b;
    } else {
      assert (a + b)[1..] == a[1..] + b;
      EligibleAppend(a[1..], b);
    }
  }

  /** The map step: one line per match, in order, the first starting at `running`. */
  function Accumulate(ms: seq<Match>, running: Num, price: Pricing): (r: seq<MatchCalculationResult>)
    requires Priced(ms, price)
    ensures |r| == |ms|
    ensures |r| > 0 ==> r[0].pointsBefore == running
    ensures forall i | 0 <= i < |r| :: r[i].played == ms[i]
  {
    if ms == [] then []
    else
      var change := price(ms[0], running);
      var after := Plus(running, change);
      [MatchCalculationResult(ms[0], running, change, after)] + Accumulate(ms[1..], after, price)
  }

  /**
   * Each line prices its match at the rating it starts from and ends at that
   * rating plus the change, and each line starts where the previous one ended.
   */
  lemma {:induction false} AccumulateChain(ms: seq<Match>, running: Num, price: Pricing)
    requires Priced(ms, price)
    ensures var r := Accumulate(ms, running, price);
      forall i | 0 <= i < |r| ::
        r[i].pointsChange == price(ms[i], r[i].pointsBefore) &&
        r[i].pointsAfter == Plus(r[i].pointsBefore, r[i].pointsChange)
    ensures var r := Accumulate(ms, running, price);
      forall i | 0 < i < |r| :: r[i].pointsBefore == r[i - 1].pointsAfter
  {
    if ms != [] {
      var after := Plus(running, price(ms[0], running));
      var r := Accumulate(ms, running, price);
      var rest := Accumulate(ms[1..], after, price);
      assert r == [r[0]] + rest;
      AccumulateChain(ms[1..], after, price);
      forall i | 0 < i < |r|
        ensures r[i] == rest[i - 1]
      {
      }
    }
  }

  /** The rating after all matches of the list. */
  function Running(ms: seq<Match>, running: Num, price: Pricing): Num
    requires Priced(ms, price)
  {
    if ms == [] then running
    else Running(ms[1..], Plus(running, price(ms[0], running)), price)
  }

  /** The final rating is NaN exactly when the start rating is: the changes never make it NaN. */
  lemma {:induction false} RunningNaNOnlyFromStart(ms: seq<Match>, running: Num, price: Pricing)
    requires Priced(ms, price)
    ensures Running(ms, running, price).NaN? <==> running.NaN?
  {
    if ms != [] {
      RunningNaNOnlyFromStart(ms[1..], Plus(running, price(ms[0], running)), price);
    }
  }

  /** The final rating is what the last line of the list ends at. */
  lemma {:induction false} EndIsLastAfter(ms: seq<Match>, running: Num, price: Pricing)
    requires Priced(ms, price)
    requires ms != []
    ensures Running(ms, running, price) == Accumulate(ms, running, price)[|ms| - 1].pointsAfter
  {
    var after := Plus(running, price(ms[0], running));
    if |ms| > 1 {
      EndIsLastAfter(ms[1..], after, price);
      assert Accumulate(ms, running, price)[|ms| - 1] == Accumulate(ms[1..], after, price)[|ms| - 2];
    }
  }

  /** Appending a match to the list applies its change to the rating the list ended at. */
  lemma {:induction false} RunningSnoc(ms: seq<Match>, m: Match, running: Num, price: Pricing)
    requires Priced(ms + [m], price)
    ensures Priced(ms, price)
    ensures Running(ms + [m], running, price) ==
      Plus(Running(ms, running, price), price(m, Running(ms, running, price)))
  {
    assert forall x | x in ms :: x in ms + [m];
    if ms != [] {
      var after := Plus(running, price(ms[0], running));
      assert (ms + [m])[1..] == ms[1..] + [m];
      assert forall x | x in ms[1..] + [m] :: x in ms + [m];
      RunningSnoc(ms[1..], m, after, price);
      assert Running(ms + [m], running, price) == Running(ms[1..] + [m], after, price);
    }
  }

  /** Appending a match to the list adds one line, priced at the rating the list ended at. */
  lemma {:induction false} AccumulateSnoc(ms: seq<Match>, m: Match, running: Num, price: Pricing)
    requires Priced(ms + [m], price)
    ensures Priced(ms, price)
    ensures var before := Running(ms, running, price);
      var change := price(m, before);
      Accumulate(ms + [m], running, price) ==
        Accumulate(ms, running, price) + [MatchCalculationResult(m, before, change, Plus(before, change))]
    ensures Running(ms + [m], running, price) ==
      Plus(Running(ms, running, price), price(m, Running(ms, running, price)))
  {
    RunningSnoc(ms, m, running, price);
    if ms != [] {
      var after := Plus(running, price(ms[0], running));
      assert (ms + [m])[1..] == ms[1..] + [m];
      assert forall x | x in ms[1..] + [m] :: x in ms + [m];
      AccumulateSnoc(ms[1..], m, after, price);
      assert Accumulate(ms + [m], running, price) ==
        [MatchCalculationResult(ms[0], running, price(ms[0], running), after)] + Accumulate(ms[1..] + [m], after, price);
    }
  }

  /** The summary, or `None` when there is no start rating or no match counts. */
  function Summary(currentPoints: string, matches: seq<Match>, parse: Parser): (s: Option<CalculationSummary>)
    requires currentPoints != "" ==> AllRated(Eligible(matches))
    ensures s.None? <==> currentPoints == "" || forall m | m in matches :: !IsEligible(m)
    ensures s.Some? ==>
      var sum := s.value;
      var rs := sum.results;
      sum.startPoints == parse(currentPoints) &&
      |rs| == |Eligible(matches)| > 0 &&
      (forall i | 0 <= i < |rs| :: rs[i].played == Eligible(matches)[i]) &&
      rs[0].pointsBefore == sum.startPoints &&
      sum.endPoints == rs[|rs| - 1].pointsAfter &&
      sum.totalChange == Minus(sum.endPoints, sum.startPoints)
  {
    if currentPoints == "" || |matches| == 0 then None
    else
      var startPoints := parse(currentPoints);
      var eligible := Eligible(matches);
      var results := Accumulate(eligible, startPoints, PriceWith(parse));
      if |results| == 0 then
        assert forall m | m in matches :: !IsEligible(m) by {
          forall m | m in matches ensures !IsEligible(m) {
            assert IsEligible(m) ==> m in eligible;
          }
        }
        None
      else
        var endPoints := Running(eligible, startPoints, PriceWith(parse));
        EndIsLastAfter(eligible, startPoints, PriceWith(parse));
        Some(CalculationSummary(startPoints, endPoints, Minus(endPoints, startPoints), results))
  }

  /**
   * The lines of a summary: each match priced by the calculator at the rating
   * it starts from, ending at that rating plus the change, each line starting
   * where the previous one ended.
   */
  lemma ResultsChain(currentPoints: string, matches: seq<Match>, parse: Parser)
    requires AllRated(Eligible(matches))
    requires Summary(currentPoints, matches, parse).Some?
    ensures var rs := Summary(currentPoints, matches, parse).value.results;
      (forall i | 0 <= i < |rs| ::
        rs[i].pointsChange == CalculatePointsForMatch(rs[i].played, rs[i].pointsBefore, parse) &&
        rs[i].pointsAfter == Plus(rs[i].pointsBefore, rs[i].pointsChange)) &&
      (forall i | 0 < i < |rs| :: rs[i].pointsBefore == rs[i - 1].pointsAfter)
  {
    AccumulateChain(Eligible(matches), parse(currentPoints), PriceWith(parse));
  }

  /** A list whose matches all have a coefficient is in the calculator's domain. */
  lemma RatedIsPriced(ms: seq<Match>, parse: Parser)
    requires AllRated(ms)
    ensures Priced(ms, PriceWith(parse))
  {
  }

  /** The eligible matches of a prefix are eligible matches of the whole list. */
  lemma PrefixRated(matches: seq<Match>, i: nat, parse: Parser)
    requires i <= |matches|
    requires AllRated(Eligible(matches))
    ensures Priced(Eligible(matches[..i]), PriceWith(parse))
  {
    forall m | m in Eligible(matches[..i])
      ensures m in Eligible(matches)
    {
      assert m in matches[..i];
    }
    RatedIsPriced(Eligible(matches[..i]), parse);
  }

  /** One turn of the loop: the next match extends the lines and the rating when it is eligible, and changes nothing otherwise. */
  lemma LoopStep(matches: seq<Match>, i: nat, start: Num, parse: Parser)
    requires i < |matches|
    requires AllRated(Eligible(matches))
    ensures Priced(Eligible(matches[..i]), PriceWith(parse))
    ensures Priced(Eligible(matches[..i + 1]), PriceWith(parse))
    ensures IsEligible(matches[i]) ==> HasCoefficient(matches[i])
    ensures var price := PriceWith(parse);
      var before := Running(Eligible(matches[..i]), start, price);
      var m := matches[i];
      if IsEligible(m) then
        var change := CalculatePointsForMatch(m, before, parse);
        Accumulate(Eligible(matches[..i + 1]), start, price) ==
          Accumulate(Eligible(matches[..i]), start, price) + [MatchCalculationResult(m, before, change, Plus(before, change))] &&
        Running(Eligible(matches[..i + 1]), start, price) == Plus(before, change)
      else
        Eligible(matches[..i + 1]) == Eligible(matches[..i])
  {
    var m := matches[i];
    PrefixRated(matches, i, parse);
    PrefixRated(matches, i + 1, parse);
    assert matches[..i + 1] == matches[..i] + [m];
    EligibleAppend(matches[..i], [m]);
    if IsEligible(m) {
      assert Eligible([m]) == [m];
      assert m in Eligible(matches);
      AccumulateSnoc(Eligible(matches[..i]), m, start, PriceWith(parse));
    } else {
      assert Eligible([m]) == [];
    }
  }

  /** The filter-and-map loop: the lines of the eligible matches and the rating the last one leaves. */
  method ApplyMatches(matches: seq<Match>, startPoints: Num, parse: Parser)
    returns (results: seq<MatchCalculationResult>, runningPoints: Num)
    requires AllRated(Eligible(matches))
    ensures Priced(Eligible(matches), PriceWith(parse))
    ensures results == Accumulate(Eligible(matches), startPoints, PriceWith(parse))
    ensures runningPoints == Running(Eligible(matches), startPoints, PriceWith(parse))
  {
    runningPoints := startPoints;
    results := [];
    var i := 0;
    PrefixRated(matches, 0, parse);
    while i < |matches|
      invariant 0 <= i <= |matches|
      invariant Priced(Eligible(matches[..i]), PriceWith(parse))
      invariant results == Accumulate(Eligible(matches[..i]), startPoints, PriceWith(parse))
      invariant runningPoints == Running(Eligible(matches[..i]), startPoints, PriceWith(parse))
    {
      var m := matches[i];
      LoopStep(matches, i, startPoints, parse);
      if IsEligible(m) {
        var pointsChange := CalculatePointsForMatch(m, runningPoints, parse);
        var pointsBefore := runningPoints;
        runningPoints := Plus(runningPoints, pointsChange);
        results := results + [MatchCalculationResult(m, pointsBefore, pointsChange, runningPoints)];
      }
      i := i + 1;
    }
    assert matches[..i] == matches;
  }

  /** The hook's computation, checked against `Summary`. */
  method ComputeSummary(currentPoints: string, matches: seq<Match>, parse: Parser)
    returns (summary: Option<CalculationSummary>)
    requires currentPoints != "" ==> AllRated(Eligible(matches))
    ensures summary == Summary(currentPoints, matches, parse)
  {
    if currentPoints == "" || |matches| == 0 {
      return None;
    }
    var startPoints := parse(currentPoints);
    var results, endPoints := ApplyMatches(matches, startPoints, parse);
    if |results| == 0 {
      return None;
    }
    summary := Some(CalculationSummary(startPoints, endPoints, Minus(endPoints, startPoints), results));
  }

  /** Sum of the rating changes of the lines. */
  function SumChanges(rs: seq<MatchCalculationResult>): real {
    if rs == [] then 0.0 else rs[0].pointsChange + SumChanges(rs[1..])
  }

  /** From a numeric start, the final rating is the start plus the sum of the changes. */
  lemma {:induction false} RunningTelescopes(ms: seq<Match>, running: Num, price: Pricing)
    requires Priced(ms, price)
    requires running.Finite?
    ensures Running(ms, running, price) == Plus(running, SumChanges(Accumulate(ms, running, price)))
  {
    if ms != [] {
      var after := Plus(running, price(ms[0], running));
      var rs := Accumulate(ms, running, price);
      assert rs[1..] == Accumulate(ms[1..], after, price);
      RunningTelescopes(ms[1..], after, price);
    }
  }

  /** A start rating that is not a number makes every later rating NaN. */
  lemma {:induction false} NaNStartIsSticky(ms: seq<Match>, price: Pricing)
    requires Priced(ms, price)
    ensures Running(ms, NaN, price) == NaN
    ensures forall i | 0 <= i < |ms| :: Accumulate(ms, NaN, price)[i].pointsAfter == NaN
  {
    if ms != [] {
      var rs := Accumulate(ms, NaN, price);
      assert rs[1..] == Accumulate(ms[1..], NaN, price);
      NaNStartIsSticky(ms[1..], price);
    }
  }

  /** The total change is the sum of the per-match changes whenever the start rating is a number. */
  lemma TotalIsSumOfChanges(currentPoints: string, matches: seq<Match>, parse: Parser)
    requires AllRated(Eligible(matches))
    requires parse(currentPoints).Finite?
    requires Summary(currentPoints, matches, parse).Some?
    ensures var s := Summary(currentPoints, matches, parse).value;
      s.totalChange == Finite(SumChanges(s.results))
  {
    RunningTelescopes(Eligible(matches), parse(currentPoints), PriceWith(parse));
  }

  /** A start rating that does not parse leaves the end rating and the total change NaN. */
  lemma NaNStartSummary(currentPoints: string, matches: seq<Match>, parse: Parser)
    requires AllRated(Eligible(matches))
    requires parse(currentPoints).NaN?
    requires Summary(currentPoints, matches, parse).Some?
    ensures var s := Summary(currentPoints, matches, parse).value;
      s.endPoints == NaN && s.totalChange == NaN
  {
    NaNStartIsSticky(Eligible(matches), PriceWith(parse));
  }

  /**
   * Two completed 'N1 & N2' victories against 950 from 1000: the first earns
   * 8 (difference 50), the second 7 (difference 58), ending at 1015.
   */
  lemma TwoVictoriesExample(parse: Parser)
    requires parse("1000") == Finite(1000.0)
    requires parse("950") == Finite(950.0)
    ensures var m1 := Match(1, Victory, Interclub, N1N2, "950", true);
      var m2 := Match(2, Victory, Interclub, N1N2, "950", true);
      var s := Summary("1000", [m1, m2], parse);
      s.Some? && |s.value.results| == 2 &&
      s.value.results[0].pointsChange == 8.0 &&
      s.value.results[1].pointsChange == 7.0 &&
      s.value.endPoints == Finite(1015.0) &&
      s.value.totalChange == Finite(15.0)
  {
    var m1 := Match(1, Victory, Interclub, N1N2, "950", true);
    var m2 := Match(2, Victory, Interclub, N1N2, "950", true);
    assert Eligible([m1, m2]) == [m1, m2] by {
      assert [m1, m2][1..] == [m2];
      assert Eligible([m2]) == [m2];
    }
    assert Coef(m1) == 1.0;
    DeltaFormula(m1, 1000.0, 950.0, parse);
    DeltaFormula(m2, 1008.0, 950.0, parse);
    ResultsChain("1000", [m1, m2], parse);
    var s := Summary("1000", [m1, m2], parse).value;
    assert s.results[0].pointsChange == 8.0;
    assert s.results[1].pointsBefore == Finite(1008.0);
  }
}
