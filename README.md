# AFTT rating-point engine, modelled in Dafny

This project models how the AFTT table-tennis points calculator computes a
player's rating change. It covers four parts:

- **Rating table** (`Competitions`): the coefficient of every competition
  category in the two competition classes, interclub and tournament, and the
  default class and categories.
- **Point rule** (`PointsCalculator`): how one reported match is priced.
  - The absolute difference between the player's rating and the opponent's
    rating selects a band of the point table. The bands are inclusive.
  - A band gives points for the expected result and for the unexpected one.
    The player is the favourite only when their rating is strictly higher.
  - A defeat is damped by 0.8 in interclub and by 0.5 in a tournament.
  - The category coefficient then scales the points, and a defeat makes the
    result negative.
- **Running computation** (`Calculation`): every completed match that has an
  opponent rating is applied in list order, each at the rating the previous
  match left. The result is a summary with the start rating, the end rating,
  the total change and one line per match, or nothing at all.
- **Match list** (`Ledger`): a class holding the records, the id of the record
  being edited and the next id to hand out. Its methods add, remove, update,
  complete, open and cancel records.

Supporting modules:

- `Numbers` models JavaScript numbers as NaN or an exact real.
- `MatchTypes` holds the records.
- `Wrappers` holds `Option`.

`parseFloat` is not defined here. Every member that parses takes it as a
parameter `parse: string -> Num`.

One behaviour of the code differs from its design description. The description
says that an opponent rating that is not a number makes the delta NaN, and that
NaN then spreads to every later rating. The code does something else, and the
model follows the code:

- A NaN difference matches no band. The lookup then falls back to 0 expected
  and 40 unexpected points.
- A comparison with NaN is false, so nobody is the favourite.
- The delta is therefore 40 × coefficient for a victory and 0 for a defeat.
  It is a number, and the later ratings stay numbers
  (`PointsCalculator.NaNRatingDelta`).

NaN does spread only when the START rating is not a number
(`Calculation.NaNStartIsSticky`, `Calculation.NaNStartSummary`).

A second difference concerns ties. The description says that equal ratings
always use the "unexpected" base value. In the code, a tie only means that
nobody is the favourite, so the branch chosen depends on the result:

- A victory at a tie earns the unexpected value of the band, 10 × coefficient.
- A defeat at a tie costs the EXPECTED value of the band, scaled by the defeat
  factor: 9 × defeat factor × coefficient.

The model follows the code (`PointsCalculator.TieIsNotFavourite`).

## Model

| member | source | states |
|---|---|---|
| Numbers.Minus | src/utils/pointsCalculator.ts:52 | a difference is a number exactly when both sides are, and is then their difference |
| Numbers.Plus | src/hooks/useCalculation.ts:17 | adding a delta to a NaN rating gives NaN, to a number gives their sum |
| Numbers.GreaterIsStrictOrder | src/utils/pointsCalculator.ts:55 | `>` (`Greater`) is false whenever either side is NaN, never holds both ways, and of two distinct numbers exactly one is greater |
| Numbers.Abs | src/utils/pointsCalculator.ts:52 | `Math.abs` keeps NaN and otherwise gives the non-negative value of the same magnitude |
| Competitions.DefaultsAreCategories | src/constants/competitions.ts:35-37 | the default categories carry the labels 'Autres provinciales' and 'Tournoi Série B & C', each is a key of its class's table, and the default class's table contains the default category |
| Competitions.EachCategoryHasOneClass | src/constants/competitions.ts:11-32 | every category is in exactly one of the two tables |
| Competitions.CoefficientRange | src/constants/competitions.ts:11-32 | every coefficient lies in [0.65, 2.5]; 'Interclubs vétérans' attains 0.65 and 'Champ. Belgique A (Final)' attains 2.5 |
| Competitions.InterclubTableSize | src/constants/competitions.ts:12-19 | the interclub table has 6 categories |
| Competitions.TournamentTableSize | src/constants/competitions.ts:20-32 | the tournament table has 11 categories |
| Competitions.KnownCoefficients | src/constants/competitions.ts:13-22 | N1 & N2 = 1, Super Division = 2.2, P1 = 0.9, Autres provinciales = 0.85, Tournoi Série B & C = 1, Tournoi Série A = 1.5 |
| PointsCalculator.FindRange | src/utils/pointsCalculator.ts:27 | `find` returns the first band whose inclusive limit the difference fits under: no earlier band fits; `None` means that no band fits |
| PointsCalculator.GetPointsFromRange | src/utils/pointsCalculator.ts:26-32 | the points obtained satisfy 0 ≤ expected < unexpected ≤ 40, including the 0/40 fallback |
| PointsCalculator.EveryDifferenceHasBand | src/utils/pointsCalculator.ts:10-27 | some band matches exactly when the difference is a number, because the last band is unbounded |
| PointsCalculator.GetPointsMatchesThresholds | src/utils/pointsCalculator.ts:10-32 | for every numeric difference the lookup agrees with an independent threshold table (≤25 → 9/10, …, ≤400 → 1/32, otherwise 0/40) |
| PointsCalculator.NaNDifferenceFallsBack | src/utils/pointsCalculator.ts:26-32 | a NaN difference gives 0 expected and 40 unexpected points |
| PointsCalculator.BandLimitsAreInclusive | src/utils/pointsCalculator.ts:11-12 | a difference of 25 gives 9/10, and 26 gives 8/12 |
| PointsCalculator.BandsAreMonotone | src/utils/pointsCalculator.ts:10-21 | along the table the limits grow, expected never increases, unexpected never decreases, and unexpected > expected in every band |
| PointsCalculator.Coef | src/utils/pointsCalculator.ts:58-59 | the coefficient `Coefficients(type)[category]` of a match whose category is in its class's table (`HasCoefficient`) lies in [0.65, 2.5] |
| PointsCalculator.DefeatFactorDamps | src/utils/pointsCalculator.ts:41 | the defeat damping (`DefeatFactor`) is a factor strictly between 0 and 1, larger in interclub (0.8) than in a tournament (0.5) |
| PointsCalculator.WithinOnlyNumbers | src/utils/pointsCalculator.ts:27 | `pointDiff <= r.max` (`Within`): a difference fits under a band's limit only when it is a number, and any number fits under the unbounded band |
| PointsCalculator.FinalPoints | src/utils/pointsCalculator.ts:59-61 | the signed result is ≥ 0 for a victory and ≤ 0 for a defeat |
| PointsCalculator.CalculateBasePoints | src/utils/pointsCalculator.ts:34-48 | base points lie in [0, 40] |
| PointsCalculator.CalculatePointsForMatch | src/utils/pointsCalculator.ts:50-62 | a victory never lowers the rating and a defeat never raises it |
| PointsCalculator.DeltaBase | src/utils/pointsCalculator.ts:40-58 | for numeric ratings the base points the calculator scales are those of the band of \|c−o\| in the independent threshold table, chosen by result and favourite and damped for a defeat |
| PointsCalculator.DeltaFormula | src/utils/pointsCalculator.ts:50-62 | for numeric ratings c and o, the delta is ± coefficient × (victory: the favourite's expected or the underdog's unexpected points of the band of \|c−o\|; defeat: the favourite's unexpected or the underdog's expected points × 0.8 interclub / 0.5 tournament), with favourite meaning c > o |
| PointsCalculator.TieIsNotFavourite | src/utils/pointsCalculator.ts:55 | with equal ratings a victory earns 10 × coef and a defeat costs 9 × defeat factor × coef |
| PointsCalculator.ShiftInvariance | src/utils/pointsCalculator.ts:50-62 | shifting both ratings by the same amount leaves the delta unchanged |
| PointsCalculator.NaNRatingDelta | src/utils/pointsCalculator.ts:50-62 | if either rating is NaN the delta is 40 × coef for a victory and 0 for a defeat, never NaN |
| PointsCalculator.FavouriteVictoryExample | src/utils/__tests__/pointsCalculator.test.ts:8-23 | 1000 beating 950 in 'Autres provinciales' earns 6.8 |
| PointsCalculator.UnderdogVictoryExample | src/utils/__tests__/pointsCalculator.test.ts:25-40 | 1004 beating 1220 earns 20.4 |
| PointsCalculator.TournamentVictoryExample | src/utils/__tests__/pointsCalculator.test.ts:42-57 | 1000 beating 1250 in 'Tournoi Série B & C' earns 24 |
| PointsCalculator.LargeGapVictoryExample | src/utils/__tests__/pointsCalculator.test.ts:59-74 | 1000 beating 1500 earns 34 |
| PointsCalculator.UnderdogDefeatExample | src/utils/__tests__/pointsCalculator.test.ts:78-93 | 1000 losing to 1200 in interclub costs 2.72 |
| PointsCalculator.FavouriteDefeatExample | src/utils/__tests__/pointsCalculator.test.ts:95-110 | 1000 losing to 800 in interclub costs 13.6 |
| PointsCalculator.TournamentDefeatExample | src/utils/__tests__/pointsCalculator.test.ts:112-127 | 1000 losing to 1100 in 'Tournoi Série B & C' costs 3 |
| PointsCalculator.TieVictoryExample | src/utils/__tests__/pointsCalculator.test.ts:223-238 | 1000 beating 1000 earns 8.5 |
| Calculation.Eligible | src/hooks/useCalculation.ts:13 | a match is kept exactly when it is in the list, complete and has an opponent rating (the test `IsEligible`) |
| Calculation.EligibleAppend | src/hooks/useCalculation.ts:13 | filtering a concatenation is the concatenation of the filtered parts, so order is kept |
| Calculation.Accumulate | src/hooks/useCalculation.ts:14-25 | one line per match, in order, carrying the match unchanged; the first line starts at the start rating |
| Calculation.AccumulateChain | src/hooks/useCalculation.ts:14-25 | each line's change is the calculator at that line's starting rating, its end is start + change, and each line starts where the previous one ended |
| Calculation.EndIsLastAfter | src/hooks/useCalculation.ts:17-32 | the final running rating is the last line's end rating |
| Calculation.AccumulateSnoc | src/hooks/useCalculation.ts:14-25 | one more match adds one line priced at the rating the earlier matches ended at |
| Calculation.RunningSnoc | src/hooks/useCalculation.ts:17 | one more match moves the final rating by that match's change, priced at the rating the list ended at |
| Calculation.Summary | src/hooks/useCalculation.ts:5-36 | null exactly when the rating text is empty or no match is complete with an opponent rating; otherwise start = parse(text), one line per eligible match in order, the first line starting at start, end = last line's end, total = end − start |
| Calculation.ResultsChain | src/hooks/useCalculation.ts:14-25 | in a summary, each line is priced by the calculator at its starting rating, ends at start + change, and starts where the previous line ended |
| Calculation.ApplyMatches | src/hooks/useCalculation.ts:10-25 | the loop produces exactly the specified lines and final rating of the eligible matches |
| Calculation.ComputeSummary | src/hooks/useCalculation.ts:5-36 | the hook's computation returns exactly `Summary` |
| Calculation.RunningNaNOnlyFromStart | src/hooks/useCalculation.ts:10-32 | the final `runningPoints` (`Running`, the rating after every match of the list) is NaN exactly when the start rating is NaN |
| Calculation.RunningTelescopes | src/hooks/useCalculation.ts:10-25 | from a numeric start, the final rating is the start plus the sum of the changes |
| Calculation.NaNStartIsSticky | src/hooks/useCalculation.ts:9-25 | from a NaN start every line ends at NaN, and so does the final rating |
| Calculation.TotalIsSumOfChanges | src/hooks/useCalculation.ts:33 | with a numeric start, the total change is the sum of the per-match changes |
| Calculation.NaNStartSummary | src/hooks/useCalculation.ts:9-33 | with a start that does not parse, the end rating and the total change are NaN |
| Calculation.TwoVictoriesExample | src/hooks/__tests__/useCalculation.test.ts:66-100 | two 'N1 & N2' victories against 950 from 1000 earn 8 then 7 and end at 1015, a total of 15 |
| Ledger.DefaultCompetitionOf | src/hooks/useMatches.ts:44-48 | the category chosen on a class change is that class's default and is a key of its table |
| Ledger.NewMatch | src/hooks/useMatches.ts:12-23 | the appended record is a victory with an empty opponent rating and is not complete; it takes the class and category of the last record, or the defaults on an empty list; it is priceable when the list is |
| Ledger.Without | src/hooks/useMatches.ts:34 | the filtered list is never longer than the original, and no surviving record carries the removed id |
| Ledger.PriceableIsRated | src/hooks/useCalculation.ts:13-15 | a list whose records all have a coefficient meets the summary's demand: every eligible record can be priced |
| Ledger.WithoutMembers | src/hooks/useMatches.ts:34 | a record is kept exactly when it is in the list and has a different id |
| Ledger.WithoutKeepsIdsIncreasing | src/hooks/useMatches.ts:34 | removal keeps the ids strictly increasing |
| Ledger.WithoutKeepsPriceable | src/hooks/useMatches.ts:34 | removal keeps every category in its class's table |
| Ledger.WithoutIsSplice | src/hooks/useMatches.ts:34 | with unique ids, removing the id at position k yields the list with exactly that record cut out, the others in order |
| Ledger.WithoutAbsentId | src/hooks/useMatches.ts:34 | removing an unknown id changes nothing |
| Ledger.Find | src/hooks/useMatches.ts:56 | the result is the first record with the id, or none exactly when no record has it |
| Ledger.FindUnique | src/hooks/useMatches.ts:56 | with unique ids, looking up a record's id finds that record |
| Ledger.ApplyUpdate | src/hooks/useMatches.ts:41-48 | only the named field changes, the id never does, and changing the class resets the category to that class's default |
| Ledger.UpdateKeepsPriceable | src/hooks/useMatches.ts:43-48 | an update keeps a record priceable unless it picks a category outside the record's class |
| Ledger.UpdateWhere | src/hooks/useMatches.ts:38-51 | exactly the records with the id are updated, the others are kept, the length is the same |
| Ledger.UpdateKeepsIds | src/hooks/useMatches.ts:38-51 | every id stays in its place, so increasing ids stay increasing |
| Ledger.UpdateAbsentId | src/hooks/useMatches.ts:38-39 | updating an unknown id changes nothing |
| Ledger.UpdateWhereKeepsPriceable | src/hooks/useMatches.ts:38-51 | updates keep the list priceable when a chosen category belongs to the record's class |
| Ledger.AddThenCancel | src/hooks/useMatches.ts:10-28 | adding a record and then cancelling its edit gives back the earlier list |
| Ledger.AddKeepsWellNumbered | src/hooks/useMatches.ts:16-27 | appending under `nextId` and advancing it keeps ids positive, increasing and below the counter |
| Ledger.WithoutKeepsWellNumbered | src/hooks/useMatches.ts:34 | removal keeps that numbering |
| Ledger.UpdateKeepsWellNumbered | src/hooks/useMatches.ts:38-51 | updates keep that numbering |
| Ledger.MatchLedger.constructor | src/hooks/useMatches.ts:6-8 | starts with no records, no record being edited and next id 1 |
| Ledger.MatchLedger.AddMatch | src/hooks/useMatches.ts:10-29 | appends `NewMatch` under the old next id, opens it for editing, increments the next id, and keeps the numbering and priceability |
| Ledger.MatchLedger.RemoveMatch | src/hooks/useMatches.ts:31-35 | removes the records with that id; clears the edited id exactly when it was that id; keeps the next id |
| Ledger.MatchLedger.UpdateMatch | src/hooks/useMatches.ts:37-52 | applies the update to the records with that id; the edited id and the next id are unchanged |
| Ledger.MatchLedger.CompleteMatch | src/hooks/useMatches.ts:54-62 | if the first record with that id has an opponent rating, it is marked complete and the editor closes; otherwise nothing changes |
| Ledger.MatchLedger.EditMatch | src/hooks/useMatches.ts:64-66 | only the edited id changes, to that id |
| Ledger.MatchLedger.CancelEdit | src/hooks/useMatches.ts:68-78 | removes the record iff it exists and is incomplete; the editor is always closed |

## Left out

- `parseFloat` is not modelled. The calculator and the summary take the parse function as a parameter, and the examples state what it returns on the texts they use.
- Numbers are exact reals or NaN. Floating-point rounding, `Infinity` and the sign of zero are not modelled. The unbounded last band stands for the `Infinity` limit.
- Categories form an enumeration of the seventeen table labels (`MatchTypes.Label`). A record cannot hold arbitrary category text. The federation codes beside the coefficients are not modelled.
- PointsCalculator.CalculatePointsForMatch: requires the record's category to be in its class's table. For any other record the source reads a property of `undefined` and throws. The model states that demand as a precondition and does not model the exception. `Calculation.Summary` therefore requires it of every eligible record once a start rating is given (`Ledger.PriceableIsRated` shows the ledger's invariant meets that demand). `Ledger.MatchLedger` keeps it as `CategoriesValid`. That invariant survives every method except an update that picks a category outside the record's class, which the category selector does not offer.
- Ledger.MatchLedger.UpdateMatch: updates of `id`, and values of the wrong type for a field, are not modelled. The `Update` datatype lists the five non-id fields `updateMatch` accepts. The editor sends the first four; `SetComplete` is what `completeMatch` applies.
- React mechanics are not modelled: `useState`, `useCallback` and `useMemo` (identity, recomputation, batching).
- Ledger.MatchLedger.AddMatch: applies each call to the latest state. The source's callback reads `nextId` from the render that created it, so two additions within one render would reuse an id. This is not modelled.
- Arrays are modelled as immutable sequences: `find`, `filter` and `map` build new values, as in the source, so no aliasing arises.
- The React components, number formatting (`toFixed`), the test fixtures and the build configuration are not part of this model.
