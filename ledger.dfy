/**
 * The match list the user edits: records are appended with fresh ids, edited
 * field by field, marked complete, removed, and at most one of them is the one
 * being edited.
 */
module Ledger {
  import opened Wrappers
  import opened MatchTypes
  import opened Competitions
  import Calculation

  /**
   * A change of one non-id field of a record, as `updateMatch` accepts it: the
   * match editor sends the first four, and `completeMatch` applies `SetComplete`.
   */
  datatype Update =
    | SetResult(result: MatchResult)
    | SetCompetitionType(competitionType: CompetitionType)
    | SetCompetition(competition: Category)
    | SetOpponentPoints(opponentPoints: string)
    | SetComplete(isComplete: bool)

  /** The category a record gets when its class is switched to `t`. */
  function DefaultCompetitionOf(t: CompetitionType): (c: Category)
    ensures c in Coefficients(t)
    ensures t == Interclub ==> c == DefaultCompetition
    ensures t == Tournament ==> c == DefaultTournamentCompetition
  {
    if t == Interclub then DefaultCompetition else DefaultTournamentCompetition
  }

  /** Record ids grow strictly along the list, so no id occurs twice. */
  predicate IdsIncreasing(ms: seq<Match>) {
    forall i, j | 0 <= i < j < |ms| :: ms[i].id < ms[j].id
  }

  /** Ids are positive, increase along the list and are all below `nextId`, the next one to hand out. */
  predicate WellNumbered(ms: seq<Match>, nextId: int) {
    1 <= nextId &&
    IdsIncreasing(ms) &&
    forall i | 0 <= i < |ms| :: 1 <= ms[i].id < nextId
  }

  /** Every record's category is in its class's table. */
  predicate AllPriceable(ms: seq<Match>) {
    forall i | 0 <= i < |ms| :: HasCoefficient(ms[i])
  }

  /** A list whose records all have a coefficient meets the summary's demand on its eligible records. */
  lemma PriceableIsRated(ms: seq<Match>)
    requires AllPriceable(ms)
    ensures Calculation.AllRated(Calculation.Eligible(ms))
  {
    forall m | m in Calculation.Eligible(ms)
      ensures HasCoefficient(m)
    {
      var i :| 0 <= i < |ms| && ms[i] == m;
    }
  }

  /**
   * The record `addMatch` appends: a victory with no opponent rating yet, not
   * complete, in the class and category of the last record or the defaults.
   */
  function NewMatch(ms: seq<Match>, id: int): (m: Match)
    ensures m.id == id && m.result == Victory && m.opponentPoints == "" && !m.isComplete
    ensures ms == [] ==> m.competitionType == DefaultCompetitionType && m.competition == DefaultCompetition
    ensures ms != [] ==>
      m.competitionType == ms[|ms| - 1].competitionType && m.competition == ms[|ms| - 1].competition
    ensures AllPriceable(ms) ==> HasCoefficient(m)
  {
    var competitionType := if ms == [] then DefaultCompetitionType else ms[|ms| - 1].competitionType;
    var competition := if ms == [] then DefaultCompetition else ms[|ms| - 1].competition;
    Match(id, Victory, competitionType, competition, "", false)
  }

  /** `filter(m => m.id !== id)`. */
  function Without(ms: seq<Match>, id: int): (r: seq<Match>)
    ensures |r| <= |ms|
    ensures forall i :: 0 <= i < |r| ==> r[i].id != id
  {
    if ms == [] then []
    else if ms[0].id == id then Without(ms[1..], id)
    else [ms[0]] + Without(ms[1..], id)
  }

  /** A record survives the removal exactly when it is in the list with a different id. */
  lemma {:induction false} WithoutMembers(ms: seq<Match>, id: int)
    ensures forall m :: m in Without(ms, id) <==> m in ms && m.id != id
  {
    if ms != [] {
      WithoutMembers(ms[1..], id);
      assert ms == [ms[0]] + ms[1..];
    }
  }

  /** Removing records keeps the ids increasing. */
  lemma {:induction false} WithoutKeepsIdsIncreasing(ms: seq<Match>, id: int)
    requires IdsIncreasing(ms)
    ensures IdsIncreasing(Without(ms, id))
  {
    if ms != [] {
      WithoutKeepsIdsIncreasing(ms[1..], id);
      WithoutMembers(ms[1..], id);
      var rest := Without(ms[1..], id);
      forall k | 0 <= k < |rest|
        ensures ms[0].id < rest[k].id
      {
        assert rest[k] in ms[1..];
      }
    }
  }

  /** Removing records keeps every category priceable. */
  lemma WithoutKeepsPriceable(ms: seq<Match>, id: int)
    requires AllPriceable(ms)
    ensures AllPriceable(Without(ms, id))
  {
    var r := Without(ms, id);
    WithoutMembers(ms, id);
    forall i | 0 <= i < |r|
      ensures HasCoefficient(r[i])
    {
      assert r[i] in ms;
    }
  }

  /** With unique ids, removing the id of the record at `k` cuts out exactly that record. */
  lemma {:induction false} WithoutIsSplice(ms: seq<Match>, k: nat)
    requires IdsIncreasing(ms)
    requires k < |ms|
    ensures Without(ms, ms[k].id) == ms[..k] + ms[k + 1..]
  {
    var id := ms[k].id;
    var tail := ms[1..];
    TailAfterHead(ms);
    if k == 0 {
      WithoutAbsentId(tail, id);
    } else {
      assert tail[k - 1] == ms[k];
      assert ms[0].id != id;
      WithoutIsSplice(tail, k - 1);
      calc {
        Without(ms, id);
        [ms[0]] + Without(tail, id);
        [ms[0]] + (tail[..k - 1] + tail[k..]);
        { assert ms[..k] == [ms[0]] + tail[..k - 1]; assert ms[k + 1..] == tail[k..]; }
        ms[..k] + ms[k + 1..];
      }
    }
  }

  /** Behind the first record the ids are still increasing, and all above the first one. */
  lemma TailAfterHead(ms: seq<Match>)
    requires IdsIncreasing(ms)
    requires ms != []
    ensures IdsIncreasing(ms[1..])
    ensures forall i | 0 <= i < |ms| - 1 :: ms[0].id < ms[1..][i].id
  {
    forall i | 0 <= i < |ms| - 1
      ensures ms[1..][i] == ms[i + 1]
    {
    }
  }

  /** Removing an id no record has changes nothing. */
  lemma {:induction false} WithoutAbsentId(ms: seq<Match>, id: int)
    requires forall i | 0 <= i < |ms| :: ms[i].id != id
    ensures Without(ms, id) == ms
  {
    if ms != [] {
      WithoutAbsentId(ms[1..], id);
      assert ms == [ms[0]] + ms[1..];
    }
  }

  /** `find(m => m.id === id)`: the first record with that id. */
  function Find(ms: seq<Match>, id: int): (r: Option<Match>)
    ensures r.None? <==> forall i | 0 <= i < |ms| :: ms[i].id != id
    ensures r.Some? ==> exists k | 0 <= k < |ms| ::
      ms[k] == r.value && r.value.id == id && (forall j | 0 <= j < k :: ms[j].id != id)
  {
    if ms == [] then None
    else if ms[0].id == id then Some(ms[0])
    else
      var r := Find(ms[1..], id);
      if r.Some? then
        var k :| 0 <= k < |ms[1..]| && ms[1..][k] == r.value && r.value.id == id &&
          forall j | 0 <= j < k :: ms[1..][j].id != id;
        assert ms[k + 1] == r.value;
        r
      else r
  }

  /** With unique ids, the record found for an id is the one carrying it. */
  lemma FindUnique(ms: seq<Match>, k: nat)
    requires IdsIncreasing(ms)
    requires k < |ms|
    ensures Find(ms, ms[k].id) == Some(ms[k])
  {
    var f := Find(ms, ms[k].id);
    var k' :| 0 <= k' < |ms| && ms[k'] == f.value && f.value.id == ms[k].id &&
      forall j | 0 <= j < k' :: ms[j].id != ms[k].id;
    assert k' == k;
  }

  /**
   * `{ ...match, [field]: value }`, with the category reset to the class's
   * default when the class changes; nothing else of the record changes.
   */
  function ApplyUpdate(m: Match, u: Update): (r: Match)
    ensures r.id == m.id
    ensures r.result == (if u.SetResult? then u.result else m.result)
    ensures r.competitionType == (if u.SetCompetitionType? then u.competitionType else m.competitionType)
    ensures r.competition ==
      (if u.SetCompetitionType? then DefaultCompetitionOf(u.competitionType)
       else if u.SetCompetition? then u.competition
       else m.competition)
    ensures r.opponentPoints == (if u.SetOpponentPoints? then u.opponentPoints else m.opponentPoints)
    ensures r.isComplete == (if u.SetComplete? then u.isComplete else m.isComplete)
  {
    match u
    case SetResult(v) => m.(result := v)
    case SetCompetitionType(t) => m.(competitionType := t, competition := DefaultCompetitionOf(t))
    case SetCompetition(c) => m.(competition := c)
    case SetOpponentPoints(s) => m.(opponentPoints := s)
    case SetComplete(b) => m.(isComplete := b)
  }

  /** An update keeps a record priceable unless it picks a category outside the record's class. */
  lemma UpdateKeepsPriceable(m: Match, u: Update)
    requires HasCoefficient(m)
    requires u.SetCompetition? ==> u.competition in Coefficients(m.competitionType)
    ensures HasCoefficient(ApplyUpdate(m, u))
  {
  }

  /** `map(m => m.id === id ? update(m) : m)`. */
  function UpdateWhere(ms: seq<Match>, id: int, u: Update): (r: seq<Match>)
    ensures |r| == |ms|
    ensures forall i | 0 <= i < |ms| :: r[i] == if ms[i].id == id then ApplyUpdate(ms[i], u) else ms[i]
  {
    if ms == [] then []
    else [if ms[0].id == id then ApplyUpdate(ms[0], u) else ms[0]] + UpdateWhere(ms[1..], id, u)
  }

  /** Updating keeps every id in its place, so the ids stay increasing. */
  lemma UpdateKeepsIds(ms: seq<Match>, id: int, u: Update)
    ensures forall i | 0 <= i < |ms| :: UpdateWhere(ms, id, u)[i].id == ms[i].id
    ensures IdsIncreasing(ms) ==> IdsIncreasing(UpdateWhere(ms, id, u))
  {
  }

  /** Updating an id no record has changes nothing. */
  lemma UpdateAbsentId(ms: seq<Match>, id: int, u: Update)
    requires forall i | 0 <= i < |ms| :: ms[i].id != id
    ensures UpdateWhere(ms, id, u) == ms
  {
  }

  /** Updating keeps the list priceable when a chosen category belongs to the record's class. */
  lemma UpdateWhereKeepsPriceable(ms: seq<Match>, id: int, u: Update)
    requires AllPriceable(ms)
    requires u.SetCompetition? ==>
      forall i | 0 <= i < |ms| && ms[i].id == id :: u.competition in Coefficients(ms[i].competitionType)
    ensures AllPriceable(UpdateWhere(ms, id, u))
  {
    forall i | 0 <= i < |ms|
      ensures HasCoefficient(UpdateWhere(ms, id, u)[i])
    {
      if ms[i].id == id {
        UpdateKeepsPriceable(ms[i], u);
      }
    }
  }

  /** Adding a record and cancelling it straight away gives back the list it was added to. */
  lemma AddThenCancel(ms: seq<Match>, nextId: int)
    requires IdsIncreasing(ms)
    requires forall i | 0 <= i < |ms| :: ms[i].id < nextId
    ensures var added := ms + [NewMatch(ms, nextId)];
      IdsIncreasing(added) &&
      Find(added, nextId) == Some(NewMatch(ms, nextId)) &&
      Without(added, nextId) == ms
  {
    var added := ms + [NewMatch(ms, nextId)];
    assert IdsIncreasing(added);
    FindUnique(added, |ms|);
    WithoutIsSplice(added, |ms|);
    assert added[..|ms|] == ms;
  }

  /** Appending the new record under `nextId` and advancing the counter keeps the numbering. */
  lemma AddKeepsWellNumbered(ms: seq<Match>, nextId: int)
    requires WellNumbered(ms, nextId)
    ensures WellNumbered(ms + [NewMatch(ms, nextId)], nextId + 1)
  {
  }

  /** Removing records keeps the numbering. */
  lemma WithoutKeepsWellNumbered(ms: seq<Match>, id: int, nextId: int)
    requires WellNumbered(ms, nextId)
    ensures WellNumbered(Without(ms, id), nextId)
  {
    WithoutKeepsIdsIncreasing(ms, id);
    WithoutMembers(ms, id);
    var r := Without(ms, id);
    forall i | 0 <= i < |r|
      ensures 1 <= r[i].id < nextId
    {
      assert r[i] in ms;
    }
  }

  /** Updating records keeps the numbering. */
  lemma UpdateKeepsWellNumbered(ms: seq<Match>, id: int, u: Update, nextId: int)
    requires WellNumbered(ms, nextId)
    ensures WellNumbered(UpdateWhere(ms, id, u), nextId)
  {
    UpdateKeepsIds(ms, id, u);
  }

  /** The state of the match list: the records, the one being edited, and the next id to hand out. */
  class MatchLedger {
    var matches: seq<Match>
    var editingId: Option<int>
    var nextId: int

    /** The records are numbered below the next id to hand out. */
    ghost predicate Valid()
      reads this
    {
      WellNumbered(matches, nextId)
    }

    /** Every record can be priced by the calculator. */
    predicate CategoriesValid()
      reads this
    {
      AllPriceable(matches)
    }

    constructor()
      ensures Valid() && CategoriesValid()
      ensures matches == [] && editingId == None && nextId == 1
    {
      matches := [];
      editingId := None;
      nextId := 1;
    }

    /** Appends a fresh record with the next id and opens it for editing. */
    method AddMatch()
      requires Valid()
      modifies this
      ensures Valid()
      ensures matches == old(matches) + [NewMatch(old(matches), old(nextId))]
      ensures editingId == Some(old(nextId))
      ensures nextId == old(nextId) + 1
      ensures old(CategoriesValid()) ==> CategoriesValid()
    {
      var newMatch := NewMatch(matches, nextId);
      AddKeepsWellNumbered(matches, nextId);
      nextId := nextId + 1;
      editingId := Some(newMatch.id);
      matches := matches + [newMatch];
    }

    /** Deletes the record with that id and stops editing it if it was being edited. */
    method RemoveMatch(id: int)
      requires Valid()
      modifies this
      ensures Valid()
      ensures matches == Without(old(matches), id)
      ensures editingId == if old(editingId) == Some(id) then None else old(editingId)
      ensures nextId == old(nextId)
      ensures old(CategoriesValid()) ==> CategoriesValid()
    {
      if editingId == Some(id) {
        editingId := None;
      }
      WithoutKeepsWellNumbered(matches, id, nextId);
      if CategoriesValid() {
        WithoutKeepsPriceable(matches, id);
      }
      matches := Without(matches, id);
    }

    /** Changes one field of the record with that id. */
    method UpdateMatch(id: int, u: Update)
      requires Valid()
      modifies this
      ensures Valid()
      ensures matches == UpdateWhere(old(matches), id, u)
      ensures editingId == old(editingId) && nextId == old(nextId)
      ensures old(CategoriesValid()) &&
        (u.SetCompetition? ==> forall i | 0 <= i < |old(matches)| && old(matches)[i].id == id ::
          u.competition in Coefficients(old(matches)[i].competitionType))
        ==> CategoriesValid()
    {
      UpdateKeepsWellNumbered(matches, id, u, nextId);
      if CategoriesValid() &&
        (u.SetCompetition? ==> forall i | 0 <= i < |matches| && matches[i].id == id ::
          u.competition in Coefficients(matches[i].competitionType))
      {
        UpdateWhereKeepsPriceable(matches, id, u);
      }
      matches := UpdateWhere(matches, id, u);
    }

    /**
     * Marks the record with that id complete and closes the editor, provided
     * the record exists and has an opponent rating; otherwise nothing changes.
     */
    method CompleteMatch(id: int)
      requires Valid()
      modifies this
      ensures Valid()
      ensures var found := Find(old(matches), id);
        if found.Some? && found.value.opponentPoints != "" then
          matches == UpdateWhere(old(matches), id, SetComplete(true)) && editingId == None
        else
          matches == old(matches) && editingId == old(editingId)
      ensures nextId == old(nextId)
      ensures old(CategoriesValid()) ==> CategoriesValid()
    {
      var found := Find(matches, id);
      if found.Some? && found.value.opponentPoints != "" {
        UpdateKeepsWellNumbered(matches, id, SetComplete(true), nextId);
        if CategoriesValid() {
          UpdateWhereKeepsPriceable(matches, id, SetComplete(true));
        }
        editingId := None;
        matches := UpdateWhere(matches, id, SetComplete(true));
      }
    }

    /** Opens the record with that id for editing. */
    method EditMatch(id: int)
      requires Valid()
      modifies this
      ensures Valid()
      ensures editingId == Some(id)
      ensures matches == old(matches) && nextId == old(nextId)
    {
      editingId := Some(id);
    }

    /**
     * Closes the editor; a record with that id that was never completed is
     * discarded, a completed one is kept as it is.
     */
    method CancelEdit(id: int)
      requires Valid()
      modifies this
      ensures Valid()
      ensures var found := Find(old(matches), id);
        matches == if found.Some? && !found.value.isComplete then Without(old(matches), id) else old(matches)
      ensures editingId == None
      ensures nextId == old(nextId)
      ensures old(CategoriesValid()) ==> CategoriesValid()
    {
      var found := Find(matches, id);
      if found.Some? && !found.value.isComplete {
        WithoutKeepsWellNumbered(matches, id, nextId);
        if CategoriesValid() {
          WithoutKeepsPriceable(matches, id);
        }
        matches := Without(matches, id);
      }
      editingId := None;
    }
  }
}
