/**
 * The rating table: for each competition class, the categories it offers and
 * the coefficient each category multiplies the base points by. A category is
 * one of the seventeen labels the table knows (`Label` gives the text). The
 * federation code of each category is not used by the calculation and is not
 * modelled.
 */
module Competitions {
  import opened MatchTypes

  const InterclubCoefficients: map<Category, real> := map[
    SuperDivision := 2.2,
    N1N2 := 1.0,
    N3IwbLandelijk := 0.95,
    P1 := 0.9,
    AutresProvinciales := 0.85,
    InterclubsVeterans := 0.65
  ]

  const TournamentCoefficients: map<Category, real> := map[
    TournoiSerieA := 1.5,
    TournoiSerieBC := 1.0,
    TournoisVeterans := 0.65,
    ChampBelgiqueAFinal := 2.5,
    ChampBelgiqueAPoules := 2.2,
    ChampAAftt := 1.5,
    CoupeBelgiqueFinales := 1.5,
    ChampBelgiqueJeunesVeteransBcde := 1.5,
    ChampBcdeAftt := 1.2,
    CoupeBelgiqueQuarts := 1.2,
    ChampProvinciaux := 1.2
  ]

  /** `COEFFICIENTS[t]`: the category table of a competition class. */
  function Coefficients(t: CompetitionType): map<Category, real> {
    match t
    case Interclub => InterclubCoefficients
    case Tournament => TournamentCoefficients
  }

  const DefaultCompetitionType: CompetitionType := Interclub
  const DefaultCompetition: Category := AutresProvinciales
  const DefaultTournamentCompetition: Category := TournoiSerieBC

  /** The coefficient lookup of a match does not fail: its category is a key of its class's table. */
  predicate HasCoefficient(m: Match) {
    m.competition in Coefficients(m.competitionType)
  }

  /** Both default categories are keys of their class's table, and the global default pair is consistent. */
  lemma DefaultsAreCategories()
    ensures Label(DefaultCompetition) == "Autres provinciales"
    ensures Label(DefaultTournamentCompetition) == "Tournoi Série B & C"
    ensures DefaultCompetition in Coefficients(Interclub)
    ensures DefaultTournamentCompetition in Coefficients(Tournament)
    ensures DefaultCompetition in Coefficients(DefaultCompetitionType)
  {
  }

  /** Every category belongs to exactly one class. */
  lemma EachCategoryHasOneClass(c: Category)
    ensures c in Coefficients(Interclub) <==> c !in Coefficients(Tournament)
  {
  }

  /** Every coefficient lies in [0.65, 2.5], and both ends are attained. */
  lemma CoefficientRange(t: CompetitionType, c: Category)
    requires c in Coefficients(t)
    ensures 0.65 <= Coefficients(t)[c] <= 2.5
    ensures Coefficients(Interclub)[InterclubsVeterans] == 0.65
    ensures Coefficients(Tournament)[ChampBelgiqueAFinal] == 2.5
  {
  }

  /**
   * The first three interclub categories are distinct. The table-size lemmas
   * below count their maps through these prefixes: counting the whole display
   * in one step is at the solver's resource limit on some random seeds.
   */
  lemma InterclubPrefixSize()
    ensures |map[SuperDivision := 2.2, N1N2 := 1.0, N3IwbLandelijk := 0.95]| == 3
  {
  }

  /** The interclub class has six categories. */
  lemma InterclubTableSize()
    ensures |Coefficients(Interclub)| == 6
  {
    InterclubPrefixSize();
  }

  /** The first four tournament categories are distinct. */
  lemma TournamentPrefixSize()
    ensures |map[TournoiSerieA := 1.5, TournoiSerieBC := 1.0, TournoisVeterans := 0.65, ChampBelgiqueAFinal := 2.5]| == 4
  {
  }

  /** The first eight tournament categories are distinct. */
  lemma TournamentMiddleSize()
    ensures |map[TournoiSerieA := 1.5, TournoiSerieBC := 1.0, TournoisVeterans := 0.65, ChampBelgiqueAFinal := 2.5,
      ChampBelgiqueAPoules := 2.2, ChampAAftt := 1.5, CoupeBelgiqueFinales := 1.5,
      ChampBelgiqueJeunesVeteransBcde := 1.5]| == 8
  {
    TournamentPrefixSize();
  }

  /** The tournament class has eleven categories. */
  lemma TournamentTableSize()
    ensures |Coefficients(Tournament)| == 11
  {
    TournamentMiddleSize();
  }

  /** The coefficients the calculator's tests rely on. */
  lemma KnownCoefficients()
    ensures Coefficients(Interclub)[N1N2] == 1.0
    ensures Coefficients(Interclub)[SuperDivision] == 2.2
    ensures Coefficients(Interclub)[P1] == 0.9
    ensures Coefficients(Interclub)[AutresProvinciales] == 0.85
    ensures Coefficients(Tournament)[TournoiSerieBC] == 1.0
    ensures Coefficients(Tournament)[TournoiSerieA] == 1.5
  {
  }
}
