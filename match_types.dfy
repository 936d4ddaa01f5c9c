/** The records the calculator and the ledger work on. */
module MatchTypes {
  import opened Numbers

  datatype CompetitionType = Interclub | Tournament

  datatype MatchResult = Victory | Defeat

  /** The competition categories of the rating table, one per label. */
  datatype Category =
    | SuperDivision | N1N2 | N3IwbLandelijk | P1 | AutresProvinciales | InterclubsVeterans
    | TournoiSerieA | TournoiSerieBC | TournoisVeterans | ChampBelgiqueAFinal | ChampBelgiqueAPoules
    | ChampAAftt | CoupeBelgiqueFinales | ChampBelgiqueJeunesVeteransBcde | ChampBcdeAftt
    | CoupeBelgiqueQuarts | ChampProvinciaux

  /** The label a category has in the rating table and in the category selector. */
  function Label(c: Category): string {
    match c
    case SuperDivision => "Super Division"
    case N1N2 => "N1 & N2"
    case N3IwbLandelijk => "N3 & IWB & Landelijk"
    case P1 => "P1"
    case AutresProvinciales => "Autres provinciales"
    case InterclubsVeterans => "Interclubs vétérans"
    case TournoiSerieA => "Tournoi Série A"
    case TournoiSerieBC => "Tournoi Série B & C"
    case TournoisVeterans => "Tournois vétérans"
    case ChampBelgiqueAFinal => "Champ. Belgique A (Final)"
    case ChampBelgiqueAPoules => "Champ. Belgique A (Poules)"
    case ChampAAftt => "Champ. A AFTT"
    case CoupeBelgiqueFinales => "Coupe Belgique (1/2 & finale)"
    case ChampBelgiqueJeunesVeteransBcde => "Champ. Belgique (Jeunes/Vétérans/BCDE)"
    case ChampBcdeAftt => "Champ. BCDE AFTT"
    case CoupeBelgiqueQuarts => "Coupe Belgique (jusqu'à 1/4)"
    case ChampProvinciaux => "Champ. Provinciaux"
  }

  /**
   * One reported result. `opponentPoints` is the text the user typed; it may
   * be empty or not a number while the record is being edited. The category
   * is kept as the label it stands for.
   */
  datatype Match = Match(
    id: int,
    result: MatchResult,
    competitionType: CompetitionType,
    competition: Category,
    opponentPoints: string,
    isComplete: bool)

  /** A match (the spread `...match`, kept as `played`) together with the rating before it, its delta and the rating after it. */
  datatype MatchCalculationResult = MatchCalculationResult(
    played: Match,
    pointsBefore: Num,
    pointsChange: real,
    pointsAfter: Num)

  datatype CalculationSummary = CalculationSummary(
    startPoints: Num,
    endPoints: Num,
    totalChange: Num,
    results: seq<MatchCalculationResult>)
}
