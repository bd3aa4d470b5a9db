/** The records of the dashboard (src/types.ts): teams, players, live telemetry,
    matches and the prediction attached to a match. Numbers are `real` (the
    source's `number`), counts that are whole numbers by nature are `int`. */
module Types {
  import opened Base

  /** The values of the `TeamName` enum. Names are strings at run time: the data
      sync can put any string in a team or match field. */
  const RCB: string := "Royal Challengers Bangalore"
  const DC: string := "Delhi Capitals"
  const UPW: string := "UP Warriorz"
  const GG: string := "Gujarat Giants"
  const MI: string := "Mumbai Indians"

  /** One entry of a team's recent results, 'W' or 'L'. */
  datatype Form = W | L

  datatype Role = Batter | Bowler | AllRounder | WK

  datatype Player = Player(name: string, role: Role, recentFormIndex: real)

  datatype TeamStats = TeamStats(
    name: string,
    played: int,
    won: int,
    lost: int,
    nrr: real,
    points: int,
    elo: real,
    recentForm: seq<Form>,
    powerplayPerformance: real,
    deathBowlingStrength: real)

  datatype LiveMetrics = LiveMetrics(
    runsNeeded: real,
    ballsLeft: real,
    wicketsLost: real,
    currentRR: real,
    requiredRR: real,
    target: real,
    isNightMatch: bool,
    humidityLevel: real,
    dewLikelihood: real,
    scoreString: Option<string>)

  /** A stage label other than the three declared ones. */
  type OtherLabel = s: string | s != "League" && s != "Eliminator" && s != "Final"

  /** The declared stages, plus any other string a stage field may carry
      at run time (the engine's pressure table has a default for those). */
  datatype Stage = League | Eliminator | Final | OtherStage(text: OtherLabel)

  datatype Status = Upcoming | Live | Completed

  datatype Confidence = High | Medium | Lean | TossUp

  datatype XIStrength = XIStrength(t1: real, t2: real)

  datatype EnsembleMetrics = EnsembleMetrics(momentumScore: real, pressureIndex: real)

  datatype Prediction = Prediction(
    team1WinProb: real,
    team2WinProb: real,
    confidence: Confidence,
    factors: seq<string>,
    xiStrengthIndex: XIStrength,
    dewImpact: real,
    ensembleMetrics: EnsembleMetrics)

  datatype PlayingXI = PlayingXI(team1: seq<Player>, team2: seq<Player>)

  datatype Match = Match(
    id: string,
    stage: Stage,
    team1: string,
    team2: string,
    status: Status,
    winner: Option<string>,
    score1: Option<string>,
    score2: Option<string>,
    summary: Option<string>,
    playerOfTheMatch: Option<string>,
    liveMetrics: Option<LiveMetrics>,
    historicalH2H: Option<string>,
    venue: Option<string>,
    playingXI: Option<PlayingXI>,
    prediction: Option<Prediction>)

  /** The number of 'W' entries, `recentForm.filter(f => f === 'W').length`. */
  function Wins(form: seq<Form>): (n: nat)
    ensures n <= |form|
  {
    if form == [] then 0 else (if form[0] == W then 1 else 0) + Wins(form[1..])
  }

  /** The fraction of wins in the recent form; the source divides by the length,
      so it needs a non-empty form to be a number. */
  function WinFraction(form: seq<Form>): (f: real)
    requires |form| > 0
    ensures 0.0 <= f <= 1.0
  {
    Wins(form) as real / |form| as real
  }

  /** A team whose statistics the engine can turn into numbers. */
  predicate WellFormedTeam(t: TeamStats)
  {
    |t.recentForm| > 0
  }

  predicate WellFormedStandings(teams: seq<TeamStats>)
  {
    forall t :: t in teams ==> WellFormedTeam(t)
  }
}
