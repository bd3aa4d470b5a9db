/** The dashboard's seed data (src/constants.tsx): the five teams' statistics
    and the three scheduled matches the app starts from. */
module Fixtures {
  import opened Base
  import opened Types

  const RCBStats: TeamStats := TeamStats(RCB, 12, 10, 2, 1.247, 20, 1745.0, [W, W, W, W, L], 0.88, 0.82)
  const GGStats: TeamStats := TeamStats(GG, 12, 8, 4, 0.612, 16, 1640.0, [W, L, W, W, W], 0.72, 0.65)
  const MIStats: TeamStats := TeamStats(MI, 12, 7, 5, 0.245, 14, 1595.0, [L, W, L, W, W], 0.81, 0.89)
  const DCStats: TeamStats := TeamStats(DC, 11, 5, 6, 0.142, 10, 1533.0, [L, W, L, W, L], 0.79, 0.71)
  const UPWStats: TeamStats := TeamStats(UPW, 11, 5, 6, -0.089, 10, 1522.0, [L, L, W, L, W], 0.65, 0.78)

  /** `INITIAL_TEAMS`, in the order of the source. */
  const InitialTeams: seq<TeamStats> := [RCBStats, GGStats, MIStats, DCStats, UPWStats]

  const DCEleven: seq<Player> := [
    Player("Meg Lanning", Batter, 0.85),
    Player("Shafali Verma", Batter, 0.72),
    Player("Alice Capsey", AllRounder, 0.78),
    Player("Jemimah Rodrigues", Batter, 0.81),
    Player("Marizanne Kapp", AllRounder, 0.92),
    Player("Jess Jonassen", Bowler, 0.84),
    Player("Taniya Bhatia", WK, 0.65),
    Player("Radha Yadav", Bowler, 0.75),
    Player("Shikha Pandey", Bowler, 0.78),
    Player("Titas Sadhu", Bowler, 0.70),
    Player("A Reddy", Bowler, 0.72)
  ]

  const UPWEleven: seq<Player> := [
    Player("Alyssa Healy", WK, 0.78),
    Player("Kiran Navgire", Batter, 0.65),
    Player("Chamari Athapaththu", AllRounder, 0.85),
    Player("Grace Harris", AllRounder, 0.88),
    Player("Shweta Sehrawat", Batter, 0.62),
    Player("Sophie Ecclestone", Bowler, 0.94),
    Player("Deepti Sharma", AllRounder, 0.89),
    Player("Poonam Khemnar", AllRounder, 0.68),
    Player("Rajeshwari Gayakwad", Bowler, 0.76),
    Player("Saima Thakor", Bowler, 0.70),
    Player("Anjali Sarvani", Bowler, 0.72)
  ]

  /** The chase in progress in the league match. */
  const LeagueLive: LiveMetrics := LiveMetrics(
    runsNeeded := 70.0, ballsLeft := 22.0, wicketsLost := 8.0, currentRR := 7.46, requiredRR := 19.09,
    target := 192.0, isNightMatch := true, humidityLevel := 68.0, dewLikelihood := 0.7,
    scoreString := Some("122/8 (16.2 ov)"))

  const LeagueMatch: Match := Match(
    id := "m1", stage := League, team1 := DC, team2 := UPW, status := Live, winner := None,
    score1 := Some("191/5 (20.0 ov)"), score2 := Some("122/8 (16.2 ov)"),
    summary := Some("UP Warriorz chasing 192. Required RR spiking as wickets tumble."),
    playerOfTheMatch := None, liveMetrics := Some(LeagueLive), historicalH2H := Some("DC 4 - 2 UPW."),
    venue := Some("Arun Jaitley"), playingXI := Some(PlayingXI(DCEleven, UPWEleven)), prediction := None)

  const EliminatorMatch: Match := Match(
    id := "m2", stage := Eliminator, team1 := GG, team2 := MI, status := Upcoming, winner := None,
    score1 := None, score2 := None, summary := None, playerOfTheMatch := None, liveMetrics := None,
    historicalH2H := Some("GG 2 - 5 MI."), venue := Some("M Chinnaswamy"), playingXI := None,
    prediction := None)

  const FinalMatchFixture: Match := Match(
    id := "m3", stage := Final, team1 := RCB, team2 := GG, status := Upcoming, winner := None,
    score1 := None, score2 := None, summary := None, playerOfTheMatch := None, liveMetrics := None,
    historicalH2H := None, venue := Some("Arun Jaitley"), playingXI := None, prediction := None)

  /** `INITIAL_MATCHES`, in the order of the source. */
  const InitialMatches: seq<Match> := [LeagueMatch, EliminatorMatch, FinalMatchFixture]

  /** Every seed team has a recent form the engine can use. */
  lemma InitialTeamsWellFormed()
    ensures WellFormedStandings(InitialTeams)
  {}

  /** No seed match carries a prediction yet. */
  lemma InitialMatchesUnpredicted()
    ensures forall x :: x in InitialMatches ==> x.prediction.None?
  {}

  /** The seed standings name the five teams once each. */
  lemma InitialTeamNamesDistinct()
    ensures forall i, j :: 0 <= i < j < |InitialTeams| ==> InitialTeams[i].name != InitialTeams[j].name
  {}
}
