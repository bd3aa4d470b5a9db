/** The tournament state of the dashboard page (src/pages/Index.tsx): how it is
    first built (from a fresh cache or from the seed data), how a data sync and
    a manually entered result rebuild it, and the champion and confidence
    derived from the Final's prediction. */
module Dashboard {
  import opened Base
  import opened Types
  import opened PredictionEngine
  import opened CricketService
  import opened Fixtures

  /** `TournamentState`, without the display-only `lastUpdated`, `overallAccuracy`
      and `searchSources`. */
  datatype TournamentState = TournamentState(
    standings: seq<TeamStats>,
    matches: seq<Match>,
    predictedChampion: Option<string>,
    confidenceScore: int,
    volatilityIndex: real)

  // ---------------------------------------------------------------------------
  // Champion and confidence
  // ---------------------------------------------------------------------------

  predicate IsFinal(x: Match)
  {
    x.stage == Final
  }

  /** `matches.find(m => m.stage === 'Final')`: the first Final of the schedule. */
  function FinalMatch(ms: seq<Match>): (r: Option<Match>)
    ensures r.Some? ==> r.value in ms && r.value.stage == Final
    ensures r.Some? ==> exists i :: 0 <= i < |ms| && ms[i] == r.value &&
                                    forall j :: 0 <= j < i ==> ms[j].stage != Final
    ensures r.None? <==> forall i :: 0 <= i < |ms| ==> ms[i].stage != Final
  {
    Find(ms, IsFinal)
  }

  /** The champion: the Final's team 1 when its prediction gives team 1 more
      than one half, else its team 2; the fallback when there is no Final or
      it carries no prediction. */
  function PredictedChampion(ms: seq<Match>, fallback: Option<string>): (r: Option<string>)
    ensures r == fallback || (FinalMatch(ms).Some? && (r == Some(FinalMatch(ms).value.team1) || r == Some(FinalMatch(ms).value.team2)))
  {
    var f := FinalMatch(ms);
    if f.Some? && f.value.prediction.Some? then
      Some(if f.value.prediction.value.team1WinProb > 0.5 then f.value.team1 else f.value.team2)
    else fallback
  }

  /** `Math.round((final?.prediction?.team1WinProb || 0.82) * 100)`: the Final's
      probability in percent, rounded, or 82 when it has none (or it is 0). */
  function ConfidenceScore(ms: seq<Match>): (c: int)
    ensures var f := FinalMatch(ms);
            f.Some? && f.value.prediction.Some? && f.value.prediction.value.team1WinProb != 0.0 ==>
              c as real <= f.value.prediction.value.team1WinProb * 100.0 + 0.5 < c as real + 1.0
    ensures var f := FinalMatch(ms);
            !(f.Some? && f.value.prediction.Some? && f.value.prediction.value.team1WinProb != 0.0) ==> c == 82
  {
    var f := FinalMatch(ms);
    var p := if f.Some? && f.value.prediction.Some? then f.value.prediction.value.team1WinProb else 0.0;
    Round((if p != 0.0 then p else 0.82) * 100.0)
  }

  /** With a valid prediction on the Final, the champion is the team the
      prediction favours, ties going to team 2; without one it is the fallback. */
  lemma ChampionIsFavouredTeam(ms: seq<Match>, fallback: Option<string>)
    requires PredictionsValid(ms)
    ensures var f := FinalMatch(ms);
            (f.Some? && f.value.prediction.Some? ==>
               var p := f.value.prediction.value;
               PredictedChampion(ms, fallback) ==
                 Some(if p.team1WinProb > p.team2WinProb then f.value.team1 else f.value.team2)) &&
            (f.None? || f.value.prediction.None? ==> PredictedChampion(ms, fallback) == fallback)
  {
    var f := FinalMatch(ms);
    if f.Some? && f.value.prediction.Some? {
      assert ValidPrediction(f.value.prediction.value);
    }
  }

  /** The score is the Final's probability in percent, between 1 and 99, or 82
      when the Final carries no prediction. */
  lemma ConfidenceScoreRange(ms: seq<Match>)
    requires PredictionsValid(ms)
    ensures var f := FinalMatch(ms);
            (f.Some? && f.value.prediction.Some? ==>
               var p := f.value.prediction.value.team1WinProb;
               ConfidenceScore(ms) as real <= p * 100.0 + 0.5 < ConfidenceScore(ms) as real + 1.0) &&
            (f.None? || f.value.prediction.None? ==> ConfidenceScore(ms) == 82)
    ensures 1 <= ConfidenceScore(ms) <= 99
  {
    var f := FinalMatch(ms);
    if f.Some? && f.value.prediction.Some? {
      assert ValidPrediction(f.value.prediction.value);
    }
  }

  // ---------------------------------------------------------------------------
  // Building the state
  // ---------------------------------------------------------------------------

  /** What every state the page builds satisfies. */
  predicate Consistent(s: TournamentState)
  {
    WellFormedStandings(s.standings) &&
    PredictionsValid(s.matches) &&
    1 <= s.confidenceScore <= 99 &&
    10.0 <= s.volatilityIndex <= 100.0
  }

  /** The state rebuilt around a standings table and a schedule, champion
      falling back to the given one. */
  function Rebuild(m: MathLib, standings: seq<TeamStats>, matches: seq<Match>, fallback: Option<string>,
                   volatility: real): TournamentState
    requires Positive(m) && WellFormedStandings(standings)
  {
    var simulated := SimulateTournament(m, standings, matches);
    TournamentState(standings, simulated, PredictedChampion(simulated, fallback), ConfidenceScore(simulated), volatility)
  }

  /** The state built from the seed data, champion falling back to RCB. */
  function Initialize(m: MathLib): (s: TournamentState)
    requires Positive(m)
    ensures s.standings == InitialTeams && s.volatilityIndex == Volatility(InitialTeams)
    ensures s.matches == SimulateTournament(m, InitialTeams, InitialMatches)
    ensures s.predictedChampion == PredictedChampion(s.matches, Some(RCB))
    ensures s.confidenceScore == ConfidenceScore(s.matches)
  {
    InitialTeamsWellFormed();
    Rebuild(m, InitialTeams, InitialMatches, Some(RCB), Volatility(InitialTeams))
  }

  /** A rebuilt state is consistent when its inputs are. */
  lemma RebuildConsistent(m: MathLib, standings: seq<TeamStats>, matches: seq<Match>, fallback: Option<string>,
                          volatility: real)
    requires Positive(m) && WellFormedStandings(standings)
    requires PredictionsValid(matches) && 10.0 <= volatility <= 100.0
    ensures Consistent(Rebuild(m, standings, matches, fallback, volatility))
  {
    SimulateTournamentKeepsPredictionsValid(m, standings, matches);
    ConfidenceScoreRange(SimulateTournament(m, standings, matches));
  }

  /** The seed state is consistent. */
  lemma InitializeConsistent(m: MathLib)
    requires Positive(m)
    ensures Consistent(Initialize(m))
  {
    InitialTeamsWellFormed();
    InitialMatchesUnpredicted();
    RebuildConsistent(m, InitialTeams, InitialMatches, Some(RCB), Volatility(InitialTeams));
  }

  /** The `timestamp` stored with a cached state: missing, a date, or a string
      that is no date. */
  datatype CacheStamp = NoStamp | Stamp(ms: int) | BadStamp

  /** What local storage holds: nothing, text that is not JSON, or a state. */
  datatype Cache = Empty | Unreadable | Stored(stamp: CacheStamp, state: TournamentState)

  /** The cache's age test: a missing stamp counts as the epoch, an invalid
      date as NaN (which fails the comparison); only an age under 120000 ms
      is accepted, so a stamp in the future is accepted too. */
  predicate CacheAccepted(now: int, stamp: CacheStamp): (r: bool)
    ensures stamp.BadStamp? ==> !r
    ensures stamp.NoStamp? ==> (r <==> now < 120000)
    ensures stamp.Stamp? ==> (r <==> stamp.ms > now - 120000)
  {
    match stamp
    case NoStamp => now - 0 < 120000
    case Stamp(t) => now - t < 120000
    case BadStamp => false
  }

  /** The first state of the page at time `now`. */
  function InitialState(m: MathLib, now: int, cache: Cache): (s: TournamentState)
    requires Positive(m)
    ensures cache.Stored? && CacheAccepted(now, cache.stamp) ==> s == cache.state
    ensures !(cache.Stored? && CacheAccepted(now, cache.stamp)) ==> s == Initialize(m)
  {
    if cache.Stored? && CacheAccepted(now, cache.stamp) then cache.state else Initialize(m)
  }

  /** The first state is consistent whenever the cache it may come from is. */
  lemma InitialStateConsistent(m: MathLib, now: int, cache: Cache)
    requires Positive(m)
    requires cache.Stored? ==> Consistent(cache.state)
    ensures Consistent(InitialState(m, now, cache))
  {
    InitializeConsistent(m);
  }

  /** The state after a sync with the fetched data. */
  function SyncState(m: MathLib, prev: TournamentState, result: CricketData): (s: TournamentState)
    requires Positive(m) && WellFormedStandings(prev.standings)
    ensures WellFormedStandings(s.standings)
    ensures s.standings == UpdateStandingsFromAPI(prev.standings, Some(result.teams))
    ensures s.matches == SimulateTournament(m, s.standings, UpdateMatchFromLive(prev.matches, result.liveMatch))
    ensures s.volatilityIndex == Volatility(s.standings)
    ensures s.predictedChampion == PredictedChampion(s.matches, prev.predictedChampion)
    ensures s.confidenceScore == ConfidenceScore(s.matches)
  {
    var standings := UpdateStandingsFromAPI(prev.standings, Some(result.teams));
    UpdateStandingsKeepsWellFormed(prev.standings, Some(result.teams));
    Rebuild(m, standings, UpdateMatchFromLive(prev.matches, result.liveMatch), prev.predictedChampion,
            Volatility(standings))
  }

  /** `handleManualWinner`'s `map`: the match with the given id becomes
      Completed with that winner; every other match is left as it is. */
  function ManualWinnerMatches(ms: seq<Match>, id: string, winner: string): (r: seq<Match>)
    ensures |r| == |ms|
    ensures forall i :: 0 <= i < |ms| && ms[i].id == id ==>
              r[i] == ms[i].(status := Completed, winner := Some(winner))
    ensures forall i :: 0 <= i < |ms| && ms[i].id != id ==> r[i] == ms[i]
  {
    seq(|ms|, i requires 0 <= i < |ms| =>
      if ms[i].id == id then ms[i].(status := Completed, winner := Some(winner)) else ms[i])
  }

  /** The state after a result is entered by hand; standings and volatility stay. */
  function ManualWinnerState(m: MathLib, prev: TournamentState, id: string, winner: string): (s: TournamentState)
    requires Positive(m) && WellFormedStandings(prev.standings)
    ensures s.standings == prev.standings && s.volatilityIndex == prev.volatilityIndex
    ensures s.matches == SimulateTournament(m, prev.standings, ManualWinnerMatches(prev.matches, id, winner))
    ensures s.predictedChampion == PredictedChampion(s.matches, prev.predictedChampion)
    ensures s.confidenceScore == ConfidenceScore(s.matches)
  {
    Rebuild(m, prev.standings, ManualWinnerMatches(prev.matches, id, winner), prev.predictedChampion,
            prev.volatilityIndex)
  }

  /** A schedule whose predictions are those of a valid one is valid too. */
  lemma SamePredictionsValid(a: seq<Match>, b: seq<Match>)
    requires PredictionsValid(a) && |a| == |b|
    requires forall i :: 0 <= i < |a| ==> b[i].prediction == a[i].prediction
    ensures PredictionsValid(b)
  {
    forall x | x in b && x.prediction.Some?
      ensures ValidPrediction(x.prediction.value)
    {
      var i :| 0 <= i < |b| && b[i] == x;
      assert a[i] in a;
    }
  }

  /** A sync keeps the state consistent. */
  lemma SyncKeepsConsistent(m: MathLib, prev: TournamentState, result: CricketData)
    requires Positive(m) && Consistent(prev)
    ensures Consistent(SyncState(m, prev, result))
  {
    var standings := UpdateStandingsFromAPI(prev.standings, Some(result.teams));
    UpdateStandingsKeepsWellFormed(prev.standings, Some(result.teams));
    var live := UpdateMatchFromLive(prev.matches, result.liveMatch);
    SamePredictionsValid(prev.matches, live);
    RebuildConsistent(m, standings, live, prev.predictedChampion, Volatility(standings));
  }

  /** A manual result keeps the state consistent. */
  lemma ManualWinnerKeepsConsistent(m: MathLib, prev: TournamentState, id: string, winner: string)
    requires Positive(m) && Consistent(prev)
    ensures Consistent(ManualWinnerState(m, prev, id, winner))
  {
    var ms := ManualWinnerMatches(prev.matches, id, winner);
    SamePredictionsValid(prev.matches, ms);
    RebuildConsistent(m, prev.standings, ms, prev.predictedChampion, prev.volatilityIndex);
  }

  /** The decided match is Completed, so the prediction pass leaves it alone:
      it keeps whatever prediction it had before the result was entered. */
  lemma ManualWinnerKeepsStalePrediction(m: MathLib, prev: TournamentState, id: string, winner: string, i: int)
    requires Positive(m) && WellFormedStandings(prev.standings)
    requires 0 <= i < |prev.matches| && prev.matches[i].id == id
    ensures var s := ManualWinnerState(m, prev, id, winner);
            s.matches[i] == prev.matches[i].(status := Completed, winner := Some(winner)) &&
            s.matches[i].prediction == prev.matches[i].prediction
  {}

  /** Entering the winner of the Final does not make that team champion: the
      champion still follows the Final's earlier prediction (or the previous
      champion when it had none), whoever is entered as winner. */
  lemma ManualFinalIgnoresWinner(m: MathLib, prev: TournamentState, winner: string, i: int)
    requires Positive(m) && WellFormedStandings(prev.standings)
    requires 0 <= i < |prev.matches| && prev.matches[i].stage == Final
    requires forall j :: 0 <= j < i ==> prev.matches[j].stage != Final
    ensures var x := prev.matches[i];
            var s := ManualWinnerState(m, prev, x.id, winner);
            (x.prediction.Some? ==>
               s.predictedChampion == Some(if x.prediction.value.team1WinProb > 0.5 then x.team1 else x.team2)) &&
            (x.prediction.None? ==> s.predictedChampion == prev.predictedChampion)
  {
    var x := prev.matches[i];
    var ms := ManualWinnerMatches(prev.matches, x.id, winner);
    assert ms[i] == x.(status := Completed, winner := Some(winner));
    assert forall j :: 0 <= j < i ==> ms[j].stage == prev.matches[j].stage;
    SimulateKeepsFirstFinal(m, prev.standings, ms, i);
  }

  /** A sync on data with no live match changes no match before the
      prediction pass. */
  lemma SyncWithoutLiveMatch(m: MathLib, prev: TournamentState, result: CricketData)
    requires Positive(m) && WellFormedStandings(prev.standings)
    requires result.liveMatch.None? || !result.liveMatch.value.isLive
    ensures SyncState(m, prev, result).matches == SimulateTournament(m, SyncState(m, prev, result).standings, prev.matches)
  {}

  // ---------------------------------------------------------------------------
  // The seed state
  // ---------------------------------------------------------------------------

  /** The seed standings are spread far enough apart that volatility sits at its floor. */
  lemma InitialVolatilityIsFloor()
    ensures Volatility(InitialTeams) == 10.0
  {
    assert RCBStats.name == RCB && GGStats.name != RCB && MIStats.name != RCB &&
           DCStats.name != RCB && UPWStats.name != RCB;
    var race := [GGStats, MIStats, DCStats, UPWStats];
    assert InitialTeams[1..] == race;
    RaceOfNonRCB(race);
    assert RaceTeams(InitialTeams) == race;
    assert race[..3][..2] == [GGStats, MIStats];
    assert race[..3] == [GGStats, MIStats, DCStats];
    assert [GGStats, MIStats][..1] == [GGStats];
    assert Spread([GGStats, MIStats]) == Gap(GGStats, MIStats);
    assert Spread(race[..3]) == Gap(GGStats, MIStats) + Gap(MIStats, DCStats);
    assert Spread(race) == Gap(GGStats, MIStats) + Gap(MIStats, DCStats) + Gap(DCStats, UPWStats);
    assert Gap(GGStats, MIStats) > 5.0;
  }

  /** The seed standings resolve the Final's two teams to their own records. */
  lemma SeedFinalTeams()
    ensures FindTeam(InitialTeams, RCB) == Some(RCBStats)
    ensures FindTeam(InitialTeams, GG) == Some(GGStats)
  {
    InitialTeamNamesDistinct();
    assert InitialTeams[0] == RCBStats && InitialTeams[1] == GGStats;
    assert RCBStats in InitialTeams && GGStats in InitialTeams;
  }

  /** The prediction pass keeps every stage, so the first Final stays where it was. */
  lemma SimulateKeepsFirstFinal(m: MathLib, teams: seq<TeamStats>, ms: seq<Match>, i: int)
    requires Positive(m) && WellFormedStandings(teams)
    requires 0 <= i < |ms| && ms[i].stage == Final && forall j :: 0 <= j < i ==> ms[j].stage != Final
    ensures FinalMatch(SimulateTournament(m, teams, ms)) == Some(SimulateMatch(m, teams, ms[i]))
  {
    var sim := SimulateTournament(m, teams, ms);
    forall j | 0 <= j <= i
      ensures sim[j].stage == ms[j].stage
    {
      SimulateTournamentSpec(m, teams, ms, j);
    }
    FirstIndexIs(sim, IsFinal, i);
  }

  /** In the seed state the first Final is the RCB–GG match, with the
      prediction the engine makes for it from the seed standings. */
  lemma InitialFinalPrediction(m: MathLib)
    requires Positive(m)
    ensures FinalMatch(Initialize(m).matches) ==
              Some(FinalMatchFixture.(prediction := Some(PredictionFor(m, RCBStats, GGStats, FinalMatchFixture))))
  {
    InitialTeamsWellFormed();
    SeedFinalTeams();
    assert InitialMatches[2] == FinalMatchFixture;
    assert InitialMatches[0].stage == League && InitialMatches[1].stage == Eliminator;
    SimulateKeepsFirstFinal(m, InitialTeams, InitialMatches, 2);
  }

  /** The engine's logit for the seed Final: the capped aggregate strengths
      (0.92 and 0.86), equal recent form, and RCB's better death bowling. */
  lemma InitialFinalLogit()
    ensures CalculateXIStrength(None, Some(RCBStats)) == 0.92
    ensures CalculateXIStrength(None, Some(GGStats)) == 0.86
    ensures LogRegLogit(RCBStats, GGStats, Final, None, 0.92, 0.86) == 0.762
  {
    assert Wins(RCBStats.recentForm) == 4 && Wins(GGStats.recentForm) == 4;
    assert WinFraction(RCBStats.recentForm) == 0.8 && WinFraction(GGStats.recentForm) == 0.8;
  }

  /** From the seed data the Final between RCB and GG is predicted for RCB, with
      a confidence of at least 50: RCB's logit (0.762) lies above the Platt
      break-even point and its Elo rating is the higher one. */
  lemma InitialChampionIsRCB(m: MathLib)
    requires ValidMath(m)
    ensures Initialize(m).predictedChampion == Some(RCB)
    ensures Initialize(m).confidenceScore >= 50
  {
    InitialFinalPrediction(m);
    InitialFinalLogit();
    var p := PredictionFor(m, RCBStats, GGStats, FinalMatchFixture);
    assert Team1XI(FinalMatchFixture) == None && Team2XI(FinalMatchFixture) == None;
    assert p.xiStrengthIndex.t1 == 0.92 && p.xiStrengthIndex.t2 == 0.86;
    PlattAboveHalf(m, 0.762);
    EloEvenAndFavoursStronger(m, RCBStats.elo, GGStats.elo);
    assert p.team1WinProb > 0.5;
  }
}
