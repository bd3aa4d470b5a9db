/** The prediction engine (src/predictionEngine.ts): lineup strength, the
    weighted logit with its night/dew and live-chase penalties, Platt scaling,
    the logistic/Elo ensemble, the volatility index and the per-match
    prediction pass over the schedule. */
module PredictionEngine {
  import opened Base
  import opened Types

  /** The floating-point runtime the engine calls into: `Math.exp`,
      `Math.pow(10, x)` and `Number.prototype.toFixed`. They are parameters,
      constrained by `Positive` and `ValidMath` where a property needs it. */
  datatype MathLib = MathLib(exp: real -> real, pow10: real -> real, toFixed: (real, nat) -> string)

  /** Both exponentials are positive, so `1 / (1 + e)` is defined. */
  ghost predicate Positive(m: MathLib)
  {
    (forall x :: m.exp(x) > 0.0) && (forall x :: m.pow10(x) > 0.0)
  }

  /** What the proofs assume of the exponentials: positive, one at zero, and
      strictly increasing, as the real functions e^x and 10^x are. */
  ghost predicate ValidMath(m: MathLib)
  {
    Positive(m) && m.exp(0.0) == 1.0 && m.pow10(0.0) == 1.0 &&
    (forall x, y :: x < y ==> m.exp(x) < m.exp(y)) &&
    (forall x, y :: x < y ==> m.pow10(x) < m.pow10(y))
  }

  /** A positive, strictly increasing function that is one at zero. */
  function RisingPositive(x: real): (r: real)
    ensures r > 0.0
  {
    if x >= 0.0 then 1.0 + x else 1.0 / (1.0 - x)
  }

  lemma RisingPositiveIncreasing(x: real, y: real)
    requires x < y
    ensures RisingPositive(x) < RisingPositive(y)
  {
    if x < 0.0 && y >= 0.0 {
      assert 1.0 / (1.0 - x) < 1.0;
    } else if y < 0.0 {
      var a, b := 1.0 - x, 1.0 - y;
      assert a > b > 1.0;
      assert 1.0 / b - 1.0 / a == (a - b) / (a * b);
      assert a * b > 0.0;
    }
  }

  /** The assumptions of ValidMath can be met, so no lemma requiring it is vacuous. */
  lemma ValidMathSatisfiable()
    ensures exists m :: ValidMath(m)
  {
    var m := MathLib(RisingPositive, RisingPositive, (x: real, d: nat) => "");
    forall x, y | x < y
      ensures m.exp(x) < m.exp(y) && m.pow10(x) < m.pow10(y)
    {
      RisingPositiveIncreasing(x, y);
    }
    assert ValidMath(m);
  }

  const DewPenaltyLogit: real := 0.45
  const PlattA: real := -1.15
  const PlattB: real := 0.03

  // ---------------------------------------------------------------------------
  // Lineup strength
  // ---------------------------------------------------------------------------

  /** `p.recentFormIndex || 0.7`: a zero form index counts as 0.7. */
  function FormOrDefault(p: Player): real
  {
    if p.recentFormIndex != 0.0 then p.recentFormIndex else 0.7
  }

  /** The `reduce` over the roster. */
  function FormSum(players: seq<Player>): real
  {
    if players == [] then 0.0 else FormOrDefault(players[0]) + FormSum(players[1..])
  }

  lemma {:induction false} FormSumAppend(a: seq<Player>, b: seq<Player>)
    ensures FormSum(a + b) == FormSum(a) + FormSum(b)
  {
    if a != [] {
      assert (a + b)[1..] == a[1..] + b;
      FormSumAppend(a[1..], b);
    } else {
      assert a + b == b;
    }
  }

  /** The strength from team aggregates alone: 0.75 without statistics. */
  function BaseStrength(teamStats: Option<TeamStats>): real
    requires teamStats.Some? ==> WellFormedTeam(teamStats.value)
  {
    match teamStats
    case None => 0.75
    case Some(t) => 0.60 + (t.elo - 1500.0) / 1000.0 + WinFraction(t.recentForm) * 0.15
  }

  /** The roster blend before the clamp and the full-lineup bonus. */
  function RosterBlend(players: seq<Player>, teamStats: Option<TeamStats>): real
    requires |players| > 0
    requires teamStats.Some? ==> WellFormedTeam(teamStats.value)
  {
    (FormSum(players) / |players| as real) * 0.6 + BaseStrength(teamStats) * 0.4
  }

  /** `calculateXIStrength`. With a roster the value lies in [0.4, 0.98]; without
      one it is the aggregate strength capped at 0.92, with no lower clamp. */
  function CalculateXIStrength(players: Option<seq<Player>>, teamStats: Option<TeamStats>): (r: real)
    requires teamStats.Some? ==> WellFormedTeam(teamStats.value)
    ensures players.Some? && |players.value| > 0 ==> 0.4 <= r <= 0.98
    ensures players.None? || |players.value| == 0 ==> r <= 0.92
  {
    if players.None? || |players.value| == 0 then Min(0.92, BaseStrength(teamStats))
    else
      var balanceBonus := if |players.value| >= 11 then 0.08 else 0.0;
      Clamp(0.4, 0.98, RosterBlend(players.value, teamStats) + balanceBonus)
  }

  /** Without a roster the aggregate strength is returned as is up to 0.92. */
  lemma XIStrengthWithoutRoster(players: Option<seq<Player>>, teamStats: Option<TeamStats>)
    requires teamStats.Some? ==> WellFormedTeam(teamStats.value)
    requires players.None? || |players.value| == 0
    ensures BaseStrength(teamStats) <= 0.92 ==> CalculateXIStrength(players, teamStats) == BaseStrength(teamStats)
    ensures BaseStrength(teamStats) > 0.92 ==> CalculateXIStrength(players, teamStats) == 0.92
    ensures teamStats.None? ==> CalculateXIStrength(players, teamStats) == 0.75
  {}

  /** The roster-less branch has no lower clamp: a weak team falls below 0.4. */
  lemma XIStrengthNoLowerClampWithoutRoster()
    ensures CalculateXIStrength(None, Some(TeamStats("X", 0, 0, 0, 0.0, 0, 1200.0, [L], 0.0, 0.0))) < 0.4
  {
    assert WinFraction([L]) == 0.0;
  }

  /** Order of the roster does not matter. */
  lemma XIStrengthRosterOrder(a: seq<Player>, b: seq<Player>, teamStats: Option<TeamStats>)
    requires teamStats.Some? ==> WellFormedTeam(teamStats.value)
    ensures CalculateXIStrength(Some(a + b), teamStats) == CalculateXIStrength(Some(b + a), teamStats)
  {
    FormSumAppend(a, b);
    FormSumAppend(b, a);
  }

  /** A player whose form index is 0 counts exactly as a player at 0.7. */
  lemma {:induction false} XIStrengthZeroFormCountsAsDefault(a: seq<Player>, p: Player, b: seq<Player>, teamStats: Option<TeamStats>)
    requires teamStats.Some? ==> WellFormedTeam(teamStats.value)
    requires p.recentFormIndex == 0.0
    ensures CalculateXIStrength(Some(a + [p] + b), teamStats) ==
            CalculateXIStrength(Some(a + [p.(recentFormIndex := 0.7)] + b), teamStats)
  {
    var q := p.(recentFormIndex := 0.7);
    FormSumAppend(a + [p], b);
    FormSumAppend(a, [p]);
    FormSumAppend(a + [q], b);
    FormSumAppend(a, [q]);
    assert FormSum([p]) == 0.7 + FormSum([]);
    assert FormSum([q]) == 0.7 + FormSum([]);
  }

  /** Of two rosters with the same average form, the one with at least 11 names
      is never weaker, and is exactly 0.08 stronger away from the clamp bounds. */
  lemma XIStrengthFullLineupBonus(short: seq<Player>, full: seq<Player>, teamStats: Option<TeamStats>)
    requires teamStats.Some? ==> WellFormedTeam(teamStats.value)
    requires 0 < |short| < 11 <= |full|
    requires FormSum(short) / |short| as real == FormSum(full) / |full| as real
    ensures CalculateXIStrength(Some(short), teamStats) <= CalculateXIStrength(Some(full), teamStats)
    ensures 0.4 <= RosterBlend(short, teamStats) && RosterBlend(short, teamStats) + 0.08 <= 0.98 ==>
            CalculateXIStrength(Some(full), teamStats) == CalculateXIStrength(Some(short), teamStats) + 0.08
  {
    assert RosterBlend(short, teamStats) == RosterBlend(full, teamStats);
    ClampMonotone(0.4, 0.98, RosterBlend(short, teamStats), RosterBlend(full, teamStats) + 0.08);
  }

  // ---------------------------------------------------------------------------
  // Calibrated logistic and Elo estimates
  // ---------------------------------------------------------------------------

  lemma ReciprocalInUnit(d: real)
    requires d > 1.0
    ensures 0.0 < 1.0 / d < 1.0
  {}

  lemma ReciprocalAntitone(d: real, e: real)
    requires 0.0 < d < e
    ensures 1.0 / e < 1.0 / d
  {}

  /** `plattScaling`: always strictly between 0 and 1 (the NaN guard never fires). */
  function PlattScaling(m: MathLib, logit: real): (r: real)
    requires Positive(m)
    ensures 0.0 < r < 1.0
  {
    var e := m.exp(PlattA * logit + PlattB);
    ReciprocalInUnit(1.0 + e);
    1.0 / (1.0 + e)
  }

  /** Platt scaling is strictly increasing in the logit, because A < 0. */
  lemma PlattIncreasing(m: MathLib, x: real, y: real)
    requires ValidMath(m)
    requires x < y
    ensures PlattScaling(m, x) < PlattScaling(m, y)
  {
    assert PlattA * y + PlattB < PlattA * x + PlattB;
    var ex, ey := m.exp(PlattA * x + PlattB), m.exp(PlattA * y + PlattB);
    assert ey < ex;
    ReciprocalAntitone(1.0 + ey, 1.0 + ex);
  }

  /** Above logit B/|A| the calibrated estimate favours team 1; at logit 0 it does not. */
  lemma PlattAboveHalf(m: MathLib, x: real)
    requires ValidMath(m)
    ensures x > 0.03 / 1.15 ==> PlattScaling(m, x) > 0.5
    ensures x <= 0.03 / 1.15 ==> PlattScaling(m, x) <= 0.5
  {
    var arg := PlattA * x + PlattB;
    var e := m.exp(arg);
    if x > 0.03 / 1.15 {
      assert arg < 0.0;
      assert e < m.exp(0.0);
      ReciprocalAntitone(1.0 + e, 2.0);
    } else {
      assert arg >= 0.0;
      if arg > 0.0 {
        assert e > m.exp(0.0);
        ReciprocalAntitone(2.0, 1.0 + e);
      }
    }
  }

  /** The Elo estimate `1 / (1 + 10^((elo2 - elo1) / 400))`. */
  function EloProb(m: MathLib, elo1: real, elo2: real): (r: real)
    requires Positive(m)
    ensures 0.0 < r < 1.0
  {
    var e := m.pow10((elo2 - elo1) / 400.0);
    ReciprocalInUnit(1.0 + e);
    1.0 / (1.0 + e)
  }

  /** Equal ratings give an even Elo estimate; a higher rating for team 1 favours it. */
  lemma EloEvenAndFavoursStronger(m: MathLib, elo1: real, elo2: real)
    requires ValidMath(m)
    ensures elo1 == elo2 ==> EloProb(m, elo1, elo2) == 0.5
    ensures elo1 > elo2 ==> EloProb(m, elo1, elo2) > 0.5
  {
    var arg := (elo2 - elo1) / 400.0;
    if elo1 > elo2 {
      assert arg < 0.0;
      assert m.pow10(arg) < m.pow10(0.0);
      ReciprocalAntitone(1.0 + m.pow10(arg), 2.0);
    }
  }

  // ---------------------------------------------------------------------------
  // The logit
  // ---------------------------------------------------------------------------

  /** `pressure_map[stage] || 0.4`: between 0.4 and 1.0, the full weight only
      for the Final, and the League weight for every undeclared stage. */
  function PressureIndex(stage: Stage): (r: real)
    ensures 0.4 <= r <= 1.0
    ensures r == 1.0 <==> stage == Final
    ensures stage == League || stage.OtherStage? ==> r == 0.4
  {
    match stage
    case Final => 1.0
    case Eliminator => 0.8
    case League => 0.4
    case OtherStage(_) => 0.4
  }

  /** The three weighted differentials, before any penalty. */
  function FeatureLogit(t1: TeamStats, t2: TeamStats, stage: Stage, s1: real, s2: real): real
    requires WellFormedTeam(t1) && WellFormedTeam(t2)
  {
    (s1 - s2) * 4.2
    + (WinFraction(t1.recentForm) - WinFraction(t2.recentForm)) * 2.5
    + PressureIndex(stage) * (t1.deathBowlingStrength - t2.deathBowlingStrength) * 3.0
  }

  /** `live?.dewLikelihood || 0.7`. */
  function DewOrDefault(live: LiveMetrics): real
  {
    if live.dewLikelihood != 0.0 then live.dewLikelihood else 0.7
  }

  /** The night/dew penalty: 0.45 times the dew likelihood on a night match. */
  function DewPenalty(live: Option<LiveMetrics>): (r: real)
    ensures live.None? || !live.value.isNightMatch ==> r == 0.0
    ensures live.Some? && live.value.isNightMatch && live.value.dewLikelihood >= 0.0 ==> r > 0.0
  {
    if live.Some? && live.value.isNightMatch then DewPenaltyLogit * DewOrDefault(live.value) else 0.0
  }

  /** The live-chase penalty, only while balls are left:
      (requiredRR - currentRR) * (120 / ballsLeft) * 0.6 + 0.45 * wicketsLost. */
  function ChasePenalty(live: Option<LiveMetrics>): (r: real)
    ensures live.None? || live.value.ballsLeft <= 0.0 ==> r == 0.0
  {
    if live.Some? && live.value.ballsLeft > 0.0 then
      (live.value.requiredRR - live.value.currentRR) * (120.0 / live.value.ballsLeft) * 0.6
      + live.value.wicketsLost * 0.45
    else 0.0
  }

  /** The value `getLogRegLogit` returns. An empty recent form makes a momentum
      0/0, a NaN that survives every later update, so the guard returns 0. */
  function LogRegLogit(t1: TeamStats, t2: TeamStats, stage: Stage, live: Option<LiveMetrics>, s1: real, s2: real): (r: real)
    ensures |t1.recentForm| == 0 || |t2.recentForm| == 0 ==> r == 0.0
    ensures t1 == t2 && s1 == s2 && live.None? ==> r == 0.0
    ensures WellFormedTeam(t1) && WellFormedTeam(t2) && live.None? ==> r == FeatureLogit(t1, t2, stage, s1, s2)
  {
    if |t1.recentForm| == 0 || |t2.recentForm| == 0 then 0.0
    else FeatureLogit(t1, t2, stage, s1, s2) - DewPenalty(live) - ChasePenalty(live)
  }

  /** `getLogRegLogit`, with its successive updates of `logit`. The `venue`
      argument of the source is never read and is not a parameter here. */
  method GetLogRegLogit(t1: TeamStats, t2: TeamStats, stage: Stage, live: Option<LiveMetrics>,
                        xiStrengthT1: real, xiStrengthT2: real) returns (logit: real)
    ensures logit == LogRegLogit(t1, t2, stage, live, xiStrengthT1, xiStrengthT2)
  {
    if |t1.recentForm| == 0 || |t2.recentForm| == 0 {
      return 0.0;
    }
    var momentumT1 := Wins(t1.recentForm) as real / |t1.recentForm| as real;
    var momentumT2 := Wins(t2.recentForm) as real / |t2.recentForm| as real;
    var pressureIndex := PressureIndex(stage);

    var fXi := (xiStrengthT1 - xiStrengthT2) * 4.2;
    var fMomentum := (momentumT1 - momentumT2) * 2.5;
    var fPressure := pressureIndex * (t1.deathBowlingStrength - t2.deathBowlingStrength) * 3.0;

    logit := fXi + fMomentum + fPressure;
    assert momentumT1 == WinFraction(t1.recentForm) && momentumT2 == WinFraction(t2.recentForm);
    assert logit == FeatureLogit(t1, t2, stage, xiStrengthT1, xiStrengthT2);

    if live.Some? && live.value.isNightMatch {
      var dewLikelihood := if live.value.dewLikelihood != 0.0 then live.value.dewLikelihood else 0.7;
      logit := logit - DewPenaltyLogit * dewLikelihood;
    }
    assert logit == FeatureLogit(t1, t2, stage, xiStrengthT1, xiStrengthT2) - DewPenalty(live);

    ghost var beforeChase := logit;
    if live.Some? && live.value.ballsLeft > 0.0 {
      var rrr := live.value.requiredRR;
      var crr := live.value.currentRR;
      var ballsLeft := live.value.ballsLeft;
      InverseOfRate(ballsLeft);
      var chasePressure := (rrr - crr) * (1.0 / (ballsLeft / 120.0)) * 0.6;
      assert chasePressure + live.value.wicketsLost * 0.45 == ChasePenalty(live);
      logit := logit - (chasePressure + live.value.wicketsLost * 0.45);
    }
    assert logit == beforeChase - ChasePenalty(live);
  }

  /** `1 / (ballsLeft / 120)` is `120 / ballsLeft`. */
  lemma InverseOfRate(b: real)
    requires b > 0.0
    ensures 1.0 / (b / 120.0) == 120.0 / b
  {}

  /** On a night match the logit is lower by exactly 0.45 times the dew
      likelihood (0.7 when that is 0) than on the same match by day. */
  lemma NightMatchDewPenalty(t1: TeamStats, t2: TeamStats, stage: Stage, live: LiveMetrics, s1: real, s2: real)
    requires WellFormedTeam(t1) && WellFormedTeam(t2)
    requires live.isNightMatch
    ensures LogRegLogit(t1, t2, stage, Some(live), s1, s2) ==
            LogRegLogit(t1, t2, stage, Some(live.(isNightMatch := false)), s1, s2)
            - 0.45 * (if live.dewLikelihood == 0.0 then 0.7 else live.dewLikelihood)
  {
    var day := live.(isNightMatch := false);
    assert ChasePenalty(Some(day)) == ChasePenalty(Some(live));
    assert DewPenalty(Some(day)) == 0.0;
    assert DewPenalty(Some(live)) == 0.45 * DewOrDefault(live);
  }

  /** While balls are left the logit is lower by the chase pressure plus 0.45 per
      wicket than with no balls left; with no balls left nothing is subtracted. */
  lemma LiveChasePenalty(t1: TeamStats, t2: TeamStats, stage: Stage, live: LiveMetrics, s1: real, s2: real)
    requires WellFormedTeam(t1) && WellFormedTeam(t2)
    ensures live.ballsLeft > 0.0 ==>
            LogRegLogit(t1, t2, stage, Some(live), s1, s2) ==
            LogRegLogit(t1, t2, stage, Some(live.(ballsLeft := 0.0)), s1, s2)
            - ((live.requiredRR - live.currentRR) * (120.0 / live.ballsLeft) * 0.6 + 0.45 * live.wicketsLost)
    ensures live.ballsLeft <= 0.0 && !live.isNightMatch ==>
            LogRegLogit(t1, t2, stage, Some(live), s1, s2) == LogRegLogit(t1, t2, stage, None, s1, s2)
  {
    var spent := live.(ballsLeft := 0.0);
    assert DewPenalty(Some(spent)) == DewPenalty(Some(live));
    assert ChasePenalty(Some(spent)) == 0.0;
    if live.ballsLeft > 0.0 {
      var chase := (live.requiredRR - live.currentRR) * (120.0 / live.ballsLeft) * 0.6;
      assert ChasePenalty(Some(live)) == chase + live.wicketsLost * 0.45;
      assert live.wicketsLost * 0.45 == 0.45 * live.wicketsLost;
    }
  }

  /** The chase penalty grows with the wickets lost and with the required rate. */
  lemma ChasePenaltyMonotone(live: LiveMetrics, wickets: real, requiredRR: real)
    requires live.ballsLeft > 0.0
    requires wickets >= live.wicketsLost && requiredRR >= live.requiredRR
    ensures ChasePenalty(Some(live)) <= ChasePenalty(Some(live.(wicketsLost := wickets, requiredRR := requiredRR)))
  {
    var k := 120.0 / live.ballsLeft;
    assert k > 0.0;
    var worse := live.(wicketsLost := wickets, requiredRR := requiredRR);
    MultiplyMonotone(live.requiredRR - live.currentRR, requiredRR - live.currentRR, k);
    assert ChasePenalty(Some(live)) == (live.requiredRR - live.currentRR) * k * 0.6 + live.wicketsLost * 0.45;
    assert ChasePenalty(Some(worse)) == (requiredRR - live.currentRR) * k * 0.6 + wickets * 0.45;
  }

  lemma MultiplyMonotone(a: real, b: real, k: real)
    requires a <= b && k > 0.0
    ensures a * k <= b * k
  {}

  /** With no live metrics, swapping the teams and their strengths negates the logit. */
  lemma LogitAntisymmetric(t1: TeamStats, t2: TeamStats, stage: Stage, s1: real, s2: real)
    ensures LogRegLogit(t2, t1, stage, None, s2, s1) == -LogRegLogit(t1, t2, stage, None, s1, s2)
  {}

  // ---------------------------------------------------------------------------
  // The ensemble
  // ---------------------------------------------------------------------------

  function Team1XI(x: Match): Option<seq<Player>>
  {
    if x.playingXI.Some? then Some(x.playingXI.value.team1) else None
  }

  function Team2XI(x: Match): Option<seq<Player>>
  {
    if x.playingXI.Some? then Some(x.playingXI.value.team2) else None
  }

  /** The ensemble for given lineup strengths: 0.75 logistic + 0.25 Elo, clamped. */
  function EnsembleFromStrengths(m: MathLib, t1: TeamStats, t2: TeamStats, x: Match, s1: real, s2: real): (r: real)
    requires Positive(m)
    ensures 0.01 <= r <= 0.99
  {
    var pLogreg := PlattScaling(m, LogRegLogit(t1, t2, x.stage, x.liveMetrics, s1, s2));
    var pElo := EloProb(m, t1.elo, t2.elo);
    Clamp(0.01, 0.99, pLogreg * 0.75 + pElo * 0.25)
  }

  /** `calculateEnsembleProb`: always within [0.01, 0.99]. */
  function CalculateEnsembleProb(m: MathLib, t1: TeamStats, t2: TeamStats, x: Match): (r: real)
    requires Positive(m) && WellFormedTeam(t1) && WellFormedTeam(t2)
    ensures 0.01 <= r <= 0.99
  {
    EnsembleFromStrengths(m, t1, t2, x,
      CalculateXIStrength(Team1XI(x), Some(t1)), CalculateXIStrength(Team2XI(x), Some(t2)))
  }

  /** A lower logit never gives a higher ensemble probability. */
  lemma {:induction false} EnsembleMonotoneInLogit(m: MathLib, t1: TeamStats, t2: TeamStats, x: Match, y: Match, s1: real, s2: real)
    requires ValidMath(m)
    requires LogRegLogit(t1, t2, x.stage, x.liveMetrics, s1, s2) <= LogRegLogit(t1, t2, y.stage, y.liveMetrics, s1, s2)
    ensures EnsembleFromStrengths(m, t1, t2, x, s1, s2) <= EnsembleFromStrengths(m, t1, t2, y, s1, s2)
  {
    var lx := LogRegLogit(t1, t2, x.stage, x.liveMetrics, s1, s2);
    var ly := LogRegLogit(t1, t2, y.stage, y.liveMetrics, s1, s2);
    if lx < ly {
      PlattIncreasing(m, lx, ly);
    }
    var pElo := EloProb(m, t1.elo, t2.elo);
    ClampMonotone(0.01, 0.99, PlattScaling(m, lx) * 0.75 + pElo * 0.25, PlattScaling(m, ly) * 0.75 + pElo * 0.25);
  }

  /** A night match never has a higher team-1 probability than the same match by day. */
  lemma NightMatchNeverRaisesProb(m: MathLib, t1: TeamStats, t2: TeamStats, x: Match, live: LiveMetrics)
    requires ValidMath(m) && WellFormedTeam(t1) && WellFormedTeam(t2)
    requires x.liveMetrics == Some(live) && live.isNightMatch && live.dewLikelihood >= 0.0
    ensures CalculateEnsembleProb(m, t1, t2, x) <=
            CalculateEnsembleProb(m, t1, t2, x.(liveMetrics := Some(live.(isNightMatch := false))))
  {
    var day := x.(liveMetrics := Some(live.(isNightMatch := false)));
    var s1 := CalculateXIStrength(Team1XI(x), Some(t1));
    var s2 := CalculateXIStrength(Team2XI(x), Some(t2));
    assert Team1XI(day) == Team1XI(x) && Team2XI(day) == Team2XI(x);
    NightMatchDewPenalty(t1, t2, x.stage, live, s1, s2);
    EnsembleMonotoneInLogit(m, t1, t2, x, day, s1, s2);
  }

  /** Each extra wicket lost in a live chase never raises team 1's probability. */
  lemma WicketsNeverRaiseProb(m: MathLib, t1: TeamStats, t2: TeamStats, x: Match, live: LiveMetrics, wickets: real)
    requires ValidMath(m) && WellFormedTeam(t1) && WellFormedTeam(t2)
    requires x.liveMetrics == Some(live) && live.ballsLeft > 0.0 && wickets >= live.wicketsLost
    ensures CalculateEnsembleProb(m, t1, t2, x.(liveMetrics := Some(live.(wicketsLost := wickets)))) <=
            CalculateEnsembleProb(m, t1, t2, x)
  {
    var worse := x.(liveMetrics := Some(live.(wicketsLost := wickets)));
    var s1 := CalculateXIStrength(Team1XI(x), Some(t1));
    var s2 := CalculateXIStrength(Team2XI(x), Some(t2));
    assert Team1XI(worse) == Team1XI(x) && Team2XI(worse) == Team2XI(x);
    ChasePenaltyMonotone(live, wickets, live.requiredRR);
    assert live.(wicketsLost := wickets, requiredRR := live.requiredRR) == live.(wicketsLost := wickets);
    EnsembleMonotoneInLogit(m, t1, t2, worse, x, s1, s2);
  }

  /** Two identical teams with no live metrics: the positive Platt offset B tilts
      the estimate below one half, towards team 2. */
  lemma IdenticalTeamsTiltToTeam2(m: MathLib, t: TeamStats, x: Match, s: real)
    requires ValidMath(m)
    ensures EnsembleFromStrengths(m, t, t, x.(liveMetrics := None), s, s) < 0.5
  {
    var y := x.(liveMetrics := None);
    assert LogRegLogit(t, t, y.stage, y.liveMetrics, s, s) == 0.0;
    PlattAboveHalf(m, 0.0);
    assert m.exp(PlattB) > m.exp(0.0);
    ReciprocalAntitone(2.0, 1.0 + m.exp(PlattB));
    EloEvenAndFavoursStronger(m, t.elo, t.elo);
  }

  /** A logit above B/|A| and an Elo rating at least as high put team 1 ahead. */
  lemma EnsembleFavoursTeam1(m: MathLib, t1: TeamStats, t2: TeamStats, x: Match, s1: real, s2: real)
    requires ValidMath(m)
    requires LogRegLogit(t1, t2, x.stage, x.liveMetrics, s1, s2) > 0.03 / 1.15
    requires t1.elo >= t2.elo
    ensures EnsembleFromStrengths(m, t1, t2, x, s1, s2) > 0.5
  {
    PlattAboveHalf(m, LogRegLogit(t1, t2, x.stage, x.liveMetrics, s1, s2));
    EloEvenAndFavoursStronger(m, t1.elo, t2.elo);
  }

  // ---------------------------------------------------------------------------
  // Volatility
  // ---------------------------------------------------------------------------

  predicate IsRaceTeam(t: TeamStats)
  {
    t.name != RCB
  }

  /** `teams.filter(t => t.name !== TeamName.RCB)`, in input order. */
  function RaceTeams(teams: seq<TeamStats>): seq<TeamStats>
  {
    Filter(teams, IsRaceTeam)
  }

  /** The gap between two neighbours: |Δpoints| + 10·|ΔNRR|. */
  function Gap(a: TeamStats, b: TeamStats): (r: real)
    ensures r >= 0.0
  {
    Abs((a.points - b.points) as real) + Abs(a.nrr - b.nrr) * 10.0
  }

  /** The sum of the gaps between neighbours, in the order given. */
  function Spread(s: seq<TeamStats>): (r: real)
    ensures r >= 0.0
  {
    if |s| < 2 then 0.0 else Spread(s[..|s| - 1]) + Gap(s[|s| - 2], s[|s| - 1])
  }

  /** The value `calculateVolatility` returns: within [10, 100]. */
  function Volatility(teams: seq<TeamStats>): (v: real)
    ensures 10.0 <= v <= 100.0
  {
    Clamp(10.0, 100.0, 100.0 - Spread(RaceTeams(teams)) * 15.0)
  }

  /** `calculateVolatility`, with its accumulating loop. */
  method CalculateVolatility(teams: seq<TeamStats>) returns (v: real)
    ensures v == Volatility(teams)
  {
    var raceTeams := RaceTeams(teams);
    var totalDiff := 0.0;
    var i := 0;
    while i < |raceTeams| - 1
      invariant 0 <= i && (|raceTeams| > 0 ==> i <= |raceTeams| - 1)
      invariant |raceTeams| == 0 ==> i == 0 && totalDiff == 0.0
      invariant |raceTeams| > 0 ==> totalDiff == Spread(raceTeams[..i + 1])
    {
      assert raceTeams[..i + 2][..i + 1] == raceTeams[..i + 1];
      totalDiff := totalDiff + Abs((raceTeams[i].points - raceTeams[i + 1].points) as real);
      totalDiff := totalDiff + Abs(raceTeams[i].nrr - raceTeams[i + 1].nrr) * 10.0;
      i := i + 1;
    }
    assert |raceTeams| > 0 ==> raceTeams[..i + 1] == raceTeams;
    v := Max(10.0, Min(100.0, 100.0 - totalDiff * 15.0));
  }

  /** Tighter standings never give a lower volatility. */
  lemma VolatilityAntitone(a: seq<TeamStats>, b: seq<TeamStats>)
    requires Spread(RaceTeams(a)) <= Spread(RaceTeams(b))
    ensures Volatility(b) <= Volatility(a)
  {
    ClampMonotone(10.0, 100.0, 100.0 - Spread(RaceTeams(b)) * 15.0, 100.0 - Spread(RaceTeams(a)) * 15.0);
  }

  /** An RCB entry, wherever it stands and whatever it holds, does not count. */
  lemma VolatilityIgnoresRCB(a: seq<TeamStats>, rcb: TeamStats, b: seq<TeamStats>)
    requires rcb.name == RCB
    ensures Volatility(a + [rcb] + b) == Volatility(a + b)
  {
    FilterAppend(a + [rcb], b, IsRaceTeam);
    FilterAppend(a, [rcb], IsRaceTeam);
    FilterAppend(a, b, IsRaceTeam);
    assert [rcb][1..] == [];
    assert Filter([rcb], IsRaceTeam) == [];
    assert RaceTeams(a + [rcb] + b) == RaceTeams(a + b);
  }

  /** A race in which every team has the same points and NRR has no spread. */
  lemma {:induction false} TiedRaceHasNoSpread(s: seq<TeamStats>)
    requires forall i, j :: 0 <= i < |s| && 0 <= j < |s| ==> s[i].points == s[j].points && s[i].nrr == s[j].nrr
    ensures Spread(s) == 0.0
  {
    if |s| >= 2 {
      TiedRaceHasNoSpread(s[..|s| - 1]);
    }
  }

  /** A tied race is maximally volatile. */
  lemma TiedRaceIsMaximallyVolatile(teams: seq<TeamStats>)
    requires forall i, j :: 0 <= i < |RaceTeams(teams)| && 0 <= j < |RaceTeams(teams)| ==>
               RaceTeams(teams)[i].points == RaceTeams(teams)[j].points &&
               RaceTeams(teams)[i].nrr == RaceTeams(teams)[j].nrr
    ensures Volatility(teams) == 100.0
  {
    TiedRaceHasNoSpread(RaceTeams(teams));
  }

  /** Without an RCB entry every team is in the race. */
  lemma {:induction false} RaceOfNonRCB(teams: seq<TeamStats>)
    requires forall t :: t in teams ==> t.name != RCB
    ensures RaceTeams(teams) == teams
  {
    if teams != [] {
      assert forall t :: t in teams[1..] ==> t in teams;
      RaceOfNonRCB(teams[1..]);
      assert teams == [teams[0]] + teams[1..];
    }
  }

  /** The spread of three teams is the sum of their two neighbouring gaps. */
  lemma SpreadOfThree(a: TeamStats, b: TeamStats, c: TeamStats)
    ensures Spread([a, b, c]) == Gap(a, b) + Gap(b, c)
  {
    assert [a, b, c][..2] == [a, b];
    assert [a, b][..1] == [a];
    assert Spread([a]) == 0.0;
    assert Spread([a, b]) == Gap(a, b);
  }

  /** The walk follows input order: the same three teams, listed in two orders,
      give two different indices. */
  lemma VolatilityFollowsInputOrder(x: TeamStats, y: TeamStats, z: TeamStats)
    requires x.name != RCB && y.name != RCB && z.name != RCB
    requires x.nrr == y.nrr == z.nrr
    requires x.points == 0 && y.points == 2 && z.points == 1
    ensures multiset([x, y, z]) == multiset([y, z, x])
    ensures Volatility([x, y, z]) == 55.0 && Volatility([y, z, x]) == 70.0
  {
    assert Gap(x, y) == 2.0 && Gap(y, z) == 1.0 && Gap(z, x) == 1.0;
    RaceOfNonRCB([x, y, z]);
    SpreadOfThree(x, y, z);
    assert Volatility([x, y, z]) == Clamp(10.0, 100.0, 100.0 - 3.0 * 15.0);
    RaceOfNonRCB([y, z, x]);
    SpreadOfThree(y, z, x);
    assert Volatility([y, z, x]) == Clamp(10.0, 100.0, 100.0 - 2.0 * 15.0);
    calc {
      multiset([x, y, z]);
      multiset([x]) + multiset([y, z]);
      multiset([y, z]) + multiset([x]);
      { assert [y, z] + [x] == [y, z, x]; }
      multiset([y, z, x]);
    }
  }



  // ---------------------------------------------------------------------------
  // Predictions over the schedule
  // ---------------------------------------------------------------------------

  /** `p > 0.75 || p < 0.25 ? 'High' : 'Medium'`. */
  function ConfidenceOf(p: real): (c: Confidence)
    ensures c == High || c == Medium
    ensures c == Medium <==> 0.25 <= p <= 0.75
  {
    if p > 0.75 || p < 0.25 then High else Medium
  }

  /** The label is symmetric about one half and never drops as p moves away from it. */
  lemma ConfidenceSymmetricMonotone(p: real, q: real)
    ensures ConfidenceOf(p) == ConfidenceOf(1.0 - p)
    ensures Abs(p - 0.5) >= Abs(q - 0.5) && ConfidenceOf(q) == High ==> ConfidenceOf(p) == High
  {}

  /** The label the source's `stage` string carries. */
  function StageName(stage: Stage): string
  {
    match stage
    case League => "League"
    case Eliminator => "Eliminator"
    case Final => "Final"
    case OtherStage(s) => s
  }

  /** Distinct stages have distinct labels, so the label determines the stage. */
  lemma StageNameInjective(a: Stage, b: Stage)
    requires StageName(a) == StageName(b)
    ensures a == b
  {
    if a.OtherStage? || b.OtherStage? {
      assert "League" != "Eliminator" && "League" != "Final" && "Eliminator" != "Final";
    }
  }

  /** The three explanatory strings; the digits come from `toFixed`. */
  function Factors(m: MathLib, stage: Stage, t1: TeamStats, s1: real, s2: real): seq<string>
  {
    [ "XI Power: " + m.toFixed(s1 * 100.0, 0) + " vs " + m.toFixed(s2 * 100.0, 0),
      "Pressure Calibration: " + StageName(stage),
      "Ensemble Momentum: " + m.toFixed(t1.elo / 1000.0, 1) + "x Factor" ]
  }

  /** What every prediction the engine attaches satisfies. */
  predicate ValidPrediction(p: Prediction)
  {
    0.01 <= p.team1WinProb <= 0.99 &&
    p.team2WinProb == 1.0 - p.team1WinProb &&
    (p.confidence == High <==> p.team1WinProb > 0.75 || p.team1WinProb < 0.25) &&
    (p.confidence != High ==> p.confidence == Medium) &&
    p.dewImpact == -15.0 &&
    (p.ensembleMetrics.pressureIndex == 1.0 || p.ensembleMetrics.pressureIndex == 0.8)
  }

  /** The prediction record built for one match from its two teams. */
  function PredictionFor(m: MathLib, t1: TeamStats, t2: TeamStats, x: Match): (p: Prediction)
    requires Positive(m) && WellFormedTeam(t1) && WellFormedTeam(t2)
    ensures ValidPrediction(p)
    ensures p.xiStrengthIndex.t1 == CalculateXIStrength(Team1XI(x), Some(t1))
    ensures p.xiStrengthIndex.t2 == CalculateXIStrength(Team2XI(x), Some(t2))
    ensures p.team1WinProb == EnsembleFromStrengths(m, t1, t2, x, p.xiStrengthIndex.t1, p.xiStrengthIndex.t2)
    ensures p.ensembleMetrics.pressureIndex == (if x.stage == Final then 1.0 else 0.8)
    ensures p.ensembleMetrics.momentumScore == WinFraction(t1.recentForm)
    ensures |p.factors| == 3 && p.factors[1] == "Pressure Calibration: " + StageName(x.stage)
  {
    var prob := CalculateEnsembleProb(m, t1, t2, x);
    var s1 := CalculateXIStrength(Team1XI(x), Some(t1));
    var s2 := CalculateXIStrength(Team2XI(x), Some(t2));
    var night := x.liveMetrics.Some? && x.liveMetrics.value.isNightMatch;
    Prediction(
      prob,
      1.0 - prob,
      ConfidenceOf(prob),
      Factors(m, x.stage, t1, s1, s2),
      XIStrength(s1, s2),
      if night || true then -15.0 else 0.0,
      EnsembleMetrics(Wins(t1.recentForm) as real / |t1.recentForm| as real,
                      if x.stage == Final then 1.0 else 0.8))
  }

  /** `teams.find(t => t.name === name)`. */
  function FindTeam(teams: seq<TeamStats>, name: string): (r: Option<TeamStats>)
    ensures r.Some? ==> r.value in teams && r.value.name == name
    ensures r.Some? ==> exists i :: 0 <= i < |teams| && teams[i] == r.value &&
                                    forall j :: 0 <= j < i ==> teams[j].name != name
    ensures r.None? ==> forall t :: t in teams ==> t.name != name
  {
    Find(teams, (t: TeamStats) => t.name == name)
  }

  /** A match the engine predicts: not Completed, and both teams in the standings. */
  predicate Predictable(teams: seq<TeamStats>, x: Match)
  {
    x.status != Completed && FindTeam(teams, x.team1).Some? && FindTeam(teams, x.team2).Some?
  }

  /** One step of the `map` in `simulateTournament`. Only the prediction can
      change; a Completed match or one whose teams are unknown passes through. */
  function SimulateMatch(m: MathLib, teams: seq<TeamStats>, x: Match): (r: Match)
    requires Positive(m) && WellFormedStandings(teams)
    ensures r == x.(prediction := r.prediction)
    ensures !Predictable(teams, x) ==> r == x
    ensures Predictable(teams, x) ==>
            r.prediction == Some(PredictionFor(m, FindTeam(teams, x.team1).value, FindTeam(teams, x.team2).value, x))
  {
    var t1Stats := FindTeam(teams, x.team1);
    var t2Stats := FindTeam(teams, x.team2);
    if t1Stats.Some? && t2Stats.Some? && x.status != Completed then
      x.(prediction := Some(PredictionFor(m, t1Stats.value, t2Stats.value, x)))
    else x
  }

  /** `simulateTournament`: the schedule, match by match, in order. */
  function SimulateTournament(m: MathLib, teams: seq<TeamStats>, matches: seq<Match>): (r: seq<Match>)
    requires Positive(m) && WellFormedStandings(teams)
    ensures |r| == |matches|
    ensures forall i :: 0 <= i < |matches| ==> r[i] == SimulateMatch(m, teams, matches[i])
  {
    seq(|matches|, i requires 0 <= i < |matches| => SimulateMatch(m, teams, matches[i]))
  }

  /** Every prediction present in a schedule is valid. */
  predicate PredictionsValid(matches: seq<Match>)
  {
    forall x :: x in matches && x.prediction.Some? ==> ValidPrediction(x.prediction.value)
  }

  /** What the pass keeps and what it adds, match by match. */
  lemma SimulateTournamentSpec(m: MathLib, teams: seq<TeamStats>, matches: seq<Match>, i: int)
    requires Positive(m) && WellFormedStandings(teams)
    requires 0 <= i < |matches|
    ensures var r := SimulateTournament(m, teams, matches);
            r[i].id == matches[i].id && r[i].stage == matches[i].stage &&
            r[i].team1 == matches[i].team1 && r[i].team2 == matches[i].team2 &&
            r[i].status == matches[i].status && r[i].winner == matches[i].winner &&
            (!Predictable(teams, matches[i]) ==> r[i] == matches[i]) &&
            (Predictable(teams, matches[i]) ==> r[i].prediction.Some? && ValidPrediction(r[i].prediction.value))
  {}

  /** The pass keeps every prediction of the schedule valid. */
  lemma SimulateTournamentKeepsPredictionsValid(m: MathLib, teams: seq<TeamStats>, matches: seq<Match>)
    requires Positive(m) && WellFormedStandings(teams)
    requires PredictionsValid(matches)
    ensures PredictionsValid(SimulateTournament(m, teams, matches))
  {
    var r := SimulateTournament(m, teams, matches);
    forall x | x in r && x.prediction.Some?
      ensures ValidPrediction(x.prediction.value)
    {
      var i :| 0 <= i < |r| && r[i] == x;
      assert matches[i] in matches;
    }
  }

  /** Predicting a match a second time gives the prediction it already has. */
  lemma SimulateMatchIdempotent(m: MathLib, teams: seq<TeamStats>, x: Match)
    requires Positive(m) && WellFormedStandings(teams)
    ensures SimulateMatch(m, teams, SimulateMatch(m, teams, x)) == SimulateMatch(m, teams, x)
  {
    var once := SimulateMatch(m, teams, x);
    if Predictable(teams, x) {
      assert Predictable(teams, once);
      assert Team1XI(once) == Team1XI(x) && Team2XI(once) == Team2XI(x);
      assert once.(prediction := None) == x.(prediction := None);
    }
  }

  /** Running the pass twice gives what running it once gives. */
  lemma SimulateTournamentIdempotent(m: MathLib, teams: seq<TeamStats>, matches: seq<Match>)
    requires Positive(m) && WellFormedStandings(teams)
    ensures SimulateTournament(m, teams, SimulateTournament(m, teams, matches)) == SimulateTournament(m, teams, matches)
  {
    var once := SimulateTournament(m, teams, matches);
    var twice := SimulateTournament(m, teams, once);
    forall i | 0 <= i < |matches|
      ensures twice[i] == once[i]
    {
      SimulateMatchIdempotent(m, teams, matches[i]);
    }
  }
}
