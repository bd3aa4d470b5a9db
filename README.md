# WPL prediction dashboard — a Dafny model of its logic

The dashboard predicts the knock-out stage of the Women's Premier League. Three
parts of it carry rules that can be stated and proved, and this project models
those three parts:

- **The prediction engine** (`src/predictionEngine.ts`), in `PredictionEngine.dfy`.
  - It computes a lineup-strength scalar and a weighted logit. The logit has
    night/dew and live-chase penalties.
  - Platt scaling turns the logit into a probability, which is blended with an
    Elo estimate.
  - It computes a volatility index over the standings.
  - The prediction pass attaches a prediction to every match that is not yet
    decided.
- **The data-sync service** (`src/services/cricketService.ts`), in `CricketService.dfy`.
  - *Retry state machine:* an API-first fetch with a retry counter and a
    one-minute cooldown. This is the class `RobustCricketService`.
  - *Fallback table:* the hard-coded standings used when the API is not used.
  - *Normaliser:* maps team names to the five franchise names.
  - *Night-match test:* reads the hour from a start time, as `parseInt` would.
  - *List transforms:* two transforms fold API standings and a live match into
    the dashboard's own lists.
- **The dashboard page** (`src/pages/Index.tsx`), in `Dashboard.dfy`.
  - Builds the first state, from a fresh cache or from the seed data.
  - Rebuilds the state on a data sync and on a result entered by hand.
  - Derives the predicted champion and the confidence score from the Final's
    prediction.

Supporting modules:

- `Types.dfy` holds the records of `src/types.ts`.
- `Fixtures.dfy` holds the seed teams and matches of `src/constants.tsx`.
- `Base.dfy` holds the JavaScript built-ins the code relies on, as small
  functions with contracts: `Math.min`, `Math.max`, `Math.abs`, the clamp
  idiom, `Math.round`, ASCII `toLowerCase`, `includes`, `find`, `findIndex` and
  `filter`.

## How the source is modelled

- **Numbers** are `real`. `Math.exp`, `Math.pow(10, ·)` and `toFixed` are fields
  of a `MathLib` value passed to the engine.
  - `Positive(m)` states that both exponentials are positive. The functions
    need only this, so that `1 / (1 + e)` is defined.
  - `ValidMath(m)` adds what the real functions satisfy: e⁰ = 10⁰ = 1, and both
    are strictly increasing. Only lemmas require it.
  - `ValidMathSatisfiable` exhibits such an `m`, so these lemmas are not vacuous.
- **NaN** arises in two places:
  - In `getLogRegLogit`, an empty `recentForm` makes a momentum 0/0. That NaN
    survives every later update and reaches the `isNaN` guard, so the model
    returns 0 exactly there.
  - In `calculateXIStrength`, the same division has no guard. The model
    therefore requires a non-empty recent form there (`WellFormedTeam`).
- **Code that updates variables step by step** is modelled as methods proved
  against a specification function:
  - `getLogRegLogit` becomes `GetLogRegLogit` against `LogRegLogit`;
  - the loop of `calculateVolatility` becomes `CalculateVolatility` against
    `Volatility`;
  - the early-return loop of `mapToTeamEnum` becomes `MapToTeamEnum` against
    `Normalise`.
- **The service object** is a class. Its fields `apiAttempts` and
  `lastApiSuccess` are updated by its methods.
  - Each `Date.now()` is a time argument.
  - The outcome of `tryFetchFromAPI` is a parameter: data, `null`, or an
    exception.
  - `FetchOverNetwork` wires the fetch to `TryFetchFromAPI`. That function
    swallows every error, so a failed request never increments
    `apiAttempts`. The `catch` branch of `fetchLiveWPLData` is reachable only
    through the unwired `FetchLiveWPLData`.
  - `CooldownScenario` is a usage example with no contract of its own (so no
    row below). Its asserts walk a client through three thrown fetches, the
    cooldown of `shouldUseAPI` (cricketService.ts:125-148) and the retry
    60 000 ms after the last success.
- **Copies.** `simulateTournament` copies each match, so it is modelled as a
  function over values. So are the page's `setState` updaters.

### Notable behaviour of the code

Where the repository's own text says more than its code does, the bullet
cites that text; the model follows the code throughout.

- **The page's description of the engine** (src/pages/Index.tsx:252-276)
  speaks of a gradient-boosted "ensemble of 5 weak learners: ELO, Form, NRR,
  Clutch, Death Bowling" and of a role-weighted "player of the match"
  prediction. The engine has neither:
  - the logit has three features (strength, momentum, pressure-weighted death
    bowling) and no NRR or clutch term;
  - `calculateXIStrength` averages the players' form with no role weights;
  - no prediction gets a `predictedPOTM`, although src/types.ts:71 declares it.
- **Confidence bands:** src/types.ts:64 declares four bands ('High', 'Medium',
  'Lean', 'Toss-up'); the engine uses only two, High beyond 0.75/0.25, else
  Medium.
- **`calculateXIStrength`:** clamps a roster's strength to [0.4, 0.98]. The
  roster-less branch has no lower bound at all
  (`XIStrengthNoLowerClampWithoutRoster`).
- **The ensemble** is 0.75 logistic + 0.25 Elo, clamped to [0.01, 0.99]. The
  `venue` argument of `getLogRegLogit` is never read. `dewImpact` is −15 on
  every prediction, night or not: `isNightMatch || true` is always true.
- **`calculateVolatility`:** drops RCB and walks the remaining teams in input
  order, so the result depends on that order (`VolatilityFollowsInputOrder`).
- **The champion:** follows the Final's prediction only.
  - A Final whose result is entered by hand keeps its earlier prediction, so
    the champion may not be the entered winner (`ManualFinalIgnoresWinner`).
- **The cooldown:** src/services/cricketService.ts:132-134 names the elapsed
  time `timeSinceLastAttempt`, but it is measured from the last *success*.
  - If the API never succeeded, the counter is reset at once and the API tried
    again on the next call.
- **A sync on fallback data** overwrites the standings' points, NRR and match
  counts with the fallback table's numbers (`FallbackData`).

## Model

| member | source | states |
|---|---|---|
| Base.Clamp | src/predictionEngine.ts:24 | `Math.max(lo, Math.min(hi, x))` lies in [lo, hi], is x inside the interval and the nearer bound outside it |
| Base.Round | src/pages/Index.tsx:42 | `Math.round` gives the integer n with n ≤ x + 0.5 < n + 1 (half-way cases round up) |
| Types.WinFraction | src/predictionEngine.ts:43-44 | the share of wins in a non-empty recent form lies in [0, 1] |
| PredictionEngine.CalculateXIStrength | src/predictionEngine.ts:7-25 | with a non-empty roster the strength lies in [0.4, 0.98]; without one it is at most 0.92 |
| PredictionEngine.XIStrengthWithoutRoster | src/predictionEngine.ts:8-16 | without a roster the strength is min(0.92, base), base 0.75 without team statistics |
| PredictionEngine.XIStrengthNoLowerClampWithoutRoster | src/predictionEngine.ts:16 | a weak team without a roster gets a strength below 0.4: that branch has no lower clamp |
| PredictionEngine.XIStrengthRosterOrder | src/predictionEngine.ts:19 | the order of the roster does not change the strength |
| PredictionEngine.XIStrengthZeroFormCountsAsDefault | src/predictionEngine.ts:19 | a player with form index 0 counts exactly as one with 0.7 |
| PredictionEngine.XIStrengthFullLineupBonus | src/predictionEngine.ts:20-24 | at equal average form a roster of 11 or more is never weaker, and exactly 0.08 stronger away from the clamp bounds |
| PredictionEngine.PlattScaling | src/predictionEngine.ts:27-32 | the calibrated probability lies strictly in (0, 1), so the NaN guard never fires |
| PredictionEngine.PlattIncreasing | src/predictionEngine.ts:27-30 | Platt scaling is strictly increasing in the logit, because A < 0 |
| PredictionEngine.PlattAboveHalf | src/predictionEngine.ts:27-30 | it exceeds one half exactly when the logit exceeds B/\|A\| = 0.03/1.15 |
| PredictionEngine.EloProb | src/predictionEngine.ts:77-78 | the Elo estimate lies strictly in (0, 1) |
| PredictionEngine.EloEvenAndFavoursStronger | src/predictionEngine.ts:77-78 | equal ratings give exactly 0.5; a higher rating for team 1 gives more than 0.5 |
| PredictionEngine.DewPenalty | src/predictionEngine.ts:55-58 | no penalty by day or without live metrics; a positive one on a night match with a non-negative dew likelihood |
| PredictionEngine.ChasePenalty | src/predictionEngine.ts:60-65 | the chase term vanishes without live metrics or with no balls left |
| PredictionEngine.PressureIndex | src/predictionEngine.ts:46-47 | the pressure weight lies in [0.4, 1], is 1 exactly for the Final, and 0.4 for the league and any unlisted stage |
| PredictionEngine.LogRegLogit | src/predictionEngine.ts:43-67 | an empty recent form on either side gives 0 (the NaN guard); a team against itself without live data gives 0; with well-formed teams and no live data it is the feature logit |
| PredictionEngine.GetLogRegLogit | src/predictionEngine.ts:34-68 | the successive updates of `logit` compute `LogRegLogit`: the three weighted differentials less the dew and chase penalties, 0 for an empty recent form |
| PredictionEngine.NightMatchDewPenalty | src/predictionEngine.ts:55-58 | a night match lowers the logit by exactly 0.45 × dew likelihood (0.7 when that is 0) against the same match by day |
| PredictionEngine.LiveChasePenalty | src/predictionEngine.ts:60-65 | while balls are left the logit is lower by (requiredRR − currentRR)·(120/ballsLeft)·0.6 + 0.45·wicketsLost; with none left (and by day) it equals the logit without live metrics |
| PredictionEngine.ChasePenaltyMonotone | src/predictionEngine.ts:60-65 | more wickets lost or a higher required rate never lowers the chase penalty |
| PredictionEngine.LogitAntisymmetric | src/predictionEngine.ts:43-53 | with no live metrics, swapping the teams and their strengths negates the logit |
| PredictionEngine.EnsembleFromStrengths | src/predictionEngine.ts:74-81 | the 0.75/0.25 blend of the logistic and Elo estimates is clamped into [0.01, 0.99] |
| PredictionEngine.CalculateEnsembleProb | src/predictionEngine.ts:70-82 | the ensemble probability always lies in [0.01, 0.99] |
| PredictionEngine.EnsembleMonotoneInLogit | src/predictionEngine.ts:74-81 | a lower logit never gives a higher ensemble probability |
| PredictionEngine.NightMatchNeverRaisesProb | src/predictionEngine.ts:55-81 | the same match at night never gives team 1 a higher probability than by day |
| PredictionEngine.WicketsNeverRaiseProb | src/predictionEngine.ts:60-81 | more wickets lost in a live chase never raise team 1's probability |
| PredictionEngine.IdenticalTeamsTiltToTeam2 | src/predictionEngine.ts:70-82 | two identical teams with no live metrics get less than one half: the offset B tilts towards team 2 |
| PredictionEngine.EnsembleFavoursTeam1 | src/predictionEngine.ts:70-82 | a logit above B/\|A\| together with an Elo rating at least as high puts team 1 above one half |
| PredictionEngine.Volatility | src/predictionEngine.ts:84-92 | the volatility index lies in [10, 100] |
| PredictionEngine.CalculateVolatility | src/predictionEngine.ts:84-92 | the accumulating loop computes `Volatility`: 100 − 15 × the neighbour gaps of the non-RCB teams, clamped |
| PredictionEngine.VolatilityAntitone | src/predictionEngine.ts:91 | a smaller spread never gives a lower volatility |
| PredictionEngine.VolatilityIgnoresRCB | src/predictionEngine.ts:85 | an RCB entry, anywhere and with any numbers, does not change the index |
| PredictionEngine.TiedRaceIsMaximallyVolatile | src/predictionEngine.ts:84-92 | a race in which all non-RCB teams have equal points and NRR gives 100 |
| PredictionEngine.VolatilityFollowsInputOrder | src/predictionEngine.ts:85-90 | the same three teams listed in two orders give 55 and 70: the walk follows input order, unsorted |
| PredictionEngine.ConfidenceSymmetricMonotone | src/predictionEngine.ts:110 | the label is the same for p and 1 − p, and never drops as p moves away from one half |
| PredictionEngine.PredictionFor | src/predictionEngine.ts:103-122 | the record is valid: team2 = 1 − team1, High iff p > 0.75 or p < 0.25, dewImpact −15, pressure 1.0 for the Final else 0.8; its strengths are the ones the probability uses |
| PredictionEngine.ConfidenceOf | src/predictionEngine.ts:110 | the band is High or Medium, Medium exactly when 0.25 ≤ p ≤ 0.75 |
| PredictionEngine.StageNameInjective | src/types.ts:45 | distinct stages have distinct labels, so the stage string (as shown in the pressure factor) identifies the stage |
| PredictionEngine.FindTeam | src/predictionEngine.ts:99-100 | a found team is the first in the standings under that name; none found means no team has it |
| PredictionEngine.SimulateMatch | src/predictionEngine.ts:98-124 | only the prediction can change; a Completed match or one with an unknown team passes through unchanged |
| PredictionEngine.SimulateTournament | src/predictionEngine.ts:94-126 | same length and order, each match through `SimulateMatch` |
| PredictionEngine.SimulateTournamentSpec | src/predictionEngine.ts:97-124 | each output keeps id, stage, teams, status and winner; unpredictable matches are unchanged, the others carry a valid prediction |
| PredictionEngine.SimulateTournamentKeepsPredictionsValid | src/predictionEngine.ts:94-126 | a schedule whose predictions are valid stays so after the pass |
| PredictionEngine.SimulateMatchIdempotent | src/predictionEngine.ts:98-124 | predicting a match again gives the prediction it already has |
| PredictionEngine.SimulateTournamentIdempotent | src/predictionEngine.ts:94-126 | running the pass twice gives what running it once gives |
| CricketService.TryFetchFromAPI | src/services/cricketService.ts:153-211 | never throws; `null` exactly when the standings request failed; otherwise the parsed standings and live match |
| CricketService.TableValuesAreTeams | src/services/cricketService.ts:305-317 | every entry of the mapping names one of the five teams |
| CricketService.TableKeysDistinct | src/services/cricketService.ts:305-317 | no key appears twice, so the exact lookup is unambiguous |
| CricketService.Normalise | src/services/cricketService.ts:304-331 | the result is the name itself or one entry's team |
| CricketService.TeamEnumOf | src/services/cricketService.ts:304-331 | on the dashboard's table the result is a team name or the name unchanged |
| CricketService.MapToTeamEnum | src/services/cricketService.ts:304-331 | the exact lookup followed by the early-return loop computes `Normalise` |
| CricketService.NormaliseRules | src/services/cricketService.ts:319-330 | the first exact key wins; for a name that is no key, the first entry whose lower-cased key contains or is contained in the lower-cased name wins; otherwise the name is returned |
| CricketService.TeamEnumOfKey | src/services/cricketService.ts:305-320 | every key of the table maps to its own entry's team |
| CricketService.EmptyNameMapsToRCB | src/services/cricketService.ts:322-327 | the empty name partially matches the first key and maps to Royal Challengers Bangalore |
| CricketService.TrimStart | src/services/cricketService.ts:270 | the result is a suffix of the text, and everything dropped before it is white space that `parseInt` skips |
| CricketService.DigitPrefix | src/services/cricketService.ts:270 | the longest run of digits of the radix at the front of the text |
| CricketService.BeforeColon | src/services/cricketService.ts:270 | `split(':')[0]` is the longest colon-free prefix, followed by a colon or the end |
| CricketService.ParseInt | src/services/cricketService.ts:270 | empty text is NaN; a number needs at least one digit in the text, and a negative one a minus sign |
| CricketService.ParseSigned | src/services/cricketService.ts:270 | after the white space, a number needs a digit, and it is negative only when the text starts with a minus sign |
| CricketService.ParseUnsigned | src/services/cricketService.ts:270 | an unsigned number (decimal, or hexadecimal after 0x) needs a digit |
| CricketService.ParseIntLeadingDigits | src/services/cricketService.ts:270 | text starting with a decimal digit (no 0x) parses to the value of its leading digits |
| CricketService.ParseIntSkipsSpace | src/services/cricketService.ts:270 | white space in front of a text does not change what it parses to |
| CricketService.TrimStartSkipsSpace | src/services/cricketService.ts:270 | trimming white space plus a text gives the trimmed text |
| CricketService.ParseIntNegative | src/services/cricketService.ts:270 | a minus sign before decimal digits (no 0x) gives the negated value of those leading digits |
| CricketService.ParseUnsignedDecimal | src/services/cricketService.ts:270 | text led by a decimal digit, and not by 0x, is read as its leading decimal digits |
| CricketService.ParseTwoDigits | src/services/cricketService.ts:270 | two decimal digits parse to their two-digit value |
| CricketService.IsNightMatch | src/services/cricketService.ts:268-272 | a missing or empty time is night; otherwise night iff the hour before the colon parses and is ≥ 18 or ≤ 6 |
| CricketService.NightMatchTwoDigitHour | src/services/cricketService.ts:268-272 | for "hh:…" the test is hh ≥ 18 or hh ≤ 6 on the decimal hour |
| CricketService.NightMatchNeedsHour | src/services/cricketService.ts:270-271 | a time that starts with a letter parses to NaN and is never a night match |
| CricketService.NightMatchEvening | src/services/cricketService.ts:268-272 | a "19:30" start is a night match |
| CricketService.NightMatchAfternoon | src/services/cricketService.ts:268-272 | a "14:00" start is not a night match |
| CricketService.NightMatchUndecided | src/services/cricketService.ts:268-272 | a "TBD" start is not a night match |
| CricketService.FallbackData | src/services/cricketService.ts:277-299 | the fallback response has the five standings rows, each carrying the points, NRR, played, won and lost of the schedule table, a live match that is not live, and the fallback source tag |
| CricketService.FallbackTeamNames | src/services/cricketService.ts:279-280 | the fallback rows carry the five team names, left unchanged by the normaliser |
| CricketService.RobustCricketService.constructor | src/services/cricketService.ts:85-90 | a new service has no attempts and no recorded success |
| CricketService.RobustCricketService.AdmitsAPI | src/services/cricketService.ts:125-148 | no key: no; fewer than 3 attempts: yes; otherwise no exactly when a success lies less than 60000 ms back (a missing success never counts as cooldown) |
| CricketService.RobustCricketService.AttemptsAfterCheck | src/services/cricketService.ts:133-145 | the counter drops to 0 exactly when 3 or more attempts are admitted after the cooldown |
| CricketService.RobustCricketService.ShouldUseAPI | src/services/cricketService.ts:125-148 | returns `AdmitsAPI`, leaves the counter as `AttemptsAfterCheck` says and the last success untouched |
| CricketService.RobustCricketService.FetchLiveWPLData | src/services/cricketService.ts:95-120 | not admitted: fallback, nothing changes; data: counter 0, success recorded, source api; `null`: fallback, only the check's reset; exception: fallback and one more attempt |
| CricketService.RobustCricketService.FetchOverNetwork | src/services/cricketService.ts:95-120 | wired to `tryFetchFromAPI` the counter never grows; a refused call gives the fallback with the state untouched; an admitted call with standings gives the API data, resets the counter and records the success; a failed standings request gives the fallback, leaves the counter as the check left it and records no success |
| CricketService.RobustCricketService.ResetAPIAttempts | src/services/cricketService.ts:350-354 | the counter is 0 and no success is recorded |
| CricketService.RobustCricketService.GetStatus | src/services/cricketService.ts:359-365 | reports the source `shouldUseAPI` decides and the counter and success it leaves, which can be a reset counter |
| CricketService.UpdateStandingsFromAPI | src/services/cricketService.ts:377-397 | same length and order; an absent or empty API list changes nothing; only points, NRR, played, won and lost can change |
| CricketService.UpdateStandingsFields | src/services/cricketService.ts:380-395 | each of the five fields comes from the first matching API row when that row has it, else it is kept |
| CricketService.UpdateStandingsUnmatched | src/services/cricketService.ts:386 | a team no API row matches is unchanged |
| CricketService.NamelessRowMatchesEveryTeam | src/services/cricketService.ts:381-384 | an API row with a missing or empty name matches every team |
| CricketService.UpdateStandingsKeepsWellFormed | src/services/cricketService.ts:388-395 | the update keeps every recent form, so usable standings stay usable |
| CricketService.ApiNameMatches | src/services/cricketService.ts:381-384 | an API row with exactly the team's name matches; a row that does not match has a non-empty name |
| CricketService.UpdateTeam | src/services/cricketService.ts:380-395 | only points, NRR, played, won and lost can change, each of the five to the matching row's value when present and otherwise kept; no matching row leaves the team as it was |
| CricketService.IsThisMatch | src/services/cricketService.ts:403-406 | a match already Live is selected, as is one whose team 1 equals a live team's name up to case, or whose team 1 is empty |
| CricketService.UpdateMatchFromLive | src/services/cricketService.ts:399-431 | same length; no live match or one not live changes nothing; id, stage, teams, venue, playing XI, second score, head-to-head, player of the match, winner and prediction are kept |
| CricketService.UpdateMatchFromLiveSpec | src/services/cricketService.ts:402-430 | a selected match (already Live, or its team 1 inside a live team's name) is the same match with only status Live, the live score, the summary and the synced metrics (0 balls left, 0 wickets, dew 0.7, the target or 0) replaced; the others are unchanged |
| CricketService.CompletedMatchCanReturnToLive | src/services/cricketService.ts:403-406 | a Completed match named by the live data goes back to Live |
| Fixtures.InitialTeamsWellFormed | src/constants.tsx:4-65 | every seed team has a non-empty recent form |
| Fixtures.InitialTeamNamesDistinct | src/constants.tsx:4-65 | the seed standings name each team once |
| Fixtures.InitialMatchesUnpredicted | src/constants.tsx:75-145 | no seed match carries a prediction |
| Dashboard.FinalMatch | src/pages/Index.tsx:33 | a Final of the schedule with no Final before it, none exactly when there is no Final |
| Dashboard.ConfidenceScore | src/pages/Index.tsx:42 | with a non-zero probability p for the first Final the score n satisfies n ≤ 100p + 0.5 < n + 1; otherwise (no Final, no prediction, or p = 0) it is 82 |
| Dashboard.CacheAccepted | src/pages/Index.tsx:22-23 | a cache is taken only when its age is under 120 000 ms: a missing stamp counts as time 0, an unreadable one is refused |
| Dashboard.PredictedChampion | src/pages/Index.tsx:33-36 | the champion is the fallback or one of the Final's two teams |
| Dashboard.ChampionIsFavouredTeam | src/pages/Index.tsx:34-36 | with a valid prediction the champion is the team it favours, a tie going to team 2; without one it is the fallback |
| Dashboard.ConfidenceScoreRange | src/pages/Index.tsx:42 | for valid predictions the score n is the Final's probability p in percent, rounded (n ≤ 100p + 0.5 < n + 1), or 82 without a prediction, and always within [1, 99] |
| Dashboard.Initialize | src/pages/Index.tsx:32-46 | the seed state: seed standings, their volatility, the seed schedule through the prediction pass, the champion from its Final (RCB without one) and the confidence score of that schedule |
| Dashboard.RebuildConsistent | src/pages/Index.tsx:75-88 | rebuilding around usable standings and valid predictions gives a consistent state |
| Dashboard.InitializeConsistent | src/pages/Index.tsx:32-46 | the seed state is consistent |
| Dashboard.InitialState | src/pages/Index.tsx:17-47 | a stored state younger than 120000 ms is taken as is; anything else gives the seed state |
| Dashboard.InitialStateConsistent | src/pages/Index.tsx:17-47 | the first state is consistent whenever a cached one would be |
| Dashboard.SyncState | src/pages/Index.tsx:67-94 | standings from the API rows, live data folded into the matches, then the prediction pass, the volatility of the new standings, the champion from the new Final (the previous champion without one) and the new confidence score |
| Dashboard.SyncKeepsConsistent | src/pages/Index.tsx:67-94 | a sync keeps the state consistent |
| Dashboard.SyncWithoutLiveMatch | src/pages/Index.tsx:72-75 | without a live match the sync predicts the previous matches as they were |
| Dashboard.ManualWinnerMatches | src/pages/Index.tsx:114-116 | the match with the id becomes Completed with the winner; every other match is identical |
| Dashboard.ManualWinnerState | src/pages/Index.tsx:112-133 | standings and volatility stay; the schedule is the updated one through the prediction pass; champion and confidence score are recomputed from it, the previous champion kept without a predicted Final |
| Dashboard.ManualWinnerKeepsConsistent | src/pages/Index.tsx:113-128 | a manual result keeps the state consistent |
| Dashboard.ManualWinnerKeepsStalePrediction | src/pages/Index.tsx:114-117 | the decided match is not predicted again and keeps its earlier prediction |
| Dashboard.ManualFinalIgnoresWinner | src/pages/Index.tsx:114-122 | entering the winner of the first Final, wherever it stands in the schedule, leaves the champion as that Final's earlier prediction had it, whoever won |
| Dashboard.InitialVolatilityIsFloor | src/pages/Index.tsx:43 | the seed standings give the floor volatility 10 |
| Dashboard.InitialFinalPrediction | src/pages/Index.tsx:32-33 | in the seed state the first Final is RCB v GG with the engine's prediction from the seed standings |
| Dashboard.InitialFinalLogit | src/predictionEngine.ts:43-53 | for the seed Final the strengths are 0.92 and 0.86 and the logit is 0.762 |
| Dashboard.InitialChampionIsRCB | src/pages/Index.tsx:32-42 | from the seed data the champion is RCB with a confidence of at least 50 |

## Left out

- Network I/O. The `fetch` calls, the `Promise.race` timeouts and the `AbortSignal` are left out. So is the parsing of untyped JSON in `parseStandings` and `parseLiveMatch`. What the two requests produced is a parameter (`Network`), and the standings rows have optional fields.
- The clock, `localStorage`, `setInterval`, React state and effects, and the `isSyncing` re-entrancy guard of the page. Times are arguments; the cache is a parameter of `InitialState`.
- Floating point. Numbers are reals, so rounding error, infinities and NaN beyond the two places described above are not modelled. `Math.exp`, `Math.pow` and `toFixed` are parameters; the `factors` strings are modelled only up to what `toFixed` returns.
- `lastUpdated`, `overallAccuracy` (which uses `Math.random`) and `searchSources` of the state are display-only and not modelled.
- The `venue` argument of `getLogRegLogit` is never read and is not a parameter. `VENUE_DATA` is unused.
- `getUpcomingMatches`, `getLeagueMatches` and the raw schedule entries of the fallback data. They return constant tables that no rule reads; `CricketData` keeps only the standings rows and the live match.
- PredictionEngine.PressureIndex: gives 0.4 for every label outside the pressure table. In JavaScript, a label naming a member inherited from `Object.prototype` ("toString", "constructor", "valueOf", "__proto__") finds a function or object instead. That value is truthy, so the `|| 0.4` default is skipped, the pressure feature is NaN, and the logit's guard returns 0. The model does not capture this. Such a label can reach the engine only through an untyped cached state.
- CricketService.MapToTeamEnum: takes the mapping's entries as a parameter. An object lookup in JavaScript also finds inherited members such as `toString`, which the model does not.
- Lower-casing covers the ASCII letters only; `toLowerCase` on other letters is not modelled.
- PredictionEngine.CalculateXIStrength: requires a non-empty recent form when team statistics are given, because the source divides by its length with no NaN guard.
- PredictionEngine.SimulateTournament: requires every team in the standings to have a non-empty recent form. With an empty one the source computes a NaN strength, and so NaN in `xiStrengthIndex`, `momentum_score` and the XI factor string, which reals cannot express. The probability itself stays finite there: the NaN strength makes the logit NaN, its guard returns 0, and the ensemble is computed from that.
- The optional `predictedPOTM` field of a prediction, and `playerOfTheMatch` beyond being carried along.
- The presentational components, `src/App.tsx` (a non-compiling variant of the page) and the build configuration are not part of this model.
