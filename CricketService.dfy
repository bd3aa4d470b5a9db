/** The data-sync service (src/services/cricketService.ts): the API-first fetch
    with its retry counter and cooldown, the fallback schedule, the team-name
    normaliser, the night-match test, and the two list transforms that fold API
    data into the standings and the schedule. The network itself is a
    parameter: what the standings and live requests delivered. */
module CricketService {
  import opened Base
  import opened Types

  // ---------------------------------------------------------------------------
  // Data as the service sees it
  // ---------------------------------------------------------------------------

  /** A standings row from the API or the fallback table; any field may be absent. */
  datatype ApiTeam = ApiTeam(
    name: Option<string>,
    points: Option<int>,
    nrr: Option<real>,
    played: Option<int>,
    won: Option<int>,
    lost: Option<int>)

  /** The `liveMatch` record of a response. */
  datatype LiveMatchInfo = LiveMatchInfo(
    isLive: bool,
    team1: string,
    team2: string,
    score: string,
    summary: string,
    target: Option<real>,
    isNight: bool,
    humidity: real)

  datatype Source = Api | Fallback

  /** `CricketDataResponse`, without the raw schedule entries. */
  datatype CricketData = CricketData(teams: seq<ApiTeam>, liveMatch: Option<LiveMatchInfo>, source: Source)

  /** What `tryFetchFromAPI` hands back: data, `null`, or an exception. */
  datatype ApiPayload = ApiPayload(teams: seq<ApiTeam>, liveMatch: Option<LiveMatchInfo>)
  datatype ApiOutcome = Delivered(data: ApiPayload) | NoData | Threw

  /** What the two HTTP requests produced: the parsed standings, or None when the
      request failed, timed out or answered with an error status; and the parsed
      live match, or None when there was none or its request failed. */
  datatype Network = Network(standings: Option<seq<ApiTeam>>, live: Option<LiveMatchInfo>)

  /** `tryFetchFromAPI`: every failure of the standings request is caught and
      turned into `null`, a failed live request into a missing live match. */
  function TryFetchFromAPI(net: Network): (r: ApiOutcome)
    ensures !r.Threw?
    ensures r.NoData? <==> net.standings.None?
    ensures r.Delivered? ==> r.data.teams == net.standings.value && r.data.liveMatch == net.live
  {
    if net.standings.None? then NoData else Delivered(ApiPayload(net.standings.value, net.live))
  }

  // ---------------------------------------------------------------------------
  // Team names
  // ---------------------------------------------------------------------------

  /** The `mapping` table of `mapToTeamEnum`, in its insertion order. */
  const TeamTable: seq<(string, string)> := [
    ("Royal Challengers Bangalore", RCB),
    ("Royal Challengers", RCB),
    ("RCB", RCB),
    ("Delhi Capitals", DC),
    ("DC", DC),
    ("Mumbai Indians", MI),
    ("MI", MI),
    ("Gujarat Giants", GG),
    ("GG", GG),
    ("UP Warriorz", UPW),
    ("UPW", UPW)
  ]

  predicate IsTeamName(s: string)
  {
    s == RCB || s == DC || s == MI || s == GG || s == UPW
  }

  /** Every entry of the table maps to one of the five teams. */
  lemma TableValuesAreTeams()
    ensures forall i :: 0 <= i < |TeamTable| ==> IsTeamName(TeamTable[i].1)
  {}

  /** The exact, case-sensitive lookup `mapping[name]`; the keys are distinct, so
      the first entry with that key is the only one. */
  function ExactMatcher(name: string): ((string, string)) -> bool
  {
    (e: (string, string)) => e.0 == name
  }

  /** Either side's lower-cased name includes the other's. */
  predicate PartialMatch(name: string, key: string)
  {
    Contains(Lower(name), Lower(key)) || Contains(Lower(key), Lower(name))
  }

  function PartialMatcher(name: string): ((string, string)) -> bool
  {
    (e: (string, string)) => PartialMatch(name, e.0)
  }

  /** The value `mapToTeamEnum` returns, for a table of (key, team) entries in
      insertion order: the first entry whose key is exactly the name; otherwise
      the first entry that partially matches; otherwise the name unchanged. */
  function Normalise(table: seq<(string, string)>, name: string): (r: string)
    ensures r == name || exists i :: 0 <= i < |table| && r == table[i].1
  {
    match FirstIndex(table, ExactMatcher(name))
    case Some(i) => table[i].1
    case None =>
      match FirstIndex(table, PartialMatcher(name))
      case Some(i) => table[i].1
      case None => name
  }

  /** `mapToTeamEnum` on the dashboard's own table. */
  function TeamEnumOf(name: string): (r: string)
    ensures IsTeamName(r) || r == name
  {
    TableValuesAreTeams();
    Normalise(TeamTable, name)
  }

  /** `mapToTeamEnum`, given the entries of its `mapping` object: the exact
      lookup, then the early-return loop over the entries. The lookup on a
      JavaScript object would also find inherited members for keys such as
      "toString"; that is not modelled. */
  method MapToTeamEnum(table: seq<(string, string)>, name: string) returns (r: string)
    ensures r == Normalise(table, name)
  {
    var exact := FirstIndex(table, ExactMatcher(name));
    if exact.Some? {
      return table[exact.value].1;
    }
    var i := 0;
    while i < |table|
      invariant 0 <= i <= |table|
      invariant forall j :: 0 <= j < i ==> !PartialMatcher(name)(table[j])
    {
      var (key, value) := table[i];
      if Contains(Lower(name), Lower(key)) || Contains(Lower(key), Lower(name)) {
        FirstIndexIs(table, PartialMatcher(name), i);
        return value;
      }
      i := i + 1;
    }
    return name;
  }

  /** No key appears twice in the table, so an exact lookup is unambiguous. */
  lemma TableKeysDistinct()
    ensures forall i, j :: 0 <= i < j < |TeamTable| ==> TeamTable[i].0 != TeamTable[j].0
  {}

  /** The rules of the normaliser, one by one: the first entry keyed by the name
      gives its team; for a name that is no key, the first entry it partially
      matches gives its team; a name that matches nothing comes back unchanged. */
  lemma NormaliseRules(table: seq<(string, string)>, name: string)
    ensures forall i :: 0 <= i < |table| && table[i].0 == name &&
                        (forall j :: 0 <= j < i ==> table[j].0 != name) ==>
                        Normalise(table, name) == table[i].1
    ensures (forall i :: 0 <= i < |table| ==> table[i].0 != name) ==>
            forall i :: 0 <= i < |table| && PartialMatch(name, table[i].0) &&
                        (forall j :: 0 <= j < i ==> !PartialMatch(name, table[j].0)) ==>
                        Normalise(table, name) == table[i].1
    ensures (forall i :: 0 <= i < |table| ==> table[i].0 != name && !PartialMatch(name, table[i].0)) ==>
            Normalise(table, name) == name
  {
    forall i | 0 <= i < |table| && table[i].0 == name && (forall j :: 0 <= j < i ==> table[j].0 != name)
      ensures Normalise(table, name) == table[i].1
    {
      FirstIndexIs(table, ExactMatcher(name), i);
    }
    if forall i :: 0 <= i < |table| ==> table[i].0 != name {
      assert FirstIndex(table, ExactMatcher(name)).None? by {
        assert forall i :: 0 <= i < |table| ==> !ExactMatcher(name)(table[i]);
      }
      forall i | 0 <= i < |table| && PartialMatch(name, table[i].0) &&
                 (forall j :: 0 <= j < i ==> !PartialMatch(name, table[j].0))
        ensures Normalise(table, name) == table[i].1
      {
        FirstIndexIs(table, PartialMatcher(name), i);
      }
      if forall i :: 0 <= i < |table| ==> !PartialMatch(name, table[i].0) {
        assert forall i :: 0 <= i < |table| ==> !PartialMatcher(name)(table[i]);
      }
    }
  }

  /** On the dashboard's table every key maps exactly to its own entry's team. */
  lemma TeamEnumOfKey(i: int)
    requires 0 <= i < |TeamTable|
    ensures TeamEnumOf(TeamTable[i].0) == TeamTable[i].1
  {
    TableKeysDistinct();
    NormaliseRules(TeamTable, TeamTable[i].0);
  }

  /** The empty string is included in every key, so it maps to the first
      entry's team, Royal Challengers Bangalore. */
  lemma EmptyNameMapsToRCB()
    ensures TeamEnumOf("") == RCB
  {
    NormaliseRules(TeamTable, "");
    ContainsEmptyAndSelf(Lower(TeamTable[0].0));
    assert PartialMatch("", TeamTable[0].0);
  }

  // ---------------------------------------------------------------------------
  // Night matches
  // ---------------------------------------------------------------------------

  /** The white space `parseInt` skips: tab, line feed, vertical tab, form feed,
      carriage return, the byte order mark, the Unicode space separators and
      the two Unicode line terminators. */
  predicate IsSpace(c: char)
  {
    c == ' ' || c == '\t' || c == '\n' || c == '\r' || c == '\U{000B}' || c == '\U{000C}' ||
    c == '\U{00A0}' || c == '\U{1680}' || '\U{2000}' <= c <= '\U{200A}' || c == '\U{202F}' ||
    c == '\U{205F}' || c == '\U{3000}' || c == '\U{FEFF}' || c == '\U{2028}' || c == '\U{2029}'
  }

  /** `parseInt`'s skipping of leading white space: what is left is a suffix
      of s that does not start with white space, and all it dropped was white space. */
  function TrimStart(s: string): (r: string)
    ensures |r| <= |s| && (r == [] || !IsSpace(r[0]))
    ensures r == s[|s| - |r|..]
    ensures forall i :: 0 <= i < |s| - |r| ==> IsSpace(s[i])
  {
    if s != [] && IsSpace(s[0]) then TrimStart(s[1..]) else s
  }

  /** The value of a digit in the given radix (10 or 16), if it is one. */
  function DigitValue(c: char, radix: nat): Option<nat>
  {
    if '0' <= c <= '9' && (c as int - '0' as int) < radix then Some(c as int - '0' as int)
    else if radix == 16 && 'a' <= c <= 'f' then Some(c as int - 'a' as int + 10)
    else if radix == 16 && 'A' <= c <= 'F' then Some(c as int - 'A' as int + 10)
    else None
  }

  /** The longest prefix of s made of digits of the radix. */
  function DigitPrefix(s: string, radix: nat): (ds: seq<nat>)
    ensures |ds| <= |s|
    ensures forall i :: 0 <= i < |ds| ==> DigitValue(s[i], radix) == Some(ds[i])
    ensures |ds| < |s| ==> DigitValue(s[|ds|], radix).None?
  {
    if s != [] && DigitValue(s[0], radix).Some? then [DigitValue(s[0], radix).value] + DigitPrefix(s[1..], radix)
    else []
  }

  /** The number the digits spell, most significant first. */
  function DigitsValue(ds: seq<nat>, radix: nat): nat
  {
    if ds == [] then 0 else DigitsValue(ds[..|ds| - 1], radix) * radix + ds[|ds| - 1]
  }

  /** A character that is a hexadecimal digit. */
  predicate HasDigit(s: string)
  {
    exists i :: 0 <= i < |s| && DigitValue(s[i], 16).Some?
  }

  /** A suffix with a digit in it leaves a digit in the whole string. */
  lemma SuffixHasDigit(s: string, t: string)
    requires |t| <= |s| && t == s[|s| - |t|..] && HasDigit(t)
    ensures HasDigit(s)
  {
    var i :| 0 <= i < |t| && DigitValue(t[i], 16).Some?;
    assert s[|s| - |t| + i] == t[i];
  }

  /** `parseInt(s)` without a radix: leading white space, an optional sign, an
      optional 0x/0X prefix for hexadecimal, then as many digits as there are;
      None stands for NaN (no digit at all). */
  function ParseInt(s: string): (r: Option<int>)
    ensures s == [] ==> r.None?
    ensures r.Some? ==> HasDigit(s)
    ensures r.Some? && r.value < 0 ==> exists i :: 0 <= i < |s| && s[i] == '-'
  {
    var t := TrimStart(s);
    var r := ParseSigned(t);
    if r.Some? then
      SuffixHasDigit(s, t);
      assert s[|s| - |t|] == t[0];
      r
    else r
  }

  /** `parseInt` after the white space: an optional sign, then the number. */
  function ParseSigned(t: string): (r: Option<int>)
    ensures r.Some? ==> HasDigit(t)
    ensures r.Some? && r.value < 0 ==> t != [] && t[0] == '-'
  {
    var negative := t != [] && t[0] == '-';
    var u := if t != [] && (t[0] == '-' || t[0] == '+') then t[1..] else t;
    var n := ParseUnsigned(u);
    if n.None? then None
    else
      SuffixHasDigit(t, u);
      Some(if negative then -(n.value as int) else n.value as int)
  }

  /** An unsigned number: hexadecimal after 0x or 0X, decimal otherwise. */
  function ParseUnsigned(u: string): (r: Option<nat>)
    ensures r.Some? ==> HasDigit(u)
  {
    var hex := |u| >= 2 && u[0] == '0' && (u[1] == 'x' || u[1] == 'X');
    var radix := if hex then 16 else 10;
    var d := if hex then u[2..] else u;
    var ds := DigitPrefix(d, radix);
    if ds == [] then None
    else
      assert DigitValue(d[0], 16).Some?;
      SuffixHasDigit(u, d);
      Some(DigitsValue(ds, radix))
  }

  /** `time.split(':')[0]`: everything before the first colon. */
  function BeforeColon(s: string): (r: string)
    ensures |r| <= |s| && r == s[..|r|] && ':' !in r
    ensures |r| < |s| ==> s[|r|] == ':'
  {
    if s == [] || s[0] == ':' then [] else [s[0]] + BeforeColon(s[1..])
  }

  /** `isNightMatch`: a missing or empty time counts as night; otherwise the
      leading hour must be at least 18 or at most 6, and a time whose hour
      does not parse is not a night match. */
  function IsNightMatch(time: Option<string>): (r: bool)
    ensures time.None? || time.value == "" ==> r
    ensures time.Some? && time.value != "" ==>
            (r <==> ParseInt(BeforeColon(time.value)).Some? &&
                    (ParseInt(BeforeColon(time.value)).value >= 18 || ParseInt(BeforeColon(time.value)).value <= 6))
  {
    if time.None? || time.value == "" then true
    else
      var hour := ParseInt(BeforeColon(time.value));
      hour.Some? && (hour.value >= 18 || hour.value <= 6)
  }

  /** A string that starts with a decimal digit (and no "0x" prefix) parses to
      the value of its leading digits. */
  lemma ParseIntLeadingDigits(s: string)
    requires s != [] && '0' <= s[0] <= '9'
    requires !(|s| >= 2 && s[0] == '0' && (s[1] == 'x' || s[1] == 'X'))
    ensures ParseInt(s) == Some(DigitsValue(DigitPrefix(s, 10), 10) as int)
  {
    assert !IsSpace(s[0]);
    assert TrimStart(s) == s;
    assert s[0] != '-' && s[0] != '+';
    var hex := |s| >= 2 && s[0] == '0' && (s[1] == 'x' || s[1] == 'X');
    assert !hex;
    assert DigitValue(s[0], 10).Some?;
    assert DigitPrefix(s, 10) != [];
  }

  /** Leading white space is skipped: it does not change the number. */
  lemma ParseIntSkipsSpace(w: string, s: string)
    requires forall i :: 0 <= i < |w| ==> IsSpace(w[i])
    ensures ParseInt(w + s) == ParseInt(s)
  {
    TrimStartSkipsSpace(w, s);
  }

  lemma {:induction false} TrimStartSkipsSpace(w: string, s: string)
    requires forall i :: 0 <= i < |w| ==> IsSpace(w[i])
    ensures TrimStart(w + s) == TrimStart(s)
  {
    if w != [] {
      assert (w + s)[0] == w[0];
      assert (w + s)[1..] == w[1..] + s;
      TrimStartSkipsSpace(w[1..], s);
    } else {
      assert w + s == s;
    }
  }

  /** A minus sign before decimal digits (and no "0x" prefix) negates their value. */
  lemma ParseIntNegative(t: string)
    requires |t| >= 2 && t[0] == '-' && '0' <= t[1] <= '9'
    requires !(|t| >= 3 && t[1] == '0' && (t[2] == 'x' || t[2] == 'X'))
    ensures ParseInt(t) == Some(-(DigitsValue(DigitPrefix(t[1..], 10), 10) as int))
  {
    assert !IsSpace(t[0]) && TrimStart(t) == t;
    ParseUnsignedDecimal(t[1..]);
  }

  /** Text that starts with a decimal digit, and not with "0x", is read in decimal. */
  lemma ParseUnsignedDecimal(u: string)
    requires u != [] && '0' <= u[0] <= '9'
    requires !(|u| >= 2 && u[0] == '0' && (u[1] == 'x' || u[1] == 'X'))
    ensures ParseUnsigned(u) == Some(DigitsValue(DigitPrefix(u, 10), 10))
  {
    assert DigitValue(u[0], 10).Some?;
  }

  /** Two decimal digits parse to their two-digit value. */
  lemma ParseTwoDigits(s: string)
    requires |s| == 2 && '0' <= s[0] <= '9' && '0' <= s[1] <= '9'
    ensures ParseInt(s) == Some((s[0] as int - '0' as int) * 10 + (s[1] as int - '0' as int))
  {
    ParseIntLeadingDigits(s);
    TwoDigitPrefixValue(s);
  }

  lemma TwoDigitPrefixValue(s: string)
    requires |s| == 2 && '0' <= s[0] <= '9' && '0' <= s[1] <= '9'
    ensures DigitsValue(DigitPrefix(s, 10), 10) == (s[0] as int - '0' as int) * 10 + (s[1] as int - '0' as int)
  {
    TwoDigitPrefix(s);
    TwoDigitsValue(s[0] as int - '0' as int, s[1] as int - '0' as int);
  }

  lemma TwoDigitsValue(da: nat, db: nat)
    ensures DigitsValue([da, db], 10) == da * 10 + db
  {
    assert [da][..0] == [];
    assert DigitsValue([da], 10) == DigitsValue([], 10) * 10 + da == da;
    assert [da, db][..1] == [da];
    assert DigitsValue([da, db], 10) == DigitsValue([da], 10) * 10 + db;
  }

  lemma TwoDigitPrefix(s: string)
    requires |s| == 2 && '0' <= s[0] <= '9' && '0' <= s[1] <= '9'
    ensures DigitPrefix(s, 10) == [s[0] as int - '0' as int, s[1] as int - '0' as int]
  {
    assert s[1..][1..] == [];
    assert DigitPrefix(s[1..], 10) == [s[1] as int - '0' as int];
  }

  /** The text before the colon of "hh:rest" is "hh". */
  lemma HourBeforeColon(a: char, b: char, rest: string)
    requires a != ':' && b != ':'
    ensures BeforeColon([a, b, ':'] + rest) == [a, b]
  {
    var s := [a, b, ':'] + rest;
    assert s[1..] == [b, ':'] + rest;
    assert s[1..][1..] == [':'] + rest;
    assert BeforeColon(s[1..][1..]) == [];
  }

  /** With a two-digit hour the test reads the hour as a decimal number. */
  lemma NightMatchTwoDigitHour(a: char, b: char, rest: string)
    requires '0' <= a <= '9' && '0' <= b <= '9'
    ensures var h := (a as int - '0' as int) * 10 + (b as int - '0' as int);
            IsNightMatch(Some([a, b, ':'] + rest)) <==> h >= 18 || h <= 6
  {
    HourBeforeColon(a, b, rest);
    ParseTwoDigits([a, b]);
  }

  /** A time that starts with a letter has no hour, so it is never a night match. */
  lemma NightMatchNeedsHour(time: string)
    requires time != [] && ('a' <= time[0] <= 'z' || 'A' <= time[0] <= 'Z')
    ensures !IsNightMatch(Some(time))
  {
    var u := BeforeColon(time);
    assert u != [] && u[0] == time[0];
    assert !IsSpace(u[0]) && TrimStart(u) == u;
    assert u[0] != '-' && u[0] != '+' && u[0] != '0';
    assert DigitValue(u[0], 10).None?;
    assert DigitPrefix(u, 10) == [];
    assert ParseInt(u).None?;
  }

  /** A 7:30 pm start is a night match. */
  lemma NightMatchEvening()
    ensures IsNightMatch(Some("19:30"))
  {
    assert "19:30" == ['1', '9', ':'] + "30";
    NightMatchTwoDigitHour('1', '9', "30");
  }

  /** A 2 pm start is not a night match. */
  lemma NightMatchAfternoon()
    ensures !IsNightMatch(Some("14:00"))
  {
    assert "14:00" == ['1', '4', ':'] + "00";
    NightMatchTwoDigitHour('1', '4', "00");
  }

  /** A start time still to be decided ("TBD") is not a night match. */
  lemma NightMatchUndecided()
    ensures !IsNightMatch(Some("TBD"))
  {
    NightMatchNeedsHour("TBD");
  }

  // ---------------------------------------------------------------------------
  // The fallback schedule
  // ---------------------------------------------------------------------------

  /** The standings of `WPL_2026_SCHEDULE.teams`. */
  const ScheduleTeams: seq<(string, int, real, int, int, int)> := [
    ("Royal Challengers Bangalore", 16, 1.125, 10, 8, 2),
    ("Delhi Capitals", 14, 0.845, 10, 7, 3),
    ("Mumbai Indians", 12, 0.432, 10, 6, 4),
    ("Gujarat Giants", 10, -0.223, 10, 5, 5),
    ("UP Warriorz", 8, -0.567, 10, 4, 6)
  ]

  const FallbackLiveMatch: LiveMatchInfo :=
    LiveMatchInfo(false, "", "", "", "No live matches. Using WPL 2026 schedule.", None, false, 60.0)

  /** `getFallbackData`, with the names passed through the normaliser. */
  function FallbackData(): (r: CricketData)
    ensures r.source == Fallback && |r.teams| == |ScheduleTeams|
    ensures r.liveMatch.Some? && !r.liveMatch.value.isLive
    ensures forall i :: 0 <= i < |r.teams| ==>
              r.teams[i].points == Some(ScheduleTeams[i].1) && r.teams[i].nrr == Some(ScheduleTeams[i].2) &&
              r.teams[i].played == Some(ScheduleTeams[i].3) && r.teams[i].won == Some(ScheduleTeams[i].4) &&
              r.teams[i].lost == Some(ScheduleTeams[i].5)
  {
    CricketData(
      seq(|ScheduleTeams|, i requires 0 <= i < |ScheduleTeams| =>
        var t := ScheduleTeams[i];
        ApiTeam(Some(TeamEnumOf(t.0)), Some(t.1), Some(t.2), Some(t.3), Some(t.4), Some(t.5))),
      Some(FallbackLiveMatch),
      Fallback)
  }

  /** The fallback standings carry the five team names, unchanged by the normaliser. */
  lemma FallbackTeamNames()
    ensures forall i :: 0 <= i < |FallbackData().teams| ==>
              FallbackData().teams[i].name == Some(ScheduleTeams[i].0) && IsTeamName(ScheduleTeams[i].0)
  {
    forall i | 0 <= i < |ScheduleTeams|
      ensures TeamEnumOf(ScheduleTeams[i].0) == ScheduleTeams[i].0
    {
      var k := [0, 3, 5, 7, 9][i];
      assert TeamTable[k].0 == ScheduleTeams[i].0 == TeamTable[k].1;
      TeamEnumOfKey(k);
    }
  }

  // ---------------------------------------------------------------------------
  // The retry/cooldown state machine
  // ---------------------------------------------------------------------------

  /** `RobustCricketService`. Times are milliseconds passed in by the caller for
      each `Date.now()`; the API key is fixed when the service is made. */
  class RobustCricketService {
    const apiKey: string
    const maxApiAttempts: int := 3
    const apiCooldown: int := 60000
    var apiAttempts: nat
    var lastApiSuccess: Option<int>

    constructor (apiKey: string)
      ensures this.apiKey == apiKey && apiAttempts == 0 && lastApiSuccess == None
    {
      this.apiKey := apiKey;
      apiAttempts := 0;
      lastApiSuccess := None;
    }

    /** The decision `shouldUseAPI` takes at time `now`. */
    function AdmitsAPI(now: int): (r: bool)
      reads this
      ensures apiKey == "" ==> !r
      ensures apiKey != "" && apiAttempts < maxApiAttempts ==> r
      ensures apiKey != "" && apiAttempts >= maxApiAttempts ==>
              (!r <==> lastApiSuccess.Some? && now - lastApiSuccess.value < apiCooldown)
    {
      if apiKey == "" then false
      else if apiAttempts >= maxApiAttempts then
        var timeSinceLastAttempt := if lastApiSuccess.Some? then now - lastApiSuccess.value else apiCooldown + 1;
        !(timeSinceLastAttempt < apiCooldown)
      else true
    }

    /** The attempt count `shouldUseAPI` leaves behind. */
    function AttemptsAfterCheck(now: int): (n: int)
      reads this
      ensures n == (if AdmitsAPI(now) && apiAttempts >= maxApiAttempts then 0 else apiAttempts)
    {
      if apiKey != "" && apiAttempts >= maxApiAttempts && AdmitsAPI(now) then 0 else apiAttempts
    }

    /** `shouldUseAPI`: after the cooldown it also resets the counter. */
    method ShouldUseAPI(now: int) returns (use: bool)
      modifies this
      ensures use == old(AdmitsAPI(now))
      ensures apiAttempts == old(AttemptsAfterCheck(now))
      ensures lastApiSuccess == old(lastApiSuccess)
    {
      if apiKey == "" {
        return false;
      }
      if apiAttempts >= maxApiAttempts {
        var timeSinceLastAttempt := if lastApiSuccess.Some? then now - lastApiSuccess.value else apiCooldown + 1;
        if timeSinceLastAttempt < apiCooldown {
          return false;
        }
        apiAttempts := 0;
      }
      return true;
    }

    /** `fetchLiveWPLData`, given what `tryFetchFromAPI` would produce; `now` is
        the time of the check and `finishedAt` the time the fetch completed. */
    method FetchLiveWPLData(now: int, finishedAt: int, outcome: ApiOutcome) returns (r: CricketData)
      modifies this
      ensures !old(AdmitsAPI(now)) ==>
              r == FallbackData() && apiAttempts == old(apiAttempts) && lastApiSuccess == old(lastApiSuccess)
      ensures old(AdmitsAPI(now)) && outcome.Delivered? ==>
              r == CricketData(outcome.data.teams, outcome.data.liveMatch, Api) &&
              apiAttempts == 0 && lastApiSuccess == Some(finishedAt)
      ensures old(AdmitsAPI(now)) && outcome.NoData? ==>
              r == FallbackData() && apiAttempts == old(AttemptsAfterCheck(now)) && lastApiSuccess == old(lastApiSuccess)
      ensures old(AdmitsAPI(now)) && outcome.Threw? ==>
              r == FallbackData() && apiAttempts == old(AttemptsAfterCheck(now)) + 1 &&
              lastApiSuccess == old(lastApiSuccess)
    {
      var use := ShouldUseAPI(now);
      if use {
        match outcome
        case Delivered(apiData) =>
          apiAttempts := 0;
          lastApiSuccess := Some(finishedAt);
          return CricketData(apiData.teams, apiData.liveMatch, Api);
        case NoData =>
        case Threw =>
          apiAttempts := apiAttempts + 1;
      }
      return FallbackData();
    }

    /** `fetchLiveWPLData` as wired to `tryFetchFromAPI`: since that function
        swallows every error, a failed request never counts as an attempt. */
    method FetchOverNetwork(now: int, finishedAt: int, net: Network) returns (r: CricketData)
      modifies this
      ensures apiAttempts <= old(apiAttempts)
      ensures !old(AdmitsAPI(now)) ==>
              r == FallbackData() && apiAttempts == old(apiAttempts) && lastApiSuccess == old(lastApiSuccess)
      ensures old(AdmitsAPI(now)) && net.standings.Some? ==>
              r == CricketData(net.standings.value, net.live, Api) &&
              apiAttempts == 0 && lastApiSuccess == Some(finishedAt)
      ensures net.standings.None? ==>
              r == FallbackData() && apiAttempts == old(AttemptsAfterCheck(now)) && lastApiSuccess == old(lastApiSuccess)
    {
      r := FetchLiveWPLData(now, finishedAt, TryFetchFromAPI(net));
    }

    /** `resetAPIAttempts`. */
    method ResetAPIAttempts()
      modifies this
      ensures apiAttempts == 0 && lastApiSuccess == None
    {
      apiAttempts := 0;
      lastApiSuccess := None;
    }

    /** `getStatus`: it asks `shouldUseAPI`, and so may reset the counter. */
    method GetStatus(now: int) returns (source: Source, attempts: int, lastSuccess: Option<int>)
      modifies this
      ensures source == (if old(AdmitsAPI(now)) then Api else Fallback)
      ensures attempts == apiAttempts == old(AttemptsAfterCheck(now))
      ensures lastSuccess == lastApiSuccess == old(lastApiSuccess)
    {
      var use := ShouldUseAPI(now);
      source := if use then Api else Fallback;
      attempts := apiAttempts;
      lastSuccess := lastApiSuccess;
    }
  }

  /** A client of the service: after three thrown fetches the service backs off
      for a minute after its last success, then tries the API again. */
  method CooldownScenario(payload: ApiPayload)
  {
    var service := new RobustCricketService("key");
    var r := service.FetchLiveWPLData(0, 0, Delivered(payload));
    assert r.source == Api && service.lastApiSuccess == Some(0);
    r := service.FetchLiveWPLData(1000, 1000, Threw);
    r := service.FetchLiveWPLData(2000, 2000, Threw);
    r := service.FetchLiveWPLData(3000, 3000, Threw);
    assert service.apiAttempts == 3;
    var use := service.ShouldUseAPI(30000);
    assert !use && service.apiAttempts == 3;
    use := service.ShouldUseAPI(60000);
    assert use && service.apiAttempts == 0;
  }

  // ---------------------------------------------------------------------------
  // Folding API data into the standings and the schedule
  // ---------------------------------------------------------------------------

  /** The `find` predicate of `updateStandingsFromAPI`. A missing name reads
      as the empty string on the second side, which every name includes. */
  predicate ApiNameMatches(e: ApiTeam, teamName: string): (r: bool)
    ensures e.name == Some(teamName) ==> r
    ensures !r ==> e.name.Some? && e.name.value != ""
  {
    ContainsEmptyAndSelf(Lower(teamName));
    assert Lower("") == "";
    (e.name.Some? && Contains(Lower(e.name.value), Lower(teamName))) ||
    Contains(Lower(teamName), Lower(e.name.GetOr("")))
  }

  function ApiMatcher(teamName: string): ApiTeam -> bool
  {
    (e: ApiTeam) => ApiNameMatches(e, teamName)
  }

  /** The first API row that matches the team, if any. */
  function FindApiTeam(apiTeams: seq<ApiTeam>, teamName: string): Option<nat>
  {
    FirstIndex(apiTeams, ApiMatcher(teamName))
  }

  /** One team, updated from its API row: each of the five fields comes from the
      row when present there. */
  function UpdateTeam(team: TeamStats, apiTeams: seq<ApiTeam>): (r: TeamStats)
    ensures r == team.(points := r.points, nrr := r.nrr, played := r.played, won := r.won, lost := r.lost)
    ensures FindApiTeam(apiTeams, team.name).None? ==> r == team
    ensures FindApiTeam(apiTeams, team.name).Some? ==>
              var a := apiTeams[FindApiTeam(apiTeams, team.name).value];
              (a.points.Some? ==> r.points == a.points.value) && (a.points.None? ==> r.points == team.points) &&
              (a.nrr.Some? ==> r.nrr == a.nrr.value) && (a.nrr.None? ==> r.nrr == team.nrr) &&
              (a.played.Some? ==> r.played == a.played.value) && (a.played.None? ==> r.played == team.played) &&
              (a.won.Some? ==> r.won == a.won.value) && (a.won.None? ==> r.won == team.won) &&
              (a.lost.Some? ==> r.lost == a.lost.value) && (a.lost.None? ==> r.lost == team.lost)
  {
    match FindApiTeam(apiTeams, team.name)
    case None => team
    case Some(k) =>
      var a := apiTeams[k];
      team.(points := a.points.GetOr(team.points), nrr := a.nrr.GetOr(team.nrr),
            played := a.played.GetOr(team.played), won := a.won.GetOr(team.won),
            lost := a.lost.GetOr(team.lost))
  }

  /** `updateStandingsFromAPI`. */
  function UpdateStandingsFromAPI(current: seq<TeamStats>, apiTeams: Option<seq<ApiTeam>>): (r: seq<TeamStats>)
    ensures |r| == |current|
    ensures apiTeams.None? || |apiTeams.value| == 0 ==> r == current
    ensures forall i :: 0 <= i < |current| ==>
              r[i] == current[i].(points := r[i].points, nrr := r[i].nrr, played := r[i].played,
                                  won := r[i].won, lost := r[i].lost)
  {
    if apiTeams.None? || |apiTeams.value| == 0 then current
    else seq(|current|, i requires 0 <= i < |current| => UpdateTeam(current[i], apiTeams.value))
  }

  /** Field by field: the first matching row's value when it has one, else the old value. */
  lemma UpdateStandingsFields(current: seq<TeamStats>, apiTeams: seq<ApiTeam>, i: int, k: int)
    requires |apiTeams| > 0 && 0 <= i < |current|
    requires 0 <= k < |apiTeams| && ApiNameMatches(apiTeams[k], current[i].name)
    requires forall j :: 0 <= j < k ==> !ApiNameMatches(apiTeams[j], current[i].name)
    ensures var t := UpdateStandingsFromAPI(current, Some(apiTeams))[i];
            var a := apiTeams[k];
            t.name == current[i].name &&
            t.points == (if a.points.Some? then a.points.value else current[i].points) &&
            t.nrr == (if a.nrr.Some? then a.nrr.value else current[i].nrr) &&
            t.played == (if a.played.Some? then a.played.value else current[i].played) &&
            t.won == (if a.won.Some? then a.won.value else current[i].won) &&
            t.lost == (if a.lost.Some? then a.lost.value else current[i].lost)
  {
    FirstIndexIs(apiTeams, ApiMatcher(current[i].name), k);
  }

  /** A team that no API row matches is left as it was. */
  lemma UpdateStandingsUnmatched(current: seq<TeamStats>, apiTeams: seq<ApiTeam>, i: int)
    requires 0 <= i < |current|
    requires forall j :: 0 <= j < |apiTeams| ==> !ApiNameMatches(apiTeams[j], current[i].name)
    ensures UpdateStandingsFromAPI(current, Some(apiTeams))[i] == current[i]
  {
    if |apiTeams| > 0 {
      assert FindApiTeam(apiTeams, current[i].name).None? by {
        assert forall j :: 0 <= j < |apiTeams| ==> !ApiMatcher(current[i].name)(apiTeams[j]);
      }
    }
  }

  /** An API row with a missing or empty name matches every team. */
  lemma NamelessRowMatchesEveryTeam(e: ApiTeam, teamName: string)
    requires e.name.None? || e.name.value == ""
    ensures ApiNameMatches(e, teamName)
  {
    assert Lower(e.name.GetOr("")) == "";
    ContainsEmptyAndSelf(Lower(teamName));
  }

  /** The update keeps every team's recent form, so well-formed standings stay so. */
  lemma UpdateStandingsKeepsWellFormed(current: seq<TeamStats>, apiTeams: Option<seq<ApiTeam>>)
    requires WellFormedStandings(current)
    ensures WellFormedStandings(UpdateStandingsFromAPI(current, apiTeams))
  {
    var r := UpdateStandingsFromAPI(current, apiTeams);
    forall t | t in r
      ensures WellFormedTeam(t)
    {
      var i :| 0 <= i < |r| && r[i] == t;
      assert current[i] in current;
    }
  }

  /** The selection rule of `updateMatchFromLive`. */
  predicate IsThisMatch(live: LiveMatchInfo, x: Match): (r: bool)
    ensures x.status == Live ==> r
    ensures Lower(live.team1) == Lower(x.team1) || Lower(live.team2) == Lower(x.team1) ==> r
    ensures x.team1 == "" ==> r
  {
    ContainsEmptyAndSelf(Lower(x.team1));
    ContainsEmptyAndSelf(Lower(live.team1));
    assert Lower("") == "";
    Contains(Lower(live.team1), Lower(x.team1)) ||
    Contains(Lower(live.team2), Lower(x.team1)) ||
    x.status == Live
  }

  /** The telemetry `updateMatchFromLive` writes to a selected match. */
  function SyncedMetrics(live: LiveMatchInfo): LiveMetrics
  {
    LiveMetrics(
      runsNeeded := 0.0, ballsLeft := 0.0, wicketsLost := 0.0, currentRR := 0.0, requiredRR := 0.0,
      target := live.target.GetOr(0.0), isNightMatch := live.isNight, humidityLevel := live.humidity,
      dewLikelihood := 0.7, scoreString := Some(live.score))
  }

  function LiveUpdate(live: LiveMatchInfo, x: Match): Match
  {
    if IsThisMatch(live, x) then
      x.(status := Live, score1 := Some(live.score), summary := Some(live.summary),
         liveMetrics := Some(SyncedMetrics(live)))
    else x
  }

  /** `updateMatchFromLive`. */
  function UpdateMatchFromLive(matches: seq<Match>, liveMatch: Option<LiveMatchInfo>): (r: seq<Match>)
    ensures |r| == |matches|
    ensures liveMatch.None? || !liveMatch.value.isLive ==> r == matches
    ensures forall i :: 0 <= i < |matches| ==>
              r[i].id == matches[i].id && r[i].stage == matches[i].stage &&
              r[i].team1 == matches[i].team1 && r[i].team2 == matches[i].team2 &&
              r[i].prediction == matches[i].prediction && r[i].winner == matches[i].winner &&
              r[i].score2 == matches[i].score2 && r[i].playerOfTheMatch == matches[i].playerOfTheMatch &&
              r[i].historicalH2H == matches[i].historicalH2H && r[i].venue == matches[i].venue &&
              r[i].playingXI == matches[i].playingXI
  {
    if liveMatch.None? || !liveMatch.value.isLive then matches
    else seq(|matches|, i requires 0 <= i < |matches| => LiveUpdate(liveMatch.value, matches[i]))
  }

  /** A live update selects exactly the live match and the ones named by the
      live teams; those become Live with fresh telemetry, the rest stay as they were. */
  lemma UpdateMatchFromLiveSpec(matches: seq<Match>, live: LiveMatchInfo, i: int)
    requires live.isLive && 0 <= i < |matches|
    ensures var r := UpdateMatchFromLive(matches, Some(live))[i];
            (IsThisMatch(live, matches[i]) ==>
               r == matches[i].(status := Live, score1 := Some(live.score), summary := Some(live.summary),
                                liveMetrics := Some(SyncedMetrics(live))) &&
               r.status == Live && r.score1 == Some(live.score) && r.summary == Some(live.summary) &&
               r.liveMetrics.Some? && r.liveMetrics.value.ballsLeft == 0.0 &&
               r.liveMetrics.value.wicketsLost == 0.0 && r.liveMetrics.value.dewLikelihood == 0.7 &&
               r.liveMetrics.value.target == (if live.target.Some? then live.target.value else 0.0) &&
               r.liveMetrics.value.isNightMatch == live.isNight) &&
            (!IsThisMatch(live, matches[i]) ==> r == matches[i])
  {}

  /** A Completed match named by the live teams goes back to Live. */
  lemma CompletedMatchCanReturnToLive(x: Match, live: LiveMatchInfo)
    requires live.isLive && x.status == Completed && Lower(live.team1) == Lower(x.team1)
    ensures UpdateMatchFromLive([x], Some(live))[0].status == Live
  {
    ContainsEmptyAndSelf(Lower(x.team1));
  }
}
