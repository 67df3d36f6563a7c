/**
 * The arithmetic of the line-up adjustment (app/services/lineup_service.py):
 * the minutes factor of a projected player, the share of the projected
 * goal involvement that a list of named players covers, and the
 * coverage and absence penalties built from those shares.
 * `normalize_person_name` is a parameter `normalize`.
 */
module LineupService {
  import opened Common
  import opened Text

  // ---------------------------------------------------------------------
  // Minutes factor
  // ---------------------------------------------------------------------

  /**
   * `_minutes_factor`: minutes per game over 90, clamped to [0.5, 1.0];
   * 0.85 when minutes or games are missing, zero or not positive.
   */
  function MinutesFactor(minutes: Option<int>, games: Option<int>): real
  {
    if minutes.None? || minutes.value == 0 || games.None? || games.value <= 0 then 0.85
    else
      var mpg := minutes.value as real / games.value as real;
      if mpg <= 0.0 then 0.85 else Max(0.5, Min(1.0, mpg / 90.0))
  }

  /** Without usable data the factor is 0.85; with it the factor lies in [0.5, 1.0]. */
  lemma MinutesFactorRange(minutes: Option<int>, games: Option<int>)
    ensures minutes.None? || games.None? || minutes.value <= 0 || games.value <= 0 ==>
      MinutesFactor(minutes, games) == 0.85
    ensures minutes.Some? && games.Some? && minutes.value > 0 && games.value > 0 ==>
      0.5 <= MinutesFactor(minutes, games) <= 1.0
    ensures minutes.Some? && games.Some? && games.value > 0 &&
      45 * games.value <= minutes.value <= 90 * games.value
      ==> MinutesFactor(minutes, games) == minutes.value as real / (90 * games.value) as real
  {
    if minutes.Some? && games.Some? && games.value > 0 && minutes.value != 0 {
      var m := minutes.value as real;
      var g := games.value as real;
      if minutes.value < 0 {
        DivNonPositive(m, g);
      } else {
        DivPositive(m, g);
        assert m / g / 90.0 == m / (90.0 * g);
        if 45 * games.value <= minutes.value <= 90 * games.value {
          PerGameWithin(m, g);
        }
      }
    }
  }

  lemma DivNonPositive(m: real, g: real)
    requires m < 0.0 && g > 0.0
    ensures m / g <= 0.0
  {
  }

  lemma DivPositive(m: real, g: real)
    requires m > 0.0 && g > 0.0
    ensures m / g > 0.0
  {
  }

  lemma PerGameWithin(m: real, g: real)
    requires g > 0.0 && 45.0 * g <= m <= 90.0 * g
    ensures 0.5 <= m / (90.0 * g) <= 1.0
  {
    assert m / (90.0 * g) * (90.0 * g) == m;
  }

  // ---------------------------------------------------------------------
  // Share sum
  // ---------------------------------------------------------------------

  /** One row of `_team_projection_shares`: name, goal-involvement share, minutes factor. */
  datatype Projection = Projection(name: string, share: real, minutesFactor: real)

  /** One entry of `player_map`: normalised name, surname, share, minutes factor. */
  datatype Entry = Entry(nameNorm: string, surname: string, share: real, minutesFactor: real)

  /** What a matched entry adds to the total. */
  function Contribution(e: Entry): real
  {
    e.share * e.minutesFactor
  }

  /** The last token of a name, or "" without tokens. */
  function Surname(nameNorm: string): string
  {
    var tokens := Words(nameNorm);
    if tokens == [] then "" else tokens[|tokens| - 1]
  }

  /** The entry of one projection, when its name and its normalised name are non-empty. */
  function EntryOf(p: Projection, normalize: string -> string): seq<Entry>
  {
    if p.name == "" || normalize(p.name) == "" then []
    else [Entry(normalize(p.name), Surname(normalize(p.name)), p.share, p.minutesFactor)]
  }

  /** `player_map`: an entry per projection with a usable name, in order. */
  function PlayerMapOf(shares: seq<Projection>, normalize: string -> string): seq<Entry>
  {
    if shares == [] then []
    else PlayerMapOf(shares[..|shares| - 1], normalize) + EntryOf(shares[|shares| - 1], normalize)
  }

  /** The first loop of `_share_sum`, which builds `player_map`. */
  method BuildPlayerMap(shares: seq<Projection>, normalize: string -> string) returns (m: seq<Entry>)
    ensures m == PlayerMapOf(shares, normalize)
  {
    m := [];
    var i := 0;
    while i < |shares|
      invariant 0 <= i <= |shares|
      invariant m == PlayerMapOf(shares[..i], normalize)
    {
      var p := shares[i];
      assert shares[..i + 1][..i] == shares[..i];
      if p.name != "" {
        var nameNorm := normalize(p.name);
        if nameNorm != "" {
          m := m + [Entry(nameNorm, Surname(nameNorm), p.share, p.minutesFactor)];
        }
      }
      i := i + 1;
    }
    assert shares[..|shares|] == shares;
  }

  /** The first test of the matching loop: equal names, or one inside the other. */
  predicate NameMatch(key: string, nameNorm: string)
  {
    key == nameNorm || Contains(nameNorm, key) || Contains(key, nameNorm)
  }

  /** The second test: the same surname. */
  predicate SurnameMatch(surnameKey: string, e: Entry)
  {
    surnameKey == e.surname && surnameKey != ""
  }

  /** The first test as a test on entries. */
  function NameTest(key: string): Entry -> bool
  {
    (e: Entry) => NameMatch(key, e.nameNorm)
  }

  /** The second test as a test on entries. */
  function SurnameTest(surnameKey: string): Entry -> bool
  {
    (e: Entry) => SurnameMatch(surnameKey, e)
  }

  /** Entry `i` may be taken: its name is not used yet and it passes the test. */
  predicate Takes(m: seq<Entry>, used: set<string>, ok: Entry -> bool, i: int)
  {
    0 <= i < |m| && m[i].nameNorm !in used && ok(m[i])
  }

  /** The first entry at or after `i` that may be taken, as each inner loop finds it. */
  function FirstUnused(m: seq<Entry>, used: set<string>, ok: Entry -> bool, i: nat): (r: Option<nat>)
    requires i <= |m|
    ensures r.Some? ==> i <= r.value && Takes(m, used, ok, r.value)
    ensures r.Some? ==> forall j :: i <= j < r.value ==> !Takes(m, used, ok, j)
    ensures r.None? ==> forall j :: i <= j < |m| ==> !Takes(m, used, ok, j)
    decreases |m| - i
  {
    if i == |m| then None
    else if m[i].nameNorm !in used && ok(m[i]) then Some(i)
    else FirstUnused(m, used, ok, i + 1)
  }

  /** An inner loop of `_share_sum`: skip used names, stop at the first entry that passes. */
  method FindUnused(m: seq<Entry>, used: set<string>, ok: Entry -> bool) returns (r: Option<nat>)
    ensures r == FirstUnused(m, used, ok, 0)
  {
    var i := 0;
    while i < |m|
      invariant 0 <= i <= |m|
      invariant FirstUnused(m, used, ok, 0) == FirstUnused(m, used, ok, i)
    {
      if m[i].nameNorm in used {
        i := i + 1;
      } else if ok(m[i]) {
        return Some(i);
      } else {
        i := i + 1;
      }
    }
    return None;
  }

  /**
   * The state of the matching loop: the used names, the running total and
   * (to state what the total is made of) the entries counted so far.
   */
  datatype ShareState = ShareState(used: set<string>, total: real, counted: seq<Entry>)

  const NoShares := ShareState({}, 0.0, [])

  /** Count one entry: its name becomes used and its contribution is added. */
  function Take(st: ShareState, e: Entry): ShareState
  {
    ShareState(st.used + {e.nameNorm}, st.total + Contribution(e), st.counted + [e])
  }

  /**
   * One player of the matching loop: an empty normalised name is skipped;
   * otherwise the first unused entry whose name matches is counted; failing
   * that, a surname of at least 4 characters counts the first unused entry
   * with that surname.
   */
  function Step(m: seq<Entry>, st: ShareState, p: string, normalize: string -> string): ShareState
  {
    StepKey(m, st, normalize(p))
  }

  /** One player by normalised name. */
  function StepKey(m: seq<Entry>, st: ShareState, key: string): ShareState
  {
    if key == "" then st
    else
      match FirstUnused(m, st.used, NameTest(key), 0)
      case Some(i) => Take(st, m[i])
      case None => Fallback(m, st, Words(key))
  }

  /** The surname fallback, on the tokens of the normalised name. */
  function Fallback(m: seq<Entry>, st: ShareState, tokens: seq<string>): ShareState
  {
    if tokens == [] then st else SurnameStep(m, st, tokens[|tokens| - 1])
  }

  /** The surname fallback, on the surname. */
  function SurnameStep(m: seq<Entry>, st: ShareState, surnameKey: string): ShareState
  {
    if |surnameKey| < 4 then st
    else
      match FirstUnused(m, st.used, SurnameTest(surnameKey), 0)
      case Some(j) => Take(st, m[j])
      case None => st
  }

  /** The state after the players, from no used names and a zero total. */
  function Run(m: seq<Entry>, players: seq<string>, normalize: string -> string): ShareState
  {
    if players == [] then NoShares
    else Step(m, Run(m, players[..|players| - 1], normalize), players[|players| - 1], normalize)
  }

  /** `_share_sum`: 0 without players or projections, else the total of the matching loop. */
  function ShareSumOf(players: seq<string>, shares: seq<Projection>, normalize: string -> string): real
  {
    if players == [] || shares == [] then 0.0 else Run(PlayerMapOf(shares, normalize), players, normalize).total
  }

  /** The contributions of a list of entries. */
  function Contributions(s: seq<Entry>): seq<real>
  {
    seq(|s|, i requires 0 <= i < |s| => Contribution(s[i]))
  }

  /** No two entries with the same normalised name. */
  predicate DistinctNames(s: seq<Entry>)
  {
    forall i, j :: 0 <= i < j < |s| ==> s[i].nameNorm != s[j].nameNorm
  }

  /**
   * The invariant of the matching loop: the used names are exactly the
   * names of the counted entries, no name is counted twice, every counted
   * entry is in the player map, and the total is the sum of their
   * contributions.
   */
  predicate Counts(m: seq<Entry>, st: ShareState)
  {
    st.used == (set e | e in st.counted :: e.nameNorm) &&
    DistinctNames(st.counted) &&
    (forall e :: e in st.counted ==> e in m) &&
    st.total == Sum(Contributions(st.counted))
  }

  lemma TakeCounts(m: seq<Entry>, st: ShareState, i: nat)
    requires Counts(m, st) && i < |m| && m[i].nameNorm !in st.used
    ensures Counts(m, Take(st, m[i]))
  {
    var e := m[i];
    var c := st.counted + [e];
    assert Contributions(c) == Contributions(st.counted) + [Contribution(e)];
    SumAppend(Contributions(st.counted), Contribution(e));
    forall a, b | 0 <= a < b < |c|
      ensures c[a].nameNorm != c[b].nameNorm
    {
      if b == |st.counted| {
        assert c[a] in st.counted;
      }
    }
    assert (set x | x in c :: x.nameNorm) == (set x | x in st.counted :: x.nameNorm) + {e.nameNorm};
  }

  lemma StepCounts(m: seq<Entry>, st: ShareState, p: string, normalize: string -> string)
    requires Counts(m, st)
    ensures Counts(m, Step(m, st, p, normalize))
  {
    var key := normalize(p);
    if key != "" {
      var first := FirstUnused(m, st.used, NameTest(key), 0);
      if first.Some? {
        TakeCounts(m, st, first.value);
      } else {
        var tokens := Words(key);
        if tokens != [] && |tokens[|tokens| - 1]| >= 4 {
          var surnameKey := tokens[|tokens| - 1];
          var second := FirstUnused(m, st.used, SurnameTest(surnameKey), 0);
          if second.Some? {
            TakeCounts(m, st, second.value);
          }
        }
      }
    }
  }

  lemma {:induction false} RunCounts(m: seq<Entry>, players: seq<string>, normalize: string -> string)
    ensures Counts(m, Run(m, players, normalize))
    decreases |players|
  {
    if players == [] {
      assert (set e | e in NoShares.counted :: e.nameNorm) == {};
    } else {
      RunCounts(m, players[..|players| - 1], normalize);
      StepCounts(m, Run(m, players[..|players| - 1], normalize), players[|players| - 1], normalize);
    }
  }

  /**
   * The share sum is 0 without players or projections; otherwise it is
   * the sum of the contributions of player-map entries with pairwise
   * distinct names: each normalised projection name counts at most once.
   */
  lemma ShareSumMeaning(players: seq<string>, shares: seq<Projection>, normalize: string -> string)
    ensures players == [] || shares == [] ==> ShareSumOf(players, shares, normalize) == 0.0
    ensures exists counted: seq<Entry> ::
      DistinctNames(counted) &&
      (forall e :: e in counted ==> e in PlayerMapOf(shares, normalize)) &&
      ShareSumOf(players, shares, normalize) == Sum(Contributions(counted))
  {
    if players == [] || shares == [] {
      assert Contributions([]) == [];
      assert DistinctNames([]);
    } else {
      var m := PlayerMapOf(shares, normalize);
      RunCounts(m, players, normalize);
      var st := Run(m, players, normalize);
      assert DistinctNames(st.counted);
    }
  }

  /**
   * The surname fallback counts an entry only when no name matched, the
   * player's surname has at least 4 characters, and the entry has that
   * surname.
   */
  lemma StepSurname(m: seq<Entry>, st: ShareState, key: string)
    requires key != ""
    requires FirstUnused(m, st.used, NameTest(key), 0).None?
    requires StepKey(m, st, key) != st
    ensures Words(key) != []
    ensures var tokens := Words(key);
      var surnameKey := tokens[|tokens| - 1];
      |surnameKey| >= 4 &&
      exists j :: 0 <= j < |m| && m[j].nameNorm !in st.used && m[j].surname == surnameKey &&
        StepKey(m, st, key) == Take(st, m[j])
  {
    var tokens := Words(key);
    assert StepKey(m, st, key) == Fallback(m, st, tokens);
    var surnameKey := tokens[|tokens| - 1];
    assert SurnameStep(m, st, surnameKey) != st;
    var j := FirstUnused(m, st.used, SurnameTest(surnameKey), 0).value;
    assert Takes(m, st.used, SurnameTest(surnameKey), j);
  }

  /** The surname part of the matching loop for one player. */
  method MatchSurname(m: seq<Entry>, used: set<string>, total: real, ghost counted: seq<Entry>,
                      surnameKey: string)
    returns (used': set<string>, total': real, ghost counted': seq<Entry>)
    ensures ShareState(used', total', counted') == SurnameStep(m, ShareState(used, total, counted), surnameKey)
  {
    used', total', counted' := used, total, counted;
    if |surnameKey| < 4 {
      return;
    }
    var second := FindUnused(m, used, SurnameTest(surnameKey));
    if second.Some? {
      var e := m[second.value];
      used', total', counted' := used + {e.nameNorm}, total + e.share * e.minutesFactor, counted + [e];
    }
  }

  /** The body of the matching loop for one player. */
  method MatchPlayer(m: seq<Entry>, used: set<string>, total: real, ghost counted: seq<Entry>,
                     key: string)
    returns (used': set<string>, total': real, ghost counted': seq<Entry>)
    ensures ShareState(used', total', counted') == StepKey(m, ShareState(used, total, counted), key)
  {
    used', total', counted' := used, total, counted;
    if key == "" {
      return;
    }
    var first := FindUnused(m, used, NameTest(key));
    if first.Some? {
      var e := m[first.value];
      used', total', counted' := used + {e.nameNorm}, total + e.share * e.minutesFactor, counted + [e];
      return;
    }
    var tokens := Words(key);
    if tokens != [] {
      used', total', counted' := MatchSurname(m, used, total, counted, tokens[|tokens| - 1]);
    }
  }

  /** `_share_sum`, with its loops over the projections, the players and the player map. */
  method ShareSum(players: seq<string>, shares: seq<Projection>, normalize: string -> string) returns (total: real)
    ensures total == ShareSumOf(players, shares, normalize)
  {
    if players == [] || shares == [] {
      return 0.0;
    }
    var m := BuildPlayerMap(shares, normalize);
    var used: set<string> := {};
    total := 0.0;
    ghost var counted: seq<Entry> := [];
    var i := 0;
    while i < |players|
      invariant 0 <= i <= |players|
      invariant ShareState(used, total, counted) == Run(m, players[..i], normalize)
    {
      assert players[..i + 1][..i] == players[..i];
      used, total, counted := MatchPlayer(m, used, total, counted, normalize(players[i]));
      i := i + 1;
    }
    assert players[..|players|] == players;
  }

  // ---------------------------------------------------------------------
  // Penalties
  // ---------------------------------------------------------------------

  /** The outcome of `compute_lineup_adjustment`, without its notes. */
  datatype Adjustment = Adjustment(
    coverageHome: real, coverageAway: real,
    penaltyHome: real, penaltyAway: real,
    absenceShareHome: real, absenceShareAway: real)

  /** The summed contributions of the first 11 projections. */
  function TopShare(shares: seq<Projection>): real
  {
    var top := Prefix(shares, 11);
    Sum(seq(|top|, i requires 0 <= i < |top| => top[i].share * top[i].minutesFactor))
  }

  /** A share over the top share, or 0 when the top share is not positive. */
  function Ratio(x: real, top: real): real
  {
    if top > 0.0 then x / top else 0.0
  }

  /** `conf_scale`: `0.6 + 0.4 * conf` clamped to [0.6, 1.0]. */
  function ConfScale(conf: real): real
  {
    Max(0.6, Min(1.0, 0.6 + 0.4 * conf))
  }

  /** A side's penalty: missing coverage and absences, scaled, clamped to [0, 0.30]. */
  function Penalty(coverage: real, absenceShare: real, confScale: real): real
  {
    Max(0.0, Min(0.30, (0.12 * (1.0 - coverage) + 0.25 * absenceShare) * confScale))
  }

  /**
   * The arithmetic of `compute_lineup_adjustment`: only the first 11 listed
   * players of each side count; absences all count; a zero confidence is
   * read as 0.6.
   */
  function AdjustmentOf(
    homePlayers: seq<string>, awayPlayers: seq<string>,
    homeAbsences: seq<string>, awayAbsences: seq<string>,
    sharesHome: seq<Projection>, sharesAway: seq<Projection>,
    confidence: real, normalize: string -> string): Adjustment
  {
    var topHome := TopShare(sharesHome);
    var topAway := TopShare(sharesAway);
    var coverageHome := Ratio(ShareSumOf(Prefix(homePlayers, 11), sharesHome, normalize), topHome);
    var coverageAway := Ratio(ShareSumOf(Prefix(awayPlayers, 11), sharesAway, normalize), topAway);
    var absenceHome := Ratio(ShareSumOf(homeAbsences, sharesHome, normalize), topHome);
    var absenceAway := Ratio(ShareSumOf(awayAbsences, sharesAway, normalize), topAway);
    var conf := if confidence == 0.0 then 0.6 else confidence;
    var scale := ConfScale(conf);
    Adjustment(coverageHome, coverageAway,
      Penalty(coverageHome, absenceHome, scale), Penalty(coverageAway, absenceAway, scale),
      absenceHome, absenceAway)
  }

  /** The confidence scale lies in [0.6, 1.0], and is 0.6 + 0.4 * conf inside that range. */
  lemma ConfScaleRange(conf: real)
    ensures 0.6 <= ConfScale(conf) <= 1.0
    ensures 0.0 <= conf <= 1.0 ==> ConfScale(conf) == 0.6 + 0.4 * conf
  {
  }

  /**
   * Both penalties lie in [0, 0.30]; a side whose top share is not positive
   * has zero coverage and zero absence share.
   */
  lemma AdjustmentBounds(
    homePlayers: seq<string>, awayPlayers: seq<string>,
    homeAbsences: seq<string>, awayAbsences: seq<string>,
    sharesHome: seq<Projection>, sharesAway: seq<Projection>,
    confidence: real, normalize: string -> string)
    ensures var a := AdjustmentOf(homePlayers, awayPlayers, homeAbsences, awayAbsences, sharesHome, sharesAway, confidence, normalize);
      0.0 <= a.penaltyHome <= 0.30 && 0.0 <= a.penaltyAway <= 0.30
    ensures TopShare(sharesHome) <= 0.0 ==>
      var a := AdjustmentOf(homePlayers, awayPlayers, homeAbsences, awayAbsences, sharesHome, sharesAway, confidence, normalize);
      a.coverageHome == 0.0 && a.absenceShareHome == 0.0
    ensures TopShare(sharesAway) <= 0.0 ==>
      var a := AdjustmentOf(homePlayers, awayPlayers, homeAbsences, awayAbsences, sharesHome, sharesAway, confidence, normalize);
      a.coverageAway == 0.0 && a.absenceShareAway == 0.0
  {
  }

  /** Players after the eleventh of a side change nothing. */
  lemma AdjustmentFirstEleven(
    homePlayers: seq<string>, homePlayers': seq<string>,
    awayPlayers: seq<string>, awayPlayers': seq<string>,
    homeAbsences: seq<string>, awayAbsences: seq<string>,
    sharesHome: seq<Projection>, sharesAway: seq<Projection>,
    confidence: real, normalize: string -> string)
    requires Prefix(homePlayers, 11) == Prefix(homePlayers', 11)
    requires Prefix(awayPlayers, 11) == Prefix(awayPlayers', 11)
    ensures AdjustmentOf(homePlayers, awayPlayers, homeAbsences, awayAbsences, sharesHome, sharesAway, confidence, normalize) ==
      AdjustmentOf(homePlayers', awayPlayers', homeAbsences, awayAbsences, sharesHome, sharesAway, confidence, normalize)
  {
  }
}
