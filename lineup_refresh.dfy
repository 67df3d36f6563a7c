/**
 * The parsing and matching helpers of the lineup refresh
 * (app/services/lineup_refresh_service.py): team-name normalisation, alias
 * variants and team keys, de-duplication of player lists, the absence
 * blobs of the lineup pages, season labels, the exact part of match
 * lookup, and the refresh throttle.
 * `clean_person_name` is a parameter `clean`.
 */
module LineupRefresh {
  import opened Common
  import opened Text
  import opened Sorting
  import Calendar

  // ---------------------------------------------------------------------
  // Team names
  // ---------------------------------------------------------------------

  /** The characters `_normalize_text` keeps: `[a-z0-9 ]`. */
  predicate Allowed(c: char)
  {
    'a' <= c <= 'z' || '0' <= c <= '9' || c == ' '
  }

  predicate AllAllowed(s: string)
  {
    forall i :: 0 <= i < |s| ==> Allowed(s[i])
  }

  /**
   * `re.sub(r"[^a-z0-9 ]+", " ", s)`: every maximal run of other characters
   * becomes one space (`inRun` says a run is already open).
   */
  function Squash(s: string, inRun: bool): (r: string)
    ensures AllAllowed(r)
    decreases |s|
  {
    if s == [] then []
    else if Allowed(s[0]) then [s[0]] + Squash(s[1..], false)
    else if inRun then Squash(s[1..], true)
    else [' '] + Squash(s[1..], true)
  }

  /**
   * `_normalize_text`: lower case, underscores as spaces, every run of
   * other characters as one space, then stripped. The result holds only
   * `[a-z0-9 ]` and neither starts nor ends with a space.
   */
  function NormalizeText(value: string): (r: string)
    ensures AllAllowed(r)
    ensures r != [] ==> r[0] != ' ' && r[|r| - 1] != ' '
  {
    var sq := Squash(ReplaceChar(Lower(value), '_', ' '), false);
    StripChars(sq);
    Strip(sq)
  }

  /** Stripping keeps a subrange of the string, so only characters of the string. */
  lemma StripChars(s: string)
    ensures forall i :: 0 <= i < |Strip(s)| ==> Strip(s)[i] in s
  {
    var l := LStrip(s);
    var r := RStrip(l);
    var k := |s| - |l|;
    assert r == s[k..k + |r|] by {
      assert l == s[k..];
      assert r == l[..|r|];
    }
    forall i | 0 <= i < |r|
      ensures r[i] in s
    {
      assert r[i] == s[k + i];
    }
  }

  /** Normalising twice is normalising once. */
  lemma NormalizeIdempotent(value: string)
    ensures NormalizeText(NormalizeText(value)) == NormalizeText(value)
  {
    var n := NormalizeText(value);
    assert Lower(n) == n;
    assert ReplaceChar(n, '_', ' ') == n;
    SquashAllowed(n, false);
    if n != [] {
      assert LStrip(n) == n;
      assert RStrip(n) == n;
    }
  }

  lemma {:induction false} SquashAllowed(s: string, inRun: bool)
    requires AllAllowed(s)
    ensures Squash(s, inRun) == s
    decreases |s|
  {
    if s != [] {
      SquashAllowed(s[1..], false);
    }
  }

  /** The club affixes `_alias_variants` drops. */
  const Affixes: set<string> := {"fc", "cf", "sc", "ac", "afc", "ssc"}

  /** The tokens `_team_key` leaves out. */
  const StopTokens: set<string> := {"fc", "cf", "sc", "ac", "afc", "ssc", "club", "calcio", "football", "futbol", "cd"}

  /**
   * `_alias_variants`: the normalised name without a trailing club affix,
   * without a leading one, and (for three tokens or more) without both;
   * empty variants are dropped. The variants are a set, as in the source.
   */
  function AliasVariants(name: string): set<string>
  {
    var cleaned := NormalizeText(name);
    if cleaned == "" then {} else VariantsOf(Words(cleaned))
  }

  /** The variants of a name with tokens `parts`. */
  function VariantsOf(parts: seq<string>): set<string>
  {
    var n := |parts|;
    var noLast: set<string> := if n > 0 && parts[n - 1] in Affixes then {Join(parts[..n - 1], " ")} else {};
    var noFirst: set<string> := if n > 0 && parts[0] in Affixes then {Join(parts[1..], " ")} else {};
    var noBoth: set<string> := if n > 2 && parts[0] in Affixes && parts[n - 1] in Affixes then {Join(parts[1..n - 1], " ")} else {};
    set v | v in noLast + noFirst + noBoth && v != ""
  }

  predicate Tokens(ts: seq<string>)
  {
    forall i :: 0 <= i < |ts| ==> ts[i] != [] && NoSpace(ts[i])
  }

  /**
   * Every alias variant is non-empty and has strictly fewer tokens than the
   * normalised name, at most two fewer: it drops the first token, the last,
   * or both.
   */
  lemma AliasVariantsFewerTokens(name: string)
    ensures forall v :: v in AliasVariants(name) ==> v != ""
    ensures forall v :: v in AliasVariants(name) ==>
      |Words(NormalizeText(name))| - 2 <= |Words(v)| < |Words(NormalizeText(name))|
  {
    var cleaned := NormalizeText(name);
    if cleaned != "" {
      VariantsFewer(Words(cleaned));
    }
  }

  lemma VariantsFewer(parts: seq<string>)
    requires Tokens(parts)
    ensures forall v :: v in VariantsOf(parts) ==> v != "" && |parts| - 2 <= |Words(v)| < |parts|
  {
    if |parts| > 0 {
      VariantsAreSlices(parts);
      SlicesFewer(parts);
    }
  }

  /** `v` joins the tokens without the last, without the first, or without both. */
  predicate SliceJoin(v: string, parts: seq<string>)
    requires |parts| > 0
  {
    v == Join(parts[..|parts| - 1], " ") || v == Join(parts[1..], " ") ||
    (|parts| > 2 && v == Join(parts[1..|parts| - 1], " "))
  }

  /** Each variant joins one of the three trimmed slices of the tokens. */
  lemma VariantsAreSlices(parts: seq<string>)
    requires |parts| > 0
    ensures forall v :: v in VariantsOf(parts) ==> v != "" && SliceJoin(v, parts)
  {
  }

  lemma SlicesFewer(parts: seq<string>)
    requires Tokens(parts) && |parts| > 0
    ensures forall v :: SliceJoin(v, parts) ==> |parts| - 2 <= |Words(v)| < |parts|
  {
    var n := |parts|;
    forall v | SliceJoin(v, parts)
      ensures n - 2 <= |Words(v)| < n
    {
      if v == Join(parts[..n - 1], " ") {
        assert parts[0..n - 1] == parts[..n - 1];
        SliceWordsCount(parts, 0, n - 1, v);
      } else if v == Join(parts[1..], " ") {
        assert parts[1..n] == parts[1..];
        SliceWordsCount(parts, 1, n, v);
      } else {
        SliceWordsCount(parts, 1, n - 1, v);
      }
    }
  }

  lemma SliceWordsCount(parts: seq<string>, i: nat, j: nat, v: string)
    requires Tokens(parts) && i <= j <= |parts| && v == Join(parts[i..j], " ")
    ensures |Words(v)| == j - i
  {
    SliceWords(parts, i, j);
  }

  /** A slice of tokens, joined by spaces, splits back into that slice. */
  lemma SliceWords(parts: seq<string>, i: nat, j: nat)
    requires Tokens(parts) && i <= j <= |parts|
    ensures Words(Join(parts[i..j], " ")) == parts[i..j]
  {
    SliceTokens(parts, i, j);
    WordsOfJoin(parts[i..j]);
  }

  lemma SliceTokens(ts: seq<string>, i: nat, j: nat)
    requires Tokens(ts) && i <= j <= |ts|
    ensures Tokens(ts[i..j])
  {
    assert forall k :: 0 <= k < j - i ==> ts[i..j][k] == ts[i + k];
  }

  /** `[t for t in tokens if t not in TEAM_STOP_TOKENS]`. */
  function WithoutStops(tokens: seq<string>): (r: seq<string>)
    ensures forall t :: t in r <==> t in tokens && t !in StopTokens
    ensures |r| <= |tokens|
    ensures Tokens(tokens) ==> Tokens(r)
  {
    if tokens == [] then []
    else if tokens[0] in StopTokens then WithoutStops(tokens[1..])
    else [tokens[0]] + WithoutStops(tokens[1..])
  }

  /** `_resolve_team`: the canonical name an alias maps to, or the value itself. */
  function ResolveTeam(value: string, aliasMap: map<string, string>): (r: string)
    ensures NormalizeText(value) in aliasMap ==> r == aliasMap[NormalizeText(value)]
    ensures NormalizeText(value) !in aliasMap ==> r == value
  {
    GetOr(aliasMap, NormalizeText(value), value)
  }

  /** The tokens of a team's resolved, normalised name. */
  function TeamTokens(value: string, aliasMap: map<string, string>): seq<string>
  {
    Words(NormalizeText(ResolveTeam(value, aliasMap)))
  }

  /** `_team_key`: the resolved name's tokens without stop tokens, unless every token is one. */
  function TeamKey(value: string, aliasMap: map<string, string>): string
  {
    KeyOfTokens(TeamTokens(value, aliasMap))
  }

  function KeyOfTokens(tokens: seq<string>): string
  {
    if tokens == [] then ""
    else
      var cleaned := WithoutStops(tokens);
      Join(if cleaned == [] then tokens else cleaned, " ")
  }

  /**
   * A team key is empty exactly when the name has no token; its tokens are
   * the name's tokens that are not stop tokens, or all of them when every
   * token is a stop token.
   */
  lemma TeamKeyMeaning(value: string, aliasMap: map<string, string>)
    ensures TeamKey(value, aliasMap) == "" <==> TeamTokens(value, aliasMap) == []
    ensures WithoutStops(TeamTokens(value, aliasMap)) != [] ==>
      Words(TeamKey(value, aliasMap)) == WithoutStops(TeamTokens(value, aliasMap))
    ensures TeamTokens(value, aliasMap) != [] && WithoutStops(TeamTokens(value, aliasMap)) == [] ==>
      Words(TeamKey(value, aliasMap)) == TeamTokens(value, aliasMap)
  {
    KeyOfTokensMeaning(TeamTokens(value, aliasMap));
  }

  lemma KeyOfTokensMeaning(tokens: seq<string>)
    requires Tokens(tokens)
    ensures KeyOfTokens(tokens) == "" <==> tokens == []
    ensures WithoutStops(tokens) != [] ==> Words(KeyOfTokens(tokens)) == WithoutStops(tokens)
    ensures tokens != [] && WithoutStops(tokens) == [] ==> Words(KeyOfTokens(tokens)) == tokens
  {
    if tokens != [] {
      var cleaned := WithoutStops(tokens);
      var kept := if cleaned == [] then tokens else cleaned;
      WordsOfJoin(kept);
      JoinNonEmpty(kept);
    }
  }

  /** A key keeps a stop token only when every token of the name is one. */
  lemma TeamKeyStops(value: string, aliasMap: map<string, string>, t: string)
    requires t in Words(TeamKey(value, aliasMap)) && t in StopTokens
    ensures forall u :: u in TeamTokens(value, aliasMap) ==> u in StopTokens
  {
    TeamKeyMeaning(value, aliasMap);
  }

  /** Joining non-empty tokens gives a non-empty string. */
  lemma JoinNonEmpty(ts: seq<string>)
    requires ts != [] && ts[0] != []
    ensures Join(ts, " ") != ""
  {
  }

  // ---------------------------------------------------------------------
  // Player lists
  // ---------------------------------------------------------------------

  /** `_dedupe` as a function of its input: each non-empty value at its first occurrence. */
  function DedupeOf(values: seq<string>): (r: seq<string>)
    ensures forall v :: v in r ==> v in values && v != ""
    decreases |values|
  {
    if values == [] then []
    else
      var d := DedupeOf(values[..|values| - 1]);
      var v := values[|values| - 1];
      if v != "" && v !in d then d + [v] else d
  }

  /** The index of the first occurrence of `v`. */
  function FirstIndex(values: seq<string>, v: string): (i: nat)
    requires v in values
    ensures i < |values| && values[i] == v && v !in values[..i]
  {
    if values[0] == v then 0
    else
      var k := FirstIndex(values[1..], v);
      assert values[..k + 1] == [values[0]] + values[1..][..k];
      k + 1
  }

  /**
   * What `_dedupe` keeps: exactly the non-empty values, each once, in the
   * order of their first occurrences.
   */
  lemma DedupeMeaning(values: seq<string>)
    ensures forall v :: v in DedupeOf(values) <==> v in values && v != ""
    ensures forall i, j :: 0 <= i < j < |DedupeOf(values)| ==> DedupeOf(values)[i] != DedupeOf(values)[j]
    ensures forall i, j :: 0 <= i < j < |DedupeOf(values)| ==>
      FirstIndex(values, DedupeOf(values)[i]) < FirstIndex(values, DedupeOf(values)[j])
  {
    DedupeMembers(values);
    DedupeDistinct(values);
    DedupeOrder(values);
  }

  lemma {:induction false} DedupeMembers(values: seq<string>)
    ensures forall v :: v in DedupeOf(values) <==> v in values && v != ""
    decreases |values|
  {
    if values != [] {
      var pre := values[..|values| - 1];
      DedupeMembers(pre);
      assert values == pre + [values[|values| - 1]];
    }
  }

  lemma {:induction false} DedupeDistinct(values: seq<string>)
    ensures forall i, j :: 0 <= i < j < |DedupeOf(values)| ==> DedupeOf(values)[i] != DedupeOf(values)[j]
    decreases |values|
  {
    if values != [] {
      DedupeDistinct(values[..|values| - 1]);
    }
  }

  lemma {:induction false} DedupeOrder(values: seq<string>)
    ensures forall i, j :: 0 <= i < j < |DedupeOf(values)| ==>
      FirstIndex(values, DedupeOf(values)[i]) < FirstIndex(values, DedupeOf(values)[j])
    decreases |values|
  {
    if values != [] {
      var pre := values[..|values| - 1];
      var v := values[|values| - 1];
      DedupeOrder(pre);
      assert values == pre + [v];
      DedupeOrderStep(pre, v);
    }
  }

  /** Appending one value keeps the kept values in first-occurrence order. */
  lemma DedupeOrderStep(pre: seq<string>, v: string)
    requires forall i, j :: 0 <= i < j < |DedupeOf(pre)| ==>
      FirstIndex(pre, DedupeOf(pre)[i]) < FirstIndex(pre, DedupeOf(pre)[j])
    ensures forall i, j :: 0 <= i < j < |DedupeOf(pre + [v])| ==>
      FirstIndex(pre + [v], DedupeOf(pre + [v])[i]) < FirstIndex(pre + [v], DedupeOf(pre + [v])[j])
  {
    var values := pre + [v];
    var d := DedupeOf(pre);
    assert values[..|values| - 1] == pre;
    assert DedupeOf(values) == if v != "" && v !in d then d + [v] else d;
    forall u | u in pre
      ensures FirstIndex(values, u) == FirstIndex(pre, u)
    {
      FirstIndexPrefix(pre, v, u);
    }
    if v != "" && v !in d {
      DedupeMembers(pre);
      FirstIndexLast(pre, v);
      var r := d + [v];
      forall i, j | 0 <= i < j < |r|
        ensures FirstIndex(values, r[i]) < FirstIndex(values, r[j])
      {
        assert r[i] == d[i] && r[i] in pre;
        if j < |d| {
          assert r[j] == d[j] && r[j] in pre;
        } else {
          assert r[j] == v;
        }
      }
    }
  }

  lemma {:induction false} FirstIndexPrefix(pre: seq<string>, v: string, u: string)
    requires u in pre
    ensures FirstIndex(pre + [v], u) == FirstIndex(pre, u)
    decreases |pre|
  {
    if pre[0] != u {
      assert (pre + [v])[1..] == pre[1..] + [v];
      FirstIndexPrefix(pre[1..], v, u);
    }
  }

  lemma {:induction false} FirstIndexLast(pre: seq<string>, v: string)
    requires v !in pre
    ensures FirstIndex(pre + [v], v) == |pre|
    ensures forall u :: u in pre ==> FirstIndex(pre + [v], u) < |pre|
    decreases |pre|
  {
    if pre != [] {
      assert (pre + [v])[1..] == pre[1..] + [v];
      FirstIndexLast(pre[1..], v);
    }
    forall u | u in pre
      ensures FirstIndex(pre + [v], u) < |pre|
    {
      FirstIndexPrefix(pre, v, u);
    }
  }

  /** `_dedupe`: one pass with a `seen` set. */
  method Dedupe(values: seq<string>) returns (out: seq<string>)
    ensures out == DedupeOf(values)
  {
    var seen: set<string> := {};
    out := [];
    var i := 0;
    while i < |values|
      invariant 0 <= i <= |values|
      invariant out == DedupeOf(values[..i])
      invariant seen == set u | u in out
    {
      var v := values[i];
      assert values[..i + 1][..i] == values[..i];
      if v != "" && v !in seen {
        seen := seen + {v};
        out := out + [v];
      }
      i := i + 1;
    }
    assert values[..|values|] == values;
  }

  /** `_clean_list`: each value cleaned, the empty results dropped. */
  function CleanList(values: seq<string>, clean: string -> string): (r: seq<string>)
    ensures |r| <= |values|
    ensures forall x :: x in r ==> x != "" && exists v :: v in values && clean(v) == x
  {
    if values == [] then []
    else
      var rest := CleanList(values[1..], clean);
      assert forall x :: x in rest ==> exists v :: v in values && clean(v) == x by {
        forall x | x in rest ensures exists v :: v in values && clean(v) == x {
          var v :| v in values[1..] && clean(v) == x;
          assert v in values;
        }
      }
      if clean(values[0]) == "" then rest else [clean(values[0])] + rest
  }

  /** `[p.strip() for p in parts if p.strip()]`. */
  function StrippedParts(parts: seq<string>): (r: seq<string>)
    ensures |r| <= |parts|
    ensures forall x :: x in r ==> x != ""
  {
    if parts == [] then []
    else
      var rest := StrippedParts(parts[1..]);
      if Strip(parts[0]) == "" then rest else [Strip(parts[0])] + rest
  }

  /** The words that mean "no absences". */
  predicate NoneWord(s: string)
  {
    s == "nessuno" || s == "-" || s == "n/a"
  }

  /**
   * `_parse_absence_blob`: nothing for a missing, blank or "none" blob;
   * otherwise the cleaned comma-separated names, empty ones dropped.
   */
  function ParseAbsenceBlob(value: Option<string>, clean: string -> string): (r: seq<string>)
    ensures value.None? || Strip(value.value) == "" || NoneWord(Lower(Strip(value.value))) ==> r == []
    ensures forall x :: x in r ==> x != ""
    ensures value.Some? && !NoneWord(Lower(Strip(value.value))) ==>
      r == CleanList(StrippedParts(Split(Strip(value.value), ',')), clean)
  {
    if value.None? || value.value == "" then []
    else
      var cleaned := Strip(value.value);
      if cleaned == "" || NoneWord(Lower(cleaned)) then []
      else CleanList(StrippedParts(Split(cleaned, ',')), clean)
  }

  /** The "none" words are recognised in any case and with surrounding blanks. */
  lemma AbsenceNoneWords(clean: string -> string)
    ensures ParseAbsenceBlob(Some(" Nessuno "), clean) == []
    ensures ParseAbsenceBlob(Some("N/A"), clean) == []
  {
    var a := " Nessuno ";
    assert LStrip(a) == a[1..];
    assert RStrip(a[1..]) == "Nessuno";
    assert Lower("Nessuno") == "nessuno";
    assert LStrip("N/A") == "N/A" && RStrip("N/A") == "N/A";
    assert Lower("N/A") == "n/a";
  }

  // ---------------------------------------------------------------------
  // Season labels
  // ---------------------------------------------------------------------

  /**
   * `_season_start_from_label`: the digits before a slash, else four
   * leading digits, as the start year; None for a missing or other label.
   */
  function SeasonStartFromLabel(seasonLabel: Option<string>): (r: Option<nat>)
    ensures r.Some? ==> seasonLabel.Some? && seasonLabel.value != ""
  {
    if seasonLabel.None? || seasonLabel.value == "" then None
    else StartOfStripped(Strip(seasonLabel.value))
  }

  /** The start year read from an already stripped label. */
  function StartOfStripped(s: string): Option<nat>
  {
    if '/' in s && IsDigits(Split(s, '/')[0]) then Some(DigitsValue(Split(s, '/')[0]))
    else if |s| >= 4 && IsDigits(s[..4]) then Some(DigitsValue(s[..4]))
    else None
  }

  /** The start year is read back from the `YYYY/YY` label of a season. */
  lemma SeasonStartOfLabel(start: nat)
    requires 1000 <= start <= 9998
    ensures SeasonStartFromLabel(Some(Calendar.SeasonLabel(start))) == Some(start)
  {
    var lab := Calendar.SeasonLabel(start);
    assert Strip(lab) == lab && lab != "" by { LabelStripped(start); }
    assert StartOfStripped(lab) == Some(start) by { LabelStart(start); }
    StartOfStrippedLabel(lab);
  }

  lemma StartOfStrippedLabel(lab: string)
    requires Strip(lab) == lab && lab != ""
    ensures SeasonStartFromLabel(Some(lab)) == StartOfStripped(lab)
  {
  }

  /** The tail of a season label: the last two digits of the next year. */
  function LabelTail(start: nat): string
  {
    [DigitChar(((start + 1) / 10) % 10), DigitChar((start + 1) % 10)]
  }

  /** A season label has no space at either end. */
  lemma LabelStripped(start: nat)
    requires 1000 <= start <= 9998
    ensures Strip(Calendar.SeasonLabel(start)) == Calendar.SeasonLabel(start) && Calendar.SeasonLabel(start) != ""
  {
    Calendar.SeasonLabelOfYear(start);
    var y := NatToString(start);
    var t := LabelTail(start);
    var lab := y + "/" + t;
    assert lab[0] == y[0];
    assert lab[|lab| - 1] == t[1];
    StrippedSelf(lab);
  }

  /** The digits before a season label's slash are its start year. */
  lemma LabelStart(start: nat)
    requires 1000 <= start <= 9998
    ensures StartOfStripped(Calendar.SeasonLabel(start)) == Some(start)
  {
    Calendar.SeasonLabelOfYear(start);
    var y := NatToString(start);
    var lab := y + "/" + LabelTail(start);
    assert lab[..|y|] == y && lab[|y|] == '/';
    assert '/' !in y by {
      assert forall i :: 0 <= i < |y| ==> IsDigit(y[i]);
    }
    SplitHead(lab, '/', |y|);
    StartOfSplit(lab, y, |y|);
  }

  lemma StartOfSplit(s: string, y: string, i: nat)
    requires i < |s| && s[i] == '/' && Split(s, '/')[0] == y && IsDigits(y)
    ensures StartOfStripped(s) == Some(DigitsValue(y))
  {
    assert '/' in s;
  }

  /** The first part of a split ends at the first separator. */
  lemma SplitHead(s: string, c: char, i: nat)
    requires i < |s| && s[i] == c && c !in s[..i]
    ensures Split(s, c)[0] == s[..i]
  {
    FirstOccurrence(s, c, i);
  }

  /** A string with no space at either end is its own stripped form. */
  lemma StrippedSelf(s: string)
    requires s != [] && !IsSpace(s[0]) && !IsSpace(s[|s| - 1])
    ensures Strip(s) == s
  {
    assert LStrip(s) == s;
    assert RStrip(s) == s;
  }

  /** The first occurrence of `c` is the index `IndexOf` finds. */
  lemma {:induction false} FirstOccurrence(s: string, c: char, i: nat)
    requires i < |s| && s[i] == c && c !in s[..i]
    ensures c in s && IndexOf(s, c) == i
    decreases i
  {
    if i > 0 {
      assert s[..i][0] == s[0];
      assert s[1..][..i - 1] == s[1..i];
      assert s[1..i] == s[..i][1..];
      FirstOccurrence(s[1..], c, i - 1);
    }
  }

  // ---------------------------------------------------------------------
  // Match lookup (its exact part)
  // ---------------------------------------------------------------------

  /** A known match of a team pair: its day (a day number) if known, and its id. */
  datatype Candidate = Candidate(day: Option<int>, matchId: string)

  /** The key of the by-day index: day and both team keys. */
  datatype DayKey = DayKey(day: int, home: string, away: string)

  /** The sort key of `_find_match_id`: days away from the wanted day, 999 without a day. */
  function Distance(c: Candidate, day: int): nat
  {
    if c.day.None? then 999
    else if c.day.value >= day then c.day.value - day
    else day - c.day.value
  }

  function DistanceKey(day: int): Candidate -> Key
  {
    c => (Distance(c, day) as real, 0.0)
  }

  /**
   * The candidates of the pair: the by-pair list of the team keys, or, when
   * that is missing or empty, `fuzzy`, the list of the most similar pair
   * (empty when no pair is similar enough).
   */
  function CandidatesOf(byPair: map<(string, string), seq<Candidate>>, home: string, away: string, fuzzy: seq<Candidate>): seq<Candidate>
  {
    var exact := GetOr(byPair, (home, away), []);
    if exact != [] then exact else fuzzy
  }

  /** The by-day index hit, when there is a day and the index holds a non-empty id for it. */
  predicate DayHit(byKey: map<DayKey, string>, day: Option<int>, home: string, away: string)
  {
    day.Some? && DayKey(day.value, home, away) in byKey && byKey[DayKey(day.value, home, away)] != ""
  }

  /** `_find_match_id`: the lookup on the two team keys. */
  function FindMatchId(
    byKey: map<DayKey, string>, byPair: map<(string, string), seq<Candidate>>,
    aliasMap: map<string, string>, home: string, away: string, day: Option<int>,
    fuzzy: seq<Candidate>): Option<string>
  {
    FindByKeys(byKey, byPair, TeamKey(home, aliasMap), TeamKey(away, aliasMap), day, fuzzy)
  }

  /**
   * The lookup of `_find_match_id` once both team keys are known: the
   * by-day hit if any; otherwise the first candidate without a day, or the
   * first candidate nearest to the day (the sort is stable, so ties keep
   * their order); None without candidates.
   */
  function FindByKeys(
    byKey: map<DayKey, string>, byPair: map<(string, string), seq<Candidate>>,
    h: string, a: string, day: Option<int>, fuzzy: seq<Candidate>): Option<string>
  {
    if DayHit(byKey, day, h, a) then Some(byKey[DayKey(day.value, h, a)])
    else
      var cands := CandidatesOf(byPair, h, a, fuzzy);
      if cands == [] then None
      else if day.None? then Some(cands[0].matchId)
      else Some(cands[ArgMin(cands, DistanceKey(day.value))].matchId)
  }

  /**
   * What the lookup returns: the by-day hit when there is one; otherwise
   * nothing exactly when there is no candidate, and else a candidate's id;
   * with a day it is the first candidate no farther from the day than any
   * other, without one the first candidate.
   */
  lemma FindByKeysMeaning(
    byKey: map<DayKey, string>, byPair: map<(string, string), seq<Candidate>>,
    h: string, a: string, day: Option<int>, fuzzy: seq<Candidate>)
    ensures DayHit(byKey, day, h, a) ==>
      FindByKeys(byKey, byPair, h, a, day, fuzzy) == Some(byKey[DayKey(day.value, h, a)])
    ensures !DayHit(byKey, day, h, a) ==>
      (FindByKeys(byKey, byPair, h, a, day, fuzzy).None? <==> CandidatesOf(byPair, h, a, fuzzy) == [])
    ensures !DayHit(byKey, day, h, a) && CandidatesOf(byPair, h, a, fuzzy) != [] ==>
      exists i :: NearestFirst(CandidatesOf(byPair, h, a, fuzzy), day, i) &&
        FindByKeys(byKey, byPair, h, a, day, fuzzy) == Some(CandidatesOf(byPair, h, a, fuzzy)[i].matchId)
  {
    var cands := CandidatesOf(byPair, h, a, fuzzy);
    if !DayHit(byKey, day, h, a) && cands != [] {
      if day.None? {
        assert NearestFirst(cands, day, 0);
      } else {
        var i := ArgMin(cands, DistanceKey(day.value));
        NearestOfArgMin(cands, day.value, i);
      }
    }
  }

  /** The candidates come from the exact pair of team keys whenever it has any. */
  lemma CandidatesExact(byPair: map<(string, string), seq<Candidate>>, h: string, a: string, fuzzy: seq<Candidate>)
    ensures (h, a) in byPair && byPair[(h, a)] != [] ==> CandidatesOf(byPair, h, a, fuzzy) == byPair[(h, a)]
    ensures !((h, a) in byPair && byPair[(h, a)] != []) ==> CandidatesOf(byPair, h, a, fuzzy) == fuzzy
  {
  }

  /**
   * Candidate `i` is the one the lookup picks: without a day the first;
   * with a day one no farther than any other and strictly nearer than every
   * candidate before it.
   */
  predicate NearestFirst(cands: seq<Candidate>, day: Option<int>, i: int)
  {
    0 <= i < |cands| &&
    (day.None? ==> i == 0) &&
    (day.Some? ==>
      (forall j :: 0 <= j < |cands| ==> Distance(cands[i], day.value) <= Distance(cands[j], day.value)) &&
      (forall j :: 0 <= j < i ==> Distance(cands[j], day.value) > Distance(cands[i], day.value)))
  }

  lemma NearestOfArgMin(cands: seq<Candidate>, day: int, i: nat)
    requires |cands| > 0 && i == ArgMin(cands, DistanceKey(day))
    ensures NearestFirst(cands, Some(day), i)
  {
    var key := DistanceKey(day);
    forall j | 0 <= j < |cands|
      ensures Distance(cands[i], day) <= Distance(cands[j], day)
    {
      assert KeyLe(key(cands[i]), key(cands[j]));
    }
    forall j | 0 <= j < i
      ensures Distance(cands[j], day) > Distance(cands[i], day)
    {
      assert !KeyLe(key(cands[j]), key(cands[i]));
    }
  }

  // ---------------------------------------------------------------------
  // Refresh throttle
  // ---------------------------------------------------------------------

  /** The notes the throttle of `refresh_lineups_for_day` can end with. */
  datatype ThrottleNote = SkippedNoCompetition | SkippedRecent | Proceed

  function ThrottleNoteName(n: ThrottleNote): string
  {
    match n
    case SkippedNoCompetition => "LINEUPS_REFRESH_SKIPPED_NO_COMPETITION"
    case SkippedRecent => "LINEUPS_REFRESH_SKIPPED_RECENT"
    case Proceed => "PROCEED"
  }

  /** `f"{competition}:{day_utc.isoformat()}"`. */
  function ThrottleKey(competition: string, dayIso: string): string
  {
    competition + ":" + dayIso
  }

  /** A refresh of the key was recorded less than the interval ago (times in seconds). */
  predicate Recent(last: map<string, real>, key: string, now: real, minIntervalMinutes: int)
  {
    key in last && now - last[key] < (minIntervalMinutes * 60) as real
  }

  /** The throttle's decision for a refresh request. */
  function Decide(last: map<string, real>, competition: Option<string>, dayIso: string, now: real, minIntervalMinutes: int): ThrottleNote
  {
    if competition.None? || competition.value == "" then SkippedNoCompetition
    else if Recent(last, ThrottleKey(competition.value, dayIso), now, minIntervalMinutes) then SkippedRecent
    else Proceed
  }

  /** The refresh times after the request: a refresh that goes ahead records `now` first. */
  function Recorded(last: map<string, real>, competition: Option<string>, dayIso: string, now: real, minIntervalMinutes: int): map<string, real>
  {
    if Decide(last, competition, dayIso, now, minIntervalMinutes) == Proceed then last[ThrottleKey(competition.value, dayIso) := now]
    else last
  }

  /** `_LAST_REFRESH` and the throttle at the head of `refresh_lineups_for_day`. */
  class RefreshThrottle {
    var last: map<string, real>

    constructor ()
      ensures last == map[]
    {
      last := map[];
    }

    method Refresh(competition: Option<string>, dayIso: string, now: real, minIntervalMinutes: int) returns (note: ThrottleNote)
      modifies this
      ensures note == Decide(old(last), competition, dayIso, now, minIntervalMinutes)
      ensures last == Recorded(old(last), competition, dayIso, now, minIntervalMinutes)
    {
      if competition.None? || competition.value == "" {
        return SkippedNoCompetition;
      }
      var key := competition.value + ":" + dayIso;
      if key in last && now - last[key] < (minIntervalMinutes * 60) as real {
        return SkippedRecent;
      }
      last := last[key := now];
      note := Proceed;
    }
  }

  /**
   * The throttle's promises: with no competition it skips; a skipped
   * request changes no recorded time; a request that goes ahead records
   * `now` for its key and changes no other key; a repeat within the
   * interval is skipped as recent.
   */
  lemma ThrottleMeaning(last: map<string, real>, competition: Option<string>, dayIso: string, now: real, later: real, minIntervalMinutes: int)
    ensures competition.None? || competition.value == "" ==> Decide(last, competition, dayIso, now, minIntervalMinutes) == SkippedNoCompetition
    ensures Decide(last, competition, dayIso, now, minIntervalMinutes) != Proceed ==>
      Recorded(last, competition, dayIso, now, minIntervalMinutes) == last
    ensures Decide(last, competition, dayIso, now, minIntervalMinutes) == Proceed ==>
      var key := ThrottleKey(competition.value, dayIso);
      var next := Recorded(last, competition, dayIso, now, minIntervalMinutes);
      key in next && next[key] == now &&
      (forall k :: k in last && k != key ==> k in next && next[k] == last[k]) &&
      (later - now < (minIntervalMinutes * 60) as real ==> Decide(next, competition, dayIso, later, minIntervalMinutes) == SkippedRecent)
  {
  }
}
