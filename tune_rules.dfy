/**
 * The rule tuner of the multi-pick cards (scripts/tune_schedine_rules.py):
 * the threshold grids, the settlement of a pick against a final score,
 * the card chosen for one day under a set of thresholds, the score of a
 * set of thresholds over many days, and the choice of the best set.
 */
module TuneRules {
  import opened Common
  import opened Text
  import opened Sorting
  import MarketEval

  // ---------------------------------------------------------------------
  // Grids
  // ---------------------------------------------------------------------

  predicate StrictlyIncreasing(s: seq<real>)
  {
    forall i, j :: 0 <= i < j < |s| ==> s[i] < s[j]
  }

  /** Inserts `x` into a strictly increasing list unless it is already there. */
  function InsertUnique(x: real, s: seq<real>): (r: seq<real>)
    requires StrictlyIncreasing(s)
    ensures StrictlyIncreasing(r)
    ensures forall y :: y in r <==> y == x || y in s
  {
    if s == [] then [x]
    else if x == s[0] then s
    else if x < s[0] then [x] + s
    else
      var rest := InsertUnique(x, s[1..]);
      assert forall j :: 0 <= j < |rest| ==> rest[j] in rest;
      [s[0]] + rest
  }

  /** `sorted(set(s))`. */
  function SortedSet(s: seq<real>): (r: seq<real>)
    ensures StrictlyIncreasing(r)
    ensures forall y :: y in r <==> y in s
  {
    if s == [] then [] else InsertUnique(s[|s| - 1], SortedSet(s[..|s| - 1]))
  }

  /** The numbers of the non-blank parts, or None when one of them is not a number (`float` raises). */
  function GridValues(parts: seq<string>): Option<seq<real>>
  {
    if parts == [] then Some([])
    else GridAppend(GridValues(parts[..|parts| - 1]), parts[|parts| - 1])
  }

  /** One part of the grid: blank parts are skipped, others must parse. */
  function GridAppend(vs: Option<seq<real>>, part: string): Option<seq<real>>
  {
    if vs.None? then None
    else if Strip(part) == [] then vs
    else match ParseDecimal(Strip(part))
      case None => None
      case Some(v) => Some(vs.value + [v])
  }

  /** `_parse_grid`: the distinct numbers of a comma-separated list, ascending. */
  function ParseGridOf(values: string): Option<seq<real>>
  {
    match GridValues(Split(values, ','))
    case None => None
    case Some(vs) => Some(SortedSet(vs))
  }

  /** The body of the loop of `_parse_grid`. */
  method GridPart(out: seq<real>, part: string) returns (r: Option<seq<real>>)
    ensures r == GridAppend(Some(out), part)
  {
    var stripped := Strip(part);
    if stripped == [] {
      return Some(out);
    }
    var v := ParseDecimal(stripped);
    if v.None? {
      return None;
    }
    return Some(out + [v.value]);
  }

  /** `_parse_grid`. */
  method ParseGrid(values: string) returns (grid: Option<seq<real>>)
    ensures grid == ParseGridOf(values)
  {
    var vs := GridOfParts(Split(values, ','));
    grid := if vs.None? then None else Some(SortedSet(vs.value));
  }

  /** The loop of `_parse_grid` over the comma-separated parts. */
  method GridOfParts(parts: seq<string>) returns (r: Option<seq<real>>)
    ensures r == GridValues(parts)
  {
    var out: seq<real> := [];
    var i := 0;
    while i < |parts|
      invariant 0 <= i <= |parts|
      invariant GridValues(parts[..i]) == Some(out)
    {
      assert parts[..i + 1][..i] == parts[..i];
      var next := GridPart(out, parts[i]);
      if next.None? {
        NoneStaysNone(parts, i + 1);
        return None;
      }
      out := next.value;
      i := i + 1;
    }
    assert parts[..i] == parts;
    r := Some(out);
  }

  /** Once a part fails to parse, the whole list fails. */
  lemma {:induction false} NoneStaysNone(parts: seq<string>, n: nat)
    requires 0 < n <= |parts| && GridValues(parts[..n]).None?
    ensures GridValues(parts).None?
    decreases |parts| - n
  {
    if n < |parts| {
      assert parts[..n + 1][..n] == parts[..n];
      NoneStaysNone(parts, n + 1);
    } else {
      assert parts[..n] == parts;
    }
  }

  /**
   * A grid is ascending without duplicates and holds exactly the numbers
   * of the non-blank parts.
   */
  lemma ParseGridMeaning(values: string)
    ensures match ParseGridOf(values)
      case None => true
      case Some(grid) =>
        StrictlyIncreasing(grid) &&
        forall y :: y in grid <==> y in GridValues(Split(values, ',')).value
  {
  }

  /** Blank parts add nothing; a parsed part adds its number. */
  lemma GridValuesBlank(parts: seq<string>, part: string)
    ensures Strip(part) == [] ==> GridValues(parts + [part]) == GridValues(parts)
    ensures Strip(part) != [] && ParseDecimal(Strip(part)).Some? && GridValues(parts).Some? ==>
      GridValues(parts + [part]) == Some(GridValues(parts).value + [ParseDecimal(Strip(part)).value])
  {
    assert (parts + [part])[..|parts|] == parts;
  }

  // ---------------------------------------------------------------------
  // Market keys and outcomes
  // ---------------------------------------------------------------------

  /** The seven (market, selection) pairs the tuner knows, in upper case. */
  predicate KnownPair(m: string, s: string)
  {
    (m == "1X2" && (s == "HOME" || s == "DRAW" || s == "AWAY")) ||
    (m == "OU_2.5" && (s == "OVER" || s == "UNDER")) ||
    (m == "BTTS" && (s == "YES" || s == "NO"))
  }

  /** `_market_outcome`: whether the selection won at final score `hg`-`ag`. */
  function MarketOutcome(market: string, selection: string, hg: int, ag: int): bool
  {
    var m := Upper(market);
    var s := Upper(selection);
    if m == "1X2" && s == "HOME" then hg > ag
    else if m == "1X2" && s == "DRAW" then hg == ag
    else if m == "1X2" && s == "AWAY" then hg < ag
    else if m == "OU_2.5" && s == "OVER" then hg + ag >= 3
    else if m == "OU_2.5" && s == "UNDER" then hg + ag <= 2
    else if m == "BTTS" && s == "YES" then hg > 0 && ag > 0
    else if m == "BTTS" && s == "NO" then !(hg > 0 && ag > 0)
    else false
  }

  /**
   * `_market_key` of this script is the key table of the market evaluation
   * (`IntervalKey`): a pair has a key exactly when it is one of the seven
   * pairs a pick can be settled on, in any letter case.
   */
  lemma MarketKeyKnown(market: string, selection: string)
    ensures MarketEval.IntervalKey(market, selection).Some? <==> KnownPair(Upper(market), Upper(selection))
  {
  }

  /**
   * HOME, DRAW and AWAY partition the scores; OVER and UNDER are
   * complementary, and so are YES and NO; an unknown pair never wins; the
   * letter case does not matter.
   */
  lemma MarketOutcomeMeaning(market: string, selection: string, hg: int, ag: int)
    ensures Upper(market) == "1X2" ==>
      (MarketOutcome(market, "home", hg, ag) || MarketOutcome(market, "DRAW", hg, ag) ||
       MarketOutcome(market, "away", hg, ag)) &&
      !(MarketOutcome(market, "HOME", hg, ag) && MarketOutcome(market, "DRAW", hg, ag)) &&
      !(MarketOutcome(market, "HOME", hg, ag) && MarketOutcome(market, "AWAY", hg, ag)) &&
      !(MarketOutcome(market, "DRAW", hg, ag) && MarketOutcome(market, "AWAY", hg, ag))
    ensures Upper(market) == "OU_2.5" ==>
      MarketOutcome(market, "OVER", hg, ag) == !MarketOutcome(market, "UNDER", hg, ag)
    ensures Upper(market) == "BTTS" ==>
      MarketOutcome(market, "YES", hg, ag) == !MarketOutcome(market, "NO", hg, ag)
    ensures !KnownPair(Upper(market), Upper(selection)) ==> !MarketOutcome(market, selection, hg, ag)
    ensures MarketOutcome(Upper(market), Upper(selection), hg, ag) == MarketOutcome(market, selection, hg, ag)
  {
    UpperIdempotent(market);
    UpperIdempotent(selection);
    assert Upper("home") == "HOME";
    assert Upper("away") == "AWAY";
    assert Upper("HOME") == "HOME";
    assert Upper("DRAW") == "DRAW";
    assert Upper("AWAY") == "AWAY";
    assert Upper("OVER") == "OVER";
    assert Upper("UNDER") == "UNDER";
    assert Upper("YES") == "YES";
    assert Upper("NO") == "NO";
  }

  // ---------------------------------------------------------------------
  // One card
  // ---------------------------------------------------------------------

  /** A candidate pick of one day, already settled (`won`). */
  datatype Candidate = Candidate(matchId: string, prob: real, edge: real, odds: real, won: bool)

  /** The thresholds a card is chosen under. */
  datatype Thresholds = Thresholds(
    cardSize: int, minProb: real, minEdge: real, maxOdds: Option<real>, minOdds: Option<real>)

  /** A candidate meets every threshold. */
  predicate Eligible(c: Candidate, t: Thresholds)
  {
    c.prob >= t.minProb && c.edge >= t.minEdge &&
    (t.maxOdds.None? || c.odds <= t.maxOdds.value) &&
    (t.minOdds.None? || c.odds >= t.minOdds.value)
  }

  /** The match ids of some picks. */
  function MatchIds(picks: seq<Candidate>): set<string>
  {
    set p | p in picks :: p.matchId
  }

  /**
   * The card loop of `_select_card` from position `i` of the sorted
   * candidates: skip used matches and candidates below a threshold, and
   * stop once the card is full.
   */
  function SelectFrom(sorted: seq<Candidate>, t: Thresholds, i: nat, picks: seq<Candidate>, used: set<string>): seq<Candidate>
    requires i <= |sorted|
    decreases |sorted| - i
  {
    if i == |sorted| then picks
    else
      var c := sorted[i];
      if c.matchId in used || !Eligible(c, t) then SelectFrom(sorted, t, i + 1, picks, used)
      else if |picks + [c]| >= t.cardSize then picks + [c]
      else SelectFrom(sorted, t, i + 1, picks + [c], used + {c.matchId})
  }

  /** `_select_card`: the card drawn from the candidates in descending `key` order. */
  function CardOf(cands: seq<Candidate>, t: Thresholds, key: Candidate -> Key): seq<Candidate>
  {
    SelectFrom(SortByDesc(cands, key), t, 0, [], {})
  }

  /** `_select_card`, with its loop and its set of used matches. */
  method SelectCard(cands: seq<Candidate>, t: Thresholds, key: Candidate -> Key) returns (picks: seq<Candidate>)
    ensures picks == CardOf(cands, t, key)
  {
    var sorted := SortByDesc(cands, key);
    picks := [];
    var used: set<string> := {};
    var i := 0;
    while i < |sorted|
      invariant 0 <= i <= |sorted|
      invariant SelectFrom(sorted, t, 0, [], {}) == SelectFrom(sorted, t, i, picks, used)
    {
      var c := sorted[i];
      if c.matchId in used || !Eligible(c, t) {
        i := i + 1;
      } else {
        picks := picks + [c];
        used := used + {c.matchId};
        if |picks| >= t.cardSize {
          return;
        }
        i := i + 1;
      }
    }
  }

  /** Non-increasing keys. */
  predicate Descending(s: seq<Candidate>, key: Candidate -> Key)
  {
    forall i, j :: 0 <= i < j < |s| ==> KeyLe(key(s[j]), key(s[i]))
  }

  /** Every pick so far keys at least as high as every candidate from `i` on. */
  predicate AheadOf(sorted: seq<Candidate>, key: Candidate -> Key, i: nat, picks: seq<Candidate>)
  {
    forall p, k :: p in picks && i <= k < |sorted| ==> KeyLe(key(sorted[k]), key(p))
  }

  predicate DistinctMatches(picks: seq<Candidate>)
  {
    forall a, b :: 0 <= a < b < |picks| ==> picks[a].matchId != picks[b].matchId
  }

  /** The card loop keeps its picks in non-increasing key order. */
  lemma {:induction false} SelectOrder(sorted: seq<Candidate>, t: Thresholds, key: Candidate -> Key, i: nat,
                                       picks: seq<Candidate>, used: set<string>)
    requires i <= |sorted| && Descending(sorted, key) && Descending(picks, key) && AheadOf(sorted, key, i, picks)
    ensures Descending(SelectFrom(sorted, t, i, picks, used), key)
    decreases |sorted| - i
  {
    if i < |sorted| {
      var c := sorted[i];
      if c.matchId !in used && Eligible(c, t) {
        var ps := picks + [c];
        forall a, b | 0 <= a < b < |ps| ensures KeyLe(key(ps[b]), key(ps[a])) {
          if b == |picks| {
            assert ps[a] in picks;
          }
        }
        forall p, k | p in ps && i + 1 <= k < |sorted| ensures KeyLe(key(sorted[k]), key(p)) {
          if p == c {
            assert KeyLe(key(sorted[k]), key(sorted[i]));
          }
        }
        if |ps| < t.cardSize {
          SelectOrder(sorted, t, key, i + 1, ps, used + {c.matchId});
        }
      } else {
        SelectOrder(sorted, t, key, i + 1, picks, used);
      }
    }
  }

  /** The card loop never takes two picks from one match. */
  lemma {:induction false} SelectDistinct(sorted: seq<Candidate>, t: Thresholds, i: nat,
                                          picks: seq<Candidate>, used: set<string>)
    requires i <= |sorted| && used == MatchIds(picks) && DistinctMatches(picks)
    ensures DistinctMatches(SelectFrom(sorted, t, i, picks, used))
    decreases |sorted| - i
  {
    if i < |sorted| {
      var c := sorted[i];
      if c.matchId !in used && Eligible(c, t) {
        var ps := picks + [c];
        forall a, b | 0 <= a < b < |ps| ensures ps[a].matchId != ps[b].matchId {
          if b == |picks| {
            assert ps[a] in picks;
          }
        }
        assert MatchIds(ps) == MatchIds(picks) + {c.matchId};
        if |ps| < t.cardSize {
          SelectDistinct(sorted, t, i + 1, ps, used + {c.matchId});
        }
      } else {
        SelectDistinct(sorted, t, i + 1, picks, used);
      }
    }
  }

  /** The card loop takes only eligible candidates. */
  lemma {:induction false} SelectMembers(sorted: seq<Candidate>, t: Thresholds, i: nat,
                                         picks: seq<Candidate>, used: set<string>)
    requires i <= |sorted| && forall p :: p in picks ==> p in sorted && Eligible(p, t)
    ensures forall p :: p in SelectFrom(sorted, t, i, picks, used) ==> p in sorted && Eligible(p, t)
    decreases |sorted| - i
  {
    if i < |sorted| {
      var c := sorted[i];
      if c.matchId !in used && Eligible(c, t) {
        if |picks + [c]| < t.cardSize {
          SelectMembers(sorted, t, i + 1, picks + [c], used + {c.matchId});
        }
      } else {
        SelectMembers(sorted, t, i + 1, picks, used);
      }
    }
  }

  /** The card loop stops once the card holds `cardSize` picks (one, for a size below 1). */
  lemma {:induction false} SelectSize(sorted: seq<Candidate>, t: Thresholds, i: nat,
                                      picks: seq<Candidate>, used: set<string>)
    requires i <= |sorted| && (t.cardSize >= 1 ==> |picks| < t.cardSize) && (t.cardSize < 1 ==> picks == [])
    ensures t.cardSize >= 1 ==> |SelectFrom(sorted, t, i, picks, used)| <= t.cardSize
    ensures t.cardSize < 1 ==> |SelectFrom(sorted, t, i, picks, used)| <= 1
    decreases |sorted| - i
  {
    if i < |sorted| {
      var c := sorted[i];
      if c.matchId !in used && Eligible(c, t) {
        if |picks + [c]| < t.cardSize {
          SelectSize(sorted, t, i + 1, picks + [c], used + {c.matchId});
        }
      } else {
        SelectSize(sorted, t, i + 1, picks, used);
      }
    }
  }

  /** A card that is not full holds every match with an eligible candidate. */
  lemma {:induction false} SelectComplete(sorted: seq<Candidate>, t: Thresholds, i: nat,
                                          picks: seq<Candidate>, used: set<string>)
    requires i <= |sorted| && used == MatchIds(picks)
    requires forall k :: 0 <= k < i && Eligible(sorted[k], t) ==> sorted[k].matchId in used
    ensures var r := SelectFrom(sorted, t, i, picks, used);
      |r| < t.cardSize ==> forall c :: c in sorted && Eligible(c, t) ==> c.matchId in MatchIds(r)
    decreases |sorted| - i
  {
    if i == |sorted| {
      forall c | c in sorted && Eligible(c, t) ensures c.matchId in MatchIds(picks) {
        var k :| 0 <= k < |sorted| && sorted[k] == c;
      }
    } else {
      var c := sorted[i];
      if c.matchId !in used && Eligible(c, t) {
        var ps := picks + [c];
        assert MatchIds(ps) == MatchIds(picks) + {c.matchId};
        if |ps| < t.cardSize {
          SelectComplete(sorted, t, i + 1, ps, used + {c.matchId});
        }
      } else {
        SelectComplete(sorted, t, i + 1, picks, used);
      }
    }
  }

  /**
   * `_select_card` returns picks in non-increasing `key` order, from
   * distinct matches, each eligible and among the candidates, at most
   * `cardSize` of them when the size is positive (and at most one when it
   * is not); a card that is not full holds a pick from every match with
   * an eligible candidate.
   */
  lemma CardMeaning(cands: seq<Candidate>, t: Thresholds, key: Candidate -> Key)
    ensures var r := CardOf(cands, t, key);
      Descending(r, key) && DistinctMatches(r) &&
      (forall p :: p in r ==> p in cands && Eligible(p, t)) &&
      (t.cardSize >= 1 ==> |r| <= t.cardSize) && (t.cardSize < 1 ==> |r| <= 1) &&
      (|r| < t.cardSize ==> forall c :: c in cands && Eligible(c, t) ==> c.matchId in MatchIds(r))
  {
    var sorted := SortByDesc(cands, key);
    assert MatchIds([]) == {};
    SelectOrder(sorted, t, key, 0, [], {});
    SelectDistinct(sorted, t, 0, [], {});
    SelectMembers(sorted, t, 0, [], {});
    SelectSize(sorted, t, 0, [], {});
    SelectComplete(sorted, t, 0, [], {});
    forall x ensures x in sorted <==> x in cands {
      assert x in sorted <==> x in multiset(sorted);
    }
  }

  // ---------------------------------------------------------------------
  // Scoring a set of thresholds
  // ---------------------------------------------------------------------

  /** The odds of some picks, in order. */
  function OddsOf(picks: seq<Candidate>): seq<real>
  {
    seq(|picks|, i requires 0 <= i < |picks| => picks[i].odds)
  }

  predicate AllWon(picks: seq<Candidate>)
  {
    forall i :: 0 <= i < |picks| ==> picks[i].won
  }

  /** A card with one more pick has all won exactly when the shorter one has and the new pick won. */
  lemma AllWonAppend(picks: seq<Candidate>, c: Candidate)
    ensures AllWon(picks + [c]) <==> AllWon(picks) && c.won
  {
    assert (picks + [c])[|picks|] == c;
    assert forall j :: 0 <= j < |picks| ==> (picks + [c])[j] == picks[j];
  }

  /** The running counters of `_evaluate_rules`. */
  datatype Tally = Tally(cards: int, hits: int, profit: real)

  /** A full card adds one card, and a hit with profit (combined odds − 1), or a loss of 1. */
  function Score(tally: Tally, picks: seq<Candidate>, cardSize: int): Tally
  {
    if |picks| < cardSize then tally
    else if AllWon(picks) then Tally(tally.cards + 1, tally.hits + 1, tally.profit + Product(OddsOf(picks)) - 1.0)
    else Tally(tally.cards + 1, tally.hits, tally.profit - 1.0)
  }

  /** The counters after some days. */
  function TallyOf(days: seq<seq<Candidate>>, t: Thresholds, key: Candidate -> Key): Tally
  {
    if days == [] then Tally(0, 0, 0.0)
    else Score(TallyOf(days[..|days| - 1], t, key), CardOf(days[|days| - 1], t, key), t.cardSize)
  }

  /** The result of `_evaluate_rules`. */
  datatype Stats = Stats(cards: int, hitRate: real, roi: real)

  function StatsOf(tally: Tally): Stats
  {
    if tally.cards == 0 then Stats(0, 0.0, 0.0)
    else Stats(tally.cards, tally.hits as real / tally.cards as real, tally.profit / tally.cards as real)
  }

  /** The loop over one card's picks: the combined odds and whether all picks won. */
  method SettleCard(picks: seq<Candidate>) returns (totalOdds: real, allWin: bool)
    ensures totalOdds == Product(OddsOf(picks)) && allWin == AllWon(picks)
  {
    totalOdds := 1.0;
    allWin := true;
    var i := 0;
    while i < |picks|
      invariant 0 <= i <= |picks|
      invariant totalOdds == Product(OddsOf(picks[..i]))
      invariant allWin == AllWon(picks[..i])
    {
      assert picks[..i + 1] == picks[..i] + [picks[i]];
      assert OddsOf(picks[..i + 1]) == OddsOf(picks[..i]) + [picks[i].odds];
      ProductAppend(OddsOf(picks[..i]), picks[i].odds);
      AllWonAppend(picks[..i], picks[i]);
      totalOdds := totalOdds * picks[i].odds;
      if !picks[i].won {
        allWin := false;
      }
      i := i + 1;
    }
    assert picks[..i] == picks;
  }

  /** `_evaluate_rules` over the days, in order. */
  method EvaluateRules(days: seq<seq<Candidate>>, t: Thresholds, key: Candidate -> Key) returns (stats: Stats)
    ensures stats == StatsOf(TallyOf(days, t, key))
  {
    var cards := 0;
    var hits := 0;
    var profit := 0.0;
    var d := 0;
    while d < |days|
      invariant 0 <= d <= |days|
      invariant Tally(cards, hits, profit) == TallyOf(days[..d], t, key)
    {
      assert days[..d + 1][..d] == days[..d];
      var picks := SelectCard(days[d], t, key);
      cards, hits, profit := ScoreDay(cards, hits, profit, picks, t.cardSize);
      d := d + 1;
    }
    assert days[..d] == days;
    stats := StatsOf(Tally(cards, hits, profit));
  }

  /** The body of the loop of `_evaluate_rules` for one day's card. */
  method ScoreDay(cards: int, hits: int, profit: real, picks: seq<Candidate>, cardSize: int)
    returns (cards': int, hits': int, profit': real)
    ensures Tally(cards', hits', profit') == Score(Tally(cards, hits, profit), picks, cardSize)
  {
    cards', hits', profit' := cards, hits, profit;
    if |picks| >= cardSize {
      cards' := cards + 1;
      var totalOdds, allWin := SettleCard(picks);
      if allWin {
        hits' := hits + 1;
        profit' := profit + totalOdds - 1.0;
      } else {
        profit' := profit - 1.0;
      }
    }
  }

  /** The counters count cards, never more hits than cards, at most one card per day. */
  lemma {:induction false} TallyBounds(days: seq<seq<Candidate>>, t: Thresholds, key: Candidate -> Key)
    ensures var tally := TallyOf(days, t, key);
      0 <= tally.hits <= tally.cards <= |days|
    decreases |days|
  {
    if days != [] {
      TallyBounds(days[..|days| - 1], t, key);
    }
  }

  /**
   * The hit rate lies in [0, 1] and there are at most as many cards as
   * days; no full card gives a zero hit rate and a zero return.
   */
  lemma StatsMeaning(days: seq<seq<Candidate>>, t: Thresholds, key: Candidate -> Key)
    ensures var s := StatsOf(TallyOf(days, t, key));
      0.0 <= s.hitRate <= 1.0 && 0 <= s.cards <= |days|
    ensures var s := StatsOf(TallyOf(days, t, key));
      s.cards == 0 ==> s.hitRate == 0.0 && s.roi == 0.0
  {
    var tally := TallyOf(days, t, key);
    TallyBounds(days, t, key);
    if tally.cards > 0 {
      HitRateWithin(tally.hits, tally.cards);
    }
  }

  lemma HitRateWithin(hits: int, cards: int)
    requires 0 <= hits <= cards && cards > 0
    ensures 0.0 <= hits as real / cards as real <= 1.0
  {
    DivMono(hits as real, cards as real, cards as real);
  }

  /** One card scored on its own: a hit earns the combined odds minus the stake, a miss loses it. */
  lemma ScoreOfCard(picks: seq<Candidate>, cardSize: int)
    requires |picks| >= cardSize
    ensures AllWon(picks) ==> Score(Tally(0, 0, 0.0), picks, cardSize) == Tally(1, 1, Product(OddsOf(picks)) - 1.0)
    ensures !AllWon(picks) ==> Score(Tally(0, 0, 0.0), picks, cardSize) == Tally(1, 0, -1.0)
    ensures forall p :: p in picks && !p.won ==> Score(Tally(0, 0, 0.0), picks, cardSize).hits == 0
  {
  }

  // ---------------------------------------------------------------------
  // The best set of thresholds
  // ---------------------------------------------------------------------

  /** One row of the tuner's results. */
  datatype RuleResult = RuleResult(minProb: real, maxOdds: Option<real>, minOdds: Option<real>, stats: Stats)

  /** The statistic a level is tuned for. */
  datatype ScoreBy = HitRate | Roi

  function ScoreKey(goal: ScoreBy): RuleResult -> Key
  {
    (r: RuleResult) => (if goal == HitRate then r.stats.hitRate else r.stats.roi, r.stats.cards as real)
  }

  /** The rows with at least `minCards` cards, or all rows when none has. */
  function EligibleResults(items: seq<RuleResult>, minCards: int): (r: seq<RuleResult>)
    ensures forall x :: x in r ==> x in items
  {
    var e := Filtered(items, minCards);
    if e == [] then items else e
  }

  function Filtered(items: seq<RuleResult>, minCards: int): (r: seq<RuleResult>)
    ensures forall x :: x in r <==> x in items && x.stats.cards >= minCards
  {
    if items == [] then []
    else
      Filtered(items[..|items| - 1], minCards) +
      (if items[|items| - 1].stats.cards >= minCards then [items[|items| - 1]] else [])
  }

  /** `_pick_best`: the first row with the greatest (score, cards); None for no rows (`max` raises). */
  function PickBest(items: seq<RuleResult>, minCards: int, goal: ScoreBy): Option<RuleResult>
  {
    var e := EligibleResults(items, minCards);
    if e == [] then None else Some(e[ArgMax(e, ScoreKey(goal))])
  }

  /**
   * Some row exactly when there are rows; the row has at least `minCards`
   * cards whenever some row has; and no row of that kind has a greater
   * (score, cards).
   */
  lemma PickBestMeaning(items: seq<RuleResult>, minCards: int, goal: ScoreBy)
    ensures PickBest(items, minCards, goal).Some? <==> items != []
    ensures PickBest(items, minCards, goal).Some? ==> PickBest(items, minCards, goal).value in items
    ensures (exists x :: x in items && x.stats.cards >= minCards) ==>
      var best := PickBest(items, minCards, goal).value;
      best.stats.cards >= minCards &&
      forall x :: x in items && x.stats.cards >= minCards ==> KeyLe(ScoreKey(goal)(x), ScoreKey(goal)(best))
    ensures (forall x :: x in items ==> x.stats.cards < minCards) && items != [] ==>
      forall x :: x in items ==> KeyLe(ScoreKey(goal)(x), ScoreKey(goal)(PickBest(items, minCards, goal).value))
  {
    var e := EligibleResults(items, minCards);
    if e != [] {
      var i := ArgMax(e, ScoreKey(goal));
      assert e[i] in e;
      forall x | x in e ensures KeyLe(ScoreKey(goal)(x), ScoreKey(goal)(e[i])) {
        var j :| 0 <= j < |e| && e[j] == x;
      }
    }
    if exists x :: x in items && x.stats.cards >= minCards {
      var x :| x in items && x.stats.cards >= minCards;
      assert x in Filtered(items, minCards);
    }
  }
}
