/**
 * The market evaluation of app/services/market_eval_service.py: model
 * probabilities against bookmaker quotes, the reason codes that block a
 * quote, the fractional-Kelly stake with its caps, and the greedy choice of
 * at most `max_picks` recommendations, one per market family.
 */
module MarketEval {
  import opened Common
  import opened Text
  import opened Sorting

  /** `retrieved_at_utc` of a quote: missing, unparsable, or a moment in hours. */
  datatype Stamp = NoStamp | Unparsable | At(hours: real)

  datatype Quote = Quote(bookmaker: string, market: string, selection: string, odds: real, retrieved: Stamp)

  /** A confidence interval from the simulation; either end may be missing. */
  datatype Interval = Interval(lo: Option<real>, hi: Option<real>)

  /** The evaluation rules after the service has filled in its defaults. */
  datatype Rules = Rules(
    minEdge: real, maxPicks: int, maxCiWidth: real, kellyFraction: real,
    stakeCapFraction: real, maxGap: real, minEdgeLongshot: real,
    longshotOdds: real, maxOdds: Option<real>, minBooks: int, maxOddsAgeHours: real)

  /** The values the service uses for rules the caller leaves out. */
  function DefaultRules(): Rules
  {
    Rules(0.03, 3, 0.06, 0.25, 0.02, 0.12, 0.08, 5.0, None, 1, 999999.0)
  }

  /** The reason codes an evaluated quote can carry. */
  datatype Reason =
    | NoMapping | Divergence | HardBlock | HighUncertaintyCi | EdgeBelowThreshold
    | EdgeBelowLongshot | NotBestLine | OddsAboveCap | LowLiquidity | KellyNonPositive
    | StakeTooSmall

  /** The code string the service writes for each reason. */
  function ReasonCode(x: Reason): string
  {
    match x
      case NoMapping => "NO_MAPPING_FOR_MARKET"
      case Divergence => "MODEL_MARKET_DIVERGENCE"
      case HardBlock => "DIVERGENCE_HARD_BLOCK"
      case HighUncertaintyCi => "HIGH_UNCERTAINTY_CI"
      case EdgeBelowThreshold => "EDGE_BELOW_THRESHOLD"
      case EdgeBelowLongshot => "EDGE_BELOW_LONGSHOT_THRESHOLD"
      case NotBestLine => "NOT_BEST_LINE"
      case OddsAboveCap => "ODDS_ABOVE_CAP"
      case LowLiquidity => "LOW_LIQUIDITY"
      case KellyNonPositive => "KELLY_NON_POSITIVE"
      case StakeTooSmall => "STAKE_TOO_SMALL"
  }

  /** The codes `evaluate_markets` gives when it recommends nothing. */
  datatype NoBetCode = MissingOrStaleOdds | NoMappedMarkets | NoEdgeOrHighUncertainty

  function NoBetCodeName(x: NoBetCode): string
  {
    match x
      case MissingOrStaleOdds => "MISSING_OR_STALE_ODDS"
      case NoMappedMarkets => "NO_MAPPED_MARKETS"
      case NoEdgeOrHighUncertainty => "NO_EDGE_OR_HIGH_UNCERTAINTY"
  }

  /** One evaluated quote (`MarketEvalItem`); `ev_per_unit` equals `edge` and is not repeated. */
  datatype Item = Item(
    market: string, selection: string, bookmaker: string, odds: real,
    fairProb: Option<real>, fairOdds: Option<real>, edge: Option<real>,
    impliedProb: Option<real>, overround: Option<real>, consensus: Option<real>,
    lineValue: Option<real>, booksCount: Option<int>, uncertain: bool,
    reasons: seq<Reason>, confidence: Option<real>)

  /** A candidate, and a recommendation once chosen (without its random `bet_id` and fixed rationale). */
  datatype Pick = Pick(
    market: string, selection: string, bookmaker: string, odds: real, p: real,
    edge: real, stakeFrac: real, confidence: Option<real>,
    lineValue: Option<real>, consensus: Option<real>)

  /** What `evaluate_markets` returns; the no-bet verdict is reduced to its reason code. */
  datatype Evaluation = Evaluation(items: seq<Item>, recs: seq<Pick>, noBet: Option<NoBetCode>)

  // ---------------------------------------------------------------- keys

  /** The probability keys of the simulation, by upper-cased market and selection. */
  const KeyTable: map<(string, string), string> := map[
    ("1X2", "HOME") := "home_win", ("1X2", "DRAW") := "draw", ("1X2", "AWAY") := "away_win",
    ("OU_2.5", "OVER") := "over_2_5", ("OU_2.5", "UNDER") := "under_2_5",
    ("BTTS", "YES") := "btts_yes", ("BTTS", "NO") := "btts_no"]

  /** `_interval_key`: case-insensitive lookup of the simulation key of a quote. */
  function IntervalKey(market: string, selection: string): (k: Option<string>)
    ensures k.Some? <==> (Upper(market), Upper(selection)) in KeyTable
    ensures k.Some? ==> k.value == KeyTable[(Upper(market), Upper(selection))]
  {
    var m := Upper(market);
    var s := Upper(selection);
    if m == "1X2" then
      (if s == "HOME" then Some("home_win") else if s == "DRAW" then Some("draw")
       else if s == "AWAY" then Some("away_win") else None)
    else if m == "OU_2.5" then
      (if s == "OVER" then Some("over_2_5") else if s == "UNDER" then Some("under_2_5") else None)
    else if m == "BTTS" then
      (if s == "YES" then Some("btts_yes") else if s == "NO" then Some("btts_no") else None)
    else None
  }

  /** Two quotes share a simulation key only if they name the same market and selection up to case. */
  lemma IntervalKeyInjective(m1: string, s1: string, m2: string, s2: string)
    requires IntervalKey(m1, s1).Some? && IntervalKey(m1, s1) == IntervalKey(m2, s2)
    ensures Upper(m1) == Upper(m2) && Upper(s1) == Upper(s2)
  {
    var a, b := (Upper(m1), Upper(s1)), (Upper(m2), Upper(s2));
    assert a in KeyTable && b in KeyTable && KeyTable[a] == KeyTable[b];
  }

  /** `_fair_prob`: the model probability of a quote, when its key is mapped and simulated. */
  function FairProb(market: string, selection: string, probs: map<string, real>): (p: Option<real>)
    ensures p.Some? <==> IntervalKey(market, selection).Some? && IntervalKey(market, selection).value in probs
    ensures p.Some? ==> p.value == probs[IntervalKey(market, selection).value]
  {
    match IntervalKey(market, selection)
      case None => None
      case Some(k) => if k in probs then Some(probs[k]) else None
  }

  // ---------------------------------------------------------------- stake sizing

  /** The expected profit per unit staked at `odds` with win probability `p` (`edge`, also `ev`). */
  function Edge(p: real, odds: real): real
  {
    p * odds - 1.0
  }

  /** `_kelly`: the Kelly fraction, zero unless the bet has positive expectation. */
  function Kelly(p: real, odds: real): (k: real)
    ensures k >= 0.0
    ensures k > 0.0 <==> odds > 1.0 && Edge(p, odds) > 0.0
    ensures k > 0.0 ==> k * (odds - 1.0) == Edge(p, odds)
  {
    var b := odds - 1.0;
    if b <= 0.0 then 0.0 else Max(0.0, Edge(p, odds) / b)
  }

  /** `_stake_cap_by_odds`: 1%, 2% or 3% of the bankroll by price band. */
  function StakeCapByOdds(odds: real): (cap: real)
    ensures cap == 0.01 || cap == 0.02 || cap == 0.03
    ensures cap == 0.01 <==> odds < 1.60
    ensures cap == 0.03 <==> odds >= 2.50
  {
    if odds < 1.60 then 0.01 else if odds < 2.50 then 0.02 else 0.03
  }

  /** A longer price never gets a smaller cap. */
  lemma StakeCapMonotone(o1: real, o2: real)
    requires o1 <= o2
    ensures StakeCapByOdds(o1) <= StakeCapByOdds(o2)
  {
  }

  // ---------------------------------------------------------------- confidence

  /** The starting score from the width of the confidence interval. */
  function CiBase(ciWidth: Option<real>, maxCiWidth: real): (b: real)
    ensures 0.1 <= b <= 0.9
  {
    if ciWidth.Some? && maxCiWidth > 0.0
    then Max(0.1, Min(0.9, 1.0 - ciWidth.value / (maxCiWidth * 1.5))) else 0.5
  }

  /** The score before rounding, as `_confidence_score` builds it step by step. */
  function ConfidenceBase(ciWidth: Option<real>, edge: Option<real>, odds: real, gap: Option<real>,
                          lineValue: Option<real>, books: Option<int>, r: Rules): real
  {
    var b0 := CiBase(ciWidth, r.maxCiWidth);
    var b1 := if gap.Some? && gap.value > r.maxGap then Min(b0, 0.2) else b0;
    var b2 := if odds >= r.longshotOdds then Min(b1, 0.25) else b1;
    var b3 := if edge.Some? && edge.value < r.minEdge then Min(b2, 0.3) else b2;
    var b4 := if lineValue.Some? && lineValue.value >= 0.02 then Min(0.95, b3 + 0.1)
              else if lineValue.Some? && lineValue.value <= -0.02 then Max(0.1, b3 - 0.1)
              else b3;
    if books.Some? && books.value >= 4 then Min(0.95, b4 + 0.05)
    else if books.Some? && books.value <= 1 then Max(0.1, b4 - 0.05)
    else b4
  }

  /** Neither the line value nor the bookmaker count raises the score. */
  predicate NoBoost(lineValue: Option<real>, books: Option<int>)
  {
    (lineValue.None? || lineValue.value < 0.02) && (books.None? || books.value < 4)
  }

  /** The bounds and caps of the unrounded score. */
  lemma ConfidenceBaseBounds(ciWidth: Option<real>, edge: Option<real>, odds: real, gap: Option<real>,
                             lineValue: Option<real>, books: Option<int>, r: Rules)
    ensures var b := ConfidenceBase(ciWidth, edge, odds, gap, lineValue, books, r);
      0.1 <= b <= 0.95
      && (NoBoost(lineValue, books) && gap.Some? && gap.value > r.maxGap ==> b <= 0.2)
      && (NoBoost(lineValue, books) && odds >= r.longshotOdds ==> b <= 0.25)
      && (NoBoost(lineValue, books) && edge.Some? && edge.value < r.minEdge ==> b <= 0.3)
  {
  }

  /** A cap on the grid of two decimal places survives rounding. */
  lemma RoundCap(b: real, h: int)
    requires 10 <= h && 0.1 <= b
    ensures b <= h as real / 100.0 ==> Round(b, 100) <= h as real / 100.0
  {
    if b <= h as real / 100.0 {
      RoundWithin(b, 10, h, 100);
    }
  }

  /**
   * `_confidence_score`: a score in [0.1, 0.95], rounded to two places; without
   * an upward adjustment a divergent, long-shot or low-edge quote is capped
   * at 0.2, 0.25 or 0.3.
   */
  function ConfidenceScore(ciWidth: Option<real>, edge: Option<real>, odds: real, gap: Option<real>,
                           lineValue: Option<real>, books: Option<int>, r: Rules): (c: real)
    ensures 0.1 <= c <= 0.95
    ensures NoBoost(lineValue, books) && gap.Some? && gap.value > r.maxGap ==> c <= 0.2
    ensures NoBoost(lineValue, books) && odds >= r.longshotOdds ==> c <= 0.25
    ensures NoBoost(lineValue, books) && edge.Some? && edge.value < r.minEdge ==> c <= 0.3
  {
    var b := ConfidenceBase(ciWidth, edge, odds, gap, lineValue, books, r);
    ConfidenceBaseBounds(ciWidth, edge, odds, gap, lineValue, books, r);
    RoundWithin(b, 10, 95, 100);
    RoundCap(b, 20);
    RoundCap(b, 25);
    RoundCap(b, 30);
    Round(b, 100)
  }

  // ---------------------------------------------------------------- freshness

  /** A quote older than the allowed age; quotes without a usable timestamp are kept. */
  predicate IsStale(q: Quote, now: real, maxAgeHours: real)
  {
    q.retrieved.At? && now - q.retrieved.hours > maxAgeHours
  }

  /** The quotes the freshness gate keeps, in order. */
  function Fresh(odds: seq<Quote>, now: real, maxAgeHours: real): (r: seq<Quote>)
    ensures |r| <= |odds|
    decreases |odds|
  {
    if odds == [] then []
    else
      var rest := Fresh(odds[..|odds| - 1], now, maxAgeHours);
      var q := odds[|odds| - 1];
      if IsStale(q, now, maxAgeHours) then rest else rest + [q]
  }

  /** The gate keeps exactly the quotes that are not stale. */
  lemma {:induction false} FreshMembers(odds: seq<Quote>, now: real, maxAgeHours: real, q: Quote)
    ensures q in Fresh(odds, now, maxAgeHours) <==> q in odds && !IsStale(q, now, maxAgeHours)
    decreases |odds|
  {
    if odds != [] {
      var init := odds[..|odds| - 1];
      FreshMembers(init, now, maxAgeHours, q);
      assert odds == init + [odds[|odds| - 1]];
    }
  }

  /** The freshness loop of `evaluate_markets`: the kept quotes and how many were dropped. */
  method FilterFresh(odds: seq<Quote>, now: real, maxAgeHours: real) returns (kept: seq<Quote>, stale: nat)
    ensures kept == Fresh(odds, now, maxAgeHours)
    ensures stale + |kept| == |odds|
  {
    kept, stale := [], 0;
    var i := 0;
    while i < |odds|
      invariant 0 <= i <= |odds|
      invariant kept == Fresh(odds[..i], now, maxAgeHours)
      invariant stale + |kept| == i
    {
      var q := odds[i];
      assert odds[..i + 1][..i] == odds[..i];
      if IsStale(q, now, maxAgeHours) {
        stale := stale + 1;
      } else {
        kept := kept + [q];
      }
      i := i + 1;
    }
    assert odds[..|odds|] == odds;
  }

  // ---------------------------------------------------------------- market statistics

  /** A quote with a usable price for selection `sel` of market `m` (both upper-cased). */
  predicate Matches(q: Quote, m: string, sel: string)
  {
    Upper(q.market) == m && Upper(q.selection) == sel && q.odds > 1.0
  }

  /** `by_sel[sel]` of market `m`: the usable prices of that selection, in quote order. */
  function OddsFor(quotes: seq<Quote>, m: string, sel: string): seq<real>
    decreases |quotes|
  {
    if quotes == [] then []
    else (if Matches(quotes[0], m, sel) then [quotes[0].odds] else []) + OddsFor(quotes[1..], m, sel)
  }

  /** A price is listed exactly when some matching quote offers it; every listed price exceeds 1. */
  lemma {:induction false} OddsForMember(quotes: seq<Quote>, m: string, sel: string, o: real)
    ensures o in OddsFor(quotes, m, sel) <==>
      exists j :: 0 <= j < |quotes| && Matches(quotes[j], m, sel) && quotes[j].odds == o
    ensures o in OddsFor(quotes, m, sel) ==> o > 1.0
    decreases |quotes|
  {
    if quotes != [] {
      OddsForMember(quotes[1..], m, sel, o);
      assert forall j :: 1 <= j < |quotes| ==> quotes[j] == quotes[1..][j - 1];
      if exists j :: 0 <= j < |quotes| && Matches(quotes[j], m, sel) && quotes[j].odds == o {
        var j :| 0 <= j < |quotes| && Matches(quotes[j], m, sel) && quotes[j].odds == o;
        if j > 0 {
          assert Matches(quotes[1..][j - 1], m, sel);
        }
      }
    }
  }

  /** Every listed price exceeds 1. */
  lemma OddsForAboveOne(quotes: seq<Quote>, m: string, sel: string)
    ensures forall i :: 0 <= i < |OddsFor(quotes, m, sel)| ==> OddsFor(quotes, m, sel)[i] > 1.0
  {
    forall i | 0 <= i < |OddsFor(quotes, m, sel)| ensures OddsFor(quotes, m, sel)[i] > 1.0 {
      OddsForMember(quotes, m, sel, OddsFor(quotes, m, sel)[i]);
    }
  }

  /** The largest element of a non-empty list (`max(odds_list)`). */
  function MaxOf(xs: seq<real>): (r: real)
    requires |xs| > 0
    ensures r in xs && forall i :: 0 <= i < |xs| ==> xs[i] <= r
  {
    if |xs| == 1 then xs[0] else Max(xs[0], MaxOf(xs[1..]))
  }

  function RealKey(x: real): Key { (x, 0.0) }

  /** `statistics.median`: the middle of the sorted list, or the mean of the two middle values. */
  function Median(xs: seq<real>): real
    requires |xs| > 0
  {
    var s := SortBy(xs, RealKey);
    var n := |s|;
    if n % 2 == 1 then s[n / 2] else (s[n / 2 - 1] + s[n / 2]) / 2.0
  }

  /** The median lies between any strict lower and any upper bound of the list. */
  lemma MedianBetween(xs: seq<real>, lo: real, hi: real)
    requires |xs| > 0
    requires forall i :: 0 <= i < |xs| ==> lo < xs[i] <= hi
    ensures lo < Median(xs) <= hi
  {
    var s := SortBy(xs, RealKey);
    forall i | 0 <= i < |s| ensures lo < s[i] <= hi {
      assert s[i] in multiset(xs);
    }
  }

  /** The (market, selection) pairs with a usable price (the keys of `consensus`). */
  function PricedKeys(quotes: seq<Quote>): set<(string, string)>
  {
    set j | 0 <= j < |quotes| && quotes[j].odds > 1.0 :: (Upper(quotes[j].market), Upper(quotes[j].selection))
  }

  /** The upper-cased markets of the quotes (the keys of `by_market`). */
  function MarketsOf(quotes: seq<Quote>): set<string>
  {
    set j | 0 <= j < |quotes| :: Upper(quotes[j].market)
  }

  /** A pair is priced exactly when it has a usable price. */
  lemma PricedKeysMeaning(quotes: seq<Quote>, m: string, sel: string)
    ensures (m, sel) in PricedKeys(quotes) <==> OddsFor(quotes, m, sel) != []
  {
    if (m, sel) in PricedKeys(quotes) {
      var j :| 0 <= j < |quotes| && quotes[j].odds > 1.0 && (Upper(quotes[j].market), Upper(quotes[j].selection)) == (m, sel);
      OddsForMember(quotes, m, sel, quotes[j].odds);
    }
    if OddsFor(quotes, m, sel) != [] {
      OddsForMember(quotes, m, sel, OddsFor(quotes, m, sel)[0]);
      var j :| 0 <= j < |quotes| && Matches(quotes[j], m, sel) && quotes[j].odds == OddsFor(quotes, m, sel)[0];
      assert (Upper(quotes[j].market), Upper(quotes[j].selection)) in PricedKeys(quotes);
    }
  }

  lemma MediansAboveOne(quotes: seq<Quote>)
    ensures forall m, sel :: OddsFor(quotes, m, sel) != [] ==> 1.0 < Median(OddsFor(quotes, m, sel)) <= MaxOf(OddsFor(quotes, m, sel))
  {
    forall m, sel | OddsFor(quotes, m, sel) != []
      ensures 1.0 < Median(OddsFor(quotes, m, sel)) <= MaxOf(OddsFor(quotes, m, sel))
    {
      OddsForAboveOne(quotes, m, sel);
      MedianBetween(OddsFor(quotes, m, sel), 1.0, MaxOf(OddsFor(quotes, m, sel)));
    }
  }

  /** `consensus`: the median usable price of every priced (market, selection). */
  function ConsensusMap(quotes: seq<Quote>): (cm: map<(string, string), real>)
    ensures forall k :: k in cm ==> OddsFor(quotes, k.0, k.1) != [] && cm[k] > 1.0
  {
    MediansAboveOne(quotes);
    map k | k in PricedKeys(quotes) && OddsFor(quotes, k.0, k.1) != [] :: Median(OddsFor(quotes, k.0, k.1))
  }

  /** The consensus covers exactly the priced pairs. */
  lemma ConsensusDomain(quotes: seq<Quote>, m: string, sel: string)
    ensures (m, sel) in ConsensusMap(quotes) <==> OddsFor(quotes, m, sel) != []
  {
    PricedKeysMeaning(quotes, m, sel);
  }

  /** The upper-cased selections with a usable price in market `m` (`by_sel.keys()`). */
  function Selections(quotes: seq<Quote>, m: string): seq<string>
    decreases |quotes|
  {
    if quotes == [] then []
    else
      var rest := Selections(quotes[1..], m);
      var q := quotes[0];
      if Upper(q.market) == m && q.odds > 1.0 && Upper(q.selection) !in rest
      then [Upper(q.selection)] + rest else rest
  }

  /** The selections of a market are listed once each, and exactly those with a price. */
  lemma {:induction false} SelectionsMembers(quotes: seq<Quote>, m: string)
    ensures forall i, j :: 0 <= i < j < |Selections(quotes, m)| ==> Selections(quotes, m)[i] != Selections(quotes, m)[j]
    ensures forall sel :: sel in Selections(quotes, m) <==> OddsFor(quotes, m, sel) != []
    decreases |quotes|
  {
    if quotes != [] {
      SelectionsMembers(quotes[1..], m);
    }
  }

  /** `sum(1.0 / consensus[(m, sel)] for sel in sels)`; a pair without a consensus never occurs and counts 0. */
  function InverseSum(m: string, sels: seq<string>, cons: map<(string, string), real>): real
    requires forall k :: k in cons ==> cons[k] > 0.0
    decreases |sels|
  {
    if sels == [] then 0.0
    else (if (m, sels[0]) in cons then 1.0 / cons[(m, sels[0])] else 0.0) + InverseSum(m, sels[1..], cons)
  }

  /** Over selections that all have a consensus, the inverse prices add up to a positive total. */
  lemma {:induction false} InverseSumPositive(m: string, sels: seq<string>, cons: map<(string, string), real>)
    requires forall k :: k in cons ==> cons[k] > 0.0
    requires sels != [] && forall i :: 0 <= i < |sels| ==> (m, sels[i]) in cons
    ensures InverseSum(m, sels, cons) > 0.0
    decreases |sels|
  {
    var c := cons[(m, sels[0])];
    assert 1.0 / c > 0.0;
    if |sels| > 1 {
      InverseSumPositive(m, sels[1..], cons);
    } else {
      assert sels[1..] == [];
    }
  }

  /** The implied probabilities of the given selections summed, a missing one counting 0. */
  function ImpliedSum(m: string, sels: seq<string>, implied: map<(string, string), real>): real
    decreases |sels|
  {
    if sels == [] then 0.0
    else (if (m, sels[0]) in implied then implied[(m, sels[0])] else 0.0) + ImpliedSum(m, sels[1..], implied)
  }

  /** Normalising every inverse price by the same total divides the sum by that total. */
  lemma {:induction false} NormalisedSum(m: string, sels: seq<string>, cons: map<(string, string), real>,
                                         implied: map<(string, string), real>, s: real)
    requires forall k :: k in cons ==> cons[k] > 0.0
    requires s > 0.0
    requires forall i :: 0 <= i < |sels| ==>
      (m, sels[i]) in cons && (m, sels[i]) in implied && implied[(m, sels[i])] == (1.0 / cons[(m, sels[i])]) / s
    ensures ImpliedSum(m, sels, implied) == InverseSum(m, sels, cons) / s
    decreases |sels|
  {
    if sels != [] {
      NormalisedSum(m, sels[1..], cons, implied, s);
      DivSum(1.0 / cons[(m, sels[0])], InverseSum(m, sels[1..], cons), s);
    }
  }

  /** Dividing two terms by the same positive total divides their sum by it. */
  lemma DivSum(a: real, b: real, s: real)
    requires s > 0.0
    ensures a / s + b / s == (a + b) / s
  {
  }

  /** The five dictionaries `evaluate_markets` builds before looking at single quotes. */
  datatype MarketStats = MarketStats(
    implied: map<(string, string), real>, overround: map<string, real>,
    consensus: map<(string, string), real>, books: map<(string, string), int>,
    best: map<(string, string), real>)

  /** The total of a market's inverse consensus prices (its overround). */
  function MarketTotal(quotes: seq<Quote>, m: string): real
  {
    InverseSum(m, Selections(quotes, m), ConsensusMap(quotes))
  }

  /** `implied`: each priced selection's inverse consensus price over its market's total. */
  function ImpliedMap(quotes: seq<Quote>): map<(string, string), real>
  {
    var cons := ConsensusMap(quotes);
    map k | k in cons && MarketTotal(quotes, k.0) > 0.0 :: (1.0 / cons[k]) / MarketTotal(quotes, k.0)
  }

  /** `overround`: the total of every quoted market. */
  function OverroundMap(quotes: seq<Quote>): map<string, real>
  {
    map m | m in MarketsOf(quotes) :: MarketTotal(quotes, m)
  }

  /** `book_counts`: the number of usable prices of each priced selection. */
  function BooksMap(quotes: seq<Quote>): map<(string, string), int>
  {
    map k | k in ConsensusMap(quotes) :: |OddsFor(quotes, k.0, k.1)|
  }

  /** `best_odds`: the largest usable price of each priced selection. */
  function BestMap(quotes: seq<Quote>): map<(string, string), real>
  {
    map k | k in ConsensusMap(quotes) :: MaxOf(OddsFor(quotes, k.0, k.1))
  }

  /** The market statistics of the kept quotes. */
  function StatsOf(quotes: seq<Quote>): MarketStats
  {
    MarketStats(ImpliedMap(quotes), OverroundMap(quotes), ConsensusMap(quotes), BooksMap(quotes), BestMap(quotes))
  }

  /**
   * A pair has a consensus exactly when it has a usable price; the
   * consensus then exceeds 1 and never beats the best price, and at least
   * one bookmaker is counted.
   */
  lemma ConsensusMeaning(quotes: seq<Quote>, m: string, sel: string)
    ensures (m, sel) in ConsensusMap(quotes) <==> OddsFor(quotes, m, sel) != []
    ensures (m, sel) in ConsensusMap(quotes) ==>
      1.0 < ConsensusMap(quotes)[(m, sel)] <= BestMap(quotes)[(m, sel)] && BooksMap(quotes)[(m, sel)] >= 1
  {
    ConsensusDomain(quotes, m, sel);
    MediansAboveOne(quotes);
  }

  /** Every quoted market has an overround; every market with a price has a positive one. */
  lemma OverroundMeaning(quotes: seq<Quote>, m: string)
    ensures m in OverroundMap(quotes) <==> exists j :: 0 <= j < |quotes| && Upper(quotes[j].market) == m
    ensures Selections(quotes, m) != [] ==> MarketTotal(quotes, m) > 0.0
  {
    if exists j :: 0 <= j < |quotes| && Upper(quotes[j].market) == m {
      var j :| 0 <= j < |quotes| && Upper(quotes[j].market) == m;
      assert Upper(quotes[j].market) in MarketsOf(quotes);
    }
    var sels := Selections(quotes, m);
    if sels != [] {
      SelectionsOfMarketCovered(quotes, m);
      InverseSumPositive(m, sels, ConsensusMap(quotes));
    }
  }

  /** Every listed selection of a market has a consensus. */
  lemma SelectionsOfMarketCovered(quotes: seq<Quote>, m: string)
    ensures forall i :: 0 <= i < |Selections(quotes, m)| ==> (m, Selections(quotes, m)[i]) in ConsensusMap(quotes)
  {
    SelectionsMembers(quotes, m);
    forall i | 0 <= i < |Selections(quotes, m)| ensures (m, Selections(quotes, m)[i]) in ConsensusMap(quotes) {
      ConsensusDomain(quotes, m, Selections(quotes, m)[i]);
    }
  }

  lemma ImpliedAt(quotes: seq<Quote>, m: string, sel: string)
    requires (m, sel) in ConsensusMap(quotes) && MarketTotal(quotes, m) > 0.0
    ensures (m, sel) in ImpliedMap(quotes)
    ensures ImpliedMap(quotes)[(m, sel)] == (1.0 / ConsensusMap(quotes)[(m, sel)]) / MarketTotal(quotes, m)
  {
  }

  /** The implied probabilities of a market with a usable price add up to one. */
  lemma ImpliedSumsToOne(quotes: seq<Quote>, m: string)
    requires Selections(quotes, m) != []
    ensures ImpliedSum(m, Selections(quotes, m), ImpliedMap(quotes)) == 1.0
  {
    var sels := Selections(quotes, m);
    var cons := ConsensusMap(quotes);
    var s := MarketTotal(quotes, m);
    SelectionsOfMarketCovered(quotes, m);
    InverseSumPositive(m, sels, cons);
    var implied := ImpliedMap(quotes);
    forall i | 0 <= i < |sels|
      ensures (m, sels[i]) in implied && implied[(m, sels[i])] == (1.0 / cons[(m, sels[i])]) / s
    {
      ImpliedAt(quotes, m, sels[i]);
    }
    NormalisedSum(m, sels, cons, implied, s);
    DivSelf(s);
  }

  lemma DivSelf(s: real)
    requires s > 0.0
    ensures s / s == 1.0
  {
  }

  /** What `evaluate_markets` attaches to one quote from the dictionaries. */
  datatype Stats = Stats(implied: Option<real>, overround: Option<real>, consensus: Option<real>,
                         books: Option<int>, best: Option<real>)

  function StatsAt(ms: MarketStats, m: string, sel: string): Stats
  {
    Stats(Get(ms.implied, (m, sel)), Get(ms.overround, m), Get(ms.consensus, (m, sel)),
          Get(ms.books, (m, sel)), Get(ms.best, (m, sel)))
  }

  /** A better price for the same selection, by more than the 1e-6 tolerance. */
  predicate BetterPriceExists(q: Quote, quotes: seq<Quote>)
  {
    exists j :: 0 <= j < |quotes| && Matches(quotes[j], Upper(q.market), Upper(q.selection))
      && q.odds + 0.000001 < quotes[j].odds
  }

  /** The best-line test on `best_odds` means that a strictly better price is on offer. */
  lemma NotBestLineMeaning(q: Quote, quotes: seq<Quote>)
    ensures Get(BestMap(quotes), (Upper(q.market), Upper(q.selection))).Some? ==>
      (Get(BestMap(quotes), (Upper(q.market), Upper(q.selection))).value != 0.0
       && q.odds + 0.000001 < Get(BestMap(quotes), (Upper(q.market), Upper(q.selection))).value
       <==> BetterPriceExists(q, quotes))
    ensures Get(BestMap(quotes), (Upper(q.market), Upper(q.selection))).None? ==> !BetterPriceExists(q, quotes)
  {
    var m, sel := Upper(q.market), Upper(q.selection);
    var xs := OddsFor(quotes, m, sel);
    ConsensusDomain(quotes, m, sel);
    if BetterPriceExists(q, quotes) {
      var j :| 0 <= j < |quotes| && Matches(quotes[j], m, sel) && q.odds + 0.000001 < quotes[j].odds;
      OddsForMember(quotes, m, sel, quotes[j].odds);
    }
    if xs != [] {
      OddsForMember(quotes, m, sel, MaxOf(xs));
    }
  }

  // ---------------------------------------------------------------- one quote

  /** The checks of one mapped quote, in the order the service makes them. */
  const CheckOrder: seq<Reason> :=
    [Divergence, HardBlock, HighUncertaintyCi, EdgeBelowThreshold, EdgeBelowLongshot,
     NotBestLine, OddsAboveCap, LowLiquidity, KellyNonPositive]

  /** The outcome of every check of a mapped quote. */
  datatype Checks = Checks(diverges: bool, hardBlock: bool, wide: bool, lowEdge: bool, lowLongshot: bool,
                           notBest: bool, aboveCap: bool, lowBooks: bool, kellyNonPositive: bool)

  /** Whether reason `x` is raised by the checks. */
  predicate Raised(c: Checks, x: Reason)
  {
    match x
      case Divergence => c.diverges
      case HardBlock => c.hardBlock
      case HighUncertaintyCi => c.wide
      case EdgeBelowThreshold => c.lowEdge
      case EdgeBelowLongshot => c.lowLongshot
      case NotBestLine => c.notBest
      case OddsAboveCap => c.aboveCap
      case LowLiquidity => c.lowBooks
      case KellyNonPositive => c.kellyNonPositive
      case NoMapping => false
      case StakeTooSmall => false
  }

  /** The raised reasons among `order`, in that order. */
  function RaisedIn(c: Checks, order: seq<Reason>): (rs: seq<Reason>)
    ensures forall x :: x in rs <==> x in order && Raised(c, x)
  {
    if order == [] then []
    else (if Raised(c, order[0]) then [order[0]] else []) + RaisedIn(c, order[1..])
  }

  /** The reason list of a mapped quote: the raised codes, in the order the service appends them. */
  function Reasons(c: Checks): (rs: seq<Reason>)
    ensures forall x :: x in rs <==> Raised(c, x)
  {
    RaisedIn(c, CheckOrder)
  }

  /** The width of the simulation's interval for a key, when both ends are present. */
  function CiWidth(key: Option<string>, intervals: map<string, Interval>): Option<real>
  {
    if key.Some? && key.value in intervals && intervals[key.value].lo.Some? && intervals[key.value].hi.Some?
    then Some(intervals[key.value].hi.value - intervals[key.value].lo.value) else None
  }

  /** The checks `evaluate_markets` makes on a quote with upper-cased market `m` and model probability `p`. */
  function ChecksOf(m: string, odds: real, p: real, st: Stats, ciWidth: Option<real>, r: Rules): (c: Checks)
    ensures c.diverges <==> st.implied.Some? && Abs(p - st.implied.value) > r.maxGap
    ensures c.hardBlock <==> c.diverges && (m == "OU_2.5" || m == "BTTS")
    ensures c.wide <==> ciWidth.Some? && ciWidth.value > r.maxCiWidth
    ensures c.lowEdge <==> Edge(p, odds) < r.minEdge
    ensures c.lowLongshot <==> odds >= r.longshotOdds && Edge(p, odds) < r.minEdgeLongshot
    ensures c.notBest <==> st.best.Some? && st.best.value != 0.0 && odds + 0.000001 < st.best.value
    ensures c.aboveCap <==> r.maxOdds.Some? && odds > r.maxOdds.value
    ensures c.lowBooks <==> st.books.Some? && st.books.value < r.minBooks
    ensures c.kellyNonPositive <==> odds <= 1.0 || Edge(p, odds) <= 0.0
  {
    var edge := Edge(p, odds);
    var diverges := st.implied.Some? && Abs(p - st.implied.value) > r.maxGap;
    Checks(
      diverges, diverges && (m == "OU_2.5" || m == "BTTS"),
      ciWidth.Some? && ciWidth.value > r.maxCiWidth, edge < r.minEdge,
      odds >= r.longshotOdds && edge < r.minEdgeLongshot,
      st.best.Some? && st.best.value != 0.0 && odds + 0.000001 < st.best.value,
      r.maxOdds.Some? && odds > r.maxOdds.value,
      st.books.Some? && st.books.value < r.minBooks,
      Kelly(p, odds) <= 0.0)
  }

  /**
   * The item for a quote with upper-cased market `m`, model probability `p`
   * and market statistics `st`: unmapped quotes carry only
   * `NO_MAPPING_FOR_MARKET`; mapped ones carry exactly the reasons their
   * checks raise, and are uncertain exactly on divergence or a wide interval.
   */
  function AssessWith(m: string, sel: string, bookmaker: string, odds: real, p: Option<real>,
                      st: Stats, ciWidth: Option<real>, r: Rules): (it: Item)
    ensures it.market == m && it.selection == sel && it.bookmaker == bookmaker && it.odds == odds
    ensures it.fairProb == p
    ensures p.None? ==> it.reasons == [NoMapping] && !it.uncertain && it.confidence.None? && it.edge.None?
    ensures p.Some? ==> forall x :: x in it.reasons <==> Raised(ChecksOf(m, odds, p.value, st, ciWidth, r), x)
    ensures p.Some? ==> it.uncertain == (ChecksOf(m, odds, p.value, st, ciWidth, r).diverges
                                         || ChecksOf(m, odds, p.value, st, ciWidth, r).wide)
    ensures p.Some? ==> it.edge.Some? && it.edge.value == Edge(p.value, odds)
    ensures p.Some? ==> it.impliedProb == st.implied && it.consensus == st.consensus && it.booksCount == st.books
    ensures p.Some? ==> it.confidence.Some? && 0.1 <= it.confidence.value <= 0.95
  {
    if p.None? then
      Item(m, sel, bookmaker, odds, None, None, None, None, None, None, None, None, false, [NoMapping], None)
    else
      var pv := p.value;
      var edge := Edge(pv, odds);
      var lineValue := if st.consensus.Some? && st.consensus.value != 0.0
                       then Some(odds / st.consensus.value - 1.0) else None;
      var gap := if st.implied.Some? then Some(Abs(pv - st.implied.value)) else None;
      var checks := ChecksOf(m, odds, pv, st, ciWidth, r);
      var conf := ConfidenceScore(ciWidth, Some(edge), odds, gap, lineValue, st.books, r);
      Item(m, sel, bookmaker, odds, p, if pv > 0.0 then Some(1.0 / pv) else None,
           Some(edge), st.implied, st.overround, st.consensus, lineValue, st.books,
           checks.diverges || checks.wide, Reasons(checks), Some(conf))
  }

  /** The item `evaluate_markets` builds for one quote, before the stake gate. */
  function Assess(q: Quote, ms: MarketStats, probs: map<string, real>,
                  intervals: map<string, Interval>, r: Rules): Item
  {
    var m, sel := Upper(q.market), Upper(q.selection);
    AssessWith(m, sel, q.bookmaker, q.odds, FairProb(q.market, q.selection, probs),
               StatsAt(ms, m, sel), CiWidth(IntervalKey(m, sel), intervals), r)
  }

  /** The candidate gate: a mapped item with none of the blocking reasons and no uncertainty flag. */
  predicate Eligible(it: Item)
  {
    it.fairProb.Some? && !it.uncertain
    && EdgeBelowThreshold !in it.reasons && EdgeBelowLongshot !in it.reasons
    && KellyNonPositive !in it.reasons && Divergence !in it.reasons && HardBlock !in it.reasons
    && NotBestLine !in it.reasons && OddsAboveCap !in it.reasons && LowLiquidity !in it.reasons
  }

  /** The capped fractional-Kelly stake of a mapped item. */
  function Stake(it: Item, r: Rules): (st: real)
    requires it.fairProb.Some?
    ensures st <= r.stakeCapFraction && st <= StakeCapByOdds(it.odds)
  {
    var cap := Min(r.stakeCapFraction, StakeCapByOdds(it.odds));
    Min(cap, r.kellyFraction * Kelly(it.fairProb.value, it.odds))
  }

  /** What every candidate satisfies. */
  predicate GoodPick(c: Pick, r: Rules)
  {
    0.0025 <= c.stakeFrac <= Min(r.stakeCapFraction, StakeCapByOdds(c.odds))
    && c.edge >= r.minEdge && c.edge > 0.0 && c.odds > 1.0
    && (r.maxOdds.Some? ==> c.odds <= r.maxOdds.value)
    && (c.confidence.Some? && 0.1 <= c.confidence.value <= 0.95)
  }

  /** The final item of a quote and the candidate it yields. */
  function Outcome(q: Quote, ms: MarketStats, probs: map<string, real>,
                   intervals: map<string, Interval>, r: Rules): (Item, Option<Pick>)
  {
    OutcomeOf(Assess(q, ms, probs, intervals, r), r)
  }

  /** The stake gate on an assessed item: the item as it ends up, and its candidate if any. */
  function OutcomeOf(it: Item, r: Rules): (Item, Option<Pick>)
    requires it.fairProb.Some? ==> it.edge.Some?
  {
    if Eligible(it) then
      var stake := Stake(it, r);
      if stake < 0.0025 then (it.(reasons := it.reasons + [StakeTooSmall]), None)
      else
        (it, Some(Pick(it.market, it.selection, it.bookmaker, it.odds, it.fairProb.value,
                       it.edge.value, stake, it.confidence, it.lineValue, it.consensus)))
    else (it, None)
  }

  /**
   * Exactly the eligible items with a stake of at least 0.25% become
   * candidates; an eligible item with a smaller stake is marked
   * `STAKE_TOO_SMALL`; every candidate passes all the gates.
   */
  lemma OutcomeMeaning(q: Quote, ms: MarketStats, probs: map<string, real>,
                       intervals: map<string, Interval>, r: Rules)
    ensures var it := Assess(q, ms, probs, intervals, r);
      var res := Outcome(q, ms, probs, intervals, r);
      (res.1.Some? <==> Eligible(it) && Stake(it, r) >= 0.0025)
      && (res.0 == if Eligible(it) && Stake(it, r) < 0.0025 then it.(reasons := it.reasons + [StakeTooSmall]) else it)
  {
  }

  /** Every candidate passes all the gates and is filed under the upper-cased market. */
  lemma OutcomeGood(q: Quote, ms: MarketStats, probs: map<string, real>,
                    intervals: map<string, Interval>, r: Rules)
    ensures Outcome(q, ms, probs, intervals, r).1.Some? ==>
      GoodPick(Outcome(q, ms, probs, intervals, r).1.value, r)
      && Outcome(q, ms, probs, intervals, r).1.value.market == Upper(q.market)
  {
    AssessConsistent(q, ms, probs, intervals, r);
    OutcomeOfGood(Assess(q, ms, probs, intervals, r), r);
  }

  /** What the absence of a blocking reason says about a mapped item. */
  predicate Consistent(it: Item, r: Rules)
  {
    it.fairProb.Some? ==>
      it.edge.Some? && it.confidence.Some? && 0.1 <= it.confidence.value <= 0.95
      && (EdgeBelowThreshold !in it.reasons ==> it.edge.value >= r.minEdge)
      && (KellyNonPositive !in it.reasons ==> it.odds > 1.0 && it.edge.value > 0.0)
      && (OddsAboveCap !in it.reasons && r.maxOdds.Some? ==> it.odds <= r.maxOdds.value)
  }

  /** An assessed item is consistent with its reasons and filed under the upper-cased market. */
  lemma AssessConsistent(q: Quote, ms: MarketStats, probs: map<string, real>,
                         intervals: map<string, Interval>, r: Rules)
    ensures Consistent(Assess(q, ms, probs, intervals, r), r)
    ensures Assess(q, ms, probs, intervals, r).market == Upper(q.market)
  {
    var m, sel := Upper(q.market), Upper(q.selection);
    var p := FairProb(q.market, q.selection, probs);
    if p.Some? {
      var st := StatsAt(ms, m, sel);
      var ci := CiWidth(IntervalKey(m, sel), intervals);
      var c := ChecksOf(m, q.odds, p.value, st, ci, r);
      assert Raised(c, EdgeBelowThreshold) == c.lowEdge;
      assert Raised(c, KellyNonPositive) == c.kellyNonPositive;
      assert Raised(c, OddsAboveCap) == c.aboveCap;
    }
  }

  /** The candidate, if any, of a consistent item passes all the gates. */
  lemma OutcomeOfGood(it: Item, r: Rules)
    requires it.fairProb.Some? ==> it.edge.Some?
    requires Consistent(it, r)
    ensures OutcomeOf(it, r).1.Some? ==>
      GoodPick(OutcomeOf(it, r).1.value, r) && OutcomeOf(it, r).1.value.market == it.market
  {
  }

  /** The `evaluated` list. */
  function Items(qs: seq<Quote>, ms: MarketStats, probs: map<string, real>,
                 intervals: map<string, Interval>, r: Rules): (items: seq<Item>)
    ensures |items| == |qs|
    decreases |qs|
  {
    if qs == [] then []
    else Items(qs[..|qs| - 1], ms, probs, intervals, r) + [Outcome(qs[|qs| - 1], ms, probs, intervals, r).0]
  }

  /** The candidate a quote yields, as a list of none or one. */
  function CandidateOf(q: Quote, ms: MarketStats, probs: map<string, real>,
                       intervals: map<string, Interval>, r: Rules): seq<Pick>
  {
    match Outcome(q, ms, probs, intervals, r).1
      case None => []
      case Some(c) => [c]
  }

  /** A candidate that a quote yields is its outcome's pick. */
  lemma CandidateOfOne(q: Quote, ms: MarketStats, probs: map<string, real>,
                       intervals: map<string, Interval>, r: Rules, c: Pick)
    requires c in CandidateOf(q, ms, probs, intervals, r)
    ensures Outcome(q, ms, probs, intervals, r).1 == Some(c)
  {
  }

  /** The `candidates` list built from the quotes `qs`, in quote order. */
  function Candidates(qs: seq<Quote>, ms: MarketStats, probs: map<string, real>,
                      intervals: map<string, Interval>, r: Rules): seq<Pick>
    decreases |qs|
  {
    if qs == [] then []
    else Candidates(qs[..|qs| - 1], ms, probs, intervals, r) + CandidateOf(qs[|qs| - 1], ms, probs, intervals, r)
  }

  /** Every candidate is the candidate of some quote, and so passed its gates. */
  lemma {:induction false} CandidateOrigin(qs: seq<Quote>, ms: MarketStats, probs: map<string, real>,
                                           intervals: map<string, Interval>, r: Rules, c: Pick)
    requires c in Candidates(qs, ms, probs, intervals, r)
    ensures exists j :: 0 <= j < |qs| && Outcome(qs[j], ms, probs, intervals, r).1 == Some(c)
    ensures GoodPick(c, r)
    decreases |qs|
  {
    var init := qs[..|qs| - 1];
    var last := qs[|qs| - 1];
    assert Candidates(qs, ms, probs, intervals, r) ==
      Candidates(init, ms, probs, intervals, r) + CandidateOf(last, ms, probs, intervals, r);
    if c in Candidates(init, ms, probs, intervals, r) {
      CandidateOrigin(init, ms, probs, intervals, r, c);
      var j :| 0 <= j < |init| && Outcome(init[j], ms, probs, intervals, r).1 == Some(c);
      assert qs[j] == init[j];
    } else {
      CandidateOfOne(last, ms, probs, intervals, r, c);
      OutcomeGood(last, ms, probs, intervals, r);
    }
  }

  /** Evaluating one more quote appends its item, and its candidate if it yields one. */
  lemma EvaluatedStep(qs: seq<Quote>, q: Quote, ms: MarketStats, probs: map<string, real>,
                      intervals: map<string, Interval>, r: Rules)
    ensures Items(qs + [q], ms, probs, intervals, r) == Items(qs, ms, probs, intervals, r) + [Outcome(q, ms, probs, intervals, r).0]
    ensures Candidates(qs + [q], ms, probs, intervals, r) ==
      Candidates(qs, ms, probs, intervals, r) + CandidateOf(q, ms, probs, intervals, r)
  {
    assert (qs + [q])[..|qs|] == qs;
  }

  /** The prefix form of `EvaluatedStep` that the per-quote loop uses. */
  lemma EvaluatedPrefix(kept: seq<Quote>, i: nat, ms: MarketStats, probs: map<string, real>,
                        intervals: map<string, Interval>, r: Rules)
    requires i < |kept|
    ensures Items(kept[..i + 1], ms, probs, intervals, r) ==
      Items(kept[..i], ms, probs, intervals, r) + [Outcome(kept[i], ms, probs, intervals, r).0]
    ensures Candidates(kept[..i + 1], ms, probs, intervals, r) ==
      Candidates(kept[..i], ms, probs, intervals, r) + CandidateOf(kept[i], ms, probs, intervals, r)
  {
    assert kept[..i + 1] == kept[..i] + [kept[i]];
    EvaluatedStep(kept[..i], kept[i], ms, probs, intervals, r);
  }

  /** The body of the per-quote loop: the item of one quote and its candidate, if any. */
  method EvaluateQuote(q: Quote, ms: MarketStats, probs: map<string, real>,
                       intervals: map<string, Interval>, r: Rules)
    returns (it: Item, c: seq<Pick>)
    ensures it == Outcome(q, ms, probs, intervals, r).0
    ensures c == CandidateOf(q, ms, probs, intervals, r)
  {
    var o := Outcome(q, ms, probs, intervals, r);
    it := o.0;
    c := if o.1.Some? then [o.1.value] else [];
  }

  /** The per-quote loop of `evaluate_markets`. */
  method EvaluateQuotes(kept: seq<Quote>, ms: MarketStats, probs: map<string, real>,
                        intervals: map<string, Interval>, r: Rules)
    returns (items: seq<Item>, cands: seq<Pick>)
    ensures items == Items(kept, ms, probs, intervals, r)
    ensures cands == Candidates(kept, ms, probs, intervals, r)
  {
    items, cands := [], [];
    var i := 0;
    while i < |kept|
      invariant 0 <= i <= |kept|
      invariant items == Items(kept[..i], ms, probs, intervals, r)
      invariant cands == Candidates(kept[..i], ms, probs, intervals, r)
    {
      EvaluatedPrefix(kept, i, ms, probs, intervals, r);
      var it, c := EvaluateQuote(kept[i], ms, probs, intervals, r);
      items := items + [it];
      cands := cands + c;
      i := i + 1;
    }
    assert kept[..|kept|] == kept;
  }

  // ---------------------------------------------------------------- choosing

  /** The inner `family` of `evaluate_markets` (markets are already upper-cased there). */
  function Family(m: string): string
  {
    if m == "1X2" then "RESULT"
    else if StartsWith(m, "OU_") then "TOTALS"
    else if m == "BTTS" then "BTTS"
    else m
  }

  function EvKey(c: Pick): Key { (c.edge, 0.0) }

  /**
   * The greedy pass over candidates sorted by expected value: skip a
   * candidate whose family is taken, stop once `room` picks are made (the
   * test follows the append, so one pick is made even when `room < 1`).
   */
  function Choose(cs: seq<Pick>, used: set<string>, room: int): seq<Pick>
    decreases |cs|
  {
    if cs == [] then []
    else
      var f := Family(cs[0].market);
      if f in used then Choose(cs[1..], used, room)
      else if room <= 1 then [cs[0]]
      else [cs[0]] + Choose(cs[1..], used + {f}, room - 1)
  }

  function FamiliesOf(ch: seq<Pick>): set<string>
  {
    set k | 0 <= k < |ch| :: Family(ch[k].market)
  }

  /** The picks are candidates. */
  lemma {:induction false} ChooseMembers(cs: seq<Pick>, used: set<string>, room: int)
    ensures forall k :: 0 <= k < |Choose(cs, used, room)| ==> Choose(cs, used, room)[k] in cs
    decreases |cs|
  {
    if cs != [] {
      var f := Family(cs[0].market);
      var tail := cs[1..];
      var u, n := if f in used then used else used + {f}, if f in used then room else room - 1;
      ChooseMembers(tail, u, n);
      var tch := Choose(tail, u, n);
      forall k | 0 <= k < |tch| ensures tch[k] in cs {
        var j :| 0 <= j < |tail| && tail[j] == tch[k];
        assert cs[j + 1] == tail[j];
      }
    }
  }

  /** The picks keep the candidates' order of expected value. */
  lemma {:induction false} ChooseOrdered(cs: seq<Pick>, used: set<string>, room: int)
    requires forall i, j :: 0 <= i < j < |cs| ==> cs[i].edge >= cs[j].edge
    ensures forall k, l :: 0 <= k < l < |Choose(cs, used, room)| ==>
      Choose(cs, used, room)[k].edge >= Choose(cs, used, room)[l].edge
    decreases |cs|
  {
    if cs != [] {
      var f := Family(cs[0].market);
      var tail := cs[1..];
      assert forall i, j :: 0 <= i < j < |tail| ==> tail[i].edge >= tail[j].edge;
      if f in used {
        ChooseOrdered(tail, used, room);
        assert Choose(cs, used, room) == Choose(tail, used, room);
      } else if room <= 1 {
        assert Choose(cs, used, room) == [cs[0]];
      } else {
        var tch := Choose(tail, used + {f}, room - 1);
        ChooseOrdered(tail, used + {f}, room - 1);
        ChooseMembers(tail, used + {f}, room - 1);
        HeadAbove(cs, tch);
        ConsOrdered(cs[0], tch);
        assert Choose(cs, used, room) == [cs[0]] + tch;
      }
    }
  }

  /** The first of candidates ordered by expected value is at least any later one. */
  lemma HeadAbove(cs: seq<Pick>, t: seq<Pick>)
    requires cs != []
    requires forall i, j :: 0 <= i < j < |cs| ==> cs[i].edge >= cs[j].edge
    requires forall k :: 0 <= k < |t| ==> t[k] in cs[1..]
    ensures forall k :: 0 <= k < |t| ==> cs[0].edge >= t[k].edge
  {
    forall k | 0 <= k < |t| ensures cs[0].edge >= t[k].edge {
      var j :| 0 <= j < |cs[1..]| && cs[1..][j] == t[k];
      assert cs[j + 1] == t[k];
    }
  }

  /** A pick in front of ordered picks whose values it bounds keeps them ordered. */
  lemma ConsOrdered(p: Pick, t: seq<Pick>)
    requires forall k, l :: 0 <= k < l < |t| ==> t[k].edge >= t[l].edge
    requires forall k :: 0 <= k < |t| ==> p.edge >= t[k].edge
    ensures forall k, l :: 0 <= k < l < |[p] + t| ==> ([p] + t)[k].edge >= ([p] + t)[l].edge
  {
    var u := [p] + t;
    forall k, l | 0 <= k < l < |u| ensures u[k].edge >= u[l].edge {
      assert u[l] == t[l - 1];
      if k > 0 {
        assert u[k] == t[k - 1];
      }
    }
  }

  /** None of the picks belongs to a family in `used`. */
  predicate AvoidsFamilies(ch: seq<Pick>, used: set<string>)
  {
    forall k :: 0 <= k < |ch| ==> Family(ch[k].market) !in used
  }

  /** No two picks share a family. */
  predicate DistinctFamilies(ch: seq<Pick>)
  {
    forall k, l :: 0 <= k < l < |ch| ==> Family(ch[k].market) != Family(ch[l].market)
  }

  /** At most `max(room, 1)` picks. */
  lemma {:induction false} ChooseBound(cs: seq<Pick>, used: set<string>, room: int)
    ensures |Choose(cs, used, room)| <= if room < 1 then 1 else room
    decreases |cs|
  {
    if cs != [] {
      var f := Family(cs[0].market);
      if f in used {
        ChooseBound(cs[1..], used, room);
      } else if room > 1 {
        ChooseBound(cs[1..], used + {f}, room - 1);
      }
    }
  }

  /** The picks have pairwise distinct families, none of which was already used. */
  lemma {:induction false} ChooseFamilies(cs: seq<Pick>, used: set<string>, room: int)
    ensures AvoidsFamilies(Choose(cs, used, room), used)
    ensures DistinctFamilies(Choose(cs, used, room))
    decreases |cs|
  {
    if cs != [] {
      var f := Family(cs[0].market);
      if f in used {
        ChooseFamilies(cs[1..], used, room);
        assert Choose(cs, used, room) == Choose(cs[1..], used, room);
      } else if room <= 1 {
        assert Choose(cs, used, room) == [cs[0]];
      } else {
        var tch := Choose(cs[1..], used + {f}, room - 1);
        ChooseFamilies(cs[1..], used + {f}, room - 1);
        var ch := Choose(cs, used, room);
        assert ch == [cs[0]] + tch;
        forall k | 0 <= k < |ch| ensures Family(ch[k].market) !in used {
          if k > 0 {
            assert ch[k] == tch[k - 1];
          }
        }
        forall k, l | 0 <= k < l < |ch| ensures Family(ch[k].market) != Family(ch[l].market) {
          assert ch[l] == tch[l - 1];
          if k > 0 {
            assert ch[k] == tch[k - 1];
          }
        }
      }
    }
  }

  /** Short of the limit, every candidate's family was already used or is among the picks. */
  lemma {:induction false} ChooseCovers(cs: seq<Pick>, used: set<string>, room: int)
    ensures |Choose(cs, used, room)| < room ==>
      forall j :: 0 <= j < |cs| ==> Family(cs[j].market) in used + FamiliesOf(Choose(cs, used, room))
    decreases |cs|
  {
    if cs != [] {
      var f := Family(cs[0].market);
      var rest := cs[1..];
      var ch := Choose(cs, used, room);
      if f in used {
        ChooseCovers(rest, used, room);
        assert ch == Choose(rest, used, room);
        if |ch| < room {
          CoverCons(cs, used, FamiliesOf(ch));
        }
      } else if room > 1 {
        var tail := Choose(rest, used + {f}, room - 1);
        ChooseCovers(rest, used + {f}, room - 1);
        assert ch == [cs[0]] + tail;
        FamiliesCons(cs[0], tail);
        assert used + {f} + FamiliesOf(tail) == used + FamiliesOf(ch);
        if |ch| < room {
          CoverCons(cs, used, FamiliesOf(ch));
        }
      }
    }
  }

  /** The families of a pick in front of `tail`. */
  lemma FamiliesCons(p: Pick, tail: seq<Pick>)
    ensures FamiliesOf([p] + tail) == {Family(p.market)} + FamiliesOf(tail)
  {
    var ch := [p] + tail;
    forall x | x in FamiliesOf(tail) ensures x in FamiliesOf(ch) {
      var k :| 0 <= k < |tail| && Family(tail[k].market) == x;
      assert ch[k + 1] == tail[k];
    }
    assert Family(ch[0].market) == Family(p.market);
  }

  /** Covering the first candidate and the rest covers all of them. */
  lemma CoverCons(cs: seq<Pick>, used: set<string>, fams: set<string>)
    requires cs != [] && Family(cs[0].market) in used + fams
    requires forall j :: 0 <= j < |cs[1..]| ==> Family(cs[1..][j].market) in used + fams
    ensures forall j :: 0 <= j < |cs| ==> Family(cs[j].market) in used + fams
  {
    forall j | 1 <= j < |cs| ensures Family(cs[j].market) in used + fams {
      assert cs[j] == cs[1..][j - 1];
    }
  }

  /** The selection loop of `evaluate_markets` over the sorted candidates. */
  method ChooseByFamily(sorted: seq<Pick>, maxPicks: int) returns (chosen: seq<Pick>)
    ensures chosen == Choose(sorted, {}, maxPicks)
  {
    chosen := [];
    var used: set<string> := {};
    var i := 0;
    var done := false;
    while i < |sorted| && !done
      invariant 0 <= i <= |sorted|
      invariant done ==> chosen == Choose(sorted, {}, maxPicks)
      invariant !done ==> chosen + Choose(sorted[i..], used, maxPicks - |chosen|) == Choose(sorted, {}, maxPicks)
      decreases |sorted| - i, if done then 0 else 1
    {
      chosen, used, done := ChooseOne(sorted, i, chosen, used, maxPicks);
      if !done {
        i := i + 1;
      }
    }
    assert !done ==> sorted[i..] == [];
  }

  /** The body of the selection loop, on candidate `i`. */
  method ChooseOne(sorted: seq<Pick>, i: nat, chosen: seq<Pick>, used: set<string>, maxPicks: int)
    returns (chosen': seq<Pick>, used': set<string>, done: bool)
    requires i < |sorted|
    ensures done ==> chosen' == chosen + Choose(sorted[i..], used, maxPicks - |chosen|)
    ensures !done ==> chosen' + Choose(sorted[i + 1..], used', maxPicks - |chosen'|)
                      == chosen + Choose(sorted[i..], used, maxPicks - |chosen|)
  {
    var c := sorted[i];
    var fam := Family(c.market);
    ChooseStep(sorted[i..], used, maxPicks - |chosen|);
    assert sorted[i..][0] == c && sorted[i..][1..] == sorted[i + 1..];
    chosen', used', done := chosen, used, false;
    if fam !in used {
      var rest := Choose(sorted[i + 1..], used + {fam}, maxPicks - |chosen| - 1);
      assert chosen + [c] + rest == chosen + ([c] + rest);
      used' := used + {fam};
      chosen' := chosen + [c];
      done := |chosen'| >= maxPicks;
    }
  }

  /** One step of `Choose` on a non-empty list of candidates. */
  lemma ChooseStep(cs: seq<Pick>, used: set<string>, room: int)
    requires cs != []
    ensures Family(cs[0].market) in used ==> Choose(cs, used, room) == Choose(cs[1..], used, room)
    ensures Family(cs[0].market) !in used && room <= 1 ==> Choose(cs, used, room) == [cs[0]]
    ensures Family(cs[0].market) !in used && room > 1 ==>
      Choose(cs, used, room) == [cs[0]] + Choose(cs[1..], used + {Family(cs[0].market)}, room - 1)
  {
  }

  // ---------------------------------------------------------------- the whole evaluation

  /** Some quote had a model probability, as opposed to none being mapped at all. */
  predicate AnyMapped(items: seq<Item>)
  {
    exists i :: 0 <= i < |items| && items[i].fairProb.Some?
  }

  /** Sorting by expected value keeps the candidates and orders them by edge. */
  lemma ByEdge(cands: seq<Pick>)
    ensures forall i, j :: 0 <= i < j < |SortByDesc(cands, EvKey)| ==>
      SortByDesc(cands, EvKey)[i].edge >= SortByDesc(cands, EvKey)[j].edge
    ensures forall x :: x in SortByDesc(cands, EvKey) <==> x in cands
  {
    var sorted := SortByDesc(cands, EvKey);
    forall x ensures x in sorted <==> x in cands {
      assert x in sorted <==> x in multiset(sorted);
      assert x in cands <==> x in multiset(cands);
    }
  }

  /**
   * The sort and selection of `evaluate_markets`: the candidates by
   * decreasing expected value, at most one per family.
   */
  method Recommend(cands: seq<Pick>, maxPicks: int) returns (chosen: seq<Pick>)
    ensures chosen == Choose(SortByDesc(cands, EvKey), {}, maxPicks)
    ensures cands != [] ==> chosen != []
    ensures forall k :: 0 <= k < |chosen| ==> chosen[k] in cands
    ensures |chosen| <= if maxPicks < 1 then 1 else maxPicks
    ensures DistinctFamilies(chosen)
    ensures forall k, l :: 0 <= k < l < |chosen| ==> chosen[k].edge >= chosen[l].edge
    ensures |chosen| < maxPicks ==> forall j :: 0 <= j < |cands| ==> Family(cands[j].market) in FamiliesOf(chosen)
  {
    var sorted := SortByDesc(cands, EvKey);
    chosen := ChooseByFamily(sorted, maxPicks);
    ByEdge(cands);
    ChooseMembers(sorted, {}, maxPicks);
    ChooseOrdered(sorted, {}, maxPicks);
    ChooseBound(sorted, {}, maxPicks);
    ChooseFamilies(sorted, {}, maxPicks);
    ChooseCovers(sorted, {}, maxPicks);
    if |chosen| < maxPicks {
      forall j | 0 <= j < |cands| ensures Family(cands[j].market) in FamiliesOf(chosen) {
        assert cands[j] in sorted;
        var i :| 0 <= i < |sorted| && sorted[i] == cands[j];
        assert Family(sorted[i].market) in {} + FamiliesOf(chosen);
      }
    }
  }

  /**
   * `evaluate_markets`: drop stale quotes, evaluate every remaining quote,
   * and recommend the best candidates, at most one per market family.
   */
  method EvaluateMarkets(odds: seq<Quote>, now: real, probs: map<string, real>,
                         intervals: map<string, Interval>, r: Rules)
    returns (res: Evaluation)
    ensures var kept := Fresh(odds, now, r.maxOddsAgeHours);
      var cands := Candidates(kept, StatsOf(kept), probs, intervals, r);
      (kept == [] ==> res == Evaluation([], [], Some(MissingOrStaleOdds)))
      && (kept != [] ==> res.items == Items(kept, StatsOf(kept), probs, intervals, r))
      && (res.noBet.None? ==> res.recs == Choose(SortByDesc(cands, EvKey), {}, r.maxPicks))
      && (forall k :: 0 <= k < |res.recs| ==> res.recs[k] in cands)
      && (|res.recs| < r.maxPicks ==> forall j :: 0 <= j < |cands| ==> Family(cands[j].market) in FamiliesOf(res.recs))
    ensures res.recs == [] <==> res.noBet.Some?
    ensures res.noBet.Some? && res.items != [] ==>
      res.noBet.value == if AnyMapped(res.items) then NoEdgeOrHighUncertainty else NoMappedMarkets
    ensures |res.recs| <= if r.maxPicks < 1 then 1 else r.maxPicks
    ensures forall k :: 0 <= k < |res.recs| ==> GoodPick(res.recs[k], r)
    ensures DistinctFamilies(res.recs)
    ensures forall k, l :: 0 <= k < l < |res.recs| ==> res.recs[k].edge >= res.recs[l].edge
  {
    var kept, stale := FilterFresh(odds, now, r.maxOddsAgeHours);
    if kept == [] {
      return Evaluation([], [], Some(MissingOrStaleOdds));
    }
    var ms := StatsOf(kept);
    var items, cands := EvaluateQuotes(kept, ms, probs, intervals, r);
    if cands == [] {
      var code := if AnyMapped(items) then NoEdgeOrHighUncertainty else NoMappedMarkets;
      return Evaluation(items, [], Some(code));
    }
    var chosen := Recommend(cands, r.maxPicks);
    forall k | 0 <= k < |chosen| ensures GoodPick(chosen[k], r) {
      CandidateOrigin(kept, ms, probs, intervals, r, chosen[k]);
    }
    res := Evaluation(items, chosen, None);
  }
}
