/**
 * The decision helpers of the UI API routes: the token gate every route
 * calls first, the competition-code normaliser, the risk rating and
 * confidence interval of one opportunity, the odds-risk scan that filters
 * market evaluations into opportunities with Kelly stakes, and the
 * pagination of the audit history.
 */
module RoutesUiApi {
  import opened Common
  import opened Text
  import MarketEval
  import UiAdapter

  // ---------------------------------------------------------------------
  // `_require_token`
  // ---------------------------------------------------------------------

  /** The two request headers the gate reads; a header may be absent. */
  datatype Headers = Headers(authorization: Option<string>, chatToken: Option<string>)

  datatype Access = Allowed | Unauthorized  // Unauthorized is the 401 response

  /** `headers.get(name) or ""`. */
  function HeaderOrEmpty(h: Option<string>): (r: string)
    ensures h.None? ==> r == ""
    ensures h.Some? ==> r == h.value
  {
    if h.Some? then h.value else ""
  }

  /** The token carried by an `Authorization: Bearer …` header, the scheme matched in any case. */
  function BearerToken(auth: string): (r: Option<string>)
    ensures r.Some? <==> StartsWith(Lower(auth), "bearer ")
    ensures r.Some? ==> |auth| >= 7 && r.value == Strip(auth[7..])
  {
    if StartsWith(Lower(auth), "bearer ") then Some(Strip(auth[7..])) else None
  }

  /** `token or X-Chat-Token`: an absent or empty bearer token falls back to the other header. */
  function PresentedToken(h: Headers): Option<string>
  {
    var bearer := BearerToken(HeaderOrEmpty(h.authorization));
    if bearer.Some? && bearer.value != "" then bearer else h.chatToken
  }

  /** `_require_token` against the configured token `expected`. */
  function RequireToken(expected: Option<string>, h: Headers): Access
  {
    if expected.None? || expected.value == "" then Allowed
    else if PresentedToken(h) == expected then Allowed
    else Unauthorized
  }

  /**
   * With no token configured every request passes. Otherwise a request
   * passes exactly when its bearer token (scheme in any case, token
   * stripped) or, failing a non-empty one, its `X-Chat-Token` header equals
   * the configured token.
   */
  lemma RequireTokenMeaning(expected: Option<string>, h: Headers)
    ensures expected.None? || expected == Some("") ==> RequireToken(expected, h) == Allowed
    ensures expected.Some? && expected.value != "" ==>
      (RequireToken(expected, h) == Allowed <==>
        (h.authorization.Some? && StartsWith(Lower(h.authorization.value), "bearer ")
         && Strip(h.authorization.value[7..]) == expected.value)
        || ((h.authorization.None? || !StartsWith(Lower(h.authorization.value), "bearer ")
             || Strip(h.authorization.value[7..]) == "")
            && h.chatToken == expected))
  {
  }

  /** The scheme really is matched in any case: `Bearer`, `BEARER` and `bearer` all work. */
  lemma BearerAnyCase(scheme: string, token: string, chat: Option<string>)
    requires Lower(scheme) == "bearer "
    requires token != [] && !IsSpace(token[0]) && !IsSpace(token[|token| - 1])
    ensures RequireToken(Some(token), Headers(Some(scheme + token), chat)) == Allowed
  {
    var auth := scheme + token;
    assert Lower(auth)[..7] == Lower(scheme);
    assert auth[7..] == token;
    StripClean(token);
  }

  lemma StripClean(s: string)
    requires s != [] && !IsSpace(s[0]) && !IsSpace(s[|s| - 1])
    ensures Strip(s) == s
  {
  }

  // ---------------------------------------------------------------------
  // `_competition_code`
  // ---------------------------------------------------------------------

  /** `COMPETITION_ALIASES`, keyed by the lower-cased, stripped name. */
  const CompetitionAliases: map<string, string> := map[
    "serie a" := "Serie_A",
    "serie b" := "Serie_B",
    "premier league" := "EPL",
    "epl" := "EPL",
    "bundesliga" := "Bundesliga",
    "la liga" := "La_Liga",
    "laliga" := "La_Liga",
    "ligue 1" := "Ligue_1"
  ]

  /** `_competition_code`: an alias in any case, otherwise the stripped name with `_` for spaces. */
  function CompetitionCode(value: Option<string>): Option<string>
  {
    if value.None? || value.value == "" then None
    else
      var key := Lower(Strip(value.value));
      if key in CompetitionAliases then Some(CompetitionAliases[key])
      else Some(ReplaceChar(Strip(value.value), ' ', '_'))
  }

  /**
   * No value gives no code; an alias, written in any case and with any
   * surrounding whitespace, gives its canonical code; any other name is kept
   * stripped, character for character, except that spaces become `_`.
   */
  lemma CompetitionCodeMeaning(value: Option<string>)
    ensures CompetitionCode(value).None? <==> value.None? || value.value == ""
    ensures value.Some? && value.value != "" && Lower(Strip(value.value)) in CompetitionAliases ==>
      CompetitionCode(value) == Some(CompetitionAliases[Lower(Strip(value.value))])
    ensures value.Some? && value.value != "" && Lower(Strip(value.value)) !in CompetitionAliases ==>
      var s := Strip(value.value);
      var r := CompetitionCode(value).value;
      |r| == |s| && ' ' !in r
      && forall i :: 0 <= i < |s| ==> r[i] == (if s[i] == ' ' then '_' else s[i])
  {
  }

  /** Two spellings that differ only in case and surrounding whitespace give the same code. */
  lemma CompetitionCodeCaseInsensitive(a: string, b: string)
    requires a != "" && b != ""
    requires Lower(Strip(a)) == Lower(Strip(b)) && Lower(Strip(a)) in CompetitionAliases
    ensures CompetitionCode(Some(a)) == CompetitionCode(Some(b))
  {
  }

  // ---------------------------------------------------------------------
  // `_risk_rating`
  // ---------------------------------------------------------------------

  datatype Risk = Low | Medium | High

  function RiskName(r: Risk): string
  {
    match r
      case Low => "low"
      case Medium => "medium"
      case High => "high"
  }

  function RiskRating(prob: real, odds: real): Risk
  {
    if prob >= 0.6 && odds <= 2.2 then Low
    else if prob >= 0.45 && odds <= 3.5 then Medium
    else High
  }

  function RiskRank(r: Risk): nat
  {
    match r
      case Low => 0
      case Medium => 1
      case High => 2
  }

  /** The three bands, each as an if-and-only-if. */
  lemma RiskRatingMeaning(prob: real, odds: real)
    ensures RiskRating(prob, odds) == Low <==> prob >= 0.6 && odds <= 2.2
    ensures RiskRating(prob, odds) == Medium <==>
      !(prob >= 0.6 && odds <= 2.2) && prob >= 0.45 && odds <= 3.5
    ensures RiskRating(prob, odds) == High <==> !(prob >= 0.45 && odds <= 3.5)
  {
  }

  /** A likelier outcome at shorter odds is never rated riskier. */
  lemma RiskRatingMonotone(p1: real, o1: real, p2: real, o2: real)
    requires p1 <= p2 && o2 <= o1
    ensures RiskRank(RiskRating(p2, o2)) <= RiskRank(RiskRating(p1, o1))
  {
  }

  // ---------------------------------------------------------------------
  // `_confidence_interval`
  // ---------------------------------------------------------------------

  /**
   * The simulation's `intervals` dict: a key maps to an interval dict
   * (`Some`, either end possibly missing) or to something that is not a
   * dict (`None`).
   */
  type Intervals = map<string, Option<MarketEval.Interval>>

  /**
   * `_confidence_interval` as the pair `(lo, hi)`; `sim` is None when the
   * report has no simulation. The simulation key of a (market, selection)
   * pair is the adapter's exact-case lookup in the market key table.
   */
  function ConfidenceInterval(sim: Option<Intervals>, market: string, selection: string): (real, real)
  {
    if sim.None? then (0.0, 1.0)
    else
      var key := UiAdapter.MarketKeyExact(market, selection);
      if key.None? || key.value !in sim.value || sim.value[key.value].None? then (0.0, 1.0)
      else
        var iv := sim.value[key.value].value;
        (if iv.lo.Some? then iv.lo.value else 0.0, if iv.hi.Some? then iv.hi.value else 1.0)
  }

  /**
   * The interval is the full range [0, 1] exactly when nothing is known
   * about the pair; otherwise the simulation's own ends, each defaulting to
   * its side of [0, 1].
   */
  lemma ConfidenceIntervalMeaning(sim: Option<Intervals>, market: string, selection: string)
    ensures var key := UiAdapter.MarketKeyExact(market, selection);
      (sim.None? || key.None? || key.value !in sim.value || sim.value[key.value].None?) ==>
        ConfidenceInterval(sim, market, selection) == (0.0, 1.0)
    ensures var key := UiAdapter.MarketKeyExact(market, selection);
      sim.Some? && key.Some? && key.value in sim.value && sim.value[key.value].Some? ==>
        var iv := sim.value[key.value].value;
        ConfidenceInterval(sim, market, selection).0 == GetOrNone(iv.lo, 0.0)
        && ConfidenceInterval(sim, market, selection).1 == GetOrNone(iv.hi, 1.0)
  {
  }

  function GetOrNone(x: Option<real>, default: real): (r: real)
    ensures x.None? ==> r == default
    ensures x.Some? ==> r == x.value
  {
    if x.Some? then x.value else default
  }

  // ---------------------------------------------------------------------
  // `odds_risk`: request defaults, filter and opportunities
  // ---------------------------------------------------------------------

  /** `MARKET_ALIASES`, keyed by the lower-cased, stripped market name. */
  const MarketAliases: map<string, string> := map[
    "1x2" := "1X2",
    "over/under 2.5" := "OU_2.5",
    "ou_2.5" := "OU_2.5",
    "btts" := "BTTS",
    "doppia chance" := "1X2"
  ]

  /** One requested market: its alias target in any case, otherwise the name as sent. */
  function MarketAlias(m: string): (r: string)
    ensures Lower(Strip(m)) in MarketAliases ==> r == MarketAliases[Lower(Strip(m))]
    ensures Lower(Strip(m)) !in MarketAliases ==> r == m
  {
    GetOr(MarketAliases, Lower(Strip(m)), m)
  }

  function MarketAliasesOf(ms: seq<string>): (r: seq<string>)
    ensures |r| == |ms|
    ensures forall i :: 0 <= i < |ms| ==> r[i] == MarketAlias(ms[i])
  {
    seq(|ms|, i requires 0 <= i < |ms| => MarketAlias(ms[i]))
  }

  /** The request body of `/odds-risk`; every field is optional. */
  datatype OddsRiskRequest = OddsRiskRequest(
    minEdge: Option<real>, maxOdds: Option<real>, minProbability: Option<real>,
    bankroll: Option<real>, markets: Option<seq<string>>)

  /** The filter the route applies; an empty market list filters nothing. */
  datatype Filter = Filter(minEdge: real, maxOdds: real, minProb: real, bankroll: real, markets: seq<string>)

  /** `float(x or default)`: a missing value and a zero both take the default. */
  function OrDefault(x: Option<real>, default: real): (r: real)
    ensures x.None? || x.value == 0.0 ==> r == default
    ensures x.Some? && x.value != 0.0 ==> r == x.value
  {
    if x.None? || x.value == 0.0 then default else x.value
  }

  /**
   * The filter a request asks for: minimum edge and probability default to
   * 0, the odds ceiling to 99 and the bankroll to 1000 (a zero sent for
   * either of the last two also takes the default).
   */
  function FilterOf(req: OddsRiskRequest): (f: Filter)
    ensures f.maxOdds != 0.0 && f.bankroll != 0.0
    ensures req.maxOdds.None? ==> f.maxOdds == 99.0
    ensures req.bankroll.None? ==> f.bankroll == 1000.0
    ensures req.minEdge.None? ==> f.minEdge == 0.0
    ensures req.minProbability.None? ==> f.minProb == 0.0
    ensures f.markets == [] <==> req.markets.None? || req.markets.value == []
  {
    Filter(
      OrDefault(req.minEdge, 0.0), OrDefault(req.maxOdds, 99.0), OrDefault(req.minProbability, 0.0),
      OrDefault(req.bankroll, 1000.0),
      if req.markets.None? then [] else MarketAliasesOf(req.markets.value))
  }

  /** One entry of a report's `market_evaluation`. */
  datatype EvalItem = EvalItem(
    market: string, selection: string, odds: Option<real>, fairOdds: Option<real>,
    fairProb: Option<real>, edge: Option<real>, evPerUnit: Option<real>, lineValuePct: Option<real>)

  /** What the scan needs of one match's analysis: its evaluations and its simulation intervals. */
  datatype Report = Report(items: seq<EvalItem>, sim: Option<Intervals>)

  /** The fields of one opportunity the route computes (the match block is left out). */
  datatype Opportunity = Opportunity(
    market: string, outcome: string, marketOdds: real, fairOdds: real, probability: real,
    edge: real, ev: real, kelly: real, kellyStake: real, fractionalKellyStake: real,
    interval: (real, real), divergence: real, risk: Risk)

  /** The item survives the route's `continue` statements. */
  predicate Passes(item: EvalItem, f: Filter)
  {
    (f.markets == [] || item.market in f.markets)
    && item.odds.Some? && item.fairProb.Some? && item.edge.Some?
    && item.edge.value >= f.minEdge
    && item.odds.value <= f.maxOdds
    && item.fairProb.value >= f.minProb
  }

  /** The opportunity the route appends for a surviving item. */
  function OpportunityOf(item: EvalItem, f: Filter, sim: Option<Intervals>): Opportunity
    requires Passes(item, f)
  {
    var kelly := MarketEval.Kelly(item.fairProb.value, item.odds.value);
    Opportunity(
      item.market, item.selection, item.odds.value, GetOrNone(item.fairOdds, 0.0),
      item.fairProb.value, item.edge.value, GetOrNone(item.evPerUnit, 0.0),
      kelly, kelly * f.bankroll, kelly * f.bankroll * 0.25,
      ConfidenceInterval(sim, item.market, item.selection),
      GetOrNone(item.lineValuePct, 0.0),
      RiskRating(item.fairProb.value, item.odds.value))
  }

  /** What every opportunity under filter `f` satisfies. */
  predicate Qualifies(o: Opportunity, f: Filter)
  {
    o.edge >= f.minEdge && o.marketOdds <= f.maxOdds && o.probability >= f.minProb
    && (f.markets == [] || o.market in f.markets)
    && o.kelly >= 0.0
    && (o.kelly > 0.0 <==> o.marketOdds > 1.0 && MarketEval.Edge(o.probability, o.marketOdds) > 0.0)
    && o.kellyStake == o.kelly * f.bankroll
    && o.fractionalKellyStake == 0.25 * o.kellyStake
    && o.risk == RiskRating(o.probability, o.marketOdds)
  }

  /**
   * An opportunity keeps the filter's bounds, has a non-negative Kelly
   * fraction that is positive exactly for a positive-expectation bet at odds
   * above 1, and stakes a quarter of the full Kelly stake.
   */
  lemma OpportunityQualifies(item: EvalItem, f: Filter, sim: Option<Intervals>)
    requires Passes(item, f)
    ensures Qualifies(OpportunityOf(item, f, sim), f)
    ensures OpportunityOf(item, f, sim).market == item.market
    ensures OpportunityOf(item, f, sim).outcome == item.selection
  {
    var k := MarketEval.Kelly(item.fairProb.value, item.odds.value);
    assert k * f.bankroll * 0.25 == 0.25 * (k * f.bankroll);
  }

  /** The opportunities of one report, in item order. */
  function ItemOpportunities(items: seq<EvalItem>, f: Filter, sim: Option<Intervals>): seq<Opportunity>
  {
    if items == [] then []
    else
      var pre := ItemOpportunities(items[..|items| - 1], f, sim);
      var last := items[|items| - 1];
      if Passes(last, f) then pre + [OpportunityOf(last, f, sim)] else pre
  }

  /** The opportunities of all scanned reports, report after report. */
  function Opportunities(reports: seq<Report>, f: Filter): seq<Opportunity>
  {
    if reports == [] then []
    else
      var last := reports[|reports| - 1];
      Opportunities(reports[..|reports| - 1], f) + ItemOpportunities(last.items, f, last.sim)
  }

  /**
   * One report yields at most one opportunity per item; every opportunity
   * is that of a surviving item, and every surviving item yields its own.
   */
  lemma {:induction false} ItemOpportunitiesMeaning(items: seq<EvalItem>, f: Filter, sim: Option<Intervals>)
    ensures |ItemOpportunities(items, f, sim)| <= |items|
    ensures forall o :: o in ItemOpportunities(items, f, sim) ==>
      exists j :: 0 <= j < |items| && Passes(items[j], f) && o == OpportunityOf(items[j], f, sim)
    ensures forall j :: 0 <= j < |items| && Passes(items[j], f) ==>
      OpportunityOf(items[j], f, sim) in ItemOpportunities(items, f, sim)
    decreases |items|
  {
    if items != [] {
      var pre := items[..|items| - 1];
      ItemOpportunitiesMeaning(pre, f, sim);
      forall j | 0 <= j < |pre| ensures pre[j] == items[j] { }
    }
  }

  /** Every opportunity of every report qualifies. */
  lemma {:induction false} OpportunitiesQualify(reports: seq<Report>, f: Filter)
    ensures forall o :: o in Opportunities(reports, f) ==> Qualifies(o, f)
    decreases |reports|
  {
    if reports != [] {
      var last := reports[|reports| - 1];
      OpportunitiesQualify(reports[..|reports| - 1], f);
      ItemOpportunitiesMeaning(last.items, f, last.sim);
      forall o | o in ItemOpportunities(last.items, f, last.sim) ensures Qualifies(o, f) {
        var j :| 0 <= j < |last.items| && Passes(last.items[j], f)
          && o == OpportunityOf(last.items[j], f, last.sim);
        OpportunityQualifies(last.items[j], f, last.sim);
      }
    }
  }

  /** Every surviving item of every report appears among the opportunities. */
  lemma {:induction false} OpportunitiesComplete(reports: seq<Report>, f: Filter, i: nat, j: nat)
    requires i < |reports| && j < |reports[i].items| && Passes(reports[i].items[j], f)
    ensures OpportunityOf(reports[i].items[j], f, reports[i].sim) in Opportunities(reports, f)
    decreases |reports|
  {
    var last := reports[|reports| - 1];
    if i == |reports| - 1 {
      ItemOpportunitiesMeaning(last.items, f, last.sim);
    } else {
      var pre := reports[..|reports| - 1];
      assert pre[i] == reports[i];
      OpportunitiesComplete(pre, f, i, j);
    }
  }

  /** The inner loop of `odds_risk`: the opportunities of one report. */
  method ReportOpportunities(r: Report, f: Filter) returns (opps: seq<Opportunity>)
    ensures opps == ItemOpportunities(r.items, f, r.sim)
  {
    opps := [];
    var k := 0;
    while k < |r.items|
      invariant 0 <= k <= |r.items|
      invariant opps == ItemOpportunities(r.items[..k], f, r.sim)
    {
      var item := r.items[k];
      assert r.items[..k + 1][..k] == r.items[..k];
      if Passes(item, f) {
        opps := opps + [OpportunityOf(item, f, r.sim)];
      }
      k := k + 1;
    }
    assert r.items[..k] == r.items;
  }

  /** `odds_risk` over the analyses of the scanned matches, in kickoff order. */
  method OddsRisk(req: OddsRiskRequest, reports: seq<Report>) returns (opps: seq<Opportunity>, scanned: nat)
    ensures opps == Opportunities(reports, FilterOf(req))
    ensures scanned == |reports|
  {
    var f := FilterOf(req);
    opps := [];
    var i := 0;
    while i < |reports|
      invariant 0 <= i <= |reports|
      invariant opps == Opportunities(reports[..i], f)
    {
      var more := ReportOpportunities(reports[i], f);
      assert reports[..i + 1][..i] == reports[..i];
      opps := opps + more;
      i := i + 1;
    }
    assert reports[..i] == reports;
    scanned := |reports|;
  }

  // ---------------------------------------------------------------------
  // `audit_history` pagination
  // ---------------------------------------------------------------------

  datatype Pagination = InvalidPagination | Window(limit: nat, offset: nat)  // InvalidPagination is the 400 response

  function PaginationOf(page: int, perPage: int): Pagination
  {
    if page < 1 || perPage < 1 then InvalidPagination
    else Window(perPage, (page - 1) * perPage)
  }

  /** Pages and sizes below 1 are refused; otherwise page `p` skips the `p - 1` pages before it. */
  lemma PaginationMeaning(page: int, perPage: int)
    ensures PaginationOf(page, perPage) == InvalidPagination <==> page < 1 || perPage < 1
    ensures page >= 1 && perPage >= 1 ==>
      PaginationOf(page, perPage).limit == perPage
      && PaginationOf(page, perPage).offset == (page - 1) * perPage
  {
  }

  /** The rows `LIMIT ? OFFSET ?` returns from a listing. */
  function PageRows<T>(rows: seq<T>, w: Pagination): (r: seq<T>)
    requires w.Window?
    ensures |r| <= w.limit
  {
    var lo := if w.offset <= |rows| then w.offset else |rows|;
    var hi := if w.offset + w.limit <= |rows| then w.offset + w.limit else |rows|;
    rows[lo..hi]
  }

  /** Pages 1 to `n` read back to back. */
  function FirstPages<T>(rows: seq<T>, n: nat, perPage: nat): seq<T>
    requires perPage >= 1
  {
    if n == 0 then [] else FirstPages(rows, n - 1, perPage) + PageRows(rows, PaginationOf(n, perPage))
  }

  /** Each page starts where the one before it ended. */
  lemma PageFollows(page: int, perPage: int)
    requires page >= 1 && perPage >= 1
    ensures PaginationOf(page + 1, perPage).offset
      == PaginationOf(page, perPage).offset + perPage
  {
  }

  /**
   * Reading the first `n` pages one after another returns exactly the
   * first `n * perPage` rows of the listing, with no row skipped or repeated.
   */
  lemma {:induction false} FirstPagesArePrefix<T>(rows: seq<T>, n: nat, perPage: nat)
    requires perPage >= 1
    ensures FirstPages(rows, n, perPage)
      == rows[..if n * perPage <= |rows| then n * perPage else |rows|]
  {
    if n > 0 {
      FirstPagesArePrefix(rows, n - 1, perPage);
      var prev := (n - 1) * perPage;
      assert n * perPage == prev + perPage;
      assert PaginationOf(n, perPage) == Window(perPage, prev);
      PrefixThenPage(rows, prev, perPage);
    }
  }

  /** The rows before offset `prev` followed by the page at `prev` are the rows before `prev + perPage`. */
  lemma PrefixThenPage<T>(rows: seq<T>, prev: nat, perPage: nat)
    ensures rows[..if prev <= |rows| then prev else |rows|] + PageRows(rows, Window(perPage, prev))
      == rows[..if prev + perPage <= |rows| then prev + perPage else |rows|]
  {
    var a := if prev <= |rows| then prev else |rows|;
    var b := if prev + perPage <= |rows| then prev + perPage else |rows|;
    assert rows[..a] + rows[a..b] == rows[..b];
  }
}
