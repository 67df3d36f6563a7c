/**
 * The scoring side of the KPI report script: Brier scores and their
 * per-market averages, exact-case settlement of a pick, the best pick of
 * one market for one match, and the per-market pick count, profit and ROI.
 * The season label and season phase are the shared ones of `Calendar`.
 */
module KpiReport {
  import opened Common
  import opened Text
  import TuneRules
  import UiAdapter

  // ---------------------------------------------------------------------
  // `_brier`
  // ---------------------------------------------------------------------

  /** One forecast: the probability given and the 0/1 outcome. */
  type Record = (real, int)

  function SquaredError(r: Record): real
  {
    (r.0 - r.1 as real) * (r.0 - r.1 as real)
  }

  function SquaredErrors(records: seq<Record>): real
  {
    if records == [] then 0.0
    else SquaredErrors(records[..|records| - 1]) + SquaredError(records[|records| - 1])
  }

  /** `_brier`: the mean squared error, 0 for no records. */
  function Brier(records: seq<Record>): real
  {
    if records == [] then 0.0 else SquaredErrors(records) / |records| as real
  }

  predicate WellFormed(records: seq<Record>)
  {
    forall i :: 0 <= i < |records| ==>
      0.0 <= records[i].0 <= 1.0 && (records[i].1 == 0 || records[i].1 == 1)
  }

  lemma SquaredErrorWithin(r: Record)
    requires 0.0 <= r.0 <= 1.0 && (r.1 == 0 || r.1 == 1)
    ensures 0.0 <= SquaredError(r) <= 1.0
  {
    var d := r.0 - r.1 as real;
    var a := if d >= 0.0 then d else -d;
    assert 0.0 <= a <= 1.0;
    assert d * d == a * a by {
      if d < 0.0 { assert (-d) * (-d) == d * d; }
    }
    MulMono(a, 1.0, a);
    MulMono(0.0, a, a);
    assert 1.0 * a == a;
    assert SquaredError(r) == d * d;
    assert a * a <= 1.0;
  }

  lemma {:induction false} SquaredErrorsWithin(records: seq<Record>)
    requires WellFormed(records)
    ensures 0.0 <= SquaredErrors(records) <= |records| as real
    decreases |records|
  {
    if records != [] {
      var pre := records[..|records| - 1];
      assert WellFormed(pre) by {
        forall i | 0 <= i < |pre| ensures pre[i] == records[i] { }
      }
      SquaredErrorsWithin(pre);
      SquaredErrorWithin(records[|records| - 1]);
    }
  }

  /** With probabilities in [0, 1] and 0/1 outcomes the score lies in [0, 1]; no records score 0. */
  lemma BrierWithin(records: seq<Record>)
    requires WellFormed(records)
    ensures records == [] ==> Brier(records) == 0.0
    ensures 0.0 <= Brier(records) <= 1.0
  {
    if records != [] {
      SquaredErrorsWithin(records);
      var n := |records| as real;
      DivMono(0.0, SquaredErrors(records), n);
      DivMono(SquaredErrors(records), n, n);
      assert n / n == 1.0;
    }
  }

  /** Forecasts that give every outcome exactly score 0. */
  lemma {:induction false} BrierPerfect(records: seq<Record>)
    requires forall i :: 0 <= i < |records| ==> records[i].0 == records[i].1 as real
    ensures SquaredErrors(records) == 0.0 && Brier(records) == 0.0
    decreases |records|
  {
    if records != [] {
      var pre := records[..|records| - 1];
      assert forall i :: 0 <= i < |pre| ==> pre[i] == records[i];
      BrierPerfect(pre);
    }
  }

  // ---------------------------------------------------------------------
  // `_brier_by_market`
  // ---------------------------------------------------------------------

  /** `_brier_by_market`: a market's average is present only when all its selections are. */
  function BrierByMarket(brier: map<string, real>): map<string, real>
  {
    var m1 := if "home_win" in brier && "draw" in brier && "away_win" in brier
      then map["1X2" := (brier["home_win"] + brier["draw"] + brier["away_win"]) / 3.0]
      else map[];
    var m2 := if "over_2_5" in brier && "under_2_5" in brier
      then m1["OU_2.5" := (brier["over_2_5"] + brier["under_2_5"]) / 2.0]
      else m1;
    if "btts_yes" in brier && "btts_no" in brier
    then m2["BTTS" := (brier["btts_yes"] + brier["btts_no"]) / 2.0]
    else m2
  }

  /**
   * The result holds only the three market names; each is present exactly
   * when all of its selection scores are, and is then their mean.
   */
  lemma BrierByMarketMeaning(brier: map<string, real>)
    ensures BrierByMarket(brier).Keys <= {"1X2", "OU_2.5", "BTTS"}
    ensures "1X2" in BrierByMarket(brier) <==> "home_win" in brier && "draw" in brier && "away_win" in brier
    ensures "OU_2.5" in BrierByMarket(brier) <==> "over_2_5" in brier && "under_2_5" in brier
    ensures "BTTS" in BrierByMarket(brier) <==> "btts_yes" in brier && "btts_no" in brier
    ensures "1X2" in BrierByMarket(brier) ==>
      BrierByMarket(brier)["1X2"] == (brier["home_win"] + brier["draw"] + brier["away_win"]) / 3.0
    ensures "OU_2.5" in BrierByMarket(brier) ==>
      BrierByMarket(brier)["OU_2.5"] == (brier["over_2_5"] + brier["under_2_5"]) / 2.0
    ensures "BTTS" in BrierByMarket(brier) ==>
      BrierByMarket(brier)["BTTS"] == (brier["btts_yes"] + brier["btts_no"]) / 2.0
  {
  }

  /** Scores in [0, 1] average to scores in [0, 1]. */
  lemma BrierByMarketWithin(brier: map<string, real>)
    requires forall k :: k in brier ==> 0.0 <= brier[k] <= 1.0
    ensures forall m :: m in BrierByMarket(brier) ==> 0.0 <= BrierByMarket(brier)[m] <= 1.0
  {
    BrierByMarketMeaning(brier);
  }

  // ---------------------------------------------------------------------
  // `_market_outcome`
  // ---------------------------------------------------------------------

  /** `_market_outcome` of this script: the names must match exactly. */
  function MarketOutcome(market: string, selection: string, hg: int, ag: int): bool
  {
    if market == "1X2" then
      if selection == "HOME" then hg > ag
      else if selection == "DRAW" then hg == ag
      else if selection == "AWAY" then hg < ag
      else false
    else if market == "OU_2.5" then
      if selection == "OVER" then hg + ag >= 3
      else if selection == "UNDER" then hg + ag <= 2
      else false
    else if market == "BTTS" then
      if selection == "YES" then hg > 0 && ag > 0
      else if selection == "NO" then !(hg > 0 && ag > 0)
      else false
    else false
  }

  /**
   * This settlement is the tuning script's case-insensitive one restricted
   * to names already in upper case: any other spelling never wins here.
   * The 1X2 selections partition the scores, and OVER/UNDER and YES/NO are
   * complementary.
   */
  lemma MarketOutcomeMeaning(market: string, selection: string, hg: int, ag: int)
    ensures MarketOutcome(market, selection, hg, ag)
      == (TuneRules.KnownPair(market, selection) && TuneRules.MarketOutcome(market, selection, hg, ag))
    ensures (MarketOutcome("1X2", "HOME", hg, ag) || MarketOutcome("1X2", "DRAW", hg, ag)
             || MarketOutcome("1X2", "AWAY", hg, ag))
      && !(MarketOutcome("1X2", "HOME", hg, ag) && MarketOutcome("1X2", "DRAW", hg, ag))
      && !(MarketOutcome("1X2", "HOME", hg, ag) && MarketOutcome("1X2", "AWAY", hg, ag))
      && !(MarketOutcome("1X2", "DRAW", hg, ag) && MarketOutcome("1X2", "AWAY", hg, ag))
    ensures MarketOutcome("OU_2.5", "OVER", hg, ag) == !MarketOutcome("OU_2.5", "UNDER", hg, ag)
    ensures MarketOutcome("BTTS", "YES", hg, ag) == !MarketOutcome("BTTS", "NO", hg, ag)
  {
    if TuneRules.KnownPair(market, selection) {
      UpperKnown(market, selection);
    }
  }

  /** The seven settled pairs are written in upper case already. */
  lemma UpperKnown(market: string, selection: string)
    requires TuneRules.KnownPair(market, selection)
    ensures Upper(market) == market && Upper(selection) == selection
  {
    assert Upper("1X2") == "1X2";
    assert Upper("OU_2.5") == "OU_2.5";
    assert Upper("BTTS") == "BTTS";
    assert Upper("HOME") == "HOME";
    assert Upper("DRAW") == "DRAW";
    assert Upper("AWAY") == "AWAY";
    assert Upper("OVER") == "OVER";
    assert Upper("UNDER") == "UNDER";
    assert Upper("YES") == "YES";
    assert Upper("NO") == "NO";
  }

  // ---------------------------------------------------------------------
  // Best pick of one market for one match
  // ---------------------------------------------------------------------

  /** An `odds_quotes` row taken before kickoff. */
  datatype Quote = Quote(market: string, selection: string, odds: real)

  /** The pick the script keeps: selection, odds and edge. */
  datatype Pick = Pick(selection: string, odds: real, edge: real)

  /** The thresholds of the ROI pass: the odds ceiling and the minimum edge. */
  datatype Limits = Limits(maxOdds: real, minEdge: real)

  /** The model's edge on a quote: `probs.get(key, 0.0) * odds - 1`. */
  function QuoteEdge(q: Quote, probs: map<string, real>): real
    requires UiAdapter.MarketKeyExact(q.market, q.selection).Some?
  {
    GetOr(probs, UiAdapter.MarketKeyExact(q.market, q.selection).value, 0.0) * q.odds - 1.0
  }

  /** A quote of `market` the loop does not skip. */
  predicate Eligible(q: Quote, market: string, probs: map<string, real>, lim: Limits)
  {
    q.market == market
    && 1.01 < q.odds <= lim.maxOdds
    && UiAdapter.MarketKeyExact(q.market, q.selection).Some?
    && QuoteEdge(q, probs) >= lim.minEdge
  }

  function PickOf(q: Quote, probs: map<string, real>): Pick
    requires UiAdapter.MarketKeyExact(q.market, q.selection).Some?
  {
    Pick(q.selection, q.odds, QuoteEdge(q, probs))
  }

  /** The best pick over the quotes: a later quote replaces it only with a strictly larger edge. */
  function BestPickOf(quotes: seq<Quote>, market: string, probs: map<string, real>, lim: Limits): Option<Pick>
  {
    if quotes == [] then None
    else
      var best := BestPickOf(quotes[..|quotes| - 1], market, probs, lim);
      var q := quotes[|quotes| - 1];
      if Eligible(q, market, probs, lim) && (best.None? || QuoteEdge(q, probs) > best.value.edge)
      then Some(PickOf(q, probs))
      else best
  }

  /** Quote `j` is eligible and no earlier eligible quote reaches its edge. */
  predicate FirstBest(quotes: seq<Quote>, j: int, market: string, probs: map<string, real>, lim: Limits)
  {
    0 <= j < |quotes| && Eligible(quotes[j], market, probs, lim)
    && forall k :: 0 <= k < j && Eligible(quotes[k], market, probs, lim) ==>
         QuoteEdge(quotes[k], probs) < QuoteEdge(quotes[j], probs)
  }

  /**
   * There is a pick exactly when some quote is eligible; the pick is that
   * of an eligible quote whose edge no eligible quote exceeds, and no
   * earlier eligible quote reaches it (the first best wins).
   */
  lemma BestPickMeaning(quotes: seq<Quote>, market: string, probs: map<string, real>, lim: Limits)
    ensures BestPickOf(quotes, market, probs, lim).None?
      <==> forall k :: 0 <= k < |quotes| ==> !Eligible(quotes[k], market, probs, lim)
    ensures BestPickOf(quotes, market, probs, lim).Some? ==>
      exists j :: FirstBest(quotes, j, market, probs, lim)
        && BestPickOf(quotes, market, probs, lim).value == PickOf(quotes[j], probs)
    ensures BestPickOf(quotes, market, probs, lim).Some? ==>
      forall k :: 0 <= k < |quotes| && Eligible(quotes[k], market, probs, lim) ==>
        QuoteEdge(quotes[k], probs) <= BestPickOf(quotes, market, probs, lim).value.edge
  {
    BestPickNone(quotes, market, probs, lim);
    BestPickFirst(quotes, market, probs, lim);
    BestPickMaximal(quotes, market, probs, lim);
  }

  lemma {:induction false} BestPickNone(quotes: seq<Quote>, market: string, probs: map<string, real>, lim: Limits)
    ensures BestPickOf(quotes, market, probs, lim).None?
      <==> forall k :: 0 <= k < |quotes| ==> !Eligible(quotes[k], market, probs, lim)
    decreases |quotes|
  {
    if quotes != [] {
      var pre := quotes[..|quotes| - 1];
      BestPickNone(pre, market, probs, lim);
      assert forall k :: 0 <= k < |pre| ==> pre[k] == quotes[k];
    }
  }

  lemma {:induction false} BestPickMaximal(quotes: seq<Quote>, market: string, probs: map<string, real>, lim: Limits)
    ensures BestPickOf(quotes, market, probs, lim).Some? ==>
      forall k :: 0 <= k < |quotes| && Eligible(quotes[k], market, probs, lim) ==>
        QuoteEdge(quotes[k], probs) <= BestPickOf(quotes, market, probs, lim).value.edge
    decreases |quotes|
  {
    if quotes != [] {
      var pre := quotes[..|quotes| - 1];
      BestPickMaximal(pre, market, probs, lim);
      BestPickNone(pre, market, probs, lim);
      assert forall k :: 0 <= k < |pre| ==> pre[k] == quotes[k];
    }
  }

  lemma {:induction false} BestPickFirst(quotes: seq<Quote>, market: string, probs: map<string, real>, lim: Limits)
    ensures BestPickOf(quotes, market, probs, lim).Some? ==>
      exists j :: FirstBest(quotes, j, market, probs, lim)
        && BestPickOf(quotes, market, probs, lim).value == PickOf(quotes[j], probs)
    decreases |quotes|
  {
    if quotes != [] {
      var pre := quotes[..|quotes| - 1];
      var q := quotes[|quotes| - 1];
      var best := BestPickOf(pre, market, probs, lim);
      BestPickFirst(pre, market, probs, lim);
      BestPickMaximal(pre, market, probs, lim);
      BestPickNone(pre, market, probs, lim);
      assert forall k :: 0 <= k < |pre| ==> pre[k] == quotes[k];
      if Eligible(q, market, probs, lim) && (best.None? || QuoteEdge(q, probs) > best.value.edge) {
        var j := |quotes| - 1;
        assert FirstBest(quotes, j, market, probs, lim);
      } else if best.Some? {
        var j :| FirstBest(pre, j, market, probs, lim) && best.value == PickOf(pre[j], probs);
        assert quotes[j] == pre[j];
        assert FirstBest(quotes, j, market, probs, lim);
      }
    }
  }

  /** The inner loop of the ROI pass for one market of one match. */
  method BestPick(quotes: seq<Quote>, market: string, probs: map<string, real>, lim: Limits)
    returns (best: Option<Pick>)
    ensures best == BestPickOf(quotes, market, probs, lim)
  {
    best := None;
    var i := 0;
    while i < |quotes|
      invariant 0 <= i <= |quotes|
      invariant best == BestPickOf(quotes[..i], market, probs, lim)
    {
      var q := quotes[i];
      assert quotes[..i + 1][..i] == quotes[..i];
      if q.market == market && 1.01 < q.odds <= lim.maxOdds
        && UiAdapter.MarketKeyExact(q.market, q.selection).Some?
      {
        var edge := QuoteEdge(q, probs);
        if edge >= lim.minEdge && (best.None? || edge > best.value.edge) {
          best := Some(Pick(q.selection, q.odds, edge));
        }
      }
      i := i + 1;
    }
    assert quotes[..i] == quotes;
  }

  // ---------------------------------------------------------------------
  // Picks, profit and ROI per market
  // ---------------------------------------------------------------------

  /** What the ROI pass needs of one settled match. */
  datatype Settled = Settled(quotes: seq<Quote>, probs: map<string, real>, hg: int, ag: int)

  datatype Tally = Tally(picks: nat, profit: real)

  /** The profit of one unit on a pick: odds − 1 on a win, −1 otherwise. */
  function PickProfit(p: Pick, market: string, hg: int, ag: int): real
  {
    if MarketOutcome(market, p.selection, hg, ag) then p.odds - 1.0 else -1.0
  }

  /** The tally of one market over the settled matches, in order. */
  function TallyOf(matches: seq<Settled>, market: string, lim: Limits): Tally
  {
    if matches == [] then Tally(0, 0.0)
    else
      var t := TallyOf(matches[..|matches| - 1], market, lim);
      var m := matches[|matches| - 1];
      match BestPickOf(m.quotes, market, m.probs, lim)
        case None => t
        case Some(p) => Tally(t.picks + 1, t.profit + PickProfit(p, market, m.hg, m.ag))
  }

  /** `roi`: profit per pick, 0 with no picks. */
  function Roi(t: Tally): real
  {
    if t.picks == 0 then 0.0 else t.profit / t.picks as real
  }

  /** A kept pick's odds lie in (1.01, `max_odds`]. */
  lemma PickOddsWithin(quotes: seq<Quote>, market: string, probs: map<string, real>, lim: Limits)
    requires BestPickOf(quotes, market, probs, lim).Some?
    ensures 1.01 < BestPickOf(quotes, market, probs, lim).value.odds <= lim.maxOdds
  {
    BestPickMeaning(quotes, market, probs, lim);
  }

  /** A tally whose picks each lost at most their unit and won at most `hi`. */
  predicate WithinUnits(t: Tally, hi: real)
  {
    -(t.picks as real) <= t.profit <= t.picks as real * hi
  }

  /**
   * At most one pick per match; each pick loses at most its unit and wins
   * at most `max_odds - 1`.
   */
  lemma {:induction false} TallyBounds(matches: seq<Settled>, market: string, lim: Limits)
    ensures TallyOf(matches, market, lim).picks <= |matches|
    ensures WithinUnits(TallyOf(matches, market, lim), lim.maxOdds - 1.0)
    decreases |matches|
  {
    if matches != [] {
      var pre := matches[..|matches| - 1];
      var m := matches[|matches| - 1];
      TallyBounds(pre, market, lim);
      var t := TallyOf(pre, market, lim);
      var best := BestPickOf(m.quotes, market, m.probs, lim);
      if best.Some? {
        PickOddsWithin(m.quotes, market, m.probs, lim);
        var x := PickProfit(best.value, market, m.hg, m.ag);
        assert -1.0 <= x <= lim.maxOdds - 1.0;
        TallyStep(t, x, lim.maxOdds - 1.0);
        assert TallyOf(matches, market, lim) == Tally(t.picks + 1, t.profit + x);
      } else {
        assert TallyOf(matches, market, lim) == t;
      }
    }
  }

  /** One more pick with a profit in [−1, `hi`] keeps a tally within its units. */
  lemma TallyStep(t: Tally, x: real, hi: real)
    requires WithinUnits(t, hi)
    requires -1.0 <= x <= hi
    ensures WithinUnits(Tally(t.picks + 1, t.profit + x), hi)
  {
    assert (t.picks + 1) as real * hi == t.picks as real * hi + hi;
  }

  /** The ROI is 0 without picks, and otherwise lies in [−1, `max_odds` − 1]. */
  lemma RoiWithin(matches: seq<Settled>, market: string, lim: Limits)
    ensures TallyOf(matches, market, lim).picks == 0 ==> Roi(TallyOf(matches, market, lim)) == 0.0
    ensures TallyOf(matches, market, lim).picks > 0 ==>
      -1.0 <= Roi(TallyOf(matches, market, lim)) <= lim.maxOdds - 1.0
  {
    var t := TallyOf(matches, market, lim);
    TallyBounds(matches, market, lim);
    if t.picks > 0 {
      RatioWithin(t.profit, t.picks as real, lim.maxOdds - 1.0);
    }
  }

  lemma RatioWithin(profit: real, n: real, hi: real)
    requires n > 0.0 && -n <= profit <= n * hi
    ensures -1.0 <= profit / n <= hi
  {
    DivMono(-n, profit, n);
    DivMono(profit, n * hi, n);
    assert -n / n == -1.0;
    assert n * hi / n == hi;
  }

  /** The ROI pass of one market over the settled matches. */
  method TallyMarket(matches: seq<Settled>, market: string, lim: Limits) returns (t: Tally, roi: real)
    ensures t == TallyOf(matches, market, lim)
    ensures roi == Roi(t)
  {
    t := Tally(0, 0.0);
    var i := 0;
    while i < |matches|
      invariant 0 <= i <= |matches|
      invariant t == TallyOf(matches[..i], market, lim)
    {
      var m := matches[i];
      assert matches[..i + 1][..i] == matches[..i];
      var best := BestPick(m.quotes, market, m.probs, lim);
      if best.Some? {
        var win := MarketOutcome(market, best.value.selection, m.hg, m.ag);
        t := Tally(t.picks + 1, t.profit + (if win then best.value.odds - 1.0 else -1.0));
      }
      i := i + 1;
    }
    assert matches[..i] == matches;
    roi := if t.picks > 0 then t.profit / t.picks as real else 0.0;
  }
}
