/**
 * The adapter that turns reports and day predictions into the shapes the
 * user interface shows (app/services/ui_adapter_service.py): labels,
 * the Kelly fraction of an edge row, the status of a tool run, the list
 * of drivers, and the three tickets of a day.
 */
module UiAdapter {
  import opened Common
  import opened Text
  import MarketEval

  // ---------------------------------------------------------------------
  // Labels
  // ---------------------------------------------------------------------

  /** The display names of the known competition codes. */
  const CompLabels: map<string, string> := map[
    "Serie_A" := "Serie A", "Serie_B" := "Serie B", "EPL" := "Premier League",
    "Bundesliga" := "Bundesliga", "La_Liga" := "La Liga", "Ligue_1" := "Ligue 1"]

  /** `_competition_label`: "" for no code, the display name of a known code, else the code with spaces. */
  function CompetitionLabel(code: Option<string>): string
  {
    if code.None? || code.value == "" then ""
    else if code.value in CompLabels then CompLabels[code.value]
    else ReplaceChar(code.value, '_', ' ')
  }

  /**
   * No code or an empty one gives ""; a known code its display name; any other code keeps
   * its length and has every underscore turned into a space.
   */
  lemma CompetitionLabelMeaning(code: Option<string>)
    ensures code.None? || code.value == "" ==> CompetitionLabel(code) == ""
    ensures code.Some? && code.value in CompLabels ==> CompetitionLabel(code) == CompLabels[code.value]
    ensures code.Some? && code.value !in CompLabels ==>
      |CompetitionLabel(code)| == |code.value| && '_' !in CompetitionLabel(code) &&
      forall i :: 0 <= i < |code.value| && code.value[i] != '_' ==> CompetitionLabel(code)[i] == code.value[i]
  {
    if code.Some? && code.value !in CompLabels && code.value != "" {
      var r := CompetitionLabel(code);
      assert forall i :: 0 <= i < |r| ==> r[i] != '_';
    }
  }

  /**
   * `_market_key` of the adapter: the same table as the market evaluation,
   * but matched exactly, without upper-casing.
   */
  function MarketKeyExact(market: string, selection: string): Option<string>
  {
    if (market, selection) in MarketEval.KeyTable then Some(MarketEval.KeyTable[(market, selection)]) else None
  }

  /** An exact key is the case-insensitive key, and on upper-case names the two agree. */
  lemma MarketKeyExactMeaning(market: string, selection: string)
    ensures MarketKeyExact(market, selection).Some? ==>
      MarketKeyExact(market, selection) == MarketEval.IntervalKey(market, selection)
    ensures Upper(market) == market && Upper(selection) == selection ==>
      MarketKeyExact(market, selection) == MarketEval.IntervalKey(market, selection)
    ensures MarketKeyExact(market, selection).Some? <==> (market, selection) in MarketEval.KeyTable
  {
    if (market, selection) in MarketEval.KeyTable {
      assert Upper(market) == market && Upper(selection) == selection;
    }
  }

  /** `_market_label`. */
  function MarketLabel(market: string): string
  {
    if market == "1X2" then "1X2"
    else if market == "OU_2.5" then "Over/Under 2.5"
    else if market == "BTTS" then "BTTS"
    else market
  }

  /** The display names of the known (market, selection) pairs. */
  const SelectionLabels: map<(string, string), string> := map[
    ("1X2", "HOME") := "1", ("1X2", "DRAW") := "X", ("1X2", "AWAY") := "2",
    ("OU_2.5", "OVER") := "Over 2.5", ("OU_2.5", "UNDER") := "Under 2.5",
    ("BTTS", "YES") := "BTTS Yes", ("BTTS", "NO") := "BTTS No"]

  /** `_selection_label`. */
  function SelectionLabel(market: string, selection: string): string
  {
    if market == "1X2" then
      (if selection == "HOME" then "1" else if selection == "DRAW" then "X"
       else if selection == "AWAY" then "2" else selection)
    else if market == "OU_2.5" then
      (if selection == "OVER" then "Over 2.5" else if selection == "UNDER" then "Under 2.5" else selection)
    else if market == "BTTS" then
      (if selection == "YES" then "BTTS Yes" else if selection == "NO" then "BTTS No" else selection)
    else selection
  }

  /**
   * Known pairs get their display name, every other selection passes
   * through unchanged, and within a market two known selections never
   * share a label.
   */
  lemma SelectionLabelMeaning(market: string, selection: string, other: string)
    ensures (market, selection) in SelectionLabels ==>
      SelectionLabel(market, selection) == SelectionLabels[(market, selection)]
    ensures (market, selection) !in SelectionLabels ==> SelectionLabel(market, selection) == selection
    ensures (market, selection) in SelectionLabels && (market, other) in SelectionLabels && selection != other ==>
      SelectionLabel(market, selection) != SelectionLabel(market, other)
  {
  }

  /** `_kelly_fraction`: the Kelly fraction of the market evaluation, and 0 for no probability. */
  function KellyFraction(p: real, odds: real): real
  {
    if p <= 0.0 || odds <= 1.0 then 0.0 else Max(0.0, (p * odds - 1.0) / (odds - 1.0))
  }

  /**
   * The fraction is never negative, is 0 for a non-positive probability or
   * odds of at most 1, equals the market evaluation's Kelly fraction for a
   * positive probability, and never exceeds the probability itself.
   */
  lemma KellyFractionMeaning(p: real, odds: real)
    ensures KellyFraction(p, odds) >= 0.0
    ensures p <= 0.0 || odds <= 1.0 ==> KellyFraction(p, odds) == 0.0
    ensures p > 0.0 ==> KellyFraction(p, odds) == MarketEval.Kelly(p, odds)
    ensures p <= 1.0 ==> KellyFraction(p, odds) <= Max(0.0, p)
  {
    if p > 0.0 && odds > 1.0 && p <= 1.0 {
      KellyAtMost(p, odds - 1.0);
    }
  }

  /** With net odds `b`, the Kelly ratio of a probability of at most 1 is at most that probability. */
  lemma KellyAtMost(p: real, b: real)
    requires 0.0 < p <= 1.0 && b > 0.0
    ensures (p * (b + 1.0) - 1.0) / b <= p
  {
    var x := p * (b + 1.0) - 1.0;
    assert x == p * b + (p - 1.0);
    var q := x / b;
    assert q * b == x;
    if q > p {
      assert (q - p) * b > 0.0;
    }
  }

  // ---------------------------------------------------------------------
  // Tool runs and drivers
  // ---------------------------------------------------------------------

  /** The status of a tool run as shown: OK is success, ERROR is error, anything else skipped. */
  function ToolStatus(status: string): string
  {
    if status == "OK" then "success" else if status == "ERROR" then "error" else "skipped"
  }

  lemma ToolStatusMeaning(status: string)
    ensures ToolStatus(status) == "success" <==> status == "OK"
    ensures ToolStatus(status) == "error" <==> status == "ERROR"
    ensures ToolStatus(status) == "skipped" <==> status != "OK" && status != "ERROR"
  {
  }

  /** The drivers shown: the first five of a list, none when it is missing or not a list. */
  function ShownDrivers<T>(drivers: Option<seq<T>>): (r: seq<T>)
    ensures |r| <= 5
    ensures drivers.Some? ==> |r| <= |drivers.value| && r == drivers.value[..|r|]
    ensures drivers.Some? && |drivers.value| <= 5 ==> r == drivers.value
    ensures drivers.None? ==> r == []
  {
    if drivers.None? then []
    else if |drivers.value| <= 5 then drivers.value
    else drivers.value[..5]
  }

  // ---------------------------------------------------------------------
  // Tickets
  // ---------------------------------------------------------------------

  /** `_selection_from_label`: the market a pick label belongs to, and the label itself. */
  function SelectionFromLabel(tag: string): (string, string)
  {
    if tag == "1" || tag == "X" || tag == "2" then ("1X2", tag)
    else if tag == "1X" || tag == "X2" || tag == "12" then ("Doppia Chance", tag)
    else if Contains(tag, "Over") || Contains(tag, "Under") then ("Over/Under 2.5", tag)
    else if Contains(tag, "BTTS") then ("BTTS", tag)
    else ("Combo", tag)
  }

  /** The outcome shown is always the label; the market follows the first rule that applies. */
  lemma SelectionFromLabelMeaning(tag: string)
    ensures SelectionFromLabel(tag).1 == tag
    ensures SelectionFromLabel(tag).0 in {"1X2", "Doppia Chance", "Over/Under 2.5", "BTTS", "Combo"}
    ensures SelectionFromLabel(tag).0 == "Combo" <==>
      tag !in {"1", "X", "2", "1X", "X2", "12"} &&
      !Contains(tag, "Over") && !Contains(tag, "Under") && !Contains(tag, "BTTS")
  {
  }

  /** A pick of a day list, as the ticket builder reads it. */
  datatype TicketPick = TicketPick(tag: string, home: string, away: string, prob: Option<real>)

  /** One selection of a ticket. */
  datatype Selection = Selection(
    matchName: string, market: string, outcome: string, odds: real, probability: real, edge: real)

  /** A ticket. */
  datatype Ticket = Ticket(
    name: string, difficulty: string, selections: seq<Selection>,
    combinedOdds: real, combinedProbability: real, expectedValue: real, suggestedStake: real)

  /** `float(p.prob or 0.0)`. */
  function LegProb(p: TicketPick): real
  {
    if p.prob.Some? then p.prob.value else 0.0
  }

  /** The fair odds of a leg: 1 / prob, or 0 without a positive probability. */
  function LegOdds(p: TicketPick): real
  {
    if LegProb(p) > 0.0 then 1.0 / LegProb(p) else 0.0
  }

  function SelectionOf(p: TicketPick): Selection
  {
    var (market, outcome) := SelectionFromLabel(p.tag);
    Selection(p.home + " vs " + p.away, market, outcome, LegOdds(p), LegProb(p), 0.0)
  }

  /** What a leg multiplies into the combined odds: its odds, or 1 when they are not positive. */
  function OddsFactor(p: TicketPick): real
  {
    if LegOdds(p) > 0.0 then LegOdds(p) else 1.0
  }

  /** What a leg multiplies into the combined probability: its probability, or 1 when not positive. */
  function ProbFactor(p: TicketPick): real
  {
    if LegProb(p) > 0.0 then LegProb(p) else 1.0
  }

  /** The running product of the odds factors. */
  function CombinedOdds(picks: seq<TicketPick>): real
  {
    if picks == [] then 1.0 else CombinedOdds(picks[..|picks| - 1]) * OddsFactor(picks[|picks| - 1])
  }

  /** The running product of the probability factors. */
  function CombinedProb(picks: seq<TicketPick>): real
  {
    if picks == [] then 1.0 else CombinedProb(picks[..|picks| - 1]) * ProbFactor(picks[|picks| - 1])
  }

  function Selections(picks: seq<TicketPick>): seq<Selection>
  {
    if picks == [] then [] else Selections(picks[..|picks| - 1]) + [SelectionOf(picks[|picks| - 1])]
  }

  /** `_build_ticket`. */
  function TicketOf(name: string, difficulty: string, picks: seq<TicketPick>): Ticket
  {
    MakeTicket(name, difficulty, Selections(picks), CombinedOdds(picks), CombinedProb(picks))
  }

  /** The ticket of some selections and their two running products: all zero without selections. */
  function MakeTicket(name: string, difficulty: string, selections: seq<Selection>, odds: real, prob: real): Ticket
  {
    var ev := if selections != [] then prob * odds - 1.0 else 0.0;
    Ticket(name, difficulty, selections,
      if selections != [] then odds else 0.0,
      if selections != [] then prob else 0.0,
      ev, Max(0.0, ev) * 0.02)
  }

  /** `_build_ticket`, with its loop over the picks and its two running products. */
  method BuildTicket(name: string, difficulty: string, picks: seq<TicketPick>) returns (t: Ticket)
    ensures t == TicketOf(name, difficulty, picks)
  {
    var selections: seq<Selection> := [];
    var combinedOdds := 1.0;
    var combinedProb := 1.0;
    var i := 0;
    while i < |picks|
      invariant 0 <= i <= |picks|
      invariant selections == Selections(picks[..i])
      invariant combinedOdds == CombinedOdds(picks[..i])
      invariant combinedProb == CombinedProb(picks[..i])
    {
      assert picks[..i + 1][..i] == picks[..i];
      var p := picks[i];
      combinedOdds := combinedOdds * OddsFactor(p);
      combinedProb := combinedProb * ProbFactor(p);
      selections := selections + [SelectionOf(p)];
      i := i + 1;
    }
    assert picks[..i] == picks;
    t := MakeTicket(name, difficulty, selections, combinedOdds, combinedProb);
  }

  /** A leg's odds factor undoes its probability factor. */
  lemma LegCancel(p: TicketPick)
    ensures OddsFactor(p) * ProbFactor(p) == 1.0
  {
    if LegProb(p) > 0.0 {
      assert 1.0 / LegProb(p) > 0.0;
    }
  }

  lemma Regroup(a: real, b: real, x: real, y: real)
    requires a * b == 1.0 && x * y == 1.0
    ensures (a * x) * (b * y) == 1.0
  {
    assert (a * x) * (b * y) == (a * b) * (x * y);
  }

  lemma {:induction false} SelectionsLength(picks: seq<TicketPick>)
    ensures |Selections(picks)| == |picks|
    decreases |picks|
  {
    if picks != [] {
      SelectionsLength(picks[..|picks| - 1]);
    }
  }

  /** Leg by leg the odds factors undo the probability factors. */
  lemma {:induction false} FactorsCancel(picks: seq<TicketPick>)
    ensures CombinedOdds(picks) * CombinedProb(picks) == 1.0
    decreases |picks|
  {
    if picks != [] {
      var pre := picks[..|picks| - 1];
      var last := picks[|picks| - 1];
      FactorsCancel(pre);
      LegCancel(last);
      var a, x, b, y := CombinedOdds(pre), OddsFactor(last), CombinedProb(pre), ProbFactor(last);
      assert CombinedOdds(picks) == a * x;
      assert CombinedProb(picks) == b * y;
      Regroup(a, b, x, y);
    }
  }

  /**
   * A ticket without picks has zero combined odds, zero combined
   * probability, zero value and zero stake. Every leg is priced at the
   * fair odds of its own probability, so on any other ticket the combined
   * odds times the combined probability is 1, the expected value is 0 and
   * the suggested stake is 0; the stake is never negative.
   */
  lemma TicketMeaning(name: string, difficulty: string, picks: seq<TicketPick>)
    ensures var t := TicketOf(name, difficulty, picks);
      |t.selections| == |picks| && t.suggestedStake >= 0.0
    ensures var t := TicketOf(name, difficulty, picks);
      picks == [] ==> t.combinedOdds == 0.0 && t.combinedProbability == 0.0 && t.expectedValue == 0.0
    ensures var t := TicketOf(name, difficulty, picks);
      picks != [] ==>
        t.combinedOdds * t.combinedProbability == 1.0 && t.expectedValue == 0.0 && t.suggestedStake == 0.0
  {
    FactorsCancel(picks);
    SelectionsLength(picks);
  }
}
