/**
 * The day-prediction pick rules (app/services/prediction_service.py): the
 * main 1X2 outcome, the double chance, totals and BTTS leanings, the
 * confidence helpers, the safe / medium / risky pick of a match and the
 * three-per-list day summary.
 */
module Prediction {
  import opened Common
  import opened Sorting

  /**
   * The pick labels: "1", "X", "2", "1X", "X2", "12", "Under 2.5",
   * "Over 2.5", "BTTS No", "BTTS Yes", "1 + Over 1.5", "2 + Over 1.5" and
   * "X + Under 2.5".
   */
  datatype Label = Home | Draw | Away | HomeOrDraw | DrawOrAway | HomeOrAway
                 | Under25 | Over25 | BttsNo | BttsYes
                 | HomeAndOver15 | AwayAndOver15 | DrawAndUnder25

  /** A (label, probability) pair as the helpers return it. */
  datatype Choice = Choice(tag: Label, prob: real)

  /**
   * The combined-market probabilities `_combo_prob` derives from the
   * expected goals; that Poisson computation is not part of this model, so
   * they are inputs.
   */
  datatype Combos = Combos(homeOver15: real, awayOver15: real, drawUnder25: real)

  /**
   * A match prediction: the simulated probabilities and the
   * `model_confidence` block (absent keys, nulls and values `float` rejects
   * are all None; a missing block is the empty map).
   */
  datatype MatchPrediction = MatchPrediction(matchId: string, competition: string, home: string, away: string,
                                             probs: Probs, info: Confidence, combos: Combos)

  /** The seven probabilities the helpers read from the `probs` dict. */
  datatype Probs = Probs(home: real, draw: real, away: real, over: real, under: real, yes: real, no: real)

  /** The three entries of the confidence block the helpers read. */
  datatype Confidence = Confidence(score: Option<real>, dataQuality: Option<real>, coverage: Option<real>)

  /** `probs.get(key, 0.0)` for each key the helpers use. */
  function ProbsOf(d: map<string, real>): Probs
  {
    Probs(GetOr(d, "home_win", 0.0), GetOr(d, "draw", 0.0), GetOr(d, "away_win", 0.0),
          GetOr(d, "over_2_5", 0.0), GetOr(d, "under_2_5", 0.0), GetOr(d, "btts_yes", 0.0),
          GetOr(d, "btts_no", 0.0))
  }

  /** The entries of `confidence_info or {}`; a missing key, a null and a non-number are all None. */
  function ConfidenceOf(info: map<string, Option<real>>): Confidence
  {
    Confidence(GetOr(info, "score", None), GetOr(info, "data_quality_score", None),
               GetOr(info, "lineup_coverage", None))
  }

  datatype Suggestion = Suggestion(matchId: string, competition: string, home: string, away: string,
                                   tag: Label, prob: real)

  function Suggest(pred: MatchPrediction, c: Choice): Suggestion
  {
    Suggestion(pred.matchId, pred.competition, pred.home, pred.away, c.tag, c.prob)
  }

  // ---------------------------------------------------------------- market leanings

  function ProbKey(c: Choice): Key { (c.prob, 0.0) }

  /** `max(items, key=lambda x: x[1])`: the first of the most probable choices. */
  function MaxChoice(cs: seq<Choice>): (c: Choice)
    requires |cs| > 0
    ensures c in cs
    ensures forall j :: 0 <= j < |cs| ==> cs[j].prob <= c.prob
  {
    cs[ArgMax(cs, ProbKey)]
  }

  /** On three choices, `max` takes the first one no other beats, trying them in order. */
  lemma MaxOf3(a: Choice, b: Choice, c: Choice)
    ensures MaxChoice([a, b, c])
      == if a.prob >= b.prob && a.prob >= c.prob then a else if b.prob >= c.prob then b else c
  {
    var cs := [a, b, c];
    var i := ArgMax(cs, ProbKey);
    assert KeyLe(ProbKey(cs[0]), ProbKey(cs[i])) && KeyLe(ProbKey(cs[1]), ProbKey(cs[i]));
    assert KeyLe(ProbKey(cs[2]), ProbKey(cs[i]));
    if i == 1 {
      assert !KeyLe(ProbKey(cs[1]), ProbKey(cs[0]));
    } else if i == 2 {
      assert !KeyLe(ProbKey(cs[2]), ProbKey(cs[0])) && !KeyLe(ProbKey(cs[2]), ProbKey(cs[1]));
    }
  }

  /** `_main_1x2`. */
  function Main1x2(probs: Probs): Choice
  {
    MaxChoice([Choice(Home, probs.home), Choice(Draw, probs.draw), Choice(Away, probs.away)])
  }

  /** The main 1X2 outcome is the most probable one; ties go to 1, then X, then 2. */
  lemma Main1x2Meaning(probs: Probs)
    ensures Main1x2(probs).prob == Max(probs.home, Max(probs.draw, probs.away))
    ensures Main1x2(probs).tag == Home <==> probs.home >= probs.draw && probs.home >= probs.away
    ensures Main1x2(probs).tag == Draw <==> probs.draw > probs.home && probs.draw >= probs.away
    ensures Main1x2(probs).tag == Away <==> probs.away > probs.home && probs.away > probs.draw
  {
    MaxOf3(Choice(Home, probs.home), Choice(Draw, probs.draw), Choice(Away, probs.away));
  }

  /** `_double_chance`. */
  function DoubleChance(probs: Probs): Choice
  {
    MaxChoice([Choice(HomeOrDraw, probs.home + probs.draw),
               Choice(DrawOrAway, probs.draw + probs.away),
               Choice(HomeOrAway, probs.home + probs.away)])
  }

  /** The double chance is the likeliest pair of outcomes; ties go to 1X, then X2, then 12. */
  lemma DoubleChanceMeaning(probs: Probs)
    ensures DoubleChance(probs).prob
      == Max(probs.home + probs.draw, Max(probs.draw + probs.away, probs.home + probs.away))
    ensures DoubleChance(probs).tag == HomeOrDraw <==> probs.draw >= probs.away && probs.home >= probs.away
    ensures DoubleChance(probs).tag == DrawOrAway <==> probs.away > probs.home && probs.draw >= probs.home
    ensures DoubleChance(probs).tag == HomeOrAway <==> probs.away > probs.draw && probs.home > probs.draw
  {
    MaxOf3(Choice(HomeOrDraw, probs.home + probs.draw), Choice(DrawOrAway, probs.draw + probs.away),
           Choice(HomeOrAway, probs.home + probs.away));
  }

  /** `_double_chance_safe`: 1X or X2, never 12. */
  function DoubleChanceSafe(probs: Probs): (c: Choice)
    ensures c.tag == HomeOrDraw <==> probs.home >= probs.away
    ensures c.tag == HomeOrDraw || c.tag == DrawOrAway
    ensures c.prob == probs.draw + Max(probs.home, probs.away)
  {
    var cs := [Choice(HomeOrDraw, probs.home + probs.draw), Choice(DrawOrAway, probs.draw + probs.away)];
    var i := ArgMax(cs, ProbKey);
    assert KeyLe(ProbKey(cs[0]), ProbKey(cs[i])) && KeyLe(ProbKey(cs[1]), ProbKey(cs[i]));
    assert i == 1 ==> !KeyLe(ProbKey(cs[1]), ProbKey(cs[0]));
    cs[i]
  }

  /** `_totals_pick`: the likelier side of 2.5 goals, Under on a tie. */
  function TotalsPick(probs: Probs): (c: Choice)
    ensures c.tag == Under25 <==> probs.under >= probs.over
    ensures c.tag == Under25 || c.tag == Over25
    ensures c.prob == Max(probs.under, probs.over)
  {
    if probs.under >= probs.over then Choice(Under25, probs.under) else Choice(Over25, probs.over)
  }

  /** `_btts_pick`: the likelier BTTS answer, No on a tie. */
  function BttsPick(probs: Probs): (c: Choice)
    ensures c.tag == BttsNo <==> probs.no >= probs.yes
    ensures c.tag == BttsNo || c.tag == BttsYes
    ensures c.prob == Max(probs.no, probs.yes)
  {
    if probs.no >= probs.yes then Choice(BttsNo, probs.no) else Choice(BttsYes, probs.yes)
  }

  // ---------------------------------------------------------------- confidence

  /** `_confidence_score`: the block's score, 0.5 when there is none. */
  function ConfidenceScore(info: Confidence): (s: real)
    ensures info.score.Some? ==> s == info.score.value
    ensures info.score.None? ==> s == 0.5
  {
    match info.score
    case Some(x) => x
    case None => 0.5
  }

  /** A low reading of an optional indicator (a missing one is never low). */
  predicate Below(v: Option<real>, limit: real)
  {
    v.Some? && v.value < limit
  }

  /**
   * The confidence factor of a score and the two quality indicators:
   * `min(1, 0.7 + 0.6 * score)`, times 0.9 for data quality below 0.6 and
   * again for lineup coverage below 0.3, kept within [0.5, 1.0].
   */
  function Factor(score: real, dataQuality: Option<real>, coverage: Option<real>): (f: real)
    ensures 0.5 <= f <= 1.0
  {
    var base := Min(1.0, 0.7 + 0.6 * score);
    var a := if Below(dataQuality, 0.6) then base * 0.9 else base;
    var b := if Below(coverage, 0.3) then a * 0.9 else a;
    Max(0.5, Min(1.0, b))
  }

  /** `_confidence_factor`. */
  function ConfidenceFactor(info: Confidence): (f: real)
    ensures 0.5 <= f <= 1.0
  {
    Factor(ConfidenceScore(info), info.dataQuality, info.coverage)
  }

  /** A higher score never lowers the factor. */
  lemma FactorMonotone(s1: real, s2: real, dataQuality: Option<real>, coverage: Option<real>)
    requires s1 <= s2
    ensures Factor(s1, dataQuality, coverage) <= Factor(s2, dataQuality, coverage)
  {
    var b1 := Min(1.0, 0.7 + 0.6 * s1);
    var b2 := Min(1.0, 0.7 + 0.6 * s2);
    assert b1 <= b2;
    MulMono(b1, b2, 0.9);
    MulMono(b1 * 0.9, b2 * 0.9, 0.9);
    MulMono(b1, b2, 0.81);
  }

  /** With no quality penalty a score of at least 0.5 gives the full factor. */
  lemma FactorFull(score: real, dataQuality: Option<real>, coverage: Option<real>)
    requires score >= 0.5 && !Below(dataQuality, 0.6) && !Below(coverage, 0.3)
    ensures Factor(score, dataQuality, coverage) == 1.0
  {
  }

  /** `_low_confidence`. */
  predicate LowConfidence(info: Confidence)
  {
    if ConfidenceScore(info) < 0.45 then true
    else if Below(info.dataQuality, 0.5) then true
    else Below(info.coverage, 0.2)
  }

  /** Low confidence is exactly a low score, low data quality or low lineup coverage. */
  lemma LowConfidenceMeaning(info: Confidence)
    ensures LowConfidence(info) <==>
      ConfidenceScore(info) < 0.45
      || (info.dataQuality.Some? && info.dataQuality.value < 0.5)
      || (info.coverage.Some? && info.coverage.value < 0.2)
  {
  }

  /**
   * A prediction that is not of low confidence keeps a factor of at least
   * 0.97 * 0.9 * 0.9, so both quality penalties together cannot reach the
   * lower clamp.
   */
  lemma ConfidentFactor(info: Confidence)
    requires !LowConfidence(info)
    ensures ConfidenceFactor(info) >= 0.7857
  {
    var s := ConfidenceScore(info);
    FactorMonotone(0.45, s, info.dataQuality, info.coverage);
  }

  // ---------------------------------------------------------------- the three pick rules

  /** The threshold a safe candidate must meet: 0.62 for a double chance, 0.60 otherwise. */
  function SafeThreshold(l: Label): real
  {
    if l == HomeOrDraw || l == DrawOrAway then 0.62 else 0.60
  }

  /** The labels a safe pick can carry: 1X, X2, a total or a BTTS answer, never 12. */
  predicate SafeLabel(l: Label)
  {
    l == HomeOrDraw || l == DrawOrAway || l == Under25 || l == Over25 || l == BttsNo || l == BttsYes
  }

  /** A safe label whose probability, times the factor, meets its threshold. */
  predicate Qualifies(tag: Label, prob: real, factor: real)
  {
    SafeLabel(tag) && prob * factor >= SafeThreshold(tag)
  }

  /** Some leaning, times the factor, meets its safe threshold. */
  predicate AnySafe(probs: Probs, factor: real)
  {
    DoubleChanceSafe(probs).prob * factor >= 0.62
    || TotalsPick(probs).prob * factor >= 0.60
    || BttsPick(probs).prob * factor >= 0.60
  }

  /** The safe candidates: each leaning whose probability, times the factor, meets its threshold. */
  function SafeCandidates(probs: Probs, factor: real): (cs: seq<Choice>)
    ensures cs != [] <==> AnySafe(probs, factor)
    ensures forall k :: 0 <= k < |cs| ==> Qualifies(cs[k].tag, cs[k].prob, factor)
  {
    (if DoubleChanceSafe(probs).prob * factor >= 0.62 then [DoubleChanceSafe(probs)] else [])
    + (if TotalsPick(probs).prob * factor >= 0.60 then [TotalsPick(probs)] else [])
    + (if BttsPick(probs).prob * factor >= 0.60 then [BttsPick(probs)] else [])
  }

  /** `_safe_pick`: the rule below with the prediction's confidence factor. */
  function SafePick(pred: MatchPrediction): Option<Suggestion>
  {
    SafeWith(pred, ConfidenceFactor(pred.info))
  }

  function SafeWith(pred: MatchPrediction, factor: real): Option<Suggestion>
  {
    if LowConfidence(pred.info) then None
    else
      var cs := SafeCandidates(pred.probs, factor);
      if cs == [] then None else Some(Suggest(pred, MaxChoice(cs)))
  }

  /**
   * A safe pick exists exactly when confidence is not low and some leaning
   * meets its threshold; it is then 1X/X2, a total or a BTTS answer (never
   * 12), meets its own threshold, and is at least as likely as every other
   * qualifying leaning.
   */
  lemma SafeWithMeaning(pred: MatchPrediction, factor: real)
    ensures SafeWith(pred, factor).Some? <==> !LowConfidence(pred.info) && AnySafe(pred.probs, factor)
    ensures SafeWith(pred, factor).Some? ==> Qualifies(SafeWith(pred, factor).value.tag, SafeWith(pred, factor).value.prob, factor)
    ensures SafeWith(pred, factor).Some? ==> forall c :: c in SafeCandidates(pred.probs, factor) ==>
      c.prob <= SafeWith(pred, factor).value.prob
    ensures SafeWith(pred, factor).Some? ==> SafeWith(pred, factor).value.matchId == pred.matchId
  {
    if !LowConfidence(pred.info) {
      var cs := SafeCandidates(pred.probs, factor);
      if cs != [] {
        MaxSafe(cs, factor);
      } else {
        assert SafeWith(pred, factor) == None;
      }
    } else {
      assert SafeWith(pred, factor) == None;
    }
  }

  /** The most probable of qualifying candidates qualifies, and no candidate is more probable. */
  lemma MaxSafe(cs: seq<Choice>, factor: real)
    requires cs != []
    requires forall k :: 0 <= k < |cs| ==> Qualifies(cs[k].tag, cs[k].prob, factor)
    ensures Qualifies(MaxChoice(cs).tag, MaxChoice(cs).prob, factor)
    ensures forall c :: c in cs ==> c.prob <= MaxChoice(cs).prob
  {
    var m := MaxChoice(cs);
    var i :| 0 <= i < |cs| && cs[i] == m;
    forall c | c in cs ensures c.prob <= m.prob {
      var j :| 0 <= j < |cs| && cs[j] == c;
    }
  }

  /**
   * `sorted([p1, px, p2], reverse=True)[1]` when some probability is
   * positive, else 0: the runner-up probability, the middle of the three.
   */
  function SecondProb(probs: Probs): real
  {
    if Max(probs.home, Max(probs.draw, probs.away)) > 0.0 then Middle(probs.home, probs.draw, probs.away) else 0.0
  }

  /** The middle value of three. */
  function Middle(a: real, b: real, c: real): real
  {
    Max(Min(a, b), Min(Max(a, b), c))
  }

  /** The middle value is one of the three, with two of them on each side of it. */
  lemma MiddleMeaning(a: real, b: real, c: real)
    ensures var m := Middle(a, b, c);
      (m == a || m == b || m == c)
      && ((a >= m && b >= m) || (a >= m && c >= m) || (b >= m && c >= m))
      && ((a <= m && b <= m) || (a <= m && c <= m) || (b <= m && c <= m))
  {
  }

  /** The main 1X2 outcome qualifies for the medium list: likely enough and clear of the runner-up. */
  predicate MainClear(probs: Probs, factor: real)
  {
    Main1x2(probs).prob * factor >= 0.42 && Main1x2(probs).prob - SecondProb(probs) >= 0.05
  }

  predicate TotalsClear(probs: Probs, factor: real)
  {
    TotalsPick(probs).prob * factor >= 0.55
  }

  predicate DoubleClear(probs: Probs, factor: real)
  {
    DoubleChanceSafe(probs).prob * factor >= 0.55
  }

  /** `_medium_pick`: the rule below with the prediction's confidence factor. */
  function MediumPick(pred: MatchPrediction): Option<Suggestion>
  {
    MediumWith(pred, ConfidenceFactor(pred.info))
  }

  function MediumWith(pred: MatchPrediction, factor: real): Option<Suggestion>
  {
    if LowConfidence(pred.info) then None
    else if MainClear(pred.probs, factor) then Some(Suggest(pred, Main1x2(pred.probs)))
    else if TotalsClear(pred.probs, factor) then Some(Suggest(pred, TotalsPick(pred.probs)))
    else if DoubleClear(pred.probs, factor) then Some(Suggest(pred, DoubleChanceSafe(pred.probs)))
    else None
  }

  /**
   * The medium pick tries the main outcome, then the totals leaning, then
   * the safe double chance, and takes the first that qualifies; the kind
   * of its label tells which rule fired and that the earlier ones failed.
   */
  lemma MediumPriority(pred: MatchPrediction, factor: real)
    ensures LowConfidence(pred.info) ==> MediumWith(pred, factor).None?
    ensures !LowConfidence(pred.info) && MainClear(pred.probs, factor) ==>
      MediumWith(pred, factor) == Some(Suggest(pred, Main1x2(pred.probs)))
    ensures MediumWith(pred, factor).Some? && MediumWith(pred, factor).value.tag in {Under25, Over25} ==>
      !MainClear(pred.probs, factor) && TotalsClear(pred.probs, factor)
      && MediumWith(pred, factor).value.prob == TotalsPick(pred.probs).prob
    ensures MediumWith(pred, factor).Some? && MediumWith(pred, factor).value.tag in {HomeOrDraw, DrawOrAway} ==>
      !MainClear(pred.probs, factor) && !TotalsClear(pred.probs, factor) && DoubleClear(pred.probs, factor)
    ensures MediumWith(pred, factor).None? <==>
      LowConfidence(pred.info)
      || (!MainClear(pred.probs, factor) && !TotalsClear(pred.probs, factor) && !DoubleClear(pred.probs, factor))
  {
    Main1x2Meaning(pred.probs);
  }

  /** A main outcome that is clear beats each of the other two outcomes by at least 0.05. */
  lemma MainClearMargin(probs: Probs, factor: real)
    requires 0.0 < factor <= 1.0
    requires MainClear(probs, factor)
    ensures Main1x2(probs).prob >= 0.42
    ensures (Main1x2(probs).tag != Home ==> probs.home <= Main1x2(probs).prob - 0.05)
      && (Main1x2(probs).tag != Draw ==> probs.draw <= Main1x2(probs).prob - 0.05)
      && (Main1x2(probs).tag != Away ==> probs.away <= Main1x2(probs).prob - 0.05)
  {
    Main1x2Meaning(probs);
    MiddleMeaning(probs.home, probs.draw, probs.away);
    AtLeastProduct(Main1x2(probs).prob, factor, 0.42);
  }

  /** A probability whose scaled value reaches `t > 0`, for a scale in (0, 1], reaches `t` itself. */
  lemma AtLeastProduct(x: real, f: real, t: real)
    requires 0.0 < f <= 1.0 && t > 0.0 && x * f >= t
    ensures x >= t
  {
    PositiveOfProduct(x, f);
    MulMono(f, 1.0, x);
  }

  lemma PositiveOfProduct(x: real, f: real)
    requires f > 0.0 && x * f > 0.0
    ensures x > 0.0
  {
  }

  /** `_risky_pick`: the rule below with the prediction's confidence factor. */
  function RiskyPick(pred: MatchPrediction): Option<Suggestion>
  {
    RiskyWith(pred, ConfidenceFactor(pred.info))
  }

  /** The main outcome, upgraded to its combined market when that is likely enough. */
  function RiskyWith(pred: MatchPrediction, factor: real): Option<Suggestion>
  {
    var m := Main1x2(pred.probs);
    var c :=
      if m.tag == Home then
        (if pred.combos.homeOver15 * factor >= 0.30 then Choice(HomeAndOver15, pred.combos.homeOver15) else m)
      else if m.tag == Away then
        (if pred.combos.awayOver15 * factor >= 0.30 then Choice(AwayAndOver15, pred.combos.awayOver15) else m)
      else
        (if pred.combos.drawUnder25 * factor >= 0.22 then Choice(DrawAndUnder25, pred.combos.drawUnder25) else m);
    Some(Suggest(pred, c))
  }

  /**
   * The risky pick is never None, whatever the confidence; it is the main
   * outcome or that outcome's combined market, and it is the combined
   * market exactly when the combined probability times the factor meets
   * 0.30 (0.22 for a draw).
   */
  lemma RiskyMeaning(pred: MatchPrediction, factor: real)
    ensures RiskyWith(pred, factor).Some?
    ensures Main1x2(pred.probs).tag == Home ==>
      (RiskyWith(pred, factor).value.tag == HomeAndOver15 <==> pred.combos.homeOver15 * factor >= 0.30)
    ensures Main1x2(pred.probs).tag == Away ==>
      (RiskyWith(pred, factor).value.tag == AwayAndOver15 <==> pred.combos.awayOver15 * factor >= 0.30)
    ensures Main1x2(pred.probs).tag == Draw ==>
      (RiskyWith(pred, factor).value.tag == DrawAndUnder25 <==> pred.combos.drawUnder25 * factor >= 0.22)
    ensures RiskyWith(pred, factor).value.tag == Main1x2(pred.probs).tag ==>
      RiskyWith(pred, factor).value.prob == Main1x2(pred.probs).prob
    ensures RiskyWith(pred, factor).value.tag in {Home, Draw, Away, HomeAndOver15, AwayAndOver15, DrawAndUnder25}
  {
    Main1x2Meaning(pred.probs);
  }

  // ---------------------------------------------------------------- the day lists

  /** `[p for p in (rule(pred) for pred in preds) if p]`. */
  function Suggestions(preds: seq<MatchPrediction>, rule: MatchPrediction -> Option<Suggestion>): (r: seq<Suggestion>)
    ensures |r| <= |preds|
    ensures forall x :: x in r ==> exists pred :: pred in preds && rule(pred) == Some(x)
    ensures forall pred :: pred in preds && rule(pred).Some? ==> rule(pred).value in r
  {
    if preds == [] then []
    else
      var rest := Suggestions(preds[1..], rule);
      assert forall x :: x in rest ==> exists pred :: pred in preds && rule(pred) == Some(x) by {
        forall x | x in rest ensures exists pred :: pred in preds && rule(pred) == Some(x) {
          var pred :| pred in preds[1..] && rule(pred) == Some(x);
          assert pred in preds;
        }
      }
      assert forall pred :: pred in preds ==> pred == preds[0] || pred in preds[1..];
      match rule(preds[0])
      case Some(x) => [x] + rest
      case None => rest
  }

  /**
   * The filter keeps the day's order: the answers for earlier predictions
   * come before those for later ones, and a prediction without an answer
   * adds nothing.
   */
  lemma {:induction false} SuggestionsAppend(a: seq<MatchPrediction>, b: seq<MatchPrediction>,
                                             rule: MatchPrediction -> Option<Suggestion>)
    ensures Suggestions(a + b, rule) == Suggestions(a, rule) + Suggestions(b, rule)
    decreases |a|
  {
    if a == [] {
      assert a + b == b;
    } else {
      assert (a + b)[0] == a[0];
      assert (a + b)[1..] == a[1..] + b;
      SuggestionsAppend(a[1..], b, rule);
      var head := if rule(a[0]).Some? then [rule(a[0]).value] else [];
      assert Suggestions(a + b, rule) == head + Suggestions(a[1..] + b, rule);
      assert Suggestions(a, rule) == head + Suggestions(a[1..], rule);
    }
  }

  /** One prediction contributes its answer, or nothing when its rule has none. */
  lemma SuggestionsOne(pred: MatchPrediction, rule: MatchPrediction -> Option<Suggestion>)
    ensures Suggestions([pred], rule) == if rule(pred).Some? then [rule(pred).value] else []
  {
    assert [pred][1..] == [];
  }

  function SuggestionKey(s: Suggestion): Key { (s.prob, 0.0) }

  /** The key of `reverse=True`: Python's reverse sort is stable, like an ascending sort on the negated key. */
  function DescKey(s: Suggestion): Key { (-s.prob, 0.0) }

  function TakeLen(n: nat): nat { if n < 3 then n else 3 }

  /** `sorted(picks, key=prob, reverse=True)[:3]`. */
  function Best3(picks: seq<Suggestion>): seq<Suggestion>
  {
    SortBy(picks, DescKey)[..TakeLen(|picks|)]
  }

  /** `sorted(picks, key=prob)[:3]`. */
  function Lowest3(picks: seq<Suggestion>): seq<Suggestion>
  {
    SortBy(picks, SuggestionKey)[..TakeLen(|picks|)]
  }

  /**
   * The best three: min(3, n) of the picks, by probability descending,
   * and no pick left out is more likely than any pick kept.
   */
  lemma Best3Meaning(picks: seq<Suggestion>)
    ensures |Best3(picks)| == TakeLen(|picks|)
    ensures forall x :: x in Best3(picks) ==> x in picks
    ensures forall i, j :: 0 <= i < j < |Best3(picks)| ==> Best3(picks)[j].prob <= Best3(picks)[i].prob
    ensures forall y, k :: y in picks && y !in Best3(picks) && 0 <= k < |Best3(picks)| ==>
      y.prob <= Best3(picks)[k].prob
  {
    var t := SortBy(picks, DescKey);
    var b := Best3(picks);
    SortedPrefix(picks, t, DescKey, TakeLen(|picks|));
    assert b == t[..TakeLen(|picks|)];
    forall i, j | 0 <= i < j < |b| ensures b[j].prob <= b[i].prob {
      assert KeyLe(DescKey(t[i]), DescKey(t[j]));
    }
    forall y, k | y in picks && y !in b && 0 <= k < |b| ensures y.prob <= b[k].prob {
      assert KeyLe(DescKey(t[k]), DescKey(y));
    }
  }

  /**
   * The three least likely: min(3, n) of the picks, by probability
   * ascending, and no pick left out is less likely than any pick kept.
   */
  lemma Lowest3Meaning(picks: seq<Suggestion>)
    ensures |Lowest3(picks)| == TakeLen(|picks|)
    ensures forall x :: x in Lowest3(picks) ==> x in picks
    ensures forall i, j :: 0 <= i < j < |Lowest3(picks)| ==> Lowest3(picks)[i].prob <= Lowest3(picks)[j].prob
    ensures forall y, k :: y in picks && y !in Lowest3(picks) && 0 <= k < |Lowest3(picks)| ==>
      Lowest3(picks)[k].prob <= y.prob
  {
    var t := SortBy(picks, SuggestionKey);
    var b := Lowest3(picks);
    SortedPrefix(picks, t, SuggestionKey, TakeLen(|picks|));
    assert b == t[..TakeLen(|picks|)];
    forall i, j | 0 <= i < j < |b| ensures b[i].prob <= b[j].prob {
      assert KeyLe(SuggestionKey(t[i]), SuggestionKey(t[j]));
    }
    forall y, k | y in picks && y !in b && 0 <= k < |b| ensures b[k].prob <= y.prob {
      assert KeyLe(SuggestionKey(t[k]), SuggestionKey(y));
    }
  }

  /** The match ids `build_day_predictions` reports as excluded for low confidence. */
  function LowConfidenceIds(preds: seq<MatchPrediction>): (ids: seq<string>)
    ensures |ids| <= |preds|
    ensures forall id :: id in ids <==> exists pred :: pred in preds && LowConfidence(pred.info) && pred.matchId == id
  {
    if preds == [] then []
    else (if LowConfidence(preds[0].info) then [preds[0].matchId] else []) + LowConfidenceIds(preds[1..])
  }

  datatype DayPicks = DayPicks(safe: seq<Suggestion>, medium: seq<Suggestion>, risky: seq<Suggestion>,
                               lowConfidence: seq<string>)

  /** The pick lists of `build_day_predictions`. */
  function DayLists(preds: seq<MatchPrediction>): DayPicks
  {
    DayPicks(Best3(Suggestions(preds, SafePick)), Best3(Suggestions(preds, MediumPick)),
             Lowest3(Suggestions(preds, RiskyPick)), LowConfidenceIds(preds))
  }

  /**
   * `l` is a top list of the rule's answers for the day: each pick is the
   * answer for one of the predictions, the picks run from most to least
   * likely, and no answer left out is more likely than a pick kept.
   */
  predicate TopAnswers(l: seq<Suggestion>, preds: seq<MatchPrediction>, rule: MatchPrediction -> Option<Suggestion>)
  {
    (forall x :: x in l ==> exists pred :: pred in preds && rule(pred) == Some(x))
    && (forall i, j :: 0 <= i < j < |l| ==> l[j].prob <= l[i].prob)
    && (forall pred, k :: (pred in preds && rule(pred).Some? && rule(pred).value !in l && 0 <= k < |l|) ==>
          rule(pred).value.prob <= l[k].prob)
  }

  /** The mirror of `TopAnswers`: least likely first, and no answer left out less likely than a pick kept. */
  predicate LowAnswers(l: seq<Suggestion>, preds: seq<MatchPrediction>, rule: MatchPrediction -> Option<Suggestion>)
  {
    (forall x :: x in l ==> exists pred :: pred in preds && rule(pred) == Some(x))
    && (forall i, j :: 0 <= i < j < |l| ==> l[i].prob <= l[j].prob)
    && (forall pred, k :: (pred in preds && rule(pred).Some? && rule(pred).value !in l && 0 <= k < |l|) ==>
          l[k].prob <= rule(pred).value.prob)
  }

  /**
   * Each day list holds min(3, n) of the n answers its rule gives for the
   * day: the safe and medium lists are the most likely of the safe and
   * medium answers, the risky list the least likely of the risky answers,
   * and the risky list has min(3, n) picks for n predictions because the
   * risky rule always answers.
   */
  lemma DayListsMeaning(preds: seq<MatchPrediction>)
    ensures |DayLists(preds).safe| == TakeLen(|Suggestions(preds, SafePick)|)
    ensures |DayLists(preds).medium| == TakeLen(|Suggestions(preds, MediumPick)|)
    ensures |DayLists(preds).risky| == TakeLen(|preds|)
    ensures TopAnswers(DayLists(preds).safe, preds, SafePick)
    ensures TopAnswers(DayLists(preds).medium, preds, MediumPick)
    ensures LowAnswers(DayLists(preds).risky, preds, RiskyPick)
  {
    TopOfAnswers(preds, SafePick);
    TopOfAnswers(preds, MediumPick);
    LowOfAnswers(preds, RiskyPick);
    RiskyAlways(preds);
  }

  /** The best three of a rule's answers are min(3, n) of them and a top list. */
  lemma TopOfAnswers(preds: seq<MatchPrediction>, rule: MatchPrediction -> Option<Suggestion>)
    ensures |Best3(Suggestions(preds, rule))| == TakeLen(|Suggestions(preds, rule)|)
    ensures TopAnswers(Best3(Suggestions(preds, rule)), preds, rule)
  {
    Best3Meaning(Suggestions(preds, rule));
  }

  /** The three least likely of a rule's answers are min(3, n) of them and a bottom list. */
  lemma LowOfAnswers(preds: seq<MatchPrediction>, rule: MatchPrediction -> Option<Suggestion>)
    ensures |Lowest3(Suggestions(preds, rule))| == TakeLen(|Suggestions(preds, rule)|)
    ensures LowAnswers(Lowest3(Suggestions(preds, rule)), preds, rule)
  {
    Lowest3Meaning(Suggestions(preds, rule));
  }

  /** Every prediction contributes one risky suggestion. */
  lemma {:induction false} RiskyAlways(preds: seq<MatchPrediction>)
    ensures |Suggestions(preds, RiskyPick)| == |preds|
  {
    if preds != [] {
      RiskyMeaning(preds[0], ConfidenceFactor(preds[0].info));
      RiskyAlways(preds[1..]);
    }
  }
}
