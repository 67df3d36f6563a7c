/**
 * The context a match analysis is built on (app/services/context_service.py):
 * the schedule factors kept from the feature row, the relative form
 * deltas, the model-confidence heuristic, the availability and Elo
 * adjustments of the expected goals (the two lambdas), and the filtered,
 * ordered list of drivers shown beside the analysis.
 * A feature row is a map from names to numbers; a Python None is `None`.
 */
module Context {
  import opened Common
  import opened Sorting

  // ---------------------------------------------------------------------
  // Schedule factors and form deltas
  // ---------------------------------------------------------------------

  /** The feature names `_extract_schedule_factors` keeps. */
  const ScheduleKeys: seq<string> := [
    "rest_days_home", "rest_days_away",
    "matches_7d_home", "matches_7d_away",
    "matches_14d_home", "matches_14d_away",
    "schedule_factor_home", "schedule_factor_away"]

  /** Present under `k` with a value that is not None. */
  predicate Present(features: map<string, Option<real>>, k: string)
  {
    k in features && features[k].Some?
  }

  /** The schedule factors of a feature row: the listed names present with a value. */
  function ScheduleFactorsOf(features: map<string, Option<real>>): map<string, real>
  {
    map k | k in ScheduleKeys && Present(features, k) :: features[k].value
  }

  /** `_extract_schedule_factors`, with its loop over the listed names. */
  method ExtractScheduleFactors(features: map<string, Option<real>>) returns (out: map<string, real>)
    ensures out == ScheduleFactorsOf(features)
    ensures forall k :: k in out <==> k in ScheduleKeys && Present(features, k)
    ensures forall k :: k in out ==> Some(out[k]) == features[k]
  {
    out := map[];
    if |features| == 0 {
      return;
    }
    var i := 0;
    while i < |ScheduleKeys|
      invariant 0 <= i <= |ScheduleKeys|
      invariant out == map k | k in ScheduleKeys[..i] && Present(features, k) :: features[k].value
    {
      var k := ScheduleKeys[i];
      assert ScheduleKeys[..i + 1] == ScheduleKeys[..i] + [k];
      if k in features && features[k].Some? {
        out := out[k := features[k].value];
      }
      i := i + 1;
    }
    assert ScheduleKeys[..i] == ScheduleKeys;
  }

  /** `_pct_delta`: the relative change of `current` over `baseline`. */
  function PctDelta(current: Option<real>, baseline: Option<real>): Option<real>
  {
    if current.None? || baseline.None? || baseline.value == 0.0 then None
    else Some(current.value / baseline.value - 1.0)
  }

  /**
   * The delta is None exactly when an input is missing or the baseline is
   * 0; otherwise it undoes: `baseline * (1 + delta) == current`.
   */
  lemma PctDeltaMeaning(current: Option<real>, baseline: Option<real>)
    ensures PctDelta(current, baseline).None? <==>
      current.None? || baseline.None? || baseline.value == 0.0
    ensures PctDelta(current, baseline).Some? ==>
      baseline.value * (1.0 + PctDelta(current, baseline).value) == current.value
  {
    if PctDelta(current, baseline).Some? {
      var c := current.value;
      var b := baseline.value;
      assert b * (1.0 + (c / b - 1.0)) == b * (c / b);
    }
  }

  // ---------------------------------------------------------------------
  // Model confidence
  // ---------------------------------------------------------------------

  /** What the line-up adjustment reports to the confidence heuristic. */
  datatype LineupInfo = LineupInfo(coverageHome: Option<real>, coverageAway: Option<real>, hasSource: bool)

  /** The finishing deltas of the form information. */
  datatype FormInfo = FormInfo(finishingHome: Option<real>, finishingAway: Option<real>)

  /** The per-league coverage fractions of the data-quality report. */
  datatype DataQuality = DataQuality(featuresPct: Option<real>, tacticalPct: Option<real>, lineupsPct: Option<real>)

  /** The outcome of `_compute_model_confidence`, rounded to 3 decimals. */
  datatype Confidence = Confidence(
    score: real, lineupCoverage: real, formStability: real,
    finishingPenalty: real, lineupPenalty: real, stabilityPenalty: real,
    dataQualityScore: Option<real>, dataQualityPenalty: real, lineupSource: bool)

  /** The spread features whose mean drives the form stability. */
  const StdKeys: seq<string> := [
    "xg_for_form_std_home", "xg_against_form_std_home",
    "xg_for_form_std_away", "xg_against_form_std_away"]

  /** The values present among some names of a feature row, in order. */
  function PresentValues(features: map<string, Option<real>>, keys: seq<string>): (vs: seq<real>)
    ensures |vs| <= |keys|
  {
    if keys == [] then []
    else
      var k := keys[|keys| - 1];
      PresentValues(features, keys[..|keys| - 1]) + (if Present(features, k) then [features[k].value] else [])
  }

  /** The mean spread: the mean of the present spreads, 0.6 when none is present. */
  function AvgStdOf(features: map<string, Option<real>>): real
  {
    var vs := PresentValues(features, StdKeys);
    if vs == [] then 0.6 else Sum(vs) / |vs| as real
  }

  /** The loop that collects the spreads and averages them. */
  method AverageStd(features: map<string, Option<real>>) returns (avg: real)
    ensures avg == AvgStdOf(features)
  {
    var total := 0.0;
    var count := 0;
    ghost var vs: seq<real> := [];
    var i := 0;
    while i < |StdKeys|
      invariant 0 <= i <= |StdKeys|
      invariant vs == PresentValues(features, StdKeys[..i])
      invariant total == Sum(vs) && count == |vs|
    {
      var k := StdKeys[i];
      assert StdKeys[..i + 1][..i] == StdKeys[..i];
      if k in features && features[k].Some? {
        SumAppend(vs, features[k].value);
        total := total + features[k].value;
        count := count + 1;
        vs := vs + [features[k].value];
      }
      i := i + 1;
    }
    assert StdKeys[..i] == StdKeys;
    avg := if count == 0 then 0.6 else total / count as real;
  }

  /** The lineup coverage: the mean of both coverages clamped to [0, 1], 0 without both. */
  function LineupCoverage(lineup: Option<LineupInfo>): real
  {
    if lineup.Some? && lineup.value.coverageHome.Some? && lineup.value.coverageAway.Some? then
      Clamp((lineup.value.coverageHome.value + lineup.value.coverageAway.value) / 2.0, 0.0, 1.0)
    else 0.0
  }

  /** The league mean of team xG, 1.35 when missing or 0. */
  function LeagueAvg(features: map<string, Option<real>>): (r: real)
    ensures r != 0.0
  {
    var k := "league_avg_team_xg";
    if Present(features, k) && features[k].value != 0.0 then features[k].value else 1.35
  }

  /** Form stability: one minus the relative spread (at most 0.4), clamped to [0.55, 0.95]. */
  function Stability(avgStd: real, leagueAvg: real): real
    requires leagueAvg != 0.0
  {
    Clamp(1.0 - Min(0.4, avgStd / (leagueAvg * 1.2)), 0.55, 0.95)
  }

  /** 0.08 when either finishing delta reaches 0.6 in size (a None counts as 0). */
  function FinishingPenalty(form: Option<FormInfo>): real
  {
    if form.None? then 0.0
    else
      var h := Abs(GetValue(form.value.finishingHome));
      var a := Abs(GetValue(form.value.finishingAway));
      if Max(h, a) >= 0.6 then 0.08 else 0.0
  }

  /** `float(x or 0.0)`. */
  function GetValue(x: Option<real>): real
  {
    if x.Some? then x.value else 0.0
  }

  /** 0.12 without a line-up source, else 0.08 below 20% coverage, 0.05 below 35%, else 0. */
  function LineupPenalty(hasSource: bool, coverage: real): real
  {
    if !hasSource then 0.12
    else if coverage < 0.2 then 0.08
    else if coverage < 0.35 then 0.05
    else 0.0
  }

  /** 0.08 below 0.55 stability, 0.05 below 0.6, else 0. */
  function StabilityPenalty(stability: real): real
  {
    if stability < 0.55 then 0.08 else if stability < 0.6 then 0.05 else 0.0
  }

  /** The weighted data-quality score, when all three fractions are known. */
  function QualityScore(quality: Option<DataQuality>): Option<real>
  {
    if quality.Some? && quality.value.featuresPct.Some? && quality.value.tacticalPct.Some? &&
       quality.value.lineupsPct.Some?
    then Some(0.5 * quality.value.featuresPct.value + 0.2 * quality.value.tacticalPct.value +
              0.3 * quality.value.lineupsPct.value)
    else None
  }

  /** 0.08 below a 0.5 quality score, 0.04 below 0.7, else (or without a score) 0. */
  function QualityPenalty(q: Option<real>): real
  {
    if q.None? then 0.0 else if q.value < 0.5 then 0.08 else if q.value < 0.7 then 0.04 else 0.0
  }

  /** `_compute_model_confidence` on the mean spread the loop computes. */
  function ConfidenceOf(avgStd: real, features: map<string, Option<real>>, lineup: Option<LineupInfo>,
                        form: Option<FormInfo>, quality: Option<DataQuality>): Confidence
  {
    var coverage := LineupCoverage(lineup);
    var hasSource := lineup.Some? && lineup.value.hasSource;
    var stability := Stability(avgStd, LeagueAvg(features));
    var finPenalty := FinishingPenalty(form);
    var linePenalty := LineupPenalty(hasSource, coverage);
    var stabPenalty := StabilityPenalty(stability);
    var bonus := if hasSource && coverage >= 0.4 then 0.05 else 0.0;
    var q := QualityScore(quality);
    var qPenalty := QualityPenalty(q);
    var raw := 0.20 + 0.45 * coverage + 0.30 * stability + bonus -
      (finPenalty + linePenalty + stabPenalty + qPenalty);
    Confidence(
      Round(Clamp(raw, 0.15, 0.85), 1000), Round(coverage, 1000), Round(stability, 1000),
      Round(finPenalty, 1000), Round(linePenalty, 1000), Round(stabPenalty, 1000),
      if q.Some? then Some(Round(q.value, 1000)) else None,
      Round(qPenalty, 1000), hasSource)
  }

  /** `_compute_model_confidence`. */
  method ComputeModelConfidence(features: map<string, Option<real>>, lineup: Option<LineupInfo>,
                                form: Option<FormInfo>, quality: Option<DataQuality>) returns (c: Confidence)
    ensures c == ConfidenceOf(AvgStdOf(features), features, lineup, form, quality)
  {
    var avgStd := AverageStd(features);
    c := ConfidenceOf(avgStd, features, lineup, form, quality);
  }

  /** Rounding to 3 decimals keeps a value that already has 3 decimals. */
  lemma RoundExact(n: int)
    ensures Round(n as real / 1000.0, 1000) == n as real / 1000.0
  {
    var x := n as real / 1000.0;
    assert x * 1000.0 == n as real;
    assert (x * 1000.0 + 0.5).Floor == n;
  }

  /** The score before clamping and rounding. */
  function RawScore(avgStd: real, features: map<string, Option<real>>, lineup: Option<LineupInfo>,
                    form: Option<FormInfo>, quality: Option<DataQuality>): real
  {
    var coverage := LineupCoverage(lineup);
    var hasSource := lineup.Some? && lineup.value.hasSource;
    var stability := Stability(avgStd, LeagueAvg(features));
    0.20 + 0.45 * coverage + 0.30 * stability + (if hasSource && coverage >= 0.4 then 0.05 else 0.0) -
      (FinishingPenalty(form) + LineupPenalty(hasSource, coverage) + StabilityPenalty(stability) +
       QualityPenalty(QualityScore(quality)))
  }

  lemma ConfidenceFields(avgStd: real, features: map<string, Option<real>>, lineup: Option<LineupInfo>,
                         form: Option<FormInfo>, quality: Option<DataQuality>)
    ensures var c := ConfidenceOf(avgStd, features, lineup, form, quality);
      c.score == Round(Clamp(RawScore(avgStd, features, lineup, form, quality), 0.15, 0.85), 1000) &&
      c.lineupCoverage == Round(LineupCoverage(lineup), 1000) &&
      c.formStability == Round(Stability(avgStd, LeagueAvg(features)), 1000) &&
      c.lineupPenalty == Round(LineupPenalty(lineup.Some? && lineup.value.hasSource, LineupCoverage(lineup)), 1000) &&
      c.stabilityPenalty == Round(StabilityPenalty(Stability(avgStd, LeagueAvg(features))), 1000) &&
      c.lineupSource == (lineup.Some? && lineup.value.hasSource)
  {
  }

  /**
   * The bounds the heuristic promises: coverage in [0, 1], stability in
   * [0.55, 0.95] and score in [0.15, 0.85], after rounding.
   */
  lemma ConfidenceBounds(avgStd: real, features: map<string, Option<real>>, lineup: Option<LineupInfo>,
                         form: Option<FormInfo>, quality: Option<DataQuality>)
    ensures var c := ConfidenceOf(avgStd, features, lineup, form, quality);
      0.0 <= c.lineupCoverage <= 1.0 && 0.55 <= c.formStability <= 0.95 && 0.15 <= c.score <= 0.85
  {
    ConfidenceFields(avgStd, features, lineup, form, quality);
    RoundedWithin(LineupCoverage(lineup), 0.0, 1.0, 0, 1000);
    RoundedWithin(Stability(avgStd, LeagueAvg(features)), 0.55, 0.95, 550, 950);
    RoundedWithin(Clamp(RawScore(avgStd, features, lineup, form, quality), 0.15, 0.85), 0.15, 0.85, 150, 850);
  }

  /** Rounding to 3 decimals keeps a value within bounds that have 3 decimals. */
  lemma RoundedWithin(x: real, lo: real, hi: real, l: int, h: int)
    requires lo == l as real / 1000.0 && hi == h as real / 1000.0 && lo <= x <= hi
    ensures lo <= Round(x, 1000) <= hi
  {
    RoundWithin(x, l, h, 1000);
  }

  /**
   * Without a line-up source the line-up penalty is 0.12; and the stability
   * penalty never reaches its 0.08 tier, because the stability is clamped
   * to 0.55 before it is compared with 0.55.
   */
  lemma ConfidencePenalties(avgStd: real, features: map<string, Option<real>>, lineup: Option<LineupInfo>,
                            form: Option<FormInfo>, quality: Option<DataQuality>)
    ensures var c := ConfidenceOf(avgStd, features, lineup, form, quality);
      !(lineup.Some? && lineup.value.hasSource) ==> c.lineupPenalty == 0.12 && !c.lineupSource
    ensures ConfidenceOf(avgStd, features, lineup, form, quality).stabilityPenalty in {0.0, 0.05}
  {
    ConfidenceFields(avgStd, features, lineup, form, quality);
    RoundExact(120);
    RoundExact(50);
    RoundExact(0);
  }

  // ---------------------------------------------------------------------
  // Lambda adjustments
  // ---------------------------------------------------------------------

  /** `float(features.get(k, 0.0))`. */
  function Lambda(features: map<string, real>, k: string): real
  {
    GetOr(features, k, 0.0)
  }

  /** The copy of the feature row with both lambdas replaced. */
  function WithLambdas(features: map<string, real>, home: real, away: real): map<string, real>
  {
    features["lambda_home" := home]["lambda_away" := away]
  }

  /** The replaced lambdas are read back, and every other key keeps its value. */
  lemma WithLambdasAt(features: map<string, real>, home: real, away: real)
    ensures WithLambdas(features, home, away)["lambda_home"] == home
    ensures WithLambdas(features, home, away)["lambda_away"] == away
  {
    assert "lambda_home"[7] != "lambda_away"[7];
  }

  /** Every adjusted lambda is clamped to [0.2, 3.5]. */
  function ClampLambda(x: real): real
  {
    Clamp(x, 0.2, 3.5)
  }

  /** The availability penalties (news of injuries and suspensions). */
  datatype Penalties = Penalties(homeAttack: real, awayAttack: real, homeDefense: real, awayDefense: real)

  /** What `_apply_adjustment` reports. */
  datatype AvailabilityInfo = AvailabilityInfo(
    lambdaHomeRaw: real, lambdaAwayRaw: real, lambdaHomeAdj: real, lambdaAwayAdj: real,
    homeAttackPenalty: real, awayAttackPenalty: real)

  /**
   * `_apply_adjustment`: each lambda is scaled down by its side's attack
   * penalty and up by the opponent's defence penalty; a non-positive
   * lambda leaves the row unchanged without information.
   */
  function ApplyAdjustment(features: map<string, real>, adj: Penalties): (map<string, real>, Option<AvailabilityInfo>)
  {
    var lamH := Lambda(features, "lambda_home");
    var lamA := Lambda(features, "lambda_away");
    if lamH <= 0.0 || lamA <= 0.0 then (features, None)
    else
      var h := ClampLambda(lamH * (1.0 - adj.homeAttack) * (1.0 + adj.awayDefense));
      var a := ClampLambda(lamA * (1.0 - adj.awayAttack) * (1.0 + adj.homeDefense));
      (WithLambdas(features, h, a), Some(AvailabilityInfo(lamH, lamA, h, a, adj.homeAttack, adj.awayAttack)))
  }

  /**
   * A non-positive lambda leaves the row as it is; otherwise both new
   * lambdas lie in [0.2, 3.5], nothing else in the row changes, and
   * without penalties each lambda is only clamped.
   */
  lemma ApplyAdjustmentMeaning(features: map<string, real>, adj: Penalties)
    ensures var lamH := Lambda(features, "lambda_home");
      var lamA := Lambda(features, "lambda_away");
      (lamH <= 0.0 || lamA <= 0.0) <==> ApplyAdjustment(features, adj) == (features, None)
    ensures var (out, info) := ApplyAdjustment(features, adj);
      info.Some? ==>
        0.2 <= out["lambda_home"] <= 3.5 && 0.2 <= out["lambda_away"] <= 3.5 &&
        info.value.lambdaHomeAdj == out["lambda_home"] && info.value.lambdaAwayAdj == out["lambda_away"] &&
        info.value.lambdaHomeRaw == Lambda(features, "lambda_home") &&
        info.value.lambdaAwayRaw == Lambda(features, "lambda_away") &&
        (forall k :: k in out && k != "lambda_home" && k != "lambda_away" ==> k in features && out[k] == features[k]) &&
        (forall k :: k in features ==> k in out)
    ensures adj == Penalties(0.0, 0.0, 0.0, 0.0) && ApplyAdjustment(features, adj).1.Some? ==>
      ApplyAdjustment(features, adj).0["lambda_home"] == ClampLambda(Lambda(features, "lambda_home")) &&
      ApplyAdjustment(features, adj).0["lambda_away"] == ClampLambda(Lambda(features, "lambda_away"))
  {
  }

  /** What `_apply_elo_adjustment` reports. */
  datatype EloInfo = EloInfo(
    eloHome: real, eloAway: real, eloDiff: real, eloScale: real,
    lambdaHomeRaw: real, lambdaAwayRaw: real, lambdaHomeElo: real, lambdaAwayElo: real)

  /** The Elo scale: the rating gap over 800, clamped to [-0.10, 0.10]. */
  function EloScale(diff: real): real
  {
    Clamp(diff / 800.0, -0.10, 0.10)
  }

  /**
   * `_apply_elo_adjustment`: the home lambda grows and the away lambda
   * shrinks by the Elo scale; a missing rating or a non-positive lambda
   * leaves the row unchanged without information.
   */
  function ApplyEloAdjustment(features: map<string, real>): (map<string, real>, Option<EloInfo>)
  {
    if "elo_home" !in features || "elo_away" !in features then (features, None)
    else
      var lamH := Lambda(features, "lambda_home");
      var lamA := Lambda(features, "lambda_away");
      if lamH <= 0.0 || lamA <= 0.0 then (features, None)
      else
        EloApplied(features, features["elo_home"], features["elo_away"], lamH, lamA)
  }

  /** The row and the information once both ratings and positive lambdas are known. */
  function EloApplied(features: map<string, real>, eloHome: real, eloAway: real, lamH: real, lamA: real)
    : (map<string, real>, Option<EloInfo>)
  {
    var diff := eloHome - eloAway;
    var scale := EloScale(diff);
    var h := ClampLambda(lamH * (1.0 + scale));
    var a := ClampLambda(lamA * (1.0 - scale));
    (WithLambdas(features, h, a), Some(EloInfo(eloHome, eloAway, diff, scale, lamH, lamA, h, a)))
  }

  /** The bounds and the direction of the Elo step on positive lambdas. */
  lemma EloAppliedMeaning(features: map<string, real>, eloHome: real, eloAway: real, lamH: real, lamA: real)
    requires lamH > 0.0 && lamA > 0.0
    ensures var info := EloApplied(features, eloHome, eloAway, lamH, lamA).1;
      info.Some? && info.value.eloDiff == eloHome - eloAway &&
      info.value.lambdaHomeRaw == lamH && info.value.lambdaAwayRaw == lamA &&
      -0.10 <= info.value.eloScale <= 0.10
    ensures var out := EloApplied(features, eloHome, eloAway, lamH, lamA).0;
      0.2 <= out["lambda_home"] <= 3.5 && 0.2 <= out["lambda_away"] <= 3.5 &&
      (eloHome - eloAway >= 0.0 ==>
        out["lambda_home"] >= ClampLambda(lamH) && out["lambda_away"] <= ClampLambda(lamA))
  {
    var scale := EloScale(eloHome - eloAway);
    var h := ClampLambda(lamH * (1.0 + scale));
    var a := ClampLambda(lamA * (1.0 - scale));
    var r := EloApplied(features, eloHome, eloAway, lamH, lamA);
    assert r.0 == WithLambdas(features, h, a);
    WithLambdasAt(features, h, a);
    if eloHome - eloAway >= 0.0 {
      EloSides(lamH, lamA, scale);
    }
  }

  /** A non-negative scale raises the home lambda and lowers the away one, after clamping. */
  lemma EloSides(lamH: real, lamA: real, scale: real)
    requires lamH > 0.0 && lamA > 0.0 && scale >= 0.0
    ensures ClampLambda(lamH * (1.0 + scale)) >= ClampLambda(lamH)
    ensures ClampLambda(lamA * (1.0 - scale)) <= ClampLambda(lamA)
  {
    ScaleMono(lamH, scale);
    ScaleMono(lamA, scale);
  }

  lemma ScaleMono(lam: real, scale: real)
    requires lam > 0.0 && scale >= 0.0
    ensures ClampLambda(lam * (1.0 + scale)) >= ClampLambda(lam)
    ensures ClampLambda(lam * (1.0 - scale)) <= ClampLambda(lam)
  {
    assert lam * (1.0 + scale) == lam + lam * scale;
    assert lam * (1.0 - scale) == lam - lam * scale;
  }

  /**
   * A missing rating leaves the row unchanged; otherwise the scale lies in
   * [-0.10, 0.10], both lambdas in [0.2, 3.5], and the better-rated home
   * side never loses expected goals while its opponent never gains any.
   */
  lemma EloAdjustmentMeaning(features: map<string, real>)
    ensures "elo_home" !in features || "elo_away" !in features ==> ApplyEloAdjustment(features) == (features, None)
    ensures var (out, info) := ApplyEloAdjustment(features);
      info.Some? ==>
        -0.10 <= info.value.eloScale <= 0.10 &&
        0.2 <= out["lambda_home"] <= 3.5 && 0.2 <= out["lambda_away"] <= 3.5 &&
        (info.value.eloDiff >= 0.0 ==>
          out["lambda_home"] >= ClampLambda(info.value.lambdaHomeRaw) &&
          out["lambda_away"] <= ClampLambda(info.value.lambdaAwayRaw))
    ensures ApplyEloAdjustment(features).1.None? <==>
      "elo_home" !in features || "elo_away" !in features ||
      Lambda(features, "lambda_home") <= 0.0 || Lambda(features, "lambda_away") <= 0.0
  {
    if "elo_home" in features && "elo_away" in features {
      var lamH := Lambda(features, "lambda_home");
      var lamA := Lambda(features, "lambda_away");
      if lamH > 0.0 && lamA > 0.0 {
        EloAppliedMeaning(features, features["elo_home"], features["elo_away"], lamH, lamA);
      }
    }
  }

  // ---------------------------------------------------------------------
  // Drivers
  // ---------------------------------------------------------------------

  /** A driver offered to `add_driver`: either delta may be None. */
  datatype DriverCandidate = DriverCandidate(
    key: string, title: string, deltaHome: Option<real>, deltaAway: Option<real>, note: string)

  /** A driver as listed, deltas and relative deltas rounded to 3 decimals. */
  datatype Driver = Driver(
    key: string, title: string, homeDelta: real, awayDelta: real,
    homeDeltaPct: real, awayDeltaPct: real, note: string)

  /** `_delta_pct(delta, base) or 0.0`. */
  function DeltaPct(delta: real, base: real): real
  {
    if base == 0.0 then 0.0 else delta / base
  }

  /** Dropped: both deltas None, or both below 0.02 in size (a None counts as 0). */
  predicate Dropped(c: DriverCandidate)
  {
    (c.deltaHome.None? && c.deltaAway.None?) ||
    (Abs(GetValue(c.deltaHome)) < 0.02 && Abs(GetValue(c.deltaAway)) < 0.02)
  }

  /** `add_driver`: the driver it appends, if any. */
  function DriverOf(c: DriverCandidate, lamH: real, lamA: real): (r: Option<Driver>)
    ensures r.None? <==> Dropped(c)
    ensures r.Some? ==> r.value.key == c.key && r.value.title == c.title && r.value.note == c.note
  {
    if Dropped(c) then None
    else
      var h := GetValue(c.deltaHome);
      var a := GetValue(c.deltaAway);
      Some(Driver(c.key, c.title, Round(h, 1000), Round(a, 1000),
                  Round(DeltaPct(h, lamH), 1000), Round(DeltaPct(a, lamA), 1000), c.note))
  }

  /** The drivers appended, in the order they were offered. */
  function Kept(cands: seq<DriverCandidate>, lamH: real, lamA: real): seq<Driver>
  {
    if cands == [] then []
    else
      var d := DriverOf(cands[|cands| - 1], lamH, lamA);
      Kept(cands[..|cands| - 1], lamH, lamA) + (if d.Some? then [d.value] else [])
  }

  /** A driver's sort key: the larger of its two rounded deltas in size. */
  function Magnitude(d: Driver): real
  {
    Max(Abs(d.homeDelta), Abs(d.awayDelta))
  }

  function MagnitudeKey(d: Driver): Key
  {
    (Magnitude(d), 0.0)
  }

  /** The driver list: the kept drivers by decreasing magnitude. */
  function DriversOf(cands: seq<DriverCandidate>, lamH: real, lamA: real): seq<Driver>
  {
    SortByDesc(Kept(cands, lamH, lamA), MagnitudeKey)
  }

  /** The appends of `_build_driver_insights` followed by its in-place sort. */
  method BuildDrivers(cands: seq<DriverCandidate>, lamH: real, lamA: real) returns (drivers: seq<Driver>)
    ensures drivers == DriversOf(cands, lamH, lamA)
  {
    drivers := [];
    var i := 0;
    while i < |cands|
      invariant 0 <= i <= |cands|
      invariant drivers == Kept(cands[..i], lamH, lamA)
    {
      assert cands[..i + 1][..i] == cands[..i];
      var d := DriverOf(cands[i], lamH, lamA);
      if d.Some? {
        drivers := drivers + [d.value];
      }
      i := i + 1;
    }
    assert cands[..i] == cands;
    drivers := SortByDesc(drivers, MagnitudeKey);
  }

  /** A driver is kept exactly when some offered candidate is not dropped and yields it. */
  lemma {:induction false} KeptMeaning(cands: seq<DriverCandidate>, lamH: real, lamA: real, d: Driver)
    ensures d in Kept(cands, lamH, lamA) <==>
      exists i :: 0 <= i < |cands| && !Dropped(cands[i]) && DriverOf(cands[i], lamH, lamA) == Some(d)
    decreases |cands|
  {
    if cands != [] {
      var pre := cands[..|cands| - 1];
      KeptMeaning(pre, lamH, lamA, d);
      if exists i :: 0 <= i < |pre| && !Dropped(pre[i]) && DriverOf(pre[i], lamH, lamA) == Some(d) {
        var i :| 0 <= i < |pre| && !Dropped(pre[i]) && DriverOf(pre[i], lamH, lamA) == Some(d);
        assert cands[i] == pre[i];
      }
      if exists i :: 0 <= i < |cands| && !Dropped(cands[i]) && DriverOf(cands[i], lamH, lamA) == Some(d) {
        var i :| 0 <= i < |cands| && !Dropped(cands[i]) && DriverOf(cands[i], lamH, lamA) == Some(d);
        if i < |pre| {
          assert pre[i] == cands[i];
        }
      }
    }
  }

  /**
   * The driver list holds exactly the drivers of the candidates that are
   * not dropped, each as often as it was appended, by decreasing magnitude.
   */
  lemma DriversMeaning(cands: seq<DriverCandidate>, lamH: real, lamA: real)
    ensures multiset(DriversOf(cands, lamH, lamA)) == multiset(Kept(cands, lamH, lamA))
    ensures forall d :: d in DriversOf(cands, lamH, lamA) <==>
      exists i :: 0 <= i < |cands| && !Dropped(cands[i]) && DriverOf(cands[i], lamH, lamA) == Some(d)
    ensures var r := DriversOf(cands, lamH, lamA);
      forall i, j :: 0 <= i < j < |r| ==> Magnitude(r[j]) <= Magnitude(r[i])
  {
    var r := DriversOf(cands, lamH, lamA);
    forall d
      ensures d in r <==>
        exists i :: 0 <= i < |cands| && !Dropped(cands[i]) && DriverOf(cands[i], lamH, lamA) == Some(d)
    {
      KeptMeaning(cands, lamH, lamA, d);
      assert d in r <==> d in multiset(r);
      assert d in Kept(cands, lamH, lamA) <==> d in multiset(Kept(cands, lamH, lamA));
    }
    forall i, j | 0 <= i < j < |r| ensures Magnitude(r[j]) <= Magnitude(r[i]) {
      assert KeyLe(MagnitudeKey(r[j]), MagnitudeKey(r[i]));
    }
  }
}
