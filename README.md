# A verified model of the betting-analysis decision core

This project models, in Dafny, the pure decision logic of a football
betting-analysis backend. It turns model probabilities, bookmaker odds,
line-ups and tactical statistics into verdicts, picks, tickets and reports,
and the model proves what that logic promises. Each part of the backend is
one Dafny module:

- **MarketEval** (app/services/market_eval_service.py): the
  (market, selection) key table, stale-quote filtering, consensus and
  overround, the reason codes that block a quote, the fractional-Kelly stake
  with its caps, and the greedy choice of at most `max_picks`
  recommendations, one per market family.
- **Slate** (app/services/slate_service.py): market families and selection
  buckets, the pick filter, the pick a match contributes (safe, medium or
  risky), and the two-pass builder of a multiple with per-family caps.
- **Prediction** (app/services/prediction_service.py): the main 1X2
  outcome, the double chance, totals and BTTS leanings, the confidence
  helpers, the safe, medium and risky picks, and the top-three day lists.
- **Calibration** (app/core/calibration.py): choosing a calibration table
  by league, season and season phase, mapping a probability through its
  bins, and renormalising the 1X2 triple and the two binary pairs.
- **KpiService** (app/services/kpi_service.py): the cached KPI report and
  the OK / WARN / BLOCK status of a league, season and phase.
- **Tactical** (app/services/tactical_service.py): the style matchup, the
  tempo hint and the tags drawn from statistics or from proxies.
- **LineupRefresh** and **LineupFeed** (app/services/lineup_refresh_service.py):
  name normalisation, alias variants, team keys, de-duplication, the
  absence blobs, the `¬`/`÷` feed parsers, season labels, exact match
  lookup, and the refresh throttle (a class whose map of last refresh times
  is updated in place).
- **LineupService** (app/services/lineup_service.py): the minutes factor,
  the projected share a line-up covers, and the coverage and absence
  penalties.
- **Context** (app/services/context_service.py): the schedule factors, the
  relative deltas, the model-confidence heuristic, the availability and Elo
  adjustments of the expected goals, and the ordered list of drivers.
- **TuneRules** (scripts/tune_schedine_rules.py): the threshold grids, pick
  settlement, the card chosen under a set of thresholds, card scoring and
  the choice of the best rule.
- **UiAdapter** (app/services/ui_adapter_service.py): the display labels,
  the Kelly fraction, the tool status, the drivers shown, and the tickets.
- **RoutesUiApi** (app/api/v1/routes_ui_api.py): the token gate,
  competition and market aliases, risk rating, confidence intervals, the
  odds-risk scan and the audit-history pagination.
- **BuildFeatures** (scripts/build_features_understat_v5.py): shrinkage to
  the league average, the clamps, rest days and recent-match counts, the
  schedule factor and the form weight.
- **KpiReport** (scripts/kpi_report.py): Brier scores, exact-case
  settlement, the best pick per market and the ROI per market.
- **BackfillOdds** (scripts/backfill_odds_football_data.py): competition
  spellings, season codes, the odds column of a CSV row and the column
  selection of the quote insert.

Four shared modules hold what several parts use:

- **Common**: Option, clamping, rounding, sums and products.
- **Text**: ASCII case mapping, strip, split, words, integer printing and
  decimal parsing.
- **Sorting**: a stable sort by key and the first argmin and argmax.
- **Calendar**: the season phase of a month and the `YYYY/YY` season
  label. `_season_phase` (app/core/calibration.py:68-78) and
  `_phase_for_date` (scripts/kpi_report.py:48-55) are the same month
  mapping, `Calendar.PhaseOfMonth`. `_season_label` in
  scripts/kpi_report.py:22-23, scripts/tune_schedine_rules.py:22-23 and
  scripts/build_features_understat_v5.py:47-48 is `Calendar.SeasonLabel`.

Conventions:

- Probabilities, odds and other floats are Dafny reals.
- Instants are real numbers of hours or days, and the current time is a
  parameter.
- A Python `None` is `None` of `Common.Option`.
- A dictionary is a `map`, a list a `seq`.
- `clean_person_name` and `normalize_person_name` are function parameters
  (`clean`, `normalize`).
- `round(x, n)` is rounding half up at scale 10^n (`Common.Round`).
- Loops in the source are methods with `while` loops, each proved equal to
  a specification function. The lemmas then state the properties of that
  function.

Facts about the code as written that the proofs bring out:

- `Context.ConfidencePenalties`: the 0.08 tier of the stability penalty
  can never apply. The stability is clamped to at least 0.55 before it is
  compared with 0.55.
- `BuildFeatures.ScheduleFactorMeaning`: the final clamp of the schedule
  factor to [0.85, 1.08] never changes it.
- `UiAdapter.TicketMeaning`: every ticket leg is priced at the inverse of
  its own probability. So a non-empty ticket's expected value, and
  therefore its suggested stake, is exactly 0 in real arithmetic.
- `KpiReport.MarketOutcomeMeaning`: the report settles picks by exact
  names, while the tuning script folds case.
- `UiAdapter.MarketKeyExactMeaning`: the adapter looks keys up by exact
  names, while the market evaluation folds case. The two agree on
  upper-case names.

## Model

| member | source | states |
|---|---|---|
| MarketEval.IntervalKey | app/services/market_eval_service.py:9-19 | a key exists exactly for the seven known (market, selection) pairs after upper-casing both, and it is that pair's entry of the key table |
| MarketEval.IntervalKeyInjective | app/services/market_eval_service.py:9-19 | two quotes get the same simulation key only when they name the same market and selection up to case |
| MarketEval.FairProb | app/services/market_eval_service.py:21-23 | a model probability exists exactly when the quote is mapped and its key is simulated, and it is the simulated value |
| MarketEval.Kelly | app/services/market_eval_service.py:25-30 | the Kelly fraction is never negative; it is positive exactly when odds > 1 and the edge is positive, and then fraction × (odds − 1) equals the edge |
| MarketEval.StakeCapByOdds | app/services/market_eval_service.py:46-52 | the cap is 1%, 2% or 3%; it is 1% exactly below 1.60 and 3% exactly from 2.50 up |
| MarketEval.StakeCapMonotone | app/services/market_eval_service.py:46-52 | a longer price never gets a smaller cap |
| MarketEval.CiBase | app/services/market_eval_service.py:67-69 | the starting score from the interval width lies in [0.1, 0.9] |
| MarketEval.ConfidenceBaseBounds | app/services/market_eval_service.py:67-87 | the unrounded score lies in [0.1, 0.95]; without an upward adjustment, divergence, a long shot or a low edge cap it at 0.2, 0.25 or 0.3 |
| MarketEval.RoundCap | app/services/market_eval_service.py:89 | a cap on the two-decimal grid survives rounding to two places |
| MarketEval.ConfidenceScore | app/services/market_eval_service.py:54-89 | the rounded score always lies in [0.1, 0.95], and the three caps of the unrounded score still hold |
| MarketEval.Fresh | app/services/market_eval_service.py:103-124 | the freshness gate never adds quotes |
| MarketEval.FreshMembers | app/services/market_eval_service.py:103-124 | a quote is kept exactly when it is not older than the allowed age; a quote with no timestamp or an unparsable one is kept |
| MarketEval.FilterFresh | app/services/market_eval_service.py:103-126 | the loop keeps exactly the quotes of the freshness gate, in order, and the kept and the stale quotes together are all of them |
| MarketEval.OddsForMember | app/services/market_eval_service.py:168-174 | a price is listed for a selection of a market exactly when some quote of it offers that price above 1 |
| MarketEval.OddsForAboveOne | app/services/market_eval_service.py:171-174 | every listed price exceeds 1 |
| MarketEval.MaxOf | app/services/market_eval_service.py:179 | the best price is one of the listed prices and no listed price exceeds it |
| MarketEval.MedianBetween | app/services/market_eval_service.py:177 | the median lies above any strict lower bound and at or below any upper bound of the list |
| MarketEval.PricedKeysMeaning | app/services/market_eval_service.py:176-179 | a (market, selection) pair is a dictionary key exactly when it has a usable price |
| MarketEval.MediansAboveOne | app/services/market_eval_service.py:177-179 | every consensus price exceeds 1 and never exceeds the best price |
| MarketEval.ConsensusMap | app/services/market_eval_service.py:176-177 | every consensus entry belongs to a priced pair and exceeds 1 |
| MarketEval.ConsensusDomain | app/services/market_eval_service.py:176-177 | the consensus covers exactly the priced pairs |
| MarketEval.SelectionsMembers | app/services/market_eval_service.py:169-176 | the selections of a market are listed once each, and they are exactly those with a usable price |
| MarketEval.InverseSumPositive | app/services/market_eval_service.py:181 | over selections that all have a consensus, the inverse prices add up to a positive total |
| MarketEval.NormalisedSum | app/services/market_eval_service.py:183-185 | dividing every inverse price by the same total divides their sum by that total |
| MarketEval.ConsensusMeaning | app/services/market_eval_service.py:176-179 | a pair has a consensus exactly when it has a usable price; the consensus then exceeds 1, never beats the best price, and at least one bookmaker is counted |
| MarketEval.OverroundMeaning | app/services/market_eval_service.py:158-183 | every quoted market gets an overround, and a market with a usable price has a positive one |
| MarketEval.SelectionsOfMarketCovered | app/services/market_eval_service.py:181 | every listed selection of a market has a consensus, so the sum never meets a missing key |
| MarketEval.ImpliedAt | app/services/market_eval_service.py:183-185 | a priced selection's implied probability is its inverse consensus price over its market's total |
| MarketEval.ImpliedSumsToOne | app/services/market_eval_service.py:181-185 | the implied probabilities of a market with a usable price add up to one |
| MarketEval.DivSelf | app/services/market_eval_service.py:185 | a positive total divided by itself is one |
| MarketEval.NotBestLineMeaning | app/services/market_eval_service.py:255-257 | the best-line test on the best price fires exactly when a strictly better price (beyond the 1e-6 tolerance) is offered for the same selection |
| MarketEval.RaisedIn | app/services/market_eval_service.py:225-267 | a reason is listed exactly when it belongs to the order and its check raised it |
| MarketEval.Reasons | app/services/market_eval_service.py:225-267 | a mapped quote carries exactly the reasons its checks raise |
| MarketEval.ChecksOf | app/services/market_eval_service.py:225-267 | each check holds exactly under its source condition: divergence beyond the gap, a hard block on OU_2.5 and BTTS, a wide interval, a low edge, a weak long shot, a better line, a price above the cap, too few books, a non-positive Kelly fraction |
| MarketEval.AssessWith | app/services/market_eval_service.py:187-279 | an unmapped quote carries only NO_MAPPING_FOR_MARKET; a mapped one carries exactly the raised reasons, is uncertain exactly on divergence or a wide interval, has the edge p × odds − 1, the market statistics and a confidence in [0.1, 0.95] |
| MarketEval.Stake | app/services/market_eval_service.py:292-293 | the stake never exceeds the configured cap nor the cap of its price band |
| MarketEval.OutcomeMeaning | app/services/market_eval_service.py:281-311 | an item becomes a candidate exactly when it passes every gate and its stake is at least 0.25%; an eligible item with a smaller stake gets STAKE_TOO_SMALL and nothing else changes |
| MarketEval.OutcomeGood | app/services/market_eval_service.py:281-311 | every candidate has a stake between 0.25% and both caps, a positive edge at least min_edge, odds above 1 and within max_odds, and a confidence in [0.1, 0.95]; it is filed under the upper-cased market |
| MarketEval.Items | app/services/market_eval_service.py:187-279 | one item per kept quote |
| MarketEval.CandidateOrigin | app/services/market_eval_service.py:281-311 | every candidate comes from some quote and passes all the gates |
| MarketEval.EvaluatedStep | app/services/market_eval_service.py:187-311 | evaluating one more quote appends its item, and its candidate when it yields one |
| MarketEval.EvaluateQuotes | app/services/market_eval_service.py:187-311 | the per-quote loop builds exactly the items and the candidates of the specification |
| MarketEval.ChooseMembers | app/services/market_eval_service.py:337-346 | every pick is a candidate |
| MarketEval.ChooseOrdered | app/services/market_eval_service.py:335-346 | the picks keep the decreasing order of expected value |
| MarketEval.ChooseBound | app/services/market_eval_service.py:344-346 | at most max(max_picks, 1) picks, since the limit is compared only after the append |
| MarketEval.ChooseFamilies | app/services/market_eval_service.py:338-344 | no two picks share a market family, and none belongs to a family already used |
| MarketEval.ChooseCovers | app/services/market_eval_service.py:339-346 | short of the limit, every candidate's family is among the picks' families |
| MarketEval.ChooseByFamily | app/services/market_eval_service.py:337-346 | the selection loop computes the greedy choice of the specification |
| MarketEval.ByEdge | app/services/market_eval_service.py:335 | sorting by expected value keeps exactly the candidates and orders them by decreasing edge |
| MarketEval.Recommend | app/services/market_eval_service.py:328-346 | the recommendations are candidates in decreasing expected value, at most max(max_picks, 1) of them, with distinct families; some exist whenever a candidate does, and short of the limit every candidate's family is covered |
| MarketEval.EvaluateMarkets | app/services/market_eval_service.py:91-370 | no kept quote gives no items, no recommendations and MISSING_OR_STALE_ODDS; otherwise the items of the specification are returned; there is a no-bet verdict exactly when nothing is recommended, and it is NO_EDGE_OR_HIGH_UNCERTAINTY when some quote was mapped, else NO_MAPPED_MARKETS; every recommendation passes all the gates, at most max(max_picks, 1) are made, with distinct families and in decreasing edge |
| MarketEval.DefaultRules | app/services/market_eval_service.py:143-152 | the rule values used when the caller leaves a rule out: minimum edge 0.03, three picks, interval width 0.06, Kelly fraction 0.25, stake cap 0.02, model-market gap 0.12, long-shot edge 0.08 from odds 5.0, no odds cap, one bookmaker |
| MarketEval.Edge | app/services/market_eval_service.py:209-210 | the expected profit of one unit staked at the given odds with the model's win probability; it is also the expected value the candidates are sorted by |
| MarketEval.IsStale | app/services/market_eval_service.py:106-122 | a quote is dropped when its usable timestamp is more than the allowed number of hours old; a quote with no timestamp or an unreadable one is kept |
| MarketEval.OddsFor | app/services/market_eval_service.py:168-174 | the prices of one upper-cased selection in one market, in quote order, keeping only prices above 1.0 |
| MarketEval.Median | app/services/market_eval_service.py:177 | `statistics.median`: the middle value of the sorted prices, or the mean of the two middle values when their number is even |
| MarketEval.PricedKeys | app/services/market_eval_service.py:176-179 | the (market, selection) pairs that have at least one usable price; these are the keys of the consensus map |
| MarketEval.MarketsOf | app/services/market_eval_service.py:158-160 | the upper-cased markets of the kept quotes, which are the keys of `by_market` |
| MarketEval.Selections | app/services/market_eval_service.py:168-176 | the upper-cased selections of one market that have a usable price |
| MarketEval.InverseSum | app/services/market_eval_service.py:181 | the sum of one over the consensus price of each given selection of a market |
| MarketEval.MarketTotal | app/services/market_eval_service.py:181-182 | the overround of a market: the inverse consensus prices of all its priced selections, summed |
| MarketEval.ImpliedMap | app/services/market_eval_service.py:183-185 | the implied probability of each priced selection: its inverse consensus price over its market's total; its values sum to one per market (ImpliedSumsToOne) |
| MarketEval.OverroundMap | app/services/market_eval_service.py:181-182 | the overround of every quoted market |
| MarketEval.BooksMap | app/services/market_eval_service.py:178 | the number of usable prices of each priced selection |
| MarketEval.BestMap | app/services/market_eval_service.py:179 | the largest usable price of each priced selection |
| MarketEval.StatsOf | app/services/market_eval_service.py:158-185 | the five market maps built from the kept quotes (consensus, implied, overround, book counts, best odds) |
| MarketEval.BetterPriceExists | app/services/market_eval_service.py:255-257 | the line is not the best one: some price for the same selection beats it by more than the 1e-6 tolerance |
| MarketEval.CiWidth | app/services/market_eval_service.py:236-246 | the width of the simulation's interval for a key, present only when both ends are present |
| MarketEval.Assess | app/services/market_eval_service.py:187-279 | the item built for one quote before the stake gate: fair probability, edge, implied probability, consensus, reasons and confidence |
| MarketEval.Eligible | app/services/market_eval_service.py:281-291 | the candidate gate: a mapped item with none of the eight blocking reasons and no uncertainty flag |
| MarketEval.Outcome | app/services/market_eval_service.py:281-311 | the final item of a quote and the candidate it yields, if any; a stake under 0.25% adds STAKE_TOO_SMALL and yields none (OutcomeMeaning) |
| MarketEval.Candidates | app/services/market_eval_service.py:187-311 | the candidate list built from the quotes, in quote order; every candidate comes from an eligible item of its own quote (CandidateOrigin) |
| MarketEval.Family | app/services/market_eval_service.py:328-333 | the family of a market: RESULT for 1X2, TOTALS for any OU_ market, BTTS for BTTS, else the market itself |
| MarketEval.Choose | app/services/market_eval_service.py:335-346 | the greedy pass over candidates sorted by expected value: it skips a candidate whose family is already used and stops once the pick limit is reached; its properties are ChooseMembers, ChooseOrdered, ChooseBound, ChooseFamilies and ChooseCovers |
| MarketEval.AnyMapped | app/services/market_eval_service.py:313-319 | some evaluated quote had a model probability; without candidates this picks NO_MAPPED_MARKETS over NO_EDGE_OR_HIGH_UNCERTAINTY |
| MarketEval.ConfidenceBase | app/services/market_eval_service.py:62-87 | the confidence score before rounding: the interval-width base, lowered to 0.2, 0.25 or 0.3 by a large model-market gap, a long shot or a thin edge, then raised by line value and bookmaker count and capped (ConfidenceBaseBounds keeps it in [0, 1]) |
| Slate.FamilyCases | app/services/slate_service.py:51-59 | 1X2 is RESULT, every OU_ market is TOTALS, BTTS is BTTS, and any other market is its own upper-cased name |
| Slate.FamilyIdempotent | app/services/slate_service.py:51-59 | grouping a family again gives the same family |
| Slate.BucketCases | app/services/slate_service.py:62-71 | the bucket is the upper-cased selection, except that a totals selection other than OVER counts as UNDER and a BTTS selection other than YES counts as NO |
| Slate.ModelProb | app/services/slate_service.py:74-77 | the probability is never negative and is 0 for odds ≤ 0; otherwise it is the probability at which the odds give the pick's edge, floored at 0 |
| Slate.FilterRulesOf | app/services/slate_service.py:81-84 | absent minima default to 0.0 and absent odds bounds are not applied |
| Slate.FilterPick | app/services/slate_service.py:80-94 | a pick passes exactly when the probability, edge, maximum-odds and minimum-odds thresholds all hold |
| Slate.PickFromMatch | app/services/slate_service.py:41-49 | no pick for no picks; otherwise one of the picks with the lowest odds (safe), the highest odds (risky) or odds closest to 2.2 (any other mode), taking the first such pick |
| Slate.SafePickIsFirstCheapest | app/services/slate_service.py:44-45 | the safe pick is the first pick with the lowest odds: every earlier pick has strictly higher odds |
| Slate.MaxPerFamily | app/services/slate_service.py:105 | the family limit is 1 or 2 |
| Slate.TotalOdds | app/services/slate_service.py:131 | combined odds are absent exactly when there are no legs |
| Slate.TotalOddsAppend | app/services/slate_service.py:131 | adding a leg multiplies the combined odds by its odds, so they are the product of the leg odds |
| Slate.CountsAppend | app/services/slate_service.py:117-119 | a new leg adds one to the count of its family and of its (family, bucket), and to no other |
| Slate.CountsStep | app/services/slate_service.py:118-119 | incrementing both counters of the new leg keeps the dictionaries equal to the counts of the chosen legs |
| Slate.FirstPassCapped | app/services/slate_service.py:110-121 | the first pass keeps every family within its limit and every (family, bucket) at most twice |
| Slate.FirstPassShape | app/services/slate_service.py:110-121 | the first pass only appends picks of the pool to what was chosen |
| Slate.FirstPassBound | app/services/slate_service.py:120-121 | the first pass stops at `legs`, or one pick later when that many were already chosen |
| Slate.SecondPassShape | app/services/slate_service.py:123-129 | the top-up only appends picks of the pool, stops at `legs`, and stops short only after taking every pick |
| Slate.LegsMeaning | app/services/slate_service.py:97-132 | at most max(legs, 1) legs, all drawn from the pool, and fewer than `legs` only when every pick of the pool is a leg |
| Slate.FirstPassLimits | app/services/slate_service.py:105-121 | the first pass has at most one leg per family (safe and medium) or two (risky), and at most two per (family, bucket) |
| Slate.GreedyPass | app/services/slate_service.py:106-121 | the first loop, with its two count dictionaries, computes the first pass of the specification |
| Slate.TopUp | app/services/slate_service.py:123-129 | the second loop computes the top-up of the specification |
| Slate.BuildMultiple | app/services/slate_service.py:97-132 | the multiple carries its difficulty, the legs of the specification and their combined odds |
| Slate.Family | app/services/slate_service.py:51-59 | `_family`: the market group of a pick (result, totals, BTTS, or the market itself); its cases are FamilyCases |
| Slate.SelectionBucket | app/services/slate_service.py:62-71 | `_selection_bucket`: which side of its market a pick takes; its cases are BucketCases |
| Slate.OrderKey | app/services/slate_service.py:98-103 | the order the pool is walked in: cheapest odds first for safe, dearest first for risky, closest to 2.2 otherwise; ties go to the larger edge |
| Slate.FamCount | app/services/slate_service.py:107-118 | `fam_counts[f]`: the number of chosen legs in family `f`, 0 when none |
| Slate.SelCount | app/services/slate_service.py:108-119 | `sel_counts[g]`: the number of chosen legs in (family, bucket) `g`, 0 when none |
| Slate.Capped | app/services/slate_service.py:113-116 | the first pass's limits: at most the per-family maximum in any family and at most two legs in any (family, bucket) |
| Slate.FirstPass | app/services/slate_service.py:110-121 | the first pass over the ordered pool: it skips a pick whose family or bucket is full and stops right after the pick that reaches `legs`; FirstPassCapped, FirstPassShape and FirstPassBound state its properties |
| Slate.SecondPass | app/services/slate_service.py:123-129 | the top-up pass: picks not yet chosen are added in order until `legs` are chosen; SecondPassShape states its properties |
| Slate.Legs | app/services/slate_service.py:97-129 | the legs `_build_multiple` returns: the first pass, then the top-up when that came out short; LegsMeaning states its properties |
| Prediction.MaxChoice | app/services/prediction_service.py:137 | `max` by probability returns one of the choices and none is more probable |
| Prediction.MaxOf3 | app/services/prediction_service.py:137 | on three choices `max` takes the first that no other beats, trying them in order |
| Prediction.Main1x2Meaning | app/services/prediction_service.py:131-137 | the main outcome has the largest 1X2 probability; ties go to 1, then X, then 2 (each label under exactly its condition) |
| Prediction.DoubleChanceMeaning | app/services/prediction_service.py:140-149 | the double chance is the likeliest pair of outcomes; ties go to 1X, then X2, then 12 |
| Prediction.DoubleChanceSafe | app/services/prediction_service.py:152-160 | the safe double chance is 1X exactly when p1 ≥ p2, otherwise X2, never 12, with probability px + max(p1, p2) |
| Prediction.TotalsPick | app/services/prediction_service.py:163-168 | Under 2.5 exactly when its probability is at least Over's (Under on a tie), with the larger probability |
| Prediction.BttsPick | app/services/prediction_service.py:171-176 | BTTS No exactly when its probability is at least Yes's (No on a tie), with the larger probability |
| Prediction.ConfidenceScore | app/services/prediction_service.py:404-410 | the block's score when it has a usable one, else 0.5 |
| Prediction.Factor | app/services/prediction_service.py:418-429 | the confidence factor always lies in [0.5, 1.0] |
| Prediction.ConfidenceFactor | app/services/prediction_service.py:413-429 | the factor of a prediction always lies in [0.5, 1.0] |
| Prediction.FactorMonotone | app/services/prediction_service.py:418 | a higher score never lowers the factor |
| Prediction.FactorFull | app/services/prediction_service.py:418-429 | with no quality penalty a score of at least 0.5 gives the full factor 1.0 |
| Prediction.LowConfidenceMeaning | app/services/prediction_service.py:432-449 | low confidence holds exactly when the score is below 0.45, or data quality below 0.5, or lineup coverage below 0.2 |
| Prediction.ConfidentFactor | app/services/prediction_service.py:413-449 | a prediction that is not of low confidence has a factor of at least 0.7857, so the 0.5 clamp never binds for the pick rules |
| Prediction.SafeCandidates | app/services/prediction_service.py:459-465 | the candidates are non-empty exactly when some leaning meets its threshold, and each of them meets its own (0.62 for the double chance, 0.60 otherwise) |
| Prediction.SafeWithMeaning | app/services/prediction_service.py:452-469 | a safe pick exists exactly when confidence is not low and some leaning qualifies; it is 1X/X2, a total or a BTTS answer (never 12), meets its threshold, is at least as likely as every qualifying leaning, and carries the prediction's match |
| Prediction.MaxSafe | app/services/prediction_service.py:468 | the most probable of several qualifying candidates qualifies, and none is more probable |
| Prediction.MiddleMeaning | app/services/prediction_service.py:480 | the runner-up of three probabilities is one of them, with two of the three on each side of it |
| Prediction.MediumPriority | app/services/prediction_service.py:472-489 | no pick on low confidence; otherwise the main outcome when it is likely and clear, else the totals leaning at 0.55, else the safe double chance at 0.55, and none exactly when all three fail |
| Prediction.MainClearMargin | app/services/prediction_service.py:483 | a clear main outcome has probability at least 0.42 and beats each of the other two outcomes by at least 0.05 |
| Prediction.AtLeastProduct | app/services/prediction_service.py:460-487 | a probability whose scaled value reaches a positive threshold, for a factor in (0, 1], reaches the threshold itself |
| Prediction.RiskyMeaning | app/services/prediction_service.py:492-510 | the risky pick always exists; it is the main outcome, upgraded to its combined market exactly when that probability times the factor meets 0.30 (0.22 for a draw) |
| Prediction.Suggestions | app/services/prediction_service.py:582-584 | the kept suggestions are no more than the predictions, each is the answer of the rule for one of them, and every prediction the rule answers contributes its answer |
| Prediction.SuggestionsAppend | app/services/prediction_service.py:582-584 | the filter keeps the day's order: the answers for earlier predictions come before those for later ones |
| Prediction.SuggestionsOne | app/services/prediction_service.py:582-584 | one prediction contributes its answer, or nothing when the rule gives None |
| Prediction.Best3Meaning | app/services/prediction_service.py:586-587 | the list keeps min(3, n) of the picks by probability descending, and no pick left out is more likely than one kept |
| Prediction.Lowest3Meaning | app/services/prediction_service.py:588 | the list keeps min(3, n) of the picks by probability ascending, and no pick left out is less likely than one kept |
| Prediction.LowConfidenceIds | app/services/prediction_service.py:581 | the excluded ids are exactly the match ids of the low-confidence predictions |
| Prediction.DayListsMeaning | app/services/prediction_service.py:581-599 | each list holds min(3, n) of its rule's n answers for the day; the safe and medium lists run from most to least likely with no answer of the day left out more likely than a pick kept, the risky list the other way round, and the risky list holds min(3, n) picks for n predictions |
| Prediction.TopOfAnswers | app/services/prediction_service.py:586-587 | the best three of a rule's answers are min(3, n) of them, ordered by descending probability, and none of the day's answers left out is more likely than a pick kept |
| Prediction.LowOfAnswers | app/services/prediction_service.py:588 | the three least likely of a rule's answers are min(3, n) of them, ordered by ascending probability, and none left out is less likely than a pick kept |
| Prediction.RiskyAlways | app/services/prediction_service.py:584 | every prediction contributes one risky suggestion |
| Prediction.ProbsOf | app/services/prediction_service.py:477-479 | the seven probabilities the pick helpers read, each `probs.get(key, 0.0)`, so a missing one reads as 0 |
| Prediction.ConfidenceOf | app/services/prediction_service.py:405-417 | the score, data quality and lineup coverage of `confidence_info or {}`; a missing key, a null and a non-number all read as absent |
| Prediction.Main1x2 | app/services/prediction_service.py:131-137 | `_main_1x2`: the likeliest of 1, X and 2, ties to 1 and then X (Main1x2Meaning) |
| Prediction.DoubleChance | app/services/prediction_service.py:140-149 | `_double_chance`: the likeliest of 1X, X2 and 12, ties to 1X and then X2 (DoubleChanceMeaning) |
| Prediction.LowConfidence | app/services/prediction_service.py:432-449 | `_low_confidence`: a score under 0.45, data quality under 0.5 or lineup coverage under 0.2 (LowConfidenceMeaning) |
| Prediction.SafeThreshold | app/services/prediction_service.py:460-465 | the factor-scaled probability a safe candidate must reach: 0.62 for the double chance, 0.60 for totals and BTTS |
| Prediction.SafePick | app/services/prediction_service.py:452-469 | `_safe_pick`: no pick at low confidence; otherwise the likeliest of the qualifying double-chance, totals and BTTS leanings, none when nothing qualifies (SafeWithMeaning) |
| Prediction.SecondProb | app/services/prediction_service.py:480 | the runner-up 1X2 probability: the middle of the three when one of them is positive, else 0 (MiddleMeaning) |
| Prediction.MediumPick | app/services/prediction_service.py:472-489 | `_medium_pick`: no pick at low confidence; otherwise the main outcome when it is likely and clear of the runner-up, else the totals, else the double chance, else none (MediumPriority) |
| Prediction.RiskyPick | app/services/prediction_service.py:492-510 | `_risky_pick`: the main outcome, upgraded to its combined market when that is likely enough; there is always an answer (RiskyMeaning, RiskyAlways) |
| Prediction.Best3 | app/services/prediction_service.py:586-587 | the three likeliest picks, most likely first, ties in input order (Best3Meaning) |
| Prediction.Lowest3 | app/services/prediction_service.py:588 | the three least likely picks, least likely first, ties in input order (Lowest3Meaning) |
| Prediction.DayLists | app/services/prediction_service.py:581-599 | the safe, medium and risky lists and the low-confidence match ids of `build_day_predictions` (DayListsMeaning) |
| Prediction.TopAnswers | app/services/prediction_service.py:582-587 | a top list of a rule's answers for the day: every pick is one prediction's answer, picks run from most to least likely, and no answer left out is likelier than a pick kept |
| Prediction.LowAnswers | app/services/prediction_service.py:584-588 | the mirror of TopAnswers: least likely first, and no answer left out is less likely than a pick kept |
| Calendar.PhaseOfMonth | app/core/calibration.py:71-77 | August to October is early, November to February mid, March to July late, each exactly on those months |
| Calendar.Last2OfNat | scripts/build_features_understat_v5.py:47-48 | the last two characters of a number of two or more digits are its tens and units digits |
| Calendar.SeasonLabelOfYear | scripts/build_features_understat_v5.py:47-48 | for a four-digit start year the label is the year, a slash and the last two digits of the next year, seven characters in all |
| Calibration.SelectLeague | app/core/calibration.py:16-21 | no table gives None; with a league and a `by_league` key, the league's entry (None when missing); otherwise the table itself |
| Calibration.OrElse | app/core/calibration.py:93-97 | `a or b` gives `a` when it is a non-empty table, else `b` |
| Calibration.SeasonPhase | app/core/calibration.py:68-78 | None exactly without a kickoff, else the phase of the kickoff's month |
| Calibration.SelectCalibrationChain | app/core/calibration.py:81-97 | no table gives None; a table without `by_season` is used as it is; a season without an entry gives the table's default or the table; an entry for the kickoff's phase wins; otherwise the season's full table, then the season's default, then the table's default, then the table |
| Calibration.SelectCalibrationSource | app/core/calibration.py:81-97 | the chosen table is the table itself, its default or a value of the season's entry, and it is None only without a table or when the phase key of the entry holds null |
| Calibration.MapProb | app/core/calibration.py:24-28 | `p` becomes the value of the first bin with min ≤ p < max, and stays `p` when no bin holds it |
| Calibration.KeysDistinct | app/core/calibration.py:44-63 | the seven probability keys are pairwise different, so the three renormalisations touch disjoint keys |
| Calibration.MapKeys | app/core/calibration.py:36-41 | the first loop builds a copy of the probabilities with every key that has bins mapped through them |
| Calibration.ApplyCalibration | app/core/calibration.py:31-65 | the method computes the calibrated probabilities of the specification |
| Calibration.CalibratedKeys | app/core/calibration.py:31-41 | without a table or its `markets` the input comes back unchanged, and in every case the output has exactly the input's keys |
| Calibration.DivSum3 | app/core/calibration.py:46-49 | three values divided by their positive sum add up to 1 |
| Calibration.DivSum2 | app/core/calibration.py:53-63 | two values divided by their positive sum add up to 1 |
| Calibration.CalibratedSumsToOne | app/core/calibration.py:43-63 | after calibration the 1X2 triple sums to 1 whenever its calibrated values are all present with a positive sum, and so do the Over/Under and the BTTS pairs |
| Calibration.Norm1x2Sum | app/core/calibration.py:43-49 | renormalising the triple makes it sum to 1 and leaves every other key as it was |
| Calibration.NormPairSum | app/core/calibration.py:51-63 | renormalising a pair with a positive sum makes it sum to 1 |
| Calibration.NormPairOthers | app/core/calibration.py:51-63 | renormalising a pair leaves every other key as it was |
| Calibration.CalibratedOtherKeys | app/core/calibration.py:38-63 | a key outside the three groups keeps its mapped value |
| Calendar.SeasonLabelInjective | scripts/kpi_report.py:22-23 | for four-digit start years, different seasons get different `YYYY/YY` labels, so a label names one season |
| Calendar.SeasonLabel | scripts/build_features_understat_v5.py:47-48 | the label of the season starting in a year: the year, a slash and the last two digits of the next year (SeasonLabelOfYear, SeasonLabelInjective) |
| Calibration.Truthy | app/core/calibration.py:86 | `bool(cal)` on a calibration object: it has at least one key |
| Calibration.SeasonEntry | app/core/calibration.py:90-91 | the `by_season` entry of a season label; empty when there is none, when `by_season` is null or when the label is None |
| Calibration.SelectCalibration | app/core/calibration.py:81-97 | `select_calibration`: None without a table; the table itself without `by_season`; the default (or the table) without a usable season entry; the phase entry when the kickoff's phase has one; else the first non-empty of full, the season default, the table default and the table (SelectCalibrationChain, SelectCalibrationSource) |
| Calibration.InBin | app/core/calibration.py:26 | a probability falls in a bin when it is at least the bin's lower end and strictly below its upper end |
| Calibration.MappedAt | app/core/calibration.py:38-41 | the calibrated value of one key: mapped through its market's bins when that market has a non-empty bin list, else unchanged |
| Calibration.Mapped | app/core/calibration.py:36-41 | the first loop of `apply_calibration`: every key of the input mapped through its bins, no key added or removed (MapKeys) |
| Calibration.Norm1x2 | app/core/calibration.py:43-49 | the 1X2 triple divided by its sum when all three keys are present and the sum is positive, otherwise unchanged (Norm1x2Sum) |
| Calibration.NormPair | app/core/calibration.py:51-63 | a two-way pair divided by its sum when both keys are present and the sum is positive, otherwise unchanged; other keys never change (NormPairSum, NormPairOthers) |
| Calibration.Calibrated | app/core/calibration.py:31-65 | `apply_calibration`: without a table or `markets` the input itself; otherwise the mapped values, then the 1X2, over/under 2.5 and BTTS groups normalised (CalibratedKeys, CalibratedSumsToOne, CalibratedOtherKeys) |
| KpiService.SeasonLabelOf | app/services/kpi_service.py:46-55 | a label exists exactly for a non-empty season that, stripped, holds a slash or starts with four digits; a slash label is kept stripped |
| KpiService.SeasonLabelOfStartYear | app/services/kpi_service.py:52-54 | a season that starts with a year from 1000 to 9998 and holds no slash is labelled with that year, a slash and the next year's last two digits, seven characters |
| KpiService.SeasonLabelOfPlainYear | app/services/kpi_service.py:46-55 | "2024" is labelled "2024/25" |
| KpiService.SeasonLabelOfSlashForm | app/services/kpi_service.py:49-51 | " 2024/2025 " is kept as "2024/2025" |
| KpiService.PhaseForDate | app/services/kpi_service.py:67-75 | no kickoff gives no phase; a kickoff gives its month's phase |
| KpiService.Brier1x2Avg | app/services/kpi_service.py:58-64 | the average exists exactly when all three 1X2 parts are present, and then three times it is their sum |
| KpiService.Brier1x2AvgBetween | app/services/kpi_service.py:64 | the mean of the three parts lies between any lower and upper bound of them |
| KpiService.LeagueOf | app/services/kpi_service.py:89-95 | with `by_league`, the competition's part (None when missing or null); without it, no part when the report names another league, else the report itself |
| KpiService.SeasonEntryOf | app/services/kpi_service.py:97-101 | a season entry exists exactly when the label is non-empty and names a non-empty entry, and it is that entry |
| KpiService.TargetOf | app/services/kpi_service.py:103-108 | a non-empty entry for the kickoff's phase overrides the season entry; otherwise the season entry is used |
| KpiService.StatusRules | app/services/kpi_service.py:129-147 | BLOCK exactly when log loss or Brier is over its maximum; WARN exactly when neither is and the ROI is under the minimum with enough picks; OK exactly when no reason is raised; each reason exactly under its condition, at most three |
| KpiService.Judge | app/services/kpi_service.py:129-147 | the three checks build exactly the reasons of the specification and the status they give |
| KpiService.StatusOfSelection | app/services/kpi_service.py:84-112 | a status is produced exactly when the report has a part for the league with a non-empty entry for the season's label; it reports that label and the kickoff's phase, and a non-empty phase entry overrides the season entry |
| KpiService.StatusOfVerdict | app/services/kpi_service.py:113-161 | the reported status is the one the rules give for its own numbers; without thresholds the defaults 1.12, 0.26, -0.03 and 40 apply |
| KpiService.ReportCache.constructor | app/services/kpi_service.py:27 | the cache starts empty |
| KpiService.ReportCache.Load | app/services/kpi_service.py:30-43 | within the age limit the cached data comes back and the cache is unchanged; otherwise a missing or unreadable file gives None and leaves the cache, and a parsed file is returned and cached with the current time |
| KpiService.LoadedCached | app/services/kpi_service.py:30-43 | a read within the age limit of a successful read returns what that read gave, whatever the file now holds |
| KpiService.GetKpiStatus | app/services/kpi_service.py:78-161 | the status is the one of the specification for the report the cache gives, with the ten-minute cache; afterwards the cache is unchanged on a fresh hit or a failed read and otherwise holds the parsed report stamped with the current time |
| KpiService.ReasonsFor | app/services/kpi_service.py:129-147 | the reasons raised, in the order they are checked: log loss over its maximum, Brier score over its maximum, and an ROI under its minimum with at least the minimum number of picks; a missing number never raises one (StatusRules) |
| KpiService.StatusFor | app/services/kpi_service.py:130-147 | BLOCK when the log-loss or Brier reason is raised, WARN when only the ROI reason is, OK when none is (StatusRules) |
| KpiService.StatusOf | app/services/kpi_service.py:78-161 | `get_kpi_status` on a loaded report: None without a report, without a part for the league or without a non-empty season entry; otherwise the phase's numbers (the full season's when the phase has none) with the status and reasons they give (StatusOfSelection, StatusOfVerdict) |
| KpiService.ReportCache.Fresh | app/services/kpi_service.py:33-34 | the cached copy counts as fresh when it was loaded less than the maximum age before now |
| KpiService.Loaded | app/services/kpi_service.py:30-43 | what `_load_report` returns given the cache before the call: the cached data while fresh, else the parsed file, else None (LoadedCached) |
| Tactical.StyleMatchup | app/services/tactical_service.py:35-68 | the edges are both neutral, or one side favorable and the other critical; the indicator names the favorable side; the reason is "balanced" exactly when the edges are neutral |
| Tactical.StyleMatchupRules | app/services/tactical_service.py:40-55 | no rule fires exactly when neither side's press or possession meets a low press of the other; the home side is favoured exactly when a home rule is the first to fire |
| Tactical.StyleMatchupEmpty | app/services/tactical_service.py:164 | with no tag the styles are even, both edges neutral and the reason "balanced" |
| Tactical.TempoHintRules | app/services/tactical_service.py:71-76 | "high" exactly on a high-tempo tag or either side's high press; "low" exactly on a low-tempo tag or low presses on both sides without a high sign, so "high" takes precedence |
| Tactical.Percentages | app/services/tactical_service.py:86-89 | possession given as fractions on both sides is scaled by 100; otherwise it is kept |
| Tactical.StatsTagsExclusive | app/services/tactical_service.py:91-107 | at most one possession tag and at most one press tag per side, no proxy tag, at most three tags |
| Tactical.StatsTagsMeaning | app/services/tactical_service.py:86-107 | each stats tag is present exactly when its threshold is met: possession ≥ 55 or ≤ 45 on percentages, PPDA ≤ 8 or ≥ 12 |
| Tactical.PossessionTagsMeaning | app/services/tactical_service.py:91-95 | at most one possession tag, present exactly on its threshold |
| Tactical.PressTagsMeaning | app/services/tactical_service.py:97-107 | at most one press tag per side, high exactly at PPDA ≤ 8 and low exactly at PPDA ≥ 12 |
| Tactical.FractionsArePercentages | app/services/tactical_service.py:86-95 | possession 0.6 to 0.4 gives the same tags as 60 to 40, home possession among them |
| Tactical.TagsFromStats | app/services/tactical_service.py:79-123 | the method returns the stats profile of the specification |
| Tactical.CollectStatsTags | app/services/tactical_service.py:80-107 | the appends build exactly the stats tags of the specification, in order |
| Tactical.ProxyTagsMeaning | app/services/tactical_service.py:126-155 | the tempo tags are exclusive and follow the total expected goals (≥ 2.8, ≤ 2.2), the dominance tags are exclusive and follow the difference (±0.45); the matchup and the tempo follow the tempo tag, and no style rule fires |
| Tactical.TagsFromProxy | app/services/tactical_service.py:126-155 | the method returns the proxy profile of the specification |
| Tactical.CollectProxyTags | app/services/tactical_service.py:127-141 | the appends build exactly the proxy tags of the specification, in order |
| Tactical.TacticalProfile | app/services/tactical_service.py:158-164 | statistics win over features; with neither, the profile has source "none", no tags, no matchup and a neutral tempo |
| Tactical.GetTacticalProfile | app/services/tactical_service.py:158-164 | the method returns the profile of the specification |
| Tactical.TempoHint | app/services/tactical_service.py:71-76 | `_tempo_hint`: high with a high-tempo tag or either side's high press, else low with a low-tempo tag or both sides' low press, else neutral (TempoHintRules) |
| Tactical.PossessionTags | app/services/tactical_service.py:86-95 | the possession tag: with both shares known (fractions turned into percentages), at least 55 is home possession and at most 45 away possession |
| Tactical.PressTags | app/services/tactical_service.py:97-107 | one side's press tag: a known PPDA of at most 8 is a high press, of at least 12 a low press |
| Tactical.StatsTags | app/services/tactical_service.py:80-107 | the tags read from statistics, in the order they are appended (StatsTagsMeaning, StatsTagsExclusive) |
| Tactical.StatsMatchup | app/services/tactical_service.py:109-115 | press against possession when one side presses high and the other has the ball, else low press on both sides when both press low, else none |
| Tactical.StatsProfile | app/services/tactical_service.py:79-123 | the profile from statistics: the source (`tactical_stats` when empty), the tags, the matchup, the style matchup and the tempo (TagsFromStats) |
| Tactical.FeatureOrZero | app/services/tactical_service.py:128-129 | a feature read as `float(features.get(key, 0.0) or 0.0)`: missing and null both read as 0 |
| Tactical.ProxyTags | app/services/tactical_service.py:127-141 | the proxy tags: high tempo from 2.8 total expected goals, low tempo up to 2.2; home dominance from a 0.45 lead, away dominance from a 0.45 deficit (ProxyTagsMeaning) |
| Tactical.ProxyMatchup | app/services/tactical_service.py:143-147 | the proxy matchup: a high-tempo match, else a low-tempo match, else none |
| Tactical.ProxyProfile | app/services/tactical_service.py:126-155 | the proxy profile: source `proxy`, the proxy tags, their matchup, style matchup and tempo (TagsFromProxy) |
| LineupRefresh.Squash | app/services/lineup_refresh_service.py:63 | replacing each run of characters outside `[a-z0-9 ]` by one space leaves only `[a-z0-9 ]` |
| LineupRefresh.NormalizeText | app/services/lineup_refresh_service.py:62-63 | the normalised text holds only `[a-z0-9 ]` and neither starts nor ends with a space |
| LineupRefresh.NormalizeIdempotent | app/services/lineup_refresh_service.py:62-63 | normalising twice is normalising once |
| LineupRefresh.SquashAllowed | app/services/lineup_refresh_service.py:63 | a text of allowed characters only is left as it is by the substitution |
| LineupRefresh.AliasVariantsFewerTokens | app/services/lineup_refresh_service.py:82-95 | every alias variant is non-empty and has strictly fewer tokens than the normalised name, at most two fewer |
| LineupRefresh.VariantsFewer | app/services/lineup_refresh_service.py:86-95 | every variant of a token list is non-empty and one or two tokens shorter |
| LineupRefresh.VariantsAreSlices | app/services/lineup_refresh_service.py:89-94 | each variant joins the tokens without the last, without the first, or without both |
| LineupRefresh.SlicesFewer | app/services/lineup_refresh_service.py:89-94 | each of the three trimmed slices has one or two tokens fewer |
| LineupRefresh.WithoutStops | app/services/lineup_refresh_service.py:129 | the list keeps exactly the tokens that are not stop tokens |
| LineupRefresh.ResolveTeam | app/services/lineup_refresh_service.py:120-121 | a name whose normalised form is an alias resolves to its team, any other name to itself |
| LineupRefresh.TeamKeyMeaning | app/services/lineup_refresh_service.py:124-132 | a team key is empty exactly when the resolved name has no token; its tokens are the name's non-stop tokens, or all of them when every token is a stop token |
| LineupRefresh.KeyOfTokensMeaning | app/services/lineup_refresh_service.py:127-132 | the joined key splits back into the non-stop tokens, or all tokens when none survives, and is empty only for no tokens |
| LineupRefresh.TeamKeyStops | app/services/lineup_refresh_service.py:129-131 | a key keeps a stop token only when every token of the name is one |
| LineupRefresh.FirstIndex | app/services/lineup_refresh_service.py:223-226 | the first index of a value holds it, and no earlier index does |
| LineupRefresh.DedupeMeaning | app/services/lineup_refresh_service.py:220-227 | the output holds exactly the non-empty values, each once, in the order of their first occurrences |
| LineupRefresh.Dedupe | app/services/lineup_refresh_service.py:220-227 | the loop with its `seen` set computes the deduplicated list of the specification |
| LineupRefresh.CleanList | app/services/lineup_refresh_service.py:230-237 | no more names than values, each non-empty and the cleaned form of some value |
| LineupRefresh.StrippedParts | app/services/lineup_refresh_service.py:246 | no more parts than pieces, none empty |
| LineupRefresh.ParseAbsenceBlob | app/services/lineup_refresh_service.py:240-247 | a missing, blank, "nessuno", "-" or "n/a" blob gives no names; otherwise the cleaned comma-separated names, never an empty one |
| LineupRefresh.AbsenceNoneWords | app/services/lineup_refresh_service.py:243-245 | the "none" words are recognised in any case and with surrounding blanks |
| LineupRefresh.SeasonStartFromLabel | app/services/lineup_refresh_service.py:539-549 | a start year is read only from a non-empty label |
| LineupRefresh.SeasonStartOfLabel | app/services/lineup_refresh_service.py:539-549 | the start year is read back from the `YYYY/YY` label of a four-digit season |
| LineupRefresh.FindByKeysMeaning | app/services/lineup_refresh_service.py:194-217 | the by-day hit wins; otherwise nothing exactly when there is no candidate, else the first candidate without a day, or with a day the first candidate no farther from it than any other |
| LineupRefresh.CandidatesExact | app/services/lineup_refresh_service.py:198-208 | the candidates of the exact pair of team keys are used whenever it has any; only otherwise the most similar pair's |
| LineupRefresh.NearestOfArgMin | app/services/lineup_refresh_service.py:213-217 | the stable sort's first candidate is no farther from the day than any other and strictly nearer than every earlier one |
| LineupRefresh.RefreshThrottle.constructor | app/services/lineup_refresh_service.py:55 | no refresh is recorded at start |
| LineupRefresh.RefreshThrottle.Refresh | app/services/lineup_refresh_service.py:1246-1254 | the note and the recorded times after the call are the decision and the record of the specification |
| LineupRefresh.ThrottleMeaning | app/services/lineup_refresh_service.py:1246-1254 | with no competition it skips; a skipped request changes no recorded time; a request that goes ahead records `now` for its key only, and a repeat within the interval is then skipped as recent |
| LineupRefresh.Allowed | app/services/lineup_refresh_service.py:63 | the characters the name normalisation keeps: lower-case ASCII letters, digits and the space |
| LineupRefresh.AliasVariants | app/services/lineup_refresh_service.py:82-95 | `_alias_variants`: the set of the normalised name with a trailing club affix dropped, with a leading one dropped, and with both dropped when there are three tokens or more; empty variants are left out (AliasVariantsFewerTokens, VariantsAreSlices) |
| LineupRefresh.TeamKey | app/services/lineup_refresh_service.py:124-132 | `_team_key`: the tokens of the resolved, normalised name without stop tokens, or all of them when every token is a stop token (TeamKeyMeaning, TeamKeyStops) |
| LineupRefresh.DedupeOf | app/services/lineup_refresh_service.py:220-227 | `_dedupe` as a function: each non-empty value once, at its first occurrence, in input order (DedupeMeaning) |
| LineupRefresh.StartOfStripped | app/services/lineup_refresh_service.py:543-549 | the start year of a stripped season label: the digits before the first `/` when they are all digits, else the first four characters when they are digits, else None (SeasonStartOfLabel) |
| LineupRefresh.Distance | app/services/lineup_refresh_service.py:215 | the sort key of the match lookup: the number of days between a candidate and the wanted day, 999 for a candidate without a day |
| LineupRefresh.CandidatesOf | app/services/lineup_refresh_service.py:198-208 | the candidates of a pair of team keys: the by-pair list when it is non-empty, else the list of the most similar pair (CandidatesExact) |
| LineupRefresh.DayHit | app/services/lineup_refresh_service.py:194-197 | the by-day index answers: a day is given and the index holds a non-empty match id for the day and both team keys |
| LineupRefresh.FindMatchId | app/services/lineup_refresh_service.py:184-217 | `_find_match_id`: the lookup on the team keys of both names (FindByKeysMeaning on those keys) |
| LineupRefresh.FindByKeys | app/services/lineup_refresh_service.py:194-217 | the by-day hit if any; otherwise None without candidates, the first candidate without a day, or the first candidate nearest the day (FindByKeysMeaning, NearestOfArgMin) |
| LineupRefresh.NearestFirst | app/services/lineup_refresh_service.py:213-217 | candidate `i` is the one a stable sort by distance puts first: no candidate is nearer, and every earlier candidate is strictly farther |
| LineupRefresh.ThrottleKey | app/services/lineup_refresh_service.py:1248 | the throttle key: the competition, a colon and the ISO day |
| LineupRefresh.Recent | app/services/lineup_refresh_service.py:1250-1251 | the key was refreshed less than the minimum interval (in minutes, compared in seconds) before now |
| LineupRefresh.Decide | app/services/lineup_refresh_service.py:1246-1252 | the throttle's answer: skipped without a competition, skipped when the key was refreshed recently, else go ahead (ThrottleMeaning) |
| LineupRefresh.Recorded | app/services/lineup_refresh_service.py:1254 | the refresh times after a request: `now` is recorded under the key exactly when the refresh goes ahead |
| Common.Prefix | app/services/lineup_refresh_service.py:751-752 | `s[:n]` is the first min(n, len(s)) elements in order, the whole sequence when it is short enough (also the `[:11]` slices of `compute_lineup_adjustment`) |
| LineupFeed.KeyOf | app/services/lineup_refresh_service.py:756 | the key of a segment is everything before the first `÷` and holds no `÷` |
| LineupFeed.KeyValueSplit | app/services/lineup_refresh_service.py:756 | a segment is its key, the separator and its value |
| LineupFeed.FieldsOfKeys | app/services/lineup_refresh_service.py:753-757 | a key is in the field map exactly when some segment carries it |
| LineupFeed.FieldsOfLast | app/services/lineup_refresh_service.py:753-757 | the value of a key is the value of the last segment carrying it |
| LineupFeed.ParseFields | app/services/lineup_refresh_service.py:753-757 | the inner loop builds the field map of the specification for one chunk |
| LineupFeed.ApplyField | app/services/lineup_refresh_service.py:755-757 | a segment holding `÷` sets its key to its value; any other segment leaves the map |
| LineupFeed.EventOfMeaning | app/services/lineup_refresh_service.py:750-767 | an event is taken from a part exactly when both the CX and the AF fields of its first 2000 characters are non-empty; it names those teams, its id is the first 8 characters, and it has a kickoff exactly when AD is present |
| LineupFeed.EventsOfSource | app/services/lineup_refresh_service.py:749-768 | every event comes from one part, at most one per part |
| LineupFeed.EventsOfListingMeaning | app/services/lineup_refresh_service.py:744-768 | no marker gives no events; every event names both teams and has as id the first 8 characters after its marker, and there is at most one event per marker |
| LineupFeed.ParseEvents | app/services/lineup_refresh_service.py:744-768 | the loop over the parts computes the events of the specification |
| LineupFeed.TrimTildes | app/services/lineup_refresh_service.py:780 | `lstrip("~")` removes a prefix and leaves no leading `~` |
| LineupFeed.AppendGood | app/services/lineup_refresh_service.py:787-792 | appending a new non-empty name keeps a list free of duplicates and of empty names |
| LineupFeed.StepGood | app/services/lineup_refresh_service.py:776-792 | one segment keeps both lists free of duplicates and empty names |
| LineupFeed.RunGood | app/services/lineup_refresh_service.py:771-794 | each side's list has no duplicate and no empty name |
| LineupFeed.RunNoSide | app/services/lineup_refresh_service.py:774-784 | until a valid LC segment has been seen, no player is taken |
| LineupFeed.StepNoSide | app/services/lineup_refresh_service.py:781-784 | a step that leaves no current team changes nothing and had none before |
| LineupFeed.StepOtherSide | app/services/lineup_refresh_service.py:781-783 | an LC segment with a value other than 1 or 2 changes nothing |
| LineupFeed.RunPlayers | app/services/lineup_refresh_service.py:784-792 | every listed player is the cleaned value of some LI segment |
| LineupFeed.StepPlayer | app/services/lineup_refresh_service.py:784-792 | a name that one segment adds comes from that segment |
| LineupFeed.ParseLineups | app/services/lineup_refresh_service.py:771-794 | the loop computes the home and away lists of the specification |
| LineupFeed.ApplySegment | app/services/lineup_refresh_service.py:777-792 | the loop body on one segment is the step of the specification |
| LineupFeed.ValueOf | app/services/lineup_refresh_service.py:756 | the value half of `seg.split(KV_SEP, 1)`: everything after the first separator (KeyValueSplit) |
| LineupFeed.FieldsOf | app/services/lineup_refresh_service.py:753-757 | the field map of an event chunk: every segment holding the separator sets its key, so the last value of a key wins, and other segments are skipped (FieldsOfKeys, FieldsOfLast) |
| LineupFeed.EventOf | app/services/lineup_refresh_service.py:750-767 | the event after one marker: the id is the first 8 characters, the fields come from the first 2000, and there is an event only when the home and away names are both non-empty (EventOfMeaning) |
| LineupFeed.EventsOf | app/services/lineup_refresh_service.py:750-767 | the events of the parts after the markers, in part order, at most one per part (EventsOfSource) |
| LineupFeed.EventsOfListing | app/services/lineup_refresh_service.py:744-768 | `_parse_events`: no events when the marker is absent, else the events of the parts after each marker (EventsOfListingMeaning) |
| LineupFeed.LineKey | app/services/lineup_refresh_service.py:779-780 | a lineup segment's key with its leading `~` characters removed |
| LineupFeed.Step | app/services/lineup_refresh_service.py:776-792 | one segment of `_parse_lineups`: `LC` 1 or 2 selects the team, `LI` adds the cleaned name to the selected team's list when non-empty and new, and anything else changes nothing (StepGood, StepNoSide, StepOtherSide, StepPlayer) |
| LineupFeed.AddName | app/services/lineup_refresh_service.py:787-792 | a player list with a name appended, unless the name is empty or already listed (AppendGood) |
| LineupFeed.Run | app/services/lineup_refresh_service.py:771-794 | the lineup state after all segments, starting from empty lists and no selected team (RunGood, RunNoSide, RunPlayers) |
| LineupFeed.GoodList | app/services/lineup_refresh_service.py:787-792 | the shape the parser keeps each player list in: no name twice and no empty name |
| LineupService.MinutesFactorRange | app/services/lineup_service.py:85-91 | missing, zero or negative minutes or games give 0.85; usable data gives a factor in [0.5, 1.0], equal to minutes per game over 90 when a player averages between 45 and 90 minutes |
| LineupService.BuildPlayerMap | app/services/lineup_service.py:118-127 | the first loop keeps, in order, one entry per projection whose name and normalised name are non-empty, with its surname as last token |
| LineupService.FirstUnused | app/services/lineup_service.py:135-142 | the entry found is the first one whose name is not yet used and which passes the test; none is found exactly when no such entry exists |
| LineupService.FindUnused | app/services/lineup_service.py:135-142 | the inner loop stops at that first entry |
| LineupService.TakeCounts | app/services/lineup_service.py:139-141 | counting an entry with an unused name keeps the used names equal to the counted names, pairwise distinct, and the total their summed contributions |
| LineupService.StepCounts | app/services/lineup_service.py:130-157 | one player keeps that invariant |
| LineupService.RunCounts | app/services/lineup_service.py:128-157 | the whole matching loop keeps it |
| LineupService.ShareSumMeaning | app/services/lineup_service.py:115-158 | no players or no projections give 0; otherwise the share sum is the summed share times minutes factor of player-map entries with pairwise distinct names, so no projected player is counted twice |
| LineupService.StepSurname | app/services/lineup_service.py:145-157 | the surname fallback counts an entry only when no name matched, the player's last token has at least 4 characters, and the counted entry is unused and has exactly that surname |
| LineupService.MatchSurname | app/services/lineup_service.py:149-157 | the surname part of the loop body is the fallback step of the specification |
| LineupService.MatchPlayer | app/services/lineup_service.py:130-157 | the loop body for one player is the step of the specification |
| LineupService.ShareSum | app/services/lineup_service.py:115-158 | `_share_sum` computes the share sum of the specification |
| LineupService.ConfScaleRange | app/services/lineup_service.py:189-190 | the confidence scale lies in [0.6, 1.0] and is 0.6 + 0.4 times the confidence when that lies in [0, 1] |
| LineupService.AdjustmentBounds | app/services/lineup_service.py:176-194 | both penalties lie in [0, 0.30]; a side whose top-11 share is not positive has zero coverage and zero absence share |
| LineupService.AdjustmentFirstEleven | app/services/lineup_service.py:174-187 | listed players after the eleventh of either side change nothing in the adjustment |
| LineupService.MinutesFactor | app/services/lineup_service.py:85-91 | `_minutes_factor`: minutes per game over 90, kept within [0.5, 1.0]; 0.85 when minutes or games are missing, zero or not positive (MinutesFactorRange) |
| LineupService.Surname | app/services/lineup_service.py:125-126 | the last token of a normalised name, or "" when it has no tokens |
| LineupService.PlayerMapOf | app/services/lineup_service.py:118-127 | `player_map`: one entry per projection whose name and normalised name are non-empty, in projection order (BuildPlayerMap) |
| LineupService.NameMatch | app/services/lineup_service.py:138 | the first matching test: the two normalised names are equal or one contains the other |
| LineupService.SurnameMatch | app/services/lineup_service.py:154 | the fallback test: the player's last token equals the entry's non-empty surname |
| LineupService.StepKey | app/services/lineup_service.py:130-157 | one player of the matching loop: an empty name is skipped; else the first unused entry passing the name test is counted; failing that, a last token of at least 4 characters counts the first unused entry with that surname (StepCounts, StepSurname) |
| LineupService.Run | app/services/lineup_service.py:128-157 | the matching state after all players, from no used names and a zero total (RunCounts) |
| LineupService.ShareSumOf | app/services/lineup_service.py:115-158 | `_share_sum`: 0 without players or projections, else the total share of the matched entries, each entry counted at most once (ShareSumMeaning, ShareSum) |
| LineupService.Counts | app/services/lineup_service.py:128-157 | the matching loop's invariant: the used names are exactly the counted entries' names, no name is counted twice, every counted entry is in the player map and the total is the sum of their contributions |
| LineupService.TopShare | app/services/lineup_service.py:176-177 | the summed share times minutes factor of the first 11 projections |
| LineupService.Ratio | app/services/lineup_service.py:184-187 | a share over the top share, or 0 when the top share is not positive |
| LineupService.ConfScale | app/services/lineup_service.py:189-190 | the confidence scale `0.6 + 0.4 * conf`, kept within [0.6, 1.0] (ConfScaleRange) |
| LineupService.Penalty | app/services/lineup_service.py:191-194 | one side's penalty: 0.12 per missing unit of coverage plus 0.25 per unit of absence share, scaled by the confidence scale and kept within [0, 0.30] |
| LineupService.AdjustmentOf | app/services/lineup_service.py:172-194 | the numbers of `compute_lineup_adjustment`: coverage and absence share of each side over its top share, using only the first 11 listed players; a zero confidence reads as 0.6 (AdjustmentBounds, AdjustmentFirstEleven) |
| Context.ExtractScheduleFactors | app/services/context_service.py:43-60 | a name is kept exactly when it is one of the eight listed schedule names and the row holds a value that is not None for it, and the value is kept unchanged |
| Context.PctDeltaMeaning | app/services/context_service.py:63-66 | the relative change is None exactly when an input is missing or the baseline is 0; otherwise the baseline scaled by one plus the change is the current value |
| Context.PresentValues | app/services/context_service.py:181-189 | at most one value is collected per listed spread name |
| Context.AverageStd | app/services/context_service.py:180-190 | the loop collects the present spreads and averages them, 0.6 when none is present |
| Context.LeagueAvg | app/services/context_service.py:179 | the league average used as a divisor is never 0: a missing or zero value reads as 1.35 |
| Context.ComputeModelConfidence | app/services/context_service.py:164-245 | the heuristic is the confidence of the specification on the averaged spread |
| Context.RoundExact | app/services/context_service.py:234-243 | rounding to 3 decimals keeps a value that already has 3 decimals |
| Context.ConfidenceFields | app/services/context_service.py:170-245 | each reported field is the rounded coverage, stability, penalty or clamped score, and the source flag is the presence of a line-up source |
| Context.ConfidenceBounds | app/services/context_service.py:170-245 | after rounding, line-up coverage lies in [0, 1], form stability in [0.55, 0.95] and the score in [0.15, 0.85] |
| Context.RoundedWithin | app/services/context_service.py:234-236 | rounding to 3 decimals stays within bounds that have 3 decimals |
| Context.ConfidencePenalties | app/services/context_service.py:199-211 | without a line-up source the line-up penalty is 0.12 and the flag false; the stability penalty is never 0.08, only 0 or 0.05 |
| Context.ApplyAdjustmentMeaning | app/services/context_service.py:280-303 | a non-positive lambda, and only that, returns the row unchanged without information; otherwise both new lambdas lie in [0.2, 3.5], are reported with the raw ones, every other name keeps its value, and zero penalties only clamp |
| Context.ScaleMono | app/services/context_service.py:317-319 | a non-negative scale never lowers the clamped home lambda and never raises the clamped away lambda |
| Context.EloAdjustmentMeaning | app/services/context_service.py:306-335 | a missing rating leaves the row unchanged; information is absent exactly when a rating is missing or a lambda is not positive; otherwise the scale lies in [-0.10, 0.10], both lambdas in [0.2, 3.5], and a home side rated at least as high never loses expected goals while the away side never gains |
| Context.DriverOf | app/services/context_service.py:390-424 | a candidate is dropped exactly when both deltas are None or both are below 0.02 in size; a kept driver carries the candidate's key, title and note |
| Context.BuildDrivers | app/services/context_service.py:405-501 | the appends followed by the sort produce the driver list of the specification |
| Context.KeptMeaning | app/services/context_service.py:409-424 | a driver is appended exactly when some offered candidate is not dropped and yields it |
| Context.DriversMeaning | app/services/context_service.py:409-501 | the returned drivers are a permutation of the appended ones, are exactly those of the candidates not dropped, and are ordered by decreasing largest rounded delta |
| Context.ScheduleFactorsOf | app/services/context_service.py:43-60 | the schedule factors of a feature row: each listed name that is present with a non-null value, with that value (ExtractScheduleFactors) |
| Context.PctDelta | app/services/context_service.py:63-66 | `_pct_delta`: the relative change of the current value over the baseline; None when either is missing or the baseline is 0 (PctDeltaMeaning) |
| Context.AvgStdOf | app/services/context_service.py:180-190 | the mean of the form spreads that are present, 0.6 when none is (AverageStd) |
| Context.LineupCoverage | app/services/context_service.py:170-177 | the mean of both sides' lineup coverage kept within [0, 1], 0 without both |
| Context.Stability | app/services/context_service.py:191-192 | form stability: one minus the spread relative to 1.2 league means (at most 0.4 off), kept within [0.55, 0.95] |
| Context.FinishingPenalty | app/services/context_service.py:194-199 | 0.08 when either finishing delta is at least 0.6 in size, a missing one counting 0; 0 without form data |
| Context.LineupPenalty | app/services/context_service.py:201-207 | 0.12 without a lineup source, else 0.08 below 20% coverage, 0.05 below 35%, else 0 |
| Context.StabilityPenalty | app/services/context_service.py:209-213 | 0.08 below 0.55 stability, 0.05 below 0.6, else 0 |
| Context.QualityScore | app/services/context_service.py:217-224 | the data-quality score `0.5 * features + 0.2 * tactical + 0.3 * lineups`, present only when all three fractions are known |
| Context.QualityPenalty | app/services/context_service.py:225-228 | 0.08 below a 0.5 quality score, 0.04 below 0.7, else 0, and 0 without a score |
| Context.ConfidenceOf | app/services/context_service.py:170-245 | the confidence block from the mean spread: the score kept within [0.15, 0.85] and every field rounded to 3 decimals (ConfidenceFields, ConfidenceBounds, ConfidencePenalties) |
| Context.RawScore | app/services/context_service.py:230-231 | the score before clamping and rounding: the base, coverage, stability and source bonus minus the four penalties |
| Context.ClampLambda | app/services/context_service.py:289-290 | every adjusted lambda is kept within [0.2, 3.5] |
| Context.ApplyAdjustment | app/services/context_service.py:280-303 | `_apply_adjustment`: each lambda is scaled down by its side's attack penalty and up by the opponent's defence penalty, then clamped; a non-positive lambda leaves the row unchanged with no information (ApplyAdjustmentMeaning) |
| Context.EloScale | app/services/context_service.py:317-318 | the Elo scale: the rating gap over 800, kept within [-0.10, 0.10] (ScaleMono) |
| Context.ApplyEloAdjustment | app/services/context_service.py:306-335 | `_apply_elo_adjustment`: the home lambda grows and the away lambda shrinks by the Elo scale, both clamped; a missing rating or a non-positive lambda leaves the row unchanged with no information (EloAdjustmentMeaning) |
| Context.DeltaPct | app/services/context_service.py:390-393 | a driver's relative delta: the delta over the base lambda, 0 when the base is 0 |
| Context.Dropped | app/services/context_service.py:410-415 | a driver is dropped when both deltas are missing, or both are below 0.02 in size with a missing one counting 0 |
| Context.Kept | app/services/context_service.py:409-424 | the drivers appended, in the order they were offered (KeptMeaning) |
| Context.Magnitude | app/services/context_service.py:500 | a driver's sort key: the larger size of its two rounded deltas |
| Context.DriversOf | app/services/context_service.py:405-501 | the driver list: the kept drivers ordered by decreasing magnitude, ties in the order offered (DriversMeaning, Sorting.SortDescStable) |
| TuneRules.InsertUnique | scripts/tune_schedine_rules.py:33 | inserting into an ascending duplicate-free list keeps it so and adds exactly the new number |
| TuneRules.SortedSet | scripts/tune_schedine_rules.py:33 | `sorted(set(out))` is strictly increasing and holds exactly the numbers of `out` |
| TuneRules.GridPart | scripts/tune_schedine_rules.py:29-32 | the loop body skips a blank part, appends the number of any other, and fails when it is not a number |
| TuneRules.ParseGrid | scripts/tune_schedine_rules.py:26-33 | `_parse_grid` computes the grid of the specification |
| TuneRules.GridOfParts | scripts/tune_schedine_rules.py:28-32 | the loop over the comma-separated parts computes their values |
| TuneRules.NoneStaysNone | scripts/tune_schedine_rules.py:32 | once a part fails to parse, the whole grid fails (`float` raises) |
| TuneRules.ParseGridMeaning | scripts/tune_schedine_rules.py:26-33 | a grid is strictly increasing, so sorted without duplicates, and holds exactly the numbers of the non-blank parts |
| TuneRules.GridValuesBlank | scripts/tune_schedine_rules.py:29-32 | a blank part adds nothing; a non-blank part that parses adds its number |
| TuneRules.MarketKeyKnown | scripts/tune_schedine_rules.py:36-45 | a pair has a key exactly when it is one of the seven known pairs, in any letter case |
| TuneRules.MarketOutcomeMeaning | scripts/tune_schedine_rules.py:48-70 | HOME, DRAW and AWAY partition the scores; OVER (3 goals or more) and UNDER are complementary, and so are YES and NO; an unknown pair never wins; the letter case does not matter |
| TuneRules.SelectCard | scripts/tune_schedine_rules.py:73-101 | the loop with its used-match set computes the card of the specification |
| TuneRules.SelectOrder | scripts/tune_schedine_rules.py:84-100 | the card loop keeps its picks in non-increasing key order |
| TuneRules.SelectDistinct | scripts/tune_schedine_rules.py:85-98 | the card loop never takes two picks from one match |
| TuneRules.SelectMembers | scripts/tune_schedine_rules.py:86-97 | the card loop takes only candidates that meet every threshold |
| TuneRules.SelectSize | scripts/tune_schedine_rules.py:97-100 | the card holds at most `card_size` picks, and at most one when the size is below 1 |
| TuneRules.SelectComplete | scripts/tune_schedine_rules.py:84-100 | a card that is not full holds a pick from every match with an eligible candidate |
| TuneRules.CardMeaning | scripts/tune_schedine_rules.py:73-101 | a card is in non-increasing key order, from distinct matches, of eligible candidates only, no larger than the card size (one for a size below 1), and when not full covers every match with an eligible candidate |
| TuneRules.SettleCard | scripts/tune_schedine_rules.py:121-126 | the loop over a card gives the product of its odds and whether every pick won |
| TuneRules.EvaluateRules | scripts/tune_schedine_rules.py:104-134 | the loop over the days computes the statistics of the specification |
| TuneRules.ScoreDay | scripts/tune_schedine_rules.py:117-131 | the body for one day skips a card that is not full and otherwise scores it |
| TuneRules.TallyBounds | scripts/tune_schedine_rules.py:113-131 | hits never exceed cards and cards never exceed days |
| TuneRules.StatsMeaning | scripts/tune_schedine_rules.py:132-134 | the hit rate lies in [0, 1]; without a full card both the hit rate and the return are 0 |
| TuneRules.HitRateWithin | scripts/tune_schedine_rules.py:132 | hits over cards lies in [0, 1] |
| TuneRules.ScoreOfCard | scripts/tune_schedine_rules.py:118-131 | a full card that won earns its combined odds minus the stake; any lost pick makes it a loss of 1 |
| TuneRules.EligibleResults | scripts/tune_schedine_rules.py:306-308 | the eligible rows are among the rows |
| TuneRules.Filtered | scripts/tune_schedine_rules.py:306 | a row is kept exactly when it has at least `min_cards` cards |
| TuneRules.PickBestMeaning | scripts/tune_schedine_rules.py:305-309 | there is a best row exactly when there are rows; it is one of them; when some row has enough cards the best has enough and no such row has a greater (score, cards); otherwise no row has a greater (score, cards) |
| TuneRules.GridValues | scripts/tune_schedine_rules.py:28-32 | the numbers of the comma-separated parts in order, blank parts skipped; None when a non-blank part is not a number, where `float` raises (GridOfParts, GridValuesBlank) |
| TuneRules.ParseGridOf | scripts/tune_schedine_rules.py:26-33 | `_parse_grid`: the distinct numbers of the list in ascending order, or None where the source raises (ParseGridMeaning) |
| TuneRules.KnownPair | scripts/tune_schedine_rules.py:36-45 | the seven upper-case (market, selection) pairs the tuner maps to a probability key (MarketKeyKnown) |
| TuneRules.MarketOutcome | scripts/tune_schedine_rules.py:48-70 | `_market_outcome`: whether the selection won at the final score, compared case-insensitively; false for any unknown pair (MarketOutcomeMeaning) |
| TuneRules.Eligible | scripts/tune_schedine_rules.py:88-96 | a candidate meets every threshold: probability and edge at least their minimum, odds within the optional bounds |
| TuneRules.SelectFrom | scripts/tune_schedine_rules.py:84-100 | the card loop from one position of the sorted candidates: used matches and ineligible candidates are skipped, and the loop stops once the card is full |
| TuneRules.CardOf | scripts/tune_schedine_rules.py:73-101 | `_select_card`: the card drawn from the candidates in descending key order, at most one pick per match, each pick eligible (SelectCard, CardMeaning) |
| TuneRules.Score | scripts/tune_schedine_rules.py:118-131 | one day's card: a short card adds nothing; a full card adds one card and, when every pick won, a hit and a profit of the combined odds minus 1, else a loss of 1 (ScoreOfCard) |
| TuneRules.TallyOf | scripts/tune_schedine_rules.py:113-131 | the card, hit and profit counters after the given days (TallyBounds, EvaluateRules) |
| TuneRules.StatsOf | scripts/tune_schedine_rules.py:132-134 | the hit rate and ROI per card, both 0 without cards (StatsMeaning, HitRateWithin) |
| TuneRules.PickBest | scripts/tune_schedine_rules.py:305-309 | `_pick_best`: the first eligible row with the greatest (score, cards), or None for no rows, where `max` raises (PickBestMeaning) |
| UiAdapter.CompetitionLabelMeaning | app/services/ui_adapter_service.py:10-23 | no code or an empty code gives ""; a known code gets its display name; any other code keeps its length and its other characters, with every underscore turned into a space |
| UiAdapter.MarketKeyExactMeaning | app/services/ui_adapter_service.py:39-46 | a pair has a key exactly when it is in the key table as written, without case folding; such a key, and the key of any upper-case pair, is the market evaluation's key |
| UiAdapter.SelectionLabelMeaning | app/services/ui_adapter_service.py:59-66 | known pairs get their display name, every other selection passes through unchanged, and two known selections of one market never share a label |
| UiAdapter.KellyFractionMeaning | app/services/ui_adapter_service.py:69-73 | the fraction is never negative, is 0 for a non-positive probability or odds of at most 1, is the market evaluation's Kelly fraction for a positive probability, and never exceeds a probability of at most 1 |
| UiAdapter.KellyAtMost | app/services/ui_adapter_service.py:72-73 | with positive net odds, the Kelly ratio of a probability of at most 1 does not exceed that probability |
| UiAdapter.ToolStatusMeaning | app/services/ui_adapter_service.py:183 | a tool run shows success exactly for OK, error exactly for ERROR, and skipped for every other status |
| UiAdapter.ShownDrivers | app/services/ui_adapter_service.py:197-201 | at most five drivers are shown, the first ones of the list in order, all of a short list, none when there is no list |
| UiAdapter.SelectionFromLabelMeaning | app/services/ui_adapter_service.py:263-272 | the outcome is always the label itself; the market is one of five; a label is a Combo exactly when no earlier rule applies |
| UiAdapter.BuildTicket | app/services/ui_adapter_service.py:274-301 | the loop with its two running products builds the ticket of the specification |
| UiAdapter.LegCancel | app/services/ui_adapter_service.py:280-283 | a leg's odds factor times its probability factor is 1, since each leg is priced at the inverse of its probability |
| UiAdapter.Regroup | app/services/ui_adapter_service.py:282-283 | two products that are each 1 multiply to 1 after regrouping |
| UiAdapter.SelectionsLength | app/services/ui_adapter_service.py:278-291 | there is one selection per pick |
| UiAdapter.FactorsCancel | app/services/ui_adapter_service.py:276-283 | the combined odds times the combined probability is 1 |
| UiAdapter.TicketMeaning | app/services/ui_adapter_service.py:274-301 | a ticket has one selection per pick and a non-negative stake; without picks its odds, probability and value are 0; otherwise its odds times its probability is 1, so its expected value and its suggested stake are 0 |
| UiAdapter.CompetitionLabel | app/services/ui_adapter_service.py:20-23 | `_competition_label`: "" for no code or an empty one, the display name of a known code, any other code with `_` turned into spaces (CompetitionLabelMeaning) |
| UiAdapter.MarketKeyExact | app/services/ui_adapter_service.py:39-46 | the adapter's market key: the market evaluation's key table matched exactly, without upper-casing (MarketKeyExactMeaning) |
| UiAdapter.MarketLabel | app/services/ui_adapter_service.py:49-56 | `_market_label`: "Over/Under 2.5" for OU_2.5; 1X2, BTTS and any other market shown as they are |
| UiAdapter.SelectionLabel | app/services/ui_adapter_service.py:59-66 | `_selection_label`: the display name of the seven known pairs, any other selection unchanged (SelectionLabelMeaning) |
| UiAdapter.KellyFraction | app/services/ui_adapter_service.py:69-73 | `_kelly_fraction`: the Kelly fraction `(p * odds - 1) / (odds - 1)` floored at 0, and 0 for no probability or odds of at most 1 (KellyFractionMeaning, KellyAtMost) |
| UiAdapter.ToolStatus | app/services/ui_adapter_service.py:183 | the shown status of a tool run: success for OK, error for ERROR, skipped otherwise (ToolStatusMeaning) |
| UiAdapter.SelectionFromLabel | app/services/ui_adapter_service.py:263-272 | `_selection_from_label`: the market a pick label belongs to (1X2, double chance, over/under, BTTS, else combo) and the label as the outcome (SelectionFromLabelMeaning) |
| UiAdapter.LegProb | app/services/ui_adapter_service.py:280 | a leg's probability, 0 when it has none |
| UiAdapter.LegOdds | app/services/ui_adapter_service.py:281 | a leg's fair odds: one over its probability, 0 without a positive probability (LegCancel) |
| UiAdapter.OddsFactor | app/services/ui_adapter_service.py:282 | what a leg multiplies into the combined odds: its odds, or 1 when they are not positive |
| UiAdapter.ProbFactor | app/services/ui_adapter_service.py:283 | what a leg multiplies into the combined probability: its probability, or 1 when it is not positive |
| UiAdapter.CombinedOdds | app/services/ui_adapter_service.py:276-282 | the product of the legs' odds factors, starting from 1 |
| UiAdapter.CombinedProb | app/services/ui_adapter_service.py:277-283 | the product of the legs' probability factors, starting from 1 |
| UiAdapter.TicketOf | app/services/ui_adapter_service.py:274-301 | `_build_ticket`: one selection per pick; combined odds and probability 0 without selections; expected value `prob * odds - 1`; stake 2% of the positive expected value (BuildTicket, TicketMeaning, FactorsCancel) |
| RoutesUiApi.HeaderOrEmpty | app/api/v1/routes_ui_api.py:57 | an absent header reads as "", a present one as its value |
| RoutesUiApi.BearerToken | app/api/v1/routes_ui_api.py:58-60 | a token is read exactly when the header starts with `bearer ` in any letter case, and it is the rest of the header stripped |
| RoutesUiApi.RequireTokenMeaning | app/api/v1/routes_ui_api.py:53-63 | with no or an empty configured token every request passes; otherwise a request passes exactly when its stripped bearer token equals the configured one, or, when there is no non-empty bearer token, its `X-Chat-Token` header does |
| RoutesUiApi.BearerAnyCase | app/api/v1/routes_ui_api.py:59-62 | `Bearer`, `BEARER` or any other casing of the scheme followed by the configured token passes |
| RoutesUiApi.StripClean | app/api/v1/routes_ui_api.py:60 | stripping a token that neither starts nor ends with whitespace leaves it as it is |
| RoutesUiApi.CompetitionCodeMeaning | app/api/v1/routes_ui_api.py:79-83 | there is no code exactly for no or an empty value; an alias in any case and with any surrounding whitespace gives its canonical code; any other name is kept stripped, character for character, except that spaces become `_` |
| RoutesUiApi.CompetitionCodeCaseInsensitive | app/api/v1/routes_ui_api.py:79-83 | two spellings of an alias that differ only in case and surrounding whitespace give the same code |
| RoutesUiApi.RiskRatingMeaning | app/api/v1/routes_ui_api.py:222-227 | low exactly for probability at least 0.6 at odds at most 2.2; medium exactly when not low but probability at least 0.45 at odds at most 3.5; high exactly otherwise |
| RoutesUiApi.RiskRatingMonotone | app/api/v1/routes_ui_api.py:222-227 | a likelier outcome at shorter odds is never rated riskier |
| RoutesUiApi.ConfidenceIntervalMeaning | app/api/v1/routes_ui_api.py:230-245 | without a simulation, a known key, or an interval dict for it, the interval is [0, 1]; otherwise it is the simulation's ends, a missing low end reading as 0 and a missing high end as 1 |
| RoutesUiApi.GetOrNone | app/api/v1/routes_ui_api.py:245 | `interval.get(k, d)`: the default when the end is missing, else the end |
| RoutesUiApi.MarketAlias | app/api/v1/routes_ui_api.py:262 | a requested market whose stripped lower-case name is an alias becomes its target; any other is kept as sent |
| RoutesUiApi.MarketAliasesOf | app/api/v1/routes_ui_api.py:262 | the list of requested markets is mapped one to one, in order |
| RoutesUiApi.OrDefault | app/api/v1/routes_ui_api.py:251-254 | `float(x or d)`: a missing value and a zero both take the default; any other value is kept |
| RoutesUiApi.FilterOf | app/api/v1/routes_ui_api.py:251-262 | the odds ceiling and the bankroll are never 0; missing fields default to 0 edge, 0 probability, 99 odds and a 1000 bankroll; the market list is empty exactly when none or an empty one was sent |
| RoutesUiApi.OpportunityQualifies | app/api/v1/routes_ui_api.py:290-333 | a surviving item yields an opportunity for its market and selection that keeps the filter's bounds, has a non-negative Kelly fraction which is positive exactly for a positive edge at odds above 1, full and quarter Kelly stakes on the bankroll, and the risk rating of its probability and odds |
| RoutesUiApi.ItemOpportunitiesMeaning | app/api/v1/routes_ui_api.py:290-333 | one report yields at most one opportunity per item; every opportunity is that of a surviving item, and every surviving item yields its own |
| RoutesUiApi.OpportunitiesQualify | app/api/v1/routes_ui_api.py:283-333 | every opportunity of every scanned match qualifies under the filter |
| RoutesUiApi.OpportunitiesComplete | app/api/v1/routes_ui_api.py:283-333 | every surviving item of every scanned match appears among the opportunities |
| RoutesUiApi.ReportOpportunities | app/api/v1/routes_ui_api.py:290-333 | the inner loop computes the opportunities of one report |
| RoutesUiApi.OddsRisk | app/api/v1/routes_ui_api.py:248-338 | the outer loop computes the opportunities of all scanned matches under the request's filter and counts every scanned match |
| RoutesUiApi.PaginationMeaning | app/api/v1/routes_ui_api.py:413-416 | a page or page size below 1 is refused, and only those; otherwise the page reads `per_page` rows after skipping the pages before it |
| RoutesUiApi.PageRows | app/api/v1/routes_ui_api.py:418-425 | a page holds at most `per_page` rows |
| RoutesUiApi.PageFollows | app/api/v1/routes_ui_api.py:416 | each page starts where the one before it ended |
| RoutesUiApi.FirstPagesArePrefix | app/api/v1/routes_ui_api.py:413-425 | reading pages 1 to n back to back returns exactly the first n times `per_page` rows, none skipped or repeated |
| RoutesUiApi.PresentedToken | app/api/v1/routes_ui_api.py:57-61 | the token a request presents: the stripped bearer token when the scheme matches in any case and the token is non-empty, else the `X-Chat-Token` header |
| RoutesUiApi.RequireToken | app/api/v1/routes_ui_api.py:53-63 | `_require_token`: every request passes when no token is configured; otherwise exactly the requests presenting the configured token pass, and the rest get 401 (RequireTokenMeaning) |
| RoutesUiApi.CompetitionCode | app/api/v1/routes_ui_api.py:79-83 | `_competition_code`: no code for no value; the canonical code of an alias written in any case; else the stripped name with spaces turned into `_` (CompetitionCodeMeaning) |
| RoutesUiApi.RiskRating | app/api/v1/routes_ui_api.py:222-227 | `_risk_rating`: low for probability at least 0.6 at odds up to 2.2, medium for at least 0.45 at odds up to 3.5, else high (RiskRatingMeaning, RiskRatingMonotone) |
| RoutesUiApi.ConfidenceInterval | app/api/v1/routes_ui_api.py:230-245 | `_confidence_interval`: the simulation's interval for the pair's key, (0, 1) when there is no simulation, no key or no interval (ConfidenceIntervalMeaning) |
| RoutesUiApi.Passes | app/api/v1/routes_ui_api.py:291-300 | an item survives the route's filters: its market is allowed, odds, probability and edge are present, and the edge, odds and probability are within the bounds |
| RoutesUiApi.OpportunityOf | app/api/v1/routes_ui_api.py:302-333 | the opportunity appended for a surviving item: the item's numbers, its Kelly fraction and stakes, its interval and its risk rating (OpportunityQualifies) |
| RoutesUiApi.Qualifies | app/api/v1/routes_ui_api.py:291-333 | what every opportunity under a filter satisfies: within the bounds, a non-negative Kelly fraction that is positive exactly for a positive edge at odds above 1, the full stake at the bankroll, a quarter stake, and the risk it rates |
| RoutesUiApi.ItemOpportunities | app/api/v1/routes_ui_api.py:290-333 | the opportunities of one report, in item order (ItemOpportunitiesMeaning) |
| RoutesUiApi.Opportunities | app/api/v1/routes_ui_api.py:283-333 | the opportunities of every scanned report, report after report (OpportunitiesQualify, OpportunitiesComplete) |
| RoutesUiApi.PaginationOf | app/api/v1/routes_ui_api.py:413-416 | the pagination of `audit_history`: a 400 for a page or size below 1, else the window of `per_page` rows after `(page - 1) * per_page` (PaginationMeaning) |
| RoutesUiApi.FirstPages | app/api/v1/routes_ui_api.py:413-425 | pages 1 to `n` read back to back; they are the listing's first `n * per_page` rows (FirstPagesArePrefix) |
| BuildFeatures.AlphaWithin | scripts/build_features_understat_v5.py:39 | with a positive sample the credibility weight `n / (n + 5)` lies strictly between 0 and 1 |
| BuildFeatures.ShrinkToLeagueMeaning | scripts/build_features_understat_v5.py:36-40 | no sample gives the league average; with a sample the result lies between the team's value and the league average, moved from the average towards the value by the credibility weight |
| BuildFeatures.AlphaMonotone | scripts/build_features_understat_v5.py:39 | the credibility weight grows with the sample size |
| BuildFeatures.CrossDiv | scripts/build_features_understat_v5.py:39 | comparing two fractions with positive denominators by cross-multiplying |
| BuildFeatures.ShrinkCloserWithMoreMatches | scripts/build_features_understat_v5.py:36-40 | a larger sample never moves the shrunk value further from the team's own value |
| BuildFeatures.ScaledCloser | scripts/build_features_understat_v5.py:40 | a smaller non-negative share of a gap is no larger in size |
| BuildFeatures.ClampGoals | scripts/build_features_understat_v5.py:43-44 | an expected-goals value is held in [0.2, 3.5]: kept inside the band, raised to 0.2 below it, cut to 3.5 above it |
| BuildFeatures.RatioClamp | scripts/build_features_understat_v5.py:111-114 | a non-positive season value gives 1; otherwise the ratio lies in [0.94, 1.06], is the plain ratio inside that band, and is 1 for equal values |
| BuildFeatures.RestDays | scripts/build_features_understat_v5.py:125-129 | no previous match gives none; otherwise the rest is never negative and is the time since the most recent earlier match |
| BuildFeatures.CountRecent | scripts/build_features_understat_v5.py:132-136 | the count is the number of matches on or after `days` days before kickoff, so never more than the number of matches |
| BuildFeatures.CountRecentMonotone | scripts/build_features_understat_v5.py:132-136 | a wider look-back window never counts fewer matches |
| BuildFeatures.CountRecentAll | scripts/build_features_understat_v5.py:132-136 | every match is counted exactly when every match falls inside the window |
| BuildFeatures.RestAdjustment | scripts/build_features_understat_v5.py:141-142 | the rest adjustment lies in [-0.08, 0.08] and is 0 without rest information |
| BuildFeatures.Congestion | scripts/build_features_understat_v5.py:143-148 | the congestion deductions together lie in [0, 0.07] |
| BuildFeatures.ScheduleFactorMeaning | scripts/build_features_understat_v5.py:139-149 | the factor lies in [0.85, 1.08] and equals 1 plus the rest adjustment minus the congestion deductions, so the final clamp never changes it; no rest information and no congestion give exactly 1 |
| BuildFeatures.ScheduleFactorMonotone | scripts/build_features_understat_v5.py:139-149 | more rest never lowers the factor and more recent matches never raise it |
| BuildFeatures.FormWeight | scripts/build_features_understat_v5.py:375-376 | with a positive window the form weight lies in [0, 0.8] and is the share of the window filled when that share is at most 0.8 |
| BuildFeatures.BlendBetween | scripts/build_features_understat_v5.py:377-383 | with a form weight in [0, 1] the blended value lies between the form and season values |
| BuildFeatures.SeasonLabel2025 | scripts/build_features_understat_v5.py:47-48 | the builder labels the 2025 season "2025/26" |
| BuildFeatures.ShrinkToLeague | scripts/build_features_understat_v5.py:36-40 | `_shrink_to_league`: the league average without matches, else the credibility-weighted mean `n / (n + 5)` of the team's value and the league average (ShrinkToLeagueMeaning, ShrinkCloserWithMoreMatches) |
| BuildFeatures.InWindow | scripts/build_features_understat_v5.py:134-136 | the positions of the team's matches dated on or after the cut-off; CountRecent counts them |
| BuildFeatures.ScheduleFactor | scripts/build_features_understat_v5.py:139-149 | `_schedule_factor`: 1 plus the rest adjustment minus the congestion penalty, kept within [0.85, 1.08] (ScheduleFactorMeaning, ScheduleFactorMonotone) |
| BuildFeatures.Blend | scripts/build_features_understat_v5.py:377-383 | the form/season blend: the form value at weight `w` and the season value at weight `1 - w` (BlendBetween) |
| KpiReport.SquaredErrorWithin | scripts/kpi_report.py:29 | a probability in [0, 1] against a 0/1 outcome has a squared error in [0, 1] |
| KpiReport.SquaredErrorsWithin | scripts/kpi_report.py:29 | the summed squared errors lie between 0 and the number of records |
| KpiReport.BrierWithin | scripts/kpi_report.py:26-29 | no records score 0; with well-formed records the Brier score lies in [0, 1] |
| KpiReport.BrierPerfect | scripts/kpi_report.py:26-29 | forecasts that give every outcome exactly score 0 |
| KpiReport.BrierByMarketMeaning | scripts/kpi_report.py:63-76 | the result holds only the three market names; each is present exactly when all of its selection scores are, and is then their mean |
| KpiReport.BrierByMarketWithin | scripts/kpi_report.py:63-76 | selection scores in [0, 1] give market scores in [0, 1] |
| KpiReport.MarketOutcomeMeaning | scripts/kpi_report.py:87-107 | the settlement is the tuning script's case-insensitive one restricted to known upper-case pairs, so any other spelling never wins; exactly one 1X2 selection wins, and OVER/UNDER and YES/NO are complementary |
| KpiReport.UpperKnown | scripts/kpi_report.py:87-107 | the seven settled pairs are written in upper case already |
| KpiReport.BestPickMeaning | scripts/kpi_report.py:285-307 | there is a pick exactly when some quote is eligible; the pick is that of an eligible quote whose edge no eligible quote exceeds and that no earlier eligible quote reaches |
| KpiReport.BestPickNone | scripts/kpi_report.py:285-307 | no pick exactly when no quote of the market has odds in (1.01, `max_odds`], a known key and an edge of at least `min_edge` |
| KpiReport.BestPickMaximal | scripts/kpi_report.py:304-305 | no eligible quote has a larger edge than the pick |
| KpiReport.BestPickFirst | scripts/kpi_report.py:304-305 | the pick is that of the first eligible quote with the largest edge |
| KpiReport.BestPick | scripts/kpi_report.py:285-305 | the inner loop over the quotes finds the best pick of the specification |
| KpiReport.PickOddsWithin | scripts/kpi_report.py:288-289 | a kept pick's odds lie in (1.01, `max_odds`] |
| KpiReport.TallyBounds | scripts/kpi_report.py:309-311 | there is at most one pick per match, each loses at most its unit and wins at most `max_odds - 1` |
| KpiReport.TallyStep | scripts/kpi_report.py:311 | adding one pick's profit keeps the running bounds |
| KpiReport.RoiWithin | scripts/kpi_report.py:325-330 | the ROI is 0 without picks and otherwise lies in [-1, `max_odds - 1`] |
| KpiReport.RatioWithin | scripts/kpi_report.py:328 | dividing bounded profit by the pick count bounds the ROI |
| KpiReport.TallyMarket | scripts/kpi_report.py:281-330 | the pass over the settled matches computes the tally and the ROI of the specification for one market |
| KpiReport.SquaredErrors | scripts/kpi_report.py:29 | the squared error of each (probability, outcome) record, in order (SquaredErrorsWithin) |
| KpiReport.Brier | scripts/kpi_report.py:26-29 | `_brier`: the mean squared error of the records, 0 for no records (BrierWithin, BrierPerfect) |
| KpiReport.BrierByMarket | scripts/kpi_report.py:63-76 | `_brier_by_market`: the mean score of each market, present exactly when all of its selections' scores are (BrierByMarketMeaning, BrierByMarketWithin) |
| KpiReport.MarketOutcome | scripts/kpi_report.py:87-107 | this script's `_market_outcome`: whether the selection won at the final score, with names matched exactly, so a lower-case name never wins (MarketOutcomeMeaning, UpperKnown) |
| KpiReport.QuoteEdge | scripts/kpi_report.py:291-301 | the edge of a quote: the model probability of its key (0 when absent) times the odds, minus 1 |
| KpiReport.Eligible | scripts/kpi_report.py:282-303 | a quote the ROI pass considers: in the market, odds in (1.01, max odds], a known selection and an edge of at least the minimum |
| KpiReport.BestPickOf | scripts/kpi_report.py:285-305 | the pick of one market for one match: the first eligible quote with the greatest edge, since a later quote replaces it only with a strictly larger edge; None without an eligible quote (BestPickMeaning, BestPickNone, BestPickMaximal, BestPickFirst) |
| KpiReport.FirstBest | scripts/kpi_report.py:304-305 | quote `j` is eligible, no eligible quote has a larger edge, and every earlier eligible quote has a strictly smaller one |
| KpiReport.PickProfit | scripts/kpi_report.py:310-311 | the profit of one unit on a pick: the odds minus 1 when it won, else -1 |
| KpiReport.TallyOf | scripts/kpi_report.py:281-311 | the picks and profit of one market over the settled matches, at most one pick per match (TallyBounds, TallyStep) |
| KpiReport.Roi | scripts/kpi_report.py:328 | the ROI of a market: profit per pick, 0 with no picks (RoiWithin, RatioWithin) |
| KpiReport.WithinUnits | scripts/kpi_report.py:309-311 | a tally whose picks each lost at most their unit and won at most the given amount |
| BackfillOdds.CompetitionValues | scripts/backfill_odds_football_data.py:133-138 | no or an empty name gives no values; Serie A is looked up under both its spellings; any other name only as itself |
| BackfillOdds.TailStart | scripts/backfill_odds_football_data.py:147 | the lazy `.*?` stops at the first position from which the rest is two to four digits, skipping no newline |
| BackfillOdds.DigitsSlice | scripts/backfill_odds_football_data.py:150-153 | a slice of a digit string is a digit string |
| BackfillOdds.DigitsConcat | scripts/backfill_odds_football_data.py:154 | two digit strings joined are a digit string |
| BackfillOdds.TailCodeShape | scripts/backfill_odds_football_data.py:147-154 | a code built from a year and a year tail is four or five digits |
| BackfillOdds.SeasonToCodeShape | scripts/backfill_odds_football_data.py:141-154 | a code, when there is one, is four or five digits; a missing or blank season has none |
| Text.StripPlain | scripts/backfill_odds_football_data.py:142 | stripping a text that neither starts nor ends with whitespace leaves it as it is |
| BackfillOdds.SeasonToCodeFourDigits | scripts/backfill_odds_football_data.py:145-146 | a bare four-digit code is passed through unchanged |
| BackfillOdds.TailAfterSlash | scripts/backfill_odds_football_data.py:147-151 | after a four-digit year and a slash, the year tail starts right after the slash and the two groups are the two years |
| BackfillOdds.SeasonToCodeShortLabel | scripts/backfill_odds_football_data.py:141-154 | a `YYYY/YY` label becomes the last two digits of the first year followed by the second |
| BackfillOdds.SeasonToCodeLongLabel | scripts/backfill_odds_football_data.py:141-154 | a `YYYY/YYYY` label becomes the same code, the second year cut to its last two digits |
| BackfillOdds.SeasonToCode2024Short | scripts/backfill_odds_football_data.py:141-154 | "2024/25" becomes "2425" |
| BackfillOdds.SeasonToCode2024Long | scripts/backfill_odds_football_data.py:141-154 | "2024/2025" also becomes "2425" |
| BackfillOdds.PickOddsMeaning | scripts/backfill_odds_football_data.py:184-198 | pre-match mode reads the pre-match cell; closing mode reads the closing cell when it is not blank, with no fallback for an unparsable value, and otherwise falls back to the pre-match cell; a blank cell gives none |
| BackfillOdds.ClosingKeyOfHome | scripts/backfill_odds_football_data.py:187 | the closing column of `B365H` is `B365CH` |
| BackfillOdds.SelectedInPayload | scripts/backfill_odds_football_data.py:210-227 | every selected column is in the payload |
| BackfillOdds.SelectedColsMeaning | scripts/backfill_odds_football_data.py:210-227 | the selected columns are exactly the listed ones the insert keeps, in their listed order |
| BackfillOdds.InsertMeaning | scripts/backfill_odds_football_data.py:201-230 | the insert is refused exactly when no listed column qualifies; otherwise it names, in the listed order, every payload column the table can take (an optional column only when the table has it) and no other, each with its payload value |
| BackfillOdds.InsertOddsRow | scripts/backfill_odds_football_data.py:201-230 | the column loop computes the insert of the specification |
| BackfillOdds.YearTailAt | scripts/backfill_odds_football_data.py:147 | the `(\d{2,4})$` group can start at position `k`: two to four digits run from there to the end |
| BackfillOdds.SeasonToCode | scripts/backfill_odds_football_data.py:141-154 | `_season_to_code`: None for an empty text; a bare four-digit code kept as it is; otherwise the last two digits of the leading year and of the tail year, or None when the pattern does not match (SeasonToCodeShape, SeasonToCodeShortLabel, SeasonToCodeLongLabel) |
| BackfillOdds.CodeOf | scripts/backfill_odds_football_data.py:143-154 | the code of an already stripped season text, case by case as above (SeasonToCodeFourDigits) |
| BackfillOdds.TailCode | scripts/backfill_odds_football_data.py:147-154 | the code of a text that starts with a four-digit year: its last two digits followed by the tail year's last two (TailCodeShape, TailAfterSlash) |
| BackfillOdds.Cell | scripts/backfill_odds_football_data.py:189-191 | a row's cell read as `(row.get(key) or "").strip()`, "" when the column is absent |
| BackfillOdds.ClosingKey | scripts/backfill_odds_football_data.py:187 | the closing-odds column: the first `B365` of the pre-match column becomes `B365C` (ClosingKeyOfHome) |
| BackfillOdds.PickOdds | scripts/backfill_odds_football_data.py:184-198 | `pick_odds`: the closing cell in closing mode, falling back to the pre-match cell when it is blank; None for a blank cell or one that is not a number (PickOddsMeaning) |
| BackfillOdds.Keeps | scripts/backfill_odds_football_data.py:211-225 | a column goes into the insert: the payload has it, and the table has it too when it is one of the optional columns |
| BackfillOdds.SelectedCols | scripts/backfill_odds_football_data.py:208-227 | the inserted columns: the allowed columns that are kept, in the allowed order (SelectedColsMeaning) |
| BackfillOdds.InsertOf | scripts/backfill_odds_football_data.py:201-230 | the insert: the selected columns with their payload values, or the error raised when no column is left (InsertMeaning, InsertOddsRow) |
| Sorting.SortBy | app/services/prediction_service.py:588 | `sorted(s, key=key)`: non-decreasing keys and the same elements as `s` |
| Sorting.SortByDesc | app/services/context_service.py:500 | `sorted(s, key=key, reverse=True)`: non-increasing keys and the same elements as `s` |
| Sorting.SortStable | app/services/prediction_service.py:588 | the sort is stable: the elements of any one key come out in their input order |
| Sorting.SortDescStable | app/services/context_service.py:500 | the descending sort is stable too: elements of equal key keep their input order, as Python's `reverse=True` keeps them |
| Sorting.ArgMin | app/services/lineup_refresh_service.py:213-217 | the index `min(s, key=key)` returns: an element with the least key, and the first one among equals |
| Sorting.ArgMax | scripts/tune_schedine_rules.py:309 | the index `max(s, key=key)` returns: an element with the greatest key, and the first one among equals |
| Common.Clamp | scripts/build_features_understat_v5.py:43-44 | `max(lo, min(hi, x))`: the value itself when it lies in [lo, hi], else the nearer bound |
| Common.Round | app/services/context_service.py:234-243 | rounding to `1/scale`: the result is within half a unit of the last place of the value |

## Left out

- Database access, file and JSON loading, HTTP, scraping and the language-model client are not modelled. Rows, reports, feeds and configuration enter as input values.
- Clocks and dates: `now`, kickoff times and quote timestamps are parameters (hours or day numbers). ISO parsing and time zones are not modelled; `_parse_utc`'s outcome is the `Stamp` value (no stamp, unparsable, or a time).
- Floating point: probabilities, odds and stakes are exact reals. In particular the ticket EV is exactly 0 in the model, while in floats it may differ from 0 by a rounding error.
- Rounding: `Common.Round` rounds half-up, while Python's `round` rounds half to even. The two differ only on exact ties.
- Text: case mapping and `strip` are ASCII-only (whitespace is space, `\t` to `\r` and `\x1c` to `\x1f`; the non-ASCII whitespace Python's `str.isspace` also accepts, such as `\x85` and `\xa0`, is not stripped); Unicode case folding, `unicodedata`, `html.unescape` and mojibake repair are not modelled.
- `float()` parsing of strings is `Text.ParseDecimal`, which reads plain decimals only (no exponents, `inf` or `nan`).
- The `difflib` fuzzy branch of `_find_match_id` is the parameter `fuzzy` (the candidates it would return); only the exact lookup is modelled.
- `normalize_person_name` and `clean_person_name` are parameters, not definitions.
- The Poisson kernels `_poisson_pmf` and `_combo_prob` are not modelled: the probabilities they produce are inputs of the pick rules. `_analysis_line` is report text.
- The decay and Elo kernels of the feature script are not modelled: `_weight`, `_time_weighted_mean`, `_weighted_metric`, `_std`, `_elo_expected` and `_compute_elo_index`. Their values are inputs of the schedule and form arithmetic.
- Log-loss (`_logloss_1x2`, `_logloss_binary`) is not modelled, because it needs `log`.
- The per-phase tallies and per-phase ROI of the KPI report are not modelled; the best-pick rule, the Brier scores and the per-market ROI are.
- The `main` functions, CLI argument handling and job orchestration are not modelled; only the pure steps they chain are.
- `_availability_adjustment`, `_apply_lineup_adjustment` and `_extract_form_info` are not modelled: they read the database. Their outputs enter `_apply_adjustment` and the drivers as inputs.
- The derivation of the driver signals in `_build_driver_insights` (the form, fatigue and tempo deltas, and their notes) is not modelled; the drivers are given. Only the drop of near-zero drivers and their ordering are modelled.
- The odds-risk scan does not build each opportunity's match block, date or status, and does not model the SQL query (its time window, competition filter and `LIMIT 40`); the rows are an input.
- `report_to_ui_analyze` is modelled only through its helpers (labels, Kelly fraction, tool status, drivers shown). The rest of the dictionary it assembles is not modelled.
- The per-market maps that `get_kpi_status` copies from the report into its result (`brier_by_market`, `logloss_by_market`, `roi_by_market`) are not modelled. The status, its reasons, the season, the phase and the 1X2 numbers are.
- `bet_id` (a random UUID) and the rationale strings of recommendations are not modelled.
- `_market_label` of the UI adapter is modelled as `UiAdapter.MarketLabel`, but no lemma is stated about it.
- The backfill script computes `has_retrieved` but never uses it to decide whether `retrieved_at_utc` is written. The model follows the code.
- BuildFeatures.FormWeight: requires a non-zero window, because the script divides by the window and raises on zero.
- BuildFeatures.ShrinkToLeague: the prior weight `k` is fixed at 5, the default every caller keeps.
- TuneRules.PickBest: returns None for an empty list of rows, where Python's `max` raises.
- RoutesUiApi.ConfidenceInterval: an interval stored with `lo` or `hi` set to None reads as 0.0 or 1.0 here, where `float(None)` at app/api/v1/routes_ui_api.py:245 raises; the producer of the intervals, `_ci95` (app/services/simulation_service.py:21-26), always writes both ends as numbers, so no such interval arises.
