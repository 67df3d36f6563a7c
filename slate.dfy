/**
 * The pick helpers of the daily slate (app/services/slate_service.py):
 * market families, selection buckets, the model probability implied by a
 * pick, the rule filter, the per-match choice by difficulty and the
 * greedy construction of a multiple.
 */
module Slate {
  import opened Common
  import opened Text
  import opened Sorting

  /** A recommendation carried into the slate. */
  datatype SlatePick = SlatePick(matchId: string, market: string, selection: string, bookmaker: string,
                                 odds: real, stakeFraction: real, edge: real, evPerUnit: real)

  datatype Multiple = Multiple(difficulty: string, legs: seq<SlatePick>, totalOdds: Option<real>)

  // ---------------------------------------------------------------- families and buckets

  /** The market literals the helpers compare against are told apart by their first characters. */
  lemma MarketLiterals()
    ensures !StartsWith("1X2", "OU_") && !StartsWith("BTTS", "OU_")
    ensures !StartsWith("RESULT", "OU_") && !StartsWith("TOTALS", "OU_")
    ensures "1X2" != "BTTS"
  {
    assert "1X2"[0] != "OU_"[0] && "BTTS"[0] != "OU_"[0];
    assert "RESULT"[0] != "OU_"[0] && "TOTALS"[0] != "OU_"[0];
    assert "1X2"[0] != "BTTS"[0];
  }

  /** `_family`: the market group a pick belongs to. */
  function Family(market: string): string
  {
    var m := Upper(market);
    if m == "1X2" then "RESULT"
    else if StartsWith(m, "OU_") then "TOTALS"
    else if m == "BTTS" then "BTTS"
    else m
  }

  /** 1X2 is RESULT, every OU_ market TOTALS, BTTS itself, any other market its upper-cased name. */
  lemma FamilyCases(market: string)
    ensures Upper(market) == "1X2" ==> Family(market) == "RESULT"
    ensures StartsWith(Upper(market), "OU_") ==> Family(market) == "TOTALS"
    ensures Upper(market) == "BTTS" ==> Family(market) == "BTTS"
    ensures Upper(market) != "1X2" && !StartsWith(Upper(market), "OU_") && Upper(market) != "BTTS" ==>
      Family(market) == Upper(market)
  {
    MarketLiterals();
  }

  /** A family is its own family: grouping twice changes nothing. */
  lemma FamilyIdempotent(market: string)
    ensures Family(Family(market)) == Family(market)
  {
    var m := Upper(market);
    UpperIdempotent(market);
    MarketLiterals();
    assert Upper("RESULT") == "RESULT";
    assert Upper("TOTALS") == "TOTALS";
    assert Upper("BTTS") == "BTTS";
  }

  /** `_selection_bucket`: the side of the market a pick takes. */
  function SelectionBucket(market: string, selection: string): string
  {
    var m, s := Upper(market), Upper(selection);
    if m == "1X2" then s
    else if StartsWith(m, "OU_") then (if s == "OVER" then "OVER" else "UNDER")
    else if m == "BTTS" then (if s == "YES" then "YES" else "NO")
    else s
  }

  /**
   * The bucket is the upper-cased selection, except that every totals
   * selection other than OVER counts as UNDER and every BTTS selection
   * other than YES counts as NO.
   */
  lemma BucketCases(market: string, selection: string)
    ensures Upper(market) != "1X2" && StartsWith(Upper(market), "OU_") ==>
      (SelectionBucket(market, selection) == "OVER" <==> Upper(selection) == "OVER")
      && (SelectionBucket(market, selection) != "OVER" ==> SelectionBucket(market, selection) == "UNDER")
    ensures Upper(market) == "BTTS" ==>
      (SelectionBucket(market, selection) == "YES" <==> Upper(selection) == "YES")
      && (SelectionBucket(market, selection) != "YES" ==> SelectionBucket(market, selection) == "NO")
    ensures Upper(market) == "1X2" || (!StartsWith(Upper(market), "OU_") && Upper(market) != "BTTS") ==>
      SelectionBucket(market, selection) == Upper(selection)
  {
    MarketLiterals();
  }

  // ---------------------------------------------------------------- the rule filter

  /**
   * `_model_prob_from_pick`: the probability at which the pick's odds give
   * its expected edge, floored at 0.
   */
  function ModelProb(p: SlatePick): (r: real)
    ensures r >= 0.0
    ensures p.odds <= 0.0 ==> r == 0.0
    ensures p.odds > 0.0 && p.edge >= -1.0 ==> r * p.odds == p.edge + 1.0
    ensures p.odds > 0.0 && p.edge < -1.0 ==> r == 0.0
  {
    if p.odds <= 0.0 then 0.0 else Max(0.0, (p.edge + 1.0) / p.odds)
  }

  /** The thresholds `_filter_pick` reads, with absent keys at their defaults. */
  datatype FilterRules = FilterRules(minProb: real, minEdge: real, maxOdds: Option<real>, minOdds: Option<real>)

  /** `rules.get(...)` with the defaults of `_filter_pick`: 0.0 for the minima, no odds bounds. */
  function FilterRulesOf(rules: map<string, real>): (fr: FilterRules)
    ensures fr.minProb == (if "min_prob" in rules then rules["min_prob"] else 0.0)
    ensures fr.minEdge == (if "min_edge" in rules then rules["min_edge"] else 0.0)
    ensures fr.maxOdds.Some? <==> "max_odds" in rules
    ensures fr.minOdds.Some? <==> "min_odds" in rules
  {
    FilterRules(GetOr(rules, "min_prob", 0.0), GetOr(rules, "min_edge", 0.0),
                Get(rules, "max_odds"), Get(rules, "min_odds"))
  }

  /** `_filter_pick`: the pick passes exactly when every configured threshold holds. */
  function FilterPick(p: SlatePick, rules: map<string, real>): (ok: bool)
    ensures ok <==>
      ModelProb(p) >= GetOr(rules, "min_prob", 0.0)
      && p.edge >= GetOr(rules, "min_edge", 0.0)
      && ("max_odds" in rules ==> p.odds <= rules["max_odds"])
      && ("min_odds" in rules ==> p.odds >= rules["min_odds"])
  {
    var fr := FilterRulesOf(rules);
    if ModelProb(p) < fr.minProb then false
    else if p.edge < fr.minEdge then false
    else if fr.maxOdds.Some? && p.odds > fr.maxOdds.value then false
    else if fr.minOdds.Some? && p.odds < fr.minOdds.value then false
    else true
  }

  // ---------------------------------------------------------------- one pick per match

  function OddsKey(p: SlatePick): Key { (p.odds, 0.0) }

  function DistanceKey(p: SlatePick): Key { (Abs(p.odds - 2.2), 0.0) }

  /**
   * `_pick_from_match`: nothing for no picks; otherwise the first pick
   * with the lowest odds (safe), the highest odds (risky) or the odds
   * closest to 2.2 (any other mode).
   */
  function PickFromMatch(picks: seq<SlatePick>, mode: string): (r: Option<SlatePick>)
    ensures r.None? <==> picks == []
    ensures r.Some? ==> r.value in picks
    ensures r.Some? && mode == "safe" ==>
      forall j :: 0 <= j < |picks| ==> r.value.odds <= picks[j].odds
    ensures r.Some? && mode != "safe" && mode == "risky" ==>
      forall j :: 0 <= j < |picks| ==> r.value.odds >= picks[j].odds
    ensures r.Some? && mode != "safe" && mode != "risky" ==>
      forall j :: 0 <= j < |picks| ==> Abs(r.value.odds - 2.2) <= Abs(picks[j].odds - 2.2)
    ensures r.Some? ==>
      exists i :: 0 <= i < |picks| && picks[i] == r.value && forall j :: 0 <= j < i ==> picks[j] != r.value
  {
    if picks == [] then None
    else
      var i :=
        if mode == "safe" then ArgMin(picks, OddsKey)
        else if mode == "risky" then ArgMax(picks, OddsKey)
        else ArgMin(picks, DistanceKey);
      FirstOccurrence(picks, i);
      Some(picks[i])
  }

  /** Some index at or before `i` is the first occurrence of `s[i]`. */
  lemma FirstOccurrence<T>(s: seq<T>, i: nat)
    requires i < |s|
    ensures exists k :: 0 <= k < |s| && s[k] == s[i] && forall j :: 0 <= j < k ==> s[j] != s[i]
  {
    var k := 0;
    while s[k] != s[i]
      invariant 0 <= k <= i
      invariant forall j :: 0 <= j < k ==> s[j] != s[i]
      decreases i - k
    {
      k := k + 1;
    }
  }

  /** The first pick of the safe mode is never beaten by an earlier pick with equal odds. */
  lemma SafePickIsFirstCheapest(picks: seq<SlatePick>)
    requires picks != []
    ensures exists i :: (0 <= i < |picks| && PickFromMatch(picks, "safe") == Some(picks[i])
      && (forall j :: 0 <= j < |picks| ==> picks[i].odds <= picks[j].odds)
      && (forall j :: 0 <= j < i ==> picks[j].odds > picks[i].odds))
  {
    var i := ArgMin(picks, OddsKey);
    assert PickFromMatch(picks, "safe") == Some(picks[i]);
    forall j | 0 <= j < i ensures picks[j].odds > picks[i].odds {
      assert !KeyLe(OddsKey(picks[j]), OddsKey(picks[i]));
    }
    forall j | 0 <= j < |picks| ensures picks[i].odds <= picks[j].odds {
      assert KeyLe(OddsKey(picks[i]), OddsKey(picks[j]));
    }
  }

  // ---------------------------------------------------------------- multiples

  /** The order `_build_multiple` walks the pool in, by difficulty; ties go to the larger edge. */
  function OrderKey(difficulty: string): SlatePick -> Key
  {
    if difficulty == "safe" then (p: SlatePick) => (p.odds, -p.edge)
    else if difficulty == "risky" then (p: SlatePick) => (-p.odds, -p.edge)
    else (p: SlatePick) => (Abs(p.odds - 2.2), -p.edge)
  }

  /** One leg per family for safe and medium multiples, two otherwise. */
  function MaxPerFamily(difficulty: string): (n: int)
    ensures n == 1 || n == 2
  {
    if difficulty == "safe" || difficulty == "medium" then 1 else 2
  }

  /**
   * The (family, selection bucket) a pick counts against. The passes below
   * take the grouping as a parameter `group`; `_build_multiple` uses
   * `GroupOf`, that is `_family` and `_selection_bucket`.
   */
  type Group = (string, string)

  function GroupOf(p: SlatePick): Group
  {
    (Family(p.market), SelectionBucket(p.market, p.selection))
  }

  /** How many of the chosen legs are in family `f` (`fam_counts[f]`). */
  function FamCount(chosen: seq<SlatePick>, group: SlatePick -> Group, f: string): nat
    decreases |chosen|
  {
    if chosen == [] then 0
    else FamCount(chosen[..|chosen| - 1], group, f) + (if group(chosen[|chosen| - 1]).0 == f then 1 else 0)
  }

  /** How many of the chosen legs are in group `g` (`sel_counts[g]`). */
  function SelCount(chosen: seq<SlatePick>, group: SlatePick -> Group, g: Group): nat
    decreases |chosen|
  {
    if chosen == [] then 0
    else SelCount(chosen[..|chosen| - 1], group, g) + (if group(chosen[|chosen| - 1]) == g then 1 else 0)
  }

  /** At most `maxPer` legs per family and at most two per (family, bucket). */
  ghost predicate Capped(chosen: seq<SlatePick>, group: SlatePick -> Group, maxPer: int)
  {
    (forall f :: FamCount(chosen, group, f) <= maxPer) && (forall g :: SelCount(chosen, group, g) <= 2)
  }

  /** The family of `p`, or its (family, bucket), already has as many legs as allowed. */
  predicate Full(chosen: seq<SlatePick>, group: SlatePick -> Group, p: SlatePick, maxPer: int)
  {
    FamCount(chosen, group, group(p).0) >= maxPer || SelCount(chosen, group, group(p)) >= 2
  }

  /**
   * The first pass: take each pick whose family and (family, bucket) are
   * still under their limits, and stop right after the pick that makes
   * `legs` (so one leg is taken even when `legs < 1`).
   */
  function FirstPass(ps: seq<SlatePick>, chosen: seq<SlatePick>, group: SlatePick -> Group,
                     maxPer: int, legs: int): seq<SlatePick>
    decreases |ps|
  {
    if ps == [] then chosen
    else if Full(chosen, group, ps[0], maxPer) then FirstPass(ps[1..], chosen, group, maxPer, legs)
    else if |chosen| + 1 >= legs then chosen + [ps[0]]
    else FirstPass(ps[1..], chosen + [ps[0]], group, maxPer, legs)
  }

  /** The second pass: top up with picks not yet chosen, in order, until `legs` are chosen. */
  function SecondPass(ps: seq<SlatePick>, chosen: seq<SlatePick>, legs: int): seq<SlatePick>
    decreases |ps|
  {
    if ps == [] then chosen
    else if ps[0] in chosen then SecondPass(ps[1..], chosen, legs)
    else if |chosen| + 1 >= legs then chosen + [ps[0]]
    else SecondPass(ps[1..], chosen + [ps[0]], legs)
  }

  /** The legs of `_build_multiple`. */
  function Legs(picks: seq<SlatePick>, difficulty: string, legs: int): seq<SlatePick>
  {
    var ordered := SortBy(picks, OrderKey(difficulty));
    var first := FirstPass(ordered, [], GroupOf, MaxPerFamily(difficulty), legs);
    if |first| < legs then SecondPass(ordered, first, legs) else first
  }

  function OddsOf(legs: seq<SlatePick>): (r: seq<real>)
    ensures |r| == |legs| && forall i :: 0 <= i < |legs| ==> r[i] == legs[i].odds
  {
    seq(|legs|, i requires 0 <= i < |legs| => legs[i].odds)
  }

  /** `math.prod` of the leg odds, or None for no legs. */
  function TotalOdds(legs: seq<SlatePick>): (r: Option<real>)
    ensures r.None? <==> legs == []
  {
    if legs == [] then None else Some(Product(OddsOf(legs)))
  }

  /** Adding a leg multiplies the combined odds by its odds. */
  lemma TotalOddsAppend(legs: seq<SlatePick>, p: SlatePick)
    ensures TotalOdds(legs + [p]).Some?
    ensures TotalOdds(legs + [p]).value == (if legs == [] then 1.0 else TotalOdds(legs).value) * p.odds
  {
    assert OddsOf(legs + [p]) == OddsOf(legs) + [p.odds];
    ProductAppend(OddsOf(legs), p.odds);
    if legs == [] {
      assert OddsOf(legs) == [];
    }
  }

  lemma CountsAppend(chosen: seq<SlatePick>, group: SlatePick -> Group, p: SlatePick)
    ensures forall f :: FamCount(chosen + [p], group, f) == FamCount(chosen, group, f) + (if group(p).0 == f then 1 else 0)
    ensures forall g :: SelCount(chosen + [p], group, g) == SelCount(chosen, group, g) + (if group(p) == g then 1 else 0)
  {
    assert (chosen + [p])[..|chosen|] == chosen;
  }

  /** `fam_counts` and `sel_counts` hold the counts of the chosen legs (absent keys count 0). */
  ghost predicate CountsMatch(famCounts: map<string, int>, selCounts: map<Group, int>,
                              chosen: seq<SlatePick>, group: SlatePick -> Group)
  {
    (forall f :: GetOr(famCounts, f, 0) == FamCount(chosen, group, f))
    && (forall g :: GetOr(selCounts, g, 0) == SelCount(chosen, group, g))
  }

  /** Incrementing both counters of the new leg keeps them in step with the legs. */
  lemma CountsStep(fc: map<string, int>, sc: map<Group, int>, chosen: seq<SlatePick>,
                   group: SlatePick -> Group, p: SlatePick, fc': map<string, int>, sc': map<Group, int>)
    requires CountsMatch(fc, sc, chosen, group)
    requires fc' == fc[group(p).0 := GetOr(fc, group(p).0, 0) + 1]
    requires sc' == sc[group(p) := GetOr(sc, group(p), 0) + 1]
    ensures CountsMatch(fc', sc', chosen + [p], group)
  {
    CountsAppend(chosen, group, p);
  }

  /** The first pass keeps every family at most `maxPer` times and every (family, bucket) at most twice. */
  lemma {:induction false} FirstPassCapped(ps: seq<SlatePick>, chosen: seq<SlatePick>, group: SlatePick -> Group,
                                           maxPer: int, legs: int)
    requires Capped(chosen, group, maxPer)
    ensures Capped(FirstPass(ps, chosen, group, maxPer, legs), group, maxPer)
    decreases |ps|
  {
    if ps != [] {
      var p := ps[0];
      if Full(chosen, group, p, maxPer) {
        FirstPassCapped(ps[1..], chosen, group, maxPer, legs);
      } else {
        CountsAppend(chosen, group, p);
        assert Capped(chosen + [p], group, maxPer);
        if |chosen| + 1 < legs {
          FirstPassCapped(ps[1..], chosen + [p], group, maxPer, legs);
        }
      }
    }
  }

  /** The first pass extends `chosen` with picks of `ps`. */
  lemma {:induction false} FirstPassShape(ps: seq<SlatePick>, chosen: seq<SlatePick>, group: SlatePick -> Group,
                                          maxPer: int, legs: int)
    ensures |FirstPass(ps, chosen, group, maxPer, legs)| >= |chosen|
    ensures FirstPass(ps, chosen, group, maxPer, legs)[..|chosen|] == chosen
    ensures forall k :: |chosen| <= k < |FirstPass(ps, chosen, group, maxPer, legs)| ==>
      FirstPass(ps, chosen, group, maxPer, legs)[k] in ps
    decreases |ps|
  {
    if ps != [] {
      var p := ps[0];
      var r := FirstPass(ps, chosen, group, maxPer, legs);
      if Full(chosen, group, p, maxPer) {
        FirstPassShape(ps[1..], chosen, group, maxPer, legs);
        InTail(ps, r, |chosen|);
      } else if |chosen| + 1 < legs {
        FirstPassShape(ps[1..], chosen + [p], group, maxPer, legs);
        assert (chosen + [p])[..|chosen|] == chosen;
        assert r[..|chosen| + 1][..|chosen|] == r[..|chosen|];
        InTail(ps, r, |chosen| + 1);
      }
    }
  }

  /** The first pass stops by `legs`, or right after one more pick when `chosen` already has that many. */
  lemma {:induction false} FirstPassBound(ps: seq<SlatePick>, chosen: seq<SlatePick>, group: SlatePick -> Group,
                                          maxPer: int, legs: int)
    ensures |FirstPass(ps, chosen, group, maxPer, legs)| <= if legs > |chosen| then legs else |chosen| + 1
    decreases |ps|
  {
    if ps != [] {
      if Full(chosen, group, ps[0], maxPer) {
        FirstPassBound(ps[1..], chosen, group, maxPer, legs);
      } else if |chosen| + 1 < legs {
        FirstPassBound(ps[1..], chosen + [ps[0]], group, maxPer, legs);
      }
    }
  }

  /** Elements of `r` past `n` drawn from `ps[1..]` are elements of `ps`. */
  lemma InTail(ps: seq<SlatePick>, r: seq<SlatePick>, n: int)
    requires ps != [] && n >= 0
    requires forall k :: n <= k < |r| ==> r[k] in ps[1..]
    ensures forall k :: n <= k < |r| ==> r[k] in ps
  {
    forall k | n <= k < |r| ensures r[k] in ps {
      var j :| 0 <= j < |ps[1..]| && ps[1..][j] == r[k];
      assert ps[j + 1] == r[k];
    }
  }

  /** The second pass extends `chosen` with picks of `ps`, stops by `legs`, and short of it has taken everything. */
  lemma {:induction false} SecondPassShape(ps: seq<SlatePick>, chosen: seq<SlatePick>, legs: int)
    requires |chosen| < legs
    ensures |SecondPass(ps, chosen, legs)| >= |chosen|
    ensures SecondPass(ps, chosen, legs)[..|chosen|] == chosen
    ensures forall k :: |chosen| <= k < |SecondPass(ps, chosen, legs)| ==> SecondPass(ps, chosen, legs)[k] in ps
    ensures |SecondPass(ps, chosen, legs)| <= legs
    ensures |SecondPass(ps, chosen, legs)| < legs ==> forall j :: 0 <= j < |ps| ==> ps[j] in SecondPass(ps, chosen, legs)
    decreases |ps|
  {
    if ps != [] {
      var r := SecondPass(ps, chosen, legs);
      if ps[0] in chosen {
        SecondPassShape(ps[1..], chosen, legs);
        InTail(ps, r, |chosen|);
        if |r| < legs {
          assert ps[0] in r by {
            var k :| 0 <= k < |chosen| && chosen[k] == ps[0];
            assert r[k] == chosen[k];
          }
          assert forall j :: 1 <= j < |ps| ==> ps[j] == ps[1..][j - 1];
        }
      } else if |chosen| + 1 < legs {
        SecondPassShape(ps[1..], chosen + [ps[0]], legs);
        assert (chosen + [ps[0]])[..|chosen|] == chosen;
        assert r[..|chosen| + 1][..|chosen|] == r[..|chosen|];
        InTail(ps, r, |chosen| + 1);
        if |r| < legs {
          assert r[|chosen|] == ps[0];
          assert forall j :: 1 <= j < |ps| ==> ps[j] == ps[1..][j - 1];
        }
      }
    }
  }

  /**
   * The properties of `_build_multiple`'s legs: at most `legs` of them (one
   * when `legs < 1` and the pool is non-empty), all from the pool, and
   * short of `legs` only once every pick of the pool is among them.
   */
  lemma LegsMeaning(picks: seq<SlatePick>, difficulty: string, legs: int)
    ensures |Legs(picks, difficulty, legs)| <= if legs < 1 then 1 else legs
    ensures forall k :: 0 <= k < |Legs(picks, difficulty, legs)| ==> Legs(picks, difficulty, legs)[k] in picks
    ensures |Legs(picks, difficulty, legs)| < legs ==>
      forall j :: 0 <= j < |picks| ==> picks[j] in Legs(picks, difficulty, legs)
  {
    var ordered := SortBy(picks, OrderKey(difficulty));
    var first := FirstPass(ordered, [], GroupOf, MaxPerFamily(difficulty), legs);
    FirstPassShape(ordered, [], GroupOf, MaxPerFamily(difficulty), legs);
    FirstPassBound(ordered, [], GroupOf, MaxPerFamily(difficulty), legs);
    var r := Legs(picks, difficulty, legs);
    if |first| < legs {
      SecondPassShape(ordered, first, legs);
      assert forall k :: 0 <= k < |first| ==> r[k] == first[k];
    }
    forall k | 0 <= k < |r| ensures r[k] in picks {
      assert r[k] in ordered;
      assert r[k] in multiset(ordered);
    }
    if |r| < legs {
      forall j | 0 <= j < |picks| ensures picks[j] in r {
        assert picks[j] in multiset(ordered);
      }
    }
  }

  /** The first pass alone respects the family and selection limits of the difficulty. */
  lemma FirstPassLimits(picks: seq<SlatePick>, difficulty: string, legs: int)
    ensures var first := FirstPass(SortBy(picks, OrderKey(difficulty)), [], GroupOf, MaxPerFamily(difficulty), legs);
      (forall f :: FamCount(first, GroupOf, f) <= MaxPerFamily(difficulty))
      && (forall g :: SelCount(first, GroupOf, g) <= 2)
  {
    FirstPassCapped(SortBy(picks, OrderKey(difficulty)), [], GroupOf, MaxPerFamily(difficulty), legs);
  }

  /** The first loop of `_build_multiple`, counting legs per family and per (family, bucket). */
  method GreedyPass(ordered: seq<SlatePick>, group: SlatePick -> Group, maxPer: int, legs: int)
    returns (chosen: seq<SlatePick>)
    ensures chosen == FirstPass(ordered, [], group, maxPer, legs)
  {
    chosen := [];
    var famCounts: map<string, int> := map[];
    var selCounts: map<Group, int> := map[];
    var i := 0;
    var done := false;
    while i < |ordered| && !done
      invariant 0 <= i <= |ordered|
      invariant done ==> chosen == FirstPass(ordered, [], group, maxPer, legs)
      invariant !done ==> FirstPass(ordered[i..], chosen, group, maxPer, legs) == FirstPass(ordered, [], group, maxPer, legs)
      invariant CountsMatch(famCounts, selCounts, chosen, group)
      decreases |ordered| - i, if done then 0 else 1
    {
      var p := ordered[i];
      var g := group(p);
      var fam := g.0;
      assert ordered[i..][1..] == ordered[i + 1..];
      assert GetOr(famCounts, fam, 0) == FamCount(chosen, group, fam);
      assert GetOr(selCounts, g, 0) == SelCount(chosen, group, g);
      if GetOr(famCounts, fam, 0) >= maxPer || GetOr(selCounts, g, 0) >= 2 {
        i := i + 1;
      } else {
        ghost var fc, sc, c := famCounts, selCounts, chosen;
        chosen := chosen + [p];
        famCounts := famCounts[fam := GetOr(famCounts, fam, 0) + 1];
        selCounts := selCounts[g := GetOr(selCounts, g, 0) + 1];
        CountsStep(fc, sc, c, group, p, famCounts, selCounts);
        if |chosen| >= legs {
          done := true;
        } else {
          i := i + 1;
        }
      }
    }
  }

  /** The second loop of `_build_multiple`: top up with picks not yet chosen. */
  method TopUp(ordered: seq<SlatePick>, first: seq<SlatePick>, legs: int) returns (chosen: seq<SlatePick>)
    ensures chosen == SecondPass(ordered, first, legs)
  {
    chosen := first;
    var j := 0;
    var stop := false;
    while j < |ordered| && !stop
      invariant 0 <= j <= |ordered|
      invariant stop ==> chosen == SecondPass(ordered, first, legs)
      invariant !stop ==> SecondPass(ordered[j..], chosen, legs) == SecondPass(ordered, first, legs)
      decreases |ordered| - j, if stop then 0 else 1
    {
      var p := ordered[j];
      assert ordered[j..][1..] == ordered[j + 1..];
      if p in chosen {
        j := j + 1;
      } else {
        chosen := chosen + [p];
        if |chosen| >= legs {
          stop := true;
        } else {
          j := j + 1;
        }
      }
    }
  }

  /** `_build_multiple`: the greedy pass under the family limits, then the top-up pass. */
  method BuildMultiple(picks: seq<SlatePick>, difficulty: string, legs: int) returns (m: Multiple)
    ensures m.difficulty == difficulty
    ensures m.legs == Legs(picks, difficulty, legs)
    ensures m.totalOdds == TotalOdds(m.legs)
  {
    var ordered := SortBy(picks, OrderKey(difficulty));
    var chosen := GreedyPass(ordered, GroupOf, MaxPerFamily(difficulty), legs);
    if |chosen| < legs {
      chosen := TopUp(ordered, chosen, legs);
    }
    m := Multiple(difficulty, chosen, if chosen == [] then None else Some(Product(OddsOf(chosen))));
  }
}
