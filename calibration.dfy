/**
 * Probability calibration (app/core/calibration.py): choosing the
 * calibration table for a league, a season and a season phase, mapping a
 * probability through the bins of its market, and renormalising the 1X2
 * triple and the Over/Under and BTTS pairs.
 */
module Calibration {
  import opened Common
  import opened Calendar

  /** One bin of a market's calibration: probabilities in [lo, hi) become `p`. */
  datatype Bin = Bin(lo: real, hi: real, p: real)

  /**
   * A calibration table (the JSON object). Each field is one of the keys
   * the code reads; a key that holds null, and a `by_league`/`by_season`
   * that is null, read as the empty map where the code writes `or {}`.
   * `others` records any key the code does not read, so that the table
   * is falsy (`not cal`) exactly when it is the empty object.
   */
  datatype Cal = Cal(markets: Option<map<string, seq<Bin>>>,
                     byLeague: Option<map<string, Option<Cal>>>,
                     bySeason: Option<map<string, map<string, Option<Cal>>>>,
                     defaultCal: Option<Cal>,
                     others: bool)

  /** `bool(cal)`: a non-empty object. */
  predicate Truthy(c: Cal)
  {
    c.markets.Some? || c.byLeague.Some? || c.bySeason.Some? || c.defaultCal.Some? || c.others
  }

  /** `not cal` for an optional table. */
  predicate Falsy(cal: Option<Cal>)
  {
    cal.None? || !Truthy(cal.value)
  }

  // ---------------------------------------------------------------- choosing a table

  /** `select_league_calibration`. */
  function SelectLeague(cal: Option<Cal>, league: Option<string>): (r: Option<Cal>)
    ensures Falsy(cal) ==> r.None?
    ensures !Falsy(cal) && league.Some? && league.value != "" && cal.value.byLeague.Some? ==>
      r == (if league.value in cal.value.byLeague.value then cal.value.byLeague.value[league.value] else None)
    ensures !Falsy(cal) && (league.None? || league.value == "" || cal.value.byLeague.None?) ==> r == cal
  {
    if Falsy(cal) then None
    else if league.Some? && league.value != "" && cal.value.byLeague.Some? then
      GetOr(cal.value.byLeague.value, league.value, None)
    else cal
  }

  /** `a or b` on tables: `a` when it is a non-empty table, else `b`. */
  function OrElse(a: Option<Cal>, b: Cal): (r: Cal)
    ensures a.Some? && Truthy(a.value) ==> r == a.value
    ensures a.None? || !Truthy(a.value) ==> r == b
  {
    if a.Some? && Truthy(a.value) then a.value else b
  }

  /** `_season_phase`: None without a kickoff, else the phase of its month. */
  function SeasonPhase(kickoffMonth: Option<Month>): (p: Option<Phase>)
    ensures kickoffMonth.None? <==> p.None?
    ensures kickoffMonth.Some? ==> p == Some(PhaseOfMonth(kickoffMonth.value))
  {
    match kickoffMonth
    case None => None
    case Some(m) => Some(PhaseOfMonth(m))
  }

  /** The `by_season` entry of a season label (None when there is none or the label is None). */
  function SeasonEntry(c: Cal, season: Option<string>): map<string, Option<Cal>>
    requires c.bySeason.Some?
  {
    if season.Some? && season.value in c.bySeason.value then c.bySeason.value[season.value] else map[]
  }

  /** The table has a non-empty `by_season` entry for the season. */
  predicate HasEntry(cal: Option<Cal>, season: Option<string>)
  {
    !Falsy(cal) && cal.value.bySeason.Some? && SeasonEntry(cal.value, season) != map[]
  }

  /** The season's entry has a key for the phase of the kickoff. */
  predicate PhaseHit(cal: Option<Cal>, season: Option<string>, kickoffMonth: Option<Month>)
    requires HasEntry(cal, season)
  {
    kickoffMonth.Some? && PhaseName(PhaseOfMonth(kickoffMonth.value)) in SeasonEntry(cal.value, season)
  }

  /** `select_calibration`. */
  function SelectCalibration(cal: Option<Cal>, season: Option<string>, kickoffMonth: Option<Month>): Option<Cal>
  {
    if Falsy(cal) then None
    else
      var c := cal.value;
      if c.bySeason.None? then Some(c)
      else
        var entry := SeasonEntry(c, season);
        if entry == map[] then Some(OrElse(c.defaultCal, c))
        else
          var phase := SeasonPhase(kickoffMonth);
          if phase.Some? && PhaseName(phase.value) in entry then entry[PhaseName(phase.value)]
          else Some(OrElse(GetOr(entry, "full", None), OrElse(GetOr(entry, "default", None), OrElse(c.defaultCal, c))))
  }

  /**
   * The fallback chain of `select_calibration`: no table gives None; a
   * table without `by_season` is used as it is; a season without an entry
   * gives the table's default or the table; an entry for the kickoff's
   * phase wins; otherwise the season's full table, then the season's
   * default, then the table's default, then the table.
   */
  lemma SelectCalibrationChain(cal: Option<Cal>, season: Option<string>, kickoffMonth: Option<Month>)
    ensures Falsy(cal) ==> SelectCalibration(cal, season, kickoffMonth).None?
    ensures !Falsy(cal) && cal.value.bySeason.None? ==> SelectCalibration(cal, season, kickoffMonth) == cal
    ensures !Falsy(cal) && cal.value.bySeason.Some? && SeasonEntry(cal.value, season) == map[] ==>
      SelectCalibration(cal, season, kickoffMonth) == Some(OrElse(cal.value.defaultCal, cal.value))
    ensures HasEntry(cal, season) && PhaseHit(cal, season, kickoffMonth) ==>
      SelectCalibration(cal, season, kickoffMonth)
        == SeasonEntry(cal.value, season)[PhaseName(PhaseOfMonth(kickoffMonth.value))]
    ensures HasEntry(cal, season) && !PhaseHit(cal, season, kickoffMonth) ==>
      SelectCalibration(cal, season, kickoffMonth)
        == Some(OrElse(GetOr(SeasonEntry(cal.value, season), "full", None),
                       OrElse(GetOr(SeasonEntry(cal.value, season), "default", None),
                              OrElse(cal.value.defaultCal, cal.value))))
  {
  }

  /**
   * Whatever the chain picks is the table itself, its default, or a value
   * stored in the season's entry; and it is None only when there is no
   * table or the phase key of the entry holds null.
   */
  lemma SelectCalibrationSource(cal: Option<Cal>, season: Option<string>, kickoffMonth: Option<Month>)
    ensures var r := SelectCalibration(cal, season, kickoffMonth);
      r.None? || r == cal || (cal.Some? && r == cal.value.defaultCal)
      || (cal.Some? && cal.value.bySeason.Some? && r in SeasonEntry(cal.value, season).Values)
    ensures SelectCalibration(cal, season, kickoffMonth).None? ==>
      Falsy(cal)
      || (HasEntry(cal, season) && PhaseHit(cal, season, kickoffMonth)
          && SeasonEntry(cal.value, season)[PhaseName(PhaseOfMonth(kickoffMonth.value))].None?)
  {
    if !Falsy(cal) && cal.value.bySeason.Some? {
      var c := cal.value;
      var entry := SeasonEntry(c, season);
      if entry != map[] {
        var phase := SeasonPhase(kickoffMonth);
        if !(phase.Some? && PhaseName(phase.value) in entry) {
          var pick := OrElse(GetOr(entry, "full", None), OrElse(GetOr(entry, "default", None), OrElse(c.defaultCal, c)));
          if "full" in entry && GetOr(entry, "full", None).Some? && Truthy(GetOr(entry, "full", None).value) {
            assert Some(pick) == entry["full"];
          } else if "default" in entry && GetOr(entry, "default", None).Some? && Truthy(GetOr(entry, "default", None).value) {
            assert Some(pick) == entry["default"];
          }
        }
      }
    }
  }

  // ---------------------------------------------------------------- mapping and renormalising

  predicate InBin(b: Bin, p: real)
  {
    b.lo <= p < b.hi
  }

  /** `_map_prob`: the value of the first bin that holds `p`, or `p` when none does. */
  function MapProb(bins: seq<Bin>, p: real): (r: real)
    ensures forall i :: 0 <= i < |bins| && InBin(bins[i], p) && (forall j :: 0 <= j < i ==> !InBin(bins[j], p)) ==>
      r == bins[i].p
    ensures (forall i :: 0 <= i < |bins| ==> !InBin(bins[i], p)) ==> r == p
  {
    if bins == [] then p
    else if InBin(bins[0], p) then bins[0].p
    else
      var r := MapProb(bins[1..], p);
      assert forall i :: 1 <= i < |bins| && InBin(bins[i], p) && (forall j :: 0 <= j < i ==> !InBin(bins[j], p)) ==>
        InBin(bins[1..][i - 1], p) && (forall j :: 0 <= j < i - 1 ==> !InBin(bins[1..][j], p));
      r
  }

  const HomeKey: string := "home_win"
  const DrawKey: string := "draw"
  const AwayKey: string := "away_win"
  const OverKey: string := "over_2_5"
  const UnderKey: string := "under_2_5"
  const YesKey: string := "btts_yes"
  const NoKey: string := "btts_no"

  /** The seven probability keys are pairwise different. */
  lemma KeysDistinct()
    ensures HomeKey != DrawKey && HomeKey != AwayKey && DrawKey != AwayKey
    ensures OverKey != UnderKey && YesKey != NoKey
    ensures OverKey !in {HomeKey, DrawKey, AwayKey} && UnderKey !in {HomeKey, DrawKey, AwayKey}
    ensures YesKey !in {HomeKey, DrawKey, AwayKey, OverKey, UnderKey}
    ensures NoKey !in {HomeKey, DrawKey, AwayKey, OverKey, UnderKey}
  {
    assert HomeKey[0] == 'h' && DrawKey[0] == 'd' && AwayKey[0] == 'a' && OverKey[0] == 'o';
    assert UnderKey[0] == 'u' && YesKey[0] == 'b' && NoKey[0] == 'b' && YesKey[5] != NoKey[5];
  }

  /** The calibrated value of `k`: mapped through its market's bins when it has any. */
  function MappedAt(probs: map<string, real>, markets: map<string, seq<Bin>>, k: string): real
    requires k in probs
  {
    var bins := GetOr(markets, k, []);
    if bins != [] then MapProb(bins, probs[k]) else probs[k]
  }

  /** The first loop of `apply_calibration`, over every key of `probs`. */
  function Mapped(probs: map<string, real>, markets: map<string, seq<Bin>>): map<string, real>
  {
    map k | k in probs :: MappedAt(probs, markets, k)
  }

  /** Dividing the 1X2 triple by its sum, when all three are present and the sum is positive. */
  function Norm1x2(m: map<string, real>): map<string, real>
  {
    if HomeKey in m && DrawKey in m && AwayKey in m && m[HomeKey] + m[DrawKey] + m[AwayKey] > 0.0 then
      var s := m[HomeKey] + m[DrawKey] + m[AwayKey];
      m[HomeKey := m[HomeKey] / s][DrawKey := m[DrawKey] / s][AwayKey := m[AwayKey] / s]
    else m
  }

  /** Dividing the pair `x`, `y` by its sum, when both are present and the sum is positive. */
  function NormPair(m: map<string, real>, x: string, y: string): map<string, real>
  {
    if x in m && y in m && m[x] + m[y] > 0.0 then
      var s := m[x] + m[y];
      m[x := m[x] / s][y := m[y] / s]
    else m
  }

  /** The specification of `apply_calibration`. */
  function Calibrated(probs: map<string, real>, cal: Option<Cal>): map<string, real>
  {
    if Falsy(cal) || cal.value.markets.None? then probs
    else NormPair(NormPair(Norm1x2(Mapped(probs, cal.value.markets.value)), OverKey, UnderKey), YesKey, NoKey)
  }

  /** The first loop of `apply_calibration`: a copy of `probs` with each key that has bins mapped through them. */
  method MapKeys(probs: map<string, real>, markets: map<string, seq<Bin>>) returns (out: map<string, real>)
    ensures out == Mapped(probs, markets)
  {
    out := probs;
    var todo := probs.Keys;
    while todo != {}
      invariant todo <= probs.Keys && out.Keys == probs.Keys
      invariant forall k :: k in probs && k !in todo ==> out[k] == MappedAt(probs, markets, k)
      invariant forall k :: k in todo ==> out[k] == probs[k]
      decreases |todo|
    {
      var k :| k in todo;
      var bins := GetOr(markets, k, []);
      if bins != [] {
        out := out[k := MapProb(bins, probs[k])];
      }
      todo := todo - {k};
    }
  }

  /** `apply_calibration`: the mapped copy, then the three renormalisations in place. */
  method ApplyCalibration(probs: map<string, real>, cal: Option<Cal>) returns (out: map<string, real>)
    ensures out == Calibrated(probs, cal)
  {
    if Falsy(cal) || cal.value.markets.None? {
      return probs;
    }
    out := MapKeys(probs, cal.value.markets.value);
    if HomeKey in out && DrawKey in out && AwayKey in out {
      var s := out[HomeKey] + out[DrawKey] + out[AwayKey];
      if s > 0.0 {
        out := out[HomeKey := out[HomeKey] / s][DrawKey := out[DrawKey] / s][AwayKey := out[AwayKey] / s];
      }
    }
    ghost var n := out;
    if OverKey in out && UnderKey in out {
      var s := out[OverKey] + out[UnderKey];
      if s > 0.0 {
        out := out[OverKey := out[OverKey] / s][UnderKey := out[UnderKey] / s];
      }
    }
    assert out == NormPair(n, OverKey, UnderKey);
    ghost var o := out;
    if YesKey in out && NoKey in out {
      var s := out[YesKey] + out[NoKey];
      if s > 0.0 {
        out := out[YesKey := out[YesKey] / s][NoKey := out[NoKey] / s];
      }
    }
    assert out == NormPair(o, YesKey, NoKey);
  }

  /** Calibration returns the input unchanged without a `markets` table, and never adds or drops a key. */
  lemma CalibratedKeys(probs: map<string, real>, cal: Option<Cal>)
    ensures Falsy(cal) || cal.value.markets.None? ==> Calibrated(probs, cal) == probs
    ensures Calibrated(probs, cal).Keys == probs.Keys
  {
  }

  lemma DivSum3(a: real, b: real, c: real)
    requires a + b + c > 0.0
    ensures a / (a + b + c) + b / (a + b + c) + c / (a + b + c) == 1.0
  {
    var s := a + b + c;
    assert a / s + b / s + c / s == (a + b + c) / s;
  }

  lemma DivSum2(a: real, b: real)
    requires a + b > 0.0
    ensures a / (a + b) + b / (a + b) == 1.0
  {
    var s := a + b;
    assert a / s + b / s == (a + b) / s;
  }

  /**
   * After calibration the 1X2 triple sums to 1 whenever its calibrated
   * values are all present with a positive sum, and so do the Over/Under
   * and BTTS pairs.
   */
  lemma CalibratedSumsToOne(probs: map<string, real>, cal: Option<Cal>)
    requires !Falsy(cal) && cal.value.markets.Some?
    ensures var m := Mapped(probs, cal.value.markets.value); var out := Calibrated(probs, cal);
      HomeKey in m && DrawKey in m && AwayKey in m && m[HomeKey] + m[DrawKey] + m[AwayKey] > 0.0 ==>
        out[HomeKey] + out[DrawKey] + out[AwayKey] == 1.0
    ensures var m := Mapped(probs, cal.value.markets.value); var out := Calibrated(probs, cal);
      OverKey in m && UnderKey in m && m[OverKey] + m[UnderKey] > 0.0 ==> out[OverKey] + out[UnderKey] == 1.0
    ensures var m := Mapped(probs, cal.value.markets.value); var out := Calibrated(probs, cal);
      YesKey in m && NoKey in m && m[YesKey] + m[NoKey] > 0.0 ==> out[YesKey] + out[NoKey] == 1.0
  {
    KeysDistinct();
    var m := Mapped(probs, cal.value.markets.value);
    var n := Norm1x2(m);
    var o := NormPair(n, OverKey, UnderKey);
    Norm1x2Sum(m);
    NormPairSum(n, OverKey, UnderKey);
    NormPairSum(o, YesKey, NoKey);
    NormPairOthers(n, OverKey, UnderKey);
    NormPairOthers(o, YesKey, NoKey);
  }

  lemma Norm1x2Sum(m: map<string, real>)
    ensures HomeKey in m && DrawKey in m && AwayKey in m && m[HomeKey] + m[DrawKey] + m[AwayKey] > 0.0 ==>
      Norm1x2(m)[HomeKey] + Norm1x2(m)[DrawKey] + Norm1x2(m)[AwayKey] == 1.0
    ensures forall k :: k in m && k != HomeKey && k != DrawKey && k != AwayKey ==> k in Norm1x2(m) && Norm1x2(m)[k] == m[k]
  {
    KeysDistinct();
    if HomeKey in m && DrawKey in m && AwayKey in m && m[HomeKey] + m[DrawKey] + m[AwayKey] > 0.0 {
      DivSum3(m[HomeKey], m[DrawKey], m[AwayKey]);
    }
  }

  lemma NormPairSum(m: map<string, real>, x: string, y: string)
    requires x != y
    ensures x in m && y in m && m[x] + m[y] > 0.0 ==> NormPair(m, x, y)[x] + NormPair(m, x, y)[y] == 1.0
  {
    if x in m && y in m && m[x] + m[y] > 0.0 {
      DivSum2(m[x], m[y]);
    }
  }

  lemma NormPairOthers(m: map<string, real>, x: string, y: string)
    ensures forall k :: k in m && k != x && k != y ==> k in NormPair(m, x, y) && NormPair(m, x, y)[k] == m[k]
  {
  }

  /** Keys outside the three groups keep their calibrated value: renormalising touches nothing else. */
  lemma CalibratedOtherKeys(probs: map<string, real>, cal: Option<Cal>, k: string)
    requires !Falsy(cal) && cal.value.markets.Some? && k in probs
    requires k !in {HomeKey, DrawKey, AwayKey, OverKey, UnderKey, YesKey, NoKey}
    ensures Calibrated(probs, cal)[k] == MappedAt(probs, cal.value.markets.value, k)
  {
  }
}
