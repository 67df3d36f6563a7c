/**
 * The pure helpers of the Understat feature builder: shrinking a team
 * average toward the league average, the clamped form ratio, rest days and
 * recent-match counts before a kickoff, the schedule factor they feed, the
 * form weight of the blend, and the season label of the rows it writes.
 * Instants are real numbers of days.
 */
module BuildFeatures {
  import opened Common
  import opened Text
  import Calendar

  // ---------------------------------------------------------------------
  // `_shrink_to_league`
  // ---------------------------------------------------------------------

  /** The prior weight `k` of `_shrink_to_league`; every caller keeps the default. */
  const ShrinkPrior: nat := 5

  /** `_shrink_to_league(value, league_avg, n)`: a credibility-weighted mean of the two. */
  function ShrinkToLeague(value: real, leagueAvg: real, n: int): real
  {
    if n <= 0 then leagueAvg
    else
      var alpha := n as real / (n + ShrinkPrior) as real;
      alpha * value + (1.0 - alpha) * leagueAvg
  }

  /** The weight `n / (n + k)` of the team's own value lies strictly between 0 and 1. */
  lemma AlphaWithin(n: int)
    requires n > 0
    ensures 0.0 < n as real / (n + ShrinkPrior) as real < 1.0
  {
    var d := (n + ShrinkPrior) as real;
    DivMono(n as real, d, d);
    assert d / d == 1.0;
  }

  /**
   * With no sample the league average is returned; with a sample the
   * result lies between the team's value and the league average, and
   * `league_avg + alpha * (value - league_avg)` with `alpha = n / (n + 5)`.
   */
  lemma ShrinkToLeagueMeaning(value: real, leagueAvg: real, n: int)
    ensures n <= 0 ==> ShrinkToLeague(value, leagueAvg, n) == leagueAvg
    ensures n > 0 ==>
      Min(value, leagueAvg) <= ShrinkToLeague(value, leagueAvg, n) <= Max(value, leagueAvg)
    ensures n > 0 ==>
      ShrinkToLeague(value, leagueAvg, n)
      == leagueAvg + (n as real / (n + ShrinkPrior) as real) * (value - leagueAvg)
  {
    if n > 0 {
      var alpha := n as real / (n + ShrinkPrior) as real;
      AlphaWithin(n);
      assert ShrinkToLeague(value, leagueAvg, n) == leagueAvg + alpha * (value - leagueAvg);
      if value >= leagueAvg {
        MulMono(0.0, alpha, value - leagueAvg);
        MulMono(alpha, 1.0, value - leagueAvg);
      } else {
        MulMono(0.0, alpha, leagueAvg - value);
        MulMono(alpha, 1.0, leagueAvg - value);
      }
    }
  }

  /** The weight of the team's own value grows with its sample size. */
  lemma AlphaMonotone(n1: int, n2: int)
    requires 0 < n1 <= n2
    ensures n1 as real / (n1 + ShrinkPrior) as real <= n2 as real / (n2 + ShrinkPrior) as real
  {
    var a, b := n1 as real, n2 as real;
    var k := ShrinkPrior as real;
    assert a * (b + k) <= b * (a + k) by {
      assert a * (b + k) == a * b + a * k;
      assert b * (a + k) == a * b + b * k;
      MulMono(a, b, k);
    }
    CrossDiv(a, a + k, b, b + k);
  }

  lemma CrossDiv(a: real, c: real, b: real, d: real)
    requires c > 0.0 && d > 0.0 && a * d <= b * c
    ensures a / c <= b / d
  {
    var x, y := a / c, b / d;
    assert a == x * c && b == y * d;
    assert x * c * d <= y * d * c;
    assert (x - y) * (c * d) <= 0.0;
    assert c * d > 0.0;
  }

  /** A larger sample never moves the shrunk value further from the team's own value. */
  lemma ShrinkCloserWithMoreMatches(value: real, leagueAvg: real, n1: int, n2: int)
    requires 0 < n1 <= n2
    ensures Abs(ShrinkToLeague(value, leagueAvg, n2) - value)
      <= Abs(ShrinkToLeague(value, leagueAvg, n1) - value)
  {
    var a1 := n1 as real / (n1 + ShrinkPrior) as real;
    var a2 := n2 as real / (n2 + ShrinkPrior) as real;
    AlphaWithin(n1);
    AlphaWithin(n2);
    AlphaMonotone(n1, n2);
    ShrinkToLeagueMeaning(value, leagueAvg, n1);
    ShrinkToLeagueMeaning(value, leagueAvg, n2);
    var g := leagueAvg - value;
    assert ShrinkToLeague(value, leagueAvg, n1) - value == (1.0 - a1) * g;
    assert ShrinkToLeague(value, leagueAvg, n2) - value == (1.0 - a2) * g;
    ScaledCloser(1.0 - a2, 1.0 - a1, g);
  }

  lemma ScaledCloser(c2: real, c1: real, g: real)
    requires 0.0 <= c2 <= c1
    ensures Abs(c2 * g) <= Abs(c1 * g)
  {
    if g >= 0.0 {
      MulMono(c2, c1, g);
      MulMono(0.0, c2, g);
    } else {
      var h := -g;
      MulMono(c2, c1, h);
      MulMono(0.0, c2, h);
      assert c2 * g == -(c2 * h) && c1 * g == -(c1 * h);
    }
  }

  // ---------------------------------------------------------------------
  // `_ratio_clamp`
  // ---------------------------------------------------------------------

  /** `_clamp(value)`: an expected-goals value held in [0.2, 3.5]. */
  function ClampGoals(value: real): (r: real)
    ensures 0.2 <= r <= 3.5
    ensures 0.2 <= value <= 3.5 ==> r == value
    ensures value < 0.2 ==> r == 0.2
    ensures value > 3.5 ==> r == 3.5
  {
    Clamp(value, 0.2, 3.5)
  }

  /** `_ratio_clamp(num, den)`: the form-to-season ratio held within ±6%. */
  function RatioClamp(num: real, den: real): (r: real)
    ensures den <= 0.0 ==> r == 1.0
    ensures den > 0.0 ==> 0.94 <= r <= 1.06
    ensures den > 0.0 && 0.94 <= num / den <= 1.06 ==> r == num / den
    ensures den > 0.0 && num == den ==> r == 1.0
  {
    if den <= 0.0 then 1.0
    else
      assert num == den ==> num / den == 1.0;
      Clamp(num / den, 0.94, 1.06)
  }

  // ---------------------------------------------------------------------
  // `_rest_days`, `_count_recent`, `_schedule_factor`
  // ---------------------------------------------------------------------

  /**
   * `_rest_days`: days since the most recent earlier match, `dates` listed
   * most recent first; never negative, and none without a previous match.
   */
  function RestDays(dates: seq<real>, kickoff: real): (r: Option<real>)
    ensures r.None? <==> dates == []
    ensures r.Some? ==> r.value >= 0.0
    ensures r.Some? && kickoff >= dates[0] ==> r.value == kickoff - dates[0]
  {
    if dates == [] then None else Some(Max(0.0, kickoff - dates[0]))
  }

  /** The positions of the matches on or after `cutoff`. */
  function InWindow(dates: seq<real>, cutoff: real): set<int>
  {
    set i | 0 <= i < |dates| && dates[i] >= cutoff
  }

  /** `_count_recent`: the matches on or after `days` days before kickoff. */
  function CountRecent(dates: seq<real>, kickoff: real, days: int): (c: nat)
    ensures c == |InWindow(dates, kickoff - days as real)|
    ensures c <= |dates|
  {
    if dates == [] then
      assert InWindow(dates, kickoff - days as real) == {};
      0
    else
      var hit := if dates[|dates| - 1] >= kickoff - days as real then 1 else 0;
      InWindowStep(dates, kickoff - days as real);
      CountRecent(dates[..|dates| - 1], kickoff, days) + hit
  }

  /** The last match adds its own position to the window of the earlier ones, or nothing. */
  lemma InWindowStep(dates: seq<real>, cutoff: real)
    requires dates != []
    ensures var n := |dates| - 1;
      |InWindow(dates, cutoff)| == |InWindow(dates[..n], cutoff)| + (if dates[n] >= cutoff then 1 else 0)
  {
    var n := |dates| - 1;
    var pre := InWindow(dates[..n], cutoff);
    assert n !in pre;
    if dates[n] >= cutoff {
      assert InWindow(dates, cutoff) == pre + {n};
    } else {
      assert InWindow(dates, cutoff) == pre;
    }
  }

  /** A wider look-back window never counts fewer matches. */
  lemma {:induction false} CountRecentMonotone(dates: seq<real>, kickoff: real, d1: int, d2: int)
    requires d1 <= d2
    ensures CountRecent(dates, kickoff, d1) <= CountRecent(dates, kickoff, d2)
    decreases |dates|
  {
    if dates != [] {
      CountRecentMonotone(dates[..|dates| - 1], kickoff, d1, d2);
    }
  }

  /** The count is all the matches exactly when every match falls inside the window. */
  lemma {:induction false} CountRecentAll(dates: seq<real>, kickoff: real, days: int)
    ensures CountRecent(dates, kickoff, days) == |dates|
      <==> forall i :: 0 <= i < |dates| ==> dates[i] >= kickoff - days as real
    decreases |dates|
  {
    if dates != [] {
      var pre := dates[..|dates| - 1];
      CountRecentAll(pre, kickoff, days);
      assert forall i :: 0 <= i < |pre| ==> pre[i] == dates[i];
    }
  }

  /** The rest-day adjustment: ±1.5% per day away from five days, at most ±8%. */
  function RestAdjustment(restDays: Option<real>): (a: real)
    ensures -0.08 <= a <= 0.08
    ensures restDays.None? ==> a == 0.0
  {
    if restDays.None? then 0.0 else Clamp((restDays.value - 5.0) * 0.015, -0.08, 0.08)
  }

  /** The congestion deductions for two or three matches in 7 days and four in 14. */
  function Congestion(matches7d: int, matches14d: int): (c: real)
    ensures 0.0 <= c <= 0.07
  {
    (if matches7d >= 2 then 0.03 else 0.0)
    + (if matches7d >= 3 then 0.02 else 0.0)
    + (if matches14d >= 4 then 0.02 else 0.0)
  }

  /** `_schedule_factor`. */
  function ScheduleFactor(restDays: Option<real>, matches7d: int, matches14d: int): real
  {
    Clamp(1.0 + RestAdjustment(restDays) - Congestion(matches7d, matches14d), 0.85, 1.08)
  }

  /**
   * The factor lies in [0.85, 1.08]; in fact the unclamped sum already
   * does, so the final clamp never changes it. No rest information and no
   * congestion give exactly 1.
   */
  lemma ScheduleFactorMeaning(restDays: Option<real>, matches7d: int, matches14d: int)
    ensures 0.85 <= ScheduleFactor(restDays, matches7d, matches14d) <= 1.08
    ensures ScheduleFactor(restDays, matches7d, matches14d)
      == 1.0 + RestAdjustment(restDays) - Congestion(matches7d, matches14d)
    ensures restDays.None? && matches7d < 2 && matches14d < 4 ==>
      ScheduleFactor(restDays, matches7d, matches14d) == 1.0
  {
  }

  /** More rest never lowers the factor, and more matches never raise it. */
  lemma ScheduleFactorMonotone(r1: real, r2: real, a7: int, b7: int, a14: int, b14: int)
    requires r1 <= r2 && b7 <= a7 && b14 <= a14
    ensures ScheduleFactor(Some(r1), a7, a14) <= ScheduleFactor(Some(r2), b7, b14)
  {
    assert (r1 - 5.0) * 0.015 <= (r2 - 5.0) * 0.015;
  }

  // ---------------------------------------------------------------------
  // Form weight and blend
  // ---------------------------------------------------------------------

  /** `min(0.8, len(rows) / float(window))`; a zero window is a division error in the script. */
  function FormWeight(rows: nat, window: int): (w: real)
    requires window != 0
    ensures window > 0 ==> 0.0 <= w <= 0.8
    ensures window > 0 && rows as real <= 0.8 * window as real ==> w == rows as real / window as real
  {
    Min(0.8, rows as real / window as real)
  }

  /** The form/season blend with form weight `w` and season weight `1 - w`. */
  function Blend(w: real, form: real, season: real): real
  {
    w * form + (1.0 - w) * season
  }

  /** A share `w` in [0, 1] of a non-negative amount `e` lies in [0, e]. */
  lemma ShareWithin(w: real, e: real)
    requires 0.0 <= w <= 1.0 && e >= 0.0
    ensures 0.0 <= w * e <= e
  {
    MulMono(0.0, w, e);
    MulMono(0.0, 1.0 - w, e);
    assert (1.0 - w) * e == e - w * e;
  }

  /** With a weight in [0, 1] the blend lies between the form and season values. */
  lemma BlendBetween(w: real, form: real, season: real)
    requires 0.0 <= w <= 1.0
    ensures Min(form, season) <= Blend(w, form, season) <= Max(form, season)
  {
    BlendShift(w, form, season);
    if form >= season {
      ShareWithin(w, form - season);
    } else {
      ShareWithin(w, season - form);
    }
  }

  /** The blend is the season value moved by a share `w` of the gap to the form value. */
  lemma BlendShift(w: real, form: real, season: real)
    ensures Blend(w, form, season) == season + w * (form - season)
    ensures Blend(w, form, season) == season - w * (season - form)
  {
    assert (1.0 - w) * season == season - w * season;
    assert w * (form - season) == w * form - w * season;
    assert w * (season - form) == w * season - w * form;
  }

  // ---------------------------------------------------------------------
  // `_season_label`
  // ---------------------------------------------------------------------

  /** The builder labels the 2025 season "2025/26". */
  lemma SeasonLabel2025()
    ensures Calendar.SeasonLabel(2025) == "2025/26"
  {
    Calendar.SeasonLabelOfYear(2025);
    assert NatToString(2) == "2";
    assert NatToString(20) == "20";
    assert NatToString(202) == "202";
    assert NatToString(2025) == "2025";
    assert DigitChar(((2025 + 1) / 10) % 10) == '2' && DigitChar((2025 + 1) % 10) == '6';
    var lab := NatToString(2025) + "/" + ['2', '6'];
    assert |lab| == 7 && forall i :: 0 <= i < 7 ==> lab[i] == "2025/26"[i];
  }
}
