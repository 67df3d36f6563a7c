/**
 * The KPI gate of the prediction service (app/services/kpi_service.py):
 * the KPI report written by the reporting script is read (through a
 * ten-minute cache), the entry for the league, season and season phase of
 * a match is found, and its log loss, Brier score and ROI are compared
 * with thresholds to give a status OK, WARN or BLOCK with its reasons.
 */
module KpiService {
  import opened Common
  import opened Text
  import opened Calendar

  // ---------------------------------------------------------------------
  // Season label and phase
  // ---------------------------------------------------------------------

  /**
   * `_season_label`: a label that already holds a slash is kept (after
   * stripping); otherwise a string starting with four digits `YYYY`
   * becomes `YYYY/YY`; anything else, and a missing or empty season, gives
   * None.
   */
  function SeasonLabelOf(seasonValue: Option<string>): (r: Option<string>)
    ensures r.Some? <==>
      seasonValue.Some? && seasonValue.value != "" &&
      (Contains(Strip(seasonValue.value), "/") ||
       (|Strip(seasonValue.value)| >= 4 && IsDigits(Strip(seasonValue.value)[..4])))
    ensures seasonValue.Some? && seasonValue.value != "" && Contains(Strip(seasonValue.value), "/") ==>
      r == Some(Strip(seasonValue.value))
  {
    if seasonValue.None? || seasonValue.value == "" then None
    else
      var s := Strip(seasonValue.value);
      if Contains(s, "/") then Some(s)
      else if |s| >= 4 && IsDigits(s[..4]) then Some(SeasonLabel(DigitsValue(s[..4])))
      else None
  }

  /**
   * The year rule: a season that (after stripping) starts with a year from
   * 1000 to 9998 and holds no slash is labelled with that year, a slash and
   * the next year's last two digits; the label has seven characters.
   */
  lemma SeasonLabelOfStartYear(v: string)
    requires v != [] && !Contains(Strip(v), "/")
    requires |Strip(v)| >= 4 && IsDigits(Strip(v)[..4])
    requires 1000 <= DigitsValue(Strip(v)[..4]) <= 9998
    ensures SeasonLabelOf(Some(v)).Some?
    ensures SeasonLabelOf(Some(v)).value ==
      NatToString(DigitsValue(Strip(v)[..4])) + "/" +
      [DigitChar(((DigitsValue(Strip(v)[..4]) + 1) / 10) % 10), DigitChar((DigitsValue(Strip(v)[..4]) + 1) % 10)]
    ensures |SeasonLabelOf(Some(v)).value| == 7
  {
    var s := Strip(v);
    var start := DigitsValue(s[..4]);
    assert SeasonLabelOf(Some(v)) == Some(SeasonLabel(start));
    SeasonLabelOfYear(start);
  }

  /** The season "2024" is labelled "2024/25". */
  lemma SeasonLabelOfPlainYear()
    ensures SeasonLabelOf(Some("2024")) == Some("2024/25")
  {
    StripPlain("2024");
    NoSlash2024();
    Digits2024();
    SeasonLabelOfStartYear("2024");
    NextYearDigits2024();
    Label2024();
  }

  lemma NextYearDigits2024()
    ensures DigitChar(((2024 + 1) / 10) % 10) == '2' && DigitChar((2024 + 1) % 10) == '5'
  {
  }

  lemma Label2024()
    ensures NatToString(2024) + "/" + ['2', '5'] == "2024/25"
  {
    Digits2024();
    var lab := NatToString(2024) + "/" + ['2', '5'];
    assert |lab| == 7 && forall i :: 0 <= i < 7 ==> lab[i] == "2024/25"[i];
  }

  lemma NoSlash2024()
    ensures !Contains("2024", "/")
  {
    NotContainsChar("2024", '/');
  }

  /** A character that does not occur in `s` is not a substring of it. */
  lemma {:induction false} NotContainsChar(s: string, c: char)
    requires c !in s
    ensures !Contains(s, [c])
    decreases |s|
  {
    if s != [] {
      assert s[..1] == [s[0]];
      NotContainsChar(s[1..], c);
    }
  }

  lemma Digits2024()
    ensures "2024"[..4] == "2024" && IsDigits("2024") && DigitsValue("2024") == 2024
    ensures NatToString(2024) == "2024"
  {
    var y := "2024";
    assert y[..4] == y;
    assert DigitsValue(y[..1]) == 2;
    assert y[..2][..1] == y[..1];
    assert DigitsValue(y[..2]) == 20;
    assert y[..3][..2] == y[..2];
    assert DigitsValue(y[..3]) == 202;
    assert y[..3] == y[..|y| - 1];
    assert NatToString(202) == NatToString(20) + "2";
    assert NatToString(2024) == NatToString(202) + "4";
  }

  /** The season " 2024/2025 " keeps its slash form, stripped. */
  lemma SeasonLabelOfSlashForm()
    ensures SeasonLabelOf(Some(" 2024/2025 ")) == Some("2024/2025")
  {
    var v := "2024/2025";
    var w := " 2024/2025 ";
    assert w == [' '] + v + [' '];
    StripPadded(v);
    SlashIn20242025();
    SeasonLabelOfSlash(w, v);
  }

  lemma SlashIn20242025()
    ensures Contains("2024/2025", "/")
  {
    var v := "2024/2025";
    assert v[4..][..1] == "/";
    ContainsAt(v, "/", 4);
  }

  /** A season whose stripped form `t` holds a slash is labelled `t`. */
  lemma SeasonLabelOfSlash(v: string, t: string)
    requires v != "" && Strip(v) == t && Contains(t, "/")
    ensures SeasonLabelOf(Some(v)) == Some(t)
  {
  }

  /** `_phase_for_date`: no kickoff gives no phase, a kickoff gives its month's phase. */
  function PhaseForDate(kickoffMonth: Option<Month>): (p: Option<Phase>)
    ensures kickoffMonth.None? <==> p.None?
    ensures kickoffMonth.Some? ==> p == Some(PhaseOfMonth(kickoffMonth.value))
  {
    if kickoffMonth.None? then None
    else
      var m := kickoffMonth.value;
      if m == 8 || m == 9 || m == 10 then Some(Early)
      else if m == 11 || m == 12 || m == 1 || m == 2 then Some(Mid)
      else Some(Late)
  }

  // ---------------------------------------------------------------------
  // The report
  // ---------------------------------------------------------------------

  /** The `roi_by_market["1X2"]` entry when it is an object; its fields may be null. */
  datatype RoiInfo = RoiInfo(roi: Option<real>, picks: Option<int>)

  /**
   * A season or phase entry of the report. `brier` and `byPhase` hold what
   * the entry stores under "brier" and "by_phase" (a missing or null value
   * reads as empty); `others` records whether the entry has keys besides
   * the ones modelled here, which only matters for its truthiness.
   */
  datatype Entry = Entry(
    brier: map<string, Option<real>>,
    logloss: Option<real>,
    roi1x2: Option<RoiInfo>,
    byPhase: map<string, Entry>,
    hasBrier: bool,
    others: bool)

  /** A JSON object is truthy when it has a key. */
  predicate EntryTruthy(e: Entry)
  {
    e.hasBrier || e.logloss.Some? || e.roi1x2.Some? || e.byPhase != map[] || e.others
  }

  /** One league's part of the report. */
  datatype LeagueReport = LeagueReport(bySeason: map<string, Entry>)

  /**
   * The whole report: with `byLeague` it holds one part per league (whose
   * null entries read as None); without it the top level is a single
   * league's report, possibly naming that league.
   */
  datatype Report = Report(
    byLeague: Option<map<string, Option<LeagueReport>>>,
    league: Option<string>,
    bySeason: map<string, Entry>)

  /** `_brier_1x2_avg`: the mean of the three 1X2 Brier parts, None when one is missing. */
  function Brier1x2Avg(brier: map<string, Option<real>>): (r: Option<real>)
    ensures r.Some? <==>
      "home_win" in brier && brier["home_win"].Some? &&
      "draw" in brier && brier["draw"].Some? &&
      "away_win" in brier && brier["away_win"].Some?
    ensures r.Some? ==> r.value * 3.0 == brier["home_win"].value + brier["draw"].value + brier["away_win"].value
  {
    if brier == map[] then None
    else
      var h := GetOr(brier, "home_win", None);
      var d := GetOr(brier, "draw", None);
      var a := GetOr(brier, "away_win", None);
      if h.None? || d.None? || a.None? then None
      else Some((h.value + d.value + a.value) / 3.0)
  }

  /** The mean of three parts lies between their least and their greatest. */
  lemma Brier1x2AvgBetween(brier: map<string, Option<real>>, lo: real, hi: real)
    requires Brier1x2Avg(brier).Some?
    requires forall k :: k in brier && brier[k].Some? ==> lo <= brier[k].value <= hi
    ensures lo <= Brier1x2Avg(brier).value <= hi
  {
    assert "home_win" in brier && "draw" in brier && "away_win" in brier;
  }

  /** The league part the status is read from, or None when the report has none for `competition`. */
  function LeagueOf(report: Report, competition: string): (r: Option<LeagueReport>)
    ensures report.byLeague.Some? ==> r == GetOr(report.byLeague.value, competition, None)
    ensures report.byLeague.None? && report.league.Some? && report.league.value != "" && report.league.value != competition ==> r.None?
    ensures report.byLeague.None? && (report.league.None? || report.league.value == "" || report.league.value == competition) ==>
      r == Some(LeagueReport(report.bySeason))
  {
    if report.byLeague.Some? then GetOr(report.byLeague.value, competition, None)
    else if report.league.Some? && report.league.value != "" && report.league.value != competition then None
    else Some(LeagueReport(report.bySeason))
  }

  /** The season entry for the label, when it exists and is not empty. */
  function SeasonEntryOf(league: LeagueReport, seasonLabel: Option<string>): (r: Option<Entry>)
    ensures r.Some? <==> seasonLabel.Some? && seasonLabel.value != "" && seasonLabel.value in league.bySeason && EntryTruthy(league.bySeason[seasonLabel.value])
    ensures r.Some? ==> r.value == league.bySeason[seasonLabel.value]
  {
    if seasonLabel.None? || seasonLabel.value == "" then None
    else match Get(league.bySeason, seasonLabel.value)
      case None => None
      case Some(e) => if EntryTruthy(e) then Some(e) else None
  }

  /** The entry whose numbers are used: the phase entry when there is a non-empty one, else the season entry. */
  function TargetOf(season: Entry, phase: Option<Phase>): (r: Entry)
    ensures phase.Some? && PhaseName(phase.value) in season.byPhase && EntryTruthy(season.byPhase[PhaseName(phase.value)]) ==>
      r == season.byPhase[PhaseName(phase.value)]
    ensures !(phase.Some? && PhaseName(phase.value) in season.byPhase && EntryTruthy(season.byPhase[PhaseName(phase.value)])) ==>
      r == season
  {
    if phase.None? then season
    else match Get(season.byPhase, PhaseName(phase.value))
      case None => season
      case Some(p) => if EntryTruthy(p) then p else season
  }

  // ---------------------------------------------------------------------
  // Thresholds, status and reasons
  // ---------------------------------------------------------------------

  datatype Thresholds = Thresholds(maxLogloss: real, maxBrier: real, minRoi: real, minRoiPicks: int)

  /** The thresholds used when the caller passes none. */
  const DefaultThresholds := Thresholds(1.12, 0.26, -0.03, 40)

  datatype Status = Ok | Warn | Block

  function StatusName(s: Status): string
  {
    match s
      case Ok => "OK"
      case Warn => "WARN"
      case Block => "BLOCK"
  }

  datatype Reason = LoglossHigh | BrierHigh | RoiNegative

  function ReasonName(r: Reason): string
  {
    match r
      case LoglossHigh => "KPI_LOGLOSS_HIGH"
      case BrierHigh => "KPI_BRIER_HIGH"
      case RoiNegative => "KPI_ROI_NEGATIVE"
  }

  predicate Above(x: Option<real>, limit: real)
  {
    x.Some? && x.value > limit
  }

  /** The ROI condition: enough picks and an ROI under the minimum. */
  predicate RoiLow(roi: Option<real>, picks: Option<int>, t: Thresholds)
  {
    roi.Some? && picks.Some? && picks.value >= t.minRoiPicks && roi.value < t.minRoi
  }

  /** The reasons raised for the given numbers, in the order they are checked. */
  function ReasonsFor(logloss: Option<real>, brier: Option<real>, roi: Option<real>, picks: Option<int>, t: Thresholds): seq<Reason>
  {
    (if Above(logloss, t.maxLogloss) then [LoglossHigh] else []) +
    (if Above(brier, t.maxBrier) then [BrierHigh] else []) +
    (if RoiLow(roi, picks, t) then [RoiNegative] else [])
  }

  /** BLOCK when a blocking reason is raised, else WARN when a reason is raised, else OK. */
  function StatusFor(reasons: seq<Reason>): Status
  {
    if LoglossHigh in reasons || BrierHigh in reasons then Block
    else if reasons != [] then Warn
    else Ok
  }

  /**
   * The status rules: BLOCK exactly when the log loss or the Brier score is
   * over its maximum; WARN exactly when neither is and the ROI is low
   * with enough picks; OK exactly when no reason is raised. Each reason is
   * raised exactly when its condition holds, at most once.
   */
  lemma {:induction false} StatusRules(logloss: Option<real>, brier: Option<real>, roi: Option<real>, picks: Option<int>, t: Thresholds)
    ensures StatusFor(ReasonsFor(logloss, brier, roi, picks, t)) == Block <==> Above(logloss, t.maxLogloss) || Above(brier, t.maxBrier)
    ensures StatusFor(ReasonsFor(logloss, brier, roi, picks, t)) == Warn <==>
      !Above(logloss, t.maxLogloss) && !Above(brier, t.maxBrier) && RoiLow(roi, picks, t)
    ensures StatusFor(ReasonsFor(logloss, brier, roi, picks, t)) == Ok <==> ReasonsFor(logloss, brier, roi, picks, t) == []
    ensures LoglossHigh in ReasonsFor(logloss, brier, roi, picks, t) <==> Above(logloss, t.maxLogloss)
    ensures BrierHigh in ReasonsFor(logloss, brier, roi, picks, t) <==> Above(brier, t.maxBrier)
    ensures RoiNegative in ReasonsFor(logloss, brier, roi, picks, t) <==> RoiLow(roi, picks, t)
    ensures |ReasonsFor(logloss, brier, roi, picks, t)| <= 3
  {
    var a: seq<Reason> := if Above(logloss, t.maxLogloss) then [LoglossHigh] else [];
    var b: seq<Reason> := if Above(brier, t.maxBrier) then [BrierHigh] else [];
    var c: seq<Reason> := if RoiLow(roi, picks, t) then [RoiNegative] else [];
    var rs := ReasonsFor(logloss, brier, roi, picks, t);
    assert rs == a + b + c;
    assert LoglossHigh in rs <==> LoglossHigh in a;
    assert BrierHigh in rs <==> BrierHigh in b;
    assert RoiNegative in rs <==> RoiNegative in c;
  }

  /**
   * The checks of `get_kpi_status`, run one after the other on a reasons
   * list and a status that start as empty and OK.
   */
  method Judge(logloss: Option<real>, brier: Option<real>, roi: Option<real>, picks: Option<int>, t: Thresholds)
    returns (status: Status, reasons: seq<Reason>)
    ensures reasons == ReasonsFor(logloss, brier, roi, picks, t)
    ensures status == StatusFor(reasons)
  {
    reasons := [];
    status := Ok;
    if logloss.Some? && logloss.value > t.maxLogloss {
      reasons := reasons + [LoglossHigh];
      status := Block;
    }
    if brier.Some? && brier.value > t.maxBrier {
      reasons := reasons + [BrierHigh];
      status := Block;
    }
    if roi.Some? && picks.Some? && picks.value >= t.minRoiPicks && roi.value < t.minRoi {
      reasons := reasons + [RoiNegative];
      if status != Block {
        status := Warn;
      }
    }
    StatusRules(logloss, brier, roi, picks, t);
  }

  /** The `KpiStatus` record; the per-market maps it also carries are not modelled. */
  datatype KpiStatus = KpiStatus(
    status: Status,
    season: Option<string>,
    phase: Option<Phase>,
    logloss: Option<real>,
    brier1x2: Option<real>,
    roi1x2: Option<real>,
    picks1x2: Option<int>,
    reasons: seq<Reason>)

  /**
   * `get_kpi_status` on an already loaded report: None when there is no
   * report, no part for the league, or no non-empty entry for the season;
   * otherwise the numbers of the target entry and the status they give.
   */
  function StatusOf(report: Option<Report>, competition: string, season: Option<string>,
                    kickoffMonth: Option<Month>, thresholds: Option<Thresholds>): Option<KpiStatus>
  {
    if report.None? then None
    else match LeagueOf(report.value, competition)
      case None => None
      case Some(league) =>
        var seasonLabel := SeasonLabelOf(season);
        match SeasonEntryOf(league, seasonLabel)
          case None => None
          case Some(entry) =>
            var phase := PhaseForDate(kickoffMonth);
            var target := TargetOf(entry, phase);
            var brier := Brier1x2Avg(target.brier);
            var roi := if target.roi1x2.Some? then target.roi1x2.value.roi else None;
            var picks := if target.roi1x2.Some? then target.roi1x2.value.picks else None;
            var t := if thresholds.Some? then thresholds.value else DefaultThresholds;
            var reasons := ReasonsFor(target.logloss, brier, roi, picks, t);
            Some(KpiStatus(StatusFor(reasons), seasonLabel, phase, target.logloss, brier, roi, picks, reasons))
  }

  /**
   * A status is produced exactly when the report has a part for the league
   * and that part a non-empty entry for the season's label; the season and
   * phase it reports are the label and the kickoff's phase; a non-empty
   * entry for that phase overrides the season entry's numbers.
   */
  lemma StatusOfSelection(report: Option<Report>, competition: string, season: Option<string>,
                          kickoffMonth: Option<Month>, thresholds: Option<Thresholds>)
    ensures StatusOf(report, competition, season, kickoffMonth, thresholds).Some? <==>
      report.Some? && LeagueOf(report.value, competition).Some? &&
      SeasonEntryOf(LeagueOf(report.value, competition).value, SeasonLabelOf(season)).Some?
    ensures StatusOf(report, competition, season, kickoffMonth, thresholds).Some? ==>
      StatusOf(report, competition, season, kickoffMonth, thresholds).value.season == SeasonLabelOf(season) &&
      StatusOf(report, competition, season, kickoffMonth, thresholds).value.phase == PhaseForDate(kickoffMonth) &&
      StatusOf(report, competition, season, kickoffMonth, thresholds).value.logloss ==
        TargetOf(SeasonEntryOf(LeagueOf(report.value, competition).value, SeasonLabelOf(season)).value, PhaseForDate(kickoffMonth)).logloss
  {
  }

  /**
   * The status reported is the one the rules give for its own numbers:
   * BLOCK exactly when its log loss or Brier score is over the maximum,
   * OK exactly when it has no reasons; without thresholds the defaults
   * 1.12, 0.26, -0.03 and 40 apply.
   */
  lemma StatusOfVerdict(report: Option<Report>, competition: string, season: Option<string>,
                        kickoffMonth: Option<Month>, thresholds: Option<Thresholds>)
    requires StatusOf(report, competition, season, kickoffMonth, thresholds).Some?
    ensures var k := StatusOf(report, competition, season, kickoffMonth, thresholds).value;
      var t := if thresholds.Some? then thresholds.value else Thresholds(1.12, 0.26, -0.03, 40);
      (k.status == Block <==> Above(k.logloss, t.maxLogloss) || Above(k.brier1x2, t.maxBrier)) &&
      (k.status == Warn <==> !Above(k.logloss, t.maxLogloss) && !Above(k.brier1x2, t.maxBrier) && RoiLow(k.roi1x2, k.picks1x2, t)) &&
      (k.status == Ok <==> k.reasons == [])
  {
    var k := StatusOf(report, competition, season, kickoffMonth, thresholds).value;
    var t := if thresholds.Some? then thresholds.value else DefaultThresholds;
    StatusRules(k.logloss, k.brier1x2, k.roi1x2, k.picks1x2, t);
  }

  // ---------------------------------------------------------------------
  // The report cache
  // ---------------------------------------------------------------------

  /** What reading the report file gives: no file, unreadable JSON, or a report (None for an empty one). */
  datatype FileRead = Missing | Unreadable | Parsed(data: Option<Report>)

  /**
   * The module-level `_CACHE` of `_load_report`: the time (in minutes) the
   * report was last read and what was read then.
   */
  class ReportCache {
    var loadedAt: Option<real>
    var data: Option<Report>

    constructor ()
      ensures loadedAt.None? && data.None?
    {
      loadedAt := None;
      data := None;
    }

    /** Whether the cached copy is younger than `maxAge` minutes at time `now`. */
    predicate Fresh(now: real, maxAge: real)
      reads this
    {
      loadedAt.Some? && now - loadedAt.value < maxAge
    }

    /**
     * `_load_report`: a fresh cached copy is returned without reading the
     * file; otherwise a missing or unreadable file gives None and leaves the
     * cache as it was, and a parsed file is returned and cached with the
     * time `now`.
     */
    method Load(now: real, maxAge: real, file: FileRead) returns (r: Option<Report>)
      modifies this
      ensures old(Fresh(now, maxAge)) ==> r == old(data) && loadedAt == old(loadedAt) && data == old(data)
      ensures !old(Fresh(now, maxAge)) && !file.Parsed? ==> r.None? && loadedAt == old(loadedAt) && data == old(data)
      ensures !old(Fresh(now, maxAge)) && file.Parsed? ==> r == file.data && loadedAt == Some(now) && data == file.data
    {
      if loadedAt.Some? && now - loadedAt.value < maxAge {
        return data;
      }
      match file
      case Missing =>
        r := None;
      case Unreadable =>
        r := None;
      case Parsed(d) =>
        loadedAt := Some(now);
        data := d;
        r := d;
    }
  }

  /** What `Load` returns, as a function of the cache before the call. */
  function Loaded(loadedAt: Option<real>, data: Option<Report>, now: real, maxAge: real, file: FileRead): (r: Option<Report>)
  {
    if loadedAt.Some? && now - loadedAt.value < maxAge then data
    else if file.Parsed? then file.data
    else None
  }

  /** A read within `maxAge` minutes of a successful one returns what it read, whatever the file now holds. */
  lemma LoadedCached(t0: real, d: Option<Report>, now: real, maxAge: real, file: FileRead, later: FileRead)
    requires t0 <= now < t0 + maxAge
    ensures Loaded(None, None, t0, maxAge, Parsed(d)) == d
    ensures Loaded(Some(t0), d, now, maxAge, later) == d
  {
  }

  /** `get_kpi_status` with the report going through the cache; the cache lives `maxAge` minutes (10 by default). */
  method GetKpiStatus(cache: ReportCache, now: real, file: FileRead, competition: string, season: Option<string>,
                      kickoffMonth: Option<Month>, thresholds: Option<Thresholds>) returns (k: Option<KpiStatus>)
    modifies cache
    ensures k == StatusOf(Loaded(old(cache.loadedAt), old(cache.data), now, 10.0, file), competition, season, kickoffMonth, thresholds)
    ensures old(cache.Fresh(now, 10.0)) ==> cache.loadedAt == old(cache.loadedAt) && cache.data == old(cache.data)
    ensures !old(cache.Fresh(now, 10.0)) && !file.Parsed? ==>
      cache.loadedAt == old(cache.loadedAt) && cache.data == old(cache.data)
    ensures !old(cache.Fresh(now, 10.0)) && file.Parsed? ==> cache.loadedAt == Some(now) && cache.data == file.data
  {
    var report := cache.Load(now, 10.0, file);
    assert report == Loaded(old(cache.loadedAt), old(cache.data), now, 10.0, file);
    if report.None? {
      return None;
    }
    var league := LeagueOf(report.value, competition);
    if league.None? {
      return None;
    }
    var seasonLabel := SeasonLabelOf(season);
    var entry := SeasonEntryOf(league.value, seasonLabel);
    if entry.None? {
      return None;
    }
    var phase := PhaseForDate(kickoffMonth);
    var target := TargetOf(entry.value, phase);
    var brier := Brier1x2Avg(target.brier);
    var roi: Option<real> := None;
    var picks: Option<int> := None;
    if target.roi1x2.Some? {
      roi := target.roi1x2.value.roi;
      picks := target.roi1x2.value.picks;
    }
    var t := if thresholds.Some? then thresholds.value else DefaultThresholds;
    var status, reasons := Judge(target.logloss, brier, roi, picks, t);
    k := Some(KpiStatus(status, seasonLabel, phase, target.logloss, brier, roi, picks, reasons));
  }
}
