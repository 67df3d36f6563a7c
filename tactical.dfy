/**
 * Tactical tags of a match (app/services/tactical_service.py): from the
 * possession and PPDA statistics of a match, or failing those from the
 * expected-goals proxy of its features, a list of tags, a matchup, a
 * style matchup (which side the styles favour) and a tempo hint.
 */
module Tactical {
  import opened Common

  datatype Tag =
    | HomePossession | AwayPossession
    | HomeHighPress | HomeLowPress | AwayHighPress | AwayLowPress
    | HighTempoProxy | LowTempoProxy | HomeDominanceProxy | AwayDominanceProxy

  function TagName(t: Tag): string
  {
    match t
      case HomePossession => "home_possession"
      case AwayPossession => "away_possession"
      case HomeHighPress => "home_high_press"
      case HomeLowPress => "home_low_press"
      case AwayHighPress => "away_high_press"
      case AwayLowPress => "away_low_press"
      case HighTempoProxy => "high_tempo_proxy"
      case LowTempoProxy => "low_tempo_proxy"
      case HomeDominanceProxy => "home_dominance_proxy"
      case AwayDominanceProxy => "away_dominance_proxy"
  }

  // ---------------------------------------------------------------------
  // Style matchup and tempo
  // ---------------------------------------------------------------------

  datatype Edge = Neutral | Favorable | Critical

  datatype Indicator = Even | HomeFavored | AwayFavored

  function IndicatorName(i: Indicator): string
  {
    match i
      case Even => "neutral"
      case HomeFavored => "home_favorable"
      case AwayFavored => "away_favorable"
  }

  /** The rule of `_style_matchup` that fired; no rule reads as "balanced". */
  datatype StyleReason =
    | HomePressVsAwayLowPress | AwayPressVsHomeLowPress
    | HomePossessionVsAwayLowPress | AwayPossessionVsHomeLowPress
    | Balanced

  function StyleReasonName(r: StyleReason): string
  {
    match r
      case HomePressVsAwayLowPress => "home_press_vs_away_low_press"
      case AwayPressVsHomeLowPress => "away_press_vs_home_low_press"
      case HomePossessionVsAwayLowPress => "home_possession_vs_away_low_press"
      case AwayPossessionVsHomeLowPress => "away_possession_vs_home_low_press"
      case Balanced => "balanced"
  }

  datatype Style = Style(indicator: Indicator, homeEdge: Edge, awayEdge: Edge, reason: StyleReason)

  /** The home side's style beats the away side's: its press or possession against a low away press. */
  predicate HomeStyleWins(tags: seq<Tag>)
  {
    (HomeHighPress in tags || HomePossession in tags) && AwayLowPress in tags
  }

  predicate AwayStyleWins(tags: seq<Tag>)
  {
    (AwayHighPress in tags || AwayPossession in tags) && HomeLowPress in tags
  }

  /**
   * `_style_matchup`. The edges are both neutral, or one side favorable and
   * the other critical; the indicator names the favorable side; the reason
   * is "balanced" exactly when the edges are neutral.
   */
  function StyleMatchup(tags: seq<Tag>): (r: Style)
    ensures (r.homeEdge == Neutral && r.awayEdge == Neutral) ||
            (r.homeEdge == Favorable && r.awayEdge == Critical) ||
            (r.homeEdge == Critical && r.awayEdge == Favorable)
    ensures r.indicator == HomeFavored <==> r.homeEdge == Favorable
    ensures r.indicator == AwayFavored <==> r.awayEdge == Favorable
    ensures r.indicator == Even <==> r.reason == Balanced
  {
    var reason :=
      if HomeHighPress in tags && AwayLowPress in tags then HomePressVsAwayLowPress
      else if AwayHighPress in tags && HomeLowPress in tags then AwayPressVsHomeLowPress
      else if HomePossession in tags && AwayLowPress in tags then HomePossessionVsAwayLowPress
      else if AwayPossession in tags && HomeLowPress in tags then AwayPossessionVsHomeLowPress
      else Balanced;
    var (home, away) :=
      if reason == HomePressVsAwayLowPress || reason == HomePossessionVsAwayLowPress then (Favorable, Critical)
      else if reason == Balanced then (Neutral, Neutral)
      else (Critical, Favorable);
    var indicator := if home == Favorable then HomeFavored else if away == Favorable then AwayFavored else Even;
    Style(indicator, home, away, reason)
  }

  /**
   * When the style rules fire: none fires ("balanced") exactly when neither
   * side's press or possession meets a low press of the other; the home
   * side is favoured exactly when a home rule is the first to fire (the
   * home press rule is checked first, the away press rule second).
   */
  lemma StyleMatchupRules(tags: seq<Tag>)
    ensures StyleMatchup(tags).reason == Balanced <==> !HomeStyleWins(tags) && !AwayStyleWins(tags)
    ensures StyleMatchup(tags).homeEdge == Favorable <==>
      (HomeHighPress in tags && AwayLowPress in tags) ||
      (!(AwayHighPress in tags && HomeLowPress in tags) && HomePossession in tags && AwayLowPress in tags)
  {
  }

  /** With no tag, the styles are balanced. */
  lemma StyleMatchupEmpty()
    ensures StyleMatchup([]) == Style(Even, Neutral, Neutral, Balanced)
  {
  }

  datatype Tempo = High | Low | Moderate

  function TempoName(t: Tempo): string
  {
    match t
      case High => "high"
      case Low => "low"
      case Moderate => "neutral"
  }

  /** `_tempo_hint`. */
  function TempoHint(tags: seq<Tag>): Tempo
  {
    if HighTempoProxy in tags || HomeHighPress in tags || AwayHighPress in tags then High
    else if LowTempoProxy in tags || (HomeLowPress in tags && AwayLowPress in tags) then Low
    else Moderate
  }

  /** A high-tempo sign (a tempo tag or either side's high press) beats a low-tempo one. */
  lemma TempoHintRules(tags: seq<Tag>)
    ensures TempoHint(tags) == High <==> HighTempoProxy in tags || HomeHighPress in tags || AwayHighPress in tags
    ensures TempoHint(tags) == Low <==>
      !(HighTempoProxy in tags || HomeHighPress in tags || AwayHighPress in tags) &&
      (LowTempoProxy in tags || (HomeLowPress in tags && AwayLowPress in tags))
  {
  }

  // ---------------------------------------------------------------------
  // Profiles
  // ---------------------------------------------------------------------

  datatype Matchup = PressVsPossession | LowPressBoth | HighTempoMatch | LowTempoMatch

  function MatchupName(m: Matchup): string
  {
    match m
      case PressVsPossession => "press_vs_possession"
      case LowPressBoth => "low_press_both"
      case HighTempoMatch => "high_tempo_match"
      case LowTempoMatch => "low_tempo_match"
  }

  datatype Profile = Profile(source: string, tags: seq<Tag>, matchup: Option<Matchup>, style: Style, tempo: Tempo)

  /** The row of `tactical_stats` for a match; each number may be null. */
  datatype Stats = Stats(source: Option<string>, possHome: Option<real>, possAway: Option<real>,
                         ppdaHome: Option<real>, ppdaAway: Option<real>)

  /** Possession given as fractions (both sides at most 1) is turned into percentages. */
  function Percentages(h: real, a: real): (r: (real, real))
    ensures h <= 1.0 && a <= 1.0 ==> r == (h * 100.0, a * 100.0)
    ensures !(h <= 1.0 && a <= 1.0) ==> r == (h, a)
  {
    if h <= 1.0 && a <= 1.0 then (h * 100.0, a * 100.0) else (h, a)
  }

  /** The possession tag: at least 55% is home possession, at most 45% away possession. */
  function PossessionTags(s: Stats): seq<Tag>
  {
    if s.possHome.None? || s.possAway.None? then []
    else
      var h := Percentages(s.possHome.value, s.possAway.value).0;
      if h >= 55.0 then [HomePossession] else if h <= 45.0 then [AwayPossession] else []
  }

  /** The press tag of one side: a PPDA of at most 8 is a high press, at least 12 a low press. */
  function PressTags(ppda: Option<real>, high: Tag, low: Tag): seq<Tag>
  {
    if ppda.None? then [] else if ppda.value <= 8.0 then [high] else if ppda.value >= 12.0 then [low] else []
  }

  /** The tags `_tags_from_stats` collects, in the order it appends them. */
  function StatsTags(s: Stats): seq<Tag>
  {
    PossessionTags(s) + PressTags(s.ppdaHome, HomeHighPress, HomeLowPress) + PressTags(s.ppdaAway, AwayHighPress, AwayLowPress)
  }

  function StatsMatchup(tags: seq<Tag>): Option<Matchup>
  {
    if HomeHighPress in tags && AwayPossession in tags then Some(PressVsPossession)
    else if AwayHighPress in tags && HomePossession in tags then Some(PressVsPossession)
    else if HomeLowPress in tags && AwayLowPress in tags then Some(LowPressBoth)
    else None
  }

  /** The profile `_tags_from_stats` returns. */
  function StatsProfile(s: Stats): Profile
  {
    var tags := StatsTags(s);
    Profile(if s.source.None? || s.source.value == "" then "tactical_stats" else s.source.value,
            tags, StatsMatchup(tags), StyleMatchup(tags), TempoHint(tags))
  }

  /** The possession percentages the rules compare, after the fraction rule. */
  function HomePercent(s: Stats): real
    requires s.possHome.Some? && s.possAway.Some?
  {
    Percentages(s.possHome.value, s.possAway.value).0
  }

  /** The tags read from statistics, as opposed to the proxy tags. */
  predicate IsStatsTag(t: Tag)
  {
    t.HomePossession? || t.AwayPossession? || t.HomeHighPress? || t.HomeLowPress? || t.AwayHighPress? || t.AwayLowPress?
  }

  /**
   * The stats tags hold at most one possession tag and at most one press
   * tag per side, and no proxy tag.
   */
  lemma {:induction false} StatsTagsExclusive(s: Stats)
    ensures !(HomePossession in StatsTags(s) && AwayPossession in StatsTags(s))
    ensures !(HomeHighPress in StatsTags(s) && HomeLowPress in StatsTags(s))
    ensures !(AwayHighPress in StatsTags(s) && AwayLowPress in StatsTags(s))
    ensures forall t :: t in StatsTags(s) ==> IsStatsTag(t)
    ensures |StatsTags(s)| <= 3
  {
    var p := PossessionTags(s);
    var h := PressTags(s.ppdaHome, HomeHighPress, HomeLowPress);
    var a := PressTags(s.ppdaAway, AwayHighPress, AwayLowPress);
    PossessionTagsMeaning(s);
    PressTagsMeaning(s.ppdaHome, HomeHighPress, HomeLowPress);
    PressTagsMeaning(s.ppdaAway, AwayHighPress, AwayLowPress);
    assert StatsTags(s) == p + h + a;
    ExclusiveOfParts(p, h, a);
  }

  /** Three parts of at most one tag each, drawn from disjoint pairs, join without a clash. */
  lemma ExclusiveOfParts(p: seq<Tag>, h: seq<Tag>, a: seq<Tag>)
    requires |p| <= 1 && forall t :: t in p ==> t == HomePossession || t == AwayPossession
    requires |h| <= 1 && forall t :: t in h ==> t == HomeHighPress || t == HomeLowPress
    requires |a| <= 1 && forall t :: t in a ==> t == AwayHighPress || t == AwayLowPress
    ensures !(HomePossession in p + h + a && AwayPossession in p + h + a)
    ensures !(HomeHighPress in p + h + a && HomeLowPress in p + h + a)
    ensures !(AwayHighPress in p + h + a && AwayLowPress in p + h + a)
    ensures forall t :: t in p + h + a ==> IsStatsTag(t)
    ensures |p + h + a| <= 3
  {
    assert forall t :: t in p + h + a <==> t in p || t in h || t in a;
  }

  /**
   * Each stats tag is present exactly when its threshold is met: possession
   * on percentages (fractions having been scaled by 100), press on PPDA.
   */
  lemma {:induction false} StatsTagsMeaning(s: Stats)
    ensures HomePossession in StatsTags(s) <==> s.possHome.Some? && s.possAway.Some? && HomePercent(s) >= 55.0
    ensures AwayPossession in StatsTags(s) <==> s.possHome.Some? && s.possAway.Some? && HomePercent(s) <= 45.0
    ensures HomeHighPress in StatsTags(s) <==> s.ppdaHome.Some? && s.ppdaHome.value <= 8.0
    ensures HomeLowPress in StatsTags(s) <==> s.ppdaHome.Some? && s.ppdaHome.value >= 12.0
    ensures AwayHighPress in StatsTags(s) <==> s.ppdaAway.Some? && s.ppdaAway.value <= 8.0
    ensures AwayLowPress in StatsTags(s) <==> s.ppdaAway.Some? && s.ppdaAway.value >= 12.0
  {
    var p := PossessionTags(s);
    var h := PressTags(s.ppdaHome, HomeHighPress, HomeLowPress);
    var a := PressTags(s.ppdaAway, AwayHighPress, AwayLowPress);
    PossessionTagsMeaning(s);
    PressTagsMeaning(s.ppdaHome, HomeHighPress, HomeLowPress);
    PressTagsMeaning(s.ppdaAway, AwayHighPress, AwayLowPress);
    assert StatsTags(s) == p + h + a;
    assert forall t :: t in p + h + a <==> t in p || t in h || t in a;
  }

  lemma PossessionTagsMeaning(s: Stats)
    ensures |PossessionTags(s)| <= 1
    ensures forall t :: t in PossessionTags(s) ==> t == HomePossession || t == AwayPossession
    ensures HomePossession in PossessionTags(s) <==> s.possHome.Some? && s.possAway.Some? && HomePercent(s) >= 55.0
    ensures AwayPossession in PossessionTags(s) <==> s.possHome.Some? && s.possAway.Some? && HomePercent(s) <= 45.0
  {
  }

  lemma PressTagsMeaning(ppda: Option<real>, high: Tag, low: Tag)
    requires high != low
    ensures |PressTags(ppda, high, low)| <= 1
    ensures forall t :: t in PressTags(ppda, high, low) ==> t == high || t == low
    ensures high in PressTags(ppda, high, low) <==> ppda.Some? && ppda.value <= 8.0
    ensures low in PressTags(ppda, high, low) <==> ppda.Some? && ppda.value >= 12.0
  {
  }

  /** Possession 0.6 to 0.4 (fractions) and 60 to 40 (percentages) give the same home-possession tag. */
  lemma FractionsArePercentages(src: Option<string>, ppdaHome: Option<real>, ppdaAway: Option<real>)
    ensures StatsTags(Stats(src, Some(0.6), Some(0.4), ppdaHome, ppdaAway)) ==
            StatsTags(Stats(src, Some(60.0), Some(40.0), ppdaHome, ppdaAway))
    ensures HomePossession in StatsTags(Stats(src, Some(0.6), Some(0.4), ppdaHome, ppdaAway))
  {
    assert PossessionTags(Stats(src, Some(0.6), Some(0.4), ppdaHome, ppdaAway)) == [HomePossession];
    assert PossessionTags(Stats(src, Some(60.0), Some(40.0), ppdaHome, ppdaAway)) == [HomePossession];
  }

  /**
   * `_tags_from_stats`: the tags are appended one rule after the other,
   * then the matchup, style matchup and tempo are read off them.
   */
  method TagsFromStats(s: Stats) returns (r: Profile)
    ensures r == StatsProfile(s)
  {
    var tags := CollectStatsTags(s);
    var matchup: Option<Matchup> := None;
    if HomeHighPress in tags && AwayPossession in tags {
      matchup := Some(PressVsPossession);
    } else if AwayHighPress in tags && HomePossession in tags {
      matchup := Some(PressVsPossession);
    } else if HomeLowPress in tags && AwayLowPress in tags {
      matchup := Some(LowPressBoth);
    }
    var source := if s.source.None? || s.source.value == "" then "tactical_stats" else s.source.value;
    r := Profile(source, tags, matchup, StyleMatchup(tags), TempoHint(tags));
  }

  /** The appending part of `_tags_from_stats`: possession first, then the home and the away press. */
  method CollectStatsTags(s: Stats) returns (tags: seq<Tag>)
    ensures tags == StatsTags(s)
  {
    tags := [];
    var posH := s.possHome;
    var posA := s.possAway;
    if posH.Some? && posA.Some? {
      if posH.value <= 1.0 && posA.value <= 1.0 {
        posH := Some(posH.value * 100.0);
        posA := Some(posA.value * 100.0);
      }
    }
    if posH.Some? && posA.Some? {
      if posH.value >= 55.0 {
        tags := tags + [HomePossession];
      } else if posH.value <= 45.0 {
        tags := tags + [AwayPossession];
      }
    }
    assert tags == PossessionTags(s);
    if s.ppdaHome.Some? {
      if s.ppdaHome.value <= 8.0 {
        tags := tags + [HomeHighPress];
      } else if s.ppdaHome.value >= 12.0 {
        tags := tags + [HomeLowPress];
      }
    }
    assert tags == PossessionTags(s) + PressTags(s.ppdaHome, HomeHighPress, HomeLowPress);
    if s.ppdaAway.Some? {
      if s.ppdaAway.value <= 8.0 {
        tags := tags + [AwayHighPress];
      } else if s.ppdaAway.value >= 12.0 {
        tags := tags + [AwayLowPress];
      }
    }
  }

  /** `float(features.get(key, 0.0) or 0.0)`: a missing, null or zero value reads as 0. */
  function FeatureOrZero(features: map<string, Option<real>>, key: string): real
  {
    var v := GetOr(features, key, Some(0.0));
    if v.None? then 0.0 else v.value
  }

  /** The tags `_tags_from_proxy` collects from the expected goals of the two sides. */
  function ProxyTags(lamH: real, lamA: real): seq<Tag>
  {
    (if lamH + lamA >= 2.8 then [HighTempoProxy] else if lamH + lamA <= 2.2 then [LowTempoProxy] else []) +
    (if lamH - lamA >= 0.45 then [HomeDominanceProxy] else if lamH - lamA <= -0.45 then [AwayDominanceProxy] else [])
  }

  function ProxyMatchup(tags: seq<Tag>): Option<Matchup>
  {
    if HighTempoProxy in tags then Some(HighTempoMatch)
    else if LowTempoProxy in tags then Some(LowTempoMatch)
    else None
  }

  /** The profile `_tags_from_proxy` returns. */
  function ProxyProfile(features: map<string, Option<real>>): Profile
  {
    var tags := ProxyTags(FeatureOrZero(features, "lambda_home"), FeatureOrZero(features, "lambda_away"));
    Profile("proxy", tags, ProxyMatchup(tags), StyleMatchup(tags), TempoHint(tags))
  }

  /**
   * What the proxy tags mean: the tempo tags are exclusive and follow the
   * total expected goals, the dominance tags are exclusive and follow the
   * difference; the matchup is the tempo tag's, and no style rule fires.
   */
  lemma {:induction false} ProxyTagsMeaning(lamH: real, lamA: real)
    ensures !(HighTempoProxy in ProxyTags(lamH, lamA) && LowTempoProxy in ProxyTags(lamH, lamA))
    ensures !(HomeDominanceProxy in ProxyTags(lamH, lamA) && AwayDominanceProxy in ProxyTags(lamH, lamA))
    ensures HighTempoProxy in ProxyTags(lamH, lamA) <==> lamH + lamA >= 2.8
    ensures LowTempoProxy in ProxyTags(lamH, lamA) <==> lamH + lamA <= 2.2
    ensures HomeDominanceProxy in ProxyTags(lamH, lamA) <==> lamH - lamA >= 0.45
    ensures AwayDominanceProxy in ProxyTags(lamH, lamA) <==> lamH - lamA <= -0.45
    ensures ProxyMatchup(ProxyTags(lamH, lamA)) == Some(HighTempoMatch) <==> lamH + lamA >= 2.8
    ensures ProxyMatchup(ProxyTags(lamH, lamA)) == Some(LowTempoMatch) <==> lamH + lamA <= 2.2
    ensures ProxyMatchup(ProxyTags(lamH, lamA)).None? <==> 2.2 < lamH + lamA < 2.8
    ensures TempoHint(ProxyTags(lamH, lamA)) == High <==> lamH + lamA >= 2.8
    ensures TempoHint(ProxyTags(lamH, lamA)) == Low <==> lamH + lamA <= 2.2
    ensures StyleMatchup(ProxyTags(lamH, lamA)).reason == Balanced
  {
    var t: seq<Tag> := if lamH + lamA >= 2.8 then [HighTempoProxy] else if lamH + lamA <= 2.2 then [LowTempoProxy] else [];
    var d: seq<Tag> := if lamH - lamA >= 0.45 then [HomeDominanceProxy] else if lamH - lamA <= -0.45 then [AwayDominanceProxy] else [];
    assert ProxyTags(lamH, lamA) == t + d;
    assert forall x :: x in t + d <==> x in t || x in d;
  }

  /** `_tags_from_proxy`: the tags are appended one rule after the other. */
  method TagsFromProxy(features: map<string, Option<real>>) returns (r: Profile)
    ensures r == ProxyProfile(features)
  {
    var lamH := FeatureOrZero(features, "lambda_home");
    var lamA := FeatureOrZero(features, "lambda_away");
    var tags := CollectProxyTags(lamH, lamA);
    var matchup: Option<Matchup> := None;
    if HighTempoProxy in tags {
      matchup := Some(HighTempoMatch);
    } else if LowTempoProxy in tags {
      matchup := Some(LowTempoMatch);
    }
    r := Profile("proxy", tags, matchup, StyleMatchup(tags), TempoHint(tags));
  }

  /** The appending part of `_tags_from_proxy`: the tempo tag, then the dominance tag. */
  method CollectProxyTags(lamH: real, lamA: real) returns (tags: seq<Tag>)
    ensures tags == ProxyTags(lamH, lamA)
  {
    tags := [];
    var total := lamH + lamA;
    var diff := lamH - lamA;
    if total >= 2.8 {
      tags := tags + [HighTempoProxy];
    } else if total <= 2.2 {
      tags := tags + [LowTempoProxy];
    }
    if diff >= 0.45 {
      tags := tags + [HomeDominanceProxy];
    } else if diff <= -0.45 {
      tags := tags + [AwayDominanceProxy];
    }
  }

  /** The profile of a match with neither statistics nor features. */
  const NoProfile := Profile("none", [], None, StyleMatchup([]), Moderate)

  /** `get_tactical_profile`: statistics win over features; with neither, the empty profile. */
  function TacticalProfile(stats: Option<Stats>, features: map<string, Option<real>>): (r: Profile)
    ensures stats.Some? ==> r == StatsProfile(stats.value)
    ensures stats.None? && features != map[] ==> r == ProxyProfile(features)
    ensures stats.None? && features == map[] ==> r.source == "none" && r.tags == [] && r.matchup.None? && r.tempo == Moderate
  {
    if stats.Some? then StatsProfile(stats.value)
    else if features != map[] then ProxyProfile(features)
    else NoProfile
  }

  /** `get_tactical_profile` with the statistics row already fetched (None when the table or the row is missing). */
  method GetTacticalProfile(stats: Option<Stats>, features: map<string, Option<real>>) returns (r: Profile)
    ensures r == TacticalProfile(stats, features)
  {
    if stats.Some? {
      r := TagsFromStats(stats.value);
    } else if features != map[] {
      r := TagsFromProxy(features);
    } else {
      r := NoProfile;
    }
  }
}
