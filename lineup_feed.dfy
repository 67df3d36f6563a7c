/**
 * The two parsers of the field-separated feed behind the lineup pages
 * (app/services/lineup_refresh_service.py): `_parse_events`, which reads
 * the events of a day listing, and `_parse_lineups`, which reads the two
 * line-ups of one match. Segments are separated by `¬` and a segment's key
 * and value by `÷`. `clean_person_name` is a parameter `clean`.
 */
module LineupFeed {
  import opened Common
  import opened Text

  /** `FIELD_SEP = chr(172)` (`¬`). */
  const FieldSep: char := 172 as char

  /** `KV_SEP = chr(247)` (`÷`). */
  const KvSep: char := 247 as char

  // ---------------------------------------------------------------------
  // Segments
  // ---------------------------------------------------------------------

  /** The key of `seg.split(KV_SEP, 1)`: everything before the first `÷`. */
  function KeyOf(seg: string): (k: string)
    requires KvSep in seg
    ensures KvSep !in k
  {
    seg[..IndexOf(seg, KvSep)]
  }

  /** The value of `seg.split(KV_SEP, 1)`: everything after the first `÷`. */
  function ValueOf(seg: string): string
    requires KvSep in seg
  {
    seg[IndexOf(seg, KvSep) + 1..]
  }

  /** A segment is its key, the separator and its value. */
  lemma KeyValueSplit(seg: string)
    requires KvSep in seg
    ensures seg == KeyOf(seg) + [KvSep] + ValueOf(seg)
  {
    var i := IndexOf(seg, KvSep);
    assert seg == seg[..i] + [seg[i]] + seg[i + 1..];
  }

  /** Segment `i` of `segs` carries the key `k`. */
  predicate HasKey(segs: seq<string>, i: int, k: string)
  {
    0 <= i < |segs| && KvSep in segs[i] && KeyOf(segs[i]) == k
  }

  /**
   * The field map of the segments, built as the inner loop of
   * `_parse_events` builds it: every segment holding `÷` sets its key, so
   * the last value of a key wins; other segments are skipped.
   */
  function FieldsOf(segs: seq<string>): map<string, string>
  {
    if segs == [] then map[]
    else
      var m := FieldsOf(segs[..|segs| - 1]);
      var seg := segs[|segs| - 1];
      if KvSep in seg then m[KeyOf(seg) := ValueOf(seg)] else m
  }

  /** A key is in the field map exactly when some segment carries it. */
  lemma {:induction false} FieldsOfKeys(segs: seq<string>, k: string)
    ensures k in FieldsOf(segs) <==> exists i :: HasKey(segs, i, k)
    decreases |segs|
  {
    if segs != [] {
      var pre := segs[..|segs| - 1];
      FieldsOfKeys(pre, k);
      if exists i :: HasKey(pre, i, k) {
        var i :| HasKey(pre, i, k);
        assert segs[i] == pre[i];
        assert HasKey(segs, i, k);
      }
      var last := segs[|segs| - 1];
      if KvSep in last && KeyOf(last) == k {
        assert HasKey(segs, |segs| - 1, k);
      }
      if exists i :: HasKey(segs, i, k) {
        var i :| HasKey(segs, i, k);
        if i < |pre| {
          assert pre[i] == segs[i];
          assert HasKey(pre, i, k);
        } else {
          assert segs[|segs| - 1] == segs[i];
        }
      }
    }
  }

  /** The value of a key is the value of the last segment carrying it. */
  lemma {:induction false} FieldsOfLast(segs: seq<string>, i: nat, k: string)
    requires HasKey(segs, i, k)
    requires forall j :: i < j < |segs| ==> !HasKey(segs, j, k)
    ensures k in FieldsOf(segs) && FieldsOf(segs)[k] == ValueOf(segs[i])
    decreases |segs|
  {
    var pre := segs[..|segs| - 1];
    if i < |pre| {
      assert HasKey(pre, i, k);
      forall j | i < j < |pre|
        ensures !HasKey(pre, j, k)
      {
        assert !HasKey(segs, j, k);
      }
      FieldsOfLast(pre, i, k);
      assert !HasKey(segs, |segs| - 1, k);
    }
  }

  /** The inner loop of `_parse_events`: the field map of one chunk. */
  method ParseFields(chunk: string) returns (fields: map<string, string>)
    ensures fields == FieldsOf(Split(chunk, FieldSep))
  {
    var segs := Split(chunk, FieldSep);
    fields := map[];
    var i := 0;
    while i < |segs|
      invariant 0 <= i <= |segs|
      invariant fields == FieldsOf(segs[..i])
    {
      assert segs[..i + 1][..i] == segs[..i];
      fields := ApplyField(fields, segs[i]);
      i := i + 1;
    }
    assert segs[..|segs|] == segs;
  }

  /** The body of the inner loop: a segment holding `÷` sets its key. */
  method ApplyField(fields: map<string, string>, seg: string) returns (fields': map<string, string>)
    ensures fields' == if KvSep in seg then fields[KeyOf(seg) := ValueOf(seg)] else fields
  {
    fields' := fields;
    if KvSep in seg {
      var j := IndexOf(seg, KvSep);
      fields' := fields[seg[..j] := seg[j + 1..]];
    }
  }

  // ---------------------------------------------------------------------
  // Events
  // ---------------------------------------------------------------------

  /** One event of a day listing. */
  datatype Event = Event(eventId: string, home: string, away: string, kickoffTs: Option<string>)

  /** The marker that opens every event: `¬~AA÷`. */
  const Marker: string := [FieldSep, '~', 'A', 'A', KvSep]

  /**
   * The event the text after one marker describes: its first 8 characters
   * are the event id, its first 2000 hold the fields, and it counts only
   * when the home (`CX`) and away (`AF`) names are both non-empty.
   */
  function EventOf(part: string): Option<Event>
  {
    var fields := FieldsOf(Split(Prefix(part, 2000), FieldSep));
    var home := GetOr(fields, "CX", "");
    var away := GetOr(fields, "AF", "");
    if home != "" && away != "" then Some(Event(Prefix(part, 8), home, away, Get(fields, "AD")))
    else None
  }

  /** An event is taken from a part exactly when both team fields are non-empty. */
  lemma EventOfMeaning(part: string)
    ensures EventOf(part).Some? <==>
      var fields := FieldsOf(Split(Prefix(part, 2000), FieldSep));
      "CX" in fields && fields["CX"] != "" && "AF" in fields && fields["AF"] != ""
    ensures EventOf(part).Some? ==>
      var e := EventOf(part).value;
      var fields := FieldsOf(Split(Prefix(part, 2000), FieldSep));
      e.home == fields["CX"] && e.away == fields["AF"] &&
      |e.eventId| <= 8 && e.eventId == part[..|e.eventId|] &&
      (|part| >= 8 ==> |e.eventId| == 8) &&
      (e.kickoffTs.Some? <==> "AD" in fields)
  {
  }

  /** The events of the parts after the markers, in order. */
  function EventsOf(parts: seq<string>): seq<Event>
  {
    if parts == [] then []
    else
      var pre := EventsOf(parts[..|parts| - 1]);
      match EventOf(parts[|parts| - 1])
      case Some(e) => pre + [e]
      case None => pre
  }

  /** `_parse_events`: no marker gives no events, else the events after each marker. */
  function EventsOfListing(html: string): seq<Event>
  {
    if !Contains(html, Marker) then [] else EventsOf(SplitOn(html, Marker)[1..])
  }

  /** Every event comes from one part, and the parts give at most one event each. */
  lemma {:induction false} EventsOfSource(parts: seq<string>)
    ensures |EventsOf(parts)| <= |parts|
    ensures forall e :: e in EventsOf(parts) ==> exists p :: p in parts && EventOf(p) == Some(e)
    decreases |parts|
  {
    if parts != [] {
      var pre := parts[..|parts| - 1];
      EventsOfSource(pre);
      forall e | e in EventsOf(parts)
        ensures exists p :: p in parts && EventOf(p) == Some(e)
      {
        if e in EventsOf(pre) {
          var p :| p in pre && EventOf(p) == Some(e);
          assert p in parts;
        } else {
          assert EventOf(parts[|parts| - 1]) == Some(e);
        }
      }
    }
  }

  /**
   * The listing parser's promises: without a marker there are no events;
   * every event names both teams, its id is at most the first 8 characters
   * of the text after its marker, and there is at most one event per marker.
   */
  lemma EventsOfListingMeaning(html: string)
    ensures !Contains(html, Marker) ==> EventsOfListing(html) == []
    ensures Contains(html, Marker) ==> |EventsOfListing(html)| < |SplitOn(html, Marker)|
    ensures forall e :: e in EventsOfListing(html) ==> e.home != "" && e.away != "" && |e.eventId| <= 8
    ensures forall e :: e in EventsOfListing(html) ==>
      exists p :: p in SplitOn(html, Marker)[1..] && EventOf(p) == Some(e) && e.eventId == Prefix(p, 8)
  {
    if Contains(html, Marker) {
      var parts := SplitOn(html, Marker)[1..];
      EventsOfSource(parts);
      forall e | e in EventsOfListing(html)
        ensures e.home != "" && e.away != "" && |e.eventId| <= 8
        ensures exists p :: p in parts && EventOf(p) == Some(e) && e.eventId == Prefix(p, 8)
      {
        var p :| p in parts && EventOf(p) == Some(e);
        EventOfMeaning(p);
      }
    }
  }

  /** `_parse_events`, with its loop over the parts after the markers. */
  method ParseEvents(html: string) returns (events: seq<Event>)
    ensures events == EventsOfListing(html)
  {
    if !Contains(html, Marker) {
      return [];
    }
    var parts := SplitOn(html, Marker);
    var rest := parts[1..];
    events := [];
    var i := 0;
    while i < |rest|
      invariant 0 <= i <= |rest|
      invariant events == EventsOf(rest[..i])
    {
      var part := rest[i];
      var fields := ParseFields(Prefix(part, 2000));
      var home := GetOr(fields, "CX", "");
      var away := GetOr(fields, "AF", "");
      assert rest[..i + 1][..i] == rest[..i];
      if home != "" && away != "" {
        events := events + [Event(Prefix(part, 8), home, away, Get(fields, "AD"))];
      }
      i := i + 1;
    }
    assert rest[..|rest|] == rest;
  }

  // ---------------------------------------------------------------------
  // Line-ups
  // ---------------------------------------------------------------------

  /** The team a line-up block belongs to: `LC÷1` is home, `LC÷2` away. */
  datatype Side = Home | Away

  /** The state of `_parse_lineups`: both lists and the current team. */
  datatype Lineups = Lineups(home: seq<string>, away: seq<string>, current: Option<Side>)

  const NoLineups := Lineups([], [], None)

  /** `key.lstrip("~")`. */
  function TrimTildes(s: string): (r: string)
    ensures |r| <= |s| && r == s[|s| - |r|..]
    ensures r != [] ==> r[0] != '~'
    decreases |s|
  {
    if s != [] && s[0] == '~' then TrimTildes(s[1..]) else s
  }

  /** The segment's key without leading `~`. */
  function LineKey(seg: string): string
    requires KvSep in seg
  {
    TrimTildes(KeyOf(seg))
  }

  /**
   * One segment of `_parse_lineups`: `LC` with value 1 or 2 switches the
   * current team, `LI` adds the cleaned player name to the current team's
   * list unless it is empty or already there; everything else is skipped.
   */
  function Step(st: Lineups, seg: string, clean: string -> string): Lineups
  {
    if KvSep !in seg then st
    else
      var key := LineKey(seg);
      var value := ValueOf(seg);
      if key == "LC" then
        if value == "1" then st.(current := Some(Home))
        else if value == "2" then st.(current := Some(Away))
        else st
      else if key == "LI" && st.current.Some? then
        var name := clean(value);
        if st.current.value == Home then st.(home := AddName(st.home, name))
        else st.(away := AddName(st.away, name))
      else st
  }

  /** A player list with `name` appended, unless it is empty or already there. */
  function AddName(list: seq<string>, name: string): seq<string>
  {
    if name != "" && name !in list then list + [name] else list
  }

  /** The state after the segments, from empty lists and no current team. */
  function Run(segs: seq<string>, clean: string -> string): Lineups
  {
    if segs == [] then NoLineups else Step(Run(segs[..|segs| - 1], clean), segs[|segs| - 1], clean)
  }

  /** No entry twice, and none empty. */
  predicate Distinct(s: seq<string>)
  {
    forall i, j :: 0 <= i < j < |s| ==> s[i] != s[j]
  }

  predicate NoEmpty(s: seq<string>)
  {
    forall i :: 0 <= i < |s| ==> s[i] != ""
  }

  /** A player list the parser keeps: distinct, non-empty names. */
  predicate GoodList(s: seq<string>)
  {
    Distinct(s) && NoEmpty(s)
  }

  /** Appending a new non-empty name to a good list keeps it good. */
  lemma AppendGood(s: seq<string>, name: string)
    requires GoodList(s) && name != "" && name !in s
    ensures GoodList(s + [name])
  {
    var t := s + [name];
    forall i, j | 0 <= i < j < |t|
      ensures t[i] != t[j]
    {
      if j == |s| {
        assert t[i] == s[i];
      }
    }
  }

  /** One segment keeps both lists good, and only ever appends to them. */
  lemma StepGood(st: Lineups, seg: string, clean: string -> string)
    requires GoodList(st.home) && GoodList(st.away)
    ensures GoodList(Step(st, seg, clean).home) && GoodList(Step(st, seg, clean).away)
  {
    var r := Step(st, seg, clean);
    if KvSep in seg && LineKey(seg) != "LC" && LineKey(seg) == "LI" && st.current.Some? {
      var name := clean(ValueOf(seg));
      AddNameGood(st.home, name);
      AddNameGood(st.away, name);
      assert r.home == st.home || r.home == AddName(st.home, name);
      assert r.away == st.away || r.away == AddName(st.away, name);
    } else {
      assert r.home == st.home && r.away == st.away;
    }
  }

  /** Adding a name keeps a good list good. */
  lemma AddNameGood(list: seq<string>, name: string)
    requires GoodList(list)
    ensures GoodList(AddName(list, name))
  {
    if name != "" && name !in list {
      AppendGood(list, name);
    }
  }

  /** Each side's list has no duplicates and no empty name. */
  lemma {:induction false} RunGood(segs: seq<string>, clean: string -> string)
    ensures GoodList(Run(segs, clean).home) && GoodList(Run(segs, clean).away)
    decreases |segs|
  {
    if segs != [] {
      RunGood(segs[..|segs| - 1], clean);
      StepGood(Run(segs[..|segs| - 1], clean), segs[|segs| - 1], clean);
    }
  }

  /** Until a valid `LC` has been seen, no player is taken. */
  lemma {:induction false} RunNoSide(segs: seq<string>, clean: string -> string)
    ensures Run(segs, clean).current.None? ==> Run(segs, clean).home == [] && Run(segs, clean).away == []
    decreases |segs|
  {
    if segs != [] {
      RunNoSide(segs[..|segs| - 1], clean);
      StepNoSide(Run(segs[..|segs| - 1], clean), segs[|segs| - 1], clean);
    }
  }

  /** A step that leaves no current team changes no list, and needs none before it. */
  lemma StepNoSide(st: Lineups, seg: string, clean: string -> string)
    ensures Step(st, seg, clean).current.None? ==> st.current.None? && Step(st, seg, clean) == st
  {
  }

  /** An `LC` segment with a value other than 1 or 2 changes nothing. */
  lemma StepOtherSide(st: Lineups, seg: string, clean: string -> string)
    requires KvSep in seg && LineKey(seg) == "LC" && ValueOf(seg) != "1" && ValueOf(seg) != "2"
    ensures Step(st, seg, clean) == st
  {
  }

  /** Every listed player is the cleaned value of some `LI` segment. */
  lemma {:induction false} RunPlayers(segs: seq<string>, clean: string -> string, name: string)
    requires name in Run(segs, clean).home || name in Run(segs, clean).away
    ensures exists i :: 0 <= i < |segs| && IsPlayer(segs[i], clean, name)
    decreases |segs|
  {
    var pre := segs[..|segs| - 1];
    var st := Run(pre, clean);
    if name in st.home || name in st.away {
      RunPlayers(pre, clean, name);
      var i :| 0 <= i < |pre| && IsPlayer(pre[i], clean, name);
      assert segs[i] == pre[i];
    } else {
      StepPlayer(st, segs[|segs| - 1], clean, name);
    }
  }

  /** `seg` is an `LI` segment naming `name` once cleaned. */
  predicate IsPlayer(seg: string, clean: string -> string, name: string)
  {
    KvSep in seg && LineKey(seg) == "LI" && clean(ValueOf(seg)) == name
  }

  /** A name that one segment adds comes from that segment. */
  lemma StepPlayer(st: Lineups, seg: string, clean: string -> string, name: string)
    requires name !in st.home && name !in st.away
    requires name in Step(st, seg, clean).home || name in Step(st, seg, clean).away
    ensures IsPlayer(seg, clean, name)
  {
  }

  /** `_parse_lineups`: the home and away player lists of a feed. */
  method ParseLineups(feed: string, clean: string -> string) returns (home: seq<string>, away: seq<string>)
    ensures home == Run(Split(feed, FieldSep), clean).home
    ensures away == Run(Split(feed, FieldSep), clean).away
  {
    var segs := Split(feed, FieldSep);
    home, away := [], [];
    var current: Option<Side> := None;
    var i := 0;
    while i < |segs|
      invariant 0 <= i <= |segs|
      invariant Lineups(home, away, current) == Run(segs[..i], clean)
    {
      assert segs[..i + 1][..i] == segs[..i];
      assert Run(segs[..i + 1], clean) == Step(Run(segs[..i], clean), segs[i], clean);
      home, away, current := ApplySegment(home, away, current, segs[i], clean);
      i := i + 1;
    }
    assert segs[..|segs|] == segs;
  }

  /** The body of the loop of `_parse_lineups`, on one segment. */
  method ApplySegment(home: seq<string>, away: seq<string>, current: Option<Side>, seg: string, clean: string -> string)
    returns (home': seq<string>, away': seq<string>, current': Option<Side>)
    ensures Lineups(home', away', current') == Step(Lineups(home, away, current), seg, clean)
  {
    home', away', current' := home, away, current;
    if KvSep in seg {
      var j := IndexOf(seg, KvSep);
      var key := TrimTildes(seg[..j]);
      var value := seg[j + 1..];
      if key == "LC" {
        if value == "1" {
          current' := Some(Home);
        } else if value == "2" {
          current' := Some(Away);
        }
      } else if key == "LI" && current.Some? {
        var name := clean(value);
        if current.value == Home {
          if name != "" && name !in home {
            home' := home + [name];
          }
        } else if name != "" && name !in away {
          away' := away + [name];
        }
      }
    }
  }
}
