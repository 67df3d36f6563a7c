/**
 * The pure helpers of the football-data.co.uk odds backfill: the
 * competition spellings a match may be stored under, the season code of
 * the CSV URL, the choice of odds column in a CSV row, and the column
 * selection of the quote insert.
 */
module BackfillOdds {
  import opened Common
  import opened Text

  // ---------------------------------------------------------------------
  // `_competition_values`
  // ---------------------------------------------------------------------

  /** `_competition_values`: Serie A is stored under two spellings. */
  function CompetitionValues(name: Option<string>): (r: seq<string>)
    ensures r == [] <==> name.None? || name.value == ""
    ensures r != [] ==> name.value in r && |r| <= 2
    ensures name == Some("Serie_A") ==> r == ["Serie_A", "Serie A"]
    ensures name.Some? && name.value != "" && name.value != "Serie_A" ==> r == [name.value]
  {
    if name.None? || name.value == "" then []
    else if name.value == "Serie_A" then ["Serie_A", "Serie A"]
    else [name.value]
  }

  // ---------------------------------------------------------------------
  // `_season_to_code`
  // ---------------------------------------------------------------------

  /** `\d{2,4}$` at `k`: two to four digits run from `k` to the end. */
  predicate YearTailAt(s: string, k: nat)
  {
    k <= |s| && 2 <= |s| - k <= 4 && AllDigits(s[k..])
  }

  /**
   * Where the lazy `.*?` of `(\d{4}).*?(\d{2,4})$` stops: the first `k`
   * from `from` on with a year tail at `k`, the characters skipped before it
   * being no newline (which `.` does not match).
   */
  function TailStart(s: string, from: nat): (r: Option<nat>)
    ensures r.Some? ==> from <= r.value && YearTailAt(s, r.value)
    ensures r.Some? ==> forall k :: from <= k < r.value ==> !YearTailAt(s, k) && s[k] != '\n'
    decreases |s| - from
  {
    if YearTailAt(s, from) then Some(from)
    else if from < |s| && s[from] != '\n' then TailStart(s, from + 1)
    else None
  }

  /** `_season_to_code`: "2024/25" and "2024/2025" become "2425"; a bare four-digit code is kept. */
  function SeasonToCode(season: Option<string>): Option<string>
  {
    CodeOf(Strip(if season.Some? then season.value else ""))
  }

  /** The code of a stripped season text. */
  function CodeOf(s: string): Option<string>
  {
    if s == "" then None
    else if |s| == 4 && AllDigits(s) then Some(s)
    else if |s| < 4 || !AllDigits(s[..4]) then None
    else TailCode(s)
  }

  /** The code of a text starting with a four-digit year: its last two digits and the tail year's. */
  function TailCode(s: string): Option<string>
    requires |s| >= 4
  {
    match TailStart(s, 4)
      case None => None
      case Some(k) =>
        var y2 := s[k..];
        Some(s[2..4] + (if |y2| == 4 then y2[2..] else y2))
  }

  lemma DigitsSlice(s: string, i: nat, j: nat)
    requires AllDigits(s) && i <= j <= |s|
    ensures AllDigits(s[i..j])
  {
    assert forall k :: 0 <= k < j - i ==> s[i..j][k] == s[i + k];
  }

  lemma DigitsConcat(a: string, b: string)
    requires AllDigits(a) && AllDigits(b)
    ensures AllDigits(a + b)
  {
    assert forall k :: 0 <= k < |a + b| ==> (a + b)[k] == (if k < |a| then a[k] else b[k - |a|]);
  }

  /** A tail code is four or five digits. */
  lemma TailCodeShape(s: string)
    requires |s| >= 4 && AllDigits(s[..4])
    ensures TailCode(s).Some? ==> AllDigits(TailCode(s).value) && 4 <= |TailCode(s).value| <= 5
  {
    match TailStart(s, 4)
      case None =>
      case Some(k) =>
        var y2 := s[k..];
        DigitsSlice(s[..4], 2, 4);
        assert s[..4][2..4] == s[2..4];
        DigitsSlice(y2, if |y2| == 4 then 2 else 0, |y2|);
        assert (if |y2| == 4 then y2[2..] else y2) == y2[if |y2| == 4 then 2 else 0..|y2|];
        DigitsConcat(s[2..4], if |y2| == 4 then y2[2..] else y2);
  }

  /** A code, when there is one, is four or five digits; a blank season has none. */
  lemma SeasonToCodeShape(season: Option<string>)
    ensures SeasonToCode(season).Some? ==>
      AllDigits(SeasonToCode(season).value) && 4 <= |SeasonToCode(season).value| <= 5
    ensures season.None? || Strip(season.value) == "" ==> SeasonToCode(season).None?
  {
    var s := Strip(if season.Some? then season.value else "");
    if s != "" && !(|s| == 4 && AllDigits(s)) && |s| >= 4 && AllDigits(s[..4]) {
      TailCodeShape(s);
    }
  }

  /** A four-digit season code is passed through unchanged. */
  lemma SeasonToCodeFourDigits(s: string)
    requires |s| == 4 && AllDigits(s)
    ensures SeasonToCode(Some(s)) == Some(s)
  {
    StripPlain(s);
  }

  /** After a four-digit year and a slash, the year tail starts right after the slash. */
  lemma TailAfterSlash(y1: string, y2: string)
    requires |y1| == 4 && AllDigits(y1) && 2 <= |y2| <= 4 && AllDigits(y2)
    ensures TailStart(y1 + "/" + y2, 4) == Some(5)
    ensures (y1 + "/" + y2)[5..] == y2 && (y1 + "/" + y2)[2..4] == y1[2..]
    ensures (y1 + "/" + y2)[..4] == y1
  {
    var s := y1 + "/" + y2;
    assert s[4] == '/';
    assert s[4..][0] == '/';
    assert !YearTailAt(s, 4);
    assert s[5..] == y2;
    assert YearTailAt(s, 5);
  }

  /** A season label `YYYY/YY` becomes the two-by-two code of its years. */
  lemma SeasonToCodeShortLabel(y1: string, y2: string)
    requires |y1| == 4 && AllDigits(y1) && |y2| == 2 && AllDigits(y2)
    ensures SeasonToCode(Some(y1 + "/" + y2)) == Some(y1[2..] + y2)
  {
    var s := y1 + "/" + y2;
    StripPlain(s);
    TailAfterSlash(y1, y2);
    assert TailCode(s) == Some(y1[2..] + y2);
  }

  /** A season label `YYYY/YYYY` becomes the same code, the second year cut to its last two digits. */
  lemma SeasonToCodeLongLabel(y1: string, y2: string)
    requires |y1| == 4 && AllDigits(y1) && |y2| == 4 && AllDigits(y2)
    ensures SeasonToCode(Some(y1 + "/" + y2)) == Some(y1[2..] + y2[2..])
  {
    var s := y1 + "/" + y2;
    StripPlain(s);
    TailAfterSlash(y1, y2);
    assert TailCode(s) == Some(y1[2..] + y2[2..]);
  }

  /** The short label of the 2024 season. */
  lemma SeasonToCode2024Short(season: string)
    requires season == "2024/25"
    ensures SeasonToCode(Some(season)) == Some("2425")
  {
    var y, a := "2024", "25";
    assert y + "/" + a == season;
    assert y[2..] + a == "2425";
    SeasonToCodeShortLabel(y, a);
  }

  /** The long label of the 2024 season. */
  lemma SeasonToCode2024Long(season: string)
    requires season == "2024/2025"
    ensures SeasonToCode(Some(season)) == Some("2425")
  {
    var y, b := "2024", "2025";
    assert y + "/" + b == season;
    assert y[2..] + b[2..] == "2425";
    SeasonToCodeLongLabel(y, b);
  }

  // ---------------------------------------------------------------------
  // `pick_odds`
  // ---------------------------------------------------------------------

  /** A CSV row: column name to cell text. */
  type Row = map<string, string>

  /** `(row.get(key) or "").strip()`. */
  function Cell(row: Row, key: string): string
  {
    Strip(GetOr(row, key, ""))
  }

  /** The closing-odds column of a pre-match column: `B365` becomes `B365C` once. */
  function ClosingKey(pre: string): string
  {
    ReplaceFirst(pre, "B365", "B365C")
  }

  /** `pick_odds`. */
  function PickOdds(row: Row, pre: string, closing: bool): Option<real>
  {
    var v := Cell(row, if closing then ClosingKey(pre) else pre);
    var w := if v == "" && closing then Cell(row, pre) else v;
    if w == "" then None else ParseDecimal(w)
  }

  /**
   * Pre-match mode reads the pre-match cell. Closing mode reads the closing
   * cell when it is not blank (an unparsable closing value gives None, with
   * no fallback), and otherwise behaves as pre-match mode. A blank cell
   * gives None.
   */
  lemma PickOddsMeaning(row: Row, pre: string)
    ensures PickOdds(row, pre, false) == (if Cell(row, pre) == "" then None else ParseDecimal(Cell(row, pre)))
    ensures Cell(row, ClosingKey(pre)) != "" ==> PickOdds(row, pre, true) == ParseDecimal(Cell(row, ClosingKey(pre)))
    ensures Cell(row, ClosingKey(pre)) == "" ==> PickOdds(row, pre, true) == PickOdds(row, pre, false)
  {
  }

  /** The closing column of `B365H` is `B365CH`. */
  lemma ClosingKeyOfHome()
    ensures ClosingKey("B365H") == "B365CH"
  {
    assert StartsWith("B365H", "B365");
    assert "B365H"[0..] == "B365H";
    assert ReplaceFirst("B365H", "B365", "B365C") == "B365H"[..0] + "B365C" + "B365H"[4..];
  }

  // ---------------------------------------------------------------------
  // `_insert_odds_row` column selection
  // ---------------------------------------------------------------------

  /** The insertable columns in the order the insert lists them. */
  const AllowedCols: seq<string> := [
    "quote_id", "match_id", "bookmaker", "market", "selection", "odds_decimal",
    "retrieved_at_utc", "batch_id", "source_id",
    "reliability_score", "ttl_seconds", "cache_hit", "raw_ref"]

  /** The columns inserted only when the table has them. */
  const OptionalCols: set<string> := {
    "quote_id", "batch_id", "source_id", "reliability_score", "ttl_seconds", "cache_hit", "raw_ref"}

  /** Column `c` goes into the insert: the payload has it, and the table too if it is optional. */
  predicate Keeps<V>(c: string, tableCols: set<string>, payload: map<string, V>)
  {
    c in payload && (c in OptionalCols ==> c in tableCols)
  }

  function SelectedCols<V>(cols: seq<string>, tableCols: set<string>, payload: map<string, V>): seq<string>
  {
    if cols == [] then []
    else
      var pre := SelectedCols(cols[..|cols| - 1], tableCols, payload);
      var c := cols[|cols| - 1];
      if Keeps(c, tableCols, payload) then pre + [c] else pre
  }

  /** `a` is `b` with some elements left out, the rest in their order. */
  predicate Subsequence(a: seq<string>, b: seq<string>)
    decreases |b|
  {
    a == [] || (b != [] &&
      ((a[|a| - 1] == b[|b| - 1] && Subsequence(a[..|a| - 1], b[..|b| - 1]))
       || Subsequence(a, b[..|b| - 1])))
  }

  /** The insert: the column list with its values, or the error the script raises. */
  datatype Insert<V> = NoValidColumns | Insert(cols: seq<string>, vals: seq<V>)

  function InsertOf<V>(tableCols: set<string>, payload: map<string, V>): Insert<V>
  {
    var cols := SelectedCols(AllowedCols, tableCols, payload);
    if cols == [] then NoValidColumns
    else
      SelectedInPayload(AllowedCols, tableCols, payload);
      Insert(cols, seq(|cols|, i requires 0 <= i < |cols| => payload[cols[i]]))
  }

  lemma SelectedInPayload<V>(cols: seq<string>, tableCols: set<string>, payload: map<string, V>)
    ensures forall i :: 0 <= i < |SelectedCols(cols, tableCols, payload)| ==>
      SelectedCols(cols, tableCols, payload)[i] in payload
  {
    var r := SelectedCols(cols, tableCols, payload);
    SelectedColsMeaning(cols, tableCols, payload);
    forall i | 0 <= i < |r| ensures r[i] in payload {
      assert r[i] in r;
    }
  }

  /**
   * The selected columns are exactly the listed ones the insert keeps, in
   * their listed order.
   */
  lemma {:induction false} SelectedColsMeaning<V>(cols: seq<string>, tableCols: set<string>, payload: map<string, V>)
    ensures forall c :: c in SelectedCols(cols, tableCols, payload) <==> c in cols && Keeps(c, tableCols, payload)
    ensures Subsequence(SelectedCols(cols, tableCols, payload), cols)
    decreases |cols|
  {
    if cols != [] {
      var pre := cols[..|cols| - 1];
      var r := SelectedCols(cols, tableCols, payload);
      SelectedColsMeaning(pre, tableCols, payload);
      assert cols == pre + [cols[|cols| - 1]];
      if Keeps(cols[|cols| - 1], tableCols, payload) {
        assert r[..|r| - 1] == SelectedCols(pre, tableCols, payload);
      }
    }
  }

  /**
   * The insert names, in the listed order, every payload column the table
   * can take (an optional column only if the table has it) and no other,
   * with each column's payload value; it is refused exactly when no column
   * qualifies.
   */
  lemma InsertMeaning<V>(tableCols: set<string>, payload: map<string, V>)
    ensures InsertOf(tableCols, payload).NoValidColumns?
      <==> forall c :: c in AllowedCols ==> !Keeps(c, tableCols, payload)
    ensures InsertOf(tableCols, payload).Insert? ==>
      var ins := InsertOf(tableCols, payload);
      (forall c :: c in ins.cols <==> c in AllowedCols && Keeps(c, tableCols, payload))
      && Subsequence(ins.cols, AllowedCols)
      && |ins.vals| == |ins.cols|
      && forall i :: 0 <= i < |ins.cols| ==> ins.cols[i] in payload && ins.vals[i] == payload[ins.cols[i]]
  {
    SelectedColsMeaning(AllowedCols, tableCols, payload);
    SelectedInPayload(AllowedCols, tableCols, payload);
    var cols := SelectedCols(AllowedCols, tableCols, payload);
    if cols != [] {
      assert cols[0] in cols;
    } else {
      assert forall c :: c !in cols;
    }
  }

  /** The column loop of `_insert_odds_row`. */
  method InsertOddsRow<V>(tableCols: set<string>, payload: map<string, V>) returns (ins: Insert<V>)
    ensures ins == InsertOf(tableCols, payload)
  {
    var cols: seq<string> := [];
    var vals: seq<V> := [];
    var i := 0;
    while i < |AllowedCols|
      invariant 0 <= i <= |AllowedCols|
      invariant cols == SelectedCols(AllowedCols[..i], tableCols, payload)
      invariant |vals| == |cols|
      invariant forall k :: 0 <= k < |cols| ==> cols[k] in payload && vals[k] == payload[cols[k]]
    {
      var c := AllowedCols[i];
      assert AllowedCols[..i + 1][..i] == AllowedCols[..i];
      if c in payload && (c !in OptionalCols || c in tableCols) {
        cols := cols + [c];
        vals := vals + [payload[c]];
      }
      i := i + 1;
    }
    assert AllowedCols[..i] == AllowedCols;
    if cols == [] {
      ins := NoValidColumns;
    } else {
      SelectedInPayload(AllowedCols, tableCols, payload);
      assert vals == seq(|cols|, k requires 0 <= k < |cols| => payload[cols[k]]);
      ins := Insert(cols, vals);
    }
  }
}
