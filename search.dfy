/** The searcher, `SeriesSearcher.search`: find the time series and series groups
    whose name, code or some keyword matches a text, as a table of result rows;
    text with spaces is searched word by word, and the word tables are merged,
    deduplicated by id and limited with `limit_rows_of_df`.

    The stored series are a sequence of records, in the order the database
    returns them. */
module Search {
  import opened Base

  /** A stored series as the searcher sees it; `code` is the time-series code or
      the series-group code, by kind. */
  datatype Record = Record(kind: Kind, id: int, name: string, code: string,
                           description: Option<string>, keywords: seq<string>)

  /** The boolean parameters of `search`. */
  datatype Options = Options(byName: bool, byCode: bool, byKeyword: bool, partial: bool,
                             timeSeries: bool, seriesGroups: bool)

  /** One row of the result table: type, id, name, code, description, keywords. */
  datatype ResultRow = ResultRow(kind: string, id: int, name: string, code: string,
                                 description: Option<string>, keywords: string)

  /** What a call of `search` gives: None, a table of rows, or the exception it
      raises. */
  datatype Found = NotFound | Table(rows: seq<ResultRow>) | Raised(error: Error)

  /** The `limit_rows` argument: a bool, an int, or any other value. */
  datatype LimitArg = BoolLimit(b: bool) | IntLimit(n: int) | OtherLimit

  /** `DataFrame.head(n)`: the first `n` rows; a negative `n` drops the last `-n`. */
  function Head(rows: seq<ResultRow>, n: int): (r: seq<ResultRow>)
    ensures |r| <= |rows| && r == rows[..|r|]
    ensures n >= 0 ==> |r| == if n < |rows| then n else |rows|
    ensures n < 0 ==> |r| == if |rows| + n > 0 then |rows| + n else 0
  {
    if n >= 0 then (if n < |rows| then rows[..n] else rows)
    else if |rows| + n > 0 then rows[..|rows| + n]
    else []
  }

  /** `limit_rows_of_df`: `True` stands for 100 and an int `n` goes to `head(n)`.
      A bool is an int, so `False` goes to `head(False)`, which raises TypeError:
      pandas refuses a bool as a positional slice bound. Any value that is not an
      int leaves the table as it is. */
  function LimitRows(rows: seq<ResultRow>, limit: LimitArg): (r: Result<seq<ResultRow>>)
    ensures r.Err? <==> limit == BoolLimit(false)
    ensures r.Err? ==> r.error == TypeError
    ensures r.Ok? ==> |r.value| <= |rows| && r.value == rows[..|r.value|]
  {
    match limit
    case BoolLimit(b) => if b then Ok(Head(rows, 100)) else Err(TypeError)
    case IntLimit(n) => Ok(Head(rows, n))
    case OtherLimit => Ok(rows)
  }

  /** The sizes the limit gives, and the limit that raises. */
  lemma LimitRowsSizes(rows: seq<ResultRow>)
    ensures LimitRows(rows, BoolLimit(true)).Ok?
    ensures |LimitRows(rows, BoolLimit(true)).value| == if |rows| < 100 then |rows| else 100
    ensures LimitRows(rows, BoolLimit(false)) == Err(TypeError)
    ensures forall n :: 0 <= n ==> LimitRows(rows, IntLimit(n)).Ok? &&
                                   |LimitRows(rows, IntLimit(n)).value| == if n < |rows| then n else |rows|
    ensures LimitRows(rows, OtherLimit) == Ok(rows)
  {
  }

  /** The fields a text can be matched against. */
  datatype Column = NameColumn | CodeColumn | KeywordColumn

  /** `get_filter`: a case-insensitive substring test (ILIKE '%text%'), or equality. */
  predicate FieldMatches(field: string, text: string, partial: bool) {
    if partial then IsSubstring(Lower(text), Lower(field)) else field == text
  }

  predicate ColumnMatches(rec: Record, c: Column, text: string, partial: bool) {
    match c
    case NameColumn => FieldMatches(rec.name, text, partial)
    case CodeColumn => FieldMatches(rec.code, text, partial)
    case KeywordColumn => exists i :: 0 <= i < |rec.keywords| && FieldMatches(rec.keywords[i], text, partial)
  }

  /** The query's filter: the or of the conditions, or no filter without any. */
  predicate Satisfies(rec: Record, conditions: seq<Column>, text: string, partial: bool) {
    conditions == [] || exists c | c in conditions :: ColumnMatches(rec, c, text, partial)
  }

  /** A record matches when some enabled field matches the text, or when no field
      is enabled at all. */
  predicate RecordMatches(rec: Record, text: string, opts: Options) {
    (!opts.byName && !opts.byCode && !opts.byKeyword) ||
    (opts.byName && FieldMatches(rec.name, text, opts.partial)) ||
    (opts.byCode && FieldMatches(rec.code, text, opts.partial)) ||
    (opts.byKeyword && exists i :: 0 <= i < |rec.keywords| && FieldMatches(rec.keywords[i], text, opts.partial))
  }

  function KindName(kind: Kind): string {
    match kind
    case TimeSeriesKind => "TimeSeries"
    case SeriesGroupKind => "SeriesGroup"
  }

  function ToRow(rec: Record): ResultRow {
    ResultRow(KindName(rec.kind), rec.id, rec.name, rec.code, rec.description, Join(rec.keywords, ", "))
  }

  /** The rows of the records of one kind that match, in store order. */
  function KindRows(records: seq<Record>, kind: Kind, text: string, opts: Options): seq<ResultRow> {
    if records == [] then []
    else
      var init := KindRows(records[..|records| - 1], kind, text, opts);
      var rec := records[|records| - 1];
      if rec.kind == kind && RecordMatches(rec, text, opts) then init + [ToRow(rec)] else init
  }

  /** A row is found for a kind exactly when a record of that kind matches. */
  lemma {:induction false} KindRowsMembers(records: seq<Record>, kind: Kind, text: string, opts: Options)
    ensures forall x :: x in KindRows(records, kind, text, opts) <==>
                        exists i :: 0 <= i < |records| && records[i].kind == kind &&
                                    RecordMatches(records[i], text, opts) && x == ToRow(records[i])
  {
    if records != [] {
      var init := records[..|records| - 1];
      KindRowsMembers(init, kind, text, opts);
      assert forall i :: 0 <= i < |init| ==> init[i] == records[i];
    }
  }

  /** Every row found for a kind is typed with that kind. */
  lemma {:induction false} KindRowsTyped(records: seq<Record>, kind: Kind, text: string, opts: Options)
    ensures forall x :: x in KindRows(records, kind, text, opts) ==> x.kind == KindName(kind)
  {
    if records != [] {
      KindRowsTyped(records[..|records| - 1], kind, text, opts);
    }
  }

  /** The search for one word (a text without spaces). The limited table is
      computed, which can raise, and then discarded. */
  function SingleSpec(records: seq<Record>, text: string, opts: Options, limit: LimitArg): Found {
    if text == "" then Table([])
    else
      var rows := (if opts.timeSeries then KindRows(records, TimeSeriesKind, text, opts) else []) +
                  (if opts.seriesGroups then KindRows(records, SeriesGroupKind, text, opts) else []);
      if rows == [] then NotFound
      else if LimitRows(rows, limit).Err? then Raised(LimitRows(rows, limit).error)
      else Table(rows)
  }

  /** The result of every word of a text, in word order. */
  function WordResults(records: seq<Record>, words: seq<string>, opts: Options, limit: LimitArg): seq<Found> {
    seq(|words|, k requires 0 <= k < |words| => SingleSpec(records, words[k], opts, limit))
  }

  /** The list of tables the word results give: None results are skipped, and
      the first exception ends the loop. */
  function Collect(founds: seq<Found>): Result<seq<seq<ResultRow>>> {
    if founds == [] then Ok([])
    else
      match Collect(founds[..|founds| - 1])
      case Err(e) => Err(e)
      case Ok(init) =>
        match founds[|founds| - 1]
        case NotFound => Ok(init)
        case Table(rows) => Ok(init + [rows])
        case Raised(e) => Err(e)
  }

  function Concat(tables: seq<seq<ResultRow>>): seq<ResultRow> {
    if tables == [] then [] else Concat(tables[..|tables| - 1]) + tables[|tables| - 1]
  }

  /** `drop_duplicates(['id'])`: the first row of every id, in order. */
  function DedupById(rows: seq<ResultRow>, seen: set<int>): seq<ResultRow> {
    if rows == [] then []
    else if rows[0].id in seen then DedupById(rows[1..], seen)
    else [rows[0]] + DedupById(rows[1..], seen + {rows[0].id})
  }

  /** `SeriesSearcher.search(search_text, ..., limit_rows)`. */
  function SearchSpec(records: seq<Record>, text: string, opts: Options, limit: LimitArg): Found {
    if ' ' in text then
      match Collect(WordResults(records, Split(text, ' '), opts, limit))
      case Err(e) => Raised(e)
      case Ok(tables) =>
        if tables == [] then NotFound
        else
          match LimitRows(DedupById(Concat(tables), {}), limit)
          case Err(e) => Raised(e)
          case Ok(rows) => Table(rows)
    else SingleSpec(records, text, opts, limit)
  }

  /** The query for one kind: the or-conditions of the enabled fields, then the
      records of that kind that satisfy them, as rows. */
  method QueryKind(records: seq<Record>, kind: Kind, text: string, opts: Options) returns (rows: seq<ResultRow>)
    ensures rows == KindRows(records, kind, text, opts)
  {
    var conditions: seq<Column> := [];
    if opts.byName {
      conditions := conditions + [NameColumn];
    }
    if opts.byCode {
      conditions := conditions + [CodeColumn];
    }
    if opts.byKeyword {
      conditions := conditions + [KeywordColumn];
    }
    assert conditions == OrConditions(opts);
    rows := [];
    var i := 0;
    while i < |records|
      invariant 0 <= i <= |records|
      invariant rows == KindRows(records[..i], kind, text, opts)
    {
      ConditionsAgree(records[i], text, opts);
      assert records[..i + 1][..i] == records[..i];
      if records[i].kind == kind && Satisfies(records[i], conditions, text, opts.partial) {
        rows := rows + [ToRow(records[i])];
      }
      i := i + 1;
    }
    assert records[..i] == records;
  }

  /** The or-conditions of the enabled fields, in the order the query adds them. */
  function OrConditions(opts: Options): seq<Column> {
    (if opts.byName then [NameColumn] else []) +
    (if opts.byCode then [CodeColumn] else []) +
    (if opts.byKeyword then [KeywordColumn] else [])
  }

  /** The query's or-conditions select exactly the matching records. */
  lemma ConditionsAgree(rec: Record, text: string, opts: Options)
    ensures Satisfies(rec, OrConditions(opts), text, opts.partial) <==> RecordMatches(rec, text, opts)
  {
    var conditions := OrConditions(opts);
    if opts.byName || opts.byCode || opts.byKeyword {
      assert conditions != [] by {
        if opts.byName { assert NameColumn in conditions; }
        if opts.byCode { assert CodeColumn in conditions; }
        if opts.byKeyword { assert KeywordColumn in conditions; }
      }
      if RecordMatches(rec, text, opts) {
        if opts.byName && FieldMatches(rec.name, text, opts.partial) {
          assert ColumnMatches(rec, NameColumn, text, opts.partial);
        } else if opts.byCode && FieldMatches(rec.code, text, opts.partial) {
          assert ColumnMatches(rec, CodeColumn, text, opts.partial);
        } else {
          assert ColumnMatches(rec, KeywordColumn, text, opts.partial);
        }
      }
      if Satisfies(rec, conditions, text, opts.partial) {
        var c :| c in conditions && ColumnMatches(rec, c, text, opts.partial);
      }
    }
  }

  /** `search`: text with a space is searched word by word and the tables merged;
      otherwise the time series, then the series groups, that match. */
  method Search(records: seq<Record>, text: string, opts: Options, limit: LimitArg) returns (r: Found)
    ensures r == SearchSpec(records, text, opts, limit)
    decreases if ' ' in text then 1 else 0
  {
    if ' ' in text {
      var words := Split(text, ' ');
      ghost var founds := WordResults(records, words, opts, limit);
      var tables: seq<seq<ResultRow>> := [];
      var i := 0;
      while i < |words|
        invariant 0 <= i <= |words|
        invariant Collect(founds[..i]) == Ok(tables)
      {
        var found := Search(records, words[i], opts, limit);
        assert found == founds[i];
        CollectSnoc(founds, i);
        if found.Raised? {
          CollectErrorPersists(founds, i + 1);
          return found;
        }
        if found.Table? {
          tables := tables + [found.rows];
        }
        i := i + 1;
      }
      assert founds[..i] == founds;
      if |tables| > 0 {
        var limited := LimitRows(DedupById(Concat(tables), {}), limit);
        if limited.Err? {
          return Raised(limited.error);
        }
        return Table(limited.value);
      }
      return NotFound;
    }
    r := SearchWord(records, text, opts, limit);
  }

  /** The single-word path of `search`: the query of each selected kind, time
      series first. */
  method SearchWord(records: seq<Record>, text: string, opts: Options, limit: LimitArg) returns (r: Found)
    ensures r == SingleSpec(records, text, opts, limit)
  {
    if text == "" {
      return Table([]);
    }
    var rows: seq<ResultRow> := [];
    if opts.timeSeries {
      var found := QueryKind(records, TimeSeriesKind, text, opts);
      rows := rows + found;
    }
    if opts.seriesGroups {
      var found := QueryKind(records, SeriesGroupKind, text, opts);
      rows := rows + found;
    }
    if rows == [] {
      return NotFound;
    }
    // the limited table is computed and not returned
    var limited := LimitRows(rows, limit);
    if limited.Err? {
      return Raised(limited.error);
    }
    return Table(rows);
  }

  /** Empty text gives an empty table, not None. */
  lemma EmptyTextGivesEmptyTable(records: seq<Record>, opts: Options, limit: LimitArg)
    ensures SearchSpec(records, "", opts, limit) == Table([])
  {
  }

  /** For one non-empty word: a row is returned exactly when a record of a selected
      kind matches, and None is returned exactly when no record does. */
  lemma SingleWordMembers(records: seq<Record>, text: string, opts: Options, limit: LimitArg)
    requires text != "" && ' ' !in text
    ensures SearchSpec(records, text, opts, limit).NotFound? <==>
            !exists i :: 0 <= i < |records| && KindSelected(records[i].kind, opts) &&
                         RecordMatches(records[i], text, opts)
    ensures SearchSpec(records, text, opts, limit).Table? ==>
            forall x :: x in SearchSpec(records, text, opts, limit).rows <==>
                        exists i :: 0 <= i < |records| && KindSelected(records[i].kind, opts) &&
                                    RecordMatches(records[i], text, opts) && x == ToRow(records[i])
  {
    KindRowsMembers(records, TimeSeriesKind, text, opts);
    KindRowsMembers(records, SeriesGroupKind, text, opts);
    var ts := if opts.timeSeries then KindRows(records, TimeSeriesKind, text, opts) else [];
    var sg := if opts.seriesGroups then KindRows(records, SeriesGroupKind, text, opts) else [];
    forall i | 0 <= i < |records| && KindSelected(records[i].kind, opts) && RecordMatches(records[i], text, opts)
      ensures ToRow(records[i]) in ts + sg
    {
      if records[i].kind == TimeSeriesKind {
        assert ToRow(records[i]) in ts;
      } else {
        assert ToRow(records[i]) in sg;
      }
    }
    if ts + sg != [] {
      var x := (ts + sg)[0];
      assert x in ts || x in sg;
    }
  }

  predicate KindSelected(kind: Kind, opts: Options) {
    match kind
    case TimeSeriesKind => opts.timeSeries
    case SeriesGroupKind => opts.seriesGroups
  }

  /** With no field enabled there is no filter: every record of a selected kind is
      returned. */
  lemma NoFieldsReturnsAll(records: seq<Record>, text: string, opts: Options, limit: LimitArg)
    requires text != "" && ' ' !in text
    requires !opts.byName && !opts.byCode && !opts.byKeyword
    ensures SearchSpec(records, text, opts, limit).Table? ==>
            forall x :: x in SearchSpec(records, text, opts, limit).rows <==>
                        exists i :: 0 <= i < |records| && KindSelected(records[i].kind, opts) && x == ToRow(records[i])
    ensures SearchSpec(records, text, opts, limit).NotFound? <==>
            forall i :: 0 <= i < |records| ==> !KindSelected(records[i].kind, opts)
  {
    SingleWordMembers(records, text, opts, limit);
  }

  /** The time-series rows come before the series-group rows. */
  lemma TimeSeriesRowsFirst(records: seq<Record>, text: string, opts: Options, limit: LimitArg)
    requires ' ' !in text && SearchSpec(records, text, opts, limit).Table?
    ensures var rows := SearchSpec(records, text, opts, limit).rows;
            forall i, j :: 0 <= i < j < |rows| && rows[j].kind == "TimeSeries" ==> rows[i].kind == "TimeSeries"
  {
    if text != "" {
      KindRowsTyped(records, TimeSeriesKind, text, opts);
      KindRowsTyped(records, SeriesGroupKind, text, opts);
      var ts := if opts.timeSeries then KindRows(records, TimeSeriesKind, text, opts) else [];
      var sg := if opts.seriesGroups then KindRows(records, SeriesGroupKind, text, opts) else [];
      var rows := ts + sg;
      assert SearchSpec(records, text, opts, limit).rows == rows;
      assert "SeriesGroup" != "TimeSeries";
      forall k | |ts| <= k < |rows| ensures rows[k].kind == "SeriesGroup" {
        assert rows[k] == sg[k - |ts|];
      }
      forall i | 0 <= i < |ts| ensures rows[i].kind == "TimeSeries" {
        assert rows[i] == ts[i];
      }
    }
  }

  /** For one word the limited table is discarded: every limit but `False` gives
      the same result, a table returned holds every match whatever the limit, and
      a search with more matches than the limit returns all of them. */
  lemma SingleWordIgnoresLimit(records: seq<Record>, text: string, opts: Options, l1: LimitArg, l2: LimitArg)
    requires ' ' !in text
    ensures l1 != BoolLimit(false) && l2 != BoolLimit(false) ==>
            SearchSpec(records, text, opts, l1) == SearchSpec(records, text, opts, l2)
    ensures SearchSpec(records, text, opts, l1).Table? ==>
            SearchSpec(records, text, opts, l1) == SearchSpec(records, text, opts, OtherLimit)
    ensures SearchSpec(records, text, opts, OtherLimit).Table? &&
            |SearchSpec(records, text, opts, OtherLimit).rows| > 100 ==>
            SearchSpec(records, text, opts, IntLimit(100)).Table? &&
            |SearchSpec(records, text, opts, IntLimit(100)).rows| > 100
  {
  }

  /** `limit_rows=False` raises TypeError wherever a table is limited: only the
      empty text, which returns before any limit, gives a table; every other
      search gives None or raises. */
  lemma {:induction false} FalseLimitRaises(records: seq<Record>, text: string, opts: Options)
    ensures SearchSpec(records, text, opts, BoolLimit(false)).Table? <==> text == ""
    ensures SearchSpec(records, text, opts, BoolLimit(false)).Raised? ==>
            SearchSpec(records, text, opts, BoolLimit(false)).error == TypeError
  {
    if ' ' in text {
      var founds := WordResults(records, Split(text, ' '), opts, BoolLimit(false));
      MultiWordUnfold(records, text, opts, BoolLimit(false), founds);
      CollectSpec(founds);
      if Collect(founds).Err? {
        var k :| 0 <= k < |founds| && founds[k].Raised? && Collect(founds).error == founds[k].error;
        assert founds[k] == SingleSpec(records, Split(text, ' ')[k], opts, BoolLimit(false));
      }
    }
  }

  /** No row before position `i` has the id of row `i`. */
  predicate FirstOfId(rows: seq<ResultRow>, i: nat)
    requires i < |rows|
  {
    forall j :: 0 <= j < i ==> rows[j].id != rows[i].id
  }

  /** Deduplication keeps exactly the first row of every id not yet seen. */
  lemma {:induction false} DedupByIdMembers(rows: seq<ResultRow>, seen: set<int>, x: ResultRow)
    ensures x in DedupById(rows, seen) <==>
            exists i :: 0 <= i < |rows| && rows[i] == x && x.id !in seen && FirstOfId(rows, i)
  {
    if rows != [] {
      var t := rows[1..];
      var seen' := if rows[0].id in seen then seen else seen + {rows[0].id};
      DedupByIdMembers(t, seen', x);
      if exists i :: 0 <= i < |rows| && rows[i] == x && x.id !in seen && FirstOfId(rows, i) {
        var i :| 0 <= i < |rows| && rows[i] == x && x.id !in seen && FirstOfId(rows, i);
        if i > 0 {
          assert t[i - 1] == x;
          assert FirstOfId(t, i - 1) by {
            forall j | 0 <= j < i - 1 ensures t[j].id != t[i - 1].id {
              assert t[j] == rows[j + 1];
            }
          }
          assert rows[0].id != x.id;
        }
      }
      if x in DedupById(rows, seen) && !(x == rows[0] && rows[0].id !in seen) {
        assert x in DedupById(t, seen');
        var k :| 0 <= k < |t| && t[k] == x && x.id !in seen' && FirstOfId(t, k);
        assert rows[k + 1] == x;
        assert FirstOfId(rows, k + 1) by {
          forall j | 0 <= j < k + 1 ensures rows[j].id != rows[k + 1].id {
            if j > 0 {
              assert rows[j] == t[j - 1];
            }
          }
        }
      }
    }
  }

  /** Deduplication leaves every id at most once and avoids the ids already seen. */
  lemma {:induction false} DedupByIdDistinct(rows: seq<ResultRow>, seen: set<int>)
    ensures forall i, j :: 0 <= i < j < |DedupById(rows, seen)| ==>
                           DedupById(rows, seen)[i].id != DedupById(rows, seen)[j].id
    ensures forall i :: 0 <= i < |DedupById(rows, seen)| ==> DedupById(rows, seen)[i].id !in seen
  {
    if rows != [] {
      if rows[0].id in seen {
        DedupByIdDistinct(rows[1..], seen);
      } else {
        var seen' := seen + {rows[0].id};
        DedupByIdDistinct(rows[1..], seen');
        var tail := DedupById(rows[1..], seen');
        var out := DedupById(rows, seen);
        assert out == [rows[0]] + tail;
        assert forall i :: 0 < i < |out| ==> out[i] == tail[i - 1];
      }
    }
  }

  /** The id of every row of the input not already seen is kept. */
  lemma {:induction false} DedupByIdKeepsIds(rows: seq<ResultRow>, seen: set<int>)
    ensures forall i :: 0 <= i < |rows| && rows[i].id !in seen ==> HasId(DedupById(rows, seen), rows[i].id)
  {
    if rows != [] {
      var t := rows[1..];
      var seen' := if rows[0].id in seen then seen else seen + {rows[0].id};
      DedupByIdKeepsIds(t, seen');
      var tail := DedupById(t, seen');
      var out := DedupById(rows, seen);
      forall i | 0 <= i < |rows| && rows[i].id !in seen
        ensures HasId(out, rows[i].id)
      {
        if rows[i].id == rows[0].id {
          assert out == [rows[0]] + tail;
          assert out[0].id == rows[i].id;
        } else {
          assert t[i - 1] == rows[i];
          assert HasId(tail, rows[i].id);
          var k :| 0 <= k < |tail| && tail[k].id == rows[i].id;
          if rows[0].id in seen {
            assert out == tail;
          } else {
            assert out == [rows[0]] + tail;
            assert out[k + 1].id == rows[i].id;
          }
        }
      }
    }
  }

  predicate HasId(rows: seq<ResultRow>, id: int) {
    exists j :: 0 <= j < |rows| && rows[j].id == id
  }

  /** Collecting fails exactly when some word raised, with the error of a word
      that raised; otherwise the tables are empty exactly when every result is
      None, and their concatenation holds exactly the rows of the tables. */
  lemma {:induction false} CollectSpec(founds: seq<Found>)
    ensures Collect(founds).Ok? <==> forall k :: 0 <= k < |founds| ==> !founds[k].Raised?
    ensures Collect(founds).Err? ==>
            exists k :: 0 <= k < |founds| && founds[k].Raised? && Collect(founds).error == founds[k].error
    ensures Collect(founds) == Ok([]) <==> forall k :: 0 <= k < |founds| ==> founds[k].NotFound?
    ensures Collect(founds).Ok? ==>
            forall x :: x in Concat(Collect(founds).value) <==>
                        exists k :: 0 <= k < |founds| && founds[k].Table? && x in founds[k].rows
  {
    if founds != [] {
      var init := founds[..|founds| - 1];
      var last := founds[|founds| - 1];
      CollectSpec(init);
      assert forall k :: 0 <= k < |init| ==> init[k] == founds[k];
      if Collect(init).Ok? {
        var t0 := Collect(init).value;
        if last.Table? {
          var t := t0 + [last.rows];
          assert Collect(founds) == Ok(t);
          assert t[..|t0|] == t0;
          assert Concat(t) == Concat(t0) + last.rows;
          forall x | x in last.rows
            ensures exists k :: 0 <= k < |founds| && founds[k].Table? && x in founds[k].rows
          {
            assert founds[|founds| - 1] == last;
          }
        } else if last.Raised? {
          assert founds[|founds| - 1].Raised?;
        }
      } else {
        var k :| 0 <= k < |init| && init[k].Raised? && Collect(init).error == init[k].error;
        assert founds[k] == init[k];
      }
    }
  }

  /** One more word result extends the collection of the words before it. */
  lemma CollectSnoc(founds: seq<Found>, i: nat)
    requires i < |founds| && Collect(founds[..i]).Ok?
    ensures Collect(founds[..i + 1]) ==
            match founds[i]
            case NotFound => Collect(founds[..i])
            case Table(rows) => Ok(Collect(founds[..i]).value + [rows])
            case Raised(e) => Err(e)
  {
    assert founds[..i + 1][..i] == founds[..i];
  }

  /** Once a prefix of the word results fails, the whole collection does, with
      the same error. */
  lemma {:induction false} CollectErrorPersists(founds: seq<Found>, k: nat)
    requires k <= |founds| && Collect(founds[..k]).Err?
    ensures Collect(founds) == Collect(founds[..k])
    decreases |founds| - k
  {
    if k < |founds| {
      assert founds[..k + 1][..k] == founds[..k];
      CollectErrorPersists(founds, k + 1);
    } else {
      assert founds[..k] == founds;
    }
  }

  /** What `search` does with text that has a space, over the results of its words. */
  lemma MultiWordUnfold(records: seq<Record>, text: string, opts: Options, limit: LimitArg, founds: seq<Found>)
    requires ' ' in text && founds == WordResults(records, Split(text, ' '), opts, limit)
    ensures Collect(founds).Err? ==> SearchSpec(records, text, opts, limit) == Raised(Collect(founds).error)
    ensures Collect(founds) == Ok([]) ==> SearchSpec(records, text, opts, limit) == NotFound
    ensures Collect(founds).Ok? && Collect(founds).value != [] ==>
            var limited := LimitRows(DedupById(Concat(Collect(founds).value), {}), limit);
            SearchSpec(records, text, opts, limit) == if limited.Err? then Raised(limited.error) else Table(limited.value)
  {
  }

  /** Text with a space: None exactly when every word gives None. */
  lemma {:induction false} MultiWordNotFound(records: seq<Record>, text: string, opts: Options, limit: LimitArg)
    requires ' ' in text
    ensures var founds := WordResults(records, Split(text, ' '), opts, limit);
            SearchSpec(records, text, opts, limit).NotFound? <==>
            forall k :: 0 <= k < |founds| ==> founds[k].NotFound?
  {
    var founds := WordResults(records, Split(text, ' '), opts, limit);
    MultiWordUnfold(records, text, opts, limit, founds);
    CollectSpec(founds);
  }

  /** Text with a space: each row returned comes from some word's table, and no id
      appears twice. */
  lemma {:induction false} MultiWordRows(records: seq<Record>, text: string, opts: Options, limit: LimitArg)
    requires ' ' in text && SearchSpec(records, text, opts, limit).Table?
    ensures var rows := SearchSpec(records, text, opts, limit).rows;
            forall i, j :: 0 <= i < j < |rows| ==> rows[i].id != rows[j].id
    ensures var founds := WordResults(records, Split(text, ' '), opts, limit);
            forall x :: x in SearchSpec(records, text, opts, limit).rows ==>
              exists k :: 0 <= k < |founds| && founds[k].Table? && x in founds[k].rows
  {
    var founds := WordResults(records, Split(text, ' '), opts, limit);
    MultiWordUnfold(records, text, opts, limit, founds);
    CollectSpec(founds);
    var all := Concat(Collect(founds).value);
    var deduped := DedupById(all, {});
    DedupByIdDistinct(all, {});
    var limited := LimitRows(deduped, limit).value;
    assert SearchSpec(records, text, opts, limit).rows == limited;
    assert limited == deduped[..|limited|];
    forall x | x in limited ensures x in all {
      assert x in deduped;
      DedupByIdMembers(all, {}, x);
    }
  }

  /** Text with a space and no limit: every id any word found is returned. */
  lemma {:induction false} MultiWordKeepsIds(records: seq<Record>, text: string, opts: Options)
    requires ' ' in text && SearchSpec(records, text, opts, OtherLimit).Table?
    ensures var founds := WordResults(records, Split(text, ' '), opts, OtherLimit);
            var rows := SearchSpec(records, text, opts, OtherLimit).rows;
            forall k, x :: 0 <= k < |founds| && founds[k].Table? && x in founds[k].rows ==> HasId(rows, x.id)
  {
    var founds := WordResults(records, Split(text, ' '), opts, OtherLimit);
    MultiWordUnfold(records, text, opts, OtherLimit, founds);
    CollectSpec(founds);
    var all := Concat(Collect(founds).value);
    DedupByIdKeepsIds(all, {});
    assert SearchSpec(records, text, opts, OtherLimit).rows == DedupById(all, {});
    forall k, x | 0 <= k < |founds| && founds[k].Table? && x in founds[k].rows
      ensures HasId(DedupById(all, {}), x.id)
    {
      assert x in all;
      var i :| 0 <= i < |all| && all[i] == x;
    }
  }

  /** An empty word (from a doubled, leading or trailing space) gives an empty
      table, so the whole result is never None, even when no other word matches;
      it is a table whenever the limit is not `False`. */
  lemma {:induction false} EmptyWordGivesTable(records: seq<Record>, text: string, opts: Options, limit: LimitArg)
    requires ' ' in text && "" in Split(text, ' ')
    ensures !SearchSpec(records, text, opts, limit).NotFound?
    ensures limit != BoolLimit(false) ==> SearchSpec(records, text, opts, limit).Table?
  {
    var words := Split(text, ' ');
    var founds := WordResults(records, words, opts, limit);
    MultiWordUnfold(records, text, opts, limit, founds);
    CollectSpec(founds);
    var k :| 0 <= k < |words| && words[k] == "";
    assert founds[k] == Table([]);
    if limit != BoolLimit(false) {
      forall j | 0 <= j < |founds| ensures !founds[j].Raised? {
        assert founds[j] == SingleSpec(records, words[j], opts, limit);
      }
    }
  }
}
