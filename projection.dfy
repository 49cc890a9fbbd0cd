/** The point-in-time projection of a time series, `TimeSeries.to_dataframe`:
    snapshot the data points as rows, sort them by (date, date_release, date_create)
    with missing values last, optionally keep the first row of every date, keep the
    rows released by a cutoff, and show the metadata columns only when asked. */
module Projection {
  import opened Base

  /** One data point as a row of the snapshot table. */
  datatype Row = Row(date: Date, value: Cell, created: Option<Timestamp>, released: Option<Date>)

  /** pandas' ascending order on a column with missing values: a missing value
      comes after every present one. */
  predicate OptLeq(a: Option<int>, b: Option<int>) {
    match a
    case None => b.None?
    case Some(x) => b.None? || x <= b.value
  }

  /** The order of two vintages of one date: by release, then by creation. */
  predicate VintageLeq(a: Row, b: Row) {
    if a.released == b.released then OptLeq(a.created, b.created)
    else OptLeq(a.released, b.released)
  }

  /** The sort key (date, date_release, date_create), compared lexicographically. */
  predicate RowLeq(a: Row, b: Row) {
    a.date < b.date || (a.date == b.date && VintageLeq(a, b))
  }

  lemma RowLeqTotal(a: Row, b: Row)
    ensures RowLeq(a, b) || RowLeq(b, a)
  {
  }

  lemma RowLeqTransitive(a: Row, b: Row, c: Row)
    requires RowLeq(a, b) && RowLeq(b, c)
    ensures RowLeq(a, c)
  {
  }

  predicate Sorted(s: seq<Row>) {
    forall i, j :: 0 <= i < j < |s| ==> RowLeq(s[i], s[j])
  }

  /** Inserts `x` before the first row that is not smaller than it, so rows with
      equal keys keep their relative order. */
  function Insert(x: Row, s: seq<Row>): (r: seq<Row>)
    ensures multiset(r) == multiset(s) + multiset{x}
    ensures Sorted(s) ==> Sorted(r)
  {
    if s == [] || RowLeq(x, s[0]) then
      InsertFrontSorted(x, s);
      [x] + s
    else
      var rest := Insert(x, s[1..]);
      assert s == [s[0]] + s[1..];
      InsertLaterSorted(x, s, rest);
      [s[0]] + rest
  }

  lemma ConsSorted(x: Row, s: seq<Row>)
    requires Sorted(s)
    requires forall j :: 0 <= j < |s| ==> RowLeq(x, s[j])
    ensures Sorted([x] + s)
  {
    var t := [x] + s;
    forall i, j | 0 <= i < j < |t| ensures RowLeq(t[i], t[j]) {
      assert t[j] == s[j - 1];
      if i > 0 { assert t[i] == s[i - 1]; }
    }
  }

  lemma InsertFrontSorted(x: Row, s: seq<Row>)
    requires s == [] || RowLeq(x, s[0])
    ensures Sorted(s) ==> Sorted([x] + s)
  {
    if Sorted(s) {
      forall j | 0 <= j < |s| ensures RowLeq(x, s[j]) {
        if j > 0 { RowLeqTransitive(x, s[0], s[j]); }
      }
      ConsSorted(x, s);
    }
  }

  lemma InsertLaterSorted(x: Row, s: seq<Row>, rest: seq<Row>)
    requires s != [] && !RowLeq(x, s[0])
    requires multiset(rest) == multiset(s[1..]) + multiset{x}
    requires Sorted(s[1..]) ==> Sorted(rest)
    ensures Sorted(s) ==> Sorted([s[0]] + rest)
  {
    if Sorted(s) {
      assert Sorted(s[1..]) by {
        forall i, j | 0 <= i < j < |s[1..]| ensures RowLeq(s[1..][i], s[1..][j]) {
          assert s[1..][i] == s[i + 1] && s[1..][j] == s[j + 1];
        }
      }
      forall j | 0 <= j < |rest| ensures RowLeq(s[0], rest[j]) {
        assert rest[j] in multiset(rest);
        if rest[j] != x {
          assert rest[j] in multiset(s[1..]);
          var k :| 0 <= k < |s[1..]| && s[1..][k] == rest[j];
          assert s[k + 1] == rest[j];
        } else {
          RowLeqTotal(x, s[0]);
        }
      }
      ConsSorted(s[0], rest);
    }
  }

  /** A stable sort of the rows by their key, as pandas' multi-column
      `sort_values` (a lexicographic, stable sort). */
  function SortRows(s: seq<Row>): (r: seq<Row>)
    ensures Sorted(r)
    ensures multiset(r) == multiset(s)
  {
    if s == [] then []
    else
      assert s == [s[0]] + s[1..];
      Insert(s[0], SortRows(s[1..]))
  }

  /** The set of dates the rows cover. */
  function Dates(s: seq<Row>): set<Date> {
    set i | 0 <= i < |s| :: s[i].date
  }

  lemma DatesOfPermutation(s: seq<Row>, t: seq<Row>)
    requires multiset(s) == multiset(t)
    ensures Dates(s) == Dates(t)
  {
    forall d | d in Dates(s) ensures d in Dates(t) {
      var i :| 0 <= i < |s| && s[i].date == d;
      assert s[i] in multiset(t);
      var j :| 0 <= j < |t| && t[j] == s[i];
    }
    forall d | d in Dates(t) ensures d in Dates(s) {
      var j :| 0 <= j < |t| && t[j].date == d;
      assert t[j] in multiset(s);
      var i :| 0 <= i < |s| && s[i] == t[j];
    }
  }

  lemma DatesCons(x: Row, s: seq<Row>)
    ensures Dates([x] + s) == {x.date} + Dates(s)
  {
    var t := [x] + s;
    forall d | d in Dates(t) ensures d in {x.date} + Dates(s) {
      var i :| 0 <= i < |t| && t[i].date == d;
      if i > 0 { assert s[i - 1].date == d; }
    }
    forall d | d in Dates(s) ensures d in Dates(t) {
      var i :| 0 <= i < |s| && s[i].date == d;
      assert t[i + 1].date == d;
    }
    assert t[0].date == x.date;
  }

  /** The first row of `s` that has date `d`. */
  function FirstWithDate(s: seq<Row>, d: Date): (r: Row)
    requires d in Dates(s)
    ensures r in s && r.date == d
  {
    assert s == [s[0]] + s[1..];
    DatesCons(s[0], s[1..]);
    if s[0].date == d then s[0] else FirstWithDate(s[1..], d)
  }

  /** `drop_duplicates(subset=['date'])`: the first row of every date not in
      `seen`, in their original order. */
  function KeepFirstPerDate(s: seq<Row>, seen: set<Date>): seq<Row> {
    if s == [] then []
    else if s[0].date in seen then KeepFirstPerDate(s[1..], seen)
    else [s[0]] + KeepFirstPerDate(s[1..], seen + {s[0].date})
  }

  /** Reference definition of the vintage the projection keeps for a date: the row
      of that date with the least (date_release, date_create), a missing value
      counting as the largest, and the earliest such row in the input on a tie. */
  function EarliestVintage(s: seq<Row>, d: Date): (r: Row)
    requires d in Dates(s)
    ensures r in s && r.date == d
  {
    assert s == [s[0]] + s[1..];
    DatesCons(s[0], s[1..]);
    if s[0].date != d then EarliestVintage(s[1..], d)
    else if d !in Dates(s[1..]) then s[0]
    else
      var m := EarliestVintage(s[1..], d);
      if VintageLeq(s[0], m) then s[0] else m
  }

  /** The kept vintage precedes every other vintage of its date. */
  lemma {:induction false} EarliestVintageIsLeast(s: seq<Row>, d: Date)
    requires d in Dates(s)
    ensures forall i :: 0 <= i < |s| && s[i].date == d ==> VintageLeq(EarliestVintage(s, d), s[i])
  {
    assert s == [s[0]] + s[1..];
    DatesCons(s[0], s[1..]);
    if s[0].date != d {
      EarliestVintageIsLeast(s[1..], d);
      forall i | 0 <= i < |s| && s[i].date == d
        ensures VintageLeq(EarliestVintage(s, d), s[i])
      {
        assert s[1..][i - 1] == s[i];
      }
    } else if d !in Dates(s[1..]) {
      forall i | 0 < i < |s| ensures s[i].date != d {
        assert s[1..][i - 1] == s[i];
        assert s[1..][i - 1].date in Dates(s[1..]);
      }
    } else {
      EarliestVintageIsLeast(s[1..], d);
      var m := EarliestVintage(s[1..], d);
      forall i | 0 <= i < |s| && s[i].date == d
        ensures VintageLeq(EarliestVintage(s, d), s[i])
      {
        if i > 0 {
          assert s[1..][i - 1] == s[i];
          assert VintageLeq(m, s[i]);
          RowLeqTotal(s[0], m);
          if VintageLeq(s[0], m) {
            RowLeqTransitive(s[0], m, s[i]);
          }
        } else {
          RowLeqTotal(s[0], m);
        }
      }
    }
  }

  /** A row without a release is kept only when no vintage of its date has one. */
  lemma UnreleasedKeptOnlyAlone(s: seq<Row>, d: Date)
    requires d in Dates(s)
    requires EarliestVintage(s, d).released.None?
    ensures forall i :: 0 <= i < |s| && s[i].date == d ==> s[i].released.None?
  {
    EarliestVintageIsLeast(s, d);
  }

  /* Inserting a row changes the first row of a date only as the reference says. */

  lemma {:induction false} FirstAfterInsertOther(x: Row, t: seq<Row>, d: Date)
    requires x.date != d && d in Dates(t)
    ensures d in Dates(Insert(x, t)) && FirstWithDate(Insert(x, t), d) == FirstWithDate(t, d)
  {
    assert t == [t[0]] + t[1..];
    DatesCons(t[0], t[1..]);
    if RowLeq(x, t[0]) {
      DatesCons(x, t);
    } else {
      var rest := Insert(x, t[1..]);
      DatesCons(t[0], rest);
      if t[0].date != d {
        FirstAfterInsertOther(x, t[1..], d);
      }
    }
  }

  lemma {:induction false} FirstAfterInsertNew(x: Row, t: seq<Row>, d: Date)
    requires x.date == d && d !in Dates(t)
    ensures d in Dates(Insert(x, t)) && FirstWithDate(Insert(x, t), d) == x
  {
    if t == [] || RowLeq(x, t[0]) {
      DatesCons(x, t);
    } else {
      assert t == [t[0]] + t[1..];
      DatesCons(t[0], t[1..]);
      var rest := Insert(x, t[1..]);
      DatesCons(t[0], rest);
      FirstAfterInsertNew(x, t[1..], d);
    }
  }

  lemma {:induction false} FirstAfterInsertSame(x: Row, t: seq<Row>, d: Date)
    requires x.date == d && d in Dates(t) && Sorted(t)
    ensures d in Dates(Insert(x, t))
    ensures FirstWithDate(Insert(x, t), d) ==
            if VintageLeq(x, FirstWithDate(t, d)) then x else FirstWithDate(t, d)
  {
    assert t == [t[0]] + t[1..];
    DatesCons(t[0], t[1..]);
    var f := FirstWithDate(t, d);
    if RowLeq(x, t[0]) {
      DatesCons(x, t);
      var k :| 0 <= k < |t| && t[k] == f;
      if k > 0 { RowLeqTransitive(x, t[0], f); }
    } else {
      var rest := Insert(x, t[1..]);
      DatesCons(t[0], rest);
      if t[0].date != d {
        FirstAfterInsertSame(x, t[1..], d);
      }
    }
  }

  /** Sorting then keeping the first row of a date selects the reference vintage. */
  lemma {:induction false} FirstOfSortedIsEarliest(s: seq<Row>, d: Date)
    requires d in Dates(s)
    ensures d in Dates(SortRows(s)) && FirstWithDate(SortRows(s), d) == EarliestVintage(s, d)
  {
    DatesOfPermutation(s, SortRows(s));
    assert s == [s[0]] + s[1..];
    DatesCons(s[0], s[1..]);
    var t := SortRows(s[1..]);
    DatesOfPermutation(s[1..], t);
    if s[0].date != d {
      FirstOfSortedIsEarliest(s[1..], d);
      FirstAfterInsertOther(s[0], t, d);
    } else if d !in Dates(s[1..]) {
      FirstAfterInsertNew(s[0], t, d);
    } else {
      FirstOfSortedIsEarliest(s[1..], d);
      FirstAfterInsertSame(s[0], t, d);
    }
  }

  /** The rows `drop_duplicates` keeps are exactly the first rows of the dates not
      already seen. */
  lemma {:induction false} KeepFirstMembers(s: seq<Row>, seen: set<Date>, x: Row)
    ensures x in KeepFirstPerDate(s, seen) <==>
            x.date in Dates(s) && x.date !in seen && x == FirstWithDate(s, x.date)
  {
    if s != [] {
      assert s == [s[0]] + s[1..];
      DatesCons(s[0], s[1..]);
      if s[0].date in seen {
        KeepFirstMembers(s[1..], seen, x);
      } else {
        KeepFirstMembers(s[1..], seen + {s[0].date}, x);
      }
    }
  }

  lemma {:induction false} KeepFirstDates(s: seq<Row>, seen: set<Date>)
    ensures Dates(KeepFirstPerDate(s, seen)) == Dates(s) - seen
  {
    if s != [] {
      assert s == [s[0]] + s[1..];
      DatesCons(s[0], s[1..]);
      if s[0].date in seen {
        KeepFirstDates(s[1..], seen);
      } else {
        KeepFirstDates(s[1..], seen + {s[0].date});
        DatesCons(s[0], KeepFirstPerDate(s[1..], seen + {s[0].date}));
      }
    }
  }

  predicate NondecreasingDates(s: seq<Row>) {
    forall i, j :: 0 <= i < j < |s| ==> s[i].date <= s[j].date
  }

  predicate StrictlyAscendingDates(s: seq<Row>) {
    forall i, j :: 0 <= i < j < |s| ==> s[i].date < s[j].date
  }

  /** On rows ordered by date, keeping the first row per date leaves strictly
      ascending, hence pairwise distinct, dates. */
  lemma {:induction false} KeepFirstAscending(s: seq<Row>, seen: set<Date>)
    requires NondecreasingDates(s)
    ensures StrictlyAscendingDates(KeepFirstPerDate(s, seen))
  {
    if s != [] {
      assert s == [s[0]] + s[1..];
      DatesCons(s[0], s[1..]);
      if s[0].date in seen {
        KeepFirstAscending(s[1..], seen);
      } else {
        var seen' := seen + {s[0].date};
        var rest := KeepFirstPerDate(s[1..], seen');
        KeepFirstAscending(s[1..], seen');
        KeepFirstDates(s[1..], seen');
        forall j | 0 <= j < |rest| ensures s[0].date < rest[j].date {
          assert rest[j].date in Dates(rest);
          var k :| 0 <= k < |s[1..]| && s[1..][k].date == rest[j].date;
          assert s[k + 1].date == rest[j].date;
        }
        ConsAscending(s[0], rest);
      }
    }
  }

  lemma ConsAscending(x: Row, rest: seq<Row>)
    requires StrictlyAscendingDates(rest)
    requires forall j :: 0 <= j < |rest| ==> x.date < rest[j].date
    ensures StrictlyAscendingDates([x] + rest)
  {
    var s := [x] + rest;
    forall i, j | 0 <= i < j < |s| ensures s[i].date < s[j].date {
      assert s[j] == rest[j - 1];
      if i > 0 { assert s[i] == rest[i - 1]; }
    }
  }

  /** On rows with strictly ascending dates nothing is dropped. */
  lemma {:induction false} KeepFirstOfDistinct(s: seq<Row>, seen: set<Date>)
    requires StrictlyAscendingDates(s)
    requires forall i :: 0 <= i < |s| ==> s[i].date !in seen
    ensures KeepFirstPerDate(s, seen) == s
  {
    if s != [] {
      forall i | 0 <= i < |s[1..]| ensures s[1..][i].date !in seen + {s[0].date} {
        assert s[1..][i] == s[i + 1];
      }
      KeepFirstOfDistinct(s[1..], seen + {s[0].date});
    }
  }

  /** Sorting rows that are already in key order leaves them as they are. */
  /** Inserting a row whose date is new into rows with strictly ascending dates
      keeps the dates strictly ascending. */
  lemma {:induction false} InsertAscending(x: Row, s: seq<Row>)
    requires StrictlyAscendingDates(s)
    requires forall j :: 0 <= j < |s| ==> s[j].date != x.date
    ensures StrictlyAscendingDates(Insert(x, s))
  {
    if s == [] || RowLeq(x, s[0]) {
      ConsAscending(x, s);
    } else {
      var tail := s[1..];
      assert StrictlyAscendingDates(tail) by {
        forall i, j | 0 <= i < j < |tail| ensures tail[i].date < tail[j].date {
          assert tail[i] == s[i + 1] && tail[j] == s[j + 1];
        }
      }
      forall j | 0 <= j < |tail| ensures tail[j].date != x.date {
        assert tail[j] == s[j + 1];
      }
      InsertAscending(x, tail);
      var rest := Insert(x, tail);
      forall j | 0 <= j < |rest| ensures s[0].date < rest[j].date {
        assert rest[j] in multiset(rest);
        if rest[j] != x {
          assert rest[j] in multiset(tail);
          var k :| 0 <= k < |tail| && tail[k] == rest[j];
          assert s[k + 1] == rest[j];
        }
      }
      ConsAscending(s[0], rest);
    }
  }

  /** Rows with pairwise distinct dates come out of the sort in strictly
      ascending date order. */
  lemma {:induction false} SortDistinctAscending(s: seq<Row>)
    requires forall i, j :: 0 <= i < j < |s| ==> s[i].date != s[j].date
    ensures StrictlyAscendingDates(SortRows(s))
  {
    if s != [] {
      var tail := s[1..];
      forall i, j | 0 <= i < j < |tail| ensures tail[i].date != tail[j].date {
        assert tail[i] == s[i + 1] && tail[j] == s[j + 1];
      }
      SortDistinctAscending(tail);
      var sorted := SortRows(tail);
      forall j | 0 <= j < |sorted| ensures sorted[j].date != s[0].date {
        assert sorted[j] in multiset(tail);
        var k :| 0 <= k < |tail| && tail[k] == sorted[j];
        assert tail[k] == s[k + 1];
      }
      InsertAscending(s[0], sorted);
    }
  }

  lemma {:induction false} SortSortedIsIdentity(s: seq<Row>)
    requires Sorted(s)
    ensures SortRows(s) == s
  {
    if s != [] {
      assert Sorted(s[1..]) by {
        forall i, j | 0 <= i < j < |s[1..]| ensures RowLeq(s[1..][i], s[1..][j]) {
          assert s[1..][i] == s[i + 1] && s[1..][j] == s[j + 1];
        }
      }
      SortSortedIsIdentity(s[1..]);
      assert s == [s[0]] + s[1..];
    }
  }

  /** A cutoff argument of `to_dataframe`: absent, a string to parse, a
      `datetime.date`, a `datetime.datetime`, or a value of some other type. */
  datatype Cutoff = NoCutoff | CutoffText(text: string) | CutoffDate(date: Date) | CutoffDateTime(at: Timestamp)
                  | CutoffOther

  /** What `pd.to_datetime` makes of a string: an error, NaT, or a Timestamp. */
  datatype Parsed = Unparseable | NotATime | At(at: Timestamp)

  /** A cutoff whose value is a point in time (a datetime or a parsed Timestamp):
      Python and pandas 2 refuse to order it against the `datetime.date` release
      of a row. */
  predicate TimeCutoff(cutoff: Cutoff, parse: string -> Parsed) {
    cutoff.CutoffDateTime? || (cutoff.CutoffText? && parse(cutoff.text).At?)
  }

  /** Some row has a present release. */
  predicate AnyReleased(s: seq<Row>) {
    exists i :: 0 <= i < |s| && s[i].released.Some?
  }

  const CutoffMessage := "filter_date_release_smaller_or_equal_to must be a valid date string."

  /** `date_release <= cutoff`: a missing release, or a NaT cutoff, compares false. */
  predicate ReleasedBy(r: Row, cutoff: Option<Date>) {
    r.released.Some? && cutoff.Some? && r.released.value <= cutoff.value
  }

  function FilterReleased(s: seq<Row>, cutoff: Option<Date>): (r: seq<Row>)
    ensures forall x :: x in r <==> x in s && ReleasedBy(x, cutoff)
  {
    if s == [] then []
    else
      assert s == [s[0]] + s[1..];
      if ReleasedBy(s[0], cutoff) then [s[0]] + FilterReleased(s[1..], cutoff)
      else FilterReleased(s[1..], cutoff)
  }

  /** Filtering keeps the order of the rows it keeps. */
  lemma {:induction false} FilterKeepsAscending(s: seq<Row>, cutoff: Option<Date>)
    requires StrictlyAscendingDates(s)
    ensures StrictlyAscendingDates(FilterReleased(s, cutoff))
  {
    if s != [] {
      assert StrictlyAscendingDates(s[1..]) by {
        forall i, j | 0 <= i < j < |s[1..]| ensures s[1..][i].date < s[1..][j].date {
          assert s[1..][i] == s[i + 1] && s[1..][j] == s[j + 1];
        }
      }
      FilterKeepsAscending(s[1..], cutoff);
      var rest := FilterReleased(s[1..], cutoff);
      forall j | 0 <= j < |rest| ensures s[0].date < rest[j].date {
        assert rest[j] in s[1..];
        var k :| 0 <= k < |s[1..]| && s[1..][k] == rest[j];
        assert s[k + 1] == rest[j];
      }
    }
  }

  /** `date_release <= t` for a point in time `t`: a missing release compares
      false, a present one raises TypeError. */
  function CompareWithTime(kept: seq<Row>): Result<seq<Row>> {
    if AnyReleased(kept) then Err(TypeError) else Ok(FilterReleased(kept, None))
  }

  /** The rows `to_dataframe` returns: sorted, deduplicated when asked, then
      filtered by the cutoff, which is validated only when present. */
  function Vintages(points: seq<Row>, onlyMostRecentPerDate: bool, cutoff: Cutoff,
                    parse: string -> Parsed): Result<seq<Row>>
  {
    ApplyCutoff(Kept(points, onlyMostRecentPerDate), cutoff, parse)
  }

  /** The rows after the sort and, when asked, the deduplication. */
  function Kept(points: seq<Row>, onlyMostRecentPerDate: bool): seq<Row> {
    var sorted := SortRows(points);
    if onlyMostRecentPerDate then KeepFirstPerDate(sorted, {}) else sorted
  }

  /** The cutoff step of `to_dataframe` over the kept rows. */
  function ApplyCutoff(kept: seq<Row>, cutoff: Cutoff, parse: string -> Parsed): Result<seq<Row>> {
    match cutoff
    case NoCutoff => Ok(kept)
    case CutoffDate(d) => Ok(FilterReleased(kept, Some(d)))
    case CutoffDateTime(_) => CompareWithTime(kept)
    case CutoffText(t) =>
      (match parse(t)
       case Unparseable => Err(ValueError(CutoffMessage))
       case NotATime => Ok(FilterReleased(kept, None))
       case At(_) => CompareWithTime(kept))
    case CutoffOther => Err(ValueError(CutoffMessage))
  }

  /** The date bound a valid cutoff argument filters by when the filter succeeds:
      the date itself, or none at all (every comparison false) for NaT and for a
      point in time that meets no release. */
  function CutoffBound(cutoff: Cutoff, parse: string -> Parsed): Option<Date>
    requires cutoff.CutoffDate? || cutoff.CutoffDateTime? ||
             (cutoff.CutoffText? && !parse(cutoff.text).Unparseable?)
  {
    if cutoff.CutoffDate? then Some(cutoff.date) else None
  }

  /** Sorting and deduplication keep a release when some point of the date has
      one: the kept rows have a release exactly when the points do. */
  lemma KeptReleased(points: seq<Row>, dedup: bool)
    ensures AnyReleased(Kept(points, dedup)) <==> AnyReleased(points)
  {
    var sorted := SortRows(points);
    var kept := Kept(points, dedup);
    if AnyReleased(kept) {
      var i :| 0 <= i < |kept| && kept[i].released.Some?;
      if dedup {
        KeepFirstMembers(sorted, {}, kept[i]);
      }
      assert kept[i] in multiset(points);
    }
    if AnyReleased(points) {
      var i :| 0 <= i < |points| && points[i].released.Some?;
      var d := points[i].date;
      assert d in Dates(points);
      var e := EarliestVintage(points, d);
      if e.released.None? {
        UnreleasedKeptOnlyAlone(points, d);
      }
      if dedup {
        ProjectedRowsAreEarliestVintages(points, x => Unparseable);
        assert e in kept;
      } else {
        assert e in multiset(sorted);
      }
    }
  }

  /** A cutoff that is neither a parseable string nor a date or datetime raises
      ValueError; a datetime, or a string parsed to a Timestamp, raises TypeError
      once some point has a release; every other argument succeeds. */
  lemma CutoffValidation(points: seq<Row>, dedup: bool, cutoff: Cutoff, parse: string -> Parsed)
    ensures Vintages(points, dedup, cutoff, parse).Err? <==>
            cutoff.CutoffOther? || (cutoff.CutoffText? && parse(cutoff.text).Unparseable?) ||
            (TimeCutoff(cutoff, parse) && AnyReleased(points))
    ensures Vintages(points, dedup, cutoff, parse).Err? ==>
            Vintages(points, dedup, cutoff, parse).error ==
            if TimeCutoff(cutoff, parse) then TypeError else ValueError(CutoffMessage)
  {
    KeptReleased(points, dedup);
  }

  /** A cutoff that succeeds filters the kept rows by its date bound. */
  lemma FilteredVintages(points: seq<Row>, dedup: bool, cutoff: Cutoff, parse: string -> Parsed)
    requires Vintages(points, dedup, cutoff, parse).Ok? && !cutoff.NoCutoff?
    ensures Vintages(points, dedup, cutoff, parse).value == FilterReleased(Kept(points, dedup), CutoffBound(cutoff, parse))
  {
    FilteredCutoff(Kept(points, dedup), cutoff, parse);
  }

  lemma FilteredCutoff(kept: seq<Row>, cutoff: Cutoff, parse: string -> Parsed)
    requires ApplyCutoff(kept, cutoff, parse).Ok? && !cutoff.NoCutoff?
    ensures ApplyCutoff(kept, cutoff, parse).value == FilterReleased(kept, CutoffBound(cutoff, parse))
  {
  }

  /** With deduplication, the projected rows have strictly ascending dates. */
  lemma ProjectedDatesAscend(points: seq<Row>, cutoff: Cutoff, parse: string -> Parsed)
    requires Vintages(points, true, cutoff, parse).Ok?
    ensures StrictlyAscendingDates(Vintages(points, true, cutoff, parse).value)
  {
    var sorted := SortRows(points);
    KeepFirstAscending(sorted, {});
    var kept := KeepFirstPerDate(sorted, {});
    if !cutoff.NoCutoff? {
      FilterKeepsAscending(kept, CutoffBound(cutoff, parse));
    }
  }

  /** With deduplication and no cutoff, every date of the points appears once, with
      its earliest vintage. */
  lemma ProjectedRowsAreEarliestVintages(points: seq<Row>, parse: string -> Parsed)
    ensures Vintages(points, true, NoCutoff, parse).Ok?
    ensures Dates(Vintages(points, true, NoCutoff, parse).value) == Dates(points)
    ensures forall x :: x in Vintages(points, true, NoCutoff, parse).value <==>
                        x.date in Dates(points) && x == EarliestVintage(points, x.date)
  {
    var sorted := SortRows(points);
    DatesOfPermutation(points, sorted);
    KeepFirstDates(sorted, {});
    forall x ensures x in KeepFirstPerDate(sorted, {}) <==>
                     x.date in Dates(points) && x == EarliestVintage(points, x.date)
    {
      KeepFirstMembers(sorted, {}, x);
      if x.date in Dates(points) {
        FirstOfSortedIsEarliest(points, x.date);
      }
    }
  }

  /** With deduplication and a cutoff, a date is returned exactly when its earliest
      vintage is released by the cutoff: the filter runs after the deduplication,
      so a date whose kept row fails it disappears. */
  lemma CutoffAfterDedup(points: seq<Row>, cutoff: Cutoff, parse: string -> Parsed)
    requires Vintages(points, true, cutoff, parse).Ok? && !cutoff.NoCutoff?
    ensures forall x :: x in Vintages(points, true, cutoff, parse).value <==>
                        x.date in Dates(points) && x == EarliestVintage(points, x.date) &&
                        ReleasedBy(x, CutoffBound(cutoff, parse))
  {
    ProjectedRowsAreEarliestVintages(points, parse);
    FilteredVintages(points, true, cutoff, parse);
  }

  /** Every row returned under a cutoff has a release on or before it, with or
      without deduplication. */
  lemma CutoffBoundsReleases(points: seq<Row>, dedup: bool, cutoff: Cutoff, parse: string -> Parsed)
    requires Vintages(points, dedup, cutoff, parse).Ok? && !cutoff.NoCutoff?
    ensures forall x :: x in Vintages(points, dedup, cutoff, parse).value ==>
                        x.released.Some? && CutoffBound(cutoff, parse).Some? &&
                        x.released.value <= CutoffBound(cutoff, parse).value
  {
  }

  /** Without deduplication and cutoff, the rows are all the points, in key order. */
  lemma AllVintagesSorted(points: seq<Row>, parse: string -> Parsed)
    ensures Vintages(points, false, NoCutoff, parse).Ok?
    ensures Sorted(Vintages(points, false, NoCutoff, parse).value)
    ensures multiset(Vintages(points, false, NoCutoff, parse).value) == multiset(points)
  {
  }

  /** The columns a frame can show. */
  datatype Field = ValueField | CreatedField | ReleasedField

  /** The result of `to_dataframe`: labelled columns over rows indexed by date. */
  datatype Frame = Frame(columns: seq<(Text, Field)>, rows: seq<Row>)

  function Index(f: Frame): seq<Date> {
    seq(|f.rows|, i requires 0 <= i < |f.rows| => f.rows[i].date)
  }

  datatype Entry = ValueEntry(v: Cell) | CreatedEntry(c: Option<Timestamp>) | ReleasedEntry(r: Option<Date>)

  /** The cell of row `i` in column `j`. */
  function EntryAt(f: Frame, i: nat, j: nat): Entry
    requires i < |f.rows| && j < |f.columns|
  {
    match f.columns[j].1
    case ValueField => ValueEntry(f.rows[i].value)
    case CreatedField => CreatedEntry(f.rows[i].created)
    case ReleasedField => ReleasedEntry(f.rows[i].released)
  }

  /** pandas' `drop(columns=[label])`: removes every column with that label. */
  function DropLabel(columns: seq<(Text, Field)>, dropped: Text): (r: seq<(Text, Field)>)
    ensures forall c :: c in r <==> c in columns && c.0 != dropped
  {
    if columns == [] then []
    else if columns[0].0 == dropped then DropLabel(columns[1..], dropped)
    else [columns[0]] + DropLabel(columns[1..], dropped)
  }

  /** The columns after `set_index('date')` and the rename of `value` to the
      series name, then the drops of the metadata columns not asked for. */
  function Columns(name: Text, includeRelease: bool, includeCreate: bool): seq<(Text, Field)> {
    var all := [(name, ValueField), (Str("date_create"), CreatedField), (Str("date_release"), ReleasedField)];
    var afterRelease := if includeRelease then all else DropLabel(all, Str("date_release"));
    if includeCreate then afterRelease else DropLabel(afterRelease, Str("date_create"))
  }

  /** `TimeSeries.to_dataframe` over a snapshot of the data points. */
  function ToDataFrame(points: seq<Row>, name: Text, onlyMostRecentPerDate: bool, cutoff: Cutoff,
                       includeRelease: bool, includeCreate: bool, parse: string -> Parsed): Result<Frame>
  {
    match Vintages(points, onlyMostRecentPerDate, cutoff, parse)
    case Err(e) => Err(e)
    case Ok(rows) => Ok(Frame(Columns(name, includeRelease, includeCreate), rows))
  }

  /** With the default options the frame has one column, named after the series,
      unless the series is itself named like a metadata column. */
  lemma DefaultColumns(name: Text)
    requires name != Str("date_create") && name != Str("date_release")
    ensures Columns(name, false, false) == [(name, ValueField)]
  {
    var all := [(name, ValueField), (Str("date_create"), CreatedField), (Str("date_release"), ReleasedField)];
    assert DropLabel(all[2..], Str("date_release")) == [];
    assert DropLabel(all[1..], Str("date_release")) == [all[1]];
    assert DropLabel(all, Str("date_release")) == [all[0], all[1]];
    var two := [all[0], all[1]];
    assert DropLabel(two[1..], Str("date_create")) == [];
  }

  /** A series named `date_create` loses its value column with the default options,
      since pandas drops every column carrying the dropped label. */
  lemma NameClashDropsValues()
    ensures Columns(Str("date_create"), false, false) == []
  {
    var all := [(Str("date_create"), ValueField), (Str("date_create"), CreatedField), (Str("date_release"), ReleasedField)];
    assert DropLabel(all[2..], Str("date_release")) == [];
    assert DropLabel(all[1..], Str("date_release")) == [all[1]];
    assert DropLabel(all, Str("date_release")) == [all[0], all[1]];
    var two := [all[0], all[1]];
    assert DropLabel(two[1..], Str("date_create")) == [];
  }
}
