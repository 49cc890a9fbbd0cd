/** Tabular ingestion: `TimeSeries.from_dataframe` resolves the date axis of a
    table, checks the name, description and group arguments against the number of
    value columns, and builds one time series per column with
    `build_time_series_object`, which makes one data point per row.

    The spec functions compute the value every built series has (its snapshot);
    the methods build the objects and are proved to produce those snapshots. */
module Ingestion {
  import opened Base
  import opened Projection
  import opened Models

  /** A pandas DataFrame: the column labels, the index labels, and the cells of
      each column, column by column. */
  datatype DataFrame = DataFrame(columns: seq<string>, index: seq<Cell>, data: seq<seq<Cell>>)

  /** Every column has one cell per index label. */
  predicate Rectangular(df: DataFrame) {
    |df.data| == |df.columns| && forall j :: 0 <= j < |df.data| ==> |df.data[j]| == |df.index|
  }

  /** `df.set_index(c)` for the column at position `k`: its cells become the index. */
  function SetIndex(df: DataFrame, k: nat): (r: DataFrame)
    requires Rectangular(df) && k < |df.columns|
    ensures Rectangular(r) && |r.columns| == |df.columns| - 1 && r.index == df.data[k]
  {
    var r := DataFrame(df.columns[..k] + df.columns[k + 1..], df.data[k], df.data[..k] + df.data[k + 1..]);
    assert forall j :: 0 <= j < |r.data| ==> r.data[j] == (if j < k then df.data[j] else df.data[j + 1]);
    r
  }

  /** Some column is labelled "date" up to ASCII case. */
  predicate HasDateLikeColumn(columns: seq<string>) {
    exists j | 0 <= j < |columns| :: Lower(columns[j]) == "date"
  }

  function DateColumnMessage(dc: string): string {
    "Date column '" + dc + "' not found in DataFrame."
  }

  const IndexMessage := "The DataFrame must have a datetime index or specify a date_column."

  /** `pd.to_datetime` over the index: defined when every label parses. */
  function ParseIndex(index: seq<Cell>, parse: Cell -> Option<Date>): Option<seq<Date>> {
    if forall i :: 0 <= i < |index| ==> parse(index[i]).Some? then
      Some(seq(|index|, i requires 0 <= i < |index| && parse(index[i]).Some? => parse(index[i]).value))
    else None
  }

  /** The date column named by the caller, when there is one, becomes the index. */
  function IndexByDateColumn(df: DataFrame, dateColumn: Option<string>): Result<DataFrame>
    requires Rectangular(df)
  {
    match dateColumn
    case None => Ok(df)
    case Some(dc) =>
      if dc in df.columns then Ok(SetIndex(df, IndexOf(df.columns, dc)))
      else Err(ValueError(DateColumnMessage(dc)))
  }

  /** A column that lowercases to "date" triggers `set_index('date')`, which needs
      the literal label. */
  function IndexByDateLabel(df: DataFrame): Result<DataFrame>
    requires Rectangular(df)
  {
    if !HasDateLikeColumn(df.columns) then Ok(df)
    else if "date" in df.columns then Ok(SetIndex(df, IndexOf(df.columns, "date")))
    else Err(KeyError("date"))
  }

  /** The value columns and the parsed dates of a table. */
  function ResolveDateAxis(df: DataFrame, dateColumn: Option<string>, parse: Cell -> Option<Date>)
    : (r: Result<(DataFrame, seq<Date>)>)
    requires Rectangular(df)
    ensures r.Ok? ==> Rectangular(r.value.0) && |r.value.1| == |r.value.0.index|
  {
    match IndexByDateColumn(df, dateColumn)
    case Err(e) => Err(e)
    case Ok(df1) =>
      match IndexByDateLabel(df1)
      case Err(e) => Err(e)
      case Ok(df2) =>
        match ParseIndex(df2.index, parse)
        case None => Err(ValueError(IndexMessage))
        case Some(dates) => Ok((df2, dates))
  }

  /** The `series_groups` argument: None, a string, an int (a bool among them), a
      mapped object (a SeriesGroup, or a series of the other kind), a list, or
      any other value, with its truth value. */
  datatype GroupArg =
    | NoneArg
    | StrArg(s: string)
    | IntArg(n: int)
    | ObjArg(obj: Series)
    | ListArg(items: seq<GroupArg>)
    | OtherArg(truthy: bool)

  /** Python's truth value of the argument; mapped objects are always true. */
  predicate Truthy(g: GroupArg) {
    match g
    case NoneArg => false
    case StrArg(s) => s != ""
    case IntArg(n) => n != 0
    case ObjArg(_) => true
    case ListArg(items) => items != []
    case OtherArg(t) => t
  }

  /** The `time_series_type` argument: a TimeSeriesType object, or anything else,
      which is stored as the type id. */
  datatype TypeArg = TypeObj(t: TimeSeriesType) | TypeValue(id: Option<int>)

  const BuildGroupsMessage := "series_groups must be a SeriesGroup instance, list of SeriesGroup instances, or None"

  /** An append to the `series_groups` relationship: the collection (and the
      association table's primary key) holds a group at most once. */
  function Join(held: seq<Series>, o: Series): seq<Series> {
    if o in held then held else held + [o]
  }

  predicate Unrepeated(gs: seq<Series>) {
    forall i, j :: 0 <= i < j < |gs| ==> gs[i] != gs[j]
  }

  /** The groups held after `build_time_series_object` appends the list items,
      in order, to the groups `held`: every non-None item joins; the
      `series_groups` relationship refuses an item that is not a series group,
      be it a time series or a value that is not a mapped object. */
  function ListGroups(held: seq<Series>, items: seq<GroupArg>): Result<seq<Series>> {
    if items == [] then Ok(held)
    else
      match ListGroups(held, items[..|items| - 1])
      case Err(e) => Err(e)
      case Ok(gs) =>
        match items[|items| - 1]
        case NoneArg => Ok(gs)
        case ObjArg(o) => if o.kind == SeriesGroupKind then Ok(Join(gs, o)) else Err(RelationshipRefused)
        case _ => Err(RelationshipRefused)
  }

  /** The groups held after the groups step, starting from the groups `held`. */
  function AppendedGroups(held: seq<Series>, g: GroupArg): Result<seq<Series>> {
    if !Truthy(g) then Ok(held)
    else
      match g
      case ObjArg(o) => if o.kind == SeriesGroupKind then Ok(Join(held, o)) else Err(ValueError(BuildGroupsMessage))
      case ListArg(items) => ListGroups(held, items)
      case _ => Err(ValueError(BuildGroupsMessage))
  }

  /** A list of groups is accepted exactly when it holds only None and series
      groups, and then the series keeps the groups it held and joins exactly the
      groups the list holds, each once. */
  lemma {:induction false} ListGroupsSpec(held: seq<Series>, items: seq<GroupArg>)
    ensures ListGroups(held, items).Ok? <==>
            forall i :: 0 <= i < |items| ==>
              items[i].NoneArg? || (items[i].ObjArg? && items[i].obj.kind == SeriesGroupKind)
    ensures ListGroups(held, items).Ok? ==>
              var gs := ListGroups(held, items).value;
              |held| <= |gs| && gs[..|held|] == held &&
              (forall o :: o in gs <==> o in held || ObjArg(o) in items) &&
              (Unrepeated(held) ==> Unrepeated(gs))
    ensures ListGroups(held, items).Err? ==> ListGroups(held, items).error == RelationshipRefused
  {
    if items != [] {
      var init := items[..|items| - 1];
      ListGroupsSpec(held, init);
      assert items == init + [items[|items| - 1]];
    }
  }

  /** A group listed twice is held once. */
  lemma RepeatedGroupHeldOnce(g: Series)
    requires g.kind == SeriesGroupKind
    ensures ListGroups([], [ObjArg(g), ObjArg(g)]) == Ok([g])
  {
    var items := [ObjArg(g), ObjArg(g)];
    var first := [ObjArg(g)];
    assert first[..0] == [];
    assert ListGroups([], first) == Ok(Join([], g));
    assert items[..1] == first;
    assert Join([], g) == [g] && Join([g], g) == [g] by { assert g in [g]; }
  }

  /** What a built series holds. */
  datatype SeriesValue = SeriesValue(name: Text, description: Option<Text>, tsType: Option<TimeSeriesType>,
                                     typeId: Option<int>, rows: seq<Row>, groups: seq<Series>)

  function Snapshot(ts: Series): SeriesValue
    reads ts
  {
    SeriesValue(ts.name, ts.description, if ts.tsType == null then None else Some(ts.tsType),
                ts.typeId, RowsOf(ts.dataPoints), ts.seriesGroups)
  }

  /** Every data point of the series links back to it. */
  ghost predicate BackLinked(ts: Series)
    reads ts, ts.dataPoints
  {
    forall p :: p in ts.dataPoints ==> p.timeSeries == ts
  }

  /** One new data point per value: the i-th date and value, no release yet. */
  function PointRows(values: seq<Cell>, dates: seq<Date>): seq<Row>
    requires |values| <= |dates|
  {
    seq(|values|, i requires 0 <= i < |values| => Row(dates[i], values[i], None, None))
  }

  /** `build_time_series_object(values, dates, name, series_groups, time_series_type, description)`. */
  function Built(values: seq<Cell>, dates: seq<Date>, name: Text, groups: GroupArg, tsType: TypeArg,
                 description: Option<Text>): Result<SeriesValue>
  {
    if |dates| < |values| then Err(IndexError)
    else
      match AppendedGroups([], groups)
      case Err(e) => Err(e)
      case Ok(gs) =>
        Ok(SeriesValue(name, description,
                       if tsType.TypeObj? then Some(tsType.t) else None,
                       if tsType.TypeValue? then tsType.id else None,
                       PointRows(values, dates), gs))
  }

  /** The built series has exactly one data point per value, the i-th with the
      i-th date and value and no release, and carries the given name. */
  lemma BuiltPoints(values: seq<Cell>, dates: seq<Date>, name: Text, groups: GroupArg, tsType: TypeArg,
                    description: Option<Text>)
    ensures Built(values, dates, name, groups, tsType, description).Ok? <==>
            |values| <= |dates| && AppendedGroups([], groups).Ok?
    ensures Built(values, dates, name, groups, tsType, description).Ok? ==>
            var v := Built(values, dates, name, groups, tsType, description).value;
            v.name == name && v.description == description && |v.rows| == |values| &&
            v.groups == AppendedGroups([], groups).value &&
            forall i :: 0 <= i < |values| ==>
              v.rows[i].date == dates[i] && v.rows[i].value == values[i] && v.rows[i].released.None?
    ensures Built(values, dates, name, groups, tsType, description).Ok? ==>
            var gs := Built(values, dates, name, groups, tsType, description).value.groups;
            Unrepeated(gs) &&
            forall o :: o in gs <==> groups == ObjArg(o) || (groups.ListArg? && ObjArg(o) in groups.items)
  {
    if groups.ListArg? {
      ListGroupsSpec([], groups.items);
    }
  }

  /** A truthy scalar group, or a time series given as the group, is refused. */
  lemma ScalarGroupRefused(values: seq<Cell>, dates: seq<Date>, name: Text, g: GroupArg, tsType: TypeArg,
                           description: Option<Text>)
    requires |values| <= |dates|
    requires (g.StrArg? && g.s != "") || (g.IntArg? && g.n != 0) ||
             (g.ObjArg? && g.obj.kind == TimeSeriesKind) || (g.OtherArg? && g.truthy)
    ensures Built(values, dates, name, g, tsType, description) == Err(ValueError(BuildGroupsMessage))
  {
  }

  /** Appends the list items to the series' groups, stopping at the first one
      the relationship refuses. */
  method AppendListGroups(ts: Series, items: seq<GroupArg>) returns (r: Result<()>)
    modifies ts`seriesGroups
    ensures r.Ok? <==> ListGroups(old(ts.seriesGroups), items).Ok?
    ensures r.Err? ==> r.error == ListGroups(old(ts.seriesGroups), items).error
    ensures r.Ok? ==> ts.seriesGroups == ListGroups(old(ts.seriesGroups), items).value
  {
    var j := 0;
    while j < |items|
      invariant 0 <= j <= |items|
      invariant ListGroups(old(ts.seriesGroups), items[..j]).Ok?
      invariant ts.seriesGroups == ListGroups(old(ts.seriesGroups), items[..j]).value
    {
      assert items[..j + 1][..j] == items[..j];
      match items[j] {
        case NoneArg =>
        case ObjArg(o) =>
          if o.kind != SeriesGroupKind {
            PrefixErrorPersists(old(ts.seriesGroups), items, j + 1);
            return Err(RelationshipRefused);
          }
          if o !in ts.seriesGroups {
            ts.seriesGroups := ts.seriesGroups + [o];
          }
        case _ =>
          PrefixErrorPersists(old(ts.seriesGroups), items, j + 1);
          return Err(RelationshipRefused);
      }
      j := j + 1;
    }
    assert items[..j] == items;
    return Ok(());
  }

  /** Once a prefix of the list is refused, the whole list is, with the same error. */
  lemma {:induction false} PrefixErrorPersists(held: seq<Series>, items: seq<GroupArg>, k: nat)
    requires k <= |items| && ListGroups(held, items[..k]).Err?
    ensures ListGroups(held, items) == ListGroups(held, items[..k])
    decreases |items| - k
  {
    if k < |items| {
      assert items[..k + 1][..k] == items[..k];
      PrefixErrorPersists(held, items, k + 1);
    } else {
      assert items[..k] == items;
    }
  }

  /** The `series_groups` step of `build_time_series_object`: nothing for a false
      value, the group itself, or each list item; any other value is refused. */
  method AppendGroups(ts: Series, groups: GroupArg) returns (r: Result<()>)
    modifies ts`seriesGroups
    ensures r.Ok? <==> AppendedGroups(old(ts.seriesGroups), groups).Ok?
    ensures r.Err? ==> r.error == AppendedGroups(old(ts.seriesGroups), groups).error
    ensures r.Ok? ==> ts.seriesGroups == AppendedGroups(old(ts.seriesGroups), groups).value
  {
    r := Ok(());
    if Truthy(groups) {
      match groups {
        case ObjArg(o) =>
          if o.kind == SeriesGroupKind {
            if o !in ts.seriesGroups {
              ts.seriesGroups := ts.seriesGroups + [o];
            }
          } else {
            r := Err(ValueError(BuildGroupsMessage));
          }
        case ListArg(items) =>
          r := AppendListGroups(ts, items);
        case _ =>
          r := Err(ValueError(BuildGroupsMessage));
      }
    }
  }

  /** The list comprehension of `build_time_series_object`: a new data point for
      each value, dated by the same position of the index. */
  method NewPoints(values: seq<Cell>, dates: seq<Date>) returns (points: seq<DataPoint>)
    requires |values| <= |dates|
    ensures RowsOf(points) == PointRows(values, dates)
    ensures forall p :: p in points ==> fresh(p) && p.timeSeries == null
  {
    points := [];
    var i := 0;
    while i < |values|
      invariant 0 <= i <= |values| && |points| == i
      invariant forall k :: 0 <= k < i ==> RowOf(points[k]) == Row(dates[k], values[k], None, None)
      invariant forall p :: p in points ==> fresh(p) && p.timeSeries == null
    {
      var p := new DataPoint(dates[i], values[i], None, None);
      points := points + [p];
      i := i + 1;
    }
  }

  /** `build_time_series_object`: one new data point per value, a new series over
      them, then the description, the type and the groups. */
  method BuildTimeSeriesObject(values: seq<Cell>, dates: seq<Date>, name: Text, groups: GroupArg, tsType: TypeArg,
                               description: Option<Text>) returns (r: Result<Series>)
    ensures r.Ok? <==> Built(values, dates, name, groups, tsType, description).Ok?
    ensures r.Err? ==> r.error == Built(values, dates, name, groups, tsType, description).error
    ensures r.Ok? ==> fresh(r.value) && r.value.kind == TimeSeriesKind && r.value.keywords == []
    ensures r.Ok? ==> Snapshot(r.value) == Built(values, dates, name, groups, tsType, description).value
    ensures r.Ok? ==> BackLinked(r.value) && forall p :: p in r.value.dataPoints ==> fresh(p)
  {
    if |dates| < |values| {
      return Err(IndexError);
    }
    var points := NewPoints(values, dates);
    var ts := new Series.WithPoints(name, points);
    if description.Some? {
      ts.description := description;
    }
    match tsType {
      case TypeObj(t) =>
        ts.tsType := t;
      case TypeValue(id) =>
        ts.typeId := id;
    }
    var appended := AppendGroups(ts, groups);
    if appended.Err? {
      return Err(appended.error);
    }
    return Ok(ts);
  }

  const NameListMessage := "Name must be a list if multiple columns are provided."
  const NameCountMessage := "Name list must match the number of columns in the DataFrame."
  const NameProvidedMessage := "Name must be provided as list"
  const GroupsTypeMessage := "SeriesGroups must be provided as list, string, or SeriesGroup instances"
  const GroupsCountMessage :=
    "SeriesGroups list must match the number of columns in the DataFrame or "
    + "parameter 'all_columns_have_same_series_groups=True'."
  const DescriptionMessage := "Description must be a list if multiple columns are provided."

  /** The error a name given with several columns raises: a non-empty string is
      not a list, a list of the wrong length does not match, and every other name
      still raises. */
  function NameError(name: Text, ncols: nat): Error {
    match name
    case Str(s) =>
      if s != "" then ValueError(NameListMessage)
      else if 0 != ncols then ValueError(NameCountMessage)
      else ValueError(NameProvidedMessage)
    case Strs(l) =>
      if |l| != ncols then ValueError(NameCountMessage) else ValueError(NameProvidedMessage)
  }

  /** The group argument of the several-columns branch as one entry per column:
      a scalar or a group object is repeated, a list is taken as it is. */
  function GroupArgs(groups: GroupArg, ncols: nat, sameGroups: bool): Result<seq<GroupArg>> {
    match groups
    case NoneArg => Ok(seq(ncols, _ => NoneArg))
    case StrArg(_) => Ok(seq(ncols, _ => groups))
    case IntArg(_) => Ok(seq(ncols, _ => groups))
    case ObjArg(o) =>
      if o.kind == SeriesGroupKind then Ok(seq(ncols, _ => groups)) else Err(ValueError(GroupsTypeMessage))
    case ListArg(items) =>
      if |items| != ncols && !sameGroups then Err(ValueError(GroupsCountMessage)) else Ok(items)
    case OtherArg(_) => Err(ValueError(GroupsTypeMessage))
  }

  predicate AllNone(list: seq<GroupArg>) {
    forall i :: 0 <= i < |list| ==> list[i].NoneArg?
  }

  /** The groups of column `i`: the whole list when every column shares it,
      otherwise the list's i-th entry. */
  function ColumnGroups(list: seq<GroupArg>, same: bool, i: nat): Result<GroupArg> {
    if same then Ok(ListArg(list))
    else if i < |list| then Ok(list[i])
    else Err(IndexError)
  }

  /** The series of the first `n` columns of the several-columns branch. */
  function BuildColumns(frame: DataFrame, dates: seq<Date>, list: seq<GroupArg>, same: bool, tsType: TypeArg,
                        description: Option<Text>, n: nat): Result<seq<SeriesValue>>
    requires Rectangular(frame) && n <= |frame.columns|
  {
    if n == 0 then Ok([])
    else
      match BuildColumns(frame, dates, list, same, tsType, description, n - 1)
      case Err(e) => Err(e)
      case Ok(prev) =>
        match Column(frame, dates, list, same, tsType, description, n - 1)
        case Err(e) => Err(e)
        case Ok(v) => Ok(prev + [v])
  }

  /** The series of column `i`, named after the column. */
  function Column(frame: DataFrame, dates: seq<Date>, list: seq<GroupArg>, same: bool, tsType: TypeArg,
                  description: Option<Text>, i: nat): Result<SeriesValue>
    requires Rectangular(frame) && i < |frame.columns|
  {
    match ColumnGroups(list, same, i)
    case Err(e) => Err(e)
    case Ok(g) => Built(frame.data[i], dates, Str(frame.columns[i]), g, tsType, description)
  }

  /** The description of the one-column branch: with groups, a list gives its first
      entry; without groups, a missing description becomes empty. */
  function SingleDescription(groups: GroupArg, description: Option<Text>): Result<Option<Text>> {
    if !groups.NoneArg? then
      (match description
       case Some(Strs(l)) => if l == [] then Err(IndexError) else Ok(Some(Str(l[0])))
       case _ => Ok(description))
    else if description.None? then Ok(Some(Str("")))
    else Ok(description)
  }

  /** One series from a one-column table, several from any other. */
  datatype Outcome<T> = One(single: T) | Many(all: seq<T>)

  /** `TimeSeries.from_dataframe(df, series_groups, time_series_type, name,
      description, date_column, all_columns_have_same_series_groups)`. */
  function Ingested(df: DataFrame, groups: GroupArg, tsType: TypeArg, name: Option<Text>,
                    description: Option<Text>, dateColumn: Option<string>, sameGroups: bool,
                    parse: Cell -> Option<Date>): Result<Outcome<SeriesValue>>
    requires Rectangular(df)
  {
    match ResolveDateAxis(df, dateColumn, parse)
    case Err(e) => Err(e)
    case Ok(axis) =>
      var (frame, dates) := axis;
      if |frame.columns| == 1 then
        match SingleColumn(frame, dates, groups, tsType, name, description)
        case Err(e) => Err(e)
        case Ok(v) => Ok(One(v))
      else
        match SeveralColumns(frame, dates, groups, tsType, name, description, sameGroups)
        case Err(e) => Err(e)
        case Ok(vs) => Ok(Many(vs))
  }

  /** The one-column branch: the name defaults to the column's label. */
  function SingleColumn(frame: DataFrame, dates: seq<Date>, groups: GroupArg, tsType: TypeArg, name: Option<Text>,
                        description: Option<Text>): Result<SeriesValue>
    requires Rectangular(frame) && |frame.columns| == 1
  {
    var nm := if name.None? then Str(frame.columns[0]) else name.value;
    match SingleDescription(groups, description)
    case Err(e) => Err(e)
    case Ok(desc) => Built(frame.data[0], dates, nm, groups, tsType, desc)
  }

  /** The several-columns branch: no name, groups per column, no single description. */
  function SeveralColumns(frame: DataFrame, dates: seq<Date>, groups: GroupArg, tsType: TypeArg, name: Option<Text>,
                          description: Option<Text>, sameGroups: bool): Result<seq<SeriesValue>>
    requires Rectangular(frame)
  {
    var n := |frame.columns|;
    if name.Some? then Err(NameError(name.value, n))
    else
      match GroupArgs(groups, n, sameGroups)
      case Err(e) => Err(e)
      case Ok(list) =>
        if description.Some? && description.value.Str? then Err(ValueError(DescriptionMessage))
        else BuildColumns(frame, dates, list, !AllNone(list) && sameGroups, tsType, description, n)
  }

  function Snapshots(all: seq<Series>): seq<SeriesValue>
    reads all
  {
    if all == [] then [] else Snapshots(all[..|all| - 1]) + [Snapshot(all[|all| - 1])]
  }

  function SnapshotOutcome(o: Outcome<Series>): Outcome<SeriesValue>
    reads if o.One? then {o.single} else set s | s in o.all
  {
    match o
    case One(ts) => One(Snapshot(ts))
    case Many(all) => Many(Snapshots(all))
  }

  /** Once the series of a prefix of the columns cannot be built, none of the
      table's can, with the same error. */
  lemma {:induction false} ColumnErrorPersists(frame: DataFrame, dates: seq<Date>, list: seq<GroupArg>, same: bool,
                                               tsType: TypeArg, description: Option<Text>, k: nat, n: nat)
    requires Rectangular(frame) && k <= n <= |frame.columns|
    requires BuildColumns(frame, dates, list, same, tsType, description, k).Err?
    ensures BuildColumns(frame, dates, list, same, tsType, description, n) ==
            BuildColumns(frame, dates, list, same, tsType, description, k)
    decreases n - k
  {
    if k < n {
      ColumnErrorPersists(frame, dates, list, same, tsType, description, k, n - 1);
    }
  }

  /** `from_dataframe`: the checks, then one `build_time_series_object` per column. */
  method FromDataFrame(df: DataFrame, groups: GroupArg, tsType: TypeArg, name: Option<Text>,
                       description: Option<Text>, dateColumn: Option<string>, sameGroups: bool,
                       parse: Cell -> Option<Date>) returns (r: Result<Outcome<Series>>)
    requires Rectangular(df)
    ensures r.Ok? <==> Ingested(df, groups, tsType, name, description, dateColumn, sameGroups, parse).Ok?
    ensures r.Err? ==> r.error == Ingested(df, groups, tsType, name, description, dateColumn, sameGroups, parse).error
    ensures r.Ok? ==>
              SnapshotOutcome(r.value) ==
              Ingested(df, groups, tsType, name, description, dateColumn, sameGroups, parse).value
    ensures r.Ok? && r.value.One? ==> fresh(r.value.single) && BackLinked(r.value.single)
    ensures r.Ok? && r.value.Many? ==> forall s :: s in r.value.all ==> fresh(s) && BackLinked(s)
  {
    var axis := ResolveDateAxis(df, dateColumn, parse);
    if axis.Err? {
      return Err(axis.error);
    }
    var frame, dates := axis.value.0, axis.value.1;
    if |frame.columns| == 1 {
      var built := FromSingleColumn(frame, dates, groups, tsType, name, description);
      if built.Err? {
        return Err(built.error);
      }
      return Ok(One(built.value));
    }
    var all := FromSeveralColumns(frame, dates, groups, tsType, name, description, sameGroups);
    if all.Err? {
      return Err(all.error);
    }
    return Ok(Many(all.value));
  }

  /** The one-column branch of `from_dataframe`. */
  method FromSingleColumn(frame: DataFrame, dates: seq<Date>, groups: GroupArg, tsType: TypeArg,
                          name: Option<Text>, description: Option<Text>) returns (r: Result<Series>)
    requires Rectangular(frame) && |frame.columns| == 1
    ensures var spec := SingleColumn(frame, dates, groups, tsType, name, description);
            (r.Ok? <==> spec.Ok?) && (r.Err? ==> r.error == spec.error) &&
            (r.Ok? ==> Snapshot(r.value) == spec.value)
    ensures r.Ok? ==> fresh(r.value) && BackLinked(r.value)
  {
    var nm := if name.None? then Str(frame.columns[0]) else name.value;
    var desc := SingleDescription(groups, description);
    if desc.Err? {
      return Err(desc.error);
    }
    r := BuildTimeSeriesObject(frame.data[0], dates, nm, groups, tsType, desc.value);
  }

  /** The several-columns branch of `from_dataframe`: the checks, then the loop. */
  method FromSeveralColumns(frame: DataFrame, dates: seq<Date>, groups: GroupArg, tsType: TypeArg,
                            name: Option<Text>, description: Option<Text>, sameGroups: bool)
    returns (r: Result<seq<Series>>)
    requires Rectangular(frame)
    ensures var spec := SeveralColumns(frame, dates, groups, tsType, name, description, sameGroups);
            (r.Ok? <==> spec.Ok?) && (r.Err? ==> r.error == spec.error) &&
            (r.Ok? ==> Snapshots(r.value) == spec.value)
    ensures r.Ok? ==> forall s :: s in r.value ==> fresh(s) && BackLinked(s)
  {
    var n := |frame.columns|;
    if name.Some? {
      return Err(NameError(name.value, n));
    }
    var list := GroupArgs(groups, n, sameGroups);
    if list.Err? {
      return Err(list.error);
    }
    if description.Some? && description.value.Str? {
      return Err(ValueError(DescriptionMessage));
    }
    var same := !AllNone(list.value) && sameGroups;
    r := BuildEveryColumn(frame, dates, list.value, same, tsType, description);
  }

  /** The loop of the several-columns branch: one series per column, in column order. */
  method BuildEveryColumn(frame: DataFrame, dates: seq<Date>, list: seq<GroupArg>, same: bool, tsType: TypeArg,
                          description: Option<Text>) returns (r: Result<seq<Series>>)
    requires Rectangular(frame)
    ensures var spec := BuildColumns(frame, dates, list, same, tsType, description, |frame.columns|);
            (r.Ok? <==> spec.Ok?) && (r.Err? ==> r.error == spec.error) &&
            (r.Ok? ==> Snapshots(r.value) == spec.value)
    ensures r.Ok? ==> forall s :: s in r.value ==> fresh(s) && BackLinked(s)
  {
    var n := |frame.columns|;
    var all: seq<Series> := [];
    ghost var values: seq<SeriesValue> := [];
    var i := 0;
    while i < n
      invariant 0 <= i <= n && |all| == i && |values| == i
      invariant BuildColumns(frame, dates, list, same, tsType, description, i) == Ok(values)
      invariant forall k :: 0 <= k < i ==> Snapshot(all[k]) == values[k] && fresh(all[k]) && BackLinked(all[k])
    {
      var built := BuildColumn(frame, dates, list, same, tsType, description, i);
      if built.Err? {
        ColumnErrorPersists(frame, dates, list, same, tsType, description, i + 1, n);
        return Err(built.error);
      }
      all := all + [built.value];
      values := values + [Snapshot(built.value)];
      i := i + 1;
    }
    SnapshotsPointwise(all);
    return Ok(all);
  }

  /** One pass of the loop: the column's groups, then its series. */
  method BuildColumn(frame: DataFrame, dates: seq<Date>, list: seq<GroupArg>, same: bool, tsType: TypeArg,
                     description: Option<Text>, i: nat) returns (r: Result<Series>)
    requires Rectangular(frame) && i < |frame.columns|
    ensures var spec := Column(frame, dates, list, same, tsType, description, i);
            (r.Ok? <==> spec.Ok?) && (r.Err? ==> r.error == spec.error) &&
            (r.Ok? ==> Snapshot(r.value) == spec.value)
    ensures r.Ok? ==> fresh(r.value) && BackLinked(r.value)
  {
    var g := ColumnGroups(list, same, i);
    if g.Err? {
      return Err(g.error);
    }
    r := BuildTimeSeriesObject(frame.data[i], dates, Str(frame.columns[i]), g.value, tsType, description);
  }

  lemma {:induction false} SnapshotsPointwise(all: seq<Series>)
    ensures |Snapshots(all)| == |all|
    ensures forall k :: 0 <= k < |all| ==> Snapshots(all)[k] == Snapshot(all[k])
  {
    if all != [] {
      SnapshotsPointwise(all[..|all| - 1]);
    }
  }

  /** A date column that is not a column of the table is refused. */
  lemma MissingDateColumn(df: DataFrame, groups: GroupArg, tsType: TypeArg, name: Option<Text>,
                          description: Option<Text>, dc: string, sameGroups: bool, parse: Cell -> Option<Date>)
    requires Rectangular(df) && dc !in df.columns
    ensures Ingested(df, groups, tsType, name, description, Some(dc), sameGroups, parse) ==
            Err(ValueError(DateColumnMessage(dc)))
  {
  }

  /** An index label that does not parse as a date is refused. */
  lemma UnparseableIndex(df: DataFrame, groups: GroupArg, tsType: TypeArg, name: Option<Text>,
                         description: Option<Text>, sameGroups: bool, parse: Cell -> Option<Date>, i: nat)
    requires Rectangular(df) && !HasDateLikeColumn(df.columns)
    requires i < |df.index| && parse(df.index[i]).None?
    ensures Ingested(df, groups, tsType, name, description, None, sameGroups, parse) ==
            Err(ValueError(IndexMessage))
  {
  }

  /** A column named "Date" without a literal "date" column makes `set_index`
      fail, although the case-insensitive test found it. */
  lemma DateLabelIsCaseSensitive(df: DataFrame, groups: GroupArg, tsType: TypeArg, name: Option<Text>,
                                 description: Option<Text>, sameGroups: bool, parse: Cell -> Option<Date>)
    requires Rectangular(df) && "Date" in df.columns && "date" !in df.columns
    ensures Ingested(df, groups, tsType, name, description, None, sameGroups, parse) == Err(KeyError("date"))
  {
    var j :| 0 <= j < |df.columns| && df.columns[j] == "Date";
    assert Lower(df.columns[j]) == "date";
  }

  /** The named date column supplies the dates and is no longer a value column. */
  lemma DateColumnBecomesIndex(df: DataFrame, dc: string, parse: Cell -> Option<Date>)
    requires Rectangular(df) && dc in df.columns
    requires var k := IndexOf(df.columns, dc);
             !HasDateLikeColumn(df.columns[..k] + df.columns[k + 1..]) &&
             forall i :: 0 <= i < |df.data[k]| ==> parse(df.data[k][i]).Some?
    ensures ResolveDateAxis(df, Some(dc), parse).Ok?
    ensures var k := IndexOf(df.columns, dc);
            var axis := ResolveDateAxis(df, Some(dc), parse).value;
            axis.0.columns == df.columns[..k] + df.columns[k + 1..] &&
            |axis.1| == |df.data[k]| &&
            forall i :: 0 <= i < |df.data[k]| ==> Some(axis.1[i]) == parse(df.data[k][i])
  {
  }

  /** Several value columns and any name: refused, whether or not the name is a
      list of the right length. */
  lemma SeveralColumnsRefuseAnyName(df: DataFrame, groups: GroupArg, tsType: TypeArg, name: Text,
                                    description: Option<Text>, dateColumn: Option<string>, sameGroups: bool,
                                    parse: Cell -> Option<Date>)
    requires Rectangular(df) && ResolveDateAxis(df, dateColumn, parse).Ok?
    requires |ResolveDateAxis(df, dateColumn, parse).value.0.columns| != 1
    ensures var r := Ingested(df, groups, tsType, Some(name), description, dateColumn, sameGroups, parse);
            r.Err? && r.error.ValueError? &&
            r.error.message in {NameListMessage, NameCountMessage, NameProvidedMessage}
    ensures name.Strs? && |name.items| == |ResolveDateAxis(df, dateColumn, parse).value.0.columns| ==>
            Ingested(df, groups, tsType, Some(name), description, dateColumn, sameGroups, parse) ==
            Err(ValueError(NameProvidedMessage))
  {
  }

  /** Several value columns and a string description: refused. */
  lemma SeveralColumnsRefuseStringDescription(df: DataFrame, groups: GroupArg, tsType: TypeArg, d: string,
                                              dateColumn: Option<string>, sameGroups: bool,
                                              parse: Cell -> Option<Date>)
    requires Rectangular(df) && ResolveDateAxis(df, dateColumn, parse).Ok?
    requires var n := |ResolveDateAxis(df, dateColumn, parse).value.0.columns|;
             n != 1 && GroupArgs(groups, n, sameGroups).Ok?
    ensures Ingested(df, groups, tsType, None, Some(Str(d)), dateColumn, sameGroups, parse) ==
            Err(ValueError(DescriptionMessage))
  {
  }

  /** Several value columns and a group list of another length: refused unless
      every column is to share the list. */
  lemma GroupCountMismatch(df: DataFrame, items: seq<GroupArg>, tsType: TypeArg, description: Option<Text>,
                           dateColumn: Option<string>, parse: Cell -> Option<Date>)
    requires Rectangular(df) && ResolveDateAxis(df, dateColumn, parse).Ok?
    requires var n := |ResolveDateAxis(df, dateColumn, parse).value.0.columns|;
             n != 1 && |items| != n
    ensures Ingested(df, ListArg(items), tsType, None, description, dateColumn, false, parse) ==
            Err(ValueError(GroupsCountMessage))
  {
  }

  /** A truthy string or int given as the groups of several columns passes the
      checks, is repeated for every column, and then fails in
      `build_time_series_object`: as a scalar, or, when the columns share the
      list, as an item the ORM refuses. */
  lemma BroadcastScalarGroupFails(df: DataFrame, g: GroupArg, tsType: TypeArg, description: Option<Text>,
                                  dateColumn: Option<string>, sameGroups: bool, parse: Cell -> Option<Date>)
    requires Rectangular(df) && ResolveDateAxis(df, dateColumn, parse).Ok?
    requires |ResolveDateAxis(df, dateColumn, parse).value.0.columns| >= 2
    requires (g.StrArg? && g.s != "") || (g.IntArg? && g.n != 0)
    requires description.None? || description.value.Strs?
    ensures !sameGroups ==>
              Ingested(df, g, tsType, None, description, dateColumn, sameGroups, parse) ==
              Err(ValueError(BuildGroupsMessage))
    ensures sameGroups ==>
              Ingested(df, g, tsType, None, description, dateColumn, sameGroups, parse) ==
              Err(RelationshipRefused)
  {
    var (frame, dates) := ResolveDateAxis(df, dateColumn, parse).value;
    var n := |frame.columns|;
    var list := seq(n, _ => g);
    assert GroupArgs(g, n, sameGroups) == Ok(list);
    assert !AllNone(list) by { assert list[0] == g; }
    var e := if sameGroups then RelationshipRefused else ValueError(BuildGroupsMessage);
    if sameGroups {
      ListGroupsSpec([], list);
      assert !(list[0].NoneArg? || list[0].ObjArg?);
    }
    assert Column(frame, dates, list, sameGroups, tsType, description, 0) == Err(e);
    assert BuildColumns(frame, dates, list, sameGroups, tsType, description, 1) == Err(e);
    ColumnErrorPersists(frame, dates, list, sameGroups, tsType, description, 1, n);
    assert SeveralColumns(frame, dates, g, tsType, None, description, sameGroups) == Err(e);
  }

  /** The series of the several-columns branch: one per column, named after it,
      with one data point per row of that column. */
  lemma {:induction false} BuildColumnsSpec(frame: DataFrame, dates: seq<Date>, list: seq<GroupArg>, same: bool,
                                            tsType: TypeArg, description: Option<Text>, n: nat)
    requires Rectangular(frame) && n <= |frame.columns| && |dates| == |frame.index|
    requires BuildColumns(frame, dates, list, same, tsType, description, n).Ok?
    ensures var vs := BuildColumns(frame, dates, list, same, tsType, description, n).value;
            |vs| == n &&
            forall j :: 0 <= j < n ==>
              vs[j].name == Str(frame.columns[j]) && vs[j].description == description &&
              vs[j].rows == PointRows(frame.data[j], dates)
  {
    if n > 0 {
      BuildColumnsSpec(frame, dates, list, same, tsType, description, n - 1);
    }
  }

  /** From several value columns, one series per column, in column order. */
  lemma ManyColumns(df: DataFrame, groups: GroupArg, tsType: TypeArg, description: Option<Text>,
                    dateColumn: Option<string>, sameGroups: bool, parse: Cell -> Option<Date>)
    requires Rectangular(df)
    requires Ingested(df, groups, tsType, None, description, dateColumn, sameGroups, parse).Ok?
    requires Ingested(df, groups, tsType, None, description, dateColumn, sameGroups, parse).value.Many?
    ensures var (frame, dates) := ResolveDateAxis(df, dateColumn, parse).value;
            var vs := Ingested(df, groups, tsType, None, description, dateColumn, sameGroups, parse).value.all;
            |vs| == |frame.columns| &&
            forall j :: 0 <= j < |vs| ==>
              vs[j].name == Str(frame.columns[j]) && |vs[j].rows| == |dates| &&
              forall i :: 0 <= i < |dates| ==> vs[j].rows[i] == Row(dates[i], frame.data[j][i], None, None)
  {
    var (frame, dates) := ResolveDateAxis(df, dateColumn, parse).value;
    var n := |frame.columns|;
    var list := GroupArgs(groups, n, sameGroups).value;
    BuildColumnsSpec(frame, dates, list, !AllNone(list) && sameGroups, tsType, description, n);
  }

  /** Rows built from strictly ascending dates are already in key order. */
  lemma AscendingRowsSorted(values: seq<Cell>, dates: seq<Date>)
    requires |values| <= |dates|
    requires forall i, j :: 0 <= i < j < |dates| ==> dates[i] < dates[j]
    ensures Sorted(PointRows(values, dates)) && StrictlyAscendingDates(PointRows(values, dates))
  {
  }

  /** Projecting rows with strictly ascending dates with the defaults gives the
      rows back, in one column named after the series. */
  lemma ProjectAscendingRows(values: seq<Cell>, dates: seq<Date>, nm: Text, parseCutoff: string -> Parsed)
    requires |values| <= |dates|
    requires forall i, j :: 0 <= i < j < |dates| ==> dates[i] < dates[j]
    requires nm != Str("date_create") && nm != Str("date_release")
    ensures Projection.ToDataFrame(PointRows(values, dates), nm, true, NoCutoff, false, false, parseCutoff) ==
            Ok(Frame([(nm, ValueField)], PointRows(values, dates)))
  {
    var rows := PointRows(values, dates);
    AscendingRowsSorted(values, dates);
    SortSortedIsIdentity(rows);
    KeepFirstOfDistinct(rows, {});
    DefaultColumns(nm);
  }

  /** Projecting rows with pairwise distinct dates, in any order, with the
      defaults gives the same rows sorted by date, in one column named after the
      series. */
  lemma ProjectDistinctRows(values: seq<Cell>, dates: seq<Date>, nm: Text, parseCutoff: string -> Parsed)
    requires |values| <= |dates|
    requires forall i, j :: 0 <= i < j < |dates| ==> dates[i] != dates[j]
    requires nm != Str("date_create") && nm != Str("date_release")
    ensures var f := Projection.ToDataFrame(PointRows(values, dates), nm, true, NoCutoff, false, false, parseCutoff);
            f.Ok? && f.value.columns == [(nm, ValueField)] &&
            |f.value.rows| == |values| && multiset(f.value.rows) == multiset(PointRows(values, dates)) &&
            StrictlyAscendingDates(f.value.rows)
  {
    var rows := PointRows(values, dates);
    SortDistinctAscending(rows);
    var sorted := SortRows(rows);
    assert |sorted| == |rows| by {
      assert |multiset(sorted)| == |multiset(rows)|;
    }
    KeepFirstOfDistinct(sorted, {});
    DefaultColumns(nm);
  }

  /** A one-column table ingested without groups gives one series over its column. */
  lemma OneColumn(df: DataFrame, tsType: TypeArg, name: Option<Text>, description: Option<Text>,
                  dateColumn: Option<string>, sameGroups: bool, parse: Cell -> Option<Date>)
    requires Rectangular(df) && ResolveDateAxis(df, dateColumn, parse).Ok?
    requires |ResolveDateAxis(df, dateColumn, parse).value.0.columns| == 1
    ensures var axis := ResolveDateAxis(df, dateColumn, parse).value;
            var r := Ingested(df, NoneArg, tsType, name, description, dateColumn, sameGroups, parse);
            r.Ok? && r.value.One? &&
            r.value.single.name == (if name.None? then Str(axis.0.columns[0]) else name.value) &&
            r.value.single.rows == PointRows(axis.0.data[0], axis.1)
  {
  }

  /** Round trip: a one-column table with strictly ascending dates, ingested without
      groups and projected with the defaults, gives back its values in order, in
      one column named after the series. */
  lemma {:induction false} RoundTrip(df: DataFrame, tsType: TypeArg, name: Option<Text>, description: Option<Text>,
                                     dateColumn: Option<string>, sameGroups: bool, parse: Cell -> Option<Date>,
                                     parseCutoff: string -> Parsed)
    requires Rectangular(df) && ResolveDateAxis(df, dateColumn, parse).Ok?
    requires var axis := ResolveDateAxis(df, dateColumn, parse).value;
             |axis.0.columns| == 1 &&
             (forall i, j :: 0 <= i < j < |axis.1| ==> axis.1[i] < axis.1[j]) &&
             var nm := if name.None? then Str(axis.0.columns[0]) else name.value;
             nm != Str("date_create") && nm != Str("date_release")
    ensures var r := Ingested(df, NoneArg, tsType, name, description, dateColumn, sameGroups, parse);
            r.Ok? && r.value.One? &&
            var v := r.value.single;
            var axis := ResolveDateAxis(df, dateColumn, parse).value;
            var f := Projection.ToDataFrame(v.rows, v.name, true, NoCutoff, false, false, parseCutoff);
            f.Ok? && f.value.columns == [(v.name, ValueField)] &&
            |f.value.rows| == |axis.0.data[0]| &&
            forall i :: 0 <= i < |axis.0.data[0]| ==>
              Index(f.value)[i] == axis.1[i] && EntryAt(f.value, i, 0) == ValueEntry(axis.0.data[0][i])
  {
    var axis := ResolveDateAxis(df, dateColumn, parse).value;
    var nm := if name.None? then Str(axis.0.columns[0]) else name.value;
    OneColumn(df, tsType, name, description, dateColumn, sameGroups, parse);
    ProjectAscendingRows(axis.0.data[0], axis.1, nm, parseCutoff);
  }

  /** Round trip for distinct dates in any order: a one-column table ingested
      without groups and projected with the defaults gives one row per value,
      holding exactly the table's (date, value) pairs, in ascending date order,
      in one column named after the series. */
  lemma {:induction false} RoundTripDistinct(df: DataFrame, tsType: TypeArg, name: Option<Text>,
                                             description: Option<Text>, dateColumn: Option<string>, sameGroups: bool,
                                             parse: Cell -> Option<Date>, parseCutoff: string -> Parsed)
    requires Rectangular(df) && ResolveDateAxis(df, dateColumn, parse).Ok?
    requires var axis := ResolveDateAxis(df, dateColumn, parse).value;
             |axis.0.columns| == 1 &&
             (forall i, j :: 0 <= i < j < |axis.1| ==> axis.1[i] != axis.1[j]) &&
             var nm := if name.None? then Str(axis.0.columns[0]) else name.value;
             nm != Str("date_create") && nm != Str("date_release")
    ensures var r := Ingested(df, NoneArg, tsType, name, description, dateColumn, sameGroups, parse);
            r.Ok? && r.value.One? &&
            var v := r.value.single;
            var axis := ResolveDateAxis(df, dateColumn, parse).value;
            var f := Projection.ToDataFrame(v.rows, v.name, true, NoCutoff, false, false, parseCutoff);
            f.Ok? && f.value.columns == [(v.name, ValueField)] &&
            |f.value.rows| == |axis.0.data[0]| &&
            multiset(f.value.rows) == multiset(PointRows(axis.0.data[0], axis.1)) &&
            StrictlyAscendingDates(f.value.rows)
  {
    var axis := ResolveDateAxis(df, dateColumn, parse).value;
    var nm := if name.None? then Str(axis.0.columns[0]) else name.value;
    OneColumn(df, tsType, name, description, dateColumn, sameGroups, parse);
    ProjectDistinctRows(axis.0.data[0], axis.1, nm, parseCutoff);
  }
}
