# investment-portfolio: time series, ingestion, keywords, saving and search

This project models the core of the investment-portfolio application in Dafny and proves properties of the model. Series are stored by SQLAlchemy and handled through pandas tables. The model covers six parts:

- **Projection** (`TimeSeries.to_dataframe`). The data points of a series become rows `(date, value, date_create, date_release)`. The rows are sorted stably by `(date, date_release, date_create)`, with missing values last. Optionally the first row of each date is kept; that row is the *earliest* vintage, despite the flag's name `only_most_recent_per_date`. An optional release cutoff is applied after that deduplication. The releases are `datetime.date` values, so only a date cutoff orders against them. A `datetime.datetime` cutoff, or a string that `pd.to_datetime` turns into a Timestamp, raises TypeError as soon as a remaining row has a release; this follows Python's date comparison and that of pandas 2. Last, the metadata columns are dropped by label. Module `Projection`, in `projection.dfy`, models all of this as pure functions over a sequence of rows.
- **Ingestion** (`TimeSeries.from_dataframe` and `build_time_series_object`). The date axis is set in three steps that run one after the other. A named date column becomes the index. Then a column whose lower-cased label is "date" becomes the index, replacing any index set before. Last, the index is always parsed as dates. A one-column table gives one series; any other table gives one series per column. The name, description and group arguments are checked against the number of columns. Each series gets one data point per row. The `series_groups` collection holds a group at most once, so a group listed twice, or broadcast to several columns, is held once. Module `Ingestion`, in `ingestion.dfy`, has specification functions (`Ingested`, `Built`) and methods that allocate the objects. Each method is proved to build exactly the value its specification function computes.
- **Keywords** (`SeriesBase.__init__`, `add_keyword`, `remove_keyword`). A keyword is fetched from the session's registry by exact word, or created and added to the session. A series holds at most one keyword per word.
- **Saving** (`BaseModel.save` and the two `_save_dependencies` overrides). The dependencies are added to the session, then the object itself, then the session commits if asked. The session is an object holding a set of pending entities and a set of committed ones. Module `Models`, in `models.dfy`, models keywords and saving through classes `Keyword`, `TimeSeriesType`, `DataPoint`, `Series` and `Session`.
- **Search** (`SeriesSearcher.search`). The stored series are a sequence of records `(kind, id, name, code, description, keywords)`. A record matches when its kind is selected and some enabled field matches: a case-insensitive substring in partial mode, equality otherwise. When no field is enabled, every record of a selected kind matches. Text with a space is split on single spaces and searched word by word. The word tables are concatenated, deduplicated by id keeping the first row, then limited.
- **Limit** (`limit_rows_of_df`). `True` stands for 100. An int `n` is passed to `head(n)`. A bool is an int, so `False` is passed to `head(False)`, which raises TypeError because pandas refuses a bool as a positional slice bound. Any other value leaves the table as it is. The search passes such an exception on: a search result is None, a table or an exception. Module `Search`, in `search.dfy`, models search and the limit.

Module `Base`, in `base.dfy`, holds the shared values:

- option and result types;
- the exceptions the code raises;
- the loosely typed name and description arguments (a string, or a list of strings);
- ASCII case folding, join and split.

The model follows the code where the code departs from its documentation or its tests:

- Deduplication keeps the earliest vintage.
- A several-column table with any name is refused, even a list of the right length.
- A column named "Date" is detected but then not found, and gives `KeyError('date')`.
- A scalar group is broadcast, then refused when the series is built.
- On the single-word path the limited table is computed and thrown away, so the rows come back unlimited. The computation still raises for `limit_rows=False`.

Several calls become plain inputs of the model:

- `pd.to_datetime`, on index labels and on the cutoff string, is a function parameter.
- The database's keyword lookup is a query of the session's pending and committed entities.
- The database contents the searcher queries are a parameter: the record sequence.
- `db.session` is the `Session` object passed in.

## Model

| member | source | states |
|---|---|---|
| Projection.Insert | app/models.py:202-205 | inserting a row into sorted rows keeps them sorted and adds exactly that row (multiset) |
| Projection.SortRows | app/models.py:202-205 | the sorted rows are ordered by (date, date_release, date_create), with a missing value after every present one, and are a permutation of the input |
| Projection.SortSortedIsIdentity | app/models.py:202-205 | the sort is stable: rows already in key order are left exactly as they are |
| Projection.AllVintagesSorted | app/models.py:202-205 | without deduplication and cutoff, the projection returns every point, in key order |
| Projection.EarliestVintage | app/models.py:202-207 | the reference vintage of a date is a row of that date |
| Projection.EarliestVintageIsLeast | app/models.py:202-207 | the reference vintage has the least (date_release, date_create) key of its date, with a missing release after every present one |
| Projection.UnreleasedKeptOnlyAlone | app/models.py:202-207 | if the kept vintage of a date has no release, then no row of that date has one |
| Projection.FirstOfSortedIsEarliest | app/models.py:202-207 | after the sort, the first row of each date is that date's reference vintage |
| Projection.KeepFirstMembers | app/models.py:206-207 | `drop_duplicates(subset=['date'])` keeps exactly the first row of each date not already seen |
| Projection.KeepFirstDates | app/models.py:206-207 | deduplication loses no date |
| Projection.KeepFirstAscending | app/models.py:204-207 | on rows ordered by date, deduplication leaves strictly ascending dates |
| Projection.KeepFirstOfDistinct | app/models.py:206-207 | on rows with strictly ascending dates, deduplication drops nothing |
| Projection.InsertAscending | app/models.py:202-205 | inserting a row with a new date into rows with strictly ascending dates keeps them strictly ascending |
| Projection.SortDistinctAscending | app/models.py:202-205 | the sort puts rows with pairwise distinct dates in strictly ascending date order |
| Projection.FilterReleased | app/models.py:223 | the filter keeps exactly the rows whose release is present and on or before the cutoff; a missing release, or a NaT cutoff, fails the comparison |
| Projection.FilterKeepsAscending | app/models.py:223 | filtering keeps strictly ascending dates ascending |
| Projection.Vintages | app/models.py:196-223 | the rows `to_dataframe` keeps, or its error; characterised by `CutoffValidation`, `ProjectedDatesAscend`, `ProjectedRowsAreEarliestVintages`, `CutoffAfterDedup`, `CutoffBoundsReleases` and `AllVintagesSorted` |
| Projection.KeptReleased | app/models.py:202-207 | after the sort and the deduplication some row has a release exactly when some point has one |
| Projection.CutoffValidation | app/models.py:213-223 | the projection fails exactly in three cases: a cutoff that is not a date, a datetime or a string; a string that does not parse; or a datetime or parsed Timestamp when some point has a release. The first two raise the code's ValueError and the third raises TypeError |
| Projection.ProjectedDatesAscend | app/models.py:202-211 | with deduplication, with or without a cutoff, the projected dates are strictly ascending, hence pairwise distinct |
| Projection.ProjectedRowsAreEarliestVintages | app/models.py:202-211 | with deduplication and no cutoff, every date of the points appears, and the rows are exactly the earliest vintage of each date |
| Projection.CutoffAfterDedup | app/models.py:206-223 | with deduplication and a cutoff, a row is returned exactly when it is its date's earliest vintage and is released by the cutoff, so a date whose earliest vintage fails disappears |
| Projection.CutoffBoundsReleases | app/models.py:213-223 | under any valid cutoff every returned row has a present release on or before it |
| Projection.DropLabel | app/models.py:225-228 | dropping a column by label removes exactly the columns with that label |
| Projection.DefaultColumns | app/models.py:208-229 | with default flags and a series name that is not a metadata label, the frame has the single value column named after the series |
| Projection.ToDataFrame | app/models.py:186-229 | the frame `to_dataframe` returns: the rows of `Vintages` under the columns `Columns` keeps; characterised by `DefaultColumns`, `NameClashDropsValues`, `ProjectAscendingRows`, `ProjectDistinctRows`, `RoundTrip` and `RoundTripDistinct` |
| Projection.KeepFirstPerDate | app/models.py:206-207 | `drop_duplicates(subset=['date'])`; characterised by `KeepFirstMembers`, `KeepFirstDates`, `KeepFirstAscending` and `KeepFirstOfDistinct` |
| Projection.NameClashDropsValues | app/models.py:208-229 | a series named "date_create" loses its value column too, because the column is dropped by label |
| Models.Keyword.constructor | app/models.py:49-52 | a keyword holds its word |
| Models.TimeSeriesType.constructor | app/models.py:431-435 | a type holds its name and description |
| Models.DataPoint.constructor | app/models.py:404-412 | a new point holds its date, value, release and creation stamp, and belongs to no series yet |
| Models.Tag | app/models.py:112-121 | the words of a series after `add_keyword(w)` contain `w`, contain nothing else new, and stay free of duplicates |
| Models.TagIdempotent | app/models.py:112-121 | adding the same word twice gives what adding it once gives |
| Models.TagAllWords | app/models.py:91-93 | tagging with a word list gives exactly the old words plus the list's words, without duplicates |
| Models.Untag | app/models.py:123-129 | the words after `remove_keyword`; characterised by `UntagWords` |
| Models.UntagWords | app/models.py:123-129 | after `remove_keyword(w)` the words are the old ones except `w`; removing an absent word changes nothing; no duplicates appear |
| Models.Without | app/models.py:127-129 | `self.keywords.remove(keyword)` on the series' keyword list; characterised by `WithoutWords` |
| Models.WithoutWords | app/models.py:123-129 | removing the registered keyword object removes exactly its word, when no other keyword object on the series has that word |
| Models.Session.Add | app/models.py:37 | `session.add` puts an entity not yet committed into the pending set, and leaves a committed one as it is |
| Models.Session.Commit | app/models.py:39-40 | `session.commit` moves every pending entity to the committed set |
| Models.Series.constructor | app/models.py:78-93 | a new series has its name and description, and one keyword per distinct word of the list; each word is now registered; nothing registered before is lost |
| Models.Series.AddKeywords | app/models.py:91-93 | tagging with each word of the list in turn gives the tagged words of the list and registers each word |
| Models.Series.WithPoints | app/models.py:380-383 | a new time series over the given points, every point now links back to it (the `time_series` backref) |
| Models.Series.AddKeyword | app/models.py:112-121 | the series' words become those of `Tag`; the word is registered afterwards; an already registered word leaves the session unchanged; an unknown word adds exactly one new keyword to the session and registry |
| Models.Series.RemoveKeyword | app/models.py:123-129 | the series' words become those of `Untag`; the session is not changed, so the registry never shrinks |
| Models.Series.ToDataFrame | app/models.py:186-229 | `to_dataframe` of a series: `Projection.ToDataFrame` over the rows of its data points |
| Models.SavedTimeSeries | app/models.py:174-184 | saving a time series saves the series, its type when set, and every data point |
| Models.SavedDataPoint | app/models.py:421-429 | saving a linked data point saves the point, its series, the series' type and every sibling point |
| Models.SaveTimeSeriesDependencies | app/models.py:174-184 | `TimeSeries._save_dependencies` adds the type and every data point, skipping committed ones, and commits nothing |
| Models.SaveDependencies | app/models.py:421-429 | `_save_dependencies`, dispatched on the class, adds exactly the entity's dependencies not already committed: a data point adds its series' dependencies and the series; a group or keyword adds nothing |
| Models.Save | app/models.py:26-40 | `save` leaves the session as `AfterSave` with the saved set: the dependencies and the entity added, then committed when asked |
| Models.AfterSave | app/models.py:26-40 | the session after `save` of a set of entities; characterised by `SaveHoldsAll`, `SaveIdempotent` and `DeferredThenCommit`, and reached by `Save` |
| Models.SaveHoldsAll | app/models.py:26-40 | after a save everything saved is in the session; with commit it is all committed; without commit nothing new is committed |
| Models.SaveIdempotent | app/models.py:26-40 | saving the same objects again changes nothing, because the session is a set |
| Models.DeferredThenCommit | app/models.py:26-40 | a save with `commit=False` followed by a commit gives the same session as a save with `commit=True` |
| Base.IndexOf | app/models.py:253 | the position of a column label (or of a character) is its first occurrence |
| Ingestion.SetIndex | app/models.py:253 | `set_index` makes the column's cells the index and removes that column from the value columns |
| Ingestion.ResolveDateAxis | app/models.py:250-261 | a resolved table is rectangular, with one parsed date per index label |
| Ingestion.DateColumnBecomesIndex | app/models.py:250-253 | a named date column supplies the dates, in order, and is no longer a value column |
| Ingestion.MissingDateColumn | app/models.py:250-252 | a date column that is not a column of the table raises the code's ValueError |
| Ingestion.DateLabelIsCaseSensitive | app/models.py:255-256 | a column "Date" without a column "date" is detected case-insensitively, then `set_index('date')` raises KeyError |
| Ingestion.UnparseableIndex | app/models.py:257-260 | an index label that does not parse as a date raises the code's ValueError |
| Ingestion.ListGroups | app/models.py:395-398 | the groups held after the list loop appends to the groups already held, a group already held not being held again, or the refusal; characterised by `ListGroupsSpec`, `RepeatedGroupHeldOnce` and `PrefixErrorPersists` |
| Ingestion.ListGroupsSpec | app/models.py:395-398 | a group list is accepted exactly when it holds only None and series groups; the series then keeps the groups it held, in front, and holds exactly those and the listed groups, none twice when none was twice before; a time series or a value that is not a mapped object makes the `series_groups` relationship refuse the list |
| Ingestion.RepeatedGroupHeldOnce | app/models.py:145-151 | a group listed twice is held once |
| Ingestion.PrefixErrorPersists | app/models.py:396-398 | once an item is refused the loop stops, so the whole list gives that refusal |
| Ingestion.AppendListGroups | app/models.py:395-398 | the list loop leaves the relationship holding exactly the groups `ListGroups` gives from the groups held before, or fails with its error |
| Ingestion.AppendGroups | app/models.py:389-400 | the groups step leaves the relationship holding exactly the groups `AppendedGroups` gives from the groups held before, or fails with its error |
| Ingestion.Built | app/models.py:372-402 | the series `build_time_series_object` builds, or its error; characterised by `BuiltPoints` and `ScalarGroupRefused`, and built by `BuildTimeSeriesObject` |
| Ingestion.NewPoints | app/models.py:377-379 | one new unlinked data point per value, the i-th with the i-th date and value and no release |
| Ingestion.BuiltPoints | app/models.py:377-383 | a series can be built exactly when there are enough dates and the groups are accepted; it then has exactly one point per value, the i-th with `dates[i]`, `values[i]` and no release, carries the given name and description, and is in exactly the given group or the listed groups, each once |
| Ingestion.ScalarGroupRefused | app/models.py:390-400 | a truthy string, int or other non-group value, or a time series, given as the groups is refused with the code's ValueError |
| Ingestion.BuildTimeSeriesObject | app/models.py:373-402 | the method fails exactly when `Built` does, with the same error; otherwise it returns a fresh time series, without keywords, whose state is `Built`'s value and whose fresh points link back to it |
| Ingestion.Ingested | app/models.py:231-336 | the result of `from_dataframe`; characterised by the date-axis, refusal, `ManyColumns`, `OneColumn`, `RoundTrip` and `RoundTripDistinct` lemmas, and built by `FromDataFrame` |
| Ingestion.SingleColumn | app/models.py:263-282 | the one-column branch; characterised by `OneColumn`, `RoundTrip` and `RoundTripDistinct`, and built by `FromSingleColumn` |
| Ingestion.SeveralColumns | app/models.py:283-336 | the several-columns branch; characterised by `SeveralColumnsRefuseAnyName`, `SeveralColumnsRefuseStringDescription`, `GroupCountMismatch`, `BroadcastScalarGroupFails` and `ManyColumns`, and built by `FromSeveralColumns` |
| Ingestion.FromDataFrame | app/models.py:232-336 | the method fails exactly when `Ingested` does, with the same error; otherwise it returns fresh back-linked series whose states are `Ingested`'s values, one series for one column and a list otherwise |
| Ingestion.FromSingleColumn | app/models.py:263-282 | the one-column branch builds the series `SingleColumn` describes: the column label as default name, the first list entry or an empty default as description |
| Ingestion.FromSeveralColumns | app/models.py:283-336 | the several-columns branch fails or builds exactly as `SeveralColumns` describes |
| Ingestion.BuildEveryColumn | app/models.py:323-336 | the column loop builds the series of every column in column order, or fails with the first column's error |
| Ingestion.BuildColumn | app/models.py:325-335 | one pass of the column loop builds the series `Column` describes |
| Ingestion.ColumnErrorPersists | app/models.py:323-336 | once a column's series cannot be built, the whole several-columns result is that error |
| Ingestion.SeveralColumnsRefuseAnyName | app/models.py:284-291 | with several value columns every name raises one of the three ValueErrors; a list of the right length raises "Name must be provided as list" |
| Ingestion.SeveralColumnsRefuseStringDescription | app/models.py:309-310 | with several value columns a string description raises the code's ValueError |
| Ingestion.GroupCountMismatch | app/models.py:300-305 | with several value columns a group list of another length, without the shared-groups flag, raises the code's ValueError |
| Ingestion.BroadcastScalarGroupFails | app/models.py:294-296 | a truthy string or int group with several columns is broadcast, then refused by `build_time_series_object` (app/models.py:399-400) with ValueError; with the shared-groups flag the broadcast list reaches the `series_groups` relationship, which refuses it |
| Ingestion.BuildColumnsSpec | app/models.py:323-336 | each built column series is named after its column, carries the description and has one point per row |
| Ingestion.ManyColumns | app/models.py:283-336 | a several-columns result has one series per column, in column order, named after the column, with one point per date holding that row's cell |
| Ingestion.AscendingRowsSorted | app/models.py:202-205 | points built over strictly ascending dates are already in key order |
| Ingestion.ProjectAscendingRows | app/models.py:196-229 | projecting such points with the defaults gives them back unchanged, in one value column |
| Ingestion.OneColumn | app/models.py:263-282 | a one-column table without groups gives one series, named after the column unless a name is given, over that column's cells |
| Ingestion.RoundTrip | app/models.py:263-282 | a one-column table with strictly ascending dates, ingested and projected with the defaults, gives back the same dates and values in order, in one column named after the series |
| Ingestion.ProjectDistinctRows | app/models.py:196-229 | points over pairwise distinct dates, in any order, project with the defaults to one row per point, exactly the points' rows, in strictly ascending date order, in one value column |
| Ingestion.RoundTripDistinct | app/models.py:263-282 | a one-column table with pairwise distinct dates in any order, ingested and projected with the defaults, gives one row per value holding exactly the table's (date, value) pairs, in ascending date order, in one column named after the series |
| Search.Head | app/series.py:214 | `head(n)` is a prefix: n rows when there are that many, and a negative n drops the last -n rows |
| Search.LimitRows | app/series.py:209-216 | the limit raises TypeError exactly for `False`; otherwise the limited table is a prefix of the table |
| Search.LimitRowsSizes | app/series.py:209-216 | `True` keeps the first 100 rows, `False` raises TypeError, an int n keeps the first n, and any other value keeps all |
| Search.KindRowsMembers | app/series.py:103-149 | a row is found for a kind exactly when a record of that kind matches, and the row is built from that record |
| Search.KindRowsTyped | app/series.py:139-149 | every row found for a kind carries that kind's type name |
| Search.QueryKind | app/series.py:103-149 | the query of one kind returns the rows of the matching records of that kind, in store order |
| Search.ConditionsAgree | app/series.py:97-127 | the or of the enabled conditions, or no filter when none is enabled, holds exactly when the record matches |
| Search.RecordMatches | app/series.py:97-127 | the record matching the query's filter; tied to the query by `ConditionsAgree` |
| Search.KindRows | app/series.py:103-197 | the rows one kind's query returns; characterised by `KindRowsMembers` and `KindRowsTyped` |
| Search.SingleSpec | app/series.py:85-206 | the single-word result; characterised by `SingleWordMembers`, `NoFieldsReturnsAll`, `TimeSeriesRowsFirst`, `SingleWordIgnoresLimit` and `FalseLimitRaises` |
| Search.DedupById | app/series.py:80 | `drop_duplicates(['id'])`; characterised by `DedupByIdMembers`, `DedupByIdDistinct` and `DedupByIdKeepsIds` |
| Search.SearchSpec | app/series.py:16-206 | the result of `search`; characterised by `EmptyTextGivesEmptyTable`, the single-word lemmas, `MultiWordNotFound`, `MultiWordRows`, `MultiWordKeepsIds`, `EmptyWordGivesTable` and `FalseLimitRaises` |
| Search.SearchWord | app/series.py:85-206 | the single-word path returns the result `SingleSpec` describes, including the TypeError that limiting a non-empty table with `False` raises |
| Search.Search | app/series.py:16-206 | the search returns exactly `SearchSpec`. For text with a space that is the per-word recursion, stopped by the first exception, then merging, deduplication and the limit; otherwise it is the single-word result |
| Search.EmptyTextGivesEmptyTable | app/series.py:89-91 | empty text gives an empty table, not None |
| Search.SingleWordMembers | app/series.py:97-202 | for one non-empty word, None is returned exactly when no record of a selected kind matches, and a row is returned exactly when it is built from such a record |
| Search.NoFieldsReturnsAll | app/series.py:107-127 | with no field enabled every record of a selected kind is returned |
| Search.TimeSeriesRowsFirst | app/series.py:139-197 | the time-series rows come before the series-group rows |
| Search.SingleWordIgnoresLimit | app/series.py:204-206 | on the single-word path every limit but `False` gives the same result, a table returned holds every match whatever the limit, and a result of more than 100 rows is returned whole |
| Search.FalseLimitRaises | app/series.py:78-81 | with `limit_rows=False` only the empty text gives a table (app/series.py:89-91); every other search gives None or raises TypeError (app/series.py:204, 214) |
| Search.DedupByIdMembers | app/series.py:80 | `drop_duplicates(['id'])` keeps exactly the first row of each id not already seen |
| Search.DedupByIdDistinct | app/series.py:80 | after deduplication no id appears twice |
| Search.DedupByIdKeepsIds | app/series.py:80 | deduplication keeps every id of the input |
| Search.CollectSpec | app/series.py:62-79 | collecting fails exactly when some word's search raised, with that word's error. Otherwise the tables are empty exactly when every word gave None, and their concatenation holds exactly the rows of the word tables |
| Search.CollectErrorPersists | app/series.py:62-75 | once a word's search raises the loop stops, so the whole collection gives that error |
| Search.MultiWordNotFound | app/series.py:60-83 | text with a space gives None exactly when every word gives None |
| Search.MultiWordRows | app/series.py:60-81 | text with a space gives rows that each come from some word's table, with no id twice |
| Search.MultiWordKeepsIds | app/series.py:60-81 | without a limit, every id some word found is returned |
| Search.EmptyWordGivesTable | app/series.py:61-91 | an empty word, from a doubled, leading or trailing space, means the whole result is never None, and it is a table whenever the limit is not `False` |
| Base.Split | app/series.py:61 | `str.split(' ')` gives at least one piece, no piece holds a space, joining the pieces gives the text back, and the text itself is the only piece exactly when it has no space |
| Base.Lower | app/series.py:97-101 | case folding keeps the length and lowercases exactly the ASCII capitals |

## Left out

- Floats: a value is an opaque cell (`Cell`) that is only copied, never computed with.
- `pd.to_datetime`: a parameter. Its failure is `None` for an index label, and `Unparseable` or NaT for a cutoff string. Time zones and date arithmetic are not modelled.
- Dates and timestamps are integers; `date_create` is an optional input of a point, because the database's server default is not modelled.
- Duplicate column labels: `set_index` and the date-column checks use the first column with the label.
- Non-string column labels, and names or descriptions other than a string or a list of strings, are not modelled.
- A `time_series_type` argument that is neither a type object nor an integer id, or None, is not modelled.
- The database: ids, unique constraints (keyword word, codes, type name), failing commits and the order in which a query returns rows. The store order of the records stands for the query order.
- ORM cascades: the relationship cascade that also puts `series_groups` and the `time_series` backref into the session is not modelled; only what the code adds explicitly is. A delete cascade is not declared by the code and is not modelled.
- Keyword order inside a series and the lazy `dynamic` relationship queries: a series' keywords are a sequence in insertion order.
- Models.Series.constructor: tags each word as `add_keyword` does, as if `self.keywords.filter_by(word=...)` filtered the in-memory keyword list. For a series that is not yet persisted, the query of the dynamic relationship is not modelled.
- Projection.Vintages: for a series named "date_release", `ts_dataframe['date_release']` selects two columns, and the cutoff then masks cells instead of filtering rows. The model filters rows for every name.
- The exact exception for a refused `series_groups` item: the ORM's exception depends on the item, for example AttributeError for a value that is not a mapped object. The model names every such refusal `RelationshipRefused`.
- pandas 1.x, where comparing a Timestamp with a `datetime.date` only warned, is not modelled; cutoffs compare as in pandas 2.
- ILIKE wildcards (`%`, `_`) inside the search text and non-ASCII case folding: partial matching is an ASCII case-insensitive substring test.
- `print_findings`: printing has no effect on the result.
- Search result tables are sequences of rows; the empty table's column labels, the pandas index and `pd.concat`'s index are not modelled.
- The parent/children hierarchy of series groups and the two sides of the group membership relation are not modelled; the code checks no cycles.
- `save_from_dataframe` is not modelled: it calls `from_dataframe` with an extra argument and then `save`, both of which are modelled.
- app/utils.py, config.py, app/__init__.py, the migration and the tutorial script are not part of this model.
- Behaviour that only the tests assert is not modelled: keyword validation, `join_data_points`, `save(allow_update=...)`, code validation.
- Models.Series.RemoveKeyword: when the series has the word but the registered keyword is another object with that word, the code's `remove` records a deletion that fails at the next flush. The model requires that every keyword of the series is registered, with one object per word, so that case cannot arise.
