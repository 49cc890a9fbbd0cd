/** The entities of the time-series store and what their methods do to them and
    to the session: keyword tagging with get-or-create, the series constructor,
    the point-in-time view of a series, and the cascading `save`.

    The session stands for the ORM session and the rows already in the
    database: a set of pending objects and a set of committed ones. A keyword is
    visible to the get-or-create lookup as soon as it is pending, as it is to the
    ORM's autoflushing query. */
module Models {
  import opened Base
  import Projection

  class Keyword {
    const word: string

    constructor (word: string)
      ensures this.word == word
    {
      this.word := word;
    }
  }

  class TimeSeriesType {
    const name: string
    const description: Option<string>

    constructor (name: string, description: Option<string>)
      ensures this.name == name && this.description == description
    {
      this.name := name;
      this.description := description;
    }
  }

  /** One observation. Its fields never change once it is built; only the link to
      its series is set, by the ORM, when the series takes it. */
  class DataPoint {
    const date: Date
    const value: Cell
    const released: Option<Date>
    const created: Option<Timestamp>
    var timeSeries: Series?

    constructor (date: Date, value: Cell, released: Option<Date>, created: Option<Timestamp>)
      ensures this.date == date && this.value == value
      ensures this.released == released && this.created == created
      ensures timeSeries == null
    {
      this.date := date;
      this.value := value;
      this.released := released;
      this.created := created;
      timeSeries := null;
    }
  }

  /** The snapshot row `to_dataframe` takes of a data point. */
  function RowOf(p: DataPoint): Projection.Row {
    Projection.Row(p.date, p.value, p.created, p.released)
  }

  function RowsOf(ps: seq<DataPoint>): seq<Projection.Row> {
    seq(|ps|, i requires 0 <= i < |ps| => RowOf(ps[i]))
  }

  function WordsOf(ks: seq<Keyword>): seq<string> {
    seq(|ks|, i requires 0 <= i < |ks| => ks[i].word)
  }

  predicate Distinct(ws: seq<string>) {
    forall i, j :: 0 <= i < j < |ws| ==> ws[i] != ws[j]
  }

  /** The words of a series after tagging it with `w`. */
  function Tag(ws: seq<string>, w: string): (r: seq<string>)
    ensures Distinct(ws) ==> Distinct(r)
    ensures w in r && forall v :: v in r <==> v in ws || v == w
  {
    if w in ws then ws else ws + [w]
  }

  /** The words of a series after tagging it with each of `words` in turn. */
  function TagAll(ws: seq<string>, words: seq<string>): seq<string> {
    if words == [] then ws
    else Tag(TagAll(ws, words[..|words| - 1]), words[|words| - 1])
  }

  /** Tagging from a list keeps one copy of every word, in order of first use. */
  lemma {:induction false} TagAllWords(ws: seq<string>, words: seq<string>)
    requires Distinct(ws)
    ensures Distinct(TagAll(ws, words))
    ensures forall v :: v in TagAll(ws, words) <==> v in ws || v in words
  {
    if words != [] {
      var init := words[..|words| - 1];
      TagAllWords(ws, init);
      assert words == init + [words[|words| - 1]];
    }
  }

  /** Tagging twice with the same word is tagging once. */
  lemma TagIdempotent(ws: seq<string>, w: string)
    ensures Tag(Tag(ws, w), w) == Tag(ws, w)
  {
  }

  /** The words of a series after untagging `w`. */
  function Untag(ws: seq<string>, w: string): seq<string> {
    if ws == [] then []
    else if ws[0] == w then Untag(ws[1..], w)
    else [ws[0]] + Untag(ws[1..], w)
  }

  /** Untagging removes the word and nothing else, and is a no-op on an absent one. */
  lemma {:induction false} UntagWords(ws: seq<string>, w: string)
    ensures forall v :: v in Untag(ws, w) <==> v in ws && v != w
    ensures w !in ws ==> Untag(ws, w) == ws
    ensures Distinct(ws) ==> Distinct(Untag(ws, w))
  {
    if ws != [] {
      UntagWords(ws[1..], w);
      assert ws == [ws[0]] + ws[1..];
      if Distinct(ws) {
        assert Distinct(ws[1..]);
        assert ws[0] !in ws[1..];
      }
    }
  }

  function Without(ks: seq<Keyword>, k: Keyword): seq<Keyword> {
    if ks == [] then []
    else if ks[0] == k then Without(ks[1..], k)
    else [ks[0]] + Without(ks[1..], k)
  }

  /** Removing the keyword object removes its word, when no other keyword
      carries that word. */
  lemma {:induction false} WithoutWords(ks: seq<Keyword>, k: Keyword)
    requires forall j :: 0 <= j < |ks| && ks[j].word == k.word ==> ks[j] == k
    ensures WordsOf(Without(ks, k)) == Untag(WordsOf(ks), k.word)
    ensures forall x :: x in Without(ks, k) ==> x in ks
  {
    if ks != [] {
      WithoutWords(ks[1..], k);
      assert WordsOf(ks) == [ks[0].word] + WordsOf(ks[1..]);
      if ks[0] != k {
        assert WordsOf([ks[0]] + Without(ks[1..], k)) == [ks[0].word] + WordsOf(Without(ks[1..], k));
      }
    }
  }

  /** An object the session can hold, tagged by its class. */
  datatype Entity =
    | KeywordEntity(keyword: Keyword)
    | TypeEntity(tsType: TimeSeriesType)
    | SeriesEntity(series: Series)
    | PointEntity(point: DataPoint)

  /** The session's contents as a value. */
  datatype Store = Store(pending: set<Entity>, committed: set<Entity>)

  /** `session.add(o)`: a new object becomes pending; one already stored stays as it is. */
  function AfterAdd(st: Store, e: Entity): Store {
    if e in st.committed then st else Store(st.pending + {e}, st.committed)
  }

  /** `session.commit()`: every pending object is stored. */
  function AfterCommit(st: Store): Store {
    Store({}, st.committed + st.pending)
  }

  /** The session after `save` has added the objects `saved`, then committed or not. */
  function AfterSave(st: Store, saved: set<Entity>, commit: bool): Store {
    var staged := Store(st.pending + (saved - st.committed), st.committed);
    if commit then AfterCommit(staged) else staged
  }

  /** Afterwards every saved object is held by the session, pending or stored. */
  lemma SaveHoldsAll(st: Store, saved: set<Entity>, commit: bool)
    ensures saved <= AfterSave(st, saved, commit).pending + AfterSave(st, saved, commit).committed
    ensures commit ==> saved <= AfterSave(st, saved, commit).committed
    ensures !commit ==> AfterSave(st, saved, commit).committed == st.committed
  {
  }

  /** Saving the same objects again changes nothing: the session is a set. */
  lemma SaveIdempotent(st: Store, saved: set<Entity>, commit: bool)
    ensures AfterSave(AfterSave(st, saved, commit), saved, commit) == AfterSave(st, saved, commit)
  {
  }

  /** Deferred saves followed by one commit store what saving with commit stores. */
  lemma DeferredThenCommit(st: Store, saved: set<Entity>)
    ensures AfterCommit(AfterSave(st, saved, false)) == AfterSave(st, saved, true)
  {
  }

  class Session {
    var pending: set<Entity>
    var committed: set<Entity>

    ghost predicate Valid()
      reads this
    {
      pending !! committed
    }

    function State(): Store
      reads this
    {
      Store(pending, committed)
    }

    /** The keyword registry: every keyword the session holds. */
    function Keywords(): set<Keyword>
      reads this
    {
      set e | e in pending + committed && e.KeywordEntity? :: e.keyword
    }

    function Words(): set<string>
      reads this
    {
      set k | k in Keywords() :: k.word
    }

    /** The database's unique constraint on the keyword word. */
    ghost predicate UniqueWords()
      reads this
    {
      forall k1, k2 :: k1 in Keywords() && k2 in Keywords() && k1.word == k2.word ==> k1 == k2
    }

    constructor ()
      ensures Valid() && pending == {} && committed == {}
    {
      pending, committed := {}, {};
    }

    method Add(e: Entity)
      requires Valid()
      modifies this
      ensures Valid() && State() == AfterAdd(old(State()), e)
    {
      if e !in committed {
        pending := pending + {e};
      }
    }

    method Commit()
      requires Valid()
      modifies this
      ensures Valid() && State() == AfterCommit(old(State()))
    {
      committed := committed + pending;
      pending := {};
    }
  }

  /** A series, of either kind: the fields of SeriesBase, and those of TimeSeries,
      which a SeriesGroup leaves empty. */
  class Series {
    const kind: Kind
    var name: Text
    var description: Option<Text>
    var keywords: seq<Keyword>
    var tsType: TimeSeriesType?
    var typeId: Option<int>
    var dataPoints: seq<DataPoint>
    var seriesGroups: seq<Series>

    function Words(): seq<string>
      reads this
    {
      WordsOf(keywords)
    }

    /** Each keyword of the series is a registered one, and no word is there twice. */
    ghost predicate Tagged(session: Session)
      reads this, session
    {
      Distinct(Words()) && forall k :: k in keywords ==> k in session.Keywords()
    }

    /** `SeriesBase.__init__(name, description, keywords)`: tags the new series with
        each word of the list. */
    constructor (kind: Kind, name: Text, description: Option<Text>, words: seq<string>, session: Session)
      requires session.Valid() && session.UniqueWords()
      modifies session
      ensures this.kind == kind && this.name == name && this.description == description
      ensures Words() == TagAll([], words) && Tagged(session)
      ensures session.Valid() && session.UniqueWords() && session.committed == old(session.committed)
      ensures old(session.Keywords()) <= session.Keywords()
      ensures session.Words() == old(session.Words()) + (set w | w in words)
      ensures tsType == null && typeId == None && dataPoints == [] && seriesGroups == []
    {
      this.kind := kind;
      this.name := name;
      this.description := description;
      keywords := [];
      tsType, typeId, dataPoints, seriesGroups := null, None, [], [];
      new;
      AddKeywords(session, words);
    }

    /** The tagging loop of the constructor: `add_keyword` for each word in turn. */
    method AddKeywords(session: Session, words: seq<string>)
      requires session.Valid() && session.UniqueWords() && Tagged(session)
      modifies this`keywords, session
      ensures session.Valid() && session.UniqueWords() && Tagged(session)
      ensures Words() == TagAll(old(Words()), words)
      ensures session.committed == old(session.committed)
      ensures old(session.Keywords()) <= session.Keywords()
      ensures session.Words() == old(session.Words()) + (set w | w in words)
    {
      ghost var registered, held, tagged := session.Words(), session.Keywords(), Words();
      var i := 0;
      while i < |words|
        invariant 0 <= i <= |words|
        invariant session.Valid() && session.UniqueWords() && Tagged(session)
        invariant Words() == TagAll(tagged, words[..i])
        invariant session.committed == old(session.committed)
        invariant held <= session.Keywords()
        invariant session.Words() == registered + (set w | w in words[..i])
      {
        AddKeyword(session, words[i]);
        ElementsSnoc(words, i);
        i := i + 1;
      }
      assert words[..i] == words;
    }

    /** Extending a list of words by one word. */
    static lemma ElementsSnoc(words: seq<string>, i: nat)
      requires i < |words|
      ensures words[..i + 1] == words[..i] + [words[i]]
      ensures (set v | v in words[..i] + [words[i]]) == (set v | v in words[..i]) + {words[i]}
    {
      var pre, next := words[..i], words[..i + 1];
      assert next == pre + [words[i]];
    }

    /** `TimeSeries(name=..., data_points=points)`: a time series that takes the
        points; the ORM links each point back to it. */
    constructor WithPoints(name: Text, points: seq<DataPoint>)
      modifies set p | p in points
      ensures kind == TimeSeriesKind && this.name == name && description == None
      ensures keywords == [] && tsType == null && typeId == None && seriesGroups == []
      ensures dataPoints == points
      ensures forall p :: p in points ==> p.timeSeries == this
    {
      kind := TimeSeriesKind;
      this.name := name;
      description := None;
      keywords := [];
      tsType, typeId, dataPoints, seriesGroups := null, None, points, [];
      new;
      var i := 0;
      while i < |points|
        invariant 0 <= i <= |points|
        invariant forall k :: 0 <= k < i ==> points[k].timeSeries == this
        invariant this.name == name && description == None && keywords == []
        invariant tsType == null && typeId == None && seriesGroups == [] && dataPoints == points
      {
        points[i].timeSeries := this;
        i := i + 1;
      }
    }

    /** `add_keyword`: get or create the keyword with this word, then add it to the
        series unless the series already has a keyword with this word. */
    method AddKeyword(session: Session, w: string)
      requires session.Valid() && session.UniqueWords() && Tagged(session)
      modifies this`keywords, session
      ensures session.Valid() && session.UniqueWords() && Tagged(session)
      ensures Words() == Tag(old(Words()), w)
      ensures session.Words() == old(session.Words()) + {w}
      ensures session.committed == old(session.committed)
      ensures old(session.Keywords()) <= session.Keywords()
      ensures w in old(session.Words()) ==> session.State() == old(session.State())
      ensures w !in old(session.Words()) ==>
                exists k: Keyword :: fresh(k) && k.word == w &&
                  session.pending == old(session.pending) + {KeywordEntity(k)} &&
                  session.Keywords() == old(session.Keywords()) + {k}
    {
      var k: Keyword;
      if exists e | e in session.pending + session.committed :: e.KeywordEntity? && e.keyword.word == w {
        var e :| e in session.pending + session.committed && e.KeywordEntity? && e.keyword.word == w;
        k := e.keyword;
        assert k in session.Keywords();
      } else {
        assert w !in session.Words();
        ghost var before := session.Keywords();
        k := new Keyword(w);
        assert KeywordEntity(k) !in session.committed;
        session.Add(KeywordEntity(k));
        assert session.Keywords() == before + {k};
      }
      if w !in Words() {
        keywords := keywords + [k];
        assert Words() == old(Words()) + [w];
      }
    }

    /** `remove_keyword`: when the word is registered and the series has it, drop
        the registered keyword from the series; otherwise do nothing. */
    method RemoveKeyword(session: Session, w: string)
      requires session.UniqueWords() && Tagged(session)
      modifies this`keywords
      ensures Tagged(session)
      ensures Words() == Untag(old(Words()), w)
    {
      UntagWords(Words(), w);
      if exists e | e in session.pending + session.committed :: e.KeywordEntity? && e.keyword.word == w {
        var e :| e in session.pending + session.committed && e.KeywordEntity? && e.keyword.word == w;
        var k := e.keyword;
        if w in Words() {
          forall j | 0 <= j < |keywords| && keywords[j].word == k.word ensures keywords[j] == k {
            assert keywords[j] in session.Keywords();
          }
          WithoutWords(keywords, k);
          keywords := Without(keywords, k);
        }
      } else {
        forall j | 0 <= j < |keywords| ensures keywords[j].word != w {
          assert keywords[j] in session.Keywords();
        }
      }
    }

    /** `to_dataframe` over a snapshot of the series' data points. */
    function ToDataFrame(onlyMostRecentPerDate: bool, cutoff: Projection.Cutoff, includeRelease: bool,
                         includeCreate: bool, parse: string -> Projection.Parsed): Result<Projection.Frame>
      reads this
    {
      Projection.ToDataFrame(RowsOf(dataPoints), name, onlyMostRecentPerDate, cutoff,
                             includeRelease, includeCreate, parse)
    }
  }

  /** The objects `save` reads to find what an entity depends on. */
  function Footprint(e: Entity): set<object>
    reads if e.PointEntity? then {e.point} else {}
  {
    match e
    case SeriesEntity(s) => {s}
    case PointEntity(p) => if p.timeSeries != null then {p, p.timeSeries} else {p}
    case _ => {}
  }

  /** `TimeSeries._save_dependencies`: its type, when set, and every data point; a
      series group keeps the base hook, which adds nothing. */
  function SeriesDependencies(s: Series): set<Entity>
    reads s
  {
    if s.kind == SeriesGroupKind then {}
    else
      (if s.tsType != null then {TypeEntity(s.tsType)} else {}) +
      (set p | p in s.dataPoints :: PointEntity(p))
  }

  /** What `_save_dependencies` adds for an entity. A data point adds its series'
      dependencies and the series itself. */
  function Dependencies(e: Entity): set<Entity>
    reads Footprint(e)
  {
    match e
    case SeriesEntity(s) => SeriesDependencies(s)
    case PointEntity(p) =>
      if p.timeSeries != null then SeriesDependencies(p.timeSeries) + {SeriesEntity(p.timeSeries)} else {}
    case _ => {}
  }

  /** Everything `save` adds: the dependencies, then the entity itself. */
  function Saved(e: Entity): set<Entity>
    reads Footprint(e)
  {
    Dependencies(e) + {e}
  }

  /** Saving a time series holds the series, its type and every data point. */
  lemma SavedTimeSeries(s: Series)
    requires s.kind == TimeSeriesKind
    ensures SeriesEntity(s) in Saved(SeriesEntity(s))
    ensures s.tsType != null ==> TypeEntity(s.tsType) in Saved(SeriesEntity(s))
    ensures forall p :: p in s.dataPoints ==> PointEntity(p) in Saved(SeriesEntity(s))
  {
  }

  /** Saving a data point also holds its series, the series' type and every sibling point. */
  lemma SavedDataPoint(p: DataPoint)
    requires p.timeSeries != null && p.timeSeries.kind == TimeSeriesKind
    ensures PointEntity(p) in Saved(PointEntity(p))
    ensures SeriesEntity(p.timeSeries) in Saved(PointEntity(p))
    ensures p.timeSeries.tsType != null ==> TypeEntity(p.timeSeries.tsType) in Saved(PointEntity(p))
    ensures forall q :: q in p.timeSeries.dataPoints ==> PointEntity(q) in Saved(PointEntity(p))
  {
  }

  /** `_save_dependencies`, dispatched on the entity's class. */
  method SaveDependencies(e: Entity, session: Session)
    requires session.Valid()
    modifies session
    ensures session.Valid()
    ensures session.State() == Store(old(session.pending) + (Dependencies(e) - old(session.committed)),
                                     old(session.committed))
    decreases if e.PointEntity? then 1 else 0
  {
    match e
    case SeriesEntity(s) =>
      if s.kind == TimeSeriesKind {
        SaveTimeSeriesDependencies(s, session);
      }
    case PointEntity(p) =>
      if p.timeSeries != null {
        SaveDependencies(SeriesEntity(p.timeSeries), session);
        session.Add(SeriesEntity(p.timeSeries));
      }
    case _ =>
  }

  /** The body of `TimeSeries._save_dependencies`: the type when set, then each
      data point in turn. */
  method SaveTimeSeriesDependencies(s: Series, session: Session)
    requires session.Valid() && s.kind == TimeSeriesKind
    modifies session
    ensures session.Valid()
    ensures session.State() == Store(old(session.pending) + (SeriesDependencies(s) - old(session.committed)),
                                     old(session.committed))
  {
    ghost var pending, committed := session.pending, session.committed;
    ghost var typeEntities: set<Entity> := if s.tsType != null then {TypeEntity(s.tsType)} else {};
    if s.tsType != null {
      session.Add(TypeEntity(s.tsType));
    }
    ghost var added: set<Entity> := {};
    var i := 0;
    while i < |s.dataPoints|
      invariant 0 <= i <= |s.dataPoints|
      invariant added == set p | p in s.dataPoints[..i] :: PointEntity(p)
      invariant session.Valid() && session.committed == committed
      invariant session.pending == pending + ((typeEntities + added) - committed)
    {
      session.Add(PointEntity(s.dataPoints[i]));
      PointsStep(s.dataPoints, i);
      added := added + {PointEntity(s.dataPoints[i])};
      i := i + 1;
    }
    assert s.dataPoints[..i] == s.dataPoints;
  }

  lemma PointsStep(points: seq<DataPoint>, i: nat)
    requires i < |points|
    ensures (set p | p in points[..i + 1] :: PointEntity(p)) ==
            (set p | p in points[..i] :: PointEntity(p)) + {PointEntity(points[i])}
  {
    var pre, next := points[..i], points[..i + 1];
    assert next == pre + [points[i]];
  }

  /** `BaseModel.save(session, commit)`: add the dependencies, then the entity,
      then commit when asked. */
  method Save(e: Entity, session: Session, commit: bool)
    requires session.Valid()
    modifies session
    ensures session.Valid()
    ensures session.State() == AfterSave(old(session.State()), Saved(e), commit)
  {
    SaveDependencies(e, session);
    session.Add(e);
    if commit {
      session.Commit();
    }
  }
}
