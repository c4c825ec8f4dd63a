/** The SQL text built for sound fragment listings: the query builder's
    `buildGetAllQuery` and `buildFilterConditions`, and the repository's own
    `buildFilterConditions`, which differs only in having no search clause.
    A query is a sequence of clauses, each rendered to its text; the query
    text is the rendered clauses in order, as the StringBuilder appends them. */
module SoundQueries {
  import opened Common
  import opened SoundFilter

  datatype Clause =
    | SelectColumns
    | SimilarityColumn
    | FromTable(tableName: string)
    | JoinRls(rlsName: string)
    | WhereReader(userId: int)
    | NotArchived
    | SearchMatch
    | GenreIn(genres: seq<string>)
    | LabelsIn(labels: seq<string>)
    | SourceIn(sources: seq<string>)
    | TypeIn(types: seq<string>)
    | OrderBySimilarity
    | OrderByDate
    | LimitOffset(limit: int, offset: int)

  function Quote(v: string): string {
    "'" + v + "'"
  }

  /** The values single-quoted with ", " between neighbours, grown at the end
      one value at a time as the builders' indexed loops grow it. */
  function QuotedList(values: seq<string>): string {
    if values == [] then ""
    else if |values| == 1 then Quote(values[0])
    else QuotedList(values[..|values| - 1]) + ", " + Quote(values[|values| - 1])
  }

  /** The indexed loop: before each value but the first a ", ", then the
      value between single quotes. */
  method AppendQuoted(prefix: string, values: seq<string>) returns (text: string)
    ensures text == prefix + QuotedList(values)
  {
    text := prefix;
    for i := 0 to |values|
      invariant text == prefix + QuotedList(values[..i])
    {
      assert values[..i + 1][..i] == values[..i];
      if i > 0 {
        text := text + ", ";
      }
      text := text + "'" + values[i] + "'";
    }
    assert values[..|values|] == values;
  }

  function Quotes(values: seq<string>): (r: seq<string>)
    ensures |r| == |values| && forall i :: 0 <= i < |values| ==> r[i] == Quote(values[i])
  {
    seq(|values|, i requires 0 <= i < |values| => Quote(values[i]))
  }

  lemma {:induction false} JoinSnoc(sep: string, items: seq<string>, last: string)
    requires items != []
    ensures Join(sep, items + [last]) == Join(sep, items) + sep + last
    decreases |items|
  {
    if |items| == 1 {
      assert (items + [last])[1..] == [last];
    } else {
      assert (items + [last])[1..] == items[1..] + [last];
      JoinSnoc(sep, items[1..], last);
    }
  }

  /** The list is String.join(", ") of the quoted values: n values give n
      quoted values in input order with n - 1 separators. */
  lemma {:induction false} QuotedListIsJoin(values: seq<string>)
    ensures QuotedList(values) == Join(", ", Quotes(values))
    decreases |values|
  {
    if |values| > 1 {
      var init := values[..|values| - 1];
      QuotedListIsJoin(init);
      assert Quotes(values) == Quotes(init) + [Quote(values[|values| - 1])];
      JoinSnoc(", ", Quotes(init), Quote(values[|values| - 1]));
    }
  }

  /** The text each clause appends. Long literals are written as runs of
      whole SQL words joined with `+` (a shorter literal is cheaper for the
      verifier); the joined text is the source's. The repository writes the
      genre and labels openings in two pieces whose concatenation is this
      same text. */
  function Text(c: Clause): string {
    match c
    case SelectColumns => "SELECT t.*, rls.*"
    case SimilarityColumn => ", similarity" + "(t.search_name, $1)" + " AS sim"
    case FromTable(tableName) => " FROM " + tableName + " t "
    case JoinRls(rlsName) => "JOIN " + rlsName + " rls ON t.id" + " = rls.entity_id "
    case WhereReader(userId) => "WHERE rls.reader = " + IntToString(userId)
    case NotArchived => " AND t.archived = 0"
    case SearchMatch =>
      " AND (t.search_name" + " ILIKE '%' || $1" + " || '%' OR" + " similarity" + "(t.search_name, $1)" + " > 0.05)"
    case GenreIn(genres) =>
      " AND EXISTS" + " (SELECT 1 FROM " + "kneobroadcaster__" + "sound_fragment_genres" + " sfg2 WHERE"
      + " sfg2.sound_fragment_id" + " = t.id AND" + " sfg2.genre_id IN (" + QuotedList(genres) + "))"
    case LabelsIn(labels) =>
      " AND EXISTS" + " (SELECT 1 FROM " + "kneobroadcaster__" + "sound_fragment_labels" + " sfl WHERE"
      + " sfl.id = t.id AND" + " sfl.label_id IN (" + QuotedList(labels) + "))"
    case SourceIn(sources) => " AND t.source IN (" + QuotedList(sources) + ")"
    case TypeIn(types) => " AND t.type IN (" + QuotedList(types) + ")"
    case OrderBySimilarity => " ORDER BY sim DESC"
    case OrderByDate => " ORDER BY" + " t.last_mod_date DESC"
    case LimitOffset(limit, offset) => " LIMIT " + IntToString(limit) + " OFFSET " + IntToString(offset)
  }

  function Render(cs: seq<Clause>): string {
    if cs == [] then "" else Text(cs[0]) + Render(cs[1..])
  }

  lemma {:induction false} RenderAppend(a: seq<Clause>, b: seq<Clause>)
    ensures Render(a + b) == Render(a) + Render(b)
    decreases |a|
  {
    if a == [] {
      assert a + b == b;
    } else {
      assert (a + b)[1..] == a[1..] + b;
      RenderAppend(a[1..], b);
    }
  }

  /** Every filter clause writes something. */
  lemma FilterTextNonEmpty(c: Clause)
    requires IsFilterClause(c)
    ensures Text(c) != ""
  {
  }

  /** The clauses of SoundFragmentRepositoryAbstract.buildFilterConditions:
      genre, labels, source, type, each for a present list. */
  function RepositoryClauses(f: SoundFragmentFilter): seq<Clause> {
    (if Present(f.genre) then [GenreIn(f.genre.value)] else [])
    + (if Present(f.labels) then [LabelsIn(f.labels.value)] else [])
    + (if Present(f.source) then [SourceIn(f.source.value)] else [])
    + (if Present(f.types) then [TypeIn(f.types.value)] else [])
  }

  /** The clauses of SoundFragmentQueryBuilder.buildFilterConditions:
      search, genre, labels, source, type. */
  function BuilderClauses(f: SoundFragmentFilter): seq<Clause> {
    (if HasText(f.searchTerm) then [SearchMatch] else [])
    + (if Present(f.genre) then [GenreIn(f.genre.value)] else [])
    + (if Present(f.labels) then [LabelsIn(f.labels.value)] else [])
    + (if Present(f.source) then [SourceIn(f.source.value)] else [])
    + (if Present(f.types) then [TypeIn(f.types.value)] else [])
  }

  predicate IsFilterClause(c: Clause) {
    c.SearchMatch? || c.GenreIn? || c.LabelsIn? || c.SourceIn? || c.TypeIn?
  }

  lemma BuilderClausesKind(f: SoundFragmentFilter)
    ensures forall c :: c in BuilderClauses(f) ==> IsFilterClause(c)
  {
  }

  function BuilderConditions(f: SoundFragmentFilter): string {
    Render(BuilderClauses(f))
  }

  function RepositoryConditions(f: SoundFragmentFilter): string {
    Render(RepositoryClauses(f))
  }

  /** The repository's clauses are the query builder's without the search
      clause, which it never emits: they read neither the search term nor
      the flag. */
  lemma BuildersAgree(f: SoundFragmentFilter, term: Option<string>, flag: bool)
    ensures BuilderClauses(f) == (if HasText(f.searchTerm) then [SearchMatch] else []) + RepositoryClauses(f)
    ensures SearchMatch !in RepositoryClauses(f)
    ensures RepositoryClauses(f) == RepositoryClauses(f.(searchTerm := term, activated := flag))
  {
  }

  /** The same agreement on the text. */
  lemma BuildersAgreeText(f: SoundFragmentFilter)
    ensures BuilderConditions(f)
         == Render(if HasText(f.searchTerm) then [SearchMatch] else []) + RepositoryConditions(f)
  {
    BuildersAgree(f, f.searchTerm, f.activated);
    RenderAppend(if HasText(f.searchTerm) then [SearchMatch] else [], RepositoryClauses(f));
  }

  /** Clauses of the filter kinds render to "" only when there are none. */
  lemma RenderFilterClauses(cs: seq<Clause>)
    requires forall c :: c in cs ==> IsFilterClause(c)
    ensures Render(cs) == "" <==> cs == []
  {
    if cs != [] {
      assert cs[0] in cs;
      FilterTextNonEmpty(cs[0]);
    }
  }

  /** The conditions are empty exactly when nothing in the filter is set
      (the flag aside); the search term counts only for the query builder. */
  lemma ConditionsEmptySpec(f: SoundFragmentFilter)
    ensures BuilderConditions(f) == "" <==> !HasAnyFilter(f)
    ensures RepositoryConditions(f) == ""
        <==> !(Present(f.genre) || Present(f.labels) || Present(f.source) || Present(f.types))
  {
    BuilderClausesKind(f);
    BuildersAgree(f, f.searchTerm, f.activated);
    RenderFilterClauses(BuilderClauses(f));
    RenderFilterClauses(RepositoryClauses(f));
  }

  /** The search term test the query builder repeats for the column and the
      ordering. */
  predicate Searching(filter: Option<SoundFragmentFilter>) {
    filter.Some? && HasText(filter.value.searchTerm)
  }

  /** The clauses up to the reader id. */
  function HeadClauses(tableName: string, rlsName: string, userId: int, searching: bool): seq<Clause> {
    [SelectColumns] + (if searching then [SimilarityColumn] else [])
    + [FromTable(tableName), JoinRls(rlsName), WhereReader(userId)]
  }

  /** The filter's clauses, written only for a present, activated filter. */
  function FilterPart(filter: Option<SoundFragmentFilter>): seq<Clause> {
    if filter.Some? && IsActivated(filter.value) then BuilderClauses(filter.value) else []
  }

  /** The ordering, then LIMIT/OFFSET when limit > 0. */
  function TailClauses(searching: bool, limit: int, offset: int): seq<Clause> {
    [if searching then OrderBySimilarity else OrderByDate]
    + (if limit > 0 then [LimitOffset(limit, offset)] else [])
  }

  /** The clauses in the order buildGetAllQuery appends them: the head, the
      archived clause unless archived rows are wanted, the conditions, the
      tail. */
  function Assemble(tableName: string, rlsName: string, userId: int, searching: bool, includeArchived: bool,
                    conds: seq<Clause>, limit: int, offset: int): seq<Clause>
  {
    HeadClauses(tableName, rlsName, userId, searching)
    + ((if !includeArchived then [NotArchived] else []) + conds)
    + TailClauses(searching, limit, offset)
  }

  /** The clauses of buildGetAllQuery. */
  function GetAllClauses(tableName: string, rlsName: string, userId: int, includeArchived: bool,
                         filter: Option<SoundFragmentFilter>, limit: int, offset: int): seq<Clause>
  {
    Assemble(tableName, rlsName, userId, Searching(filter), includeArchived, FilterPart(filter), limit, offset)
  }

  /** SoundFragmentQueryBuilder.buildGetAllQuery. */
  function GetAllQuery(tableName: string, rlsName: string, userId: int, includeArchived: bool,
                       filter: Option<SoundFragmentFilter>, limit: int, offset: int): string
  {
    Render(GetAllClauses(tableName, rlsName, userId, includeArchived, filter, limit, offset))
  }

  lemma FilterPartKind(filter: Option<SoundFragmentFilter>)
    ensures forall c :: c in FilterPart(filter) ==> IsFilterClause(c)
  {
    if filter.Some? {
      BuilderClausesKind(filter.value);
    }
  }

  /** The head of any assembled query. */
  lemma AssembleHead(tableName: string, rlsName: string, userId: int, searching: bool, includeArchived: bool,
                     conds: seq<Clause>, limit: int, offset: int)
    ensures var cs := Assemble(tableName, rlsName, userId, searching, includeArchived, conds, limit, offset);
      var n := if searching then 5 else 4;
      && |cs| > n
      && cs[0] == SelectColumns
      && (cs[1] == SimilarityColumn <==> searching)
      && cs[n - 3..n] == [FromTable(tableName), JoinRls(rlsName), WhereReader(userId)]
  {
  }

  /** The tail of an assembled query whose conditions are filter clauses. */
  lemma AssembleTail(tableName: string, rlsName: string, userId: int, searching: bool, includeArchived: bool,
                     conds: seq<Clause>, limit: int, offset: int)
    requires forall c :: c in conds ==> IsFilterClause(c)
    ensures var cs := Assemble(tableName, rlsName, userId, searching, includeArchived, conds, limit, offset);
      var order := if searching then OrderBySimilarity else OrderByDate;
      && |cs| >= 5
      && (OrderBySimilarity in cs <==> searching)
      && (OrderByDate in cs <==> !searching)
      && (limit > 0 ==> cs[|cs| - 2..] == [order, LimitOffset(limit, offset)])
      && (limit <= 0 ==> cs[|cs| - 1] == order && forall c :: c in cs ==> !c.LimitOffset?)
  {
    var head := HeadClauses(tableName, rlsName, userId, searching);
    var mid := (if !includeArchived then [NotArchived] else []) + conds;
    assert forall c: Clause :: c in head + mid ==> !c.OrderBySimilarity? && !c.OrderByDate? && !c.LimitOffset?;
  }

  /** The archived clause and the filter clauses of an assembled query whose
      conditions are filter clauses. */
  lemma AssembleFilter(tableName: string, rlsName: string, userId: int, searching: bool, includeArchived: bool,
                       conds: seq<Clause>, limit: int, offset: int)
    requires forall c :: c in conds ==> IsFilterClause(c)
    ensures var cs := Assemble(tableName, rlsName, userId, searching, includeArchived, conds, limit, offset);
      && (NotArchived in cs <==> !includeArchived)
      && (forall c :: c in cs && IsFilterClause(c) ==> c in conds)
  {
    var head := HeadClauses(tableName, rlsName, userId, searching);
    var tail := TailClauses(searching, limit, offset);
    assert NotArchived !in conds;
    assert forall c :: c in head + tail ==> !IsFilterClause(c) && c != NotArchived;
  }

  /** The first clauses, up to the reader: the similarity column follows
      the selected columns exactly when the search term is non-blank. */
  lemma GetAllHeadSpec(tableName: string, rlsName: string, userId: int, includeArchived: bool,
                       filter: Option<SoundFragmentFilter>, limit: int, offset: int)
    ensures var cs := GetAllClauses(tableName, rlsName, userId, includeArchived, filter, limit, offset);
      var n := if Searching(filter) then 5 else 4;
      && |cs| > n
      && cs[0] == SelectColumns
      && (cs[1] == SimilarityColumn <==> Searching(filter))
      && cs[n - 3..n] == [FromTable(tableName), JoinRls(rlsName), WhereReader(userId)]
  {
    AssembleHead(tableName, rlsName, userId, Searching(filter), includeArchived, FilterPart(filter), limit, offset);
  }

  /** The ordering is by similarity exactly when the search term is
      non-blank, by modification date otherwise; LIMIT/OFFSET closes the
      query exactly when limit > 0, the ordering otherwise. */
  lemma GetAllTailSpec(tableName: string, rlsName: string, userId: int, includeArchived: bool,
                       filter: Option<SoundFragmentFilter>, limit: int, offset: int)
    ensures var cs := GetAllClauses(tableName, rlsName, userId, includeArchived, filter, limit, offset);
      var order := if Searching(filter) then OrderBySimilarity else OrderByDate;
      && |cs| >= 5
      && (OrderBySimilarity in cs <==> Searching(filter))
      && (OrderByDate in cs <==> !Searching(filter))
      && (limit > 0 ==> cs[|cs| - 2..] == [order, LimitOffset(limit, offset)])
      && (limit <= 0 ==> cs[|cs| - 1] == order && forall c :: c in cs ==> !c.LimitOffset?)
  {
    FilterPartKind(filter);
    AssembleTail(tableName, rlsName, userId, Searching(filter), includeArchived, FilterPart(filter), limit, offset);
  }

  /** The archived clause is written exactly when archived rows are
      excluded, and filter clauses only for an activated filter, as that
      filter's own clauses. */
  lemma GetAllFilterSpec(tableName: string, rlsName: string, userId: int, includeArchived: bool,
                         filter: Option<SoundFragmentFilter>, limit: int, offset: int)
    ensures var cs := GetAllClauses(tableName, rlsName, userId, includeArchived, filter, limit, offset);
      && (NotArchived in cs <==> !includeArchived)
      && (forall c :: c in cs && IsFilterClause(c)
            ==> filter.Some? && IsActivated(filter.value) && c in BuilderClauses(filter.value))
  {
    FilterPartKind(filter);
    AssembleFilter(tableName, rlsName, userId, Searching(filter), includeArchived, FilterPart(filter), limit, offset);
  }

  /** A filter that sets nothing, switched on by its flag or not, leaves the
      query as it is without a filter (and so does any filter that is off). */
  lemma EmptyFilterQuery(tableName: string, rlsName: string, userId: int, includeArchived: bool,
                         f: SoundFragmentFilter, limit: int, offset: int)
    requires !HasAnyFilter(f)
    ensures GetAllQuery(tableName, rlsName, userId, includeArchived, Some(f), limit, offset)
         == GetAllQuery(tableName, rlsName, userId, includeArchived, None, limit, offset)
  {
    assert BuilderClauses(f) == [];
    assert GetAllClauses(tableName, rlsName, userId, includeArchived, Some(f), limit, offset)
        == GetAllClauses(tableName, rlsName, userId, includeArchived, None, limit, offset);
  }
}
