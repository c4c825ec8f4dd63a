/** The brand listing statements (BrandRepository.getAll and getAllCount):
    the SQL text, grown clause by clause with a running placeholder number,
    and the parameter tuple grown beside it; and the bit-rate default read
    from a brand row. A statement is kept as pieces of literal text and
    numbered placeholders, so that its numbering can be stated. */
module BrandQueries {
  import opened Common

  datatype Piece = Sql(text: string) | Placeholder(index: int)

  datatype SqlParam = LongParam(value: int) | StringParam(text: string)

  function PieceText(p: Piece): string {
    match p
    case Sql(text) => text
    case Placeholder(index) => Param(index)
  }

  /** The statement text. */
  function Render(ps: seq<Piece>): string {
    if ps == [] then "" else PieceText(ps[0]) + Render(ps[1..])
  }

  /** The placeholder numbers in the order they occur. */
  function Placeholders(ps: seq<Piece>): seq<int> {
    if ps == [] then []
    else (if ps[0].Placeholder? then [ps[0].index] else []) + Placeholders(ps[1..])
  }

  /** 1, 2, ..., n. */
  function Numbers(n: nat): (r: seq<int>)
    ensures |r| == n && forall i :: 0 <= i < n ==> r[i] == i + 1
  {
    if n == 0 then [] else Numbers(n - 1) + [n]
  }

  lemma {:induction false} RenderAppend(ps: seq<Piece>, qs: seq<Piece>)
    ensures Render(ps + qs) == Render(ps) + Render(qs)
    decreases |ps|
  {
    if ps == [] {
      assert ps + qs == qs;
    } else {
      assert (ps + qs)[1..] == ps[1..] + qs;
      RenderAppend(ps[1..], qs);
      AppendAssoc(PieceText(ps[0]), Render(ps[1..]), Render(qs));
    }
  }

  lemma {:induction false} PlaceholdersAppend(ps: seq<Piece>, qs: seq<Piece>)
    ensures Placeholders(ps + qs) == Placeholders(ps) + Placeholders(qs)
    decreases |ps|
  {
    if ps == [] {
      assert ps + qs == qs;
    } else {
      assert (ps + qs)[1..] == ps[1..] + qs;
      PlaceholdersAppend(ps[1..], qs);
      var head: seq<int> := if ps[0].Placeholder? then [ps[0].index] else [];
      assert head + (Placeholders(ps[1..]) + Placeholders(qs)) == (head + Placeholders(ps[1..])) + Placeholders(qs);
    }
  }

  /** Text and numbering of a concatenation. */
  lemma AppendPieces(ps: seq<Piece>, qs: seq<Piece>)
    ensures Render(ps + qs) == Render(ps) + Render(qs)
    ensures Placeholders(ps + qs) == Placeholders(ps) + Placeholders(qs)
  {
    RenderAppend(ps, qs);
    PlaceholdersAppend(ps, qs);
  }

  lemma Pair(a: Piece, b: Piece)
    ensures Render([a, b]) == PieceText(a) + PieceText(b)
    ensures Placeholders([a, b]) == Placeholders([a]) + Placeholders([b])
  {
    assert [a, b][1..] == [b];
    assert [b][1..] == [] && [a][1..] == [];
    assert Render([b]) == PieceText(b) + "" == PieceText(b);
    assert Render([a, b]) == PieceText(a) + Render([b]);
  }

  lemma NumbersStep(n: nat)
    ensures Numbers(n) + [n + 1] == Numbers(n + 1)
    ensures Numbers(n) + [n + 1, n + 2] == Numbers(n + 2)
  {
    assert Numbers(n + 2) == Numbers(n) + [n + 1] + [n + 2];
  }

  lemma SmallNumbers()
    ensures IntToString(1) == "1" && IntToString(2) == "2" && IntToString(3) == "3" && IntToString(4) == "4"
  {
  }

  /** `s != null && !s.isBlank()`: a country or query given in earnest. */
  predicate Given(s: Option<string>) {
    s.Some? && !IsBlank(s.value)
  }

  /** The LIKE pattern for a search: lower-cased and wrapped in '%'. */
  function Pattern(query: string): string {
    "%" + Lower(query) + "%"
  }

  /** The parameter tuple: the reader, then the upper-cased country when
      given, then the pattern twice when a query is given. */
  function BrandParams(userId: int, country: Option<string>, query: Option<string>): seq<SqlParam> {
    [LongParam(userId)]
    + (if Given(country) then [StringParam(Upper(country.value))] else [])
    + (if Given(query) then [StringParam(Pattern(query.value)), StringParam(Pattern(query.value))] else [])
  }

  /** The FROM list and the reader condition up to its placeholder. */
  function ReaderPrefix(tableName: string, rlsName: string): string {
    tableName + " t, " + rlsName + " rls WHERE t.id = rls.entity_id AND rls.reader = "
  }

  /** The FROM list and the reader condition, placeholder $1. */
  function ReaderText(tableName: string, rlsName: string): string {
    ReaderPrefix(tableName, rlsName) + "$1"
  }

  function ArchivedText(includeArchived: bool): string {
    if !includeArchived then " AND t.archived = 0" else ""
  }

  /** `$i`, the text of placeholder i. */
  function Param(i: int): string {
    "$" + IntToString(i)
  }

  /** The country condition at placeholder i. */
  function CountryClause(i: int): string {
    " AND t.country = " + Param(i)
  }

  /** The search condition at placeholders i and i + 1: the stored search
      name, or the lower-cased description, matches the bound pattern (which
      the parameter tuple lower-cases). */
  function SearchClause(i: int): string {
    " AND (t.search_name LIKE " + (Param(i) + (" OR LOWER(t.description) LIKE " + (Param(i + 1) + ")")))
  }

  /** The country condition, at placeholder $2 when the country is given. */
  function CountryText(country: Option<string>): string {
    if Given(country) then CountryClause(2) else ""
  }

  /** The search condition, at the two placeholders after the country's. */
  function SearchText(country: Option<string>, query: Option<string>): string {
    if Given(query) then SearchClause(if Given(country) then 3 else 2) else ""
  }

  /** The FROM and WHERE text with the placeholder numbers written out. */
  function WhereText(tableName: string, rlsName: string, includeArchived: bool,
                     country: Option<string>, query: Option<string>): string
  {
    ReaderText(tableName, rlsName) + ArchivedText(includeArchived) + CountryText(country) + SearchText(country, query)
  }

  /** The text of getAll. */
  function GetAllText(limit: int, offset: int, includeArchived: bool, tableName: string, rlsName: string,
                      country: Option<string>, query: Option<string>): string
  {
    "SELECT * FROM " + WhereText(tableName, rlsName, includeArchived, country, query) + PageText(limit, offset)
  }

  /** Newest first by modification date; LIMIT/OFFSET only when limit > 0. */
  function PageText(limit: int, offset: int): string {
    " ORDER BY t.last_mod_date DESC"
    + (if limit > 0 then " LIMIT " + IntToString(limit) + " OFFSET " + IntToString(offset) else "")
  }

  /** The text of getAllCount: the same FROM and WHERE, no ordering, no limit. */
  function GetAllCountText(includeArchived: bool, tableName: string, rlsName: string,
                           country: Option<string>, query: Option<string>): string
  {
    "SELECT COUNT(*) FROM " + WhereText(tableName, rlsName, includeArchived, country, query)
  }

  /** The opening pieces up to the reader's placeholder $1. */
  function OpeningPieces(head: string, tableName: string, rlsName: string): seq<Piece> {
    [Sql(head + ReaderPrefix(tableName, rlsName)), Placeholder(1)]
  }

  /** The country clause at placeholder `index`. */
  function CountryPieces(index: int): seq<Piece> {
    [Sql(" AND t.country = "), Placeholder(index)]
  }

  /** The search clause at placeholders `index` and `index + 1`. */
  function SearchPieces(index: int): seq<Piece> {
    [Sql(" AND (t.search_name LIKE "), Placeholder(index),
     Sql(" OR LOWER(t.description) LIKE "), Placeholder(index + 1), Sql(")")]
  }

  lemma OpeningSpec(head: string, tableName: string, rlsName: string)
    ensures Render(OpeningPieces(head, tableName, rlsName)) == head + ReaderText(tableName, rlsName)
    ensures Placeholders(OpeningPieces(head, tableName, rlsName)) == [1]
  {
    var x := ReaderPrefix(tableName, rlsName);
    Pair(Sql(head + x), Placeholder(1));
    SmallNumbers();
    assert Param(1) == "$1";
    AppendAssoc(head, x, "$1");
  }

  lemma CountrySpec(index: int)
    ensures Render(CountryPieces(index)) == CountryClause(index)
    ensures Placeholders(CountryPieces(index)) == [index]
  {
    Pair(Sql(" AND t.country = "), Placeholder(index));
  }

  lemma SearchSpec(index: int)
    ensures Render(SearchPieces(index)) == SearchClause(index)
    ensures Placeholders(SearchPieces(index)) == [index, index + 1]
  {
    var a := Sql(" AND (t.search_name LIKE ");
    var b := Sql(" OR LOWER(t.description) LIKE ");
    var sp := SearchPieces(index);
    var s1, s2, s3 := sp[1..], sp[2..], sp[3..];
    assert s3 == [Placeholder(index + 1), Sql(")")] && s1[1..] == s2 && s2[1..] == s3;
    Pair(Placeholder(index + 1), Sql(")"));
    assert Render(s2) == PieceText(b) + Render(s3);
    assert Render(s1) == Param(index) + Render(s2);
    assert Render(sp) == PieceText(a) + Render(s1);
    assert Placeholders(s3) == [index + 1] by {
      assert s3[1..][1..] == [];
    }
    assert Placeholders(s1) == [index] + Placeholders(s3);
  }

  /** The archived condition, appended unless archived rows are wanted. */
  method AppendArchived(pieces: seq<Piece>, includeArchived: bool) returns (r: seq<Piece>)
    ensures Render(r) == Render(pieces) + ArchivedText(includeArchived)
    ensures Placeholders(r) == Placeholders(pieces)
  {
    r := pieces;
    if !includeArchived {
      AppendPieces(pieces, [Sql(" AND t.archived = 0")]);
      assert [Sql(" AND t.archived = 0")][1..] == [];
      r := pieces + [Sql(" AND t.archived = 0")];
    } else {
      assert pieces + [] == pieces;
    }
  }

  /** The country condition at the running placeholder number, which then
      moves on by one. */
  method AppendCountry(pieces: seq<Piece>, paramIndex: int, country: Option<string>)
    returns (r: seq<Piece>, next: int)
    ensures Render(r) == Render(pieces) + (if Given(country) then CountryClause(paramIndex) else "")
    ensures Placeholders(r) == Placeholders(pieces) + (if Given(country) then [paramIndex] else [])
    ensures next == paramIndex + (if Given(country) then 1 else 0)
  {
    r, next := pieces, paramIndex;
    assert pieces + [] == pieces;
    if Given(country) {
      CountrySpec(paramIndex);
      AppendPieces(pieces, CountryPieces(paramIndex));
      r := pieces + CountryPieces(paramIndex);
      next := paramIndex + 1;
    }
  }

  /** The search condition at the running placeholder number and the next,
      which then moves on by two. */
  method AppendSearch(pieces: seq<Piece>, paramIndex: int, query: Option<string>)
    returns (r: seq<Piece>, next: int)
    ensures Render(r) == Render(pieces) + (if Given(query) then SearchClause(paramIndex) else "")
    ensures Placeholders(r) == Placeholders(pieces) + (if Given(query) then [paramIndex, paramIndex + 1] else [])
    ensures next == paramIndex + (if Given(query) then 2 else 0)
  {
    r, next := pieces, paramIndex;
    assert pieces + [] == pieces;
    if Given(query) {
      SearchSpec(paramIndex);
      AppendPieces(pieces, SearchPieces(paramIndex));
      r := pieces + SearchPieces(paramIndex);
      next := paramIndex + 2;
    }
  }

  /** The tuple grown in the order of the placeholders. */
  method BuildParams(userId: int, country: Option<string>, query: Option<string>) returns (params: seq<SqlParam>)
    ensures params == BrandParams(userId, country, query)
  {
    params := [LongParam(userId)];
    if Given(country) {
      params := params + [StringParam(Upper(country.value))];
    }
    if Given(query) {
      var q := "%" + Lower(query.value) + "%";
      params := params + [StringParam(q)];
      params := params + [StringParam(q)];
    }
  }

  /** The shared FROM/WHERE text, grown clause by clause with a running
      placeholder number that starts at 2 after the reader's $1; `count` is
      the number of placeholders written. */
  method WherePieces(head: string, tableName: string, rlsName: string, includeArchived: bool,
                     country: Option<string>, query: Option<string>)
    returns (pieces: seq<Piece>, count: nat)
    ensures Placeholders(pieces) == Numbers(count)
    ensures count == 1 + (if Given(country) then 1 else 0) + (if Given(query) then 2 else 0)
    ensures Render(pieces) == head + WhereText(tableName, rlsName, includeArchived, country, query)
  {
    OpeningSpec(head, tableName, rlsName);
    pieces := OpeningPieces(head, tableName, rlsName);
    var paramIndex := 2;
    pieces := AppendArchived(pieces, includeArchived);
    pieces, paramIndex := AppendCountry(pieces, paramIndex, country);
    NumbersStep(1);
    assert Placeholders(pieces) == Numbers(paramIndex - 1);
    assert Render(pieces) == head + ReaderText(tableName, rlsName) + ArchivedText(includeArchived) + CountryText(country);
    assert paramIndex == if Given(country) then 3 else 2;
    NumbersStep(paramIndex - 1);
    pieces, paramIndex := AppendSearch(pieces, paramIndex, query);
    assert Placeholders(pieces) == Numbers(paramIndex - 1);
    WhereAssoc(head, ReaderText(tableName, rlsName), ArchivedText(includeArchived), CountryText(country),
               SearchText(country, query));
    count := paramIndex - 1;
  }

  /** The statement's FROM/WHERE part and its tuple: placeholder i is bound
      to the i-th parameter. */
  method AppendWhere(head: string, tableName: string, rlsName: string, includeArchived: bool,
                     userId: int, country: Option<string>, query: Option<string>)
    returns (pieces: seq<Piece>, params: seq<SqlParam>)
    ensures Placeholders(pieces) == Numbers(|params|)
    ensures params == BrandParams(userId, country, query)
    ensures Render(pieces) == head + WhereText(tableName, rlsName, includeArchived, country, query)
  {
    var count;
    pieces, count := WherePieces(head, tableName, rlsName, includeArchived, country, query);
    params := BuildParams(userId, country, query);
  }

  lemma WhereAssoc(head: string, reader: string, archived: string, country: string, search: string)
    ensures head + reader + archived + country + search == head + (reader + archived + country + search)
  {
  }

  /** The ordering and, when limit > 0, the page. */
  function TailPieces(limit: int, offset: int): seq<Piece> {
    [Sql(" ORDER BY t.last_mod_date DESC")]
    + (if limit > 0 then [Sql(" LIMIT " + IntToString(limit) + " OFFSET " + IntToString(offset))] else [])
  }

  lemma TailSpec(limit: int, offset: int)
    ensures Render(TailPieces(limit, offset)) == PageText(limit, offset)
    ensures Placeholders(TailPieces(limit, offset)) == []
  {
    var order := Sql(" ORDER BY t.last_mod_date DESC");
    var page := Sql(" LIMIT " + IntToString(limit) + " OFFSET " + IntToString(offset));
    if limit > 0 {
      Pair(order, page);
    } else {
      assert [order][1..] == [];
    }
  }

  /** getAll: the listing statement and its tuple. Every placeholder $i the
      text mentions is bound, in order, to the i-th parameter. */
  method GetAll(limit: int, offset: int, includeArchived: bool, userId: int, country: Option<string>,
                query: Option<string>, tableName: string, rlsName: string)
    returns (pieces: seq<Piece>, params: seq<SqlParam>)
    ensures Render(pieces) == GetAllText(limit, offset, includeArchived, tableName, rlsName, country, query)
    ensures Placeholders(pieces) == Numbers(|params|)
    ensures params == BrandParams(userId, country, query)
  {
    pieces, params := AppendWhere("SELECT * FROM ", tableName, rlsName, includeArchived, userId, country, query);
    var tail := TailPieces(limit, offset);
    TailSpec(limit, offset);
    AppendPieces(pieces, tail);
    assert Placeholders(pieces) + [] == Placeholders(pieces);
    pieces := pieces + tail;
  }

  /** getAllCount: the counting statement over the same rows and its tuple. */
  method GetAllCount(userId: int, includeArchived: bool, country: Option<string>, query: Option<string>,
                     tableName: string, rlsName: string)
    returns (pieces: seq<Piece>, params: seq<SqlParam>)
    ensures Render(pieces) == GetAllCountText(includeArchived, tableName, rlsName, country, query)
    ensures Placeholders(pieces) == Numbers(|params|)
    ensures params == BrandParams(userId, country, query)
  {
    pieces, params := AppendWhere("SELECT COUNT(*) FROM ", tableName, rlsName, includeArchived, userId, country, query);
  }

  /** The tuple holds the reader first, the upper-cased country when one is
      given, and the lower-cased pattern for each of the two search
      placeholders when a query is given; a blank country or query adds
      neither a condition nor a parameter. */
  lemma BrandParamsSpec(userId: int, country: Option<string>, query: Option<string>)
    ensures var ps := BrandParams(userId, country, query);
      && |ps| == 1 + (if Given(country) then 1 else 0) + (if Given(query) then 2 else 0)
      && ps[0] == LongParam(userId)
      && (Given(country) ==> ps[1] == StringParam(Upper(country.value)))
      && (Given(query) ==> ps[|ps| - 2] == ps[|ps| - 1] == StringParam("%" + Lower(query.value) + "%"))
    ensures !Given(country) ==> CountryText(country) == "" && BrandParams(userId, country, query) == BrandParams(userId, None, query)
    ensures !Given(query) ==> SearchText(country, query) == "" && BrandParams(userId, country, query) == BrandParams(userId, country, None)
  {
  }

  /** The placeholders of a search follow the country's when there is one:
      $2 and $3 without a country, $3 and $4 with one. */
  lemma PlaceholderOrder(country: Option<string>, query: Option<string>)
    ensures Given(query) && !Given(country) ==> SearchText(country, query) == SearchClause(2)
    ensures Given(query) && Given(country) ==> SearchText(country, query) == SearchClause(3)
    ensures Given(country) ==> CountryText(country) == " AND t.country = " + "$2"
  {
    SmallNumbers();
  }

  /** The bit rate read from a brand row's JSON array: the first element
      parsed as a long when the array is present and non-empty (None when
      that parse throws), the 128000 default otherwise. */
  function BitRate(bitRateJson: Option<seq<string>>): (r: Option<int>)
    ensures bitRateJson.None? || bitRateJson.value == [] ==> r == Some(DEFAULT_BIT_RATE)
    ensures r.Some? ==> LONG_MIN <= r.value <= LONG_MAX
  {
    if bitRateJson.Some? && bitRateJson.value != [] then ParseLong(bitRateJson.value[0])
    else Some(DEFAULT_BIT_RATE)
  }

  const DEFAULT_BIT_RATE: int := 128000

  /** A stored rate written out in decimal reads back as itself; other
      elements of the array are never read. */
  lemma BitRateRoundTrip(rate: nat, rest: seq<string>)
    requires rate <= LONG_MAX
    ensures BitRate(Some([NatToString(rate)] + rest)) == Some(rate)
  {
    ParseLongOfNatToString(rate);
  }
}
