/**
 * The evaluator: turns a specification and a dialect into SQL text and the
 * specification's parameter bag, in normal, count or exists mode.
 */
module SpecificationEvaluator {
  import opened Wrappers
  import opened Text
  import opened Exceptions
  import opened Parameters
  import opened Dialects
  import opened Specifications
  import opened Decimal
  import opened Clauses

  datatype Compiled = Compiled(sql: string, params: seq<Binding>)

  datatype Mode = Normal | Count | Exists

  /** Count takes precedence over exists. */
  function ModeOf(isCount: bool, isExists: bool): Mode {
    if isCount then Count else if isExists then Exists else Normal
  }

  /** An optional fragment: the keyword and the value, or nothing when the value is blank. */
  function Piece(keyword: string, value: string): string {
    if IsNullOrWhiteSpace(value) then "" else keyword + value
  }

  /** The projection: a blank select clause means every column. */
  function Projection(s: SpecState): string {
    if IsNullOrWhiteSpace(s.selectClause) then "*" else s.selectClause
  }

  /** JOIN and WHERE, the part every mode keeps. The join gets its own leading space. */
  function Filter(s: SpecState): string {
    Piece(" ", s.joinClause) + Piece(" WHERE ", s.whereClause)
  }

  /** The pagination fragment, present only when both bounds are. */
  function Paging(s: SpecState, d: Dialect): string {
    if s.skip.Some? && s.take.Some? then d.FormatLimitOffset(s.skip.value, s.take.value) else ""
  }

  /** Count mode: COUNT(*) over the table, then the optional join and WHERE only. */
  function CountSql(s: SpecState): (r: string)
    ensures "SELECT " <= "SELECT COUNT(*) FROM " + s.tableName <= r
  {
    "SELECT COUNT(*) FROM " + s.tableName + Filter(s)
  }

  /** Exists mode: the dialect's wrapper around SELECT 1, the table, the optional join and WHERE. */
  function ExistsSql(s: SpecState, d: Dialect): (r: string)
    ensures UnwrapExists(d, r) == Some("SELECT 1 FROM " + s.tableName + Filter(s))
    ensures "SELECT " <= r
  {
    var inner := "SELECT 1 FROM " + s.tableName + Filter(s);
    ExistsRoundTrip(d, inner);
    d.FormatExistsWrapper(inner)
  }

  /** Normal mode without pagination: every other fragment, in the fixed clause order. */
  function Unpaged(s: SpecState): (r: string)
    ensures "SELECT " <= r
  {
    "SELECT " + Projection(s) + " FROM " + s.tableName + Filter(s)
    + Piece(" GROUP BY ", s.groupBy) + Piece(" HAVING ", s.having)
    + Piece(" ORDER BY ", s.orderBy)
  }

  /** Normal mode: pagination last. */
  function NormalSql(s: SpecState, d: Dialect): (r: string)
    ensures "SELECT " <= Unpaged(s) <= r
    ensures r == Unpaged(s) <==> s.skip.None? || s.take.None?
  {
    Unpaged(s) + Paging(s, d)
  }

  /** The SQL of the given mode; every mode produces a SELECT statement. */
  function Compile(s: SpecState, d: Dialect, mode: Mode): (r: string)
    ensures "SELECT " <= r
  {
    match mode
    case Normal => NormalSql(s, d)
    case Count => CountSql(s)
    case Exists => ExistsSql(s, d)
  }

  /** Build as a function: the argument checks in order, then the SQL and the spec's own bag. */
  function Evaluate(spec: Option<SpecState>, dialect: Option<Dialect>, isCount: bool, isExists: bool)
    : (r: Result<Compiled, Error>)
    ensures r.Success? <==> spec.Some? && dialect.Some? && !IsNullOrWhiteSpace(spec.value.tableName)
    ensures spec.None? ==> r == Failure(ArgumentNull("spec"))
    ensures spec.Some? && dialect.None? ==> r == Failure(ArgumentNull("dialect"))
    ensures spec.Some? && dialect.Some? && IsNullOrWhiteSpace(spec.value.tableName) ==>
      r == Failure(Argument("TableName"))
    ensures r.Success? ==> r.value.params == spec.value.parameters
  {
    if spec.None? then Failure(ArgumentNull("spec"))
    else if dialect.None? then Failure(ArgumentNull("dialect"))
    else if IsNullOrWhiteSpace(spec.value.tableName) then Failure(Argument("TableName"))
    else Success(Compiled(Compile(spec.value, dialect.value, ModeOf(isCount, isExists)),
                          spec.value.parameters))
  }

  /** Checks spec, dialect and table name in that order, then assembles the SQL; it never writes to the spec. */
  method Build(spec: Specification?, dialect: Option<Dialect>, isCount: bool, isExists: bool)
    returns (r: Result<Compiled, Error>)
    ensures r == Evaluate(if spec == null then None else Some(spec.State()), dialect, isCount, isExists)
  {
    if spec == null {
      return Failure(ArgumentNull("spec"));
    }
    if dialect.None? {
      return Failure(ArgumentNull("dialect"));
    }
    if IsNullOrWhiteSpace(spec.tableName) {
      return Failure(Argument("TableName"));
    }
    var st := spec.State();
    var sql := Assemble(st, dialect.value, isCount, isExists);
    return Success(Compiled(sql, st.parameters));
  }

  /** Appends the fragments to a buffer, one guarded step at a time, as Build does after its checks. */
  method Assemble(st: SpecState, d: Dialect, isCount: bool, isExists: bool) returns (sb: string)
    ensures sb == Compile(st, d, ModeOf(isCount, isExists))
  {
    if isCount {
      sb := "SELECT COUNT(*) FROM " + st.tableName;
    } else if isExists {
      var inner := "SELECT 1 FROM " + st.tableName;
      inner := AppendFilter(inner, st);
      sb := d.FormatExistsWrapper(inner);
      return;
    } else {
      var selectClause := if IsNullOrWhiteSpace(st.selectClause) then "*" else st.selectClause;
      sb := "SELECT " + selectClause;
      sb := sb + " FROM " + st.tableName;
    }
    sb := AppendFilter(sb, st);
    sb := AppendShaping(sb, st, d, !isCount && !isExists);
  }

  /**
   * GROUP BY, HAVING, ORDER BY and pagination, each appended only when the
   * query is neither a count nor an exists query.
   */
  method AppendShaping(sb: string, st: SpecState, d: Dialect, shaping: bool) returns (r: string)
    ensures shaping ==> r == sb + Piece(" GROUP BY ", st.groupBy) + Piece(" HAVING ", st.having)
                              + Piece(" ORDER BY ", st.orderBy) + Paging(st, d)
    ensures !shaping ==> r == sb
  {
    r := sb;
    if shaping && !IsNullOrWhiteSpace(st.groupBy) {
      ConcatAssoc(r, " GROUP BY ", st.groupBy);
      r := r + " GROUP BY " + st.groupBy;
    }
    ghost var s1 := r;
    assert shaping ==> s1 == sb + Piece(" GROUP BY ", st.groupBy);
    if shaping && !IsNullOrWhiteSpace(st.having) {
      ConcatAssoc(r, " HAVING ", st.having);
      r := r + " HAVING " + st.having;
    }
    ghost var s2 := r;
    assert shaping ==> s2 == s1 + Piece(" HAVING ", st.having);
    if shaping && !IsNullOrWhiteSpace(st.orderBy) {
      ConcatAssoc(r, " ORDER BY ", st.orderBy);
      r := r + " ORDER BY " + st.orderBy;
    }
    assert shaping ==> r == s2 + Piece(" ORDER BY ", st.orderBy);
    if shaping && st.skip.Some? && st.take.Some? {
      r := r + d.FormatLimitOffset(st.skip.value, st.take.value);
    }
  }

  /** The JOIN and WHERE appends every mode shares. */
  method AppendFilter(sb: string, st: SpecState) returns (r: string)
    ensures r == sb + Filter(st)
  {
    r := sb;
    if !IsNullOrWhiteSpace(st.joinClause) {
      ConcatAssoc(r, " ", st.joinClause);
      r := r + " " + st.joinClause;
    }
    if !IsNullOrWhiteSpace(st.whereClause) {
      ConcatAssoc(r, " WHERE ", st.whereClause);
      r := r + " WHERE " + st.whereClause;
    }
    ConcatAssoc(sb, Piece(" ", st.joinClause), Piece(" WHERE ", st.whereClause));
  }

  // ---- Properties of the assembled SQL ----

  /** An optional fragment is present exactly when its field is not blank. */
  lemma PiecePresence(keyword: string, value: string)
    requires keyword != ""
    ensures Piece(keyword, value) == "" <==> IsNullOrWhiteSpace(value)
    ensures !IsNullOrWhiteSpace(value) ==> Piece(keyword, value) == keyword + value
  {
  }

  /** Without GROUP BY, HAVING, ORDER BY and pagination, a normal query is its projection, table and filter. */
  lemma NormalSqlUnshaped(s: SpecState, d: Dialect)
    requires IsNullOrWhiteSpace(s.groupBy) && IsNullOrWhiteSpace(s.having) && IsNullOrWhiteSpace(s.orderBy)
    requires s.skip.None? || s.take.None?
    ensures NormalSql(s, d) == "SELECT " + Projection(s) + " FROM " + s.tableName + Filter(s)
  {
  }

  /** A specification with only its table set compiles to SELECT * FROM the table, with an empty bag. */
  lemma TableOnly(table: string, d: Dialect)
    requires !IsNullOrWhiteSpace(table)
    ensures Evaluate(Some(Initial().(tableName := table)), Some(d), false, false)
         == Success(Compiled("SELECT * FROM " + table, []))
  {
    var s := Initial().(tableName := table);
    NormalSqlUnshaped(s, d);
    assert Filter(s) == "" + "";
    assert "SELECT " + "*" + " FROM " == "SELECT * FROM ";
    assert NormalSql(s, d) == "SELECT * FROM " + table + "";
    assert "SELECT * FROM " + table + "" == "SELECT * FROM " + table;
    assert Compile(s, d, ModeOf(false, false)) == NormalSql(s, d);
  }

  /** Count takes precedence: with isCount set, isExists changes nothing. */
  lemma CountWins(spec: Option<SpecState>, dialect: Option<Dialect>, isExists: bool)
    ensures Evaluate(spec, dialect, true, isExists) == Evaluate(spec, dialect, true, false)
    ensures spec.Some? && dialect.Some? && !IsNullOrWhiteSpace(spec.value.tableName) ==>
      Evaluate(spec, dialect, true, isExists).value.sql == CountSql(spec.value)
  {
  }

  /**
   * A count query is the normal query with COUNT(*) as its projection and no
   * GROUP BY, HAVING, ORDER BY or pagination: those four fields never reach it.
   */
  lemma CountIsReducedQuery(s: SpecState, d: Dialect)
    ensures CountSql(s) == NormalSql(s.(selectClause := "COUNT(*)", groupBy := "", having := "",
                                        orderBy := "", skip := None), d)
  {
    var r := s.(selectClause := "COUNT(*)", groupBy := "", having := "", orderBy := "", skip := None);
    NormalSqlUnshaped(r, d);
    assert Projection(r) == "COUNT(*)";
    assert Filter(r) == Filter(s);
    assert "SELECT " + "COUNT(*)" + " FROM " == "SELECT COUNT(*) FROM ";
  }

  /**
   * An exists query wraps the normal query with 1 as its projection and no
   * GROUP BY, HAVING, ORDER BY or pagination, and the wrapper can be removed
   * again to recover that inner query.
   */
  lemma ExistsWrapsReducedQuery(s: SpecState, d: Dialect)
    ensures ExistsSql(s, d) == d.FormatExistsWrapper(
      NormalSql(s.(selectClause := "1", groupBy := "", having := "", orderBy := "", skip := None), d))
    ensures UnwrapExists(d, ExistsSql(s, d)) == Some("SELECT 1 FROM " + s.tableName + Filter(s))
  {
    var r := s.(selectClause := "1", groupBy := "", having := "", orderBy := "", skip := None);
    NormalSqlUnshaped(r, d);
    assert Projection(r) == "1";
    assert Filter(r) == Filter(s);
    assert "SELECT " + "1" + " FROM " == "SELECT 1 FROM ";
    ExistsRoundTrip(d, "SELECT 1 FROM " + s.tableName + Filter(s));
  }

  /**
   * Pagination comes last: with both bounds set, the normal query is the
   * unpaged query followed by the dialect's fragment, and that trailing
   * fragment reads back as the two bounds.
   */
  lemma PagingLast(s: SpecState, d: Dialect)
    requires s.skip.Some? && s.take.Some?
    ensures NormalSql(s.(skip := None), d) == Unpaged(s)
    ensures NormalSql(s, d) == Unpaged(s) + d.FormatLimitOffset(s.skip.value, s.take.value)
    ensures ReadLimitOffset(d, NormalSql(s, d)[|Unpaged(s)|..]) == Some((s.skip.value as int, s.take.value as int))
  {
    var u := s.(skip := None);
    var frag := d.FormatLimitOffset(s.skip.value, s.take.value);
    assert Filter(u) == Filter(s) && Projection(u) == Projection(s);
    assert Unpaged(u) == Unpaged(s);
    assert Unpaged(s) + "" == Unpaged(s);
    assert (Unpaged(s) + frag)[|Unpaged(s)|..] == frag;
    LimitOffsetRoundTrip(d, s.skip.value, s.take.value);
  }

  /** With only one of the two bounds set, no pagination fragment is emitted. */
  lemma PagingNeedsBoth(s: SpecState, d: Dialect)
    requires s.skip.None? || s.take.None?
    ensures NormalSql(s, d) == Unpaged(s)
  {
    assert Paging(s, d) == "";
    assert Unpaged(s) + "" == Unpaged(s);
  }

  /**
   * A WHERE built by non-blank AddWhere/AddWhereOr calls from an empty one
   * reaches the SQL as " WHERE " followed by the clauses in call order, each
   * after the first behind its own connective, with no parentheses.
   */
  lemma WhereFromConditions(s: SpecState, conds: seq<Condition>)
    requires |conds| > 0 && ClausesNotBlank(conds)
    requires s.whereClause == ConjoinAll("", conds)
    ensures Filter(s) == Piece(" ", s.joinClause) + " WHERE " + conds[0].clause + Chained(conds[1..])
  {
    var c0, rest := conds[0].clause, Chained(conds[1..]);
    var p := Piece(" ", s.joinClause);
    ConjoinAllFromEmpty(conds);
    assert !IsNullOrWhiteSpace(c0);
    NotBlankExtends(c0, rest);
    assert Piece(" WHERE ", s.whereClause) == " WHERE " + (c0 + rest);
    ConcatAssoc(p, " WHERE ", c0 + rest);
    ConcatAssoc(p + " WHERE ", c0, rest);
  }

  /**
   * A join list built by AddJoin calls already starts with a space, and the
   * evaluator adds another: every query shows two spaces before the first join.
   */
  lemma JoinsDoubleSpaced(s: SpecState, parts: seq<string>)
    requires |parts| > 0 && AllNotBlank(parts)
    requires s.joinClause == JoinAppendAll("", parts)
    ensures Piece(" ", s.joinClause) == "  " + parts[0] + Spaced(parts[1..])
  {
    var p0, rest := parts[0], Spaced(parts[1..]);
    JoinAppendAllSpaced("", parts);
    assert "" + Spaced(parts) == Spaced(parts);
    assert s.joinClause == " " + p0 + rest;
    assert !IsNullOrWhiteSpace(p0);
    NotBlankPrefixed(" ", p0);
    NotBlankExtends(" " + p0, rest);
    assert Piece(" ", s.joinClause) == " " + (" " + p0 + rest);
    ConcatAssoc(" ", " " + p0, rest);
    ConcatAssoc(" ", " ", p0);
    assert " " + " " == "  ";
  }

  /** The SQL Server pagination fragment for skip 10 and take 20. */
  lemma SqlServerPagingExample()
    ensures SqlServerDialect.FormatLimitOffset(10, 20) == " OFFSET 10 ROWS FETCH NEXT 20 ROWS ONLY"
  {
  }

  /** The LIMIT forms for skip 10 and take 20: take first for PostgreSQL and SQLite, skip first for MySQL. */
  lemma LimitPagingExamples()
    ensures PgSqlDialect.FormatLimitOffset(10, 20) == " LIMIT 20 OFFSET 10"
    ensures SqliteDialect.FormatLimitOffset(10, 20) == " LIMIT 20 OFFSET 10"
    ensures MySqlDialect.FormatLimitOffset(10, 20) == " LIMIT 10, 20"
  {
    assert IntToString(10) == "10";
    assert IntToString(20) == "20";
  }
}
