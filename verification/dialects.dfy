/**
 * The SQL dialect strategy: the capability set of ISqlDialect and its four
 * implementations, one constructor per implementing class. A dialect has no
 * state; each member is a pure formatting function.
 */
module Dialects {
  import opened Wrappers
  import opened Text
  import opened Decimal
  import opened Exceptions

  datatype Dialect = SqlServerDialect | PgSqlDialect | MySqlDialect | SqliteDialect {

    /** The dialect's name, which the registry's lookup by name inverts. */
    function Name(): (r: string)
      ensures NamedDialect(r) == Some(this)
    {
      match this
      case SqlServerDialect => "SQLServer"
      case PgSqlDialect => "PostgreSQL"
      case MySqlDialect => "MySQL"
      case SqliteDialect => "SQLite"
    }

    /** Every dialect names its parameters with "@". */
    function ParameterPrefix(): (r: string)
      ensures r == "@"
    {
      "@"
    }

    /** The pagination fragment appended after ORDER BY; it always starts with a space. */
    function FormatLimitOffset(skip: Int32, take: Int32): (r: string)
      ensures |r| > 0 && r[0] == ' '
    {
      match this
      case SqlServerDialect =>
        " OFFSET " + IntToString(skip) + " ROWS FETCH NEXT " + IntToString(take) + " ROWS ONLY"
      case PgSqlDialect => " LIMIT " + IntToString(take) + " OFFSET " + IntToString(skip)
      case MySqlDialect => " LIMIT " + IntToString(skip) + ", " + IntToString(take)
      case SqliteDialect => " LIMIT " + IntToString(take) + " OFFSET " + IntToString(skip)
    }

    /** The inner query, unchanged, between the dialect's opening and closing text. */
    function FormatExistsWrapper(innerQuery: string): (r: string)
      ensures r == ExistsOpening(this) + innerQuery + ExistsClosing(this)
    {
      match this
      case SqlServerDialect => "SELECT CASE WHEN EXISTS (" + innerQuery + ") THEN 1 ELSE 0 END"
      case PgSqlDialect => "SELECT CASE WHEN EXISTS (" + innerQuery + ") THEN 1 ELSE 0 END"
      case MySqlDialect => "SELECT EXISTS (" + innerQuery + ")"
      case SqliteDialect => "SELECT EXISTS (" + innerQuery + ")"
    }

    /** A keyword pair for PostgreSQL, a numeric pair elsewhere; true is TRUE or 1. */
    function FormatBoolean(value: bool): (r: string)
      ensures value <==> r in {"TRUE", "1"}
      ensures PgSqlDialect? <==> r in {"TRUE", "FALSE"}
      ensures r in {"TRUE", "FALSE", "1", "0"}
    {
      match this
      case SqlServerDialect => if value then "1" else "0"
      case PgSqlDialect => if value then "TRUE" else "FALSE"
      case MySqlDialect => if value then "1" else "0"
      case SqliteDialect => if value then "1" else "0"
    }

    /**
     * SQL Server keeps the interface's default, which returns the name as it
     * is and checks nothing; the other three reject a blank name and wrap the
     * name in their quote character, doubling every quote inside it.
     */
    function QuoteIdentifier(name: string): (r: Result<string, Error>)
      ensures r.Failure? <==> !SqlServerDialect? && IsNullOrWhiteSpace(name)
      ensures r.Failure? ==> r.error == Argument("name")
    {
      match this
      case SqlServerDialect => Success(name)
      case PgSqlDialect =>
        if IsNullOrWhiteSpace(name) then Failure(Argument("name"))
        else Success("\"" + Escape(name, '"') + "\"")
      case MySqlDialect =>
        if IsNullOrWhiteSpace(name) then Failure(Argument("name"))
        else Success("`" + Escape(name, '`') + "`")
      case SqliteDialect =>
        if IsNullOrWhiteSpace(name) then Failure(Argument("name"))
        else Success("\"" + Escape(name, '"') + "\"")
    }
  }

  // ---- Reference definitions that invert the formatting functions ----

  /** The dialect of a given name, if any. */
  function NamedDialect(name: string): Option<Dialect> {
    if name == "SQLServer" then Some(SqlServerDialect)
    else if name == "PostgreSQL" then Some(PgSqlDialect)
    else if name == "MySQL" then Some(MySqlDialect)
    else if name == "SQLite" then Some(SqliteDialect)
    else None
  }

  /** The character a quoting dialect wraps identifiers in. */
  function QuoteChar(d: Dialect): char {
    if d.MySqlDialect? then '`' else '"'
  }

  /** Takes a quoted identifier apart: drops the outer quotes and collapses doubled quotes. */
  function UnquoteIdentifier(d: Dialect, quoted: string): Option<string> {
    if d.SqlServerDialect? then Some(quoted)
    else if |quoted| >= 2 && quoted[0] == QuoteChar(d) && quoted[|quoted| - 1] == QuoteChar(d)
    then Some(Unescape(quoted[1..|quoted| - 1], QuoteChar(d)))
    else None
  }

  /** The text the EXISTS wrapper puts before and after the inner query. */
  function ExistsOpening(d: Dialect): string {
    if d.SqlServerDialect? || d.PgSqlDialect? then "SELECT CASE WHEN EXISTS (" else "SELECT EXISTS ("
  }

  function ExistsClosing(d: Dialect): string {
    if d.SqlServerDialect? || d.PgSqlDialect? then ") THEN 1 ELSE 0 END" else ")"
  }

  /** Recovers the inner query from an EXISTS query. */
  function UnwrapExists(d: Dialect, sql: string): Option<string> {
    var o, c := ExistsOpening(d), ExistsClosing(d);
    if |o| + |c| <= |sql| && sql[..|o|] == o && sql[|sql| - |c|..] == c
    then Some(sql[|o|..|sql| - |c|])
    else None
  }

  /** Recovers (skip, take) from a pagination fragment. */
  function ReadLimitOffset(d: Dialect, fragment: string): Option<(int, int)> {
    match d
    case SqlServerDialect => ReadFilled(" OFFSET ", " ROWS FETCH NEXT ", " ROWS ONLY", fragment)
    case MySqlDialect => ReadFilled(" LIMIT ", ", ", "", fragment)
    case PgSqlDialect => Swap(ReadFilled(" LIMIT ", " OFFSET ", "", fragment))
    case SqliteDialect => Swap(ReadFilled(" LIMIT ", " OFFSET ", "", fragment))
  }

  /** string.Replace(q, qq): every occurrence of q doubled. */
  function Escape(s: string, q: char): string {
    if s == [] then [] else (if s[0] == q then [q, q] else [s[0]]) + Escape(s[1..], q)
  }

  /** Collapses each doubled q back to one q. */
  function Unescape(t: string, q: char): string {
    if t == [] then []
    else if |t| >= 2 && t[0] == q && t[1] == q then [q] + Unescape(t[2..], q)
    else [t[0]] + Unescape(t[1..], q)
  }

  /** t is a possible result of Escape: every q in it is one of a doubled pair. */
  predicate WellEscaped(t: string, q: char) {
    if t == [] then true
    else if t[0] == q then |t| >= 2 && t[1] == q && WellEscaped(t[2..], q)
    else WellEscaped(t[1..], q)
  }

  function Occurrences(s: string, c: char): nat {
    if s == [] then 0 else (if s[0] == c then 1 else 0) + Occurrences(s[1..], c)
  }

  function Swap(p: Option<(int, int)>): Option<(int, int)> {
    match p
    case None => None
    case Some((x, y)) => Some((y, x))
  }

  function StripPrefix(s: string, p: string): Option<string> {
    if |p| <= |s| && s[..|p|] == p then Some(s[|p|..]) else None
  }

  /** Reads a fragment of the shape pre + a + mid + b + post, where a and b are integers. */
  function ReadFilled(pre: string, mid: string, post: string, fragment: string): Option<(int, int)> {
    match StripPrefix(fragment, pre)
    case None => None
    case Some(r1) =>
      match ReadInt(r1)
      case None => None
      case Some((a, r2)) =>
        match StripPrefix(r2, mid)
        case None => None
        case Some(r3) =>
          match ReadInt(r3)
          case None => None
          case Some((b, r4)) => if r4 == post then Some((a, b)) else None
  }

  // ---- Identifier quoting ----

  /** Escaping doubles exactly the quote characters. */
  lemma {:induction false} EscapeLength(s: string, q: char)
    ensures |Escape(s, q)| == |s| + Occurrences(s, q)
  {
    if s != [] {
      EscapeLength(s[1..], q);
    }
  }

  /** Collapsing doubled quotes undoes escaping. */
  lemma {:induction false} UnescapeEscape(s: string, q: char)
    ensures WellEscaped(Escape(s, q), q)
    ensures Unescape(Escape(s, q), q) == s
  {
    if s != [] {
      UnescapeEscape(s[1..], q);
      var rest := Escape(s[1..], q);
      if s[0] == q {
        assert Escape(s, q) == [q, q] + rest;
        assert ([q, q] + rest)[2..] == rest;
      } else {
        assert Escape(s, q) == [s[0]] + rest;
        assert ([s[0]] + rest)[1..] == rest;
      }
    }
  }

  /** Escaping undoes collapsing, on every string escaping can produce. */
  lemma {:induction false} EscapeUnescape(t: string, q: char)
    requires WellEscaped(t, q)
    ensures Escape(Unescape(t, q), q) == t
  {
    if t != [] {
      if t[0] == q {
        EscapeUnescape(t[2..], q);
        assert [q] + Unescape(t[2..], q) == Unescape(t, q);
        assert t == [q, q] + t[2..];
      } else {
        EscapeUnescape(t[1..], q);
        assert t == [t[0]] + t[1..];
      }
    }
  }

  /** Quoting an identifier and taking the result apart again gives the identifier. */
  lemma QuoteRoundTrip(d: Dialect, name: string)
    requires d.QuoteIdentifier(name).Success?
    ensures UnquoteIdentifier(d, d.QuoteIdentifier(name).value) == Some(name)
  {
    if !d.SqlServerDialect? {
      var q := QuoteChar(d);
      var e := Escape(name, q);
      UnescapeEscape(name, q);
      var t := [q] + e + [q];
      assert d.QuoteIdentifier(name).value == t;
      assert t[1..|t| - 1] == e;
    }
  }

  /** Two names that quote successfully to the same text are the same name. */
  lemma QuoteInjective(d: Dialect, a: string, b: string)
    requires d.QuoteIdentifier(a).Success? && d.QuoteIdentifier(b).Success?
    requires d.QuoteIdentifier(a).value == d.QuoteIdentifier(b).value
    ensures a == b
  {
    QuoteRoundTrip(d, a);
    QuoteRoundTrip(d, b);
  }

  /** The quoted length counts the two outer quotes and one extra per inner quote. */
  lemma QuotedLength(d: Dialect, name: string)
    requires !d.SqlServerDialect? && !IsNullOrWhiteSpace(name)
    ensures d.QuoteIdentifier(name).Success?
    ensures |d.QuoteIdentifier(name).value| == |name| + 2 + Occurrences(name, QuoteChar(d))
  {
    EscapeLength(name, QuoteChar(d));
  }

  // ---- Pagination ----

  lemma ReadFilledOf(pre: string, mid: string, post: string, a: int, b: int)
    requires |mid| > 0 && !IsNumeralChar(mid[0])
    requires post == [] || !IsNumeralChar(post[0])
    ensures ReadFilled(pre, mid, post, pre + IntToString(a) + mid + IntToString(b) + post) == Some((a, b))
  {
    var sa, sb := IntToString(a), IntToString(b);
    var r3 := sb + post;
    var r2 := mid + r3;
    var r1 := sa + r2;
    var fragment := pre + r1;
    assert pre + sa + mid + sb + post == fragment;
    assert StripPrefix(fragment, pre) == Some(r1) by {
      assert fragment[..|pre|] == pre && fragment[|pre|..] == r1;
    }
    assert r2[0] == mid[0];
    ReadIntOf(a, r2);
    assert StripPrefix(r2, mid) == Some(r3) by {
      assert r2[..|mid|] == mid && r2[|mid|..] == r3;
    }
    ReadIntOf(b, post);
  }

  /** The pagination fragment determines skip and take, in each dialect's own order. */
  lemma LimitOffsetRoundTrip(d: Dialect, skip: Int32, take: Int32)
    ensures ReadLimitOffset(d, d.FormatLimitOffset(skip, take)) == Some((skip as int, take as int))
  {
    var s, t := IntToString(skip), IntToString(take);
    match d
    case SqlServerDialect =>
      ReadFilledOf(" OFFSET ", " ROWS FETCH NEXT ", " ROWS ONLY", skip, take);
    case MySqlDialect =>
      ReadFilledOf(" LIMIT ", ", ", "", skip, take);
      assert " LIMIT " + s + ", " + t + "" == d.FormatLimitOffset(skip, take);
    case PgSqlDialect =>
      ReadFilledOf(" LIMIT ", " OFFSET ", "", take, skip);
      assert " LIMIT " + t + " OFFSET " + s + "" == d.FormatLimitOffset(skip, take);
    case SqliteDialect =>
      ReadFilledOf(" LIMIT ", " OFFSET ", "", take, skip);
      assert " LIMIT " + t + " OFFSET " + s + "" == d.FormatLimitOffset(skip, take);
  }

  /** Different (skip, take) pairs give different pagination fragments. */
  lemma LimitOffsetInjective(d: Dialect, s1: Int32, t1: Int32, s2: Int32, t2: Int32)
    requires d.FormatLimitOffset(s1, t1) == d.FormatLimitOffset(s2, t2)
    ensures s1 == s2 && t1 == t2
  {
    LimitOffsetRoundTrip(d, s1, t1);
    LimitOffsetRoundTrip(d, s2, t2);
  }

  // ---- EXISTS wrapper and boolean literals ----

  /** The inner query can be read back out of the EXISTS wrapper. */
  lemma ExistsRoundTrip(d: Dialect, innerQuery: string)
    ensures UnwrapExists(d, d.FormatExistsWrapper(innerQuery)) == Some(innerQuery)
  {
  }

  /** PostgreSQL's wrapper is SQL Server's, THEN 1 ELSE 0 END, not a TRUE/FALSE form. */
  lemma PgExistsWrapperIsNumeric(innerQuery: string)
    ensures PgSqlDialect.FormatExistsWrapper(innerQuery) == SqlServerDialect.FormatExistsWrapper(innerQuery)
    ensures PgSqlDialect.FormatExistsWrapper(innerQuery)
         != "SELECT CASE WHEN EXISTS (" + innerQuery + ") THEN TRUE ELSE FALSE END"
  {
  }

  /** Each dialect renders true and false as two different literals. */
  lemma BooleanLiteralsDistinct(d: Dialect)
    ensures d.FormatBoolean(true) != d.FormatBoolean(false)
    ensures d.PgSqlDialect? <==> d.FormatBoolean(true) == "TRUE"
  {
  }

  /** SQL Server quotes nothing: any name, blank or not, comes back as it is. */
  lemma SqlServerQuoteIsIdentity(name: string)
    ensures SqlServerDialect.QuoteIdentifier(name) == Success(name)
  {
  }
}
