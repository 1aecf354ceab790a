/**
 * The registry of the four named dialects. Each accessor is a read-only
 * property initialised once; as dialects are values here, every read of an
 * accessor yields the same dialect.
 */
module SqlDialect {
  import opened Dialects

  function SqlServer(): (d: Dialect)
    ensures d.SqlServerDialect? && d.Name() == "SQLServer"
  {
    SqlServerDialect
  }

  function PostgreSql(): (d: Dialect)
    ensures d.PgSqlDialect? && d.Name() == "PostgreSQL"
  {
    PgSqlDialect
  }

  function MySql(): (d: Dialect)
    ensures d.MySqlDialect? && d.Name() == "MySQL"
  {
    MySqlDialect
  }

  function Sqlite(): (d: Dialect)
    ensures d.SqliteDialect? && d.Name() == "SQLite"
  {
    SqliteDialect
  }

  /** The four registered dialects are told apart by their names, and all use "@" for parameters. */
  lemma RegisteredDialects(d: Dialect)
    ensures d == SqlServer() || d == PostgreSql() || d == MySql() || d == Sqlite()
    ensures d.ParameterPrefix() == "@"
    ensures forall e: Dialect :: e.Name() == d.Name() ==> e == d
  {
  }
}
