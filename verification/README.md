# Dapper.Specifications — SQL assembly, modelled in Dafny

Dapper.Specifications lets a caller describe a query as a *specification*.
A specification is a mutable record of clause strings: table, projection,
joins, WHERE, GROUP BY, HAVING, ORDER BY. It also holds optional skip/take
bounds and a parameter bag.

`SpecificationEvaluator.Build` turns a specification and an `ISqlDialect`
into SQL text plus that parameter bag. It works in one of three modes:
normal, count or exists.

This project models the parts that produce the SQL text, and proves
properties of that model:

- the specification builder, both the current one and the older legacy one;
- the evaluator's assembly;
- the four dialects;
- the dialect registry.

| file | module | what it models |
|---|---|---|
| `wrappers.dfy` | `Wrappers` | `Option` and `Result` |
| `exceptions.dfy` | `Exceptions` | the .NET exceptions the core throws, as values |
| `text.dfy` | `Text` | `char.IsWhiteSpace`, `string.IsNullOrWhiteSpace`, `string.IsNullOrEmpty` |
| `decimal.dfy` | `Decimal` | C# `int`; its decimal text as string interpolation writes it; a reader for that text |
| `dialects.dfy` | `Dialects` | `ISqlDialect` and its four implementations, as a datatype with four constructors; reference readers that invert identifier quoting, the EXISTS wrapper and the pagination fragment, and a lookup by name |
| `sql_dialect.dfy` | `SqlDialect` | the registry of the four named dialect instances |
| `parameters.dfy` | `Parameters` | parameter objects as reflection sees them (properties and indexers) |
| `clauses.dfy` | `Clauses` | the clause-accumulation steps the builders share; what a run of such calls produces |
| `specification.dfy` | `Specifications` | the current builder: a class whose validating mutators update fields in place |
| `evaluator.dfy` | `SpecificationEvaluator` | `Build`: argument checks, then step-by-step appends to a buffer; proved equal to a pure clause-concatenation function |
| `legacy_specification.dfy` | `LegacySpecification` | the older unvalidated builder and its dictionary merge of parameters |

Modelling choices:

- A C# `null` string field is modelled as `""`. Every guard in the core
  (`IsNullOrWhiteSpace`, `IsNullOrEmpty`) and every C# interpolation treats
  `null` exactly like `""`.
- A null specification is a null class reference (`Specification?`).
- A null dialect is `None`.
- Exceptions become `Failure(...)` results. A mutator's exception becomes a
  `Fail(...)` outcome, and the state is left unchanged.
- `Skip` and `Take` are `Option<Int32>`, where `Int32` is the subset of
  `int` that C# `int` can hold.
- Subclasses may assign any field through the protected setters, so the
  `Assigned` constructor accepts any field values at all, including a
  negative skip.

Two points about the dialects:

- SQL Server does not override `QuoteIdentifier`, so it keeps the default
  at `src/Dapper.Specifications/Dialects/ISqlDialect.cs:45`, which returns
  the name unchanged. Its unit test expects exactly that. See
  `Dialects.SqlServerQuoteIsIdentity`.
- Here the code and the library's own test disagree, and the model follows
  the code. PostgreSQL's EXISTS wrapper emits `THEN 1 ELSE 0 END`. The PostgreSQL
  dialect unit test
  (`tests/Dapper.Specifications.UnitTests/SqlDialectTests/PostgreSqlDialectTests.cs:74`)
  expects `THEN TRUE ELSE FALSE END`. See `Dialects.PgExistsWrapperIsNumeric`.

## Model

All source paths below are under `src/Dapper.Specifications/` unless they
start with `src/Dapper.Specification/` (the legacy project) or `tests/`.

| member | source | states |
|---|---|---|
| Decimal.NatToStringDigits | src/Dapper.Specifications/Dialects/SqlServerDialect.cs:9 | the decimal text of a natural number is non-empty and all digits, has no leading zero, and has that number as its value |
| Decimal.IntToStringRoundTrip | src/Dapper.Specifications/Dialects/SqlServerDialect.cs:9 | the text interpolated for any int uses only digits and '-', and reads back as that int |
| Decimal.ReadIntOf | src/Dapper.Specifications/Dialects/MySqlDialect.cs:9 | an int's text followed by a non-numeral character reads back as the int and the rest of the text |
| Dialects.Dialect.Name | src/Dapper.Specifications/Dialects/SqlServerDialect.cs:5 | each dialect's name, which the lookup by name maps back to that same dialect, so no two dialects share a name |
| Dialects.Dialect.ParameterPrefix | src/Dapper.Specifications/Dialects/PgSqlDialect.cs:6 | every dialect, PostgreSQL included, prefixes parameters with `@` |
| Dialects.Dialect.FormatExistsWrapper | src/Dapper.Specifications/Dialects/MySqlDialect.cs:11-12 | the inner query appears unchanged between the dialect's opening text (`SELECT CASE WHEN EXISTS (` or `SELECT EXISTS (`) and its closing text (`) THEN 1 ELSE 0 END` or `)`) |
| Dialects.Dialect.FormatBoolean | src/Dapper.Specifications/Dialects/PgSqlDialect.cs:14 | the literal is one of `TRUE`, `FALSE`, `1`, `0`; true renders as `TRUE` or `1`; the keyword pair is used exactly by PostgreSQL, so PostgreSQL renders `TRUE`/`FALSE` and the other three `1`/`0` |
| Dialects.Dialect.FormatLimitOffset | src/Dapper.Specifications/Dialects/SqlServerDialect.cs:8-9 | every dialect's pagination fragment is non-empty and starts with a space |
| Dialects.Dialect.QuoteIdentifier | src/Dapper.Specifications/Dialects/PgSqlDialect.cs:16-20 | quoting fails exactly when the dialect is not SQL Server and the name is null, empty or whitespace; the failure is an ArgumentException on `name` |
| Dialects.SqlServerQuoteIsIdentity | src/Dapper.Specifications/Dialects/ISqlDialect.cs:45 | SQL Server returns every name unchanged, a blank one included, and never fails |
| Dialects.EscapeLength | src/Dapper.Specifications/Dialects/PgSqlDialect.cs:19 | doubling a quote character lengthens a name by exactly the number of quote characters in it |
| Dialects.UnescapeEscape | src/Dapper.Specifications/Dialects/MySqlDialect.cs:19 | a doubled name is well formed (every quote character comes in pairs), and collapsing the pairs recovers the name |
| Dialects.EscapeUnescape | src/Dapper.Specifications/Dialects/SqliteDialect.cs:19 | every well-formed doubled text is the doubling of its collapse, so doubling is onto the well-formed texts |
| Dialects.QuoteRoundTrip | src/Dapper.Specifications/Dialects/PgSqlDialect.cs:19 | for every dialect, dropping the outer quotes and collapsing doubled quotes recovers the quoted name |
| Dialects.QuoteInjective | src/Dapper.Specifications/Dialects/MySqlDialect.cs:19 | two names that quote to the same text are equal |
| Dialects.QuotedLength | src/Dapper.Specifications/Dialects/PgSqlDialect.cs:18-19 | for the three quoting dialects, a non-blank name quotes to length \|name\| + 2 + (number of quote characters in it) |
| Dialects.ReadFilledOf | src/Dapper.Specifications/Dialects/SqlServerDialect.cs:9 | a template filled with two ints, separated by text that cannot continue a numeral, reads back as the two ints |
| Dialects.LimitOffsetRoundTrip | src/Dapper.Specifications/Dialects/PgSqlDialect.cs:8-9 | each dialect's pagination fragment reads back as (skip, take): skip before take for SQL Server and MySQL, take before skip for PostgreSQL and SQLite |
| Dialects.LimitOffsetInjective | src/Dapper.Specifications/Dialects/MySqlDialect.cs:8-9 | equal pagination fragments come from equal bounds |
| Dialects.ExistsRoundTrip | src/Dapper.Specifications/Dialects/MySqlDialect.cs:11-12 | the inner query can be read back out of every dialect's EXISTS wrapper |
| Dialects.PgExistsWrapperIsNumeric | src/Dapper.Specifications/Dialects/PgSqlDialect.cs:11-12 | PostgreSQL's EXISTS wrapper equals SQL Server's (`THEN 1 ELSE 0 END`) and differs from the TRUE/FALSE form |
| Dialects.BooleanLiteralsDistinct | src/Dapper.Specifications/Dialects/PgSqlDialect.cs:14 | each dialect renders true and false differently; only PostgreSQL renders true as `TRUE` |
| SqlDialect.SqlServer | src/Dapper.Specifications/Dialects/SqlDialect.cs:11 | the accessor yields the SQL Server dialect, named `SQLServer` |
| SqlDialect.PostgreSql | src/Dapper.Specifications/Dialects/SqlDialect.cs:16 | the accessor yields the PostgreSQL dialect, named `PostgreSQL` |
| SqlDialect.MySql | src/Dapper.Specifications/Dialects/SqlDialect.cs:21 | the accessor yields the MySQL dialect, named `MySQL` |
| SqlDialect.Sqlite | src/Dapper.Specifications/Dialects/SqlDialect.cs:26 | the accessor yields the SQLite dialect, named `SQLite` |
| SqlDialect.RegisteredDialects | src/Dapper.Specifications/Dialects/SqlDialect.cs:6-27 | every dialect is one of the four registered ones; all use `@` as parameter prefix; names tell dialects apart |
| Parameters.Readable | src/Dapper.Specifications/Specifications/Specification.cs:152-153 | the merge reads every property without index parameters and nothing else |
| Clauses.ConjoinAllExtends | src/Dapper.Specifications/Specifications/Specification.cs:73-76 | a non-empty WHERE/HAVING only grows: each later call appends its connective and clause |
| Clauses.ConjoinAllFromEmpty | src/Dapper.Specifications/Specifications/Specification.cs:89-92 | from an empty WHERE, non-blank calls give the first clause, then each later clause behind its own AND/OR, in call order, with no parentheses |
| Clauses.CommaAppendAllExtends | src/Dapper.Specifications/Specifications/Specification.cs:136 | a non-blank ORDER BY/GROUP BY list only grows, one `", "` per call |
| Clauses.CommaAppendAllFromBlank | src/Dapper.Specifications/Specifications/Specification.cs:112 | from a blank list, non-blank parts are joined by `", "` in call order |
| Clauses.JoinAppendAllSpaced | src/Dapper.Specifications/Specifications/Specification.cs:104 | every join is appended in call order behind exactly one space |
| Specifications.CheckClause | src/Dapper.Specifications/Specifications/Specification.cs:63 | a clause passes exactly when it is not null, empty or whitespace; otherwise an ArgumentException on `clause` |
| Specifications.CheckPaging | src/Dapper.Specifications/Specifications/Specification.cs:143-144 | paging passes exactly when skip >= 0 and take > 0; a negative skip is reported first, on `skip`, then a non-positive take, on `take` |
| Specifications.Specification.constructor | src/Dapper.Specifications/Specifications/Specification.cs:28-58 | a fresh specification has every clause string empty, no skip or take, and an empty bag |
| Specifications.Specification.Assigned | src/Dapper.Specifications/Specifications/Specification.cs:28-55 | a subclass may start from any field values, through the protected setters |
| Specifications.Specification.SetSelectClause | src/Dapper.Specifications/Specifications/Specification.cs:61-66 | a blank clause fails and changes nothing; otherwise only the projection is replaced |
| Specifications.Specification.AddWhere | src/Dapper.Specifications/Specifications/Specification.cs:69-82 | a blank clause fails and changes nothing; otherwise WHERE becomes the clause (if empty) or WHERE + " AND " + clause, and the bag gains the readable properties of the parameters in order; nothing else changes |
| Specifications.Specification.AddWhereOr | src/Dapper.Specifications/Specifications/Specification.cs:85-98 | as AddWhere, with " OR " |
| Specifications.Specification.AddJoin | src/Dapper.Specifications/Specifications/Specification.cs:101-106 | a blank clause fails and changes nothing; otherwise the join list gains " " + clause |
| Specifications.Specification.AddGroupBy | src/Dapper.Specifications/Specifications/Specification.cs:109-114 | a blank clause fails and changes nothing; otherwise a blank GROUP BY is replaced, or the clause is appended after ", " |
| Specifications.Specification.AddHaving | src/Dapper.Specifications/Specifications/Specification.cs:117-130 | as AddWhere, on HAVING, with the IsNullOrEmpty test and " AND " |
| Specifications.Specification.AddOrder | src/Dapper.Specifications/Specifications/Specification.cs:133-138 | as AddGroupBy, on ORDER BY |
| Specifications.Specification.SetPaging | src/Dapper.Specifications/Specifications/Specification.cs:141-148 | out-of-range bounds fail (skip checked first) and leave skip and take unchanged; otherwise both are stored |
| Specifications.Specification.MergeParameters | src/Dapper.Specifications/Specifications/Specification.cs:150-159 | the loop adds one binding per property without index parameters, in property order, and touches only the bag |
| SpecificationEvaluator.CountSql | src/Dapper.Specifications/Evaluators/SpecificationEvaluator.cs:26-28 | the count query starts with `SELECT COUNT(*) FROM` and the table; CountIsReducedQuery gives the rest |
| SpecificationEvaluator.ExistsSql | src/Dapper.Specifications/Evaluators/SpecificationEvaluator.cs:30-44 | removing the dialect's wrapper from the exists query gives back `SELECT 1 FROM` the table, the join and the WHERE |
| SpecificationEvaluator.NormalSql | src/Dapper.Specifications/Evaluators/SpecificationEvaluator.cs:46-75 | the normal query extends the unpaged query, and extends it strictly exactly when both skip and take are set |
| SpecificationEvaluator.Compile | src/Dapper.Specifications/Evaluators/SpecificationEvaluator.cs:23-77 | in every mode the SQL is a statement starting with `SELECT ` |
| SpecificationEvaluator.Evaluate | src/Dapper.Specifications/Evaluators/SpecificationEvaluator.cs:19-21 | it succeeds exactly when spec and dialect are present and the table name is not blank; it fails on the spec first, then the dialect, then TableName; on success the params are the bag the spec holds at that moment |
| SpecificationEvaluator.Build | src/Dapper.Specifications/Evaluators/SpecificationEvaluator.cs:13-78 | the method's result is the clause-concatenation function of the spec's current state, whose properties are the lemmas below; it writes nothing |
| SpecificationEvaluator.Assemble | src/Dapper.Specifications/Evaluators/SpecificationEvaluator.cs:23-77 | the guarded appends in count, exists and normal mode build exactly the SQL of that mode |
| SpecificationEvaluator.AppendFilter | src/Dapper.Specifications/Evaluators/SpecificationEvaluator.cs:53-59 | the join (behind " ") and WHERE fragments are appended, each only when its field is not blank |
| SpecificationEvaluator.AppendShaping | src/Dapper.Specifications/Evaluators/SpecificationEvaluator.cs:61-75 | GROUP BY, HAVING, ORDER BY and pagination are appended in that order in normal mode, and nothing is appended otherwise |
| SpecificationEvaluator.PiecePresence | src/Dapper.Specifications/Evaluators/SpecificationEvaluator.cs:54-71 | an optional fragment is present exactly when its field is not null or whitespace, and is then keyword + value |
| SpecificationEvaluator.NormalSqlUnshaped | src/Dapper.Specifications/Evaluators/SpecificationEvaluator.cs:61-75 | without GROUP BY, HAVING, ORDER BY and pagination, a normal query is projection, table and filter only |
| SpecificationEvaluator.TableOnly | src/Dapper.Specifications/Evaluators/SpecificationEvaluator.cs:48-50 | a specification with only its table set builds exactly `SELECT * FROM {table}` with an empty bag, in every dialect |
| SpecificationEvaluator.CountWins | src/Dapper.Specifications/Evaluators/SpecificationEvaluator.cs:26-30 | with isCount set, isExists changes nothing and the SQL is the count query |
| SpecificationEvaluator.CountIsReducedQuery | src/Dapper.Specifications/Evaluators/SpecificationEvaluator.cs:26-28 | the count query is the normal query with `COUNT(*)` projected and no GROUP BY, HAVING, ORDER BY or pagination; JOIN and WHERE are kept |
| SpecificationEvaluator.ExistsWrapsReducedQuery | src/Dapper.Specifications/Evaluators/SpecificationEvaluator.cs:30-44 | the exists query is the dialect's wrapper around `SELECT 1 FROM table [join] [where]`, with group/having/order/paging ignored; the inner query can be read back out of it |
| SpecificationEvaluator.PagingLast | src/Dapper.Specifications/Evaluators/SpecificationEvaluator.cs:74-75 | with both bounds set, the normal query is the unpaged query followed by the dialect's fragment, which reads back as the two bounds |
| SpecificationEvaluator.PagingNeedsBoth | src/Dapper.Specifications/Evaluators/SpecificationEvaluator.cs:74 | with either bound missing, no pagination fragment is emitted |
| SpecificationEvaluator.WhereFromConditions | src/Dapper.Specifications/Evaluators/SpecificationEvaluator.cs:57-59 | a WHERE built by non-blank AddWhere/AddWhereOr calls reaches the SQL as " WHERE " and the clauses in call order, each behind its own connective |
| SpecificationEvaluator.JoinsDoubleSpaced | src/Dapper.Specifications/Evaluators/SpecificationEvaluator.cs:54-55 | joins built by AddJoin reach the SQL behind two spaces: the evaluator's own space and the one AddJoin stored |
| SpecificationEvaluator.SqlServerPagingExample | tests/Dapper.Specifications.UnitTests/SpecificationEvaluatorIntegrationTests.cs:142 | SQL Server pages (10, 20) as ` OFFSET 10 ROWS FETCH NEXT 20 ROWS ONLY` |
| SpecificationEvaluator.LimitPagingExamples | tests/Dapper.Specifications.UnitTests/SpecificationEvaluatorIntegrationTests.cs:143-150 | PostgreSQL and SQLite page (10, 20) as ` LIMIT 20 OFFSET 10`, MySQL as ` LIMIT 10, 20` |
| LegacySpecification.LastValueFound | src/Dapper.Specification/Specification.cs:43-44 | a name has a last written value exactly when the merged properties write that name |
| LegacySpecification.OverlayLookup | src/Dapper.Specification/Specification.cs:40-46 | after a merge, a name is present iff it was present or was written; a written name maps to its last written value, and any other keeps its old value |
| LegacySpecification.OverlayKeys | src/Dapper.Specification/Specification.cs:40-46 | the keys after a merge are the old keys together with the written names |
| LegacySpecification.ReadableAsProperties | src/Dapper.Specification/Specification.cs:43 | reading the properties of an anonymous object gives back its bindings in order |
| LegacySpecification.FirstMergeAgrees | src/Dapper.Specification/Specification.cs:24-25 | the merge as written, from the initial empty object, is the intended last-write-wins merge |
| LegacySpecification.SecondMergeFails | src/Dapper.Specification/Specification.cs:42 | once the bag is a dictionary, the merge as written throws TargetParameterCountException, whatever is merged into it |
| LegacySpecification.TwoMergesAsWritten | src/Dapper.Specification/Specification.cs:17-26 | two parameterised AddWhere calls: the first merge succeeds, the second throws |
| LegacySpecification.AddWhereAsWritten | src/Dapper.Specification/Specification.cs:17-26 | as written, WHERE is always extended with the IsNullOrEmpty test and " AND "; a throwing merge leaves the parameters object unchanged and reports TargetParameterCountException; with no parameters nothing else changes |
| LegacySpecification.SecondAddWhereAsWritten | src/Dapper.Specification/Specification.cs:19-25 | of two parameterised AddWhere calls as written, the first completes; the second throws after WHERE already holds both clauses, leaving the parameters the first call produced |
| LegacySpecification.Specification.constructor | src/Dapper.Specification/Specification.cs:7-14 | a fresh legacy specification has every clause string empty, no skip or take, and an empty bag |
| LegacySpecification.Specification.AddWhere | src/Dapper.Specification/Specification.cs:17-26 | with no blank check, WHERE becomes the clause (if empty) or WHERE + " AND " + clause; the bag is merged only when parameters are given; nothing else changes |
| LegacySpecification.Specification.AddJoin | src/Dapper.Specification/Specification.cs:28-29 | the join list gains " " + clause, unchecked |
| LegacySpecification.Specification.AddOrder | src/Dapper.Specification/Specification.cs:31-32 | a whitespace-only ORDER BY is replaced, otherwise the clause is appended after ", " |
| LegacySpecification.Specification.SetPaging | src/Dapper.Specification/Specification.cs:34-38 | both bounds are stored as given, negative ones included |
| LegacySpecification.Specification.MergeParameters | src/Dapper.Specification/Specification.cs:40-46 | the loop writes each binding over the bag in order, giving the last-write-wins merge |

## Left out

- Database executors are not modelled: the Query, Count and Exists methods in sync and async forms, the multi-mapping overloads, and the Dapper extension methods. They are I/O through Dapper and ADO.NET, as are cancellation tokens and transactions. One detail of them: the Exists executor maps a scalar result `== 1` to true.
- `DynamicParameters` is modelled as the sequence of its `Add` calls, in order. Dapper's own policy on two `Add` calls with the same name belongs to that library, which is not part of this model.
- Reflection is modelled by passing each parameters object as the list of its public properties, in the order reflection reports them.
- UNION, UNION ALL, CTEs, FROM-subqueries, DISTINCT and the typed join helpers are declared on the specification interface but not implemented by the builder or by `Build`. They are not modelled.
- `SqlKeywords` is not modelled. It holds string constants that `Build` does not use.
- Null strings are modelled as `""`. Every `IsNullOrWhiteSpace`/`IsNullOrEmpty` test and every interpolation in the core treats the two alike. The exception raised for them differs; see the next line.
- `ArgumentException.ThrowIfNullOrWhiteSpace` raises `ArgumentNullException`, a subtype of `ArgumentException`, for a null argument. The model reports a null argument like a blank one: `Argument("clause")` in the builder, `Argument("TableName")` in `Build` (`src/Dapper.Specifications/Evaluators/SpecificationEvaluator.cs:21`) and `Argument("name")` in the three quoting dialects (`src/Dapper.Specifications/Dialects/PgSqlDialect.cs:18`, `MySqlDialect.cs:18`, `SqliteDialect.cs:18`). The subtype is not modelled.
- SpecificationEvaluator.Evaluate returns the parameter bag as a value: a copy of the bag at the time of the call. `Build` returns the specification's own `DynamicParameters` object (`src/Dapper.Specifications/Evaluators/SpecificationEvaluator.cs:44,77`), so later `AddWhere`/`AddHaving` calls on the specification show through a result already returned. That aliasing is not modelled.
- `IntToString` writes a negative number with `-`, as the invariant culture does. A culture whose negative sign is some other string is not modelled.
- LegacySpecification.Reflect lists only `Count` and the indexer `Item` for a dictionary. `Comparer`, `Keys` and `Values` are omitted because the indexer alone decides the outcome: reading it throws.
- LegacySpecification.MergeAsWritten does not model the duplicate-key exception that `ToDictionary` can throw. Reflection never reports two properties of one name, so it cannot occur.
- LegacySpecification.Specification.AddWhere uses the corrected merge from the Findings table, so a parameterised call always completes. As written (`src/Dapper.Specification/Specification.cs:19-25`), a second parameterised call first extends `WhereClause`, then throws from `MergeParameters`. The exception escapes with WHERE already changed and `Parameters` unchanged. That partial update is modelled by `LegacySpecification.AddWhereAsWritten` and shown by `LegacySpecification.SecondAddWhereAsWritten`, not by the class.
- The legacy `Parameters` object starts as `new { }`, which has no properties. The corrected class models it as the empty map.

## Findings

| source | as written | input that shows it | evidently intended | confidence | as-written member | corrected member |
|---|---|---|---|---|---|---|
| src/Dapper.Specification/Specification.cs:40-46 | The merge reflects over the current `Parameters` object. After the first merge that object is a `Dictionary<string, object>`, whose public properties include the indexer `Item`. `GetValue` on an indexer without index arguments throws `TargetParameterCountException`. | two `AddWhere` calls with non-null parameters, e.g. `AddWhere("a = @A", new { A = 1 })` then `AddWhere("b = @B", new { B = 2 })` | the entries of both objects merged by name, the later value winning | high (not executed) | LegacySpecification.TwoMergesAsWritten | LegacySpecification.Specification.MergeParameters |
