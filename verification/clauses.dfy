/**
 * How the specification builders accumulate clause text: the step one
 * mutator call performs, and what a run of calls produces from a given
 * start.
 */
module Clauses {
  import opened Text

  datatype Connective = And | Or

  function Separator(op: Connective): string {
    match op
    case And => " AND "
    case Or => " OR "
  }

  /**
   * One AddWhere (And), AddWhereOr (Or) or AddHaving (And) step: an empty
   * clause (IsNullOrEmpty) is replaced, any other is extended.
   */
  function Conjoin(current: string, op: Connective, clause: string): string {
    if IsNullOrEmpty(current) then clause else current + Separator(op) + clause
  }

  /** One AddGroupBy or AddOrder step: a blank list (IsNullOrWhiteSpace) is replaced. */
  function CommaAppend(current: string, clause: string): string {
    if IsNullOrWhiteSpace(current) then clause else current + ", " + clause
  }

  /** One AddJoin step: the clause always goes after a single space. */
  function JoinAppend(current: string, clause: string): string {
    current + " " + clause
  }

  // ---- Runs of calls ----

  datatype Condition = Condition(op: Connective, clause: string)

  predicate ClausesNotBlank(conds: seq<Condition>) {
    forall i :: 0 <= i < |conds| ==> !IsNullOrWhiteSpace(conds[i].clause)
  }

  predicate AllNotBlank(parts: seq<string>) {
    forall i :: 0 <= i < |parts| ==> !IsNullOrWhiteSpace(parts[i])
  }

  /** The WHERE (or HAVING) text after the calls conds, made in order, starting from current. */
  function ConjoinAll(current: string, conds: seq<Condition>): string
    decreases |conds|
  {
    if conds == [] then current
    else ConjoinAll(Conjoin(current, conds[0].op, conds[0].clause), conds[1..])
  }

  /** Each clause behind its own connective, in call order, with no parentheses added. */
  function Chained(conds: seq<Condition>): string
    decreases |conds|
  {
    if conds == [] then "" else Separator(conds[0].op) + conds[0].clause + Chained(conds[1..])
  }

  function CommaAppendAll(current: string, parts: seq<string>): string
    decreases |parts|
  {
    if parts == [] then current else CommaAppendAll(CommaAppend(current, parts[0]), parts[1..])
  }

  /** Each part behind ", ". */
  function CommaSuffixes(parts: seq<string>): string
    decreases |parts|
  {
    if parts == [] then "" else ", " + parts[0] + CommaSuffixes(parts[1..])
  }

  function JoinAppendAll(current: string, parts: seq<string>): string
    decreases |parts|
  {
    if parts == [] then current else JoinAppendAll(JoinAppend(current, parts[0]), parts[1..])
  }

  /** Each part behind one space. */
  function Spaced(parts: seq<string>): string
    decreases |parts|
  {
    if parts == [] then "" else " " + parts[0] + Spaced(parts[1..])
  }

  /** A non-empty WHERE only grows: each later call adds its connective and clause. */
  lemma {:induction false} ConjoinAllExtends(current: string, conds: seq<Condition>)
    requires current != ""
    ensures ConjoinAll(current, conds) == current + Chained(conds)
    decreases |conds|
  {
    if conds != [] {
      var next := current + Separator(conds[0].op) + conds[0].clause;
      ConjoinAllExtends(next, conds[1..]);
      assert next + Chained(conds[1..]) == current + Chained(conds);
    }
  }

  /**
   * From an empty WHERE, calls with non-blank clauses give the first clause
   * (its own connective dropped) followed by every later clause behind its
   * connective, in call order: AND and OR are never grouped.
   */
  lemma ConjoinAllFromEmpty(conds: seq<Condition>)
    requires |conds| > 0 && ClausesNotBlank(conds)
    ensures ConjoinAll("", conds) == conds[0].clause + Chained(conds[1..])
  {
    assert conds[0].clause != "";
    ConjoinAllExtends(conds[0].clause, conds[1..]);
  }

  /** A non-blank GROUP BY or ORDER BY list only grows, one ", " per call. */
  lemma {:induction false} CommaAppendAllExtends(current: string, parts: seq<string>)
    requires !IsNullOrWhiteSpace(current)
    ensures CommaAppendAll(current, parts) == current + CommaSuffixes(parts)
    decreases |parts|
  {
    if parts != [] {
      var next := current + ", " + parts[0];
      NotBlankExtends(current, ", " + parts[0]);
      assert next == current + (", " + parts[0]);
      CommaAppendAllExtends(next, parts[1..]);
      assert next + CommaSuffixes(parts[1..]) == current + CommaSuffixes(parts);
    }
  }

  /** From a blank list, non-blank parts are joined with ", " in call order. */
  lemma CommaAppendAllFromBlank(current: string, parts: seq<string>)
    requires IsNullOrWhiteSpace(current)
    requires |parts| > 0 && AllNotBlank(parts)
    ensures CommaAppendAll(current, parts) == parts[0] + CommaSuffixes(parts[1..])
  {
    CommaAppendAllExtends(parts[0], parts[1..]);
  }

  /** Joins are appended as they come, each behind exactly one space. */
  lemma {:induction false} JoinAppendAllSpaced(current: string, parts: seq<string>)
    ensures JoinAppendAll(current, parts) == current + Spaced(parts)
    decreases |parts|
  {
    if parts != [] {
      var next := current + " " + parts[0];
      JoinAppendAllSpaced(next, parts[1..]);
      assert next + Spaced(parts[1..]) == current + Spaced(parts);
    }
  }
}
