/**
 * The specification builder: a mutable record of clause strings, paging
 * bounds and a parameter bag, with fluent mutators that validate their
 * argument and then accumulate clause text. Subclasses may assign any field
 * directly, so every field may hold any value, including a negative skip.
 */
module Specifications {
  import opened Wrappers
  import opened Text
  import opened Decimal
  import opened Exceptions
  import opened Parameters
  import opened Clauses

  /** A snapshot of every field of a specification. */
  datatype SpecState = SpecState(
    tableName: string,
    primaryKey: string,
    selectClause: string,
    joinClause: string,
    whereClause: string,
    groupBy: string,
    having: string,
    orderBy: string,
    skip: Option<Int32>,
    take: Option<Int32>,
    parameters: seq<Binding>)

  /** The field initialisers: every string empty, no paging, an empty bag. */
  function Initial(): SpecState {
    SpecState("", "", "", "", "", "", "", "", None, None, [])
  }

  /** ArgumentException.ThrowIfNullOrWhiteSpace on a mutator's clause argument. */
  function CheckClause(clause: string): (o: Outcome)
    ensures o.Pass? <==> !IsNullOrWhiteSpace(clause)
    ensures o.Fail? ==> o.error == Argument("clause")
  {
    if IsNullOrWhiteSpace(clause) then Fail(Argument("clause")) else Pass
  }

  /** The two range checks of SetPaging, skip first. */
  function CheckPaging(skip: Int32, take: Int32): (o: Outcome)
    ensures o.Pass? <==> skip >= 0 && take > 0
    ensures skip < 0 ==> o == Fail(ArgumentOutOfRange("skip"))
    ensures skip >= 0 && take <= 0 ==> o == Fail(ArgumentOutOfRange("take"))
  {
    if skip < 0 then Fail(ArgumentOutOfRange("skip"))
    else if take <= 0 then Fail(ArgumentOutOfRange("take"))
    else Pass
  }

  /** What a WHERE/HAVING addition with the optional parameters object adds to the bag. */
  function Added(parameters: Option<seq<PropertyInfo>>): seq<Binding> {
    match parameters
    case None => []
    case Some(props) => Readable(props)
  }

  class Specification {
    var tableName: string
    var primaryKey: string
    var selectClause: string
    var joinClause: string
    var whereClause: string
    var groupBy: string
    var having: string
    var orderBy: string
    var skip: Option<Int32>
    var take: Option<Int32>
    var parameters: seq<Binding>

    function State(): SpecState
      reads this
    {
      SpecState(tableName, primaryKey, selectClause, joinClause, whereClause,
                groupBy, having, orderBy, skip, take, parameters)
    }

    constructor ()
      ensures State() == Initial()
    {
      tableName, primaryKey, selectClause := "", "", "";
      joinClause, whereClause := "", "";
      groupBy, having, orderBy := "", "", "";
      skip, take := None, None;
      parameters := [];
    }

    /** A subclass constructor that assigns fields through the protected setters. */
    constructor Assigned(s: SpecState)
      ensures State() == s
    {
      tableName, primaryKey, selectClause := s.tableName, s.primaryKey, s.selectClause;
      joinClause, whereClause := s.joinClause, s.whereClause;
      groupBy, having, orderBy := s.groupBy, s.having, s.orderBy;
      skip, take := s.skip, s.take;
      parameters := s.parameters;
    }

    method SetSelectClause(clause: string) returns (outcome: Outcome)
      modifies this
      ensures outcome == CheckClause(clause)
      ensures State() == if outcome.Fail? then old(State())
                         else old(State()).(selectClause := clause)
    {
      outcome := CheckClause(clause);
      if outcome.Pass? {
        selectClause := clause;
      }
    }

    method AddWhere(clause: string, args: Option<seq<PropertyInfo>>) returns (outcome: Outcome)
      modifies this
      ensures outcome == CheckClause(clause)
      ensures State() == if outcome.Fail? then old(State())
                         else old(State()).(whereClause := Conjoin(old(whereClause), And, clause),
                                            parameters := old(parameters) + Added(args))
    {
      outcome := CheckClause(clause);
      if outcome.Fail? {
        return;
      }
      if IsNullOrEmpty(whereClause) {
        whereClause := clause;
      } else {
        whereClause := whereClause + " AND " + clause;
      }
      if args.Some? {
        MergeParameters(args.value);
      }
    }

    method AddWhereOr(clause: string, args: Option<seq<PropertyInfo>>) returns (outcome: Outcome)
      modifies this
      ensures outcome == CheckClause(clause)
      ensures State() == if outcome.Fail? then old(State())
                         else old(State()).(whereClause := Conjoin(old(whereClause), Or, clause),
                                            parameters := old(parameters) + Added(args))
    {
      outcome := CheckClause(clause);
      if outcome.Fail? {
        return;
      }
      if IsNullOrEmpty(whereClause) {
        whereClause := clause;
      } else {
        whereClause := whereClause + " OR " + clause;
      }
      if args.Some? {
        MergeParameters(args.value);
      }
    }

    method AddJoin(clause: string) returns (outcome: Outcome)
      modifies this
      ensures outcome == CheckClause(clause)
      ensures State() == if outcome.Fail? then old(State())
                         else old(State()).(joinClause := JoinAppend(old(joinClause), clause))
    {
      outcome := CheckClause(clause);
      if outcome.Pass? {
        joinClause := joinClause + " " + clause;
      }
    }

    method AddGroupBy(clause: string) returns (outcome: Outcome)
      modifies this
      ensures outcome == CheckClause(clause)
      ensures State() == if outcome.Fail? then old(State())
                         else old(State()).(groupBy := CommaAppend(old(groupBy), clause))
    {
      outcome := CheckClause(clause);
      if outcome.Pass? {
        groupBy := if IsNullOrWhiteSpace(groupBy) then clause else groupBy + ", " + clause;
      }
    }

    method AddHaving(clause: string, args: Option<seq<PropertyInfo>>) returns (outcome: Outcome)
      modifies this
      ensures outcome == CheckClause(clause)
      ensures State() == if outcome.Fail? then old(State())
                         else old(State()).(having := Conjoin(old(having), And, clause),
                                            parameters := old(parameters) + Added(args))
    {
      outcome := CheckClause(clause);
      if outcome.Fail? {
        return;
      }
      if IsNullOrEmpty(having) {
        having := clause;
      } else {
        having := having + " AND " + clause;
      }
      if args.Some? {
        MergeParameters(args.value);
      }
    }

    method AddOrder(clause: string) returns (outcome: Outcome)
      modifies this
      ensures outcome == CheckClause(clause)
      ensures State() == if outcome.Fail? then old(State())
                         else old(State()).(orderBy := CommaAppend(old(orderBy), clause))
    {
      outcome := CheckClause(clause);
      if outcome.Pass? {
        orderBy := if IsNullOrWhiteSpace(orderBy) then clause else orderBy + ", " + clause;
      }
    }

    method SetPaging(skip: Int32, take: Int32) returns (outcome: Outcome)
      modifies this
      ensures outcome == CheckPaging(skip, take)
      ensures State() == if outcome.Fail? then old(State())
                         else old(State()).(skip := Some(skip), take := Some(take))
    {
      outcome := CheckPaging(skip, take);
      if outcome.Pass? {
        this.skip := Some(skip);
        this.take := Some(take);
      }
    }

    /** Adds one parameter per property without index parameters, in order. */
    method MergeParameters(b: seq<PropertyInfo>)
      modifies this`parameters
      ensures parameters == old(parameters) + Readable(b)
    {
      var i := 0;
      while i < |b|
        invariant 0 <= i <= |b|
        invariant parameters == old(parameters) + Readable(b[..i])
      {
        assert b[..i + 1][..i] == b[..i];
        if b[i].Property? {
          parameters := parameters + [Binding(b[i].name, b[i].value)];
        }
        i := i + 1;
      }
      assert b[..|b|] == b;
    }
  }
}
