/**
 * The older, unvalidated specification builder: WHERE, JOIN, ORDER BY and
 * paging, with a parameters object that each WHERE merges into a dictionary
 * by name, the later value winning.
 */
module LegacySpecification {
  import opened Wrappers
  import opened Text
  import opened Decimal
  import opened Exceptions
  import opened Parameters
  import opened Clauses

  // ---- The parameter merge ----

  /**
   * The bag after the bindings b are written into a, one after another:
   * a later write to a name replaces an earlier one.
   */
  function Overlay(a: map<string, Value>, b: seq<Binding>): map<string, Value>
    decreases |b|
  {
    if b == [] then a
    else Overlay(a, b[..|b| - 1])[b[|b| - 1].name := b[|b| - 1].value]
  }

  /** The names b writes. */
  function Names(b: seq<Binding>): set<string> {
    set i | 0 <= i < |b| :: b[i].name
  }

  /** The value of the last binding of name k in b: the reference meaning of "last write wins". */
  function LastValue(b: seq<Binding>, k: string): Option<Value>
    decreases |b|
  {
    if b == [] then None
    else if b[|b| - 1].name == k then Some(b[|b| - 1].value)
    else LastValue(b[..|b| - 1], k)
  }

  /** LastValue finds a value exactly for the names b writes. */
  lemma {:induction false} LastValueFound(b: seq<Binding>, k: string)
    ensures LastValue(b, k).Some? <==> k in Names(b)
    decreases |b|
  {
    if b != [] {
      var init := b[..|b| - 1];
      LastValueFound(init, k);
      assert Names(b) == Names(init) + {b[|b| - 1].name} by {
        forall n | n in Names(b) ensures n in Names(init) + {b[|b| - 1].name} {
          var i :| 0 <= i < |b| && b[i].name == n;
          if i < |b| - 1 {
            assert init[i] == b[i];
          }
        }
        forall n | n in Names(init) ensures n in Names(b) {
          var i :| 0 <= i < |init| && init[i].name == n;
          assert b[i] == init[i];
        }
      }
    }
  }

  /**
   * The merged bag holds the old names and the new ones; a name b writes
   * maps to the last value b gives it, any other keeps its old value.
   */
  lemma {:induction false} OverlayLookup(a: map<string, Value>, b: seq<Binding>, k: string)
    ensures k in Overlay(a, b) <==> k in a || LastValue(b, k).Some?
    ensures LastValue(b, k).Some? ==> Overlay(a, b)[k] == LastValue(b, k).value
    ensures LastValue(b, k).None? && k in a ==> Overlay(a, b)[k] == a[k]
    decreases |b|
  {
    if b != [] {
      OverlayLookup(a, b[..|b| - 1], k);
    }
  }

  /** The keys after a merge are the old keys and the names written. */
  lemma OverlayKeys(a: map<string, Value>, b: seq<Binding>)
    ensures Overlay(a, b).Keys == a.Keys + Names(b)
  {
    forall k ensures k in Overlay(a, b) <==> k in a.Keys + Names(b) {
      OverlayLookup(a, b, k);
      LastValueFound(b, k);
    }
  }

  // ---- The merge as written ----

  /** A parameters object: an anonymous object's properties, or the dictionary an earlier merge returned. */
  datatype ParamObject = Anonymous(props: seq<Binding>) | Dictionary(entries: map<string, Value>)

  /** An anonymous object's properties, all readable. */
  function AsProperties(props: seq<Binding>): (r: seq<PropertyInfo>)
    ensures |r| == |props|
    ensures forall i :: 0 <= i < |r| ==> r[i] == Property(props[i].name, props[i].value)
    decreases |props|
  {
    if props == [] then []
    else AsProperties(props[..|props| - 1]) + [Property(props[|props| - 1].name, props[|props| - 1].value)]
  }

  /**
   * The public properties reflection reports for a parameters object. A
   * dictionary shows its Count and its indexer Item, not its entries.
   */
  function Reflect(o: ParamObject): seq<PropertyInfo> {
    match o
    case Anonymous(props) => AsProperties(props)
    case Dictionary(m) => [Property("Count", Number(|m|)), Indexer("Item")]
  }

  predicate HasIndexer(props: seq<PropertyInfo>) {
    exists i :: 0 <= i < |props| && props[i].Indexer?
  }

  /**
   * MergeParameters as written: reads every property of a into a dictionary,
   * then writes every property of b over it. Reading an indexer without index
   * arguments throws.
   */
  function MergeAsWritten(a: ParamObject, b: ParamObject): Result<ParamObject, Error> {
    var pa, pb := Reflect(a), Reflect(b);
    if HasIndexer(pa) || HasIndexer(pb) then Failure(TargetParameterCount)
    else Success(Dictionary(Overlay(Overlay(map[], Readable(pa)), Readable(pb))))
  }

  /** Reading an anonymous object's properties gives back its bindings. */
  lemma {:induction false} ReadableAsProperties(props: seq<Binding>)
    ensures Readable(AsProperties(props)) == props
    decreases |props|
  {
    if props != [] {
      var init := props[..|props| - 1];
      ReadableAsProperties(init);
      assert AsProperties(props)[..|props| - 1] == AsProperties(init);
      assert init + [props[|props| - 1]] == props;
    }
  }

  /** The first merge, from the initial empty object, is the intended one. */
  lemma FirstMergeAgrees(b: seq<Binding>)
    ensures MergeAsWritten(Anonymous([]), Anonymous(b)) == Success(Dictionary(Overlay(map[], b)))
  {
    ReadableAsProperties([]);
    ReadableAsProperties(b);
    assert !HasIndexer(Reflect(Anonymous(b)));
  }

  /** Once the bag is a dictionary, every further merge throws, whatever b holds. */
  lemma SecondMergeFails(m: map<string, Value>, b: ParamObject)
    ensures MergeAsWritten(Dictionary(m), b) == Failure(TargetParameterCount)
  {
    assert Reflect(Dictionary(m))[1].Indexer?;
  }

  /**
   * Two WHERE additions with parameters, from the initial empty object: the
   * first merge succeeds and leaves a dictionary, the second throws.
   */
  lemma TwoMergesAsWritten(first: seq<Binding>, second: seq<Binding>)
    ensures MergeAsWritten(Anonymous([]), Anonymous(first)).Success?
    ensures MergeAsWritten(MergeAsWritten(Anonymous([]), Anonymous(first)).value, Anonymous(second))
         == Failure(TargetParameterCount)
  {
    FirstMergeAgrees(first);
    SecondMergeFails(Overlay(map[], first), Anonymous(second));
  }

  /**
   * AddWhere as written, on the WHERE text and the parameters object: WHERE
   * is extended first, then the merge runs and may throw, in which case the
   * parameters object keeps its old value while WHERE keeps the new one.
   */
  function AddWhereAsWritten(where: string, obj: ParamObject, clause: string, args: Option<seq<Binding>>)
    : (r: (string, ParamObject, Outcome))
    ensures r.0 == Conjoin(where, And, clause)
    ensures r.2.Fail? ==> args.Some? && r.1 == obj && r.2 == Fail(TargetParameterCount)
    ensures args.None? ==> r.1 == obj && r.2 == Pass
  {
    var w := Conjoin(where, And, clause);
    if args.None? then (w, obj, Pass)
    else
      match MergeAsWritten(obj, Anonymous(args.value))
      case Success(o) => (w, o, Pass)
      case Failure(e) => (w, obj, Fail(e))
  }

  /**
   * Two parameterised AddWhere calls as written: the first completes; the
   * second throws after WHERE already holds both clauses, with the
   * parameters still the dictionary the first call left.
   */
  lemma SecondAddWhereAsWritten(where: string, c1: string, first: seq<Binding>, c2: string, second: seq<Binding>)
    ensures AddWhereAsWritten(where, Anonymous([]), c1, Some(first))
         == (Conjoin(where, And, c1), Dictionary(Overlay(map[], first)), Pass)
    ensures AddWhereAsWritten(Conjoin(where, And, c1), Dictionary(Overlay(map[], first)), c2, Some(second))
         == (Conjoin(Conjoin(where, And, c1), And, c2), Dictionary(Overlay(map[], first)), Fail(TargetParameterCount))
  {
    FirstMergeAgrees(first);
    SecondMergeFails(Overlay(map[], first), Anonymous(second));
  }

  // ---- The builder ----

  /** A snapshot of every field of a legacy specification. */
  datatype LegacyState = LegacyState(
    tableName: string,
    selectClause: string,
    joinClause: string,
    whereClause: string,
    orderBy: string,
    skip: Option<Int32>,
    take: Option<Int32>,
    parameters: map<string, Value>)

  function Initial(): LegacyState {
    LegacyState("", "", "", "", "", None, None, map[])
  }

  class Specification {
    var tableName: string
    var selectClause: string
    var joinClause: string
    var whereClause: string
    var orderBy: string
    var skip: Option<Int32>
    var take: Option<Int32>
    var parameters: map<string, Value>

    function State(): LegacyState
      reads this
    {
      LegacyState(tableName, selectClause, joinClause, whereClause, orderBy, skip, take, parameters)
    }

    constructor ()
      ensures State() == Initial()
    {
      tableName, selectClause, joinClause, whereClause, orderBy := "", "", "", "", "";
      skip, take := None, None;
      parameters := map[];
    }

    /** No check on the clause; the bag changes only when parameters are given. */
    method AddWhere(clause: string, args: Option<seq<Binding>>)
      modifies this
      ensures State() == old(State()).(
        whereClause := Conjoin(old(whereClause), And, clause),
        parameters := if args.Some? then Overlay(old(parameters), args.value)
                      else old(parameters))
    {
      if IsNullOrEmpty(whereClause) {
        whereClause := clause;
      } else {
        whereClause := whereClause + " AND " + clause;
      }
      if args.Some? {
        parameters := MergeParameters(parameters, args.value);
      }
    }

    method AddJoin(clause: string)
      modifies this
      ensures State() == old(State()).(joinClause := JoinAppend(old(joinClause), clause))
    {
      joinClause := joinClause + " " + clause;
    }

    method AddOrder(clause: string)
      modifies this
      ensures State() == old(State()).(orderBy := CommaAppend(old(orderBy), clause))
    {
      orderBy := if IsNullOrWhiteSpace(orderBy) then clause else orderBy + ", " + clause;
    }

    /** Stores both bounds as given: negative values are accepted. */
    method SetPaging(skip: Int32, take: Int32)
      modifies this
      ensures State() == old(State()).(skip := Some(skip), take := Some(take))
    {
      this.skip := Some(skip);
      this.take := Some(take);
    }

    /** Writes each binding of b over a, in order, so the last write to a name wins. */
    method MergeParameters(a: map<string, Value>, b: seq<Binding>) returns (r: map<string, Value>)
      ensures r == Overlay(a, b)
    {
      r := a;
      var i := 0;
      while i < |b|
        invariant 0 <= i <= |b|
        invariant r == Overlay(a, b[..i])
      {
        assert b[..i + 1][..i] == b[..i];
        r := r[b[i].name := b[i].value];
        i := i + 1;
      }
      assert b[..|b|] == b;
    }
  }
}
