/**
 * Parameter objects as reflection sees them. An object passed as query
 * parameters is the list of its public properties, in the order reflection
 * returns them; a property value is opaque to the core.
 */
module Parameters {

  datatype Value = Null | Text(s: string) | Number(n: int) | Flag(b: bool)

  /** A public property: an ordinary one, or an indexer (a property with index parameters). */
  datatype PropertyInfo = Property(name: string, value: Value) | Indexer(name: string)

  /** One named parameter in a parameter bag. */
  datatype Binding = Binding(name: string, value: Value)

  /**
   * The properties without index parameters, as (name, value) bindings, in
   * order: the ones a parameter merge reads.
   */
  function Readable(props: seq<PropertyInfo>): (r: seq<Binding>)
    ensures |r| <= |props|
    ensures forall i :: 0 <= i < |r| ==> Property(r[i].name, r[i].value) in props
    ensures forall i :: 0 <= i < |props| && props[i].Property? ==>
      Binding(props[i].name, props[i].value) in r
  {
    if props == [] then []
    else
      var last := props[|props| - 1];
      Readable(props[..|props| - 1]) + (if last.Property? then [Binding(last.name, last.value)] else [])
  }
}
