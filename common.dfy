/** Values shared by every part of the model: Java's null as `Option`, Java
    exceptions as `Result`, the middleware's objects as opaque tokens, and the
    middleware's own predicates as function-valued fields of `Ontology`. */
module Common {

  datatype Option<+T> = None | Some(value: T)

  /** Java's `int`. */
  newtype int32 = x: int | -0x8000_0000 <= x < 0x8000_0000

  /** The Java exceptions that the modelled code lets escape. */
  datatype Exception =
    | NullPointer
    | IndexOutOfBounds
    | UnsupportedOperation
    | ClassCast
    | BadFiltering

  /** A Java call either returns a value or throws. */
  datatype Result<+T> = Ok(value: T) | Thrown(error: Exception)

  /** A non-null Java object as the middleware sees it: a string, a literal
      of another datatype (a boxed number or boolean, say), or a resource
      (an individual of the ontology); the last two are identified only by a
      token. */
  datatype Obj = Str(text: string) | Lit(id: nat) | Ind(id: nat)

  /** The middleware's predicates and factories that the helper code calls but
      does not define. Each is a fixed, otherwise unknown function. */
  datatype Ontology = Ontology(
    // Resource.isQualifiedName
    isQualifiedName: string -> bool,
    // Resource.getResource(typeURI, anonURI): a fresh instance of a known class, or null
    getResource: string -> Option<Obj>,
    // TypeMapper.isRegisteredDatatypeURI
    isRegisteredDatatype: string -> bool,
    // Value.createEmptyInstance: null when the reflective construction fails
    emptyInstance: string -> Option<Obj>,
    // ManagedIndividual.getTypeURI, defined on null as well
    typeURIOf: Option<Obj> -> Option<string>,
    // TypeMapper.getDatatypeURI(String.class)
    stringDatatypeURI: string,
    // ServiceResponse.PROP_SERVICE_SPECIFIC_ERROR
    serviceSpecificErrorURI: string,
    // StatusValue.Activated and StatusValue.NotActivated
    activated: Obj,
    notActivated: Obj
  )

  lemma AppendAssociates<T>(a: seq<T>, b: seq<T>, c: seq<T>)
    ensures a + (b + c) == (a + b) + c
  {
  }

  predicate StartsWith(s: string, prefix: string)
  {
    |prefix| <= |s| && s[..|prefix|] == prefix
  }

  /** `part` occurs in `s` starting at index `i`. */
  predicate OccursAt(s: string, part: string, i: int)
  {
    0 <= i && i + |part| <= |s| && s[i..i + |part|] == part
  }

  /** Java's String.contains. */
  predicate Contains(s: string, part: string)
  {
    exists i | 0 <= i <= |s| :: OccursAt(s, part, i)
  }

  /** Status of a service call, as the service bus reports it. */
  datatype CallStatus = Succeeded | ServiceSpecificFailure | OtherFailure(name: string)

  /** One output of a service response: a property URI and its value (maybe null). */
  datatype ProcessOutput = ProcessOutput(uri: string, value: Option<Obj>)

  /** A service response built by a callee: status and outputs, in order. */
  datatype Response = Response(status: CallStatus, outputs: seq<ProcessOutput>)

  /** A service call as a callee receives it: the process URI (maybe null)
      and the input values by URI (a missing key reads as null). */
  datatype Call = Call(processURI: Option<string>, inputs: map<string, Obj>, involvedUser: Option<Obj>)

  function InputValue(c: Call, uri: string): (v: Option<Obj>)
    ensures v.Some? <==> uri in c.inputs
    ensures v.Some? ==> v.value == c.inputs[uri]
  {
    if uri in c.inputs then Some(c.inputs[uri]) else None
  }
}
