/** The simplified service request: recovering outputs from a response, and
    the `Path` overloads of `put`, which only hand the path's array to the
    array overloads. What the array overloads do on the request is middleware
    work; the model records each such call, in order. */
module Requests {
  import opened Common
  import opened PropertyPaths

  /** A service response as the bus delivers it: its call status, and the
      bus's lookup of the outputs for an output URI (null when there are none). */
  datatype ServiceResponse = ServiceResponse(status: CallStatus, getOutput: string -> Option<seq<Obj>>)

  /** The `Output` argument: only its URI matters here. */
  datatype Output = Output(uri: string)

  /** The decision `recoverOutputs` takes: the outputs, in order, when the
      call succeeded and at least one output came back; null otherwise. */
  function Recover(status: CallStatus, outs: Option<seq<Obj>>): (r: Option<seq<Obj>>)
    ensures status != Succeeded ==> r.None?
    ensures outs.None? ==> r.None?
    ensures outs.Some? && outs.value == [] ==> r.None?
    ensures r.Some? <==> status == Succeeded && outs.Some? && outs.value != []
    ensures r.Some? ==> |r.value| == |outs.value| &&
                        forall i :: 0 <= i < |r.value| ==> r.value[i] == outs.value[i]
  {
    if status == Succeeded && outs.Some? && outs.value != [] then outs else None
  }

  /** `recoverOutputs(sr, outputURI)`. */
  function RecoverOutputs(sr: ServiceResponse, outputURI: string): (r: Option<seq<Obj>>)
    ensures r == Recover(sr.status, sr.getOutput(outputURI))
  {
    if sr.status == Succeeded then Recover(sr.status, sr.getOutput(outputURI)) else None
  }

  /** `recoverOutputs(sr, output)`: the URI overload on the output's URI. */
  function RecoverOutputsOf(sr: ServiceResponse, output: Output): (r: Option<seq<Obj>>)
    ensures r == RecoverOutputs(sr, output.uri)
  {
    RecoverOutputs(sr, output.uri)
  }

  /** The kinds of leaf argument `put` accepts. */
  datatype Leaf =
    | TypematchLeaf(typeURI: string)
    | VariableLeaf(value: Option<Obj>)
    | OutputLeaf(output: Output)
    | AddLeaf(value: Option<Obj>)
    | RemoveLeaf(value: Option<Obj>)
    | ChangeLeaf(value: Option<Obj>)

  /** One call of an array overload of `put`: the branch and the leaf. */
  datatype Put = Put(branch: seq<string>, leaf: Leaf)

  class Request {
    /** The array-overload calls made on this request so far, in order. */
    var puts: seq<Put>

    constructor ()
      ensures puts == []
    {
      puts := [];
    }

    /** `put(String[] branch, X leaf)`: the middleware effect it has is not
        modelled, only that it happened with this branch and leaf. */
    method PutBranch(branch: array<string>, leaf: Leaf)
      modifies this
      ensures puts == old(puts) + [Put(branch[..], leaf)]
    {
      puts := puts + [Put(branch[..], leaf)];
    }

    /** `put(Path branch, X leaf)` for every leaf kind: exactly the array
        overload on the path's current array. */
    method PutPath(branch: Path, leaf: Leaf)
      modifies this
      ensures puts == old(puts) + [Put(old(branch.path[..]), leaf)]
      ensures branch.path == old(branch.path)
    {
      PutBranch(branch.path, leaf);
    }

    /** The input table is never exposed. */
    function GetInput(): (table: Option<map<string, Obj>>)
      ensures table.None?
    {
      None
    }
  }
}
