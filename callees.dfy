/** The three ready-made service callees: the editor (get, add, change,
    remove a resource), the actuator (get status, turn off, turn on) and the
    sensor (get status). Each routes a call by testing the process URI against
    `namespace + suffix` prefixes in a fixed order; the first match wins. The
    subclass handlers (`executeGet`, `executeAdd`, ...) are unknown functions
    supplied by the caller of the model. */
module Callees {
  import opened Common

  /** The message of the "not implemented" error output. */
  const NOT_IMPLEMENTED := "The service requested has not been implemented in this simple editor callee"

  /** The error output a callee adds for a call it has no branch for. */
  function NotImplemented(ont: Ontology): (o: ProcessOutput)
    ensures o.uri == ont.serviceSpecificErrorURI && o.value == Some(Str(NOT_IMPLEMENTED))
  {
    ProcessOutput(ont.serviceSpecificErrorURI, Some(Str(NOT_IMPLEMENTED)))
  }

  /** Index of the first prefix that `op` starts with, if any: the reference
      definition of "tried in this order, the first match wins". */
  function FirstPrefix(op: string, prefixes: seq<string>): (r: Option<nat>)
    ensures r.Some? ==> r.value < |prefixes| && StartsWith(op, prefixes[r.value])
    ensures r.Some? ==> forall j :: 0 <= j < r.value ==> !StartsWith(op, prefixes[j])
    ensures r.None? <==> forall j :: 0 <= j < |prefixes| ==> !StartsWith(op, prefixes[j])
  {
    if prefixes == [] then None
    else if StartsWith(op, prefixes[0]) then Some(0)
    else match FirstPrefix(op, prefixes[1..])
      case None => None
      case Some(k) => Some(k + 1)
  }

  /** The first match is at `i` when `i` matches and nothing before it does. */
  lemma FirstPrefixAt(op: string, prefixes: seq<string>, i: nat)
    requires i < |prefixes| && StartsWith(op, prefixes[i])
    requires forall j :: 0 <= j < i ==> !StartsWith(op, prefixes[j])
    ensures FirstPrefix(op, prefixes) == Some(i)
  {
  }

  /** What a handler returns: no response at all (null), a response made for
      this call, the callee's one shared error response object, or an
      exception thrown out of it. */
  datatype Reply = NoReply | Fresh(response: Response) | Shared | Raised(error: Exception)

  /** One run of a subclass handler, with its input (if it takes one). */
  datatype Invocation<Op> = Invocation(op: Op, input: Option<Obj>)

  // ---------------------------------------------------------------- editor

  const SERVICE_GET := "servEditorGet"
  const SERVICE_ADD := "servEditorAdd"
  const SERVICE_CHANGE := "servEditorChange"
  const SERVICE_REMOVE := "servEditorRemove"
  const IN_GET := "inputEditorGet"
  const OUT_GET := "outputEditorGet"
  const IN_ADD := "inputEditorAdd"
  const IN_CHANGE := "inputEditorChange"
  const IN_REMOVE := "inputEditorRemove"

  datatype EditorOp = EditorGet | EditorAdd | EditorChange | EditorRemove

  /** The editor's operations in the order they are tried. */
  const EDITOR_ORDER: seq<EditorOp> := [EditorGet, EditorAdd, EditorChange, EditorRemove]

  function EditorService(k: EditorOp): string
  {
    match k
    case EditorGet => SERVICE_GET
    case EditorAdd => SERVICE_ADD
    case EditorChange => SERVICE_CHANGE
    case EditorRemove => SERVICE_REMOVE
  }

  function EditorInput(k: EditorOp): string
  {
    match k
    case EditorGet => IN_GET
    case EditorAdd => IN_ADD
    case EditorChange => IN_CHANGE
    case EditorRemove => IN_REMOVE
  }

  function EditorPrefixes(ns: string): seq<string>
  {
    seq(4, i requires 0 <= i < 4 => ns + EditorService(EDITOR_ORDER[i]))
  }

  /** The operation a process URI is routed to. */
  function EditorRoute(ns: string, op: string): (r: Option<EditorOp>)
    ensures r.Some? ==> StartsWith(op, ns + EditorService(r.value))
    ensures r.None? <==> forall i :: 0 <= i < |EDITOR_ORDER| ==> !StartsWith(op, ns + EditorService(EDITOR_ORDER[i]))
  {
    assert forall i | 0 <= i < |EDITOR_ORDER| :: EditorPrefixes(ns)[i] == ns + EditorService(EDITOR_ORDER[i]);
    match FirstPrefix(op, EditorPrefixes(ns))
    case None => None
    case Some(i) => Some(EDITOR_ORDER[i])
  }

  /** For four prefixes, the first match is the first test of a chain of
      four that succeeds. */
  lemma FirstOfFour(op: string, ps: seq<string>)
    requires |ps| == 4
    ensures StartsWith(op, ps[0]) ==> FirstPrefix(op, ps) == Some(0)
    ensures !StartsWith(op, ps[0]) && StartsWith(op, ps[1]) ==> FirstPrefix(op, ps) == Some(1)
    ensures !StartsWith(op, ps[0]) && !StartsWith(op, ps[1]) && StartsWith(op, ps[2]) ==>
              FirstPrefix(op, ps) == Some(2)
    ensures !StartsWith(op, ps[0]) && !StartsWith(op, ps[1]) && !StartsWith(op, ps[2]) &&
            StartsWith(op, ps[3]) ==>
              FirstPrefix(op, ps) == Some(3)
    ensures !StartsWith(op, ps[0]) && !StartsWith(op, ps[1]) && !StartsWith(op, ps[2]) &&
            !StartsWith(op, ps[3]) ==>
              FirstPrefix(op, ps).None?
  {
    if StartsWith(op, ps[0]) {
      FirstPrefixAt(op, ps, 0);
    } else if StartsWith(op, ps[1]) {
      FirstPrefixAt(op, ps, 1);
    } else if StartsWith(op, ps[2]) {
      FirstPrefixAt(op, ps, 2);
    } else if StartsWith(op, ps[3]) {
      FirstPrefixAt(op, ps, 3);
    }
  }

  lemma EditorPrefixesListed(ns: string)
    ensures var ps := EditorPrefixes(ns);
            |ps| == 4 && ps[0] == ns + SERVICE_GET && ps[1] == ns + SERVICE_ADD &&
            ps[2] == ns + SERVICE_CHANGE && ps[3] == ns + SERVICE_REMOVE
  {
  }

  /** The route as the chain of `startsWith` tests: GET, else ADD, else
      CHANGE, else REMOVE, else nothing. */
  lemma EditorRouteChain(ns: string, op: string)
    ensures StartsWith(op, ns + SERVICE_GET) ==> EditorRoute(ns, op) == Some(EditorGet)
    ensures !StartsWith(op, ns + SERVICE_GET) && StartsWith(op, ns + SERVICE_ADD) ==>
              EditorRoute(ns, op) == Some(EditorAdd)
    ensures !StartsWith(op, ns + SERVICE_GET) && !StartsWith(op, ns + SERVICE_ADD) &&
            StartsWith(op, ns + SERVICE_CHANGE) ==>
              EditorRoute(ns, op) == Some(EditorChange)
    ensures !StartsWith(op, ns + SERVICE_GET) && !StartsWith(op, ns + SERVICE_ADD) &&
            !StartsWith(op, ns + SERVICE_CHANGE) && StartsWith(op, ns + SERVICE_REMOVE) ==>
              EditorRoute(ns, op) == Some(EditorRemove)
    ensures !StartsWith(op, ns + SERVICE_GET) && !StartsWith(op, ns + SERVICE_ADD) &&
            !StartsWith(op, ns + SERVICE_CHANGE) && !StartsWith(op, ns + SERVICE_REMOVE) ==>
              EditorRoute(ns, op).None?
  {
    EditorPrefixesListed(ns);
    FirstOfFour(op, EditorPrefixes(ns));
  }

  /** The subclass handlers: `executeGet` gives a resource (maybe null), the
      other three say whether they succeeded. */
  datatype EditorHandlers = EditorHandlers(
    get: Obj -> Option<Obj>, add: Obj -> bool, change: Obj -> bool, remove: Obj -> bool)

  function Verdict(h: EditorHandlers, k: EditorOp, input: Obj): bool
    requires k != EditorGet
  {
    match k
    case EditorAdd => h.add(input)
    case EditorChange => h.change(input)
    case EditorRemove => h.remove(input)
  }

  datatype EditorOutcome = EditorOutcome(reply: Reply, invoked: seq<Invocation<EditorOp>>)

  /** One matched branch: a missing input gives the shared `ERROR_INPUT`
      without running any handler; a literal input (a string or any other
      datatype) fails the cast to `Resource` before any handler runs;
      otherwise the handler runs once. */
  function EditorBranch(ns: string, c: Call, k: EditorOp, h: EditorHandlers): (out: EditorOutcome)
    ensures InputValue(c, ns + EditorInput(k)).None? ==> out == EditorOutcome(Shared, [])
    ensures out.reply.Raised? <==> InputValue(c, ns + EditorInput(k)).Some? && !InputValue(c, ns + EditorInput(k)).value.Ind?
    ensures out.reply.Raised? ==> out.reply.error == ClassCast && out.invoked == []
    ensures out.invoked != [] <==> out.reply.Fresh?
    ensures out.invoked != [] ==> out.invoked == [Invocation(k, InputValue(c, ns + EditorInput(k)))]
  {
    match InputValue(c, ns + EditorInput(k))
    case None => EditorOutcome(Shared, [])
    case Some(x) =>
      if !x.Ind? then EditorOutcome(Raised(ClassCast), [])
      else if k == EditorGet then
        EditorOutcome(Fresh(Response(Succeeded, [ProcessOutput(ns + OUT_GET, h.get(x))])),
                      [Invocation(k, Some(x))])
      else
        EditorOutcome(Fresh(Response(if Verdict(h, k, x) then Succeeded else ServiceSpecificFailure, [])),
                      [Invocation(k, Some(x))])
  }

  /** `UtilEditorCallee.handleCall`, as the chain of guarded returns it is.
      Its contract ties it to the first-match route. `Shared` stands for the
      static `ERROR_INPUT` response (service-specific failure, no outputs). */
  function EditorHandleCall(ont: Ontology, ns: string, call: Option<Call>, h: EditorHandlers): (out: EditorOutcome)
    ensures call.None? || call.value.processURI.None? ==> out == EditorOutcome(NoReply, [])
    ensures |out.invoked| <= 1
    ensures call.Some? && call.value.processURI.Some? ==>
      var c := call.value;
      var op := c.processURI.value;
      match EditorRoute(ns, op)
      case None =>
        out == EditorOutcome(Fresh(Response(ServiceSpecificFailure, [NotImplemented(ont)])), [])
      case Some(k) =>
        match InputValue(c, ns + EditorInput(k))
        case None => out == EditorOutcome(Shared, [])
        case Some(x) =>
          if !x.Ind? then out == EditorOutcome(Raised(ClassCast), []) else
          && out.invoked == [Invocation(k, Some(x))]
          && out.reply.Fresh?
          && (k == EditorGet ==>
                out.reply.response == Response(Succeeded, [ProcessOutput(ns + OUT_GET, h.get(x))]))
          && (k != EditorGet ==>
                out.reply.response.outputs == [] &&
                (out.reply.response.status == Succeeded <==> Verdict(h, k, x)) &&
                (out.reply.response.status != Succeeded ==> out.reply.response.status == ServiceSpecificFailure))
  {
    if call.None? then EditorOutcome(NoReply, [])
    else if call.value.processURI.None? then EditorOutcome(NoReply, [])
    else
      var c := call.value;
      var op := c.processURI.value;
      EditorRouteChain(ns, op);
      if StartsWith(op, ns + SERVICE_GET) then EditorBranch(ns, c, EditorGet, h)
      else if StartsWith(op, ns + SERVICE_ADD) then EditorBranch(ns, c, EditorAdd, h)
      else if StartsWith(op, ns + SERVICE_CHANGE) then EditorBranch(ns, c, EditorChange, h)
      else if StartsWith(op, ns + SERVICE_REMOVE) then EditorBranch(ns, c, EditorRemove, h)
      else EditorOutcome(Fresh(Response(ServiceSpecificFailure, [NotImplemented(ont)])), [])
  }

  // -------------------------------------------------------------- actuator

  const SERVICE_GET_ON_OFF := "servActuatorGet"
  const OUT_GET_ON_OFF := "outputActuatorGet"
  const SERVICE_TURN_OFF := "servActuatorOff"
  const SERVICE_TURN_ON := "servActuatorOn"

  datatype ActuatorOp = ActuatorGet | TurnOff | TurnOn

  const ACTUATOR_ORDER: seq<ActuatorOp> := [ActuatorGet, TurnOff, TurnOn]

  function ActuatorPrefixes(ns: string): seq<string>
  {
    [ns + SERVICE_GET_ON_OFF, ns + SERVICE_TURN_OFF, ns + SERVICE_TURN_ON]
  }

  function ActuatorRoute(ns: string, op: string): (r: Option<ActuatorOp>)
    ensures r == Some(ActuatorGet) <==> StartsWith(op, ns + SERVICE_GET_ON_OFF)
    ensures r == Some(TurnOff) <==> !StartsWith(op, ns + SERVICE_GET_ON_OFF) && StartsWith(op, ns + SERVICE_TURN_OFF)
    ensures r == Some(TurnOn) <==>
              !StartsWith(op, ns + SERVICE_GET_ON_OFF) && !StartsWith(op, ns + SERVICE_TURN_OFF) &&
              StartsWith(op, ns + SERVICE_TURN_ON)
  {
    assert ACTUATOR_ORDER[0] == ActuatorGet && ACTUATOR_ORDER[1] == TurnOff && ACTUATOR_ORDER[2] == TurnOn;
    var ps := ActuatorPrefixes(ns);
    assert |ps| == 3 && ps[0] == ns + SERVICE_GET_ON_OFF && ps[1] == ns + SERVICE_TURN_OFF && ps[2] == ns + SERVICE_TURN_ON;
    match FirstPrefix(op, ps)
    case None => None
    case Some(i) => Some(ACTUATOR_ORDER[i])
  }

  /** What `executeGet`, `executeOff` and `executeOn` would answer. */
  datatype SwitchHandlers = SwitchHandlers(get: bool, off: bool, on: bool)

  /** The status output of a GET branch. */
  function StatusOutput(ont: Ontology, outURI: string, on: bool): (o: ProcessOutput)
    ensures o.uri == outURI
    ensures o.value == Some(if on then ont.activated else ont.notActivated)
  {
    ProcessOutput(outURI, Some(if on then ont.activated else ont.notActivated))
  }

  /** One handled call: the reply, the handler that ran, and the outputs
      appended to the shared error response. */
  datatype SwitchOutcome<Op> = SwitchOutcome(reply: Reply, invoked: Option<Op>, appended: seq<ProcessOutput>)

  /** `UtilActuatorCallee.handleCall` as written. `Shared` is the callee's
      one `errorResponse` object; a call that matches nothing first appends
      one more error output to it. */
  function ActuatorStep(ont: Ontology, ns: string, call: Option<Call>, h: SwitchHandlers): (out: SwitchOutcome<ActuatorOp>)
    ensures call.None? || call.value.processURI.None? ==> out == SwitchOutcome(NoReply, None, [])
    ensures out.reply == Shared <==>
              call.Some? && call.value.processURI.Some? &&
              (out.invoked.None? || (out.invoked == Some(TurnOff) && !h.off) || (out.invoked == Some(TurnOn) && !h.on))
    ensures call.Some? && call.value.processURI.Some? ==>
      match ActuatorRoute(ns, call.value.processURI.value)
      case None => out == SwitchOutcome(Shared, None, [NotImplemented(ont)])
      case Some(ActuatorGet) =>
        out == SwitchOutcome(Fresh(Response(Succeeded, [StatusOutput(ont, ns + OUT_GET_ON_OFF, h.get)])),
                             Some(ActuatorGet), [])
      case Some(TurnOff) =>
        out == SwitchOutcome(if h.off then Fresh(Response(Succeeded, [])) else Shared, Some(TurnOff), [])
      case Some(TurnOn) =>
        out == SwitchOutcome(if h.on then Fresh(Response(Succeeded, [])) else Shared, Some(TurnOn), [])
  {
    if call.None? || call.value.processURI.None? then SwitchOutcome(NoReply, None, [])
    else
      var op := call.value.processURI.value;
      var ps := ActuatorPrefixes(ns);
      if StartsWith(op, ns + SERVICE_GET_ON_OFF) then
        FirstPrefixAt(op, ps, 0);
        SwitchOutcome(Fresh(Response(Succeeded, [StatusOutput(ont, ns + OUT_GET_ON_OFF, h.get)])),
                      Some(ActuatorGet), [])
      else if StartsWith(op, ns + SERVICE_TURN_OFF) then
        FirstPrefixAt(op, ps, 1);
        SwitchOutcome(if h.off then Fresh(Response(Succeeded, [])) else Shared, Some(TurnOff), [])
      else if StartsWith(op, ns + SERVICE_TURN_ON) then
        FirstPrefixAt(op, ps, 2);
        SwitchOutcome(if h.on then Fresh(Response(Succeeded, [])) else Shared, Some(TurnOn), [])
      else
        SwitchOutcome(Shared, None, [NotImplemented(ont)])
  }

  class ActuatorCallee {
    const namespace: string
    /** The outputs of the shared `errorResponse` (a service-specific failure). */
    var errorOutputs: seq<ProcessOutput>

    constructor (namespace: string)
      ensures this.namespace == namespace && errorOutputs == []
    {
      this.namespace := namespace;
      errorOutputs := [];
    }

    /** The shared error response as it stands now. */
    function ErrorResponse(): Response
      reads this
    {
      Response(ServiceSpecificFailure, errorOutputs)
    }

    method HandleCall(ont: Ontology, call: Option<Call>, h: SwitchHandlers)
      returns (reply: Reply, invoked: Option<ActuatorOp>)
      modifies this
      ensures var out := ActuatorStep(ont, namespace, call, h);
              reply == out.reply && invoked == out.invoked &&
              errorOutputs == old(errorOutputs) + out.appended
    {
      var out := ActuatorStep(ont, namespace, call, h);
      reply, invoked := out.reply, out.invoked;
      errorOutputs := errorOutputs + out.appended;
    }
  }

  /** The shared error outputs after a sequence of calls. */
  function ActuatorRun(ont: Ontology, ns: string, outs: seq<ProcessOutput>,
                       calls: seq<Option<Call>>, hs: seq<SwitchHandlers>): seq<ProcessOutput>
    requires |calls| == |hs|
    decreases |calls|
  {
    if calls == [] then outs
    else ActuatorRun(ont, ns, outs + ActuatorStep(ont, ns, calls[0], hs[0]).appended, calls[1..], hs[1..])
  }

  /** The error outputs only ever grow: one per call that matches nothing,
      never removed, so a later failed ON or OFF returns them all. */
  lemma {:induction false} ActuatorErrorsAccumulate(ont: Ontology, ns: string, outs: seq<ProcessOutput>,
                                                    calls: seq<Option<Call>>, hs: seq<SwitchHandlers>)
    requires |calls| == |hs|
    requires forall i :: 0 <= i < |calls| ==>
               calls[i].Some? && calls[i].value.processURI.Some? &&
               ActuatorRoute(ns, calls[i].value.processURI.value).None?
    ensures ActuatorRun(ont, ns, outs, calls, hs) == outs + seq(|calls|, _ => NotImplemented(ont))
    decreases |calls|
  {
    if calls != [] {
      ActuatorErrorsAccumulate(ont, ns, outs + [NotImplemented(ont)], calls[1..], hs[1..]);
      assert outs + [NotImplemented(ont)] + seq(|calls| - 1, _ => NotImplemented(ont))
          == outs + seq(|calls|, _ => NotImplemented(ont));
    }
  }

  // ---------------------------------------------------------------- sensor

  const SERVICE_SENSOR_GET := "servSensorGet"
  const OUT_SENSOR_GET := "outputSensorGet"

  datatype SensorOp = SensorGet

  /** `UtilSensorCallee.handleCall`: GET or the shared error response. */
  function SensorStep(ont: Ontology, ns: string, call: Option<Call>, get: bool): (out: SwitchOutcome<SensorOp>)
    ensures call.None? || call.value.processURI.None? ==> out == SwitchOutcome(NoReply, None, [])
    ensures out.invoked.Some? <==>
              call.Some? && call.value.processURI.Some? &&
              StartsWith(call.value.processURI.value, ns + SERVICE_SENSOR_GET)
    ensures out.invoked.Some? ==>
              out == SwitchOutcome(Fresh(Response(Succeeded, [StatusOutput(ont, ns + OUT_SENSOR_GET, get)])),
                                   Some(SensorGet), [])
    ensures out.invoked.None? && call.Some? && call.value.processURI.Some? ==>
              out == SwitchOutcome(Shared, None, [NotImplemented(ont)])
  {
    if call.None? || call.value.processURI.None? then SwitchOutcome(NoReply, None, [])
    else if StartsWith(call.value.processURI.value, ns + SERVICE_SENSOR_GET) then
      SwitchOutcome(Fresh(Response(Succeeded, [StatusOutput(ont, ns + OUT_SENSOR_GET, get)])), Some(SensorGet), [])
    else
      SwitchOutcome(Shared, None, [NotImplemented(ont)])
  }

  class SensorCallee {
    const namespace: string
    /** The outputs of the shared `errorResponse` (a service-specific failure). */
    var errorOutputs: seq<ProcessOutput>

    constructor (namespace: string)
      ensures this.namespace == namespace && errorOutputs == []
    {
      this.namespace := namespace;
      errorOutputs := [];
    }

    function ErrorResponse(): Response
      reads this
    {
      Response(ServiceSpecificFailure, errorOutputs)
    }

    method HandleCall(ont: Ontology, call: Option<Call>, get: bool)
      returns (reply: Reply, invoked: Option<SensorOp>)
      modifies this
      ensures var out := SensorStep(ont, namespace, call, get);
              reply == out.reply && invoked == out.invoked &&
              errorOutputs == old(errorOutputs) + out.appended
    {
      var out := SensorStep(ont, namespace, call, get);
      reply, invoked := out.reply, out.invoked;
      errorOutputs := errorOutputs + out.appended;
    }
  }
}
