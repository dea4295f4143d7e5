# universAAL utilities: a verified model of the helper core

The universAAL utilities are convenience layers over the universAAL
middleware. They cover context events, service calls, UI forms and shared
objects. Most of their code hands parameter objects to the middleware. This
project models the parts that carry logic of their own:

- **Property paths** (`PropertyPaths`): the fluent `Path` builder, whose `to`
  grows an array in place and returns the same builder.
- **Request and profile arguments** (`Arguments`): `Variable`, `Remove` and
  `Change`. Their string constructor sorts a string three ways: a resolvable
  class, a registered datatype, or a plain string taken by value.
- **Requests** (`Requests`): `recoverOutputs`, the `Path` overloads of `put`,
  and `getInput`.
- **Ready-made callees** (`Callees`): the editor, actuator and sensor
  `handleCall` dispatch, by first matching process-URI prefix. This includes
  the actuator's and sensor's one shared `errorResponse`, which keeps
  collecting error outputs.
- **Context descriptors** (`ContextPatterns`, `Providers`): which
  restrictions a `Pattern` gets, and how a `Provider` defaults its type.
- **The `UAAL` helper** (`Helper`): lazily created publisher, caller and
  requester; lists of subscribers and callees; `terminate`. The publisher's
  provider is chosen from the first event.
- **UI controls** (`Controls`, `Selects`, `Tables`, `Ranges`, `Commands`):
  `Control`, `SelectMulti`, `SelectOne`, `DataTable`, `SelectRange`,
  `SubmitCmd` and `TriggerCmd`. Each keeps its state and builds its
  middleware form control in `create`.
- **Main-menu update** (`Menus`): the UI caller adds its application's entry
  to every main-menu file that lacks it. Also the start service of the UI
  caller.
- **Dependency proxies** (`Dependencies`): the passive proxy, which follows
  the container's notifications, and the lazily fetching null-pointer proxy.

How the model represents the code:

- Java `null` is `Option.None`. An escaping exception is `Result.Thrown`.
- Middleware objects are opaque `Obj` tokens.
- Middleware predicates and factories are function-valued fields of
  `Common.Ontology`, or method parameters. Examples: `isQualifiedName`,
  `getResource`, `TypeMapper` and `getTypeURI`.
- Other outside inputs are also parameters:
  - the unique-ID generator;
  - the `execute*` handlers a subclass supplies;
  - the container's `fetchSharedObject`;
  - the service bus.
- Classes whose methods update fields are Dafny classes with `modifies`
  clauses.
- Java inheritance is composition:
  - every control holds its `Control` part as `ctrl`;
  - `SelectOne` holds a `SelectMulti`;
  - `TriggerCmd` holds a `SubmitCmd`.
- Stateful classes such as `UAAL` and the passive proxy are specified by
  functions of the old state (`AfterSendC`, `AfterAdded`, ...). The lemmas
  about those functions state what the sequence of operations guarantees.
- The argument getters (`GetObject`, `GetURI`, `ByURI`) and
  `SelectMulti.GetInitialIndex` only return a field. Their behaviour is
  stated by the constructors' and setters' contracts.

## Model

| member | source | states |
|---|---|---|
| PropertyPaths.Path.constructor | utilities.api/src/main/java/org/universAAL/utilities/api/service/Path.java:59-61 | `new Path(p)` is the one-element path `[p]` in a fresh array |
| PropertyPaths.Path.FromArray | utilities.api/src/main/java/org/universAAL/utilities/api/service/Path.java:71-73 | `new Path(String[])` keeps the caller's array itself, not a copy |
| PropertyPaths.Path.At | utilities.api/src/main/java/org/universAAL/utilities/api/service/Path.java:94-96 | `at(p)` gives a new one-element path `[p]` |
| PropertyPaths.Path.Start | utilities.api/src/main/java/org/universAAL/utilities/api/service/Path.java:83-85 | `start(p)` gives a new one-element path `[p]` |
| PropertyPaths.Path.Parse | utilities.api/src/main/java/org/universAAL/utilities/api/service/Path.java:124-126 | `parse(String[])` gives a new builder over the caller's array itself |
| PropertyPaths.Path.ParseOne | utilities.api/src/main/java/org/universAAL/utilities/api/service/Path.java:135-137 | `parse(String)` gives a new one-element path |
| PropertyPaths.Path.To | utilities.api/src/main/java/org/universAAL/utilities/api/service/Path.java:107-115 | `to(x)` returns the same builder, whose array is a fresh one. That array is the old elements at their old indices followed by `x` |
| PropertyPaths.ChainTwo | utilities.api/src/main/java/org/universAAL/utilities/api/service/Path.java:107-126 | `parse(a).to(x).to(y)` is `a + [x, y]`, and the caller's array `a` is not the builder's array afterwards |
| Arguments.FromValue | uAAL.utils/src/main/java/org/universAAL/support/utils/service/Variable.java:56-60 | the by-value fields: not by URI, the value as given, and the value's type URI |
| Arguments.FromTypeURI | uAAL.utils/src/main/java/org/universAAL/support/utils/service/Variable.java:73-88 | the string case split, case by case: a resolvable class, a registered datatype's empty instance (both by URI with the string as URI), or a String by value with the String datatype URI. It is by URI iff the string is not plain |
| Arguments.CaseOf | uAAL.utils/src/main/java/org/universAAL/support/utils/service/Variable.java:76-87 | the three cases of the string constructor: a resolved resource, else a registered datatype, else a plain string, each exactly when its guard holds |
| Arguments.PlainStringIsByValue | uAAL.utils/src/main/java/org/universAAL/support/utils/service/Variable.java:81-86 | a plain string gives exactly the fields of the by-value constructor on that String |
| Arguments.ByURIMeansKnown | uAAL.utils/src/main/java/org/universAAL/support/utils/service/Variable.java:74-87 | by URI iff the ontology resolves the string or registers it as a datatype, and then the URI is the string |
| Arguments.Variable.ByValue | uAAL.utils/src/main/java/org/universAAL/support/utils/service/Variable.java:56-60 | the fields are `FromValue` of the argument |
| Arguments.Variable.constructor | uAAL.utils/src/main/java/org/universAAL/support/utils/service/Variable.java:73-88 | the step-by-step field assignments end in `FromTypeURI` of the string |
| Arguments.Remove.ByValue | uAAL.utils/src/main/java/org/universAAL/support/utils/service/Remove.java:52-56 | the fields are `FromValue` of the argument |
| Arguments.Remove.constructor | uAAL.utils/src/main/java/org/universAAL/support/utils/service/Remove.java:68-83 | the fields are `FromTypeURI` of the string |
| Arguments.Change.ByValue | utilities.api/src/main/java/org/universAAL/utilities/api/service/Change.java:54-58 | the fields are `FromValue` of the argument |
| Arguments.Change.constructor | utilities.api/src/main/java/org/universAAL/utilities/api/service/Change.java:70-84 | the fields are `FromTypeURI` of the string |
| Requests.Recover | uAAL.utils/src/main/java/org/universAAL/support/utils/service/low/Request.java:334-355 | null unless the call succeeded with a non-null, non-empty output list (both directions). Otherwise the outputs, same length and order |
| Requests.RecoverOutputs | uAAL.utils/src/main/java/org/universAAL/support/utils/service/low/Request.java:334-355 | `recoverOutputs(sr, uri)` is the decision on the response's status and its outputs for that URI |
| Requests.RecoverOutputsOf | uAAL.utils/src/main/java/org/universAAL/support/utils/service/low/Request.java:311-314 | the `Output` overload equals the URI overload on the output's URI |
| Requests.Request.PutBranch | uAAL.utils/src/main/java/org/universAAL/support/utils/service/low/Request.java:102-114 | one array-overload `put` is recorded with the branch's contents and the leaf |
| Requests.Request.constructor | uAAL.utils/src/main/java/org/universAAL/support/utils/service/low/Request.java:81-83 | a new request has no recorded `put` |
| Requests.Request.PutPath | uAAL.utils/src/main/java/org/universAAL/support/utils/service/low/Request.java:116-118 | `put(Path, leaf)` is exactly the array overload on the path's current array, for every leaf kind, and leaves the path alone |
| Requests.Request.GetInput | uAAL.utils/src/main/java/org/universAAL/support/utils/service/low/Request.java:362-364 | always null |
| Callees.FirstPrefix | uAAL.utils/src/main/java/org/universAAL/support/utils/service/top/UtilEditorCallee.java:96-142 | the first prefix, in order, that the operation starts with: it matches and none before it does. None iff no prefix matches |
| Callees.FirstPrefixAt | uAAL.utils/src/main/java/org/universAAL/support/utils/service/top/UtilEditorCallee.java:96-142 | a matching index with no earlier match is the first match |
| Callees.FirstOfFour | uAAL.utils/src/main/java/org/universAAL/support/utils/service/top/UtilEditorCallee.java:96-142 | with four prefixes, the first match is the first of four successive tests that succeeds, and there is none when all four fail |
| Callees.EditorPrefixesListed | uAAL.utils/src/main/java/org/universAAL/support/utils/service/top/UtilEditorCallee.java:96-142 | the editor's prefixes are, in order, `namespace` followed by the GET, ADD, CHANGE and REMOVE service names |
| Callees.EditorRouteChain | uAAL.utils/src/main/java/org/universAAL/support/utils/service/top/UtilEditorCallee.java:96-142 | routing by first match equals the `startsWith` chain of the handler: GET, else ADD, else CHANGE, else REMOVE, else nothing |
| Callees.EditorRoute | uAAL.utils/src/main/java/org/universAAL/support/utils/service/top/UtilEditorCallee.java:96-142 | a routed operation's service name prefixes the URI, and there is no route iff none of the four does |
| Callees.EditorBranch | uAAL.utils/src/main/java/org/universAAL/support/utils/service/top/UtilEditorCallee.java:97-141 | A missing input gives the shared `ERROR_INPUT`. A literal input (a String or a literal of any other datatype) throws ClassCastException and runs nothing; only a resource reaches a handler. Otherwise exactly one handler runs on the input and the reply is fresh |
| Callees.EditorHandleCall | uAAL.utils/src/main/java/org/universAAL/support/utils/service/top/UtilEditorCallee.java:88-147 | Routing: null for a null call or URI. Otherwise the first matching operation in the order GET, ADD, CHANGE, REMOVE runs. A missing input gives the shared `ERROR_INPUT` with no handler run. A literal input, String or otherwise, fails the cast to `Resource` with ClassCastException, with no handler run. GET succeeds with one output holding `executeGet`'s result. The others succeed iff their handler does, with no outputs. An unmatched call fails with the not-implemented output. At most one handler runs |
| Callees.NotImplemented | uAAL.utils/src/main/java/org/universAAL/support/utils/service/top/UtilEditorCallee.java:144-146 | the error output is under the service-specific-error property and carries the fixed message |
| Callees.ActuatorStep | utilities.api/src/main/java/org/universAAL/utilities/api/service/top/UtilActuatorCallee.java:90-126 | Routing: null for a null call or URI. Otherwise the first match in the order GET, OFF, ON. GET succeeds with Activated or NotActivated after `executeGet`. OFF or ON succeeds iff its handler does. The shared error response is returned exactly for an unmatched call and for a failed OFF or ON, and an unmatched call first appends one error output to it |
| Callees.ActuatorRoute | utilities.api/src/main/java/org/universAAL/utilities/api/service/top/UtilActuatorCallee.java:98-121 | GET iff its prefix matches. OFF iff GET's does not and OFF's does. ON iff neither earlier one does and ON's does |
| Callees.StatusOutput | utilities.api/src/main/java/org/universAAL/utilities/api/service/top/UtilActuatorCallee.java:101-102 | the GET output is under the output URI and reports Activated when the handler says on, NotActivated otherwise |
| Callees.ActuatorCallee.HandleCall | utilities.api/src/main/java/org/universAAL/utilities/api/service/top/UtilActuatorCallee.java:56-126 | the reply is that of `ActuatorStep`, and the shared response's outputs grow by what that step appends |
| Callees.ActuatorCallee.constructor | utilities.api/src/main/java/org/universAAL/utilities/api/service/top/UtilActuatorCallee.java:56 | the shared error response starts with no outputs |
| Callees.ActuatorErrorsAccumulate | utilities.api/src/main/java/org/universAAL/utilities/api/service/top/UtilActuatorCallee.java:123-125 | after n unmatched calls the shared response holds n more error outputs. None is ever removed |
| Callees.SensorStep | uAAL.utils/src/main/java/org/universAAL/support/utils/service/top/UtilSensorCallee.java:90-113 | Routing: null for a null call or URI. GET, and only GET, runs `executeGet` and succeeds with the status output. Any other call appends one error output to the shared response and returns it |
| Callees.SensorCallee.HandleCall | uAAL.utils/src/main/java/org/universAAL/support/utils/service/top/UtilSensorCallee.java:56-113 | the reply is that of `SensorStep`, and the shared response's outputs grow by what it appends |
| Callees.SensorCallee.constructor | uAAL.utils/src/main/java/org/universAAL/support/utils/service/top/UtilSensorCallee.java:56-57 | the shared error response starts with no outputs |
| ContextPatterns.TermRestriction | uAAL.utils/src/main/java/org/universAAL/support/utils/context/Pattern.java:131-137 | A subject or object argument adds a restriction iff it is non-null and valid. A type URI must be qualified and adds an all-values restriction. An instance's type URI must be non-null and qualified, and it adds a fixed-value restriction |
| ContextPatterns.PredicateRestriction | uAAL.utils/src/main/java/org/universAAL/support/utils/context/Pattern.java:82-89 | a predicate adds a fixed-value restriction on the predicate iff it is non-null and qualified |
| ContextPatterns.AtMostThreeInSlotOrder | uAAL.utils/src/main/java/org/universAAL/support/utils/context/Pattern.java:196-222 | at most three restrictions, strictly in slot order subject, predicate, object |
| ContextPatterns.SlotRestrictedIffValid | uAAL.utils/src/main/java/org/universAAL/support/utils/context/Pattern.java:72-98 | each slot is restricted iff its argument is non-null and valid. All-null arguments give an unrestricted pattern |
| ContextPatterns.Pattern.constructor | uAAL.utils/src/main/java/org/universAAL/support/utils/context/Pattern.java:196-222 | the three guarded steps add exactly the restrictions above, in order |
| ContextPatterns.Pattern.AddRestriction | uAAL.utils/src/main/java/org/universAAL/support/utils/context/Pattern.java:201 | one restriction is appended |
| Providers.TypeOrGauge | utilities.api/src/main/java/org/universAAL/utilities/api/context/low/Provider.java:72 | a null type becomes gauge, and any other type is kept |
| Providers.NewProvider | utilities.api/src/main/java/org/universAAL/utilities/api/context/low/Provider.java:53-57 | `Provider(uri)` is a gauge with one unrestricted event pattern |
| Providers.ProviderOfType | utilities.api/src/main/java/org/universAAL/utilities/api/context/low/Provider.java:70-74 | the type or gauge, with one unrestricted event pattern |
| Providers.ProviderWithEvents | utilities.api/src/main/java/org/universAAL/utilities/api/context/low/Provider.java:89-93 | the type or gauge, with the events array kept as given, null included |
| Providers.ProviderWithPattern | utilities.api/src/main/java/org/universAAL/utilities/api/context/low/Provider.java:115-145 | the type or gauge, with exactly one pattern built by the pattern rules from the three arguments |
| Providers.ConstructorsAgree | utilities.api/src/main/java/org/universAAL/utilities/api/context/low/Provider.java:53-119 | The constructors agree where their arguments overlap. A null type is the one-argument gauge. Three null pattern arguments give the unrestricted pattern |
| Providers.TypeDefaultsToGauge | utilities.api/src/main/java/org/universAAL/utilities/api/context/low/Provider.java:72-143 | only an explicit non-null type makes a provider anything but a gauge |
| Helper.ChosenProvider | uAAL.utils/src/main/java/org/universAAL/support/utils/UAAL.java:175-200 | The first publisher's provider comes from the event's provider information. With no provider it uses the fixed default URI. Without a type it is a controller iff callees are provided, else a gauge. Explicit events are kept only when a type is given too |
| Helper.Providing | uAAL.utils/src/main/java/org/universAAL/support/utils/UAAL.java:190-191 | services are provided iff the callee list holds one, a null list holding none |
| Helper.AfterSendC | uAAL.utils/src/main/java/org/universAAL/support/utils/UAAL.java:165-203 | The publisher is created only when absent, and kept otherwise. The event is published without its provider property. Nothing else changes |
| Helper.AfterCallS | uAAL.utils/src/main/java/org/universAAL/support/utils/UAAL.java:223-228 | the caller exists afterwards and is created only if absent |
| Helper.AfterRequestUI | uAAL.utils/src/main/java/org/universAAL/support/utils/UAAL.java:259-265 | one requester, created only if absent, whose listener is replaced before the request is sent |
| Helper.AfterSubscribeC | uAAL.utils/src/main/java/org/universAAL/support/utils/UAAL.java:295-300 | exactly one new subscriber is appended, and the list is created if null |
| Helper.AfterProvideS | uAAL.utils/src/main/java/org/universAAL/support/utils/UAAL.java:329-334 | exactly one new callee is appended, and the list is created if null |
| Helper.AfterTerminate | uAAL.utils/src/main/java/org/universAAL/support/utils/UAAL.java:343-374 | every held wrapper is closed, in field and list order, and every resource field is null again |
| Helper.SubscriberWrappers | uAAL.utils/src/main/java/org/universAAL/support/utils/UAAL.java:357-363 | one subscriber wrapper per list element, in order |
| Helper.CalleeWrappers | uAAL.utils/src/main/java/org/universAAL/support/utils/UAAL.java:366-372 | one callee wrapper per list element, in order |
| Helper.ProviderFixedOnFirstSend | uAAL.utils/src/main/java/org/universAAL/support/utils/UAAL.java:175-202 | the publisher chosen by the first `sendC` publishes every later event, even after services are provided |
| Helper.DefaultProviderFollowsServices | uAAL.utils/src/main/java/org/universAAL/support/utils/UAAL.java:190-199 | On a fresh helper an event without a provider goes out through the default gauge. After `provideS` it goes out through the default controller |
| Helper.PublishedEventsHaveNoProvider | uAAL.utils/src/main/java/org/universAAL/support/utils/UAAL.java:167-173 | no published event carries a provider property |
| Helper.TerminateRecreates | uAAL.utils/src/main/java/org/universAAL/support/utils/UAAL.java:336-374 | After `terminate` the helper is a fresh one apart from its logs, and the next `sendC` or `callS` creates a new wrapper |
| Helper.SubscriberWrappersIn | uAAL.utils/src/main/java/org/universAAL/support/utils/UAAL.java:357-363 | a wrapper is among the subscriber wrappers iff it wraps a listed subscriber |
| Helper.CalleeWrappersIn | uAAL.utils/src/main/java/org/universAAL/support/utils/UAAL.java:366-372 | a wrapper is among the callee wrappers iff it wraps a listed callee |
| Helper.HeldIn | uAAL.utils/src/main/java/org/universAAL/support/utils/UAAL.java:343-374 | the wrappers `terminate` would close are exactly the present publisher, caller, requester, subscribers and callees |
| Helper.SendCKeepsHeldCreated | uAAL.utils/src/main/java/org/universAAL/support/utils/UAAL.java:165-203 | `sendC` keeps "each held wrapper was created by the helper" |
| Helper.CallSKeepsHeldCreated | uAAL.utils/src/main/java/org/universAAL/support/utils/UAAL.java:223-228 | `callS` keeps "each held wrapper was created by the helper" |
| Helper.RequestUIKeepsHeldCreated | uAAL.utils/src/main/java/org/universAAL/support/utils/UAAL.java:259-265 | `requestUI` keeps "each held wrapper was created by the helper" |
| Helper.SubscribeCKeepsHeldCreated | uAAL.utils/src/main/java/org/universAAL/support/utils/UAAL.java:295-300 | `subscribeC` keeps "each held wrapper was created by the helper" |
| Helper.ProvideSKeepsHeldCreated | uAAL.utils/src/main/java/org/universAAL/support/utils/UAAL.java:329-334 | `provideS` keeps "each held wrapper was created by the helper" |
| Helper.OperationsKeepHeldCreated | uAAL.utils/src/main/java/org/universAAL/support/utils/UAAL.java:142-374 | every operation keeps the invariant "each wrapper the helper holds was created by it" |
| Helper.UAAL.constructor | uAAL.utils/src/main/java/org/universAAL/support/utils/UAAL.java:142-144 | only the context is set. Publisher, caller, requester and both lists are null |
| Helper.UAAL.SendC | uAAL.utils/src/main/java/org/universAAL/support/utils/UAAL.java:165-203 | the new state is `AfterSendC` of the old one |
| Helper.UAAL.CallS | uAAL.utils/src/main/java/org/universAAL/support/utils/UAAL.java:223-228 | the new state is `AfterCallS` of the old one, and the response is the bus's answer |
| Helper.UAAL.RequestUI | uAAL.utils/src/main/java/org/universAAL/support/utils/UAAL.java:259-265 | the new state is `AfterRequestUI` of the old one |
| Helper.UAAL.SubscribeC | uAAL.utils/src/main/java/org/universAAL/support/utils/UAAL.java:295-300 | the new state is `AfterSubscribeC` of the old one |
| Helper.UAAL.ProvideS | uAAL.utils/src/main/java/org/universAAL/support/utils/UAAL.java:329-334 | the new state is `AfterProvideS` of the old one |
| Helper.UAAL.CloseSingles | uAAL.utils/src/main/java/org/universAAL/support/utils/UAAL.java:344-355 | publisher, caller and requester are each closed, if present, and nulled |
| Helper.UAAL.CloseSubscribers | uAAL.utils/src/main/java/org/universAAL/support/utils/UAAL.java:357-364 | every subscriber is closed in list order, and the list becomes null |
| Helper.UAAL.CloseCallees | uAAL.utils/src/main/java/org/universAAL/support/utils/UAAL.java:366-373 | every callee is closed in list order, and the list becomes null |
| Helper.UAAL.Terminate | uAAL.utils/src/main/java/org/universAAL/support/utils/UAAL.java:343-374 | the new state is `AfterTerminate` of the old one |
| Controls.ReferenceOrFresh | uAAL.utils/src/main/java/org/universAAL/support/utils/ui/SubmitCmd.java:109-111 | the set reference, or the one-element path `MY_NAMESPACE + id` when none is set |
| Controls.LastElement | uAAL.utils/src/main/java/org/universAAL/support/utils/ui/SubmitCmd.java:112 | the last path element, present iff the path is non-empty |
| Controls.GeneratedReferenceLast | uAAL.utils/src/main/java/org/universAAL/support/utils/ui/SubmitCmd.java:109-112 | the last element of a generated reference is the generated URI |
| Controls.Control.constructor | uAAL.utils/src/main/java/org/universAAL/support/utils/ui/SubmitCmd.java:86-103 | A subclass constructor sets the reference to `[ref]`, or none, and the label if given. No help and no hint |
| Controls.Control.SetHelp | uAAL.utils/src/main/java/org/universAAL/support/utils/ui/Control.java:75-77 | `getHelp` then returns the text, and nothing else changes |
| Controls.Control.SetHint | uAAL.utils/src/main/java/org/universAAL/support/utils/ui/Control.java:94-96 | `getHint` then returns the text, and nothing else changes |
| Controls.Control.GetHelp | uAAL.utils/src/main/java/org/universAAL/support/utils/ui/Control.java:65-67 | the stored help text |
| Controls.Control.GetHint | uAAL.utils/src/main/java/org/universAAL/support/utils/ui/Control.java:84-86 | the stored hint text |
| Controls.Control.GetReference | uAAL.utils/src/main/java/org/universAAL/support/utils/ui/Control.java:104-106 | the stored path, or a NullPointerException iff none is set |
| Controls.Control.SetReference | uAAL.utils/src/main/java/org/universAAL/support/utils/ui/Control.java:114-119 | null clears the reference, so `getReference` throws. Otherwise `getReference` returns `[reference]` |
| Controls.Control.SetReferencePath | uAAL.utils/src/main/java/org/universAAL/support/utils/ui/Control.java:130-135 | null clears the reference, otherwise it is the given path |
| Controls.Control.GetLabel | uAAL.utils/src/main/java/org/universAAL/support/utils/ui/Control.java:142-144 | the label's text, or a NullPointerException iff no label was set |
| Controls.Control.SetLabel | uAAL.utils/src/main/java/org/universAAL/support/utils/ui/Control.java:152-154 | `getLabel` then returns the text, and nothing else changes |
| Controls.Control.EnsureReference | uAAL.utils/src/main/java/org/universAAL/support/utils/ui/SelectMulti.java:128-130 | a reference is generated only when none is set |
| Selects.InitialChoice | uAAL.utils/src/main/java/org/universAAL/support/utils/ui/SelectMulti.java:131 | No index gives no initial value. With no options, indexing the null array throws a NullPointerException. An index out of range throws an ArrayIndexOutOfBoundsException. Otherwise it is the option at the index |
| Selects.InitialChoiceCases | uAAL.utils/src/main/java/org/universAAL/support/utils/ui/SelectMulti.java:131 | the lookup succeeds iff there is no index or it is in range, and a chosen value is one of the options |
| Selects.NullIfEmpty | uAAL.utils/src/main/java/org/universAAL/support/utils/ui/SelectMulti.java:163-174 | null iff the list is empty, else the list |
| Selects.SelectMulti.constructor | uAAL.utils/src/main/java/org/universAAL/support/utils/ui/SelectMulti.java:67-100 | no options, no initial index, no model |
| Selects.SelectMulti.WithOptions | uAAL.utils/src/main/java/org/universAAL/support/utils/ui/SelectMulti.java:118-122 | the options are a fixed-size view of the given array |
| Selects.SelectMulti.SetInitialIndex | uAAL.utils/src/main/java/org/universAAL/support/utils/ui/SelectMulti.java:153-155 | `getInitialIndex` then returns the index, and the options are unchanged |
| Selects.SelectMulti.AddOption | uAAL.utils/src/main/java/org/universAAL/support/utils/ui/SelectMulti.java:183-185 | The option is appended at the end iff the list is still growable. After `setOptions` it throws UnsupportedOperationException and nothing changes |
| Selects.SelectMulti.SetOptions | uAAL.utils/src/main/java/org/universAAL/support/utils/ui/SelectMulti.java:194-196 | The options become exactly the given array, a fixed-size view of it. A null array throws a NullPointerException |
| Selects.SelectMulti.GetOptions | uAAL.utils/src/main/java/org/universAAL/support/utils/ui/SelectMulti.java:163-174 | null iff there are no options, else a fresh array of the options in order |
| Selects.SelectMulti.CreateAs | uAAL.utils/src/main/java/org/universAAL/support/utils/ui/SelectMulti.java:127-134 | The reference is generated first, only if absent. The initial-choice exception escapes with no model built. Otherwise the model has the initial choice and the options (null if none), and the path is returned |
| Selects.SelectMulti.Create | uAAL.utils/src/main/java/org/universAAL/support/utils/ui/SelectMulti.java:127-134 | `create` of a multiple selection, as `CreateAs`: reference first, the lookup exception escapes with no model, else the full model; label, help and hint are unchanged, so the model carries the label set before |
| Selects.SelectOne.constructor | uAAL.utils/src/main/java/org/universAAL/support/utils/ui/SelectOne.java:59-91 | the `SelectMulti` constructors' state |
| Selects.SelectOne.WithOptions | uAAL.utils/src/main/java/org/universAAL/support/utils/ui/SelectOne.java:109-111 | the options are the given array, passed on unchanged |
| Selects.SelectOne.Create | uAAL.utils/src/main/java/org/universAAL/support/utils/ui/SelectOne.java:119-130 | `create` builds a single selection by the same rules, with the inner control's label, help and hint unchanged |
| Tables.DataTable.constructor | uAAL.utils/src/main/java/org/universAAL/support/utils/ui/DataTable.java:107-175 | no entries, and deletable, editable and expandable all false |
| Tables.DataTable.WithEntries | uAAL.utils/src/main/java/org/universAAL/support/utils/ui/DataTable.java:190-193 | no reference, the label, the entries a view of the given array, and all flags false |
| Tables.DataTable.SetDeletable | uAAL.utils/src/main/java/org/universAAL/support/utils/ui/DataTable.java:276-278 | only that flag changes |
| Tables.DataTable.SetEditable | uAAL.utils/src/main/java/org/universAAL/support/utils/ui/DataTable.java:295-297 | only that flag changes |
| Tables.DataTable.SetExpandable | uAAL.utils/src/main/java/org/universAAL/support/utils/ui/DataTable.java:314-316 | only that flag changes |
| Tables.DataTable.AddEntry | uAAL.utils/src/main/java/org/universAAL/support/utils/ui/DataTable.java:343-345 | The entry is appended at the end while the list is growable. After `setEntries` it throws UnsupportedOperationException |
| Tables.DataTable.SetEntries | uAAL.utils/src/main/java/org/universAAL/support/utils/ui/DataTable.java:354-356 | The entries become exactly the given array. A null array throws a NullPointerException |
| Tables.DataTable.GetEntries | uAAL.utils/src/main/java/org/universAAL/support/utils/ui/DataTable.java:323-334 | null iff there are no entries, else a fresh array of them in insertion order |
| Tables.DataTable.Create | uAAL.utils/src/main/java/org/universAAL/support/utils/ui/DataTable.java:202-218 | The reference is generated only if absent. The data is null when there are no entries. Deletion, edit and addition are each allowed iff their flag is set. Label, help and hint are unchanged, so the model carries the label set before |
| Tables.DataTable.Add | uAAL.utils/src/main/java/org/universAAL/support/utils/ui/DataTable.java:254-259 | A submit command or a table is refused with null. Any other control is created inside this table's model |
| Ranges.ClosedInterval | uAAL.utils/src/main/java/org/universAAL/support/utils/ui/SelectRange.java:131-132 | The restriction `create` uses admits exactly [min, max]. It admits nothing when min > max |
| Ranges.SelectRange.constructor | uAAL.utils/src/main/java/org/universAAL/support/utils/ui/SelectRange.java:62-95 | min 0, initial value 0, max 1, and no step |
| Ranges.SelectRange.WithRange | uAAL.utils/src/main/java/org/universAAL/support/utils/ui/SelectRange.java:118-122 | min, max and initial value as given, and no step |
| Ranges.SelectRange.SetMin | uAAL.utils/src/main/java/org/universAAL/support/utils/ui/SelectRange.java:154-156 | only min changes |
| Ranges.SelectRange.SetMax | uAAL.utils/src/main/java/org/universAAL/support/utils/ui/SelectRange.java:192-194 | only max changes |
| Ranges.SelectRange.SetInitialValue | uAAL.utils/src/main/java/org/universAAL/support/utils/ui/SelectRange.java:173-175 | only the initial value changes |
| Ranges.SelectRange.SetStep | uAAL.utils/src/main/java/org/universAAL/support/utils/ui/SelectRange.java:210-212 | only the step changes, and it is now set |
| Ranges.SelectRange.SetMinMaxInitial | uAAL.utils/src/main/java/org/universAAL/support/utils/ui/SelectRange.java:226-230 | all three are stored as given, with no validity check |
| Ranges.SelectRange.Create | uAAL.utils/src/main/java/org/universAAL/support/utils/ui/SelectRange.java:127-137 | The reference is generated only if absent. The range admits exactly [min, max] on the reference's last element. The initial value is kept, and the step is applied only when set. Label, help and hint are unchanged, so the model carries the label set before |
| Commands.ConfirmationOf | uAAL.utils/src/main/java/org/universAAL/support/utils/ui/SubmitCmd.java:113-125 | No message means no confirmation. YES_NO gives yes/no. OK_CANCEL or any other type gives ok/cancel, carrying the message |
| Commands.SubmitCmd.constructor | uAAL.utils/src/main/java/org/universAAL/support/utils/ui/SubmitCmd.java:50-103 | no confirmation message, type OK_CANCEL, no mandatory input, and no hidden object |
| Commands.SubmitCmd.AddMandatoryInput | uAAL.utils/src/main/java/org/universAAL/support/utils/ui/SubmitCmd.java:146-149 | the input's current model is appended, and nothing else changes |
| Commands.SubmitCmd.SetHiddenObject | uAAL.utils/src/main/java/org/universAAL/support/utils/ui/SubmitCmd.java:168-170 | only the hidden object changes |
| Commands.SubmitCmd.SetConfirmMessage | uAAL.utils/src/main/java/org/universAAL/support/utils/ui/SubmitCmd.java:191-193 | only the message changes |
| Commands.SubmitCmd.SetConfirmMessageAndType | uAAL.utils/src/main/java/org/universAAL/support/utils/ui/SubmitCmd.java:209-212 | both message and type are set |
| Commands.SubmitCmd.SetConfirmType | uAAL.utils/src/main/java/org/universAAL/support/utils/ui/SubmitCmd.java:236-238 | only the type changes |
| Commands.SubmitCmd.RegisterMandatory | uAAL.utils/src/main/java/org/universAAL/support/utils/ui/SubmitCmd.java:126-131 | the mandatory inputs are registered in list order |
| Commands.SubmitCmd.Create | uAAL.utils/src/main/java/org/universAAL/support/utils/ui/SubmitCmd.java:108-137 | The reference is generated only if absent, and the submit ID is its last element. The confirmation follows message and type, and the mandatory inputs keep their order. A hidden object, only when set, is stored at the reference extended by `HIDDENREF`. The path is returned. Label, help and hint are unchanged, so the model carries the label set before |
| Commands.TriggerCmd.constructor | utilities.api/src/main/java/org/universAAL/utilities/api/ui/TriggerCmd.java:55-83 | the `SubmitCmd` defaults |
| Commands.TriggerCmd.Create | utilities.api/src/main/java/org/universAAL/utilities/api/ui/TriggerCmd.java:91-119 | As a submit's `create`, except that no hidden object is written. The repeatable prefix is the reference's last element when the trigger needs a selection, and none otherwise. The inner control's label, help and hint are unchanged |
| Menus.LineLength | uAAL.utils/src/main/java/org/universAAL/support/utils/ui/mid/UtilUICaller.java:127 | the length of the first line: no line break before it, and one at it unless the text ends |
| Menus.Lines | uAAL.utils/src/main/java/org/universAAL/support/utils/ui/mid/UtilUICaller.java:127-138 | the lines `readLine` returns: none exactly for an empty text, and none holding a line break |
| Menus.Marker | uAAL.utils/src/main/java/org/universAAL/support/utils/ui/mid/UtilUICaller.java:133 | the marker starts with the namespace, and holds no line break iff the namespace holds none |
| Menus.Entry | uAAL.utils/src/main/java/org/universAAL/support/utils/ui/mid/UtilUICaller.java:141-143 | the appended entry starts with `/` and ends with the marker |
| Menus.IsMenuFile | uAAL.utils/src/main/java/org/universAAL/support/utils/ui/mid/UtilUICaller.java:121-125 | a name passes the filter iff its first nine characters lower-case to `main_menu`; any name starting with `main_menu` passes |
| Menus.Populated | uAAL.utils/src/main/java/org/universAAL/support/utils/ui/mid/UtilUICaller.java:131-145 | A menu that mentions the marker on some line is unchanged. Otherwise it becomes the old text, a line break, `/title\|url\|namespaceUIService` and a line break. The old text is always kept as a prefix |
| Menus.LowerCase | uAAL.utils/src/main/java/org/universAAL/support/utils/ui/mid/UtilUICaller.java:123 | character-wise lower-casing |
| Menus.Scan | uAAL.utils/src/main/java/org/universAAL/support/utils/ui/mid/UtilUICaller.java:127-138 | the read loop finds the marker iff some line contains it |
| Menus.PopulatedDirectory | uAAL.utils/src/main/java/org/universAAL/support/utils/ui/mid/UtilUICaller.java:120-148 | Only files whose lower-cased name starts with `main_menu` are updated, each to its populated content. Other files, all names and the order are untouched |
| Menus.Populate | uAAL.utils/src/main/java/org/universAAL/support/utils/ui/mid/UtilUICaller.java:120-148 | the scanning loop computes `PopulatedDirectory`: each menu file populated, every other file and all names as they were |
| Menus.PopulateConfiguration | uAAL.utils/src/main/java/org/universAAL/support/utils/ui/mid/UtilUICaller.java:86-101 | each of `ui.dm` and `ui.dm.mobile` exists afterwards iff it did, and when it exists it becomes its populated directory |
| Menus.LineLengthAppend | uAAL.utils/src/main/java/org/universAAL/support/utils/ui/mid/UtilUICaller.java:127 | text after a complete first line does not change that line |
| Menus.LinesAppend | uAAL.utils/src/main/java/org/universAAL/support/utils/ui/mid/UtilUICaller.java:127-145 | the lines of a text ending in a line break, followed by more text, are its lines followed by the lines of the rest |
| Menus.LinesUnfold | uAAL.utils/src/main/java/org/universAAL/support/utils/ui/mid/UtilUICaller.java:127-138 | a complete first line is read first, then the lines after its break |
| Menus.SplitAfterFirstLine | uAAL.utils/src/main/java/org/universAAL/support/utils/ui/mid/UtilUICaller.java:127-145 | text appended after a complete first line leaves that line unchanged and lands after its break |
| Menus.OneLine | uAAL.utils/src/main/java/org/universAAL/support/utils/ui/mid/UtilUICaller.java:141-143 | a break-free entry followed by a line break reads as one line |
| Menus.EntryOneLine | uAAL.utils/src/main/java/org/universAAL/support/utils/ui/mid/UtilUICaller.java:141-143 | the entry holds no line break when namespace, URL and title hold none |
| Menus.AppendedLine | uAAL.utils/src/main/java/org/universAAL/support/utils/ui/mid/UtilUICaller.java:139-145 | appending a line break, a break-free entry and a line break makes the entry the last line read |
| Menus.EntryContainsMarker | uAAL.utils/src/main/java/org/universAAL/support/utils/ui/mid/UtilUICaller.java:131-143 | the appended entry contains the marker `namespaceUIService` the scan looks for |
| Menus.PopulatedMentions | uAAL.utils/src/main/java/org/universAAL/support/utils/ui/mid/UtilUICaller.java:131-145 | after the update some line mentions the marker, whatever the old text and whatever line breaks URL and title hold, when the namespace holds none |
| Menus.PopulateIdempotent | uAAL.utils/src/main/java/org/universAAL/support/utils/ui/mid/UtilUICaller.java:131-145 | populating twice is populating once, when the namespace holds no line break |
| Menus.DirectoryMenusMention | uAAL.utils/src/main/java/org/universAAL/support/utils/ui/mid/UtilUICaller.java:86-148 | after start-up every menu file of a directory mentions the service, when the namespace holds no line break |
| Menus.DirectoryIdempotent | uAAL.utils/src/main/java/org/universAAL/support/utils/ui/mid/UtilUICaller.java:86-148 | starting the caller again does not change a populated directory, when the namespace holds no line break |
| Menus.FirstBreakInside | uAAL.utils/src/main/java/org/universAAL/support/utils/ui/mid/UtilUICaller.java:127-138 | a text holding a line break keeps its first line when a final break is appended |
| Menus.LastLineEndsWith | uAAL.utils/src/main/java/org/universAAL/support/utils/ui/mid/UtilUICaller.java:127-145 | the last line read from a text ending in `m` and a line break contains `m`, when `m` holds no break |
| Menus.BreakSpreads | uAAL.utils/src/main/java/org/universAAL/support/utils/ui/mid/UtilUICaller.java:133 | a line containing a part with a line break itself holds a line break |
| Menus.BrokenMarkerNeverMentioned | uAAL.utils/src/main/java/org/universAAL/support/utils/ui/mid/UtilUICaller.java:127-138 | a marker holding a line break is on no line read, whatever the text |
| Menus.RepopulatingGrows | uAAL.utils/src/main/java/org/universAAL/support/utils/ui/mid/UtilUICaller.java:131-145 | with a line break in the namespace the scan never finds the marker, so every start appends the entry again |
| Menus.StartHandleCall | uAAL.utils/src/main/java/org/universAAL/support/utils/ui/mid/UtilUICaller.java:243-254 | Succeeds, running `executeStartUI` with the call's involved user, iff the process URI starts with `namespace + "startUI"`. Otherwise, and for a null call, it gives null and runs nothing |
| Dependencies.ConstructionError | utilities.ioc/src/main/java/org/universAAL/utilities/ioc/dependencies/impl/PassiveDependencyProxy.java:58-68 | The constructor throws: out of bounds for empty filters, a class cast for a non-string first filter, "Bad filtering" for an unknown class, and a null pointer for null filters, a null first filter or a null context. It succeeds exactly otherwise |
| Dependencies.Adopted | utilities.ioc/src/main/java/org/universAAL/utilities/ioc/dependencies/impl/PassiveDependencyProxy.java:69-74 | the first fetched reference when the container answers a non-empty array, else null |
| Dependencies.AfterSet | utilities.ioc/src/main/java/org/universAAL/utilities/ioc/dependencies/impl/PassiveDependencyProxy.java:100-104 | `setObject` replaces the object and keeps the stored hook |
| Dependencies.AfterAdded | utilities.ioc/src/main/java/org/universAAL/utilities/ioc/dependencies/impl/PassiveDependencyProxy.java:107-129 | A held object, or an object that is null or of the wrong type, leaves the state as it was. Otherwise the object and its hook are kept. Resolved afterwards iff resolved before or the object is acceptable |
| Dependencies.AfterRemoved | utilities.ioc/src/main/java/org/universAAL/utilities/ioc/dependencies/impl/PassiveDependencyProxy.java:131-136 | the object is dropped iff the hook is the stored one, any other object is kept, and the hook stays |
| Dependencies.AfterAdditions | utilities.ioc/src/main/java/org/universAAL/utilities/ioc/dependencies/impl/PassiveDependencyProxy.java:107-129 | after a run of notifications the proxy is resolved iff it was before or some notification carried an acceptable object |
| Dependencies.ResolvedIgnoresAdditions | utilities.ioc/src/main/java/org/universAAL/utilities/ioc/dependencies/impl/PassiveDependencyProxy.java:119-122 | while an object is held, no run of additions changes anything |
| Dependencies.UnacceptableIgnored | utilities.ioc/src/main/java/org/universAAL/utilities/ioc/dependencies/impl/PassiveDependencyProxy.java:110-118 | null objects and objects not of the filtered type change nothing |
| Dependencies.FirstValidWins | utilities.ioc/src/main/java/org/universAAL/utilities/ioc/dependencies/impl/PassiveDependencyProxy.java:107-129 | From unresolved, after any run of additions the proxy holds the first acceptable object with its hook, whatever follows |
| Dependencies.RemovalNeedsIdenticalHook | utilities.ioc/src/main/java/org/universAAL/utilities/ioc/dependencies/impl/PassiveDependencyProxy.java:131-136 | Only the identical stored hook unresolves, and the hook itself is kept. Any other hook changes nothing |
| Dependencies.AddThenRemove | utilities.ioc/src/main/java/org/universAAL/utilities/ioc/dependencies/impl/PassiveDependencyProxy.java:119-136 | an accepted addition is undone by the removal bringing its hook, and by no other |
| Dependencies.StaleHooks | utilities.ioc/src/main/java/org/universAAL/utilities/ioc/dependencies/impl/PassiveDependencyProxy.java:69-136 | An object adopted at construction is dropped by a removal with a null hook. An object given to `setObject` is dropped by the hook of an earlier addition |
| Dependencies.PassiveDependencyProxy.Adopting | utilities.ioc/src/main/java/org/universAAL/utilities/ioc/dependencies/impl/PassiveDependencyProxy.java:60-74 | The caller's filter array is kept uncopied, and the first fetched reference is adopted. No hook is stored |
| Dependencies.PassiveDependencyProxy.New | utilities.ioc/src/main/java/org/universAAL/utilities/ioc/dependencies/impl/PassiveDependencyProxy.java:58-75 | Throws exactly as `ConstructionError` says. Otherwise it gives a new proxy on the given filters and the class they name, holding the adopted reference |
| Dependencies.PassiveDependencyProxy.IsResolved | utilities.ioc/src/main/java/org/universAAL/utilities/ioc/dependencies/impl/PassiveDependencyProxy.java:77-81 | resolved iff an object is held |
| Dependencies.PassiveDependencyProxy.SetObject | utilities.ioc/src/main/java/org/universAAL/utilities/ioc/dependencies/impl/PassiveDependencyProxy.java:100-105 | the held object becomes the value, and the hook is kept |
| Dependencies.PassiveDependencyProxy.SharedObjectAdded | utilities.ioc/src/main/java/org/universAAL/utilities/ioc/dependencies/impl/PassiveDependencyProxy.java:107-129 | the new state is `AfterAdded` of the old one |
| Dependencies.PassiveDependencyProxy.SharedObjectRemoved | utilities.ioc/src/main/java/org/universAAL/utilities/ioc/dependencies/impl/PassiveDependencyProxy.java:131-136 | the new state is `AfterRemoved` of the old one |
| Dependencies.FetchedCases | utilities.ioc/src/main/java/org/universAAL/utilities/ioc/dependencies/impl/NPEDependencyProxy.java:69-77 | Once resolved, `getObject` keeps its object whatever the container would answer. Without a context it never fetches. Unresolved with a context, it takes the container's answer, so a null answer means asking again next time |
| Dependencies.Fetched | utilities.ioc/src/main/java/org/universAAL/utilities/ioc/dependencies/impl/NPEDependencyProxy.java:69-77 | the held object is kept, or fetched when there was none and a context is set; a held object is never lost |
| Dependencies.NPEDependencyProxy.constructor | utilities.ioc/src/main/java/org/universAAL/utilities/ioc/dependencies/impl/NPEDependencyProxy.java:51-54 | The filters are copied into a fresh array, so later changes to the caller's array are not seen. The proxy starts unresolved |
| Dependencies.NPEDependencyProxy.New | utilities.ioc/src/main/java/org/universAAL/utilities/ioc/dependencies/impl/NPEDependencyProxy.java:51-54 | a null filter array throws a NullPointerException, and any other gives a proxy over a fresh copy |
| Dependencies.NPEDependencyProxy.IsResolved | utilities.ioc/src/main/java/org/universAAL/utilities/ioc/dependencies/impl/NPEDependencyProxy.java:57-61 | resolved iff an object is held |
| Dependencies.NPEDependencyProxy.GetFilters | utilities.ioc/src/main/java/org/universAAL/utilities/ioc/dependencies/impl/NPEDependencyProxy.java:64-66 | the stored copy itself |
| Dependencies.NPEDependencyProxy.GetObject | utilities.ioc/src/main/java/org/universAAL/utilities/ioc/dependencies/impl/NPEDependencyProxy.java:69-77 | fetches only when unresolved and a context is set, then returns what is held. Once resolved it returns the held object, never null |
| Dependencies.NPEDependencyProxy.SetObject | utilities.ioc/src/main/java/org/universAAL/utilities/ioc/dependencies/impl/NPEDependencyProxy.java:80-84 | the held object is overwritten |

## Left out

- I/O:
  - The console tips printed throughout are not modelled. They have no other effect.
  - Files, readers and writers in the UI caller are not modelled. A menu directory is a sequence of named texts, and its existence is an `Option`. The configuration-root lookup in system properties is a parameter.
- `Menus.Populate`: what the model leaves out of file handling.
  - An `IOException` that aborts the run half-way is not modelled.
  - A menu "directory" that is a plain file, where `listFiles` gives null, is not modelled.
  - `'\r'` line ends are not modelled, and `newLine` is taken as `'\n'`.
  - Lower-casing covers ASCII letters only, not Unicode case folding.
- Concurrency:
  - The passive proxy's blocking `getObject` (wait/notify) is not modelled.
  - All `synchronized` blocks are omitted. The proxies are modelled as sequential state machines.
- The middleware is opaque and its effect is not modelled. This covers every middleware object that `create`, `put`, the wrappers and the bus build, such as forms, restrictions, profiles and responses. For example, the array overloads of `Request.put` are only recorded, and `callS` returns whatever the bus parameter answers.
- `Helper.AfterSendC`: records the event with its provider property removed. The removal on the caller's own event object (aliasing) is not modelled.
- Wrappers and listeners:
  - The wrapper classes (`UtilPublisher`, `WrapperC`, `WrapperS`, `WrapperUI`) and the listener interfaces are values here.
  - The utilities.api `Pattern` class is not part of this model. The provider constructors use the uAAL.utils pattern rules, which have the same shape.
- Controls.LastElement: `getLastPathElement` is taken to give null on an empty path. The middleware's property-path class is not part of this model.
- Commands.OK_CANCEL: the middleware's confirmation constants are given the values 0 and 1. Only their being different matters.
- Nulls and boxed values in the UI controls:
  - Boxed `Boolean` flags and `Integer` setters that receive null are not modelled.
  - The flags and the range values are plain `bool` and `int32`.
  - A null label text is not modelled.
  - Null strings inside reference paths are not modelled.
- Arrays and aliasing in the UI controls:
  - `Selects.SelectMulti.WithOptions` and `Tables.DataTable.WithEntries` take a non-null array. The three-argument Java constructors' null array, which throws when wrapped, is not modelled.
  - `SelectOne(ref, label, Object[])` is modelled for string arrays only.
  - Writes through a `setOptions`/`setEntries` view into the caller's array are seen, because the view is that array. Writes through the returned arrays of `getOptions`/`getEntries` do not reach the control, because those arrays are fresh.
- Nested `create` in `Tables.DataTable.Add` is the parameter `createIn`. The subclass checks (`instanceof`) are the `ControlKind` argument.
- `Value.createEmptyInstance` (reflection, float and double parsing) is the oracle `emptyInstance`.
- Null arguments the Java code accepts and stores:
  - `PropertyPaths.Path.FromArray` and `PropertyPaths.Path.Parse` take a non-null array. A null array is accepted in Java, and the next `to` then throws NullPointerException. That case is not modelled.
  - `Selects.SelectMulti.AddOption` takes a non-null string and `Tables.DataTable.AddEntry` a non-null object. A null element stored in the list is not modelled.
- Classes outside this model, stood in for by their namesakes:
  - `Callees.SensorStep`: `UtilSensorCallee` takes its service and output names from the uAAL.utils `UtilSensor`, which is not part of this model. The names `servSensorGet` and `outputSensorGet` come from the utilities.api `UtilSensor`.
  - `Helper.ChosenProvider`: the publisher is built through `UtilPublisher`, which uses the uAAL.utils `context.low.Provider`. That class is not part of this model, and the utilities.api `Provider` rules stand in for it.
  - `Commands.TriggerCmd`: it extends the utilities.api `SubmitCmd`, which is not part of this model. It is modelled over the uAAL.utils `SubmitCmd`.
  - `Requests.Request.PutPath`, `Commands.SubmitCmd.Create`: both use the uAAL.utils `service.Path`, which is not part of this model. The utilities.api `Path` (`PropertyPaths`) stands in for it. `SubmitCmd.Create`'s promise that the control's own reference is left as it was rests on that class's `to` installing a fresh array.
- Dependency proxies:
  - In the passive proxy, an unchecked cast and an exception caught and logged in `sharedObjectAdded` cannot occur in the model.
  - Object identity of hooks is taken as equality of the `Obj` tokens.
  - `Dependencies.NPEDependencyProxy.GetObject` takes the container as a parameter. The module context's `getContainer` is not modelled.
- The passive proxy's `getFilters` is not modelled separately. The `filters` field is the caller's array itself, which `Adopting` states.
