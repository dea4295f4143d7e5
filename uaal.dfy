/** The `UAAL` helper: one object that lazily creates and keeps the bus
    wrappers an application needs (one context publisher, one service caller,
    one UI requester, and lists of context subscribers and service callees),
    and closes and forgets all of them on `terminate`. The wrappers are values
    here; what the helper does with them (create, publish through, close) is
    recorded in logs that are part of the state. */
module Helper {
  import opened Common
  import opened ContextPatterns
  import opened Providers

  /** The provider URI used when an event carries no provider at all. */
  const DEFAULT_PROVIDER_URI := "http://ontology.universAAL.org/SimpleUAAL.owl#ContextEventsProvider"

  /** The provider information an event may carry; each part may be null. */
  datatype ContextProvider = ContextProvider(uri: string, providerType: Option<ProviderType>,
                                             providedEvents: Option<seq<EventPattern>>)

  /** A context event: its provider property (maybe null) and the rest of it. */
  datatype ContextEvent = ContextEvent(provider: Option<ContextProvider>, statement: Obj)

  /** `new WrapperC(context, patterns, listener)`. */
  datatype Subscriber = Subscriber(patterns: Option<seq<EventPattern>>, listener: Option<Obj>)

  /** `new WrapperS(context, profiles, listener)`. */
  datatype Callee = Callee(profiles: Option<seq<Obj>>, listener: Option<Obj>)

  /** `new WrapperUI(context)`, with the listener it currently has. */
  datatype Requester = Requester(listener: Option<Obj>)

  /** Any wrapper the helper creates and later closes. */
  datatype Wrapper =
    | PublisherWrapper(provider: Provider)
    | CallerWrapper
    | RequesterWrapper
    | SubscriberWrapper(subscriber: Subscriber)
    | CalleeWrapper(callee: Callee)

  /** One `publish` on the publisher: which provider published which event. */
  datatype Publication = Publication(provider: Provider, event: ContextEvent)

  /** One `sendUIRequest` on the requester, with the listener it then had. */
  datatype UISent = UISent(request: Obj, listener: Option<Obj>)

  /** Everything the helper holds. `publisher`, `caller` and `requester` are
      the lazily created wrappers (null as `None`); `subscribers` and `callees`
      are the lists, themselves null until first used. `created`, `closed`,
      `published` and `uiSent` record the wrapper calls made so far. */
  datatype HelperState = HelperState(
    publisher: Option<Provider>,
    caller: bool,
    requester: Option<Requester>,
    subscribers: Option<seq<Subscriber>>,
    callees: Option<seq<Callee>>,
    created: seq<Wrapper>,
    closed: seq<Wrapper>,
    published: seq<Publication>,
    uiSent: seq<UISent>)

  /** A fresh helper: no wrapper, no list, nothing done yet. */
  const INITIAL := HelperState(None, false, None, None, None, [], [], [], [])

  /** `callees != null && !callees.isEmpty()`: services are being provided. */
  predicate Providing(callees: Option<seq<Callee>>): (b: bool)
    ensures b <==> Elements(callees) != []
  {
    callees.Some? && |callees.value| > 0
  }

  /** The provider the publisher is created with on the first `sendC`, from
      the event's provider information (if any) and whether services are
      provided. */
  function ChosenProvider(ont: Ontology, cp: Option<ContextProvider>, providing: bool): (p: Provider)
    ensures cp.None? ==> p.uri == DEFAULT_PROVIDER_URI
    ensures cp.Some? ==> p.uri == cp.value.uri
    ensures cp.Some? && cp.value.providerType.Some? ==> p.providerType == cp.value.providerType.value
    ensures cp.None? || cp.value.providerType.None? ==>
              (p.providerType == Controller <==> providing) && (p.providerType == Gauge <==> !providing)
    ensures cp.Some? && cp.value.providerType.Some? && cp.value.providedEvents.Some? ==>
              p.events == cp.value.providedEvents
    ensures !(cp.Some? && cp.value.providerType.Some? && cp.value.providedEvents.Some?) ==>
              p.events == Some([UNRESTRICTED])
  {
    SlotRestrictedIffValid(ont, None, None, None);
    var byServices := if providing then Controller else Gauge;
    match cp
    case None => ProviderWithPattern(ont, DEFAULT_PROVIDER_URI, Some(byServices), None, None, None)
    case Some(c) =>
      if c.providerType.Some? then
        if c.providedEvents.Some? then ProviderWithEvents(c.uri, c.providerType, c.providedEvents)
        else ProviderWithPattern(ont, c.uri, c.providerType, None, None, None)
      else ProviderWithPattern(ont, c.uri, Some(byServices), None, None, None)
  }

  /** `sendC(e)`: the event loses its provider property, the publisher is
      created if there is none yet, and the event is published through it. */
  function AfterSendC(ont: Ontology, s: HelperState, e: ContextEvent): (t: HelperState)
    ensures t.publisher.Some?
    ensures s.publisher.Some? ==> t.publisher == s.publisher && t.created == s.created
    ensures s.publisher.None? ==>
              t.publisher == Some(ChosenProvider(ont, e.provider, Providing(s.callees))) &&
              t.created == s.created + [PublisherWrapper(t.publisher.value)]
    ensures t.published == s.published + [Publication(t.publisher.value, e.(provider := None))]
    ensures t.caller == s.caller && t.requester == s.requester && t.subscribers == s.subscribers &&
            t.callees == s.callees && t.closed == s.closed && t.uiSent == s.uiSent
  {
    var stripped := e.(provider := None);
    if s.publisher.Some? then
      s.(published := s.published + [Publication(s.publisher.value, stripped)])
    else
      var p := ChosenProvider(ont, e.provider, Providing(s.callees));
      s.(publisher := Some(p), created := s.created + [PublisherWrapper(p)],
         published := s.published + [Publication(p, stripped)])
  }

  /** `callS`: the caller is created if there is none yet. */
  function AfterCallS(s: HelperState): (t: HelperState)
    ensures t.caller
    ensures t.created == s.created + (if s.caller then [] else [CallerWrapper])
    ensures t == s.(caller := true, created := t.created)
  {
    if s.caller then s else s.(caller := true, created := s.created + [CallerWrapper])
  }

  /** `requestUI(ui, l)`: one requester, created if absent, whose listener is
      replaced by `l` before the request is sent. */
  function AfterRequestUI(s: HelperState, ui: Obj, l: Option<Obj>): (t: HelperState)
    ensures t.requester == Some(Requester(l))
    ensures t.created == s.created + (if s.requester.Some? then [] else [RequesterWrapper])
    ensures t.uiSent == s.uiSent + [UISent(ui, l)]
    ensures t == s.(requester := t.requester, created := t.created, uiSent := t.uiSent)
  {
    var created := if s.requester.Some? then s.created else s.created + [RequesterWrapper];
    s.(requester := Some(Requester(l)), created := created, uiSent := s.uiSent + [UISent(ui, l)])
  }

  /** The list behind an optional list: a null list has no elements. */
  function Elements<T>(l: Option<seq<T>>): seq<T>
  {
    if l.Some? then l.value else []
  }

  /** `subscribeC(p, l)`: exactly one new subscriber, at the end. */
  function AfterSubscribeC(s: HelperState, p: Option<seq<EventPattern>>, l: Option<Obj>): (t: HelperState)
    ensures t.subscribers == Some(Elements(s.subscribers) + [Subscriber(p, l)])
    ensures t.created == s.created + [SubscriberWrapper(Subscriber(p, l))]
    ensures t == s.(subscribers := t.subscribers, created := t.created)
  {
    var w := Subscriber(p, l);
    s.(subscribers := Some(Elements(s.subscribers) + [w]), created := s.created + [SubscriberWrapper(w)])
  }

  /** `provideS(p, l)`: exactly one new callee, at the end. */
  function AfterProvideS(s: HelperState, p: Option<seq<Obj>>, l: Option<Obj>): (t: HelperState)
    ensures t.callees == Some(Elements(s.callees) + [Callee(p, l)])
    ensures t.created == s.created + [CalleeWrapper(Callee(p, l))]
    ensures t == s.(callees := t.callees, created := t.created)
  {
    var w := Callee(p, l);
    s.(callees := Some(Elements(s.callees) + [w]), created := s.created + [CalleeWrapper(w)])
  }

  function SubscriberWrappers(l: seq<Subscriber>): (r: seq<Wrapper>)
    ensures |r| == |l| && forall i :: 0 <= i < |l| ==> r[i] == SubscriberWrapper(l[i])
  {
    seq(|l|, i requires 0 <= i < |l| => SubscriberWrapper(l[i]))
  }

  function CalleeWrappers(l: seq<Callee>): (r: seq<Wrapper>)
    ensures |r| == |l| && forall i :: 0 <= i < |l| ==> r[i] == CalleeWrapper(l[i])
  {
    seq(|l|, i requires 0 <= i < |l| => CalleeWrapper(l[i]))
  }

  /** The wrappers `terminate` closes, in the order it closes them: publisher,
      caller, requester, then every subscriber and every callee in list order. */
  function Held(s: HelperState): seq<Wrapper>
  {
    (if s.publisher.Some? then [PublisherWrapper(s.publisher.value)] else []) +
    (if s.caller then [CallerWrapper] else []) +
    (if s.requester.Some? then [RequesterWrapper] else []) +
    SubscriberWrappers(Elements(s.subscribers)) +
    CalleeWrappers(Elements(s.callees))
  }

  /** `terminate`: every held wrapper is closed and every resource field is
      null again; the logs of what was done are kept. */
  function AfterTerminate(s: HelperState): (t: HelperState)
    ensures t.publisher.None? && !t.caller && t.requester.None? && t.subscribers.None? && t.callees.None?
    ensures t.closed == s.closed + Held(s)
    ensures t.created == s.created && t.published == s.published && t.uiSent == s.uiSent
  {
    INITIAL.(created := s.created, closed := s.closed + Held(s), published := s.published, uiSent := s.uiSent)
  }

  /** The publisher's provider is fixed by the first `sendC`: a later event's
      provider information, and services provided in between, change nothing. */
  lemma ProviderFixedOnFirstSend(ont: Ontology, s: HelperState, e1: ContextEvent, e2: ContextEvent,
                                 p: Option<seq<Obj>>, l: Option<Obj>)
    ensures var t := AfterSendC(ont, AfterProvideS(AfterSendC(ont, s, e1), p, l), e2);
            t.publisher == AfterSendC(ont, s, e1).publisher &&
            t.published[|t.published| - 1].provider == t.published[|t.published| - 2].provider
  {
  }

  /** On a fresh helper the first event without a provider is published by
      the default gauge; after `provideS` it is published by the default
      controller. */
  lemma DefaultProviderFollowsServices(ont: Ontology, e: ContextEvent, p: Option<seq<Obj>>, l: Option<Obj>)
    requires e.provider.None?
    ensures AfterSendC(ont, INITIAL, e).publisher == Some(Provider(DEFAULT_PROVIDER_URI, Gauge, Some([UNRESTRICTED])))
    ensures AfterSendC(ont, AfterProvideS(INITIAL, p, l), e).publisher ==
              Some(Provider(DEFAULT_PROVIDER_URI, Controller, Some([UNRESTRICTED])))
  {
    var a := ChosenProvider(ont, None, false);
    var b := ChosenProvider(ont, None, true);
    assert a.providerType == Gauge;
    assert b.providerType == Controller;
  }

  /** A published event never carries a provider property. */
  lemma PublishedEventsHaveNoProvider(ont: Ontology, s: HelperState, e: ContextEvent)
    requires forall i :: 0 <= i < |s.published| ==> s.published[i].event.provider.None?
    ensures var t := AfterSendC(ont, s, e);
            forall i :: 0 <= i < |t.published| ==> t.published[i].event.provider.None?
  {
  }

  /** After `terminate` the helper is a fresh helper again apart from its
      logs: every wrapper it held is closed exactly once more, and the next
      `sendC` or `callS` creates a new wrapper. */
  lemma TerminateRecreates(ont: Ontology, s: HelperState, e: ContextEvent)
    ensures var t := AfterTerminate(s);
            t.(created := [], closed := [], published := [], uiSent := []) == INITIAL &&
            |t.closed| == |s.closed| + |Held(s)| &&
            AfterSendC(ont, t, e).created == t.created + [AfterSendC(ont, t, e).created[|t.created|]] &&
            AfterCallS(t).created == t.created + [CallerWrapper]
  {
  }

  /** Each wrapper the helper holds was created by it: the held wrappers are
      in the creation log whenever the state is reachable from a fresh one. */
  ghost predicate HeldWereCreated(s: HelperState)
  {
    forall w :: w in Held(s) ==> w in s.created
  }

  lemma SubscriberWrappersIn(l: seq<Subscriber>, w: Wrapper)
    ensures w in SubscriberWrappers(l) <==> w.SubscriberWrapper? && w.subscriber in l
  {
    if w in SubscriberWrappers(l) {
      var i :| 0 <= i < |l| && SubscriberWrappers(l)[i] == w;
    }
    if w.SubscriberWrapper? && w.subscriber in l {
      var i :| 0 <= i < |l| && l[i] == w.subscriber;
      assert SubscriberWrappers(l)[i] == w;
    }
  }

  lemma CalleeWrappersIn(l: seq<Callee>, w: Wrapper)
    ensures w in CalleeWrappers(l) <==> w.CalleeWrapper? && w.callee in l
  {
    if w in CalleeWrappers(l) {
      var i :| 0 <= i < |l| && CalleeWrappers(l)[i] == w;
    }
    if w.CalleeWrapper? && w.callee in l {
      var i :| 0 <= i < |l| && l[i] == w.callee;
      assert CalleeWrappers(l)[i] == w;
    }
  }

  lemma HeldIn(s: HelperState, w: Wrapper)
    ensures w in Held(s) <==>
              (s.publisher.Some? && w == PublisherWrapper(s.publisher.value)) ||
              (s.caller && w == CallerWrapper) ||
              (s.requester.Some? && w == RequesterWrapper) ||
              (w.SubscriberWrapper? && w.subscriber in Elements(s.subscribers)) ||
              (w.CalleeWrapper? && w.callee in Elements(s.callees))
  {
    SubscriberWrappersIn(Elements(s.subscribers), w);
    CalleeWrappersIn(Elements(s.callees), w);
  }

  lemma SendCKeepsHeldCreated(ont: Ontology, s: HelperState, e: ContextEvent)
    requires HeldWereCreated(s)
    ensures HeldWereCreated(AfterSendC(ont, s, e))
  {
    forall w | w in Held(AfterSendC(ont, s, e)) ensures w in AfterSendC(ont, s, e).created {
      HeldIn(s, w);
      HeldIn(AfterSendC(ont, s, e), w);
    }
  }

  lemma CallSKeepsHeldCreated(s: HelperState)
    requires HeldWereCreated(s)
    ensures HeldWereCreated(AfterCallS(s))
  {
    forall w | w in Held(AfterCallS(s)) ensures w in AfterCallS(s).created {
      HeldIn(s, w);
      HeldIn(AfterCallS(s), w);
    }
  }

  lemma RequestUIKeepsHeldCreated(s: HelperState, ui: Obj, l: Option<Obj>)
    requires HeldWereCreated(s)
    ensures HeldWereCreated(AfterRequestUI(s, ui, l))
  {
    forall w | w in Held(AfterRequestUI(s, ui, l)) ensures w in AfterRequestUI(s, ui, l).created {
      HeldIn(s, w);
      HeldIn(AfterRequestUI(s, ui, l), w);
    }
  }

  lemma SubscribeCKeepsHeldCreated(s: HelperState, p: Option<seq<EventPattern>>, l: Option<Obj>)
    requires HeldWereCreated(s)
    ensures HeldWereCreated(AfterSubscribeC(s, p, l))
  {
    forall w | w in Held(AfterSubscribeC(s, p, l)) ensures w in AfterSubscribeC(s, p, l).created {
      HeldIn(s, w);
      HeldIn(AfterSubscribeC(s, p, l), w);
    }
  }

  lemma ProvideSKeepsHeldCreated(s: HelperState, p: Option<seq<Obj>>, l: Option<Obj>)
    requires HeldWereCreated(s)
    ensures HeldWereCreated(AfterProvideS(s, p, l))
  {
    forall w | w in Held(AfterProvideS(s, p, l)) ensures w in AfterProvideS(s, p, l).created {
      HeldIn(s, w);
      HeldIn(AfterProvideS(s, p, l), w);
    }
  }

  /** Every operation keeps "each held wrapper was created by the helper". */
  lemma OperationsKeepHeldCreated(ont: Ontology, s: HelperState, e: ContextEvent, ui: Obj,
                                  p: Option<seq<EventPattern>>, q: Option<seq<Obj>>, l: Option<Obj>)
    requires HeldWereCreated(s)
    ensures HeldWereCreated(AfterSendC(ont, s, e))
    ensures HeldWereCreated(AfterCallS(s))
    ensures HeldWereCreated(AfterRequestUI(s, ui, l))
    ensures HeldWereCreated(AfterSubscribeC(s, p, l))
    ensures HeldWereCreated(AfterProvideS(s, q, l))
    ensures HeldWereCreated(AfterTerminate(s))
  {
    SendCKeepsHeldCreated(ont, s, e);
    CallSKeepsHeldCreated(s);
    RequestUIKeepsHeldCreated(s, ui, l);
    SubscribeCKeepsHeldCreated(s, p, l);
    ProvideSKeepsHeldCreated(s, q, l);
    assert Held(AfterTerminate(s)) == [];
  }

  class UAAL {
    /** The module context, kept for the helper's whole life. */
    const context: Obj
    var publisher: Option<Provider>
    var caller: bool
    var requester: Option<Requester>
    var subscribers: Option<seq<Subscriber>>
    var callees: Option<seq<Callee>>
    var created: seq<Wrapper>
    var closed: seq<Wrapper>
    var published: seq<Publication>
    var uiSent: seq<UISent>

    function State(): HelperState
      reads this
    {
      HelperState(publisher, caller, requester, subscribers, callees, created, closed, published, uiSent)
    }

    /** Only the context is set. */
    constructor (context: Obj)
      ensures this.context == context && State() == INITIAL
    {
      this.context := context;
      publisher, caller, requester, subscribers, callees := None, false, None, None, None;
      created, closed, published, uiSent := [], [], [], [];
    }

    method SendC(ont: Ontology, e: ContextEvent)
      modifies this
      ensures State() == AfterSendC(ont, old(State()), e)
    {
      var cp := e.provider;
      var stripped := e.(provider := None);
      if publisher.None? {
        var byServices := if callees.Some? && |callees.value| > 0 then Controller else Gauge;
        var p: Provider;
        if cp.Some? {
          if cp.value.providerType.Some? {
            if cp.value.providedEvents.Some? {
              p := ProviderWithEvents(cp.value.uri, cp.value.providerType, cp.value.providedEvents);
            } else {
              p := ProviderWithPattern(ont, cp.value.uri, cp.value.providerType, None, None, None);
            }
          } else {
            p := ProviderWithPattern(ont, cp.value.uri, Some(byServices), None, None, None);
          }
        } else {
          p := ProviderWithPattern(ont, DEFAULT_PROVIDER_URI, Some(byServices), None, None, None);
        }
        publisher := Some(p);
        created := created + [PublisherWrapper(p)];
      }
      published := published + [Publication(publisher.value, stripped)];
    }

    /** `callS(r)`: the response is whatever the bus answers through the
        caller, given here as `bus`. */
    method CallS(r: Obj, bus: Obj -> Obj) returns (response: Obj)
      modifies this
      ensures State() == AfterCallS(old(State()))
      ensures response == bus(r)
    {
      if !caller {
        caller := true;
        created := created + [CallerWrapper];
      }
      response := bus(r);
    }

    method RequestUI(ui: Obj, l: Option<Obj>)
      modifies this
      ensures State() == AfterRequestUI(old(State()), ui, l)
    {
      if requester.None? {
        requester := Some(Requester(None));
        created := created + [RequesterWrapper];
      }
      requester := Some(requester.value.(listener := l));
      uiSent := uiSent + [UISent(ui, l)];
    }

    method SubscribeC(p: Option<seq<EventPattern>>, l: Option<Obj>)
      modifies this
      ensures State() == AfterSubscribeC(old(State()), p, l)
    {
      if subscribers.None? {
        subscribers := Some([]);
      }
      var w := Subscriber(p, l);
      subscribers := Some(subscribers.value + [w]);
      created := created + [SubscriberWrapper(w)];
    }

    method ProvideS(p: Option<seq<Obj>>, l: Option<Obj>)
      modifies this
      ensures State() == AfterProvideS(old(State()), p, l)
    {
      if callees.None? {
        callees := Some([]);
      }
      var w := Callee(p, l);
      callees := Some(callees.value + [w]);
      created := created + [CalleeWrapper(w)];
    }

    /** The closing part of `terminate` that the rest builds on: publisher,
        caller and requester, each closed and nulled if present. */
    method CloseSingles()
      modifies this`publisher, this`caller, this`requester, this`closed
      ensures publisher.None? && !caller && requester.None?
      ensures closed == old(closed) +
                        (if old(publisher).Some? then [PublisherWrapper(old(publisher).value)] else []) +
                        (if old(caller) then [CallerWrapper] else []) +
                        (if old(requester).Some? then [RequesterWrapper] else [])
    {
      if publisher.Some? {
        closed := closed + [PublisherWrapper(publisher.value)];
        publisher := None;
      }
      if caller {
        closed := closed + [CallerWrapper];
        caller := false;
      }
      if requester.Some? {
        closed := closed + [RequesterWrapper];
        requester := None;
      }
    }

    /** Closes every subscriber in list order, then drops the list. */
    method CloseSubscribers()
      modifies this`subscribers, this`closed
      ensures subscribers.None?
      ensures closed == old(closed) + SubscriberWrappers(Elements(old(subscribers)))
    {
      if subscribers.Some? {
        var list := subscribers.value;
        var i := 0;
        while i < |list|
          invariant 0 <= i <= |list|
          invariant closed == old(closed) + SubscriberWrappers(list[..i])
          modifies this`closed
        {
          assert list[..i + 1] == list[..i] + [list[i]];
          closed := closed + [SubscriberWrapper(list[i])];
          i := i + 1;
        }
        assert list[..i] == list;
        subscribers := None;
      }
    }

    /** Closes every callee in list order, then drops the list. */
    method CloseCallees()
      modifies this`callees, this`closed
      ensures callees.None?
      ensures closed == old(closed) + CalleeWrappers(Elements(old(callees)))
    {
      if callees.Some? {
        var list := callees.value;
        var i := 0;
        while i < |list|
          invariant 0 <= i <= |list|
          invariant closed == old(closed) + CalleeWrappers(list[..i])
          modifies this`closed
        {
          assert list[..i + 1] == list[..i] + [list[i]];
          closed := closed + [CalleeWrapper(list[i])];
          i := i + 1;
        }
        assert list[..i] == list;
        callees := None;
      }
    }

    method Terminate()
      modifies this
      ensures State() == AfterTerminate(old(State()))
    {
      ghost var s0 := State();
      ghost var singles := (if publisher.Some? then [PublisherWrapper(publisher.value)] else []) +
                           (if caller then [CallerWrapper] else []) +
                           (if requester.Some? then [RequesterWrapper] else []);
      ghost var subs := SubscriberWrappers(Elements(subscribers));
      ghost var cals := CalleeWrappers(Elements(callees));
      assert Held(s0) == singles + subs + cals;
      CloseSingles();
      assert closed == s0.closed + singles;
      CloseSubscribers();
      assert closed == s0.closed + singles + subs;
      CloseCallees();
      AppendAssociates(s0.closed, singles, subs);
      AppendAssociates(s0.closed, singles + subs, cals);
    }
  }
}
