/** Proxies for objects shared through the module container. A passive proxy
    asks the container once, at construction, and then follows the
    container's notifications: the first acceptable object added wins, and a
    removal clears it only when it comes with the hook stored with it. A
    null-pointer proxy asks the container lazily, on `getObject`, and keeps
    its own copy of the filters. The container and the class lookup are
    parameters; blocking and synchronisation are not modelled. */
module Dependencies {
  import opened Common

  /** The services of the container and of the Java runtime the proxies use:
      `Class.forName` succeeding, `isAssignableFrom` on an object's class,
      and the two `fetchSharedObject` overloads (the listener one returns an
      array that may be null, the plain one a single object). */
  datatype Container = Container(
    classExists: string -> bool,
    isInstanceOf: (string, Obj) -> bool,
    fetchAll: seq<Option<Obj>> -> Option<seq<Option<Obj>>>,
    fetchOne: seq<Option<Obj>> -> Option<Obj>)

  /** The exception the passive proxy's constructor throws, if any: the
      filters are null, empty, start with null or with something that is
      not a string, or name a class that cannot be loaded ("Bad filtering");
      a null module context fails when the container is fetched from it. */
  function ConstructionError(c: Container, ctxt: Option<Obj>, filters: Option<seq<Option<Obj>>>): (e: Option<Exception>)
    ensures e.None? <==>
              filters.Some? && filters.value != [] && filters.value[0].Some? && filters.value[0].value.Str? &&
              c.classExists(filters.value[0].value.text) && ctxt.Some?
    ensures e == Some(BadFiltering) <==>
              filters.Some? && filters.value != [] && filters.value[0].Some? && filters.value[0].value.Str? &&
              !c.classExists(filters.value[0].value.text)
    ensures e == Some(IndexOutOfBounds) <==> filters == Some([])
    ensures e == Some(ClassCast) <==> filters.Some? && filters.value != [] && filters.value[0].Some? && !filters.value[0].value.Str?
  {
    match filters
    case None => Some(NullPointer)
    case Some(fs) =>
      if fs == [] then Some(IndexOutOfBounds)
      else match fs[0]
        case None => Some(NullPointer)
        case Some(x) =>
          if !x.Str? then Some(ClassCast)
          else if !c.classExists(x.text) then Some(BadFiltering)
          else if ctxt.None? then Some(NullPointer)
          else None
  }

  /** The object the constructor adopts from the container's answer: the
      first reference, when the answer is a non-empty array. */
  function Adopted(ref: Option<seq<Option<Obj>>>): (p: Option<Obj>)
    ensures p.Some? ==> ref.Some? && |ref.value| > 0 && p == ref.value[0]
    ensures ref.Some? && |ref.value| > 0 ==> p == ref.value[0]
    ensures ref.None? || ref == Some([]) ==> p.None?
  {
    if ref.Some? && |ref.value| > 0 then ref.value[0] else None
  }

  /** The state a passive proxy's callbacks change: the proxied object and
      the remove hook of the addition that set it. */
  datatype Resolution = Resolution(proxy: Option<Obj>, remH: Option<Obj>)

  /** One `sharedObjectAdded` notification. */
  datatype Addition = Addition(obj: Option<Obj>, hook: Option<Obj>)

  /** An object the proxy takes: non-null and of the filtered type. */
  predicate Acceptable(c: Container, objectType: string, obj: Option<Obj>)
  {
    obj.Some? && c.isInstanceOf(objectType, obj.value)
  }

  /** `setObject`: the object is replaced; the stored hook is not touched. */
  function AfterSet(s: Resolution, value: Option<Obj>): (t: Resolution)
    ensures t.proxy == value && t.remH == s.remH
  {
    s.(proxy := value)
  }

  /** `sharedObjectAdded`: an unacceptable object is ignored, and so is any
      object while one is held; otherwise the object and its hook are kept. */
  function AfterAdded(c: Container, objectType: string, s: Resolution, a: Addition): (t: Resolution)
    ensures s.proxy.Some? || !Acceptable(c, objectType, a.obj) ==> t == s
    ensures s.proxy.None? && Acceptable(c, objectType, a.obj) ==> t.proxy == a.obj && t.remH == a.hook
    ensures t.proxy.Some? <==> s.proxy.Some? || Acceptable(c, objectType, a.obj)
  {
    if !Acceptable(c, objectType, a.obj) then s
    else if s.proxy.Some? then s
    else Resolution(a.obj, a.hook)
  }

  /** `sharedObjectRemoved`: the object is dropped only for the stored hook;
      the hook itself is kept. */
  function AfterRemoved(s: Resolution, hook: Option<Obj>): (t: Resolution)
    ensures t.remH == s.remH
    ensures t.proxy.None? <==> s.proxy.None? || hook == s.remH
    ensures t.proxy.Some? ==> t.proxy == s.proxy
  {
    if hook == s.remH then s.(proxy := None) else s
  }

  /** A run of notifications, in order. */
  function AfterAdditions(c: Container, objectType: string, s: Resolution, adds: seq<Addition>): (t: Resolution)
    ensures t.proxy.Some? <==> s.proxy.Some? || exists i | 0 <= i < |adds| :: Acceptable(c, objectType, adds[i].obj)
    decreases |adds|
  {
    if adds == [] then s
    else
      assert forall i | 1 <= i < |adds| :: adds[i] == adds[1..][i - 1];
      AfterAdditions(c, objectType, AfterAdded(c, objectType, s, adds[0]), adds[1..])
  }

  /** While an object is held, no notification changes anything. */
  lemma {:induction false} ResolvedIgnoresAdditions(c: Container, objectType: string, s: Resolution, adds: seq<Addition>)
    requires s.proxy.Some?
    ensures AfterAdditions(c, objectType, s, adds) == s
    decreases |adds|
  {
    if adds != [] {
      ResolvedIgnoresAdditions(c, objectType, s, adds[1..]);
    }
  }

  /** Notifications of unacceptable objects change nothing. */
  lemma {:induction false} UnacceptableIgnored(c: Container, objectType: string, s: Resolution, adds: seq<Addition>)
    requires forall j :: 0 <= j < |adds| ==> !Acceptable(c, objectType, adds[j].obj)
    ensures AfterAdditions(c, objectType, s, adds) == s
    decreases |adds|
  {
    if adds != [] {
      UnacceptableIgnored(c, objectType, s, adds[1..]);
    }
  }

  /** The first acceptable object wins: starting unresolved, after any run of
      notifications the proxy holds the first acceptable object with its
      hook, whatever comes after it. */
  lemma {:induction false} FirstValidWins(c: Container, objectType: string, s: Resolution, adds: seq<Addition>, k: nat)
    requires s.proxy.None?
    requires k < |adds| && Acceptable(c, objectType, adds[k].obj)
    requires forall j :: 0 <= j < k ==> !Acceptable(c, objectType, adds[j].obj)
    ensures AfterAdditions(c, objectType, s, adds) == Resolution(adds[k].obj, adds[k].hook)
    decreases k
  {
    if k == 0 {
      ResolvedIgnoresAdditions(c, objectType, Resolution(adds[0].obj, adds[0].hook), adds[1..]);
    } else {
      FirstValidWins(c, objectType, s, adds[1..], k - 1);
    }
  }

  /** A removal takes effect only with the identical stored hook: any other
      hook leaves the state as it was, and the stored one unresolves. */
  lemma RemovalNeedsIdenticalHook(s: Resolution, hook: Option<Obj>)
    ensures hook != s.remH ==> AfterRemoved(s, hook) == s
    ensures hook == s.remH ==> AfterRemoved(s, hook) == Resolution(None, s.remH)
    ensures AfterRemoved(s, hook) != s ==> s.proxy.Some? && hook == s.remH
  {
  }

  /** An accepted addition is undone by the removal that brings its hook, and
      by no other. */
  lemma AddThenRemove(c: Container, objectType: string, s: Resolution, a: Addition, hook: Option<Obj>)
    requires s.proxy.None? && Acceptable(c, objectType, a.obj)
    ensures AfterAdded(c, objectType, s, a).proxy == a.obj
    ensures AfterRemoved(AfterAdded(c, objectType, s, a), hook).proxy.None? <==> hook == a.hook
  {
  }

  /** Hooks are kept past the object they came with: the object adopted at
      construction (stored with no hook) is dropped by a removal with a null
      hook, and an object given to `setObject` is dropped by the hook of an
      earlier addition. */
  lemma StaleHooks(s: Resolution, value: Option<Obj>)
    ensures AfterRemoved(Resolution(s.proxy, None), None).proxy.None?
    ensures AfterRemoved(AfterSet(s, value), s.remH).proxy.None?
  {
  }

  class PassiveDependencyProxy {
    const container: Container
    const context: Obj
    /** The caller's filter array itself; it is not copied. */
    const filters: array<Option<Obj>>
    /** The class named by the first filter. */
    const objectType: string
    var proxy: Option<Obj>
    var remH: Option<Obj>

    function State(): Resolution
      reads this
    {
      Resolution(proxy, remH)
    }

    /** The constructor's work once the filters are known to be good: the
        container's first reference, if any, is adopted; no hook is stored. */
    constructor Adopting(c: Container, ctxt: Obj, filters: array<Option<Obj>>, objectType: string)
      ensures container == c && context == ctxt && this.filters == filters && this.objectType == objectType
      ensures proxy == Adopted(c.fetchAll(filters[..])) && remH.None?
    {
      container := c;
      context := ctxt;
      this.filters := filters;
      this.objectType := objectType;
      var ref := c.fetchAll(filters[..]);
      proxy := None;
      remH := None;
      if ref.Some? && |ref.value| > 0 {
        proxy := ref.value[0];
      }
    }

    /** `new PassiveDependencyProxy(ctxt, filters)`, with its exceptions. */
    static method New(c: Container, ctxt: Option<Obj>, filters: array?<Option<Obj>>) returns (r: Result<PassiveDependencyProxy>)
      ensures r.Thrown? <==> ConstructionError(c, ctxt, if filters == null then None else Some(filters[..])).Some?
      ensures r.Thrown? ==> r.error == ConstructionError(c, ctxt, if filters == null then None else Some(filters[..])).value
      ensures r.Ok? ==> fresh(r.value) && r.value.filters == filters && r.value.context == ctxt.value
      ensures r.Ok? ==> r.value.objectType == filters[0].value.text
      ensures r.Ok? ==> r.value.proxy == Adopted(c.fetchAll(filters[..])) && r.value.remH.None?
    {
      var e := ConstructionError(c, ctxt, if filters == null then None else Some(filters[..]));
      if e.Some? {
        return Thrown(e.value);
      }
      var p := new PassiveDependencyProxy.Adopting(c, ctxt.value, filters, filters[0].value.text);
      return Ok(p);
    }

    function IsResolved(): (b: bool)
      reads this
      ensures b <==> proxy.Some?
    {
      proxy.Some?
    }

    method SetObject(value: Option<Obj>)
      modifies this
      ensures State() == AfterSet(old(State()), value)
    {
      proxy := value;
    }

    method SharedObjectAdded(sharedObj: Option<Obj>, removeHook: Option<Obj>)
      modifies this
      ensures State() == AfterAdded(container, objectType, old(State()), Addition(sharedObj, removeHook))
    {
      if sharedObj.None? || !container.isInstanceOf(objectType, sharedObj.value) {
        return;
      }
      if proxy.Some? {
        return;
      }
      SetObject(sharedObj);
      remH := removeHook;
    }

    method SharedObjectRemoved(removeHook: Option<Obj>)
      modifies this
      ensures State() == AfterRemoved(old(State()), removeHook)
    {
      if removeHook == remH {
        proxy := None;
      }
    }
  }

  /** The object held after `getObject`: the old one, or the container's
      answer when there was none and a context is set. */
  function Fetched(proxy: Option<Obj>, context: Option<Obj>, fetched: Option<Obj>): (r: Option<Obj>)
    ensures r == proxy || (proxy.None? && context.Some? && r == fetched)
    ensures r.None? ==> proxy.None?
  {
    if proxy.None? && context.Some? then fetched else proxy
  }

  /** Once resolved, `getObject` keeps returning the same object whatever the
      container would now answer; while unresolved without a context it
      stays unresolved; a null answer leaves it unresolved, so the next call
      asks again. */
  lemma FetchedCases(proxy: Option<Obj>, context: Option<Obj>, fetched: Option<Obj>, later: Option<Obj>)
    ensures proxy.Some? ==> Fetched(proxy, context, fetched) == proxy
    ensures Fetched(proxy, context, fetched).Some? ==>
              Fetched(Fetched(proxy, context, fetched), context, later) == Fetched(proxy, context, fetched)
    ensures context.None? ==> Fetched(proxy, context, fetched) == proxy
    ensures proxy.None? && context.Some? ==> Fetched(proxy, context, fetched) == fetched
  {
  }

  class NPEDependencyProxy {
    /** The proxy's own copy of the filters. */
    const filters: array<Option<Obj>>
    const context: Option<Obj>
    var proxy: Option<Obj>

    /** The constructor for a non-null filter array: the filters are copied
        into a fresh array, so later changes to the caller's array are not
        seen. */
    constructor (mc: Option<Obj>, filters: array<Option<Obj>>)
      ensures fresh(this.filters) && this.filters[..] == filters[..]
      ensures context == mc && proxy.None?
    {
      this.filters := new Option<Obj>[filters.Length](i reads filters requires 0 <= i < filters.Length => filters[i]);
      context := mc;
      proxy := None;
    }

    /** `new NPEDependencyProxy(mc, filters)`: a null array throws a
        NullPointerException. */
    static method New(mc: Option<Obj>, filters: array?<Option<Obj>>) returns (r: Result<NPEDependencyProxy>)
      ensures r.Thrown? <==> filters == null
      ensures r.Thrown? ==> r.error == NullPointer
      ensures r.Ok? ==> fresh(r.value) && fresh(r.value.filters) && r.value.filters[..] == filters[..]
      ensures r.Ok? ==> r.value.context == mc && r.value.proxy.None?
    {
      if filters == null {
        return Thrown(NullPointer);
      }
      var p := new NPEDependencyProxy(mc, filters);
      return Ok(p);
    }

    function IsResolved(): (b: bool)
      reads this
      ensures b <==> proxy.Some?
    {
      proxy.Some?
    }

    /** `getFilters`: the stored copy itself. */
    function GetFilters(): (r: array<Option<Obj>>)
      reads this
      ensures r == filters
    {
      filters
    }

    /** `getObject`: asks the container only when unresolved and a context is
        set, then returns whatever is held. */
    method GetObject(c: Container) returns (r: Option<Obj>)
      modifies this
      ensures proxy == Fetched(old(proxy), context, c.fetchOne(filters[..]))
      ensures r == proxy
      ensures old(proxy).Some? ==> r == old(proxy)
    {
      if !IsResolved() && context.Some? {
        SetObject(c.fetchOne(GetFilters()[..]));
      }
      return proxy;
    }

    method SetObject(value: Option<Obj>)
      modifies this
      ensures proxy == value
    {
      proxy := value;
    }
  }
}
