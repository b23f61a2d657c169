/** The `net.pevnostgames.property` package: typed property keys kept unique by a
    registry, holders that store values under those keys, the change event, and
    the listener subscriptions and dispatch that each key carries.
    The Java classes refer to one another, so they share one module. */
module Properties {
  import opened Values
  import opened Listeners

  /** The exceptions the core throws on purpose. */
  datatype PropertyError =
    | DuplicateKey(key: string)               // IllegalArgumentException from the constructor
    | NoListenerMethod(key: string)           // RuntimeException from getListenerMethod
    | HandlerArgumentMismatch(handler: string) // IllegalArgumentException from Method.invoke, not caught

  /** The registry only grows: every earlier entry is still there, unchanged. */
  ghost predicate Extends(before: map<string, Property>, after: map<string, Property>)
  {
    forall k :: k in before ==> k in after && after[k] == before[k]
  }

  /** The process-wide `registry` map of `Property`, made an explicit object so
      that separate registries can coexist. Keys are only ever added. */
  class Registry {
    var entries: map<string, Property>

    /** Every entry is filed under its own key. */
    ghost predicate Valid()
      reads this
    {
      forall k :: k in entries ==> entries[k].key == k
    }

    constructor ()
      ensures Valid() && entries == map[]
    {
      entries := map[];
    }

    /** `new Property<T>(key, valueClass, defValue)`: refuses a key that is already
        registered and leaves the registry as it was; otherwise adds exactly
        `key -> the new property`. */
    method Define(key: string, valueClass: Tag, defValue: Option<Value>) returns (r: Result<Property, PropertyError>)
      requires Valid()
      requires HoldsInstance(valueClass, defValue)
      modifies this
      ensures Valid() && Extends(old(entries), entries)
      ensures key in old(entries) ==> r == Err(DuplicateKey(key)) && entries == old(entries)
      ensures key !in old(entries) ==>
        && r.Ok? && fresh(r.value)
        && r.value.key == key && r.value.valueClass == valueClass && r.value.defValue == defValue
        && r.value.Valid() && r.value.globalListeners == map[] && r.value.holderListeners == map[]
        && entries == old(entries)[key := r.value]
    {
      if key in entries {
        return Err(DuplicateKey(key));
      }
      var p := new Property(key, valueClass, defValue);
      entries := entries[key := p];
      return Ok(p);
    }

    /** `new Property<T>(key, valueClass)`: the same with a `null` default. */
    method DefineWithoutDefault(key: string, valueClass: Tag) returns (r: Result<Property, PropertyError>)
      requires Valid()
      modifies this
      ensures Valid() && Extends(old(entries), entries)
      ensures key in old(entries) ==> r == Err(DuplicateKey(key)) && entries == old(entries)
      ensures key !in old(entries) ==>
        && r.Ok? && fresh(r.value)
        && r.value.key == key && r.value.valueClass == valueClass && r.value.defValue == None
        && r.value.Valid() && r.value.globalListeners == map[] && r.value.holderListeners == map[]
        && entries == old(entries)[key := r.value]
    {
      r := Define(key, valueClass, None);
    }
  }

  /** One call `method.invoke(listener, event)` made by dispatch; `failed` records
      that the handler's own code threw (an `InvocationTargetException`) or that
      the method could not be accessed (an `IllegalAccessException`), both of
      which dispatch catches and reports. */
  datatype Invocation = Invocation(listener: Listener, handler: MethodDecl, event: PropertyEvent, failed: bool)

  /** `calls` invokes distinct listeners of `listeners`, each through the method it
      is bound to, which accepts the event, and with `event`; `raises` says which
      calls throw from inside the handler. */
  ghost predicate CallsFrom(calls: seq<Invocation>, listeners: map<Listener, MethodDecl>, event: PropertyEvent,
                            raises: (Listener, MethodDecl, PropertyEvent) -> bool)
  {
    && (forall i :: 0 <= i < |calls| ==>
          && calls[i].listener in listeners
          && calls[i].handler == listeners[calls[i].listener]
          && calls[i].handler.takesEvent
          && calls[i].event == event
          && calls[i].failed == raises(calls[i].listener, calls[i].handler, event))
    && (forall i, j :: 0 <= i < j < |calls| ==> calls[i].listener != calls[j].listener)
  }

  /** `calls` invokes every listener of `listeners` exactly once, in some order. */
  ghost predicate FiresEach(calls: seq<Invocation>, listeners: map<Listener, MethodDecl>, event: PropertyEvent,
                            raises: (Listener, MethodDecl, PropertyEvent) -> bool)
  {
    && CallsFrom(calls, listeners, event, raises)
    && |calls| == |listeners.Keys|
    && (forall l :: l in listeners ==> exists i :: 0 <= i < |calls| && calls[i].listener == l)
  }

  /** Every bound method can be invoked with an event. */
  predicate AcceptEvents(listeners: map<Listener, MethodDecl>)
  {
    forall l :: l in listeners ==> listeners[l].takesEvent
  }

  /** `outcome` is the uncaught exception raised by invoking, with the event, a
      method of `listeners` whose parameters do not accept it. */
  ghost predicate AbortedBy(outcome: Outcome<PropertyError>, listeners: map<Listener, MethodDecl>)
  {
    exists l :: l in listeners && !listeners[l].takesEvent && outcome == Fail(HandlerArgumentMismatch(listeners[l].name))
  }

  /** No listener is ever called through a method that cannot take the event;
      a map of only such methods gets no call at all. */
  lemma NoCallThroughRefusingHandlers(calls: seq<Invocation>, listeners: map<Listener, MethodDecl>, event: PropertyEvent,
                                      raises: (Listener, MethodDecl, PropertyEvent) -> bool)
    requires CallsFrom(calls, listeners, event, raises)
    ensures forall i :: 0 <= i < |calls| ==> listeners[calls[i].listener].takesEvent
    ensures (forall l :: l in listeners ==> !listeners[l].takesEvent) ==> calls == []
  {
    if calls != [] {
      assert listeners[calls[0].listener].takesEvent;
    }
  }

  /** One of the two loops of `invokeEvent`: visit the entries of a listener map in
      the map's own (unspecified) order and invoke each bound method. An exception
      from inside a handler is caught and the loop goes on; a bound method whose
      parameters do not accept the event makes `Method.invoke` throw an
      `IllegalArgumentException`, which is not caught and ends the loop. */
  method Fire(listeners: map<Listener, MethodDecl>, event: PropertyEvent,
              raises: (Listener, MethodDecl, PropertyEvent) -> bool)
    returns (calls: seq<Invocation>, outcome: Outcome<PropertyError>)
    ensures CallsFrom(calls, listeners, event, raises)
    ensures outcome.Pass? <==> AcceptEvents(listeners)
    ensures outcome.Pass? ==> FiresEach(calls, listeners, event, raises)
    ensures outcome.Fail? ==> AbortedBy(outcome, listeners)
  {
    calls := [];
    var pending := listeners.Keys;
    while pending != {}
      invariant pending <= listeners.Keys
      invariant |calls| + |pending| == |listeners.Keys|
      invariant forall i :: 0 <= i < |calls| ==> calls[i].listener !in pending
      invariant CallsFrom(calls, listeners, event, raises)
      invariant forall l :: l in listeners && l !in pending ==> listeners[l].takesEvent
      invariant forall l :: l in listeners && l !in pending ==> exists i :: 0 <= i < |calls| && calls[i].listener == l
      decreases pending
    {
      var listener :| listener in pending;
      var method_ := listeners[listener];
      if !method_.takesEvent {
        return calls, Fail(HandlerArgumentMismatch(method_.name));
      }
      var failed := raises(listener, method_, event);
      ghost var before := calls;
      calls := calls + [Invocation(listener, method_, event, failed)];
      assert forall i :: 0 <= i < |before| ==> calls[i] == before[i];
      assert calls[|before|].listener == listener;
      pending := pending - {listener};
    }
    outcome := Pass;
  }

  /** The two dispatch loops one after the other: every call still goes to a
      handler for `key`, and to a listener of one of the two maps. */
  lemma ConcatenatedCalls(first: seq<Invocation>, second: seq<Invocation>, key: string,
                          firstListeners: map<Listener, MethodDecl>, secondListeners: map<Listener, MethodDecl>)
    requires forall i :: 0 <= i < |first| ==>
      Handles(first[i].handler, key) && first[i].handler.takesEvent && first[i].listener in firstListeners
    requires forall i :: 0 <= i < |second| ==>
      Handles(second[i].handler, key) && second[i].handler.takesEvent && second[i].listener in secondListeners
    ensures forall i :: 0 <= i < |first + second| ==>
      && Handles((first + second)[i].handler, key) && (first + second)[i].handler.takesEvent
      && ((first + second)[i].listener in firstListeners || (first + second)[i].listener in secondListeners)
  {
    forall i | 0 <= i < |first + second|
      ensures Handles((first + second)[i].handler, key) && (first + second)[i].handler.takesEvent
      ensures (first + second)[i].listener in firstListeners || (first + second)[i].listener in secondListeners
    {
      if i < |first| {
        assert (first + second)[i] == first[i];
      } else {
        assert (first + second)[i] == second[i - |first|];
      }
    }
  }

  /** A property key: its string, the class of its values and its default value
      never change; it also keeps the listeners subscribed to it, globally and per
      holder, each bound to the handler method resolved when it subscribed. */
  class Property {
    const key: string
    const valueClass: Tag
    const defValue: Option<Value>
    var globalListeners: map<Listener, MethodDecl>
    var holderListeners: map<PropertyHolder?, map<Listener, MethodDecl>>

    /** The default has the key's class, and every listener is bound to its handler
        for this key. */
    ghost predicate Valid()
      reads this
    {
      && HoldsInstance(valueClass, defValue)
      && (forall l :: l in globalListeners ==> HandlerFor(l.methods, key) == Some(globalListeners[l]))
      && (forall h, l :: h in holderListeners && l in holderListeners[h] ==>
            HandlerFor(l.methods, key) == Some(holderListeners[h][l]))
    }

    /** The field initialisation of the constructor; the uniqueness check and the
        insertion into the registry are `Registry.Define`. */
    constructor (key: string, valueClass: Tag, defValue: Option<Value>)
      requires HoldsInstance(valueClass, defValue)
      ensures Valid()
      ensures this.key == key && this.valueClass == valueClass && this.defValue == defValue
      ensures globalListeners == map[] && holderListeners == map[]
    {
      this.key := key;
      this.valueClass := valueClass;
      this.defValue := defValue;
      globalListeners := map[];
      holderListeners := map[];
    }

    /** The listeners registered for one holder (`holderListeners.get(holder)`,
        with a missing entry read as no listeners). */
    function ListenersOf(holder: PropertyHolder?): map<Listener, MethodDecl>
      reads this
    {
      if holder in holderListeners then holderListeners[holder] else map[]
    }

    /** `equals`: the other object is a property with the same key string. */
    predicate Equals(obj: object?)
    {
      obj is Property && (obj as Property).key == key
    }

    /** `hashCode`: the key string's hash. */
    function HashCode(): (h: int)
      ensures -TWO_TO_THE_31 <= h < TWO_TO_THE_31
      ensures (HashPolynomial(key) - h) % TWO_TO_THE_32 == 0
    {
      StringHashCode(key)
    }

    /** `getListenerMethod`: scan the listener's methods in order and return the
        first one annotated with this key; fail if there is none. */
    method GetListenerMethod(listener: Listener) returns (r: Result<MethodDecl, PropertyError>)
      ensures r.Err? <==> FirstHandler(listener.methods, key).None?
      ensures r.Err? ==> r.error == NoListenerMethod(key)
      ensures r.Ok? ==> r.value == listener.methods[FirstHandler(listener.methods, key).value]
    {
      var methods := listener.methods;
      for i := 0 to |methods|
        invariant forall j :: 0 <= j < i ==> !Handles(methods[j], key)
      {
        var m := methods[i];
        if m.annotation.Some? && m.annotation.value.key == key {
          return Ok(m);
        }
      }
      return Err(NoListenerMethod(key));
    }

    /** `registerListener(holder, listener)`: bind the listener to its handler in the
        holder's listener map, replacing an earlier binding; only that holder's
        entry changes. If no handler matches, nothing changes. */
    method RegisterListener(holder: PropertyHolder?, listener: Listener) returns (o: Outcome<PropertyError>)
      requires Valid()
      modifies this
      ensures Valid()
      ensures globalListeners == old(globalListeners)
      ensures HandlerFor(listener.methods, key).None? ==>
        o == Fail(NoListenerMethod(key)) && holderListeners == old(holderListeners)
      ensures HandlerFor(listener.methods, key).Some? ==>
        && o == Pass
        && holderListeners ==
           old(holderListeners)[holder := old(ListenersOf(holder))[listener := HandlerFor(listener.methods, key).value]]
      ensures listener in old(ListenersOf(holder)) ==> ListenersOf(holder).Keys == old(ListenersOf(holder)).Keys
    {
      var listeners := ListenersOf(holder);
      var found := GetListenerMethod(listener);
      match found {
        case Err(e) =>
          return Fail(e);
        case Ok(m) =>
          listeners := listeners[listener := m];
          holderListeners := holderListeners[holder := listeners];
          return Pass;
      }
    }

    /** `registerGlobalListener(listener)`: bind the listener to its handler in the
        global listener map, replacing an earlier binding. If no handler matches,
        nothing changes. */
    method RegisterGlobalListener(listener: Listener) returns (o: Outcome<PropertyError>)
      requires Valid()
      modifies this
      ensures Valid()
      ensures holderListeners == old(holderListeners)
      ensures HandlerFor(listener.methods, key).None? ==>
        o == Fail(NoListenerMethod(key)) && globalListeners == old(globalListeners)
      ensures HandlerFor(listener.methods, key).Some? ==>
        && o == Pass
        && globalListeners == old(globalListeners)[listener := HandlerFor(listener.methods, key).value]
      ensures listener in old(globalListeners) ==> globalListeners.Keys == old(globalListeners).Keys
    {
      var found := GetListenerMethod(listener);
      match found {
        case Err(e) =>
          return Fail(e);
        case Ok(m) =>
          globalListeners := globalListeners[listener := m];
          return Pass;
      }
    }

    /** `invokeEvent(event)`: every global listener exactly once, then every
        listener registered for the event's holder exactly once, each through
        the handler it is bound to; an exception from inside a handler does not
        stop the others, and listeners registered only for other holders are not
        called. A bound method whose parameters do not accept the event ends
        dispatch with an uncaught exception: after a global one, no holder
        listener is called. */
    method InvokeEvent(event: PropertyEvent, raises: (Listener, MethodDecl, PropertyEvent) -> bool)
      returns (calls: seq<Invocation>, outcome: Outcome<PropertyError>)
      requires Valid()
      ensures outcome.Pass? <==> AcceptEvents(globalListeners) && AcceptEvents(ListenersOf(event.holder))
      ensures !AcceptEvents(globalListeners) ==>
        AbortedBy(outcome, globalListeners) && CallsFrom(calls, globalListeners, event, raises)
      ensures AcceptEvents(globalListeners) ==>
        && |calls| >= |globalListeners.Keys|
        && FiresEach(calls[..|globalListeners.Keys|], globalListeners, event, raises)
        && CallsFrom(calls[|globalListeners.Keys|..], ListenersOf(event.holder), event, raises)
      ensures AcceptEvents(globalListeners) && !AcceptEvents(ListenersOf(event.holder)) ==>
        AbortedBy(outcome, ListenersOf(event.holder))
      ensures outcome.Pass? ==>
        && |calls| == |globalListeners.Keys| + |ListenersOf(event.holder).Keys|
        && FiresEach(calls[|globalListeners.Keys|..], ListenersOf(event.holder), event, raises)
      ensures forall i :: 0 <= i < |calls| ==> Handles(calls[i].handler, key) && calls[i].handler.takesEvent
      ensures forall i :: 0 <= i < |calls| ==>
        calls[i].listener in globalListeners || calls[i].listener in ListenersOf(event.holder)
    {
      var global, globalOutcome := Fire(globalListeners, event, raises);
      BoundHandlersHandle(global, globalListeners, event, raises);
      if globalOutcome.Fail? {
        return global, globalOutcome;
      }
      var scoped, scopedOutcome := Fire(ListenersOf(event.holder), event, raises);
      BoundHandlersHandle(scoped, ListenersOf(event.holder), event, raises);
      calls := global + scoped;
      outcome := scopedOutcome;
      assert calls[..|global|] == global;
      assert calls[|global|..] == scoped;
      ConcatenatedCalls(global, scoped, key, globalListeners, ListenersOf(event.holder));
    }

    /** Dispatch through bindings made by registration calls only handlers
        annotated with this property's key. */
    lemma BoundHandlersHandle(calls: seq<Invocation>, listeners: map<Listener, MethodDecl>, event: PropertyEvent,
                              raises: (Listener, MethodDecl, PropertyEvent) -> bool)
      requires CallsFrom(calls, listeners, event, raises)
      requires forall l :: l in listeners ==> HandlerFor(l.methods, key) == Some(listeners[l])
      ensures forall i :: 0 <= i < |calls| ==>
        Handles(calls[i].handler, key) && calls[i].handler.takesEvent && calls[i].listener in listeners
    {
      forall i | 0 <= i < |calls|
        ensures Handles(calls[i].handler, key)
      {
        var l := calls[i].listener;
        assert HandlerFor(l.methods, key) == Some(calls[i].handler);
      }
    }
  }

  /** A `PropertyHolder`: values stored by key string. A `null` value may be
      stored; it reads as absent. */
  class PropertyHolder {
    var properties: map<string, Option<Value>>

    constructor ()
      ensures properties == map[]
    {
      properties := map[];
    }

    /** `getProperty(key)`: the stored value of the key's class, else the key's
        default; the result always has the key's class or is `null`. */
    function GetProperty(p: Property): (r: Option<Value>)
      reads this
      requires HoldsInstance(p.valueClass, p.defValue)
      ensures HoldsInstance(p.valueClass, r)
      ensures r != p.defValue ==> p.key in properties && properties[p.key] == r
    {
      Lookup(properties, p, p.defValue)
    }

    /** `getProperty(key, defValue)`: see `Lookup`; the result always has the key's
        class or is `null`. */
    function GetPropertyOr(p: Property, fallback: Option<Value>): (r: Option<Value>)
      reads this
      requires HoldsInstance(p.valueClass, p.defValue)
      requires HoldsInstance(p.valueClass, fallback)
      ensures HoldsInstance(p.valueClass, r)
    {
      Lookup(properties, p, fallback)
    }

    /** `setProperty(key, value)`: store `value` (possibly `null`) under the key string
        and report the value it displaced if that had the key's class. No
        listener is notified. */
    method SetProperty(p: Property, value: Option<Value>) returns (previous: Option<Value>)
      requires HoldsInstance(p.valueClass, value)
      modifies this
      ensures properties == old(properties)[p.key := value]
      ensures previous == Displaced(old(properties), p)
    {
      var obj := if p.key in properties then properties[p.key] else None;
      properties := properties[p.key := value];
      if obj.None? {
        return None;
      }
      previous := None;
      if IsInstance(p.valueClass, obj.value) {
        previous := obj;
      }
    }
  }

  /** What `getProperty(key, fallback)` returns from a store: the caller's fallback
      when nothing (or `null`) is stored under the key string; the stored value when
      it has the key's class; and otherwise the key's own default, not the fallback. */
  function Lookup(properties: map<string, Option<Value>>, p: Property, fallback: Option<Value>): (r: Option<Value>)
    ensures r == fallback || r == p.defValue ||
            (p.key in properties && r == properties[p.key] && r.Some? && IsInstance(p.valueClass, r.value))
    ensures HoldsInstance(p.valueClass, fallback) && HoldsInstance(p.valueClass, p.defValue) ==>
            HoldsInstance(p.valueClass, r)
  {
    if p.key !in properties || properties[p.key].None? then fallback
    else if IsInstance(p.valueClass, properties[p.key].value) then properties[p.key]
    else p.defValue
  }

  /** What `setProperty` reports as the previous value: the stored value if there
      was one of the key's class, `null` otherwise. */
  function Displaced(properties: map<string, Option<Value>>, p: Property): (r: Option<Value>)
    ensures HoldsInstance(p.valueClass, r)
    ensures r.Some? ==> p.key in properties && properties[p.key] == r
  {
    if p.key in properties && properties[p.key].Some? && IsInstance(p.valueClass, properties[p.key].value)
    then properties[p.key]
    else None
  }

  /** The change record handed to listeners. Only the new value can change. */
  class PropertyEvent {
    const property: Property
    const holder: PropertyHolder?
    const oldValue: Option<Value>
    var newValue: Option<Value>

    /** Both values have the property's class (or are `null`). */
    ghost predicate Valid()
      reads this
    {
      HoldsInstance(property.valueClass, oldValue) && HoldsInstance(property.valueClass, newValue)
    }

    constructor (property: Property, holder: PropertyHolder?, oldValue: Option<Value>, newValue: Option<Value>)
      requires HoldsInstance(property.valueClass, oldValue) && HoldsInstance(property.valueClass, newValue)
      ensures Valid()
      ensures this.property == property && this.holder == holder
      ensures this.oldValue == oldValue && this.newValue == newValue
    {
      this.property := property;
      this.holder := holder;
      this.oldValue := oldValue;
      this.newValue := newValue;
    }

    /** `setNewValue(v)`: the event now reports `v` as its new value; its property,
        holder and old value are final fields and stay as they were. */
    method SetNewValue(v: Option<Value>)
      requires Valid()
      requires HoldsInstance(property.valueClass, v)
      modifies this
      ensures Valid()
      ensures newValue == v
    {
      newValue := v;
    }
  }
}
