/** Listeners as the dispatch code sees them: objects whose class exposes public
    methods, some of which carry a `@PropertyChanged(key, type)` annotation.
    Reflection is replaced by the list of those methods, in the order
    `Class.getMethods` returns them. */
module Listeners {
  import opened Values

  /** The `@PropertyChanged(key = ..., type = ...)` annotation. */
  datatype PropertyChanged = PropertyChanged(key: string, valueType: Tag)

  /** One public method of a listener's class, with its annotation if it has one.
      `takesEvent` says that its parameter list accepts exactly one `PropertyEvent`;
      resolution does not look at it, but `Method.invoke` with the event fails
      without it. */
  datatype MethodDecl = MethodDecl(name: string, annotation: Option<PropertyChanged>, takesEvent: bool)

  /** A `PropertyListener` object. Maps keyed by listeners compare them by
      identity, as `HashMap` does for a class that keeps `Object.equals`. */
  class Listener {
    const methods: seq<MethodDecl>

    constructor (methods: seq<MethodDecl>)
      ensures this.methods == methods
    {
      this.methods := methods;
    }
  }

  /** The method is annotated with `@PropertyChanged` and the annotation names `key`.
      The annotation's `type` is not consulted. */
  predicate Handles(m: MethodDecl, key: string)
  {
    m.annotation.Some? && m.annotation.value.key == key
  }

  /** The position of the first method that handles `key`, if any. */
  function FirstHandler(methods: seq<MethodDecl>, key: string): (r: Option<nat>)
    ensures r.None? <==> forall i :: 0 <= i < |methods| ==> !Handles(methods[i], key)
    ensures r.Some? ==>
      && r.value < |methods|
      && Handles(methods[r.value], key)
      && forall j :: 0 <= j < r.value ==> !Handles(methods[j], key)
  {
    if methods == [] then None
    else if Handles(methods[0], key) then Some(0)
    else
      match FirstHandler(methods[1..], key)
      case None => None
      case Some(i) => Some(i + 1)
  }

  /** The handler a listener is bound to for `key`: the first annotated method
      whose annotation names `key`. */
  function HandlerFor(methods: seq<MethodDecl>, key: string): (r: Option<MethodDecl>)
    ensures r.Some? ==> Handles(r.value, key) && r.value in methods
    ensures r.None? <==> forall m :: m in methods ==> !Handles(m, key)
  {
    match FirstHandler(methods, key)
    case None => None
    case Some(i) => Some(methods[i])
  }

  /** Only the annotation's key takes part in resolution: two method lists that
      differ only in annotation types, method names or parameter lists resolve
      to the same position. */
  lemma {:induction false} ResolutionIgnoresAnnotationType(ms: seq<MethodDecl>, ns: seq<MethodDecl>, key: string)
    requires |ms| == |ns|
    requires forall i :: 0 <= i < |ms| ==> Handles(ms[i], key) == Handles(ns[i], key)
    ensures FirstHandler(ms, key) == FirstHandler(ns, key)
  {
    if ms != [] && !Handles(ms[0], key) {
      ResolutionIgnoresAnnotationType(ms[1..], ns[1..], key);
    }
  }

  /** Whatever comes after the first handler cannot change the binding. */
  lemma {:induction false} FirstHandlerWins(ms: seq<MethodDecl>, more: seq<MethodDecl>, key: string)
    requires FirstHandler(ms, key).Some?
    ensures HandlerFor(ms + more, key) == HandlerFor(ms, key)
  {
    if !Handles(ms[0], key) {
      assert (ms + more)[1..] == ms[1..] + more;
      FirstHandlerWins(ms[1..], more, key);
    }
  }
}
