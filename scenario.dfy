/** The demonstration program of the repository (`Example`), replayed against the
    model: two keys, one holder, one listener object with two annotated handlers. */
module Scenario {
  import opened Values
  import opened Listeners
  import opened Properties

  /** The public methods of the `Example` class that carry an annotation, plus
      one that does not. */
  function ExampleMethods(): (ms: seq<MethodDecl>)
    ensures |ms| == 3 && ms[0].name == "numberChanged" && ms[1].name == "stringChanged"
    ensures HandlerFor(ms, "NUMBER") == Some(ms[0]) && HandlerFor(ms, "STRING") == Some(ms[1])
  {
    [ MethodDecl("numberChanged", Some(PropertyChanged("NUMBER", IntT)), true),
      MethodDecl("stringChanged", Some(PropertyChanged("STRING", StrT)), true),
      MethodDecl("main", None, false) ]
  }

  /** Defines the two keys of `Example` in a fresh registry. */
  method DefineExampleKeys() returns (registry: Registry, number: Property, text: Property)
    ensures fresh(registry) && registry.Valid() && registry.entries == map["NUMBER" := number, "STRING" := text]
    ensures number.key == "NUMBER" && number.valueClass == IntT && number.defValue == Some(IntV(3943))
    ensures text.key == "STRING" && text.valueClass == StrT && text.defValue == Some(StrV("This requires no cast"))
    ensures fresh(number) && fresh(text) && number != text && number.Valid() && text.Valid()
    ensures number.globalListeners == map[] && number.holderListeners == map[]
    ensures text.globalListeners == map[] && text.holderListeners == map[]
  {
    registry := new Registry();
    var defined := registry.Define("NUMBER", IntT, Some(IntV(3943)));
    number := defined.value;
    defined := registry.Define("STRING", StrT, Some(StrV("This requires no cast")));
    text := defined.value;
  }

  /** The reads and writes of the `Example` constructor on a fresh holder; returns,
      in order, the values it prints. */
  method RunExample() returns (printed: seq<Option<Value>>)
    ensures printed == [ Some(IntV(3943)), Some(IntV(9342327)), Some(StrV("This requires no cast")), None,
                         None, Some(IntV(84588)), Some(IntV(24)),
                         None, Some(StrV("test1")), Some(StrV("test2")) ]
  {
    var registry, number, text := DefineExampleKeys();
    var holder := new PropertyHolder();

    var got := holder.GetProperty(number);
    printed := [got];
    got := holder.GetPropertyOr(number, Some(IntV(9342327)));
    printed := printed + [got];
    got := holder.GetProperty(text);
    printed := printed + [got];
    got := holder.GetPropertyOr(text, None);
    printed := printed + [got];

    var previous := holder.SetProperty(number, Some(IntV(84588)));
    printed := printed + [previous];
    previous := holder.SetProperty(number, Some(IntV(24)));
    printed := printed + [previous];
    got := holder.GetProperty(number);
    printed := printed + [got];

    previous := holder.SetProperty(text, Some(StrV("test1")));
    printed := printed + [previous];
    previous := holder.SetProperty(text, Some(StrV("test2")));
    printed := printed + [previous];
    got := holder.GetProperty(text);
    printed := printed + [got];
  }

  /** The subscriptions of `Example`: its object listens globally to `NUMBER`
      through `numberChanged`, and to `STRING` on its holder only, through
      `stringChanged`. */
  method SubscribeExample() returns (registry: Registry, number: Property, text: Property,
                                     holder: PropertyHolder, example: Listener)
    ensures registry.Valid() && "NUMBER" in registry.entries && number.Valid() && text.Valid()
    ensures number.key == "NUMBER" && number.holderListeners == map[]
    ensures number.globalListeners == map[example := ExampleMethods()[0]]
    ensures text.key == "STRING" && text.valueClass == StrT && text.globalListeners == map[]
    ensures text.holderListeners == map[holder := map[example := ExampleMethods()[1]]]
  {
    registry, number, text := DefineExampleKeys();
    holder := new PropertyHolder();
    example := new Listener(ExampleMethods());
    var registered := number.RegisterGlobalListener(example);
    assert registered == Pass;
    registered := text.RegisterListener(holder, example);
    assert registered == Pass;
  }

  /** Dispatching an event for `STRING` on the subscribed holder calls
      `stringChanged` once; on another holder it calls nobody. */
  method DispatchExample() returns (onHolder: seq<Invocation>, elsewhere: seq<Invocation>)
    ensures |onHolder| == 1 && onHolder[0].handler.name == "stringChanged" && !onHolder[0].failed
    ensures elsewhere == []
  {
    var registry, number, text, holder, example := SubscribeExample();
    assert text.ListenersOf(holder).Keys == {example};
    var event := new PropertyEvent(text, holder, Some(StrV("test1")), Some(StrV("test2")));
    var outcome;
    onHolder, outcome := text.InvokeEvent(event, (l, m, e) => false);
    assert outcome.Pass?;
    assert onHolder[0].listener in text.ListenersOf(holder);

    var other := new PropertyHolder();
    assert text.ListenersOf(other) == map[];
    event := new PropertyEvent(text, other, None, Some(StrV("test3")));
    elsewhere, outcome := text.InvokeEvent(event, (l, m, e) => false);
  }

  /** `STRING` with a careless global listener, bound to a `stringChanged` that
      takes no event, and the `Example` object on one holder. */
  method SubscribeCareless() returns (text: Property, holder: PropertyHolder, careless: Listener)
    ensures text.Valid() && text.key == "STRING" && text.valueClass == StrT
    ensures text.globalListeners == map[careless := MethodDecl("stringChanged", Some(PropertyChanged("STRING", StrT)), false)]
  {
    var registry, number;
    registry, number, text := DefineExampleKeys();
    holder := new PropertyHolder();
    careless := new Listener([MethodDecl("stringChanged", Some(PropertyChanged("STRING", StrT)), false)]);
    var example := new Listener(ExampleMethods());
    var registered := text.RegisterGlobalListener(careless);
    assert registered == Pass;
    registered := text.RegisterListener(holder, example);
    assert registered == Pass;
  }

  /** Dispatch past that careless listener fails with an uncaught exception
      before any call, so no listener on the holder is reached. */
  method AbortedDispatch() returns (calls: seq<Invocation>, outcome: Outcome<PropertyError>)
    ensures calls == [] && outcome == Fail(HandlerArgumentMismatch("stringChanged"))
  {
    var text, holder, careless := SubscribeCareless();
    assert !AcceptEvents(text.globalListeners) by {
      assert !text.globalListeners[careless].takesEvent;
    }
    var event := new PropertyEvent(text, holder, None, Some(StrV("test1")));
    calls, outcome := text.InvokeEvent(event, (l, m, e) => false);
    NoCallThroughRefusingHandlers(calls, text.globalListeners, event, (l, m, e) => false);
  }

  /** A second definition of `NUMBER`, with another class, is refused. */
  method RedefineExampleKey() returns (again: Result<Property, PropertyError>)
    ensures again == Err(DuplicateKey("NUMBER"))
  {
    var registry, number, text := DefineExampleKeys();
    again := registry.Define("NUMBER", StrT, None);
  }
}
