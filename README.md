# Typed property keys, holders and change listeners — a Dafny model

This project models the core of the `net.pevnostgames.property` Java library.
The library is a typed key-value attribute store:

- A `Property` is a key. It has a key string, the class of its values and a default value.
  Constructing one registers it under its key string in a process-wide registry, which refuses a key string it already holds.
- A `PropertyHolder` stores values by key string.
  `getProperty` checks the stored value's class against the key's class.
  A missing or `null` entry gives the caller's fallback. A stored value of another class gives the key's own default.
  `setProperty` stores a value and reports the one it displaced, when that value had the key's class.
- Each `Property` also keeps listeners. Global listeners watch every holder; per-holder listeners watch one holder.
  Each listener is bound to the first of its methods whose `@PropertyChanged` annotation names the key.
  `invokeEvent` calls the global listeners and then those of the event's holder.
  An exception thrown by a handler's own code is caught, and the other listeners are still called.
  A bound method whose parameters do not accept the event makes `Method.invoke` throw an `IllegalArgumentException` that is not caught, and dispatch stops there.
- A `PropertyEvent` records the property, the holder, the old value and the new value. Only the new value can change.

Files:

- `values.dfy` (module `Values`): `Option`/`Result`/`Outcome`, Java `int`, the closed set of value classes (`Tag`) and values, and `String.hashCode` with its 32-bit wrap-around.
- `listeners.dfy` (module `Listeners`): the `@PropertyChanged` annotation, listener objects as lists of methods, and handler resolution.
- `properties.dfy` (module `Properties`): the classes `Registry`, `Property`, `PropertyHolder` and `PropertyEvent`, plus the dispatch loop `Fire`.
  They share one module because the Java classes refer to each other.
- `holder_laws.dfy`, `key_laws.dfy`: lemmas about holders, key identity and the registry.
- `scenario.dfy`: the repository's `Example` program replayed as verified test vectors.

Modelling choices:

- The static `registry` is an explicit `Registry` object.
  The throwing constructor becomes `Registry.Define`, which returns `Err(DuplicateKey(key))` and leaves the registry as it was.
  The `Property` constructor itself only initialises the fields.
- `Class<T>` is a closed `Tag`, and `isInstance` is equality of tags. `null` is `None`.
  Java's static typing of `T` arguments is the `HoldsInstance` precondition.
- The getters `getKey`, `getValueClass` and `getDefaultValue` are the `const` fields `key`, `valueClass` and `defValue`.
  Those of `PropertyEvent` are its fields `property`, `holder`, `oldValue` and `newValue`.
  Final fields that hold immutable values are `const`, so no method can change them.
  The final maps (`globalListeners`, `holderListeners` and a holder's `properties`) are mutated in place in Java.
  In the model they are `var` fields holding the map contents, which the registration and store methods reassign.
- Reflection becomes a listener's list of `MethodDecl`s, in the order `getMethods` returns them.
  `Method.invoke` becomes an `Invocation` record in the returned call trace.
  Whether a handler's own code throws is given by the parameter `raises`.
  Whether a method's parameter list accepts the event is the `takesEvent` flag of its `MethodDecl`.
  Resolution does not look at that flag, as `getListenerMethod` does not look at parameters.
- `HashMap` iteration order is left open: `Fire` visits the listeners in whatever order it chooses.
  When the loop completes, its contract only says that each listener was called exactly once.

Notes on what the code does:

- `setProperty` does not dispatch any event (PropertyHolder.java:70-81), so `SetProperty` notifies no one.
  Dispatch is the separate operation `Property.InvokeEvent`, as `invokeEvent` is in the code.
- A stored value of the wrong class makes `getProperty(key, fallback)` return the key's default, not the caller's fallback (PropertyHolder.java:56-60).
- The `if (method != null)` test in `invokeEvent` can never fail, because registration stores only resolved methods.
  The model has no null method.
- `invokeEvent` catches only `IllegalAccessException` and `InvocationTargetException` (Property.java:146-149, 163-166).
  So a bound method that cannot take the event ends dispatch with `HandlerArgumentMismatch`. After a global one, no holder listener is called.
- The comment at Example.java:39-40 says the second `setProperty` prints 84558. The code stores 84588, and `RunExample` proves that 84588 comes back.

## Model

| member | source | states |
|---|---|---|
| Values.ToInt32 | src/main/java/net/pevnostgames/property/Property.java:173-175 | Java `int` narrowing: the result is in the 32-bit range and congruent to the input modulo 2^32 |
| Values.StringHashCode | src/main/java/net/pevnostgames/property/Property.java:173-175 | `String.hashCode` with wrap-around at every step: an `int` congruent modulo 2^32 to the exact polynomial hash of the key |
| Values.StringHashCodeUnique | src/main/java/net/pevnostgames/property/Property.java:173-175 | the two facts above determine the hash, so the contract of `StringHashCode` fixes the hash code completely |
| Listeners.FirstHandler | src/main/java/net/pevnostgames/property/Property.java:123-135 | no position when no method is annotated with the key; otherwise the position of an annotated method with no annotated method before it |
| Listeners.HandlerFor | src/main/java/net/pevnostgames/property/Property.java:123-135 | the bound handler is one of the listener's methods and is annotated with the key; there is none exactly when no method is |
| Listeners.ResolutionIgnoresAnnotationType | src/main/java/net/pevnostgames/property/Property.java:127-129 | only the annotation's key decides resolution; the annotation's `type`, the method names and the parameter lists play no part |
| Listeners.FirstHandlerWins | src/main/java/net/pevnostgames/property/Property.java:126-133 | methods after the first matching one never change the binding (early return) |
| Properties.Registry.constructor | src/main/java/net/pevnostgames/property/Property.java:27 | the registry starts empty |
| Properties.Registry.Define | src/main/java/net/pevnostgames/property/Property.java:55-63 | a duplicate key string gives `DuplicateKey` and leaves the registry unchanged; otherwise adds exactly `key -> new property`, and the new property has the given key, class and default and no listeners; either way every earlier entry stays (`Extends`) |
| Properties.Registry.DefineWithoutDefault | src/main/java/net/pevnostgames/property/Property.java:42-44 | the two-argument constructor: the same as `Define`, with a `null` default, and it also keeps every earlier entry |
| Properties.Property.constructor | src/main/java/net/pevnostgames/property/Property.java:59-61 | the key, class and default are the arguments; both listener maps start empty |
| Properties.Property.HashCode | src/main/java/net/pevnostgames/property/Property.java:172-175 | the hash is a function of the key string alone: the 32-bit reduction of its polynomial hash |
| Properties.Property.GetListenerMethod | src/main/java/net/pevnostgames/property/Property.java:123-135 | the loop returns the first method annotated with this key, and fails with `NoListenerMethod` exactly when there is none |
| Properties.Property.RegisterListener | src/main/java/net/pevnostgames/property/Property.java:72-80 | binds the listener to its resolved handler in this holder's map, replacing an earlier binding; other holders' maps and the global map are untouched; a failed resolution changes nothing; re-registering does not add an entry |
| Properties.Property.RegisterGlobalListener | src/main/java/net/pevnostgames/property/Property.java:88-90 | binds the listener to its resolved handler in the global map, replacing an earlier binding; per-holder maps are untouched; a failed resolution changes nothing; re-registering does not add an entry |
| Properties.Fire | src/main/java/net/pevnostgames/property/Property.java:138-151 | one dispatch loop: calls go to distinct listeners of the map, through their bound methods, with the event; a call whose handler throws is recorded and the loop continues; the loop completes, calling every listener exactly once, exactly when every bound method accepts the event, and otherwise fails with `HandlerArgumentMismatch` naming a method of the map that does not |
| Properties.NoCallThroughRefusingHandlers | src/main/java/net/pevnostgames/property/Property.java:144 | no listener is called through a method that cannot take the event, so a map of only such methods gets no call |
| Properties.Property.InvokeEvent | src/main/java/net/pevnostgames/property/Property.java:137-170 | succeeds exactly when every global and holder-bound method accepts the event, and then calls every global listener exactly once and then every listener of the event's holder exactly once, whatever the handlers throw; a global method that refuses the event ends dispatch before any holder listener; nobody else is called, and every call goes to a handler annotated with this key |
| Properties.PropertyHolder.constructor | src/main/java/net/pevnostgames/property/PropertyHolder.java:29 | a new holder stores nothing |
| Properties.PropertyHolder.GetProperty | src/main/java/net/pevnostgames/property/PropertyHolder.java:38-40 | the result has the key's class or is `null`; anything other than the key's default is the value stored under the key string |
| Properties.PropertyHolder.GetPropertyOr | src/main/java/net/pevnostgames/property/PropertyHolder.java:50-61 | the result has the key's class or is `null` (no cast can fail) |
| Properties.PropertyHolder.SetProperty | src/main/java/net/pevnostgames/property/PropertyHolder.java:70-81 | only the entry under the key string changes, and it becomes the new value; the reported value is what `Displaced` gives for the old store |
| Properties.Lookup | src/main/java/net/pevnostgames/property/PropertyHolder.java:50-61 | the answer is the fallback, the key's default, or a stored value of the key's class; with typed fallback and default it always has the key's class |
| Properties.Displaced | src/main/java/net/pevnostgames/property/PropertyHolder.java:70-81 | the reported previous value has the key's class or is `null`, and a non-null report is what was stored under the key string |
| Properties.PropertyEvent.constructor | src/main/java/net/pevnostgames/property/PropertyEvent.java:12-17 | the event holds the given property, holder, old value and new value |
| Properties.PropertyEvent.SetNewValue | src/main/java/net/pevnostgames/property/PropertyEvent.java:35-37 | the new value becomes the argument; property, holder and old value are `const` and stay as they were |
| HolderLaws.FreshHolderAnswersFallback | src/main/java/net/pevnostgames/property/PropertyHolder.java:38-54 | on an empty store `getProperty(k)` is `k`'s default and `getProperty(k, d)` is `d` |
| HolderLaws.SetThenGet | src/main/java/net/pevnostgames/property/PropertyHolder.java:50-57 | a stored non-null value of the key's class reads back as itself, whatever the fallback |
| HolderLaws.StoredNullReadsAsAbsent | src/main/java/net/pevnostgames/property/PropertyHolder.java:51-54 | after storing `null`, reads give the caller's fallback |
| HolderLaws.MismatchYieldsKeyDefault | src/main/java/net/pevnostgames/property/PropertyHolder.java:56-60 | a stored value of another class reads as the key's default, not the caller's fallback |
| HolderLaws.DisplacedCases | src/main/java/net/pevnostgames/property/PropertyHolder.java:70-81 | `setProperty` reports `null` when nothing non-null was stored, the stored value when it has the key's class, and `null` when it has another class |
| HolderLaws.SecondSetReportsFirst | src/main/java/net/pevnostgames/property/PropertyHolder.java:70-81 | a second set on the same key reports the value the first one stored |
| HolderLaws.OtherKeysUnaffected | src/main/java/net/pevnostgames/property/PropertyHolder.java:71 | a store under one key string changes neither reads nor reports for any other key string |
| HolderLaws.SameKeySharesSlot | src/main/java/net/pevnostgames/property/PropertyHolder.java:50-61 | distinct property objects with the same key string share one slot whatever their classes: a store through one reads back through the other as the value, the caller's fallback for `null`, or the other's own default when the value is not of the other's class; with equal class and default they read alike |
| HolderLaws.StoreKeepsConformance | src/main/java/net/pevnostgames/property/PropertyHolder.java:70-71 | storing through a registered key keeps every stored value of the class its registered key declares |
| HolderLaws.ConformingStoreNeverMismatches | src/main/java/net/pevnostgames/property/PropertyHolder.java:50-61 | in such a store the mismatch branch is never taken: reads give the stored value or the fallback |
| HolderLaws.SetTwice | src/main/java/net/pevnostgames/property/PropertyHolder.java:70-81 | two consecutive sets: the second reports the first value, and the key then reads the second value |
| KeyLaws.EqualsIsEquivalence | src/main/java/net/pevnostgames/property/Property.java:177-180 | `equals` is reflexive, symmetric and transitive |
| KeyLaws.EqualsIffSameKey | src/main/java/net/pevnostgames/property/Property.java:177-180 | two properties are equal exactly when their key strings are equal |
| KeyLaws.EqualsOnlyProperties | src/main/java/net/pevnostgames/property/Property.java:179 | `equals(null)` and `equals` of a non-property are false |
| KeyLaws.EqualKeysHashAlike | src/main/java/net/pevnostgames/property/Property.java:172-180 | equal properties have equal hash codes |
| KeyLaws.ExtendsTransitive | src/main/java/net/pevnostgames/property/Property.java:27 | since each `Define` keeps every earlier entry, so does any sequence of definitions |
| KeyLaws.RegisteredEqualsIsIdentity | src/main/java/net/pevnostgames/property/Property.java:56-58 | within one registry no two keys share a key string, so `equals` coincides with identity |
| KeyLaws.NumberKeyHash | src/main/java/net/pevnostgames/property/Property.java:173-175 | `"NUMBER".hashCode()` is -1981034679, as the JVM computes it with overflow |
| Scenario.ExampleMethods | src/main/java/net/pevnostgames/property/Example.java:58-66 | the example listener resolves `NUMBER` to `numberChanged` and `STRING` to `stringChanged` |
| Scenario.DefineExampleKeys | src/main/java/net/pevnostgames/property/Example.java:8-13 | defining `NUMBER` and `STRING` in a fresh registry succeeds, with their classes and defaults |
| Scenario.RunExample | src/main/java/net/pevnostgames/property/Example.java:21-54 | the example prints 3943, 9342327, "This requires no cast", null, null, 84588, 24, null, "test1", "test2" |
| Scenario.SubscribeExample | src/main/java/net/pevnostgames/property/Example.java:34-48 | after the example's two registrations, `NUMBER` has the example object as its only global listener, bound to `numberChanged`, and no holder listeners; `STRING` has no global listener and one listener on the holder, bound to `stringChanged` |
| Scenario.DispatchExample | src/main/java/net/pevnostgames/property/Property.java:153-169 | an event on the subscribed holder calls `stringChanged` once; an event on another holder calls nobody |
| Scenario.AbortedDispatch | src/main/java/net/pevnostgames/property/Property.java:139-150 | a global listener bound to a `stringChanged` that takes no event makes dispatch fail before any call, so the holder's listener is never reached |
| Scenario.RedefineExampleKey | src/main/java/net/pevnostgames/property/Property.java:56-58 | defining `NUMBER` a second time is refused |

## Left out

- Reflection (`getMethods`, `isAnnotationPresent`, `getAnnotation`, `Method.invoke`) is not modelled. A listener is the list of its public methods with their annotations, taken as given.
- What a listener's handler does is not modelled. Only whether it throws is recorded, through the parameter `raises`.
  A handler that changes the event, or registers listeners while dispatch iterates (a `ConcurrentModificationException` in Java), is outside the model.
- `printStackTrace` and the exception classes are left out. A caught failure is the `failed` flag of an `Invocation`.
- `HashMap` iteration order, `toString`, `Serializable` and `serialVersionUID` are left out.
- Java generics and erasure are left out. The value classes are closed to `Integer`, `String` and `Boolean`, so subclass instances are not modelled.
  Values that reach a typed parameter through raw types or unchecked casts are excluded by the `HoldsInstance` preconditions.
- Properties.Property.constructor: calling it directly skips the uniqueness check. Java cannot construct a `Property` without consulting the registry, and in the model that check is `Registry.Define`.
- Values.StringHashCode: counts each character as its Unicode code point. Java hashes UTF-16 code units, so keys with characters outside the Basic Multilingual Plane hash differently.
- `Property.equals` is the predicate `Equals`; it has no contract of its own, and its laws are stated in `KeyLaws`.
- `PropertyListener.onPropertyUpdate` is never called by dispatch and is not modelled. `PropertyChanged` appears only as the annotation datatype.
- `Example.main` and the console output are not modelled. The example's values are returned as sequences instead.
- Concurrency is not modelled; the library is single-threaded.
- Listener maps key listeners by object identity. A listener class that overrides `equals`/`hashCode` would make equal listeners share one `HashMap` entry. For such a class `put` keeps the first key object and replaces only the method, and that is not modelled.
- A `null` key string, class or listener makes the Java code throw `NullPointerException` (Property.java:124, 174, 179; PropertyHolder.java:56, 77). The model's types have no `null` for these, so those paths do not arise.
- Other unchecked exceptions raised inside `Method.invoke` are not modelled, apart from the argument mismatch. One example is an `ExceptionInInitializerError`.
