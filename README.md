# shared-futures, modelled in Dafny

shared-futures is a Spring/AspectJ library. A method annotated `@SharedFuture`
returns a future. While one such future is in flight, every identical call
gets that future instead of starting the computation again. When the future
completes, normally or exceptionally, the sharing ends.

The model covers the three classes that do this:

- **The default key generator** (`KeyGen`, `key_generator.dfy`). It turns a call into the string
  `Cls#method(a1,a2,...)`, renders each argument by a recursive dispatch on its
  type, and hashes the string.
  - Specification functions: `Render`, `RenderList`, `RenderAll`, `RenderArgs`, `CompositeKey`, `Key`.
  - `GetParamKey`, `GetMapEntryParam`, `GetCollectionParam` and `Generate` follow the original's
    dispatch and its `StringBuilder` loops. Each is proved equal to its specification function.
- **The registry** (`Registry`, `registry.dfy`). A class holding a `map` from key to future, with
  `Get`, `Put`, `Remove` and `Contains`, each stated as Java `Map` semantics over the field.
- **The aspect** (`Aspect`, `aspect.dfy`).
  - Key selection: the annotation's literal key, a `#{...}` expression, or the generator.
  - The kind dispatch of `subscribeForRemoval`.
  - The get / proceed / subscribe / put step of `aroundSharedFutures`, as a class over the registry.
    - `pending` holds the removal callbacks not yet run.
    - `nextId` counts the invocations of the intercepted method.
  - `Complete(h)` is the completion event: the future `h` completes and its callback runs.
  - `Valid()` is the invariant that ties the registry to the pending callbacks.

Futures are handles.
- `Original(id, kind)` is the `id`-th future an intercepted method returned.
- `WhenComplete(base)` is the separate future that `CompletableFuture.whenComplete` returns.
- `Root` gives the computation behind a handle.

External code becomes parameters:
- `hash`: MD5 (`DigestUtils.md5Hex`).
- `eval`: SpEL evaluation of the text inside `#{...}`, given the call. It returns a string, null or an exception message.
- `settled` says whether the future `proceed` returned has already completed.

Two facts about the code shape the model:
- looking a key up and registering a future are two separate steps, `registry.get` and then `registry.put`, so the pair is not atomic;
- the removal callback calls `registry.remove(key)` unconditionally, whatever future the key maps to by then.

The model follows the code in both places.

## Model

Paths are relative to the repository root.

| member | source | states |
|---|---|---|
| KeyGen.GetParamKey | src/main/java/com/ulisesbocchio/sharedfutures/spring/DefaultKeyGenerator.java:44-61 | Rendering an argument gives exactly `Render`. A SharedFutureKey gives its key, a String is verbatim, a primitive gives its `toString`, a collection or map goes through the collection rendering, and an entry gives `k=v`. A null raises NullPointerException; any other type raises IllegalArgumentException. |
| KeyGen.GetMapEntryParam | src/main/java/com/ulisesbocchio/sharedfutures/spring/DefaultKeyGenerator.java:63-67 | An entry renders as the key's rendering, `=`, then the value's rendering. A failure of either propagates, the key's first. |
| KeyGen.GetCollectionParam | src/main/java/com/ulisesbocchio/sharedfutures/spring/DefaultKeyGenerator.java:69-80 | The iterator loop gives `[`, the element renderings in iteration order with a comma only between two elements, then `]`. The first failing element's exception propagates. Proved against `RenderList` through loop invariants. |
| KeyGen.Generate | src/main/java/com/ulisesbocchio/sharedfutures/spring/DefaultKeyGenerator.java:25-38 | The index loop gives the hash of `Cls#method(` + the argument renderings, each named by its declared parameter and separated by commas, + `)`. An argument with no declared parameter fails with an index error. Proved equal to `Key`. |
| KeyGen.RenderSucceedsIffSupported | src/main/java/com/ulisesbocchio/sharedfutures/spring/DefaultKeyGenerator.java:44-61 | Rendering succeeds if and only if the value holds no null and no unsupported type, at any depth. |
| KeyGen.RenderAllSucceedsIffSupported | src/main/java/com/ulisesbocchio/sharedfutures/spring/DefaultKeyGenerator.java:69-80 | A collection renders if and only if every one of its elements is supported. |
| KeyGen.RenderAllPointwise | src/main/java/com/ulisesbocchio/sharedfutures/spring/DefaultKeyGenerator.java:72-77 | A successful collection rendering has one part per element, and part `i` is element `i` rendered alone. |
| KeyGen.RenderAllPrefixFailure | src/main/java/com/ulisesbocchio/sharedfutures/spring/DefaultKeyGenerator.java:72-77 | Once an element fails, the whole collection fails with that element's exception. |
| KeyGen.RenderArgsPrefixFailure | src/main/java/com/ulisesbocchio/sharedfutures/spring/DefaultKeyGenerator.java:29-34 | Once an argument fails, `generate` fails with that argument's exception. |
| KeyGen.RenderArgsStep | src/main/java/com/ulisesbocchio/sharedfutures/spring/DefaultKeyGenerator.java:28-30 | Argument `i` is rendered under parameter `i`. When fewer parameters are declared than arguments are supplied, the step fails with an index error. |
| KeyGen.UnsupportedNamesOffender | src/main/java/com/ulisesbocchio/sharedfutures/spring/DefaultKeyGenerator.java:58-60 | An IllegalArgumentException names the top-level parameter, the target class and the method, together with a class that really occurs inside the argument. |
| KeyGen.HasOtherUnsupported | src/main/java/com/ulisesbocchio/sharedfutures/spring/DefaultKeyGenerator.java:44-61 | A value of an unsupported class anywhere inside an argument makes the argument unsupported, and its rendering fails. |
| KeyGen.RenderArgsSucceedsIff | src/main/java/com/ulisesbocchio/sharedfutures/spring/DefaultKeyGenerator.java:28-34 | The argument loop succeeds if and only if every argument has a declared parameter and is supported. |
| KeyGen.RenderArgsUnsupportedNamesOffender | src/main/java/com/ulisesbocchio/sharedfutures/spring/DefaultKeyGenerator.java:29-30 | An IllegalArgumentException from the argument loop names the parameter of some argument `i`, and the named class occurs inside argument `i`. |
| KeyGen.KeySucceedsIff | src/main/java/com/ulisesbocchio/sharedfutures/spring/DefaultKeyGenerator.java:25-38 | `generate` returns a key if and only if there are no more arguments than declared parameters and every argument is supported. |
| KeyGen.KeyUnsupportedNamesOffender | src/main/java/com/ulisesbocchio/sharedfutures/spring/DefaultKeyGenerator.java:58-60 | An IllegalArgumentException from `generate` names the target class, the method, and the parameter of an argument in which the named class occurs. |
| KeyGen.RenderAllUnsupportedNamesOffender | src/main/java/com/ulisesbocchio/sharedfutures/spring/DefaultKeyGenerator.java:51-56 | The same holds for a collection or a map: the named class occurs in one of its elements. |
| KeyGen.SplitJoin | src/main/java/com/ulisesbocchio/sharedfutures/spring/DefaultKeyGenerator.java:31-33 | The comma placement is invertible: splitting the joined comma-free parts at commas gives the parts back, with no empty part at either end. |
| KeyGen.NoArgsComposite | src/main/java/com/ulisesbocchio/sharedfutures/spring/DefaultKeyGenerator.java:26-35 | With no arguments the composite string is exactly `Cls#m()`. |
| KeyGen.CompositeOf | src/main/java/com/ulisesbocchio/sharedfutures/spring/DefaultKeyGenerator.java:26-35 | Arguments that render as `parts` give the composite string `Cls#m(` + parts joined by commas + `)`. |
| KeyGen.DecimalInjective | src/main/java/com/ulisesbocchio/sharedfutures/spring/DefaultKeyGenerator.java:49-50 | Distinct integers have distinct `toString` renderings. |
| KeyGen.DistinctMethodsDistinctComposite | src/main/java/com/ulisesbocchio/sharedfutures/spring/DefaultKeyGenerator.java:26-27 | A class name has no `#` and a method name has no `(`. Given that, equal composite strings come from the same class and the same method. |
| KeyGen.DistinctIntArgsDistinctComposite | src/main/java/com/ulisesbocchio/sharedfutures/spring/DefaultKeyGenerator.java:29-35 | Two calls of one method that differ in a single int argument get different composite strings. |
| KeyGen.CollectionOrderMatters | src/main/java/com/ulisesbocchio/sharedfutures/spring/DefaultKeyGenerator.java:71-77 | Iteration order is part of the rendering: `[a,b]` and `[b,a]`. |
| KeyGen.RenderingNotInjective | src/main/java/com/ulisesbocchio/sharedfutures/spring/DefaultKeyGenerator.java:47-50 | Distinct arguments can collide. The string "1" and the int 1 render alike. So do the one-element list holding "a,b" and the list of "a" and "b". |
| KeyGen.KeyTestNoParams | src/test/java/com/ulisesbocchio/sharedfutures/spring/DefaultKeyGeneratorTest.java:19-24 | `String.toLowerCase()` gives `java.lang.String#toLowerCase()`. |
| KeyGen.KeyTestSimple | src/test/java/com/ulisesbocchio/sharedfutures/spring/DefaultKeyGeneratorTest.java:27-32 | `String.endsWith("blah!")` gives `java.lang.String#endsWith(blah!)`. |
| KeyGen.KeyTestSharedFutureKey | src/test/java/com/ulisesbocchio/sharedfutures/spring/DefaultKeyGeneratorTest.java:35-40 | A SharedFutureKey argument renders as its key: `Cls#someMethod(blah!)`. |
| KeyGen.KeyTestPrimitives | src/test/java/com/ulisesbocchio/sharedfutures/spring/DefaultKeyGeneratorTest.java:43-48 | `1L, 2L, 3, true, Boolean.FALSE` give `Cls#primitives(1,2,3,true,false)`. |
| KeyGen.KeyTestCollection | src/test/java/com/ulisesbocchio/sharedfutures/spring/DefaultKeyGeneratorTest.java:51-56 | A list of strings gives `Cls#collection([one,two,three])`. |
| KeyGen.KeyTestKeyCollection | src/test/java/com/ulisesbocchio/sharedfutures/spring/DefaultKeyGeneratorTest.java:59-65 | A list of SharedFutureKeys gives `Cls#keyCollection([one,two,three])`. |
| KeyGen.KeyTestMap | src/test/java/com/ulisesbocchio/sharedfutures/spring/DefaultKeyGeneratorTest.java:68-74 | A map of ints to strings gives `Cls#map([1=one,2=two,3=three])`. |
| KeyGen.KeyTestKeyMap | src/test/java/com/ulisesbocchio/sharedfutures/spring/DefaultKeyGeneratorTest.java:77-83 | A map keyed by SharedFutureKeys gives `Cls#keyMap([1=one,2=two,3=three])`. |
| Registry.SharedFuturesRegistry.constructor | src/main/java/com/ulisesbocchio/sharedfutures/SharedFuturesRegistry.java:17-21 | A new registry is empty. |
| Registry.SharedFuturesRegistry.Get | src/main/java/com/ulisesbocchio/sharedfutures/SharedFuturesRegistry.java:23-25 | Returns a future exactly when the key is mapped, and that future is the mapped one. Nothing changes. |
| Registry.SharedFuturesRegistry.Put | src/main/java/com/ulisesbocchio/sharedfutures/SharedFuturesRegistry.java:27-29 | The key maps to the new future and every other key is unchanged. Returns the previous future, or null. |
| Registry.SharedFuturesRegistry.Remove | src/main/java/com/ulisesbocchio/sharedfutures/SharedFuturesRegistry.java:31-33 | The key is unmapped and every other key is unchanged. Returns the removed future, or null. |
| Registry.SharedFuturesRegistry.Contains | src/main/java/com/ulisesbocchio/sharedfutures/SharedFuturesRegistry.java:35-37 | True exactly when the key is mapped. Nothing changes. |
| Registry.TestPut | src/test/java/com/ulisesbocchio/sharedfutures/SharedFuturesRegistryTest.java:13-19 | After `put("key", f)`, `contains("key")` holds. |
| Registry.TestGet | src/test/java/com/ulisesbocchio/sharedfutures/SharedFuturesRegistryTest.java:21-27 | After `put("key", f)`, `get("key")` returns `f`. |
| Registry.TestRemove | src/test/java/com/ulisesbocchio/sharedfutures/SharedFuturesRegistryTest.java:29-37 | `contains` holds after `put` and fails after `remove`. |
| Registry.TestPutReplaces | src/main/java/com/ulisesbocchio/sharedfutures/SharedFuturesRegistry.java:27-29 | A second `put` returns the first future and replaces it. |
| Registry.TestAbsent | src/main/java/com/ulisesbocchio/sharedfutures/SharedFuturesRegistry.java:23-33 | `get` and `remove` of a key that was never put return null. |
| Aspect.TrimLeading | src/main/java/com/ulisesbocchio/sharedfutures/spring/SharedFuturesAspect.java:104 | The result is a suffix of the input. Everything dropped is a character up to ' ', and the result does not start with one. |
| Aspect.TrimTrailing | src/main/java/com/ulisesbocchio/sharedfutures/spring/SharedFuturesAspect.java:104 | The result is a prefix of the input. Everything dropped is a character up to ' ', and the result does not end with one. |
| Aspect.BlankIffAllTrimmed | src/main/java/com/ulisesbocchio/sharedfutures/spring/SharedFuturesAspect.java:104 | `key.trim().isEmpty()` holds exactly when every character of the key is up to ' '. |
| Aspect.ExpressionBody | src/main/java/com/ulisesbocchio/sharedfutures/spring/SharedFuturesAspect.java:116 | `substring(2, length-1)` of a key that starts with `#{` and ends with `}` is the text between them: `#{` + body + `}` is the key. |
| Aspect.GetKeyFromAnnotation | src/main/java/com/ulisesbocchio/sharedfutures/spring/SharedFuturesAspect.java:109-121 | A key that is not of the form `#{...}` is returned as written. Otherwise the body is evaluated: its value is returned (possibly null), and its exception propagates. |
| Aspect.GeneratedKey | src/main/java/com/ulisesbocchio/sharedfutures/spring/SharedFuturesAspect.java:130-132 | The generator's key, or its exception. |
| Aspect.GetOrGenerateKeyChoice | src/main/java/com/ulisesbocchio/sharedfutures/spring/SharedFuturesAspect.java:101-107 | A blank annotation key gives the generator's key. A non-blank key that is not `#{...}` is returned as written. For `#{e}`, a string value of `e` is the key, a null value gives the generator's key, and an exception propagates. An expression key is never blank. |
| Aspect.BlankKeyIsGenerated | src/main/java/com/ulisesbocchio/sharedfutures/spring/SharedFuturesAspect.java:101-107 | An annotation key made only of characters up to ' ' (the empty default among them) falls back to the generator. |
| Aspect.LiteralKeyIsVerbatim | src/main/java/com/ulisesbocchio/sharedfutures/spring/SharedFuturesAspect.java:101-113 | A non-blank key that is not an expression is the key exactly as written, surrounding blanks included. |
| Aspect.ExpressionKey | src/main/java/com/ulisesbocchio/sharedfutures/spring/SharedFuturesAspect.java:101-121 | For the key `#{e}`: if `e` evaluates to a string, that string is the key; if it evaluates to null, the generator's key is used; if evaluation throws, the exception propagates. |
| Aspect.DefaultKeyOfNoArgCall | src/main/java/com/ulisesbocchio/sharedfutures/spring/SharedFuturesAspect.java:101-107 | With the default annotation key, a call with no arguments has the key `hash("Cls#m()")`. |
| Aspect.RemovingFuture | src/main/java/com/ulisesbocchio/sharedfutures/spring/SharedFuturesAspect.java:76-99 | The call succeeds exactly for the three supported kinds, and any other kind fails with an IllegalStateException naming its class. The handle returned carries the same computation. It is the same object for Spring and Guava futures and a new object for a CompletableFuture. |
| Aspect.SharedFuturesAspect.constructor | src/main/java/com/ulisesbocchio/sharedfutures/spring/SharedFuturesAspect.java:40-44 | The aspect uses the registry it is given, has no pending callbacks and has invoked nothing yet. On an empty registry it starts valid. |
| Aspect.SharedFuturesAspect.Proceed | src/main/java/com/ulisesbocchio/sharedfutures/spring/SharedFuturesAspect.java:66 | One more invocation of the intercepted method, which returns a new handle. |
| Aspect.SharedFuturesAspect.SubscribeForRemoval | src/main/java/com/ulisesbocchio/sharedfutures/spring/SharedFuturesAspect.java:76-99 | Returns `RemovingFuture`. On success the removal of the key is attached to the computation; on a future that has already completed it runs at once. On failure nothing is attached. |
| Aspect.SharedFuturesAspect.AroundSharedFutures | src/main/java/com/ulisesbocchio/sharedfutures/spring/SharedFuturesAspect.java:56-74 | A key error propagates, nothing changes. A registered key returns the stored handle without invoking the method, nothing changes. Otherwise the method is invoked exactly once. The key is then mapped to the subscribed handle (on an unsupported type, the exception leaves the registry unchanged), and the caller gets the original handle. `Valid` is preserved when the future has not already completed. |
| Aspect.RegisterKeepsValid | src/main/java/com/ulisesbocchio/sharedfutures/spring/SharedFuturesAspect.java:66-68 | Registering the future of a new invocation under a free key, with its removal callback pending, keeps the invariant that ties registered futures to pending callbacks. |
| Aspect.SharedFuturesAspect.AroundSharedFuturesFixed | src/main/java/com/ulisesbocchio/sharedfutures/spring/SharedFuturesAspect.java:63-73 | The same step with the removal ordered after the registration. A future that has already completed when the method returns is not left registered, and `Valid` always holds afterwards. |
| Aspect.SharedFuturesAspect.Complete | src/main/java/com/ulisesbocchio/sharedfutures/spring/SharedFuturesAspect.java:67-69 | Completion, with success or failure, removes exactly the key its callback was attached for, and runs that callback once, in any state. From a valid state no future of that computation stays registered, and `Valid` is preserved. |
| Aspect.OneKeyPerComputation | src/main/java/com/ulisesbocchio/sharedfutures/spring/SharedFuturesAspect.java:67-69 | In a valid state a computation is registered under at most one key. |
| Aspect.GetIntScenario | src/test/java/com/ulisesbocchio/sharedfutures/spring/SharedFuturesAspectTest.java:42-57 | Two calls before completion share invocation 1, and two calls after it share invocation 2: the values 1, 1, 2, 2. The second caller holds the `whenComplete` future of the first's. |
| Aspect.WithParamsScenario | src/test/java/com/ulisesbocchio/sharedfutures/spring/SharedFuturesAspectTest.java:92-106 | `getInt(10)` twice and `getInt(100)` twice, all in flight together, give the values 11, 11, 102, 102. The two argument values get different keys and separate invocations, given only that their two composite strings hash differently. |
| Aspect.ListenableScenario | src/test/java/com/ulisesbocchio/sharedfutures/spring/SharedFuturesAspectTest.java:59-90 | Spring and Guava futures are shared as the very object the method returned. Two calls before completion share invocation 1 and two calls after it share invocation 2: the values 1, 1, 2, 2. |
| Aspect.InvalidTypeScenario | src/main/java/com/ulisesbocchio/sharedfutures/spring/SharedFuturesAspect.java:84 | An unsupported future type fails with IllegalStateException and registers nothing. |
| Aspect.StaleEntryAsWritten | src/main/java/com/ulisesbocchio/sharedfutures/spring/SharedFuturesAspect.java:66-69 | As written: after a future that had already completed, the next identical call gets the old computation, and the method has run only once. |
| Aspect.StaleEntryFixed | src/main/java/com/ulisesbocchio/sharedfutures/spring/SharedFuturesAspect.java:66-69 | Corrected: the next identical call invokes the method afresh. |

## Left out

- Concurrency: the thread-safety of `ConcurrentHashMap`, the executors, and the race between `registry.get` and `registry.put` (SharedFuturesAspect.java:63-67).
  - The steps are modelled sequentially.
  - A completion is an explicit `Complete` event between calls.
  - The model does not claim that get-or-insert is atomic.
- MD5 and SpEL: foreign libraries, modelled as the parameters `hash` and `eval`.
  - `populateELContext`, which binds the parameter names to the arguments, is inside `eval`: it receives the whole call.
  - Aspect.WithParamsScenario requires that `hash` maps the two composite strings of its calls to different keys. MD5 is not known to guarantee this.
  - SpEL parsing errors and evaluation errors are one `ExpressionFailed` error.
- Reflection:
  - `getClass().getName()`, `Method` and `Parameter` become the plain strings of `Call` and `Site`.
  - `ClassUtils.isPrimitiveOrWrapper` and the `instanceof` chain become the `Arg` constructors.
  - A value is classified by the first branch that accepts it, so an object of two accepted types is not modelled separately.
- KeyGen.GetParamKey:
  - Floats and doubles get the text of their `toString` as given: Java's floating-point formatting is not modelled.
  - A SharedFutureKey whose `getKey()` returns null is not modelled: Java would append "null".
- Aspect.RemovingFuture: the three future kinds are exclusive. A class that is both a Spring and a Guava ListenableFuture, which Java would treat as Spring, is not modelled.
- Aspect.SharedFuturesAspect.Proceed: an intercepted method that throws is not modelled; every `proceed` returns a future. In Java the invocation has happened, the exception propagates out of `aroundSharedFutures`, and nothing is registered.
- Exception messages are represented by the fields they format, not as text: the class, parameter, target class and method of an unsupported argument; the class of an unsupported future.
- An intercepted method that returns null: `subscribeForRemoval(null)` throws NullPointerException in Java. This is not modelled: every `proceed` returns a handle.
- Future values, `get()`, and completion outcomes are not modelled: completion removes the key whatever the outcome. The scenarios read the test service's counter value off the invocation number (`CounterValue`).
- Registry.SharedFuturesRegistry.Put: `ConcurrentHashMap` rejects null keys and values; the model has no null future.
- Logging, the AspectJ pointcuts, the Spring configuration classes, and the `KeyGenerator` interface carry no logic. The aspect is modelled with the default generator, which is what the configuration wires in.

## Findings

| source | as written | input that shows it | evidently intended | confidence | as-written member | corrected member |
|---|---|---|---|---|---|---|
| src/main/java/com/ulisesbocchio/sharedfutures/spring/SharedFuturesAspect.java:66-69 | The removal callback is attached before `registry.put`. A callback attached to a future that has already completed runs at once. In `whenComplete`, `addCallback` and `addListener` with the direct executor, it removes a key that is not there yet, and `put` then registers the completed future for good. | A `@SharedFuture` method returning `CompletableFuture.completedFuture(x)`, called twice: the second call returns the first future and the method is not invoked again. The same happens whenever the future completes between `proceed` and `put`. | A completed future is no longer shared, so the next identical call invokes the method afresh. | high; not executed | Aspect.StaleEntryAsWritten | Aspect.SharedFuturesAspect.AroundSharedFuturesFixed |
