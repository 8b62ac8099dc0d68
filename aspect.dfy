/**
 * The shared-futures aspect. Around every intercepted call it derives a key,
 * returns the future registered under that key if there is one, and
 * otherwise invokes the method, subscribes the key's removal to the
 * returned future's completion and registers the future.
 *
 * The expression language (SpEL) is the parameter `eval`, applied to the
 * expression text and the call whose target and arguments the evaluation
 * context exposes; it yields a string, null (None) or an exception message.
 * The hash of the default key generator is the parameter `hash`.
 */
module Aspect {
  import opened Wrappers
  import opened KeyGen
  import opened Registry

  datatype AspectError =
    | KeyGenerationFailed(cause: KeyError)    // thrown by the key generator
    | ExpressionFailed(message: string)       // thrown while parsing or evaluating the key expression
    | InvalidFutureType(className: string)    // IllegalStateException from subscribeForRemoval

  // Key selection

  /** Java's `Character <= ' '` test, which `String.trim` strips. */
  predicate IsTrimmed(c: char) {
    c <= ' '
  }

  function TrimLeading(s: string): (r: string)
    ensures |r| <= |s| && r == s[|s| - |r|..]
    ensures r == [] || !IsTrimmed(r[0])
    ensures forall i :: 0 <= i < |s| - |r| ==> IsTrimmed(s[i])
  {
    if |s| > 0 && IsTrimmed(s[0]) then TrimLeading(s[1..]) else s
  }

  function TrimTrailing(s: string): (r: string)
    ensures |r| <= |s| && r == s[..|r|]
    ensures r == [] || !IsTrimmed(r[|r| - 1])
    ensures forall i :: |r| <= i < |s| ==> IsTrimmed(s[i])
  {
    if |s| > 0 && IsTrimmed(s[|s| - 1]) then TrimTrailing(s[..|s| - 1]) else s
  }

  /** `String.trim`: strips the characters up to ' ' from both ends. */
  function Trim(s: string): string {
    TrimTrailing(TrimLeading(s))
  }

  /** `key.trim().isEmpty()`. */
  predicate IsBlank(key: string) {
    Trim(key) == []
  }

  lemma {:induction false} AllTrimmedLeading(s: string)
    requires forall i :: 0 <= i < |s| ==> IsTrimmed(s[i])
    ensures TrimLeading(s) == []
  {
    if |s| > 0 {
      AllTrimmedLeading(s[1..]);
    }
  }

  /** A character `trim` keeps survives trimming. */
  lemma KeptCharSurvives(key: string, j: nat)
    requires j < |key| && !IsTrimmed(key[j])
    ensures Trim(key) != []
  {
    var lead := TrimLeading(key);
    var off := |key| - |lead|;
    assert off <= j;
    assert lead[j - off] == key[j];
    var t := TrimTrailing(lead);
    assert |t| > j - off;
  }

  /** A key is blank exactly when every character in it is one `trim` strips. */
  lemma BlankIffAllTrimmed(key: string)
    ensures IsBlank(key) <==> forall i :: 0 <= i < |key| ==> IsTrimmed(key[i])
  {
    if forall i :: 0 <= i < |key| ==> IsTrimmed(key[i]) {
      AllTrimmedLeading(key);
    } else {
      var j :| 0 <= j < |key| && !IsTrimmed(key[j]);
      KeptCharSurvives(key, j);
    }
  }

  /** The annotation's default, the empty key, is blank. */
  lemma EmptyKeyIsBlank()
    ensures IsBlank("")
  {
  }

  /** `k.startsWith("#{") && k.endsWith("}")`: the key is an expression. */
  predicate IsExpression(key: string) {
    |key| >= 2 && key[..2] == "#{" && key[|key| - 1] == '}'
  }

  /** `expr.substring(2, expr.length() - 1)`: the text between `#{` and the final `}`. */
  function ExpressionBody(key: string): (body: string)
    requires IsExpression(key)
    ensures "#{" + body + "}" == key
  {
    assert key[1] == '{';
    key[2..|key| - 1]
  }

  /**
   * `getKeyFromAnnotation`: a literal key as written (not trimmed), or the
   * value of the expression it wraps, which may be null.
   */
  function GetKeyFromAnnotation(key: string, eval: (string, Call) -> Result<Option<string>, string>, call: Call)
    : (r: Result<Option<string>, AspectError>)
    ensures !IsExpression(key) ==> r == Success(Some(key))
    ensures IsExpression(key) && eval(ExpressionBody(key), call).Failure?
            ==> r == Failure(ExpressionFailed(eval(ExpressionBody(key), call).error))
    ensures IsExpression(key) && eval(ExpressionBody(key), call).Success?
            ==> r == Success(eval(ExpressionBody(key), call).value)
  {
    if !IsExpression(key) then
      Success(Some(key))
    else
      match eval(ExpressionBody(key), call)
      case Failure(message) => Failure(ExpressionFailed(message))
      case Success(value) => Success(value)
  }

  /** `getKeyFromGenerator`, with the generator's exception as an error. */
  function GeneratedKey(hash: string -> string, call: Call): (r: Result<string, AspectError>)
    ensures r.Success? <==> Key(hash, call).Success?
    ensures r.Success? ==> r.value == Key(hash, call).value
    ensures r.Failure? ==> r.error == KeyGenerationFailed(Key(hash, call).error)
  {
    match Key(hash, call)
    case Success(k) => Success(k)
    case Failure(e) => Failure(KeyGenerationFailed(e))
  }

  /**
   * `getOrGenerateKey`: the annotation's key when it is not blank and does
   * not evaluate to null; the generated key otherwise.
   */
  function GetOrGenerateKey(annotationKey: string, eval: (string, Call) -> Result<Option<string>, string>,
                            hash: string -> string, call: Call): Result<string, AspectError>
  {
    if IsBlank(annotationKey) then
      GeneratedKey(hash, call)
    else
      match GetKeyFromAnnotation(annotationKey, eval, call)
      case Failure(e) => Failure(e)
      case Success(None) => GeneratedKey(hash, call)
      case Success(Some(k)) => Success(k)
  }

  /**
   * The three ways `getOrGenerateKey` picks a key: a blank key gives the
   * generator's key; a key that is not `#{...}` is used as written; a key
   * `#{e}` is the value of `e`, the generator's key when that value is null,
   * and an exception when evaluation throws. An expression is never blank.
   */
  lemma GetOrGenerateKeyChoice(annotationKey: string, eval: (string, Call) -> Result<Option<string>, string>,
                               hash: string -> string, call: Call)
    ensures var r := GetOrGenerateKey(annotationKey, eval, hash, call);
            (IsBlank(annotationKey) ==> r == GeneratedKey(hash, call))
            && (!IsBlank(annotationKey) && !IsExpression(annotationKey) ==> r == Success(annotationKey))
            && (IsExpression(annotationKey) ==>
                  match eval(ExpressionBody(annotationKey), call)
                  case Failure(m) => r == Failure(ExpressionFailed(m))
                  case Success(None) => r == GeneratedKey(hash, call)
                  case Success(Some(k)) => r == Success(k))
  {
    if IsExpression(annotationKey) {
      KeptCharSurvives(annotationKey, 0);
    }
  }

  /** A key of only characters up to ' ' (the empty default among them) falls back to the generator. */
  lemma BlankKeyIsGenerated(annotationKey: string, eval: (string, Call) -> Result<Option<string>, string>,
                            hash: string -> string, call: Call)
    requires forall i :: 0 <= i < |annotationKey| ==> IsTrimmed(annotationKey[i])
    ensures GetOrGenerateKey(annotationKey, eval, hash, call) == GeneratedKey(hash, call)
  {
    BlankIffAllTrimmed(annotationKey);
  }

  /** A literal key with a character above ' ' is used verbatim, surrounding blanks included. */
  lemma LiteralKeyIsVerbatim(annotationKey: string, eval: (string, Call) -> Result<Option<string>, string>,
                             hash: string -> string, call: Call)
    requires exists i :: 0 <= i < |annotationKey| && !IsTrimmed(annotationKey[i])
    requires !IsExpression(annotationKey)
    ensures GetOrGenerateKey(annotationKey, eval, hash, call) == Success(annotationKey)
  {
    BlankIffAllTrimmed(annotationKey);
  }

  /**
   * A key `#{e}` evaluates `e`: a string value is the key, a null value falls
   * back to the generator, an exception propagates.
   */
  lemma ExpressionKey(body: string, eval: (string, Call) -> Result<Option<string>, string>,
                      hash: string -> string, call: Call)
    ensures var r := GetOrGenerateKey("#{" + body + "}", eval, hash, call);
            match eval(body, call)
            case Failure(m) => r == Failure(ExpressionFailed(m))
            case Success(None) => r == GeneratedKey(hash, call)
            case Success(Some(k)) => r == Success(k)
  {
    var key := "#{" + body + "}";
    assert key[..2] == "#{";
    assert IsExpression(key);
    assert ExpressionBody(key) == body;
    assert !IsTrimmed(key[0]);
    BlankIffAllTrimmed(key);
  }

  /** With the default (empty) annotation key, a call without arguments has the key `hash("Cls#m()")`. */
  lemma DefaultKeyOfNoArgCall(eval: (string, Call) -> Result<Option<string>, string>, hash: string -> string, call: Call)
    requires call.args == []
    ensures GetOrGenerateKey("", eval, hash, call) == Success(hash(call.targetClass + "#" + call.methodName + "()"))
  {
    EmptyKeyIsBlank();
    NoArgsComposite(call.targetClass, call.methodName, call.paramNames);
  }

  // Subscription for removal

  /**
   * The future `subscribeForRemoval` hands back: a CompletableFuture's
   * `whenComplete` future, a Spring or Guava ListenableFuture itself, and an
   * IllegalStateException for any other type.
   */
  function RemovingFuture(f: Future): (r: Result<Future, AspectError>)
    ensures r.Success? <==> !KindOf(f).OtherKind?
    ensures r.Failure? ==> r.error == InvalidFutureType(KindOf(f).className)
    ensures r.Success? ==> Root(r.value) == Root(f)
    ensures r.Success? ==> (r.value == f <==> KindOf(f) != CompletableKind)
  {
    match KindOf(f)
    case CompletableKind => assert f < WhenComplete(f); Success(WhenComplete(f))
    case SpringListenableKind => Success(f)
    case GuavaListenableKind => Success(f)
    case OtherKind(className) => Failure(InvalidFutureType(className))
  }

  /**
   * The aspect's invariant over its state: every registered future waits on a
   * pending callback that removes exactly its key, every pending callback's
   * key holds a future of the computation it waits on, and every pending
   * computation has been invoked.
   */
  predicate ValidState(registered: map<string, Future>, pending: map<nat, string>, nextId: nat) {
    (forall k :: k in registered ==>
       Root(registered[k]).id in pending && pending[Root(registered[k]).id] == k)
    && (forall id :: id in pending ==>
          pending[id] in registered && Root(registered[pending[id]]).id == id)
    && (forall id :: id in pending ==> id < nextId)
  }

  /** Registering the future of a new invocation under a free key, with its callback pending, keeps the invariant. */
  lemma RegisterKeepsValid(registered: map<string, Future>, pending: map<nat, string>, nextId: nat,
                           key: string, stored: Future)
    requires ValidState(registered, pending, nextId)
    requires key !in registered && Root(stored).id == nextId
    ensures ValidState(registered[key := stored], pending[nextId := key], nextId + 1)
  {
    var r', p' := registered[key := stored], pending[nextId := key];
    assert nextId !in pending;
    forall k | k in r'
      ensures Root(r'[k]).id in p' && p'[Root(r'[k]).id] == k
    {
      if k != key {
        assert Root(registered[k]).id < nextId;
      }
    }
  }

  /**
   * The aspect. `pending` holds the removal callbacks not yet run: the id of
   * the computation each waits on, and the key it removes. `nextId` counts
   * the invocations of intercepted methods and names the next one.
   */
  class SharedFuturesAspect {
    const registry: SharedFuturesRegistry
    var pending: map<nat, string>
    var nextId: nat

    /**
     * Every registered future waits on a pending callback that removes
     * exactly its key, and every pending callback's key holds a future of
     * the computation it waits on.
     */
    predicate Valid()
      reads this, registry
    {
      ValidState(registry.registry, pending, nextId)
    }

    constructor(r: SharedFuturesRegistry)
      ensures registry == r && pending == map[] && nextId == 0
      ensures r.registry == map[] ==> Valid()
    {
      registry := r;
      pending := map[];
      nextId := 0;
    }

    /** `pjp.proceed()`: invokes the intercepted method, which returns a new future. */
    method Proceed(kind: FutureKind) returns (f: Future)
      modifies this
      ensures f == Original(old(nextId), kind)
      ensures nextId == old(nextId) + 1 && pending == old(pending)
    {
      f := Original(nextId, kind);
      nextId := nextId + 1;
    }

    /**
     * `subscribeForRemoval`: attaches `registry.remove(key)` to the
     * completion of `f`. A callback attached to a future that has already
     * `settled` runs at once, in the caller.
     */
    method SubscribeForRemoval(f: Future, key: string, settled: bool) returns (r: Result<Future, AspectError>)
      modifies this, registry
      ensures r == RemovingFuture(f)
      ensures nextId == old(nextId)
      ensures r.Failure? || !settled ==> registry.registry == old(registry.registry)
      ensures r.Success? && settled ==> registry.registry == old(registry.registry) - {key}
      ensures pending == if r.Success? && !settled then old(pending)[Root(f).id := key] else old(pending)
    {
      r := RemovingFuture(f);
      if r.Success? {
        if settled {
          var _ := registry.Remove(key);
        } else {
          pending := pending[Root(f).id := key];
        }
      }
    }

    /**
     * `aroundSharedFutures`, as written: the callback is attached before the
     * future is registered. The future returned by `proceed` is of type
     * `kind` and has completed already when `settled`.
     */
    method AroundSharedFutures(annotationKey: string, eval: (string, Call) -> Result<Option<string>, string>,
                               hash: string -> string, call: Call, kind: FutureKind, settled: bool)
      returns (r: Result<Future, AspectError>)
      modifies this, registry
      ensures var key := GetOrGenerateKey(annotationKey, eval, hash, call);
              var f := Original(old(nextId), kind);
              if key.Failure? then
                r == Failure(key.error) && nextId == old(nextId) && pending == old(pending)
                && registry.registry == old(registry.registry)
              else if key.value in old(registry.registry) then
                r == Success(old(registry.registry)[key.value]) && nextId == old(nextId) && pending == old(pending)
                && registry.registry == old(registry.registry)
              else if RemovingFuture(f).Failure? then
                r == Failure(RemovingFuture(f).error) && nextId == old(nextId) + 1 && pending == old(pending)
                && registry.registry == old(registry.registry)
              else
                r == Success(f) && nextId == old(nextId) + 1
                && registry.registry == old(registry.registry)[key.value := RemovingFuture(f).value]
                && pending == if settled then old(pending) else old(pending)[f.id := key.value]
      ensures old(Valid()) && !settled ==> Valid()
    {
      var key := GetOrGenerateKey(annotationKey, eval, hash, call);
      if key.Failure? {
        return Failure(key.error);
      }
      var shared := registry.Get(key.value);
      if shared.None? {
        var f := Proceed(kind);
        var stored := SubscribeForRemoval(f, key.value, settled);
        if stored.Failure? {
          return Failure(stored.error);
        }
        var _ := registry.Put(key.value, stored.value);
        if old(Valid()) && !settled {
          RegisterKeepsValid(old(registry.registry), old(pending), old(nextId), key.value, stored.value);
        }
        r := Success(f);
      } else {
        r := Success(shared.value);
      }
    }

    /**
     * `aroundSharedFutures` with the removal ordered after the registration:
     * a future that has already completed is not left registered.
     */
    method AroundSharedFuturesFixed(annotationKey: string, eval: (string, Call) -> Result<Option<string>, string>,
                                    hash: string -> string, call: Call, kind: FutureKind, settled: bool)
      returns (r: Result<Future, AspectError>)
      requires Valid()
      modifies this, registry
      ensures var key := GetOrGenerateKey(annotationKey, eval, hash, call);
              var f := Original(old(nextId), kind);
              if key.Failure? then
                r == Failure(key.error) && nextId == old(nextId) && pending == old(pending)
                && registry.registry == old(registry.registry)
              else if key.value in old(registry.registry) then
                r == Success(old(registry.registry)[key.value]) && nextId == old(nextId) && pending == old(pending)
                && registry.registry == old(registry.registry)
              else if RemovingFuture(f).Failure? then
                r == Failure(RemovingFuture(f).error) && nextId == old(nextId) + 1 && pending == old(pending)
                && registry.registry == old(registry.registry)
              else
                r == Success(f) && nextId == old(nextId) + 1
                && registry.registry == (if settled then old(registry.registry)
                                         else old(registry.registry)[key.value := RemovingFuture(f).value])
                && pending == if settled then old(pending) else old(pending)[f.id := key.value]
      ensures Valid()
    {
      var key := GetOrGenerateKey(annotationKey, eval, hash, call);
      if key.Failure? {
        return Failure(key.error);
      }
      var shared := registry.Get(key.value);
      if shared.None? {
        var f := Proceed(kind);
        var stored := RemovingFuture(f);
        if stored.Failure? {
          return Failure(stored.error);
        }
        var _ := registry.Put(key.value, stored.value);
        if settled {
          var _ := registry.Remove(key.value);
        } else {
          pending := pending[f.id := key.value];
          RegisterKeepsValid(old(registry.registry), old(pending), old(nextId), key.value, stored.value);
        }
        r := Success(f);
      } else {
        r := Success(shared.value);
      }
    }

    /**
     * The computation behind `h` completes, normally or exceptionally: the
     * callback waiting on it, if any, removes its key.
     */
    method Complete(h: Future)
      modifies this, registry
      ensures old(Valid()) ==> Valid()
      ensures nextId == old(nextId)
      ensures Root(h).id in old(pending) ==>
                registry.registry == old(registry.registry) - {old(pending)[Root(h).id]}
                && pending == old(pending) - {Root(h).id}
      ensures Root(h).id !in old(pending) ==>
                registry.registry == old(registry.registry) && pending == old(pending)
      ensures old(Valid()) ==>
                forall k :: k in old(registry.registry) && Root(old(registry.registry)[k]) == Root(h) ==>
                  k !in registry.registry
    {
      var id := Root(h).id;
      if id in pending {
        var _ := registry.Remove(pending[id]);
        pending := pending - {id};
      }
    }
  }

  /**
   * In a valid state no computation is registered under two keys, so the
   * single removal its completion runs leaves none of its futures registered.
   */
  lemma OneKeyPerComputation(a: SharedFuturesAspect, k1: string, k2: string)
    requires a.Valid()
    requires k1 in a.registry.registry && k2 in a.registry.registry
    requires Root(a.registry.registry[k1]) == Root(a.registry.registry[k2])
    ensures k1 == k2
  {
  }

  // Scenarios of the aspect's tests: a service whose every invocation returns
  // the next value of a counter that starts at 1, so the future of invocation
  // `id` yields `id + 1`.

  /** The value the test service's invocation behind `f` yields. */
  function CounterValue(f: Future): nat {
    Root(f).id + 1
  }

  /** `getInt()` twice, completion, `getInt()` twice: the values 1, 1, 2, 2. */
  method GetIntScenario(eval: (string, Call) -> Result<Option<string>, string>, hash: string -> string)
    returns (one: Result<Future, AspectError>, one2: Result<Future, AspectError>,
             two: Result<Future, AspectError>, two2: Result<Future, AspectError>)
    ensures one.Success? && one2.Success? && two.Success? && two2.Success?
    ensures CounterValue(one.value) == 1 && CounterValue(one2.value) == 1
    ensures CounterValue(two.value) == 2 && CounterValue(two2.value) == 2
    ensures one2.value == WhenComplete(one.value) && two2.value == WhenComplete(two.value)
  {
    var registry := new SharedFuturesRegistry();
    var aspect := new SharedFuturesAspect(registry);
    var call := Call("SharedFuturesService", "getInt", [], []);
    DefaultKeyOfNoArgCall(eval, hash, call);
    one := aspect.AroundSharedFutures("", eval, hash, call, CompletableKind, false);
    one2 := aspect.AroundSharedFutures("", eval, hash, call, CompletableKind, false);
    aspect.Complete(one.value);
    two := aspect.AroundSharedFutures("", eval, hash, call, CompletableKind, false);
    two2 := aspect.AroundSharedFutures("", eval, hash, call, CompletableKind, false);
  }

  /**
   * `getInt(10)` twice and `getInt(100)` twice, all in flight together: the
   * values 10 + 1 twice and 100 + 2 twice. The two composite strings are
   * taken to hash differently.
   */
  method WithParamsScenario(eval: (string, Call) -> Result<Option<string>, string>, hash: string -> string)
    returns (one: Result<Future, AspectError>, one2: Result<Future, AspectError>,
             two: Result<Future, AspectError>, two2: Result<Future, AspectError>)
    requires hash("SharedFuturesService#getInt(10)") != hash("SharedFuturesService#getInt(100)")
    ensures one.Success? && one2.Success? && two.Success? && two2.Success?
    ensures 10 + CounterValue(one.value) == 11 && 10 + CounterValue(one2.value) == 11
    ensures 100 + CounterValue(two.value) == 102 && 100 + CounterValue(two2.value) == 102
  {
    var registry := new SharedFuturesRegistry();
    var aspect := new SharedFuturesAspect(registry);
    var ten := Call("SharedFuturesService", "getInt", ["i"], [Int(10)]);
    var hundred := Call("SharedFuturesService", "getInt", ["i"], [Int(100)]);
    SingleIntComposite(ten, 10);
    SingleIntComposite(hundred, 100);
    assert Decimal(10) == "10" && Decimal(100) == "100" by {
      assert DigitChar(0) == '0' && DigitChar(1) == '1';
    }
    assert "SharedFuturesService" + "#" + "getInt" + "(" + "10" + ")" == "SharedFuturesService#getInt(10)";
    assert "SharedFuturesService" + "#" + "getInt" + "(" + "100" + ")" == "SharedFuturesService#getInt(100)";
    one := aspect.AroundSharedFutures("", eval, hash, ten, CompletableKind, false);
    one2 := aspect.AroundSharedFutures("", eval, hash, ten, CompletableKind, false);
    two := aspect.AroundSharedFutures("", eval, hash, hundred, CompletableKind, false);
    two2 := aspect.AroundSharedFutures("", eval, hash, hundred, CompletableKind, false);
  }

  /**
   * A Spring or Guava ListenableFuture is shared as the very future the
   * method returned, so both callers hold the same object: two calls, the
   * completion, two more calls, giving the values 1, 1, 2, 2.
   */
  method ListenableScenario(hash: string -> string, eval: (string, Call) -> Result<Option<string>, string>,
                            kind: FutureKind)
    returns (one: Result<Future, AspectError>, one2: Result<Future, AspectError>,
             two: Result<Future, AspectError>, two2: Result<Future, AspectError>)
    requires kind == SpringListenableKind || kind == GuavaListenableKind
    ensures one.Success? && one2.Success? && one.value == one2.value && CounterValue(one.value) == 1
    ensures two.Success? && two2.Success? && two.value == two2.value && CounterValue(two.value) == 2
  {
    var registry := new SharedFuturesRegistry();
    var aspect := new SharedFuturesAspect(registry);
    var call := Call("SharedFuturesService", "getIntListenable", [], []);
    DefaultKeyOfNoArgCall(eval, hash, call);
    one := aspect.AroundSharedFutures("", eval, hash, call, kind, false);
    one2 := aspect.AroundSharedFutures("", eval, hash, call, kind, false);
    aspect.Complete(one.value);
    two := aspect.AroundSharedFutures("", eval, hash, call, kind, false);
    two2 := aspect.AroundSharedFutures("", eval, hash, call, kind, false);
  }

  /** A future of an unsupported type raises "Invalid Future type" and registers nothing. */
  method InvalidTypeScenario(hash: string -> string, eval: (string, Call) -> Result<Option<string>, string>,
                             className: string)
    returns (r: Result<Future, AspectError>, registered: bool)
    ensures r == Failure(InvalidFutureType(className)) && !registered
  {
    var registry := new SharedFuturesRegistry();
    var aspect := new SharedFuturesAspect(registry);
    var call := Call("SharedFuturesService", "getOther", [], []);
    DefaultKeyOfNoArgCall(eval, hash, call);
    r := aspect.AroundSharedFutures("", eval, hash, call, OtherKind(className), false);
    registered := registry.Contains(hash("SharedFuturesService#getOther()"));
  }

  /**
   * As written: a method whose future has already completed when it returns
   * leaves that future registered, so the next identical call gets the old
   * future instead of invoking the method again.
   */
  method StaleEntryAsWritten(hash: string -> string, eval: (string, Call) -> Result<Option<string>, string>)
    returns (first: Result<Future, AspectError>, second: Result<Future, AspectError>, invocations: nat)
    ensures first.Success? && second.Success? && Root(second.value) == Root(first.value)
    ensures invocations == 1
  {
    var registry := new SharedFuturesRegistry();
    var aspect := new SharedFuturesAspect(registry);
    var call := Call("SharedFuturesService", "getCached", [], []);
    DefaultKeyOfNoArgCall(eval, hash, call);
    first := aspect.AroundSharedFutures("", eval, hash, call, CompletableKind, true);
    second := aspect.AroundSharedFutures("", eval, hash, call, CompletableKind, true);
    invocations := aspect.nextId;
  }

  /** Corrected: every call after a completed future invokes the method afresh. */
  method StaleEntryFixed(hash: string -> string, eval: (string, Call) -> Result<Option<string>, string>)
    returns (first: Result<Future, AspectError>, second: Result<Future, AspectError>, invocations: nat)
    ensures first.Success? && second.Success? && Root(second.value) != Root(first.value)
    ensures invocations == 2
  {
    var registry := new SharedFuturesRegistry();
    var aspect := new SharedFuturesAspect(registry);
    var call := Call("SharedFuturesService", "getCached", [], []);
    DefaultKeyOfNoArgCall(eval, hash, call);
    first := aspect.AroundSharedFuturesFixed("", eval, hash, call, CompletableKind, true);
    second := aspect.AroundSharedFuturesFixed("", eval, hash, call, CompletableKind, true);
    invocations := aspect.nextId;
  }
}
