/**
 * The registry of in-flight shared futures: a map from key to the future
 * registered under it, with the four Map operations the aspect uses.
 */
module Registry {
  import opened Wrappers

  /** The runtime type of a future returned by an intercepted method. */
  datatype FutureKind =
    | CompletableKind              // java.util.concurrent.CompletableFuture
    | SpringListenableKind         // org.springframework.util.concurrent.ListenableFuture
    | GuavaListenableKind          // com.google.common.util.concurrent.ListenableFuture
    | OtherKind(className: string) // any other Future implementation

  /**
   * A future, by identity. `Original(id, kind)` is the id-th future the
   * intercepted methods returned; `WhenComplete(base)` is the distinct
   * CompletableFuture that `base.whenComplete(..)` returns, which completes
   * with the same outcome as its base.
   */
  datatype Future = Original(id: nat, kind: FutureKind) | WhenComplete(base: Future)

  /** The computation whose outcome a future carries. */
  function Root(f: Future): (r: Future)
    ensures r.Original?
    ensures f.Original? ==> r == f
  {
    match f
    case Original(_, _) => f
    case WhenComplete(base) => Root(base)
  }

  /** The runtime type: a `whenComplete` future is itself a CompletableFuture. */
  function KindOf(f: Future): FutureKind {
    match f
    case Original(_, kind) => kind
    case WhenComplete(_) => CompletableKind
  }

  class SharedFuturesRegistry {
    var registry: map<string, Future>

    constructor()
      ensures registry == map[]
    {
      registry := map[];
    }

    /** `get`: the future under `key`, or null. */
    method Get(key: string) returns (f: Option<Future>)
      ensures f.Some? <==> key in registry
      ensures f.Some? ==> f.value == registry[key]
    {
      f := Lookup(registry, key);
    }

    /** `put`: maps `key` to `future` and returns the future it replaced, or null. */
    method Put(key: string, future: Future) returns (previous: Option<Future>)
      modifies this
      ensures registry == old(registry)[key := future]
      ensures key in registry && registry[key] == future
      ensures forall k :: k != key ==> Lookup(registry, k) == Lookup(old(registry), k)
      ensures previous == Lookup(old(registry), key)
    {
      previous := Lookup(registry, key);
      registry := registry[key := future];
    }

    /** `remove`: unmaps `key` and returns the future it removed, or null. */
    method Remove(key: string) returns (previous: Option<Future>)
      modifies this
      ensures registry == old(registry) - {key}
      ensures key !in registry
      ensures forall k :: k != key ==> Lookup(registry, k) == Lookup(old(registry), k)
      ensures previous == Lookup(old(registry), key)
    {
      previous := Lookup(registry, key);
      registry := registry - {key};
    }

    /** `contains`: whether `key` is mapped. */
    method Contains(key: string) returns (b: bool)
      ensures b <==> key in registry
    {
      b := key in registry;
    }
  }

  // The registry's unit tests, on a fresh registry and an already completed future.

  method TestPut() returns (contained: bool)
    ensures contained
  {
    var r := new SharedFuturesRegistry();
    var future := Original(0, CompletableKind);
    var _ := r.Put("key", future);
    contained := r.Contains("key");
  }

  method TestGet() returns (got: Option<Future>)
    ensures got == Some(Original(0, CompletableKind))
  {
    var r := new SharedFuturesRegistry();
    var future := Original(0, CompletableKind);
    var _ := r.Put("key", future);
    got := r.Get("key");
  }

  method TestRemove() returns (before: bool, after: bool)
    ensures before && !after
  {
    var r := new SharedFuturesRegistry();
    var future := Original(0, CompletableKind);
    var _ := r.Put("key", future);
    before := r.Contains("key");
    var _ := r.Remove("key");
    after := r.Contains("key");
  }

  /** A second `put` under the same key returns the first future and replaces it. */
  method TestPutReplaces() returns (previous: Option<Future>, got: Option<Future>)
    ensures previous == Some(Original(0, CompletableKind))
    ensures got == Some(Original(1, GuavaListenableKind))
  {
    var r := new SharedFuturesRegistry();
    var _ := r.Put("key", Original(0, CompletableKind));
    previous := r.Put("key", Original(1, GuavaListenableKind));
    got := r.Get("key");
  }

  /** `get` and `remove` of a key never put return null. */
  method TestAbsent() returns (got: Option<Future>, removed: Option<Future>)
    ensures got == None && removed == None
  {
    var r := new SharedFuturesRegistry();
    got := r.Get("key");
    removed := r.Remove("key");
  }
}
