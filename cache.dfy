/**
 * The cache stages: cache-aside for queries (look up the key, on a miss run
 * the rest of the chain and store what it returns) and eviction for updates
 * (delete the key before or after the rest of the chain runs). The cache
 * manager is a map from keys to stored pointers, a nil pointer being `None`.
 */
module Cache {
  import opened Wrappers
  import opened Interceptors

  /** A cache manager that keeps its entries in a map. */
  class MapManager<T> {
    var store: map<string, Option<T>>

    constructor ()
      ensures store == map[]
    {
      store := map[];
    }

    /** `Get`: the stored pointer and whether the key is present. */
    method Get(key: string) returns (val: Option<T>, exist: bool)
      ensures exist <==> key in store
      ensures val == (if key in store then store[key] else None)
    {
      if key in store {
        val, exist := store[key], true;
      } else {
        val, exist := None, false;
      }
    }

    /** `Set`: the key now maps to the given value, the other entries stay. */
    method Set(key: string, value: Option<T>)
      modifies this
      ensures store == old(store)[key := value]
    {
      store := store[key := value];
    }

    /** `Delete`: the key is gone, the other entries stay. */
    method Delete(key: string)
      modifies this
      ensures store == old(store) - {key}
    {
      store := store - {key};
    }
  }

  /** The settings of one cache stage (the query timeout belongs to the concurrent part, which is not modelled). */
  datatype CacheConfig = CacheConfig(key: string, cacheNil: bool, beforeInvocation: bool)

  /** What the rest of the chain returns to the cache-aside stage: an error, nil, a pointer to `T`, or a `T`. */
  datatype Loaded<T> = LoadError(err: string) | LoadedNil | LoadedPtr(v: T) | LoadedValue(v: T)

  /** What the cache-aside stage returns: a pointer, an error, or a run-time panic. */
  datatype CacheResult<T> = Returned(ptr: Option<T>) | Failed(err: string) | Panicked

  const EmptyKeyError := "empty key provided"

  /** Whether the cache-aside stage runs the rest of the chain: only for a non-empty key that is not stored. */
  predicate CallsNext<T>(cfg: CacheConfig, store: map<string, Option<T>>)
  {
    cfg.key != "" && cfg.key !in store
  }

  /** The entry a successful load stores: the loaded `*T` as is, or a pointer to the boxed value. */
  function LoadedPointer<T>(loaded: Loaded<T>): Option<T>
    requires !loaded.LoadError?
  {
    if loaded.LoadedNil? then None else Some(loaded.v)
  }

  /** The store after `cacheableHandler` as written. */
  function CacheableStore<T>(cfg: CacheConfig, store: map<string, Option<T>>, loaded: Loaded<T>): map<string, Option<T>>
  {
    if !CallsNext(cfg, store) || loaded.LoadError? then store
    else store[cfg.key := LoadedPointer(loaded)]
  }

  /** The result of `cacheableHandler` as written: a nil load without `CacheNil` ends in a failed type assertion. */
  function CacheableResult<T>(cfg: CacheConfig, store: map<string, Option<T>>, loaded: Loaded<T>): CacheResult<T>
  {
    if cfg.key == "" then Failed(EmptyKeyError)
    else if cfg.key in store then Returned(store[cfg.key])
    else if loaded.LoadError? then Failed(loaded.err)
    else if loaded.LoadedNil? && !cfg.cacheNil then Panicked
    else Returned(LoadedPointer(loaded))
  }

  /**
   * `cacheableHandler`, sequential path, as written: with no `CacheNil` a nil
   * load is answered with nil, but the code goes on to store the nil pointer,
   * and the caller's assertion of the nil answer to a pointer panics.
   */
  method CacheableHandler<T>(mgr: MapManager<T>, cfg: CacheConfig, loaded: Loaded<T>)
    returns (r: CacheResult<T>, calledNext: bool)
    modifies mgr
    ensures calledNext == CallsNext(cfg, old(mgr.store))
    ensures r == CacheableResult(cfg, old(mgr.store), loaded)
    ensures mgr.store == CacheableStore(cfg, old(mgr.store), loaded)
  {
    calledNext := false;
    if cfg.key == "" {
      return Failed(EmptyKeyError), false;
    }
    var val, exist := mgr.Get(cfg.key);
    if exist {
      return Returned(val), false;
    }
    calledNext := true;
    if loaded.LoadError? {
      return Failed(loaded.err), true;
    }
    var answeredNil := false;
    var objPtr: Option<T> := None;
    if loaded.LoadedNil? {
      if !cfg.cacheNil {
        answeredNil := true;
      }
    } else {
      objPtr := Some(loaded.v);
    }
    mgr.Set(cfg.key, objPtr);
    if answeredNil {
      r := Panicked;
    } else {
      r := Returned(objPtr);
    }
  }

  /** The store after the evidently intended `cacheableHandler`: a nil load without `CacheNil` stores nothing. */
  function IntendedStore<T>(cfg: CacheConfig, store: map<string, Option<T>>, loaded: Loaded<T>): map<string, Option<T>>
  {
    if !CallsNext(cfg, store) || loaded.LoadError? || (loaded.LoadedNil? && !cfg.cacheNil) then store
    else store[cfg.key := LoadedPointer(loaded)]
  }

  /** The result of the evidently intended `cacheableHandler`: a nil load without `CacheNil` answers nil. */
  function IntendedResult<T>(cfg: CacheConfig, store: map<string, Option<T>>, loaded: Loaded<T>): CacheResult<T>
  {
    if cfg.key == "" then Failed(EmptyKeyError)
    else if cfg.key in store then Returned(store[cfg.key])
    else if loaded.LoadError? then Failed(loaded.err)
    else Returned(LoadedPointer(loaded))
  }

  /** The evidently intended `cacheableHandler`: the nil answer returns before the store. */
  method CacheableHandlerFixed<T>(mgr: MapManager<T>, cfg: CacheConfig, loaded: Loaded<T>)
    returns (r: CacheResult<T>, calledNext: bool)
    modifies mgr
    ensures calledNext == CallsNext(cfg, old(mgr.store))
    ensures r == IntendedResult(cfg, old(mgr.store), loaded)
    ensures mgr.store == IntendedStore(cfg, old(mgr.store), loaded)
  {
    if cfg.key == "" {
      return Failed(EmptyKeyError), false;
    }
    var val, exist := mgr.Get(cfg.key);
    if exist {
      return Returned(val), false;
    }
    if loaded.LoadError? {
      return Failed(loaded.err), true;
    }
    if loaded.LoadedNil? && !cfg.cacheNil {
      return Returned(None), true;
    }
    var objPtr := LoadedPointer(loaded);
    mgr.Set(cfg.key, objPtr);
    r := Returned(objPtr);
    calledNext := true;
  }

  /** An empty key is an error, and neither the cache nor the rest of the chain is touched. */
  lemma EmptyKey<T>(cfg: CacheConfig, store: map<string, Option<T>>, loaded: Loaded<T>)
    requires cfg.key == ""
    ensures CacheableResult(cfg, store, loaded) == Failed(EmptyKeyError)
    ensures CacheableStore(cfg, store, loaded) == store && !CallsNext(cfg, store)
  {
  }

  /** A hit answers the stored pointer, leaves the cache as it is and does not run the rest of the chain. */
  lemma HitSkipsNext<T>(cfg: CacheConfig, store: map<string, Option<T>>, loaded: Loaded<T>)
    requires cfg.key != "" && cfg.key in store
    ensures CacheableResult(cfg, store, loaded) == Returned(store[cfg.key])
    ensures IntendedResult(cfg, store, loaded) == Returned(store[cfg.key])
    ensures CacheableStore(cfg, store, loaded) == store && !CallsNext(cfg, store)
  {
  }

  /** A failed load is answered with its error and nothing is stored. */
  lemma LoadErrorStoresNothing<T>(cfg: CacheConfig, store: map<string, Option<T>>, e: string)
    requires cfg.key != "" && cfg.key !in store
    ensures CacheableResult(cfg, store, LoadError(e)) == Failed(e)
    ensures CacheableStore(cfg, store, LoadError(e)) == store
  {
  }

  /**
   * A loaded value is stored under the key and answered; the next lookup of
   * the same key is then a hit that answers the same pointer without running
   * the rest of the chain, whatever it would return.
   */
  lemma StoredThenHit<T>(cfg: CacheConfig, store: map<string, Option<T>>, loaded: Loaded<T>, later: Loaded<T>)
    requires cfg.key != "" && cfg.key !in store
    requires loaded.LoadedPtr? || loaded.LoadedValue?
    ensures CacheableResult(cfg, store, loaded) == Returned(Some(loaded.v))
    ensures var after := CacheableStore(cfg, store, loaded);
      after == store[cfg.key := Some(loaded.v)]
      && !CallsNext(cfg, after)
      && CacheableResult(cfg, after, later) == Returned(Some(loaded.v))
  {
  }

  /** With `CacheNil`, a nil load is stored and answered as nil, and later lookups hit it. */
  lemma NilCached<T>(cfg: CacheConfig, store: map<string, Option<T>>, later: Loaded<T>)
    requires cfg.key != "" && cfg.key !in store && cfg.cacheNil
    ensures CacheableResult(cfg, store, LoadedNil) == Returned(None)
    ensures var after := CacheableStore(cfg, store, LoadedNil);
      after == store[cfg.key := None] && CacheableResult(cfg, after, later) == Returned(None)
  {
  }

  /**
   * As written, without `CacheNil` a nil load panics and yet caches the nil
   * pointer, so the next lookup of the key answers nil without querying.
   */
  lemma NilFallThrough<T>(cfg: CacheConfig, store: map<string, Option<T>>, later: Loaded<T>)
    requires cfg.key != "" && cfg.key !in store && !cfg.cacheNil
    ensures CacheableResult(cfg, store, LoadedNil) == Panicked
    ensures var after := CacheableStore(cfg, store, LoadedNil);
      after == store[cfg.key := None] && !CallsNext(cfg, after)
  {
  }

  /**
   * Intended, without `CacheNil` a nil load answers nil and stores nothing,
   * so the next lookup of the key queries again.
   */
  lemma NilNotCached<T>(cfg: CacheConfig, store: map<string, Option<T>>)
    requires cfg.key != "" && cfg.key !in store && !cfg.cacheNil
    ensures IntendedResult(cfg, store, LoadedNil) == Returned(None)
    ensures IntendedStore(cfg, store, LoadedNil) == store && CallsNext(cfg, IntendedStore(cfg, store, LoadedNil))
  {
  }

  /** The intended handler agrees with the one as written on every input but a nil load without `CacheNil`. */
  lemma IntendedAgrees<T>(cfg: CacheConfig, store: map<string, Option<T>>, loaded: Loaded<T>)
    requires !(CallsNext(cfg, store) && loaded.LoadedNil? && !cfg.cacheNil)
    ensures IntendedResult(cfg, store, loaded) == CacheableResult(cfg, store, loaded)
    ensures IntendedStore(cfg, store, loaded) == CacheableStore(cfg, store, loaded)
  {
  }

  /** The store after `cacheEvictInterceptor`, given whether the rest of the chain failed. */
  function EvictStore<T>(cfg: CacheConfig, store: map<string, Option<T>>, failed: bool): map<string, Option<T>>
  {
    if cfg.beforeInvocation || !failed then store - {cfg.key} else store
  }

  /**
   * `cacheEvictInterceptor`: deletes the key before the rest of the chain
   * when asked to, otherwise only after it succeeds; an error comes back with
   * a nil value (`nilValue`).
   */
  method CacheEvictInterceptor<T, V>(mgr: MapManager<T>, cfg: CacheConfig, nextOut: Outcome<V>, nilValue: V)
    returns (r: Outcome<V>)
    modifies mgr
    ensures mgr.store == EvictStore(cfg, old(mgr.store), nextOut.err.Some?)
    ensures r == (if nextOut.err.Some? then Outcome(nilValue, nextOut.err) else nextOut)
  {
    if cfg.beforeInvocation {
      mgr.Delete(cfg.key);
    }
    if nextOut.err.Some? {
      return Outcome(nilValue, nextOut.err);
    }
    if !cfg.beforeInvocation {
      mgr.Delete(cfg.key);
    }
    r := nextOut;
  }

  /** Evicting before the invocation removes the key whatever the rest of the chain does; the other entries stay. */
  lemma EvictBefore<T>(cfg: CacheConfig, store: map<string, Option<T>>, failed: bool)
    requires cfg.beforeInvocation
    ensures cfg.key !in EvictStore(cfg, store, failed)
    ensures forall k :: k in store && k != cfg.key ==> k in EvictStore(cfg, store, failed) && EvictStore(cfg, store, failed)[k] == store[k]
  {
  }

  /** Evicting after the invocation removes the key exactly when the rest of the chain succeeds. */
  lemma EvictAfter<T>(cfg: CacheConfig, store: map<string, Option<T>>, failed: bool)
    requires !cfg.beforeInvocation && cfg.key in store
    ensures cfg.key in EvictStore(cfg, store, failed) <==> failed
  {
  }

  /** After an eviction that went through, the next cache-aside lookup of the key runs the query. */
  lemma EvictThenMiss<T>(cfg: CacheConfig, store: map<string, Option<T>>)
    requires cfg.key != ""
    ensures CallsNext(cfg, EvictStore(cfg, store, false))
  {
  }

  /** `CacheableCtx` / `CacheEvictCtx`: a fresh background context carrying only the cache stage. */
  function CacheCtx<V>(stage: Stage<V>): (ctx: Ctx<V>)
    ensures GetCacheInterceptor(Some(ctx)) == Some(stage)
    ensures ExtraInterceptors(ctx) == []
  {
    Ctx(Some(stage), NoValue)
  }
}
