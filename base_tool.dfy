/**
 * `BaseTool` (`app/tools/base_tool.py`): a result cache keyed by function
 * name and arguments, switched on and off by a flag, and a wrapper that turns
 * an exception into an empty list.
 *
 * The cache key is the pair of the function name and the arguments: the md5
 * digest of their JSON text is taken to be injective. The ghost sequence
 * `invocations` records every call of the wrapped function.
 */
module BaseTool {
  import opened Wrappers

  class Tool<A(==), V> {
    const name: string
    var cache: map<(string, A), V>
    var cacheEnabled: bool
    ghost var invocations: seq<(string, A)>

    /** A new tool has an empty cache, switched on. */
    constructor (name: string)
      ensures this.name == name && cache == map[] && cacheEnabled && invocations == []
    {
      this.name := name;
      cache := map[];
      cacheEnabled := true;
      invocations := [];
    }

    /**
     * Every cached entry is what the function of that name returns for those
     * arguments: a hit then answers as a call would.
     */
    ghost predicate CacheAgrees(funcs: string -> A -> Attempt<V>)
      reads this
    {
      forall key :: key in cache ==> funcs(key.0)(key.1) == Returned(cache[key])
    }

    /** `enable_cache`: the flag only. */
    method EnableCache()
      modifies this
      ensures cacheEnabled && cache == old(cache) && invocations == old(invocations)
    {
      cacheEnabled := true;
    }

    /** `disable_cache`: the flag goes off and the cache is emptied. */
    method DisableCache()
      modifies this
      ensures !cacheEnabled && cache == map[] && invocations == old(invocations)
    {
      cacheEnabled := false;
      cache := map[];
    }

    /** `clear_cache`: the cache is emptied and the flag is kept. */
    method ClearCache()
      modifies this
      ensures cacheEnabled == old(cacheEnabled) && cache == map[] && invocations == old(invocations)
    {
      cache := map[];
    }

    /**
     * `_cached_call`: with the cache off, `func` runs and nothing is stored;
     * with it on, a stored result is returned without running `func`, and on
     * a miss a result (but not an exception) is stored under its key, leaving
     * the other entries as they were.
     */
    method CachedCall(funcName: string, args: A, func: A -> Attempt<V>) returns (r: Attempt<V>)
      modifies this
      ensures cacheEnabled == old(cacheEnabled)
      ensures !cacheEnabled ==>
        r == func(args) && cache == old(cache) && invocations == old(invocations) + [(funcName, args)]
      ensures cacheEnabled && (funcName, args) in old(cache) ==>
        r == Returned(old(cache)[(funcName, args)]) && cache == old(cache) && invocations == old(invocations)
      ensures cacheEnabled && (funcName, args) !in old(cache) ==>
        r == func(args) && invocations == old(invocations) + [(funcName, args)]
        && cache == (if r.Returned? then old(cache)[(funcName, args) := r.value] else old(cache))
      ensures forall funcs: string -> A -> Attempt<V> ::
        old(CacheAgrees(funcs)) && funcs(funcName) == func ==> CacheAgrees(funcs)
      ensures forall funcs: string -> A -> Attempt<V> ::
        old(CacheAgrees(funcs)) && funcs(funcName) == func ==> r == func(args)
    {
      if !cacheEnabled {
        invocations := invocations + [(funcName, args)];
        return func(args);
      }
      var key := (funcName, args);
      if key in cache {
        return Returned(cache[key]);
      }
      invocations := invocations + [(funcName, args)];
      r := func(args);
      if r.Returned? {
        cache := cache[key := r.value];
      }
    }
  }

  /** `_safe_execute`: the call's result, or the empty list when it raises. */
  function SafeExecute<A, V>(func: A -> Attempt<V>, args: A, emptyList: V): (r: V)
    ensures func(args).Returned? ==> r == func(args).value
    ensures func(args).Threw? ==> r == emptyList
  {
    match func(args)
    case Returned(v) => v
    case Threw(_) => emptyList
  }
}
