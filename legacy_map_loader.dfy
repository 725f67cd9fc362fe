/** The older `MapLoader` kept at the repository root: the fast path serves
    only a truthy entry, the identity is the authorization header captured
    when a load starts, and a response with status 400 or above is stored as
    null. */
module LegacyMapLoaders {
  import opened Common
  import JsMaps
  import MapLoaders

  /** What the legacy loader function resolves to: a value and a status. */
  datatype StatusResponse<V> = StatusResponse(value: V, status: int)

  /** `status >= 400` stores null; any other status stores the value. */
  function StoredValue<V>(response: StatusResponse<V>): (r: Option<V>)
    ensures r == None <==> response.status >= 400
    ensures r.Some? ==> r.value == response.value
  {
    if response.status >= 400 then None else Some(response.value)
  }

  datatype PendingLoad<P> = PendingLoad(parameters: P, key: Serialized<P>)

  class LegacyMapLoader<P(==), V> {
    var cache: JsMaps.Entries<Serialized<P>, Option<V>>
    var loadingParameters: map<Serialized<P>, bool>
    /** The header captured by the last load that started (undefined, as
        `None`, while there is no user manager). */
    var authorizationHeader: Option<string>
    var pending: seq<PendingLoad<P>>
    /** The values passed to `onChange`, oldest first. */
    var changes: seq<V>

    const userManager: UserStore?
    const hasOnChange: bool
    const truthy: V -> bool

    ghost predicate Valid()
      reads this
    {
      JsMaps.KeysUnique(cache)
    }

    ghost predicate SingleFlight()
      reads this
    {
      && (forall i :: 0 <= i < |pending| ==> IsLoading(pending[i].key))
      && (forall i, j :: 0 <= i < j < |pending| ==> pending[i].key != pending[j].key)
    }

    predicate IsLoading(key: Serialized<P>)
      reads this
    {
      key in loadingParameters && loadingParameters[key]
    }

    /** `this.cache.get(serialized)` read as a JavaScript condition. */
    predicate HasTruthyEntry(key: Serialized<P>)
      reads this
    {
      var entry := JsMaps.Get(cache, key);
      entry.Some? && IsTruthy(truthy, entry.value)
    }

    /** No user manager, the header is the captured one, or it is null. */
    predicate HeaderCompatible()
      reads this, userManager
    {
      userManager == null || userManager.authorizationHeader == authorizationHeader || userManager.authorizationHeader == None
    }

    constructor (userManager: UserStore?, hasOnChange: bool, truthy: V -> bool)
      ensures Valid() && SingleFlight()
      ensures cache == [] && loadingParameters == map[] && pending == [] && changes == []
      ensures authorizationHeader == (if userManager == null then None else userManager.authorizationHeader)
      ensures this.userManager == userManager && this.hasOnChange == hasOnChange && this.truthy == truthy
    {
      this.userManager := userManager;
      this.hasOnChange := hasOnChange;
      this.truthy := truthy;
      cache := [];
      loadingParameters := map[];
      authorizationHeader := if userManager == null then None else userManager.authorizationHeader;
      pending := [];
      changes := [];
    }

    /** `getValue(parameters)`. */
    method GetValue(parameters: P) returns (r: Option<V>)
      requires Valid()
      modifies this
      ensures Valid()
      ensures old(SingleFlight()) ==> SingleFlight()
      ensures old(HasTruthyEntry(Stringify(parameters)) && HeaderCompatible()) ==>
        unchanged(this) && r == JsMaps.Get(cache, Stringify(parameters)).value
      ensures !old(HasTruthyEntry(Stringify(parameters)) && HeaderCompatible()) && old(IsLoading(Stringify(parameters))) ==>
        unchanged(this)
        && r == (if HasTruthyEntry(Stringify(parameters)) then JsMaps.Get(cache, Stringify(parameters)).value else None)
      ensures !old(HasTruthyEntry(Stringify(parameters)) && HeaderCompatible()) && !old(IsLoading(Stringify(parameters))) ==>
        && r == None
        && authorizationHeader == (if userManager == null then old(authorizationHeader) else userManager.authorizationHeader)
        && loadingParameters == old(loadingParameters)[Stringify(parameters) := true]
        && pending == old(pending) + [PendingLoad(parameters, Stringify(parameters))]
        && cache == old(cache) && changes == old(changes)
      ensures r.Some? ==> HasTruthyEntry(Stringify(parameters)) && JsMaps.Get(cache, Stringify(parameters)) == Some(r)
    {
      var serialized := Stringify(parameters);
      var entry := JsMaps.Get(cache, serialized);
      var truthyEntry := entry.Some? && IsTruthy(truthy, entry.value);
      if truthyEntry && (userManager == null || userManager.authorizationHeader == authorizationHeader || userManager.authorizationHeader == None) {
        return entry.value;
      }
      if serialized in loadingParameters && loadingParameters[serialized] {
        // `cache || null`
        return if truthyEntry then entry.value else None;
      }
      Load(parameters, serialized);
      return None;
    }

    /** `load`: captures the header, flags the key and calls the loader. */
    method Load(parameters: P, serialized: Serialized<P>)
      modifies this
      ensures authorizationHeader == (if userManager == null then old(authorizationHeader) else userManager.authorizationHeader)
      ensures loadingParameters == old(loadingParameters)[serialized := true]
      ensures pending == old(pending) + [PendingLoad(parameters, serialized)]
      ensures cache == old(cache) && changes == old(changes)
    {
      if userManager != null {
        authorizationHeader := userManager.authorizationHeader;
      }
      loadingParameters := loadingParameters[serialized := true];
      pending := pending + [PendingLoad(parameters, serialized)];
    }

    /** The `i`-th pending load settles with `{ value, status }`. */
    method Complete(i: nat, response: StatusResponse<V>)
      requires Valid()
      requires i < |pending|
      modifies this
      ensures Valid()
      ensures old(SingleFlight()) ==> SingleFlight()
      ensures pending == old(pending[..i] + pending[i + 1..])
      ensures cache == JsMaps.Set(old(cache), old(pending[i].key), StoredValue(response))
      ensures loadingParameters == old(loadingParameters)[old(pending[i].key) := false]
      ensures authorizationHeader == old(authorizationHeader)
      ensures changes == old(changes) + OnChangeCalls(StoredValue(response))
    {
      var load := pending[i];
      pending := pending[..i] + pending[i + 1..];
      SetValue(StoredValue(response), load.key);
      assert forall j :: 0 <= j < |pending| ==> pending[j] == if j < i then old(pending[j]) else old(pending[j + 1]);
    }

    function OnChangeCalls(value: Option<V>): (calls: seq<V>)
      reads this
      ensures |calls| <= 1
      ensures calls != [] <==> hasOnChange && IsTruthy(truthy, value)
      ensures calls != [] ==> calls[0] == value.value
    {
      if hasOnChange && IsTruthy(truthy, value) then [value.value] else []
    }

    /** `setValue`: stores the entry and clears the key's loading flag. */
    method SetValue(value: Option<V>, serialized: Serialized<P>)
      requires Valid()
      modifies this
      ensures Valid()
      ensures cache == JsMaps.Set(old(cache), serialized, value)
      ensures loadingParameters == old(loadingParameters)[serialized := false]
      ensures changes == old(changes) + OnChangeCalls(value)
      ensures pending == old(pending) && authorizationHeader == old(authorizationHeader)
    {
      JsMaps.SetKeepsKeysUnique(cache, serialized, value);
      cache := JsMaps.Set(cache, serialized, value);
      loadingParameters := loadingParameters[serialized := false];
      if hasOnChange && IsTruthy(truthy, value) {
        changes := changes + [value.value];
      }
    }

    /** `getCached(filter)`. */
    function GetCached(filter: Option<P -> bool>): (r: seq<(P, V)>)
      reads this
      ensures forall i :: 0 <= i < |r| ==> (Stringify(r[i].0), Some(r[i].1)) in cache && MapLoaders.Passes(filter, r[i].0)
      ensures forall j :: 0 <= j < |cache| && cache[j].1.Some? && MapLoaders.Passes(filter, Parse(cache[j].0)) ==>
        (Parse(cache[j].0), cache[j].1.value) in r
      ensures forall i :: 0 <= i < |r| ==> multiset(r)[r[i]] == multiset(cache)[(Stringify(r[i].0), Some(r[i].1))]
    {
      var r := MapLoaders.CachedEntries(cache, filter);
      assert forall i :: 0 <= i < |r| ==> multiset(r)[r[i]] == multiset(cache)[(Stringify(r[i].0), Some(r[i].1))] by {
        forall i | 0 <= i < |r| {
          MapLoaders.CachedEntriesCount(cache, filter, r[i].0, r[i].1);
        }
      }
      r
    }

    /** `getCachedValues()`. */
    function GetCachedValues(): (r: seq<V>)
      reads this
      ensures forall j :: 0 <= j < |cache| && cache[j].1.Some? ==> cache[j].1.value in r
      ensures forall i :: 0 <= i < |r| ==> exists j :: 0 <= j < |cache| && cache[j].1 == Some(r[i])
      ensures forall i :: 0 <= i < |r| ==> multiset(r)[r[i]] == multiset(JsMaps.Values(cache))[Some(r[i])]
    {
      var r := MapLoaders.CachedValues(cache);
      assert forall i :: 0 <= i < |r| ==> multiset(r)[r[i]] == multiset(JsMaps.Values(cache))[Some(r[i])] by {
        forall i | 0 <= i < |r| {
          MapLoaders.NonNullCount(JsMaps.Values(cache), r[i]);
        }
      }
      r
    }

    /** `updateCache(parameters, value)`. */
    method UpdateCache(parameters: P, value: V)
      requires Valid()
      modifies this
      ensures Valid()
      ensures cache == JsMaps.Set(old(cache), Stringify(parameters), Some(value))
      ensures loadingParameters == old(loadingParameters) && authorizationHeader == old(authorizationHeader)
      ensures pending == old(pending) && changes == old(changes)
    {
      JsMaps.SetKeepsKeysUnique(cache, Stringify(parameters), Some(value));
      cache := JsMaps.Set(cache, Stringify(parameters), Some(value));
    }
  }

  /** A response with status 404 stores null, which the fast path does not
      serve: the next read starts a second load instead of serving the
      failure. A falsy value (0 here) is treated the same way. */
  method FailureIsRetried() returns (afterFailure: Option<int>, loadsAfterRetry: nat, afterZero: Option<int>, loadsAfterZero: nat)
    ensures afterFailure == None && loadsAfterRetry == 1
    ensures afterZero == None && loadsAfterZero == 1
  {
    var loader := new LegacyMapLoader<int, int>(null, false, x => x != 0);
    var first := loader.GetValue(7);
    loader.Complete(0, StatusResponse(42, 404));
    afterFailure := loader.GetValue(7);
    loadsAfterRetry := |loader.pending|;
    loader.Complete(0, StatusResponse(0, 200));
    afterZero := loader.GetValue(7);
    loadsAfterZero := |loader.pending|;
  }
}
