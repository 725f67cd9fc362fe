/** `MapLoader`: one cache entry per serialised parameter tuple, a loading
    flag per key, and one cache-wide identifier recorded when a load lands. */
module MapLoaders {
  import opened Common
  import JsMaps

  /** A call of the loader whose promise has not settled yet: the parameters
      it was called with, their key, and the identifier captured when the
      load started (which `setValue` will record). */
  datatype PendingLoad<P> = PendingLoad(parameters: P, key: Serialized<P>, identifier: Option<string>)

  /** A filter given to `getCached` lets a pair through when absent or when
      it accepts the decoded parameters. */
  predicate Passes<P>(filter: Option<P -> bool>, parameters: P)
  {
    filter.None? || filter.value(parameters)
  }

  /** `getCached`: the entries whose value is not null, with their key decoded
      by `JSON.parse`, narrowed by `filter`, in enumeration order. Each pair
      occurs exactly as often as its entry does. */
  function CachedEntries<P, V>(entries: JsMaps.Entries<Serialized<P>, Option<V>>, filter: Option<P -> bool>): (r: seq<(P, V)>)
    ensures |r| <= |entries|
    ensures forall i :: 0 <= i < |r| ==>
      (Stringify(r[i].0), Some(r[i].1)) in entries && Passes(filter, r[i].0)
    ensures forall j :: 0 <= j < |entries| && entries[j].1.Some? && Passes(filter, Parse(entries[j].0)) ==>
      (Parse(entries[j].0), entries[j].1.value) in r
  {
    if entries == [] then []
    else
      var tail := CachedEntries(entries[1..], filter);
      assert forall j :: 1 <= j < |entries| ==> entries[j] == entries[1..][j - 1];
      var (key, value) := entries[0];
      if value.Some? && Passes(filter, Parse(key)) then [(Parse(key), value.value)] + tail else tail
  }

  /** Each pair occurs in `getCached` exactly as often as its entry does in
      the map, when it passes the filter, and not at all otherwise. */
  lemma {:induction false} CachedEntriesCount<P, V>(entries: JsMaps.Entries<Serialized<P>, Option<V>>, filter: Option<P -> bool>, p: P, v: V)
    ensures multiset(CachedEntries(entries, filter))[(p, v)] ==
      if Passes(filter, p) then multiset(entries)[(Stringify(p), Some(v))] else 0
    decreases |entries|
  {
    if entries != [] {
      CachedEntriesCount(entries[1..], filter, p, v);
      assert entries == [entries[0]] + entries[1..];
    }
  }

  /** `getCached` keeps enumeration order: the pairs of a longer map are those
      of its first entries followed by those of the rest. */
  lemma {:induction false} CachedEntriesAppend<P, V>(first: JsMaps.Entries<Serialized<P>, Option<V>>, rest: JsMaps.Entries<Serialized<P>, Option<V>>, filter: Option<P -> bool>)
    ensures CachedEntries(first + rest, filter) == CachedEntries(first, filter) + CachedEntries(rest, filter)
    decreases |first|
  {
    if first != [] {
      CachedEntriesAppend(first[1..], rest, filter);
      assert (first + rest)[1..] == first[1..] + rest;
    } else {
      assert first + rest == rest;
    }
  }

  /** `.filter((x) => x !== null)`: the values that are not null, in order;
      each occurs exactly as often as it does wrapped in `values`. */
  function NonNull<V>(values: seq<Option<V>>): (r: seq<V>)
    ensures |r| == |values| - multiset(values)[None]
  {
    if values == [] then []
    else
      var tail := NonNull(values[1..]);
      assert values == [values[0]] + values[1..];
      if values[0].Some? then [values[0].value] + tail else tail
  }

  /** Each value occurs in the result exactly as often as it occurs wrapped
      in `values`. */
  lemma {:induction false} NonNullCount<V>(values: seq<Option<V>>, v: V)
    ensures multiset(NonNull(values))[v] == multiset(values)[Some(v)]
    decreases |values|
  {
    if values != [] {
      NonNullCount(values[1..], v);
      assert values == [values[0]] + values[1..];
    }
  }

  /** The filter keeps order: it commutes with concatenation. */
  lemma {:induction false} NonNullAppend<V>(first: seq<Option<V>>, rest: seq<Option<V>>)
    ensures NonNull(first + rest) == NonNull(first) + NonNull(rest)
    decreases |first|
  {
    if first != [] {
      NonNullAppend(first[1..], rest);
      assert (first + rest)[1..] == first[1..] + rest;
    } else {
      assert first + rest == rest;
    }
  }

  /** `getCachedValues`: `values()` without the nulls, in enumeration order. */
  function CachedValues<K, V>(entries: JsMaps.Entries<K, Option<V>>): (r: seq<V>)
    ensures |r| <= |entries|
    ensures forall i :: 0 <= i < |r| ==> exists j :: 0 <= j < |entries| && entries[j].1 == Some(r[i])
    ensures forall j :: 0 <= j < |entries| && entries[j].1.Some? ==> entries[j].1.value in r
  {
    var values := JsMaps.Values(entries);
    var r := NonNull(values);
    forall j | 0 <= j < |entries| && entries[j].1.Some?
      ensures entries[j].1.value in r
    {
      assert values[j] == entries[j].1;
      NonNullCount(values, entries[j].1.value);
    }
    forall i | 0 <= i < |r|
      ensures exists j :: 0 <= j < |entries| && entries[j].1 == Some(r[i])
    {
      NonNullCount(values, r[i]);
      assert Some(r[i]) in values;
      var j :| 0 <= j < |values| && values[j] == Some(r[i]);
      assert entries[j].1 == Some(r[i]);
    }
    r
  }

  /** `getCachedValues` keeps enumeration order. */
  lemma CachedValuesAppend<K, V>(first: JsMaps.Entries<K, Option<V>>, rest: JsMaps.Entries<K, Option<V>>)
    ensures CachedValues(first + rest) == CachedValues(first) + CachedValues(rest)
  {
    assert JsMaps.Values(first + rest) == JsMaps.Values(first) + JsMaps.Values(rest);
    NonNullAppend(JsMaps.Values(first), JsMaps.Values(rest));
  }

  class MapLoader<P(==), V> {
    /** `cache`: one entry per key, null after a failed load. */
    var cache: JsMaps.Entries<Serialized<P>, Option<V>>
    /** `loadingParameters`: true from the start of a load until it lands. */
    var loadingParameters: map<Serialized<P>, bool>
    /** `userIdentifier`: the identifier captured by the last load that landed
        (`None` stands for both null and undefined). */
    var userIdentifier: Option<string>
    /** Loads started and not yet settled, in the order they started. */
    var pending: seq<PendingLoad<P>>
    /** The values passed to `options.onChange`, oldest first. */
    var changes: seq<V>

    const userManager: UserStore?
    const options: LoaderOptions
    const truthy: V -> bool

    ghost predicate Valid()
      reads this
    {
      JsMaps.KeysUnique(cache)
    }

    /** At most one load per key is in flight, and each in-flight key is
        flagged as loading. `getValue` and the completions keep this; only a
        direct call of the public `setValue` on an in-flight key breaks it. */
    ghost predicate SingleFlight()
      reads this
    {
      && (forall i :: 0 <= i < |pending| ==> IsLoading(pending[i].key))
      && (forall i, j :: 0 <= i < j < |pending| ==> pending[i].key != pending[j].key)
    }

    predicate IsLoading(key: Serialized<P>)
      reads this
    {
      key in loadingParameters && loadingParameters[key]
    }

    /** `userManager?.identifier`: undefined, modelled as `None`, without a store. */
    function CurrentIdentifier(): Option<string>
      reads this, userManager
    {
      if userManager == null then None else userManager.identifier
    }

    /** A store is present, its identifier is null or empty, and loading on
        behalf of nobody is not allowed. */
    predicate Blocked()
      reads this, userManager
    {
      userManager != null && !NonEmpty(userManager.identifier) && !options.allowNotIdentified
    }

    /** An entry may be served: no store, the identifier is the recorded one,
        or the identifier is null. */
    predicate IdentityCompatible()
      reads this, userManager
    {
      userManager == null || userManager.identifier == userIdentifier || userManager.identifier == None
    }

    predicate Serves(key: Serialized<P>)
      reads this, userManager
    {
      JsMaps.HasKey(cache, key) && IdentityCompatible()
    }

    constructor (userManager: UserStore?, options: LoaderOptions, truthy: V -> bool)
      ensures Valid() && SingleFlight()
      ensures cache == [] && loadingParameters == map[] && pending == [] && changes == []
      ensures userIdentifier == (if userManager == null then None else userManager.identifier)
      ensures this.userManager == userManager && this.options == options && this.truthy == truthy
    {
      this.userManager := userManager;
      this.options := options;
      this.truthy := truthy;
      cache := [];
      loadingParameters := map[];
      userIdentifier := if userManager == null then None else userManager.identifier;
      pending := [];
      changes := [];
    }

    /** `getValue(...parameters)`. Never waits: it serves the entry, serves
        nothing, or starts one load and serves nothing. */
    method GetValue(parameters: P) returns (r: Option<V>)
      requires Valid()
      modifies this
      ensures Valid()
      ensures old(SingleFlight()) ==> SingleFlight()
      ensures Blocked() ==> r == None && unchanged(this)
      ensures !Blocked() && Serves(Stringify(parameters)) ==>
        r == JsMaps.Get(cache, Stringify(parameters)).value && unchanged(this)
      ensures !Blocked() && !Serves(Stringify(parameters)) && old(IsLoading(Stringify(parameters))) ==>
        r == None && unchanged(this)
      ensures !Blocked() && !Serves(Stringify(parameters)) && !old(IsLoading(Stringify(parameters))) ==>
        && r == None
        && loadingParameters == old(loadingParameters)[Stringify(parameters) := true]
        && pending == old(pending) + [PendingLoad(parameters, Stringify(parameters), CurrentIdentifier())]
        && cache == old(cache) && userIdentifier == old(userIdentifier) && changes == old(changes)
      ensures r.Some? ==> JsMaps.Get(cache, Stringify(parameters)) == Some(r)
    {
      var serialized := Stringify(parameters);
      var entry := JsMaps.Get(cache, serialized);
      var newIdentifier := CurrentIdentifier();
      if userManager != null && !NonEmpty(newIdentifier) && !options.allowNotIdentified {
        return None;
      }
      if entry.Some? && (userManager == null || newIdentifier == userIdentifier || newIdentifier == None) {
        return entry.value;
      }
      var loading := serialized in loadingParameters && loadingParameters[serialized];
      if loading {
        if userManager == null || newIdentifier == userIdentifier || (userManager != null && newIdentifier == None) {
          // `cache || null`
          return if entry.Some? && IsTruthy(truthy, entry.value) then entry.value else None;
        } else {
          return None;
        }
      }
      Load(parameters, serialized, newIdentifier);
      return None;
    }

    /** `load`: flags the key and calls the loader; the call's settlement is
        `Complete`. */
    method Load(parameters: P, serialized: Serialized<P>, newIdentifier: Option<string>)
      modifies this
      ensures loadingParameters == old(loadingParameters)[serialized := true]
      ensures pending == old(pending) + [PendingLoad(parameters, serialized, newIdentifier)]
      ensures cache == old(cache) && userIdentifier == old(userIdentifier) && changes == old(changes)
    {
      loadingParameters := loadingParameters[serialized := true];
      pending := pending + [PendingLoad(parameters, serialized, newIdentifier)];
    }

    /** The promise of the `i`-th pending load settles with `response`: a
        success stores its value, a failure stores null. No supersession
        check: whatever lands last wins. */
    method Complete(i: nat, response: LoaderResponse<V>)
      requires Valid()
      requires i < |pending|
      modifies this
      ensures Valid()
      ensures old(SingleFlight()) ==> SingleFlight()
      ensures pending == old(pending[..i] + pending[i + 1..])
      ensures cache == JsMaps.Set(old(cache), old(pending[i].key), ResponseValue(response))
      ensures userIdentifier == old(pending[i].identifier)
      ensures loadingParameters == old(loadingParameters)[old(pending[i].key) := false]
      ensures changes == old(changes) + OnChangeCalls(ResponseValue(response))
    {
      var load := pending[i];
      pending := pending[..i] + pending[i + 1..];
      SetValue(ResponseValue(response), load.key, load.identifier);
      assert forall j :: 0 <= j < |pending| ==> pending[j] == if j < i then old(pending[j]) else old(pending[j + 1]);
    }

    /** The values `onChange` receives for a stored value: only a truthy one,
        and only when a callback was given. */
    function OnChangeCalls(value: Option<V>): (calls: seq<V>)
      reads this
      ensures |calls| <= 1
      ensures calls != [] <==> options.hasOnChange && IsTruthy(truthy, value)
      ensures calls != [] ==> calls[0] == value.value
    {
      if options.hasOnChange && IsTruthy(truthy, value) then [value.value] else []
    }

    /** `setValue`: stores the entry, records the identifier captured when the
        load started, and clears the key's loading flag. */
    method SetValue(value: Option<V>, serialized: Serialized<P>, newIdentifier: Option<string>)
      requires Valid()
      modifies this
      ensures Valid()
      ensures cache == JsMaps.Set(old(cache), serialized, value)
      ensures userIdentifier == newIdentifier
      ensures loadingParameters == old(loadingParameters)[serialized := false]
      ensures changes == old(changes) + OnChangeCalls(value)
      ensures pending == old(pending)
    {
      var updated := JsMaps.Set(cache, serialized, value);
      JsMaps.SetKeepsKeysUnique(cache, serialized, value);
      var calls := OnChangeCalls(value);
      cache := updated;
      userIdentifier := newIdentifier;
      loadingParameters := loadingParameters[serialized := false];
      changes := changes + calls;
    }

    /** `getCached(filter)`. */
    function GetCached(filter: Option<P -> bool>): (r: seq<(P, V)>)
      reads this
      ensures forall i :: 0 <= i < |r| ==> JsMaps.Get(cache, Stringify(r[i].0)).Some?
      ensures forall i :: 0 <= i < |r| ==> Passes(filter, r[i].0)
      ensures Valid() ==> forall i :: 0 <= i < |r| ==> JsMaps.Get(cache, Stringify(r[i].0)) == Some(Some(r[i].1))
      ensures forall j :: 0 <= j < |cache| && cache[j].1.Some? && Passes(filter, Parse(cache[j].0)) ==>
        (Parse(cache[j].0), cache[j].1.value) in r
      ensures forall i :: 0 <= i < |r| ==> multiset(r)[r[i]] == multiset(cache)[(Stringify(r[i].0), Some(r[i].1))]
    {
      var r := CachedEntries(cache, filter);
      assert forall i :: 0 <= i < |r| ==> multiset(r)[r[i]] == multiset(cache)[(Stringify(r[i].0), Some(r[i].1))] by {
        forall i | 0 <= i < |r| {
          CachedEntriesCount(cache, filter, r[i].0, r[i].1);
        }
      }
      r
    }

    /** `getCachedValues()`. */
    function GetCachedValues(): (r: seq<V>)
      reads this
      ensures forall i :: 0 <= i < |r| ==> exists j :: 0 <= j < |cache| && cache[j].1 == Some(r[i])
      ensures forall j :: 0 <= j < |cache| && cache[j].1.Some? ==> cache[j].1.value in r
      ensures forall i :: 0 <= i < |r| ==> multiset(r)[r[i]] == multiset(JsMaps.Values(cache))[Some(r[i])]
    {
      var r := CachedValues(cache);
      assert forall i :: 0 <= i < |r| ==> multiset(r)[r[i]] == multiset(JsMaps.Values(cache))[Some(r[i])] by {
        forall i | 0 <= i < |r| {
          NonNullCount(JsMaps.Values(cache), r[i]);
        }
      }
      r
    }

    /** `updateCache(parameters, value)`: overwrites one entry, nothing else. */
    method UpdateCache(parameters: P, value: V)
      requires Valid()
      modifies this
      ensures Valid()
      ensures cache == JsMaps.Set(old(cache), Stringify(parameters), Some(value))
      ensures loadingParameters == old(loadingParameters) && userIdentifier == old(userIdentifier)
      ensures pending == old(pending) && changes == old(changes)
    {
      JsMaps.SetKeepsKeysUnique(cache, Stringify(parameters), Some(value));
      cache := JsMaps.Set(cache, Stringify(parameters), Some(value));
    }
  }

  /** Two reads of the same key with no completion in between give the same
      answer and start at most one load between them. */
  method ReadTwice<P(==), V>(loader: MapLoader<P, V>, parameters: P) returns (first: Option<V>, second: Option<V>)
    requires loader.Valid()
    modifies loader
    ensures loader.Valid()
    ensures second == first
    ensures |loader.pending| <= |old(loader.pending)| + 1
    ensures loader.cache == old(loader.cache) && loader.userIdentifier == old(loader.userIdentifier)
  {
    first := loader.GetValue(parameters);
    second := loader.GetValue(parameters);
  }

  /** The first read of an unseen key serves nothing and starts one load for
      it; once the loader resolves `{ ok: true, value: id + 1 }`, the same
      read serves 16 for 15. */
  method GetValueThenSettle() returns (before: Option<int>, loads: nat, after: Option<int>)
    ensures before == None && loads == 1 && after == Some(16)
  {
    var loader := new MapLoader<int, int>(null, LoaderOptions(false, false, false), x => x != 0);
    before := loader.GetValue(15);
    loads := |loader.pending|;
    loader.Complete(0, Success(loader.pending[0].parameters + 1));
    after := loader.GetValue(15);
  }

  /** A loader for `store` whose one read of `key` has landed with `value`. */
  method LoadedLoader(store: UserStore, key: int, value: int) returns (loader: MapLoader<int, int>)
    requires NonEmpty(store.identifier)
    ensures fresh(loader) && loader.Valid() && loader.SingleFlight()
    ensures loader.userManager == store && loader.options == LoaderOptions(false, false, false)
    ensures loader.cache == [(Stringify(key), Some(value))] && loader.pending == []
    ensures loader.userIdentifier == store.identifier && loader.IsLoading(Stringify(key)) == false
  {
    loader := new MapLoader<int, int>(store, LoaderOptions(false, false, false), x => x != 0);
    var first := loader.GetValue(key);
    loader.Complete(0, Success(value));
  }

  /** With identifier "toto", 5 loads as 5 + 0; after the identifier becomes
      "titi" the next read starts a new load, and its result 5 + 1 replaces
      the old entry. The loader answers `x + serial` and counts its calls. */
  method IdentifierDidChange() returns (second: Option<int>, afterChange: Option<int>, third: Option<int>)
    ensures second == Some(5) && afterChange == None && third == Some(6)
  {
    var serial := 0;
    var store := new UserStore(Some("toto"), None);
    var loader := LoadedLoader(store, 5, 5 + serial);
    serial := serial + 1;
    second := loader.GetValue(5);
    store.identifier := Some("titi");
    afterChange := loader.GetValue(5);
    assert loader.pending == [PendingLoad(5, Stringify(5), Some("titi"))];
    loader.Complete(0, Success(loader.pending[0].parameters + serial));
    third := loader.GetValue(5);
  }

  /** While the identifier is null nothing loads; once the user is
      identified the read loads, and the result is served. */
  method UserGotConnected() returns (anonymous: Option<int>, loadsWhileAnonymous: nat, connected: Option<int>, settled: Option<int>)
    ensures anonymous == None && loadsWhileAnonymous == 0 && connected == None && settled == Some(5)
  {
    var store := new UserStore(None, None);
    var loader := new MapLoader<int, int>(store, LoaderOptions(false, false, false), x => x != 0);
    anonymous := loader.GetValue(5);
    loadsWhileAnonymous := |loader.pending|;
    store.identifier := Some("titi");
    connected := loader.GetValue(5);
    loader.Complete(0, Success(loader.pending[0].parameters));
    settled := loader.GetValue(5);
  }
}
