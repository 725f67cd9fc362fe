/** `ValueLoader` (and its older single-parameter twin `LazyLoader`): one
    cached value, the key it was loaded for, and the key of the load in
    flight. A response is committed only while its key is the one loading. */
module ValueLoaders {
  import opened Common
  import opened Hubs
  import opened Subscriptions

  datatype PendingLoad<P> = PendingLoad(parameters: P, key: Serialized<P>)

  class ValueLoader<P(==), V> {
    /** `cache`: the last committed value, null at first. */
    var cache: Option<V>
    /** `loadedParameters`: the key `cache` is current for, if any. */
    var loadedParameters: Option<Serialized<P>>
    /** `loadingParameters`: the key of the load whose response is awaited. */
    var loadingParameters: Option<Serialized<P>>
    /** `userToken`: the header captured when the last load started. */
    var userToken: Option<string>
    /** A public field, false at first; the constructor does not read it
        from the options. */
    var allowNotIdentified: bool
    /** Loads started and not yet settled, in the order they started. */
    var pending: seq<PendingLoad<P>>
    /** The values passed to `onChange`, oldest first. */
    var changes: seq<V>

    const userManager: UserStore?
    const hasOnChange: bool
    const truthy: V -> bool

    /** A loaded key always comes with a truthy value, and the key being
        loaded is the key of the most recent load still in flight. */
    ghost predicate Valid()
      reads this
    {
      && (loadedParameters.Some? ==> IsTruthy(truthy, cache))
      && (loadingParameters.Some? ==> pending != [] && pending[|pending| - 1].key == loadingParameters.value)
    }

    /** The cached value may be served: no user manager, the header is the
        captured token, or the header is null. */
    predicate TokenAccepted()
      reads this, userManager
    {
      userManager == null || userManager.authorizationHeader == userToken || userManager.authorizationHeader == None
    }

    /** No user manager, or the header is the captured token. */
    predicate SameToken()
      reads this, userManager
    {
      userManager == null || userManager.authorizationHeader == userToken
    }

    /** A user manager is present, its header is null and loading on behalf
        of nobody is not allowed. */
    predicate Blocked()
      reads this, userManager
    {
      userManager != null && userManager.authorizationHeader == None && !allowNotIdentified
    }

    /** `getValue` answers from `cache` without loading. */
    predicate Answers(key: Serialized<P>)
      reads this, userManager
    {
      (loadedParameters == Some(key) && TokenAccepted())
      || (loadingParameters == Some(key) && SameToken())
      || Blocked()
    }

    /** The token a load started now captures. */
    function CapturedToken(): Option<string>
      reads this, userManager
    {
      if userManager == null then userToken else userManager.authorizationHeader
    }

    constructor (userManager: UserStore?, hasOnChange: bool, truthy: V -> bool)
      ensures Valid()
      ensures cache == None && loadedParameters == None && loadingParameters == None
      ensures userToken == (if userManager == null then None else userManager.authorizationHeader)
      ensures !allowNotIdentified && pending == [] && changes == []
      ensures this.userManager == userManager && this.hasOnChange == hasOnChange && this.truthy == truthy
    {
      this.userManager := userManager;
      this.hasOnChange := hasOnChange;
      this.truthy := truthy;
      cache := None;
      loadedParameters := None;
      loadingParameters := None;
      userToken := if userManager == null then None else userManager.authorizationHeader;
      allowNotIdentified := false;
      pending := [];
      changes := [];
    }

    /** `getValue(...parameters)`: serves `cache`, or starts one load and
        serves nothing. */
    method GetValue(parameters: P) returns (r: Option<V>)
      requires Valid()
      modifies this
      ensures Valid()
      ensures old(Answers(Stringify(parameters))) ==> unchanged(this) && r == cache
      ensures !old(Answers(Stringify(parameters))) ==>
        && r == None
        && userToken == old(CapturedToken())
        && loadingParameters == Some(Stringify(parameters))
        && pending == old(pending) + [PendingLoad(parameters, Stringify(parameters))]
        && cache == old(cache) && loadedParameters == old(loadedParameters)
        && changes == old(changes) && allowNotIdentified == old(allowNotIdentified)
      ensures old(loadedParameters == Some(Stringify(parameters)) && TokenAccepted()) ==> IsTruthy(truthy, r)
    {
      var serialized := Stringify(parameters);
      if loadedParameters == Some(serialized)
        && (userManager == null || userManager.authorizationHeader == userToken || userManager.authorizationHeader == None)
      {
        return cache;
      }
      if (loadingParameters == Some(serialized) && (userManager == null || userManager.authorizationHeader == userToken))
        || (userManager != null && userManager.authorizationHeader == None && !allowNotIdentified)
      {
        return cache;
      }
      Load(parameters, serialized);
      return None;
    }

    /** `load`: captures the token, records the key and calls the loader;
        the call's settlement is `Complete`. */
    method Load(parameters: P, serialized: Serialized<P>)
      requires Valid()
      modifies this
      ensures Valid()
      ensures userToken == old(CapturedToken())
      ensures loadingParameters == Some(serialized)
      ensures pending == old(pending) + [PendingLoad(parameters, serialized)]
      ensures cache == old(cache) && loadedParameters == old(loadedParameters)
      ensures changes == old(changes) && allowNotIdentified == old(allowNotIdentified)
    {
      if userManager != null {
        userToken := userManager.authorizationHeader;
      }
      loadingParameters := Some(serialized);
      pending := pending + [PendingLoad(parameters, serialized)];
    }

    /** The promise of the `i`-th pending load settles: a success offers its
        value to `setValue`, a failure offers null. */
    method Complete(i: nat, response: LoaderResponse<V>)
      requires Valid()
      requires i < |pending|
      modifies this
      ensures Valid()
      ensures pending == old(pending[..i] + pending[i + 1..])
      ensures old(Commits(pending[i].key)) ==> Committed(old(pending[i].key), ResponseValue(response), old(changes))
      ensures !old(Commits(pending[i].key)) ==>
        && cache == old(cache) && loadedParameters == old(loadedParameters)
        && loadingParameters == old(loadingParameters) && changes == old(changes)
      ensures userToken == old(userToken) && allowNotIdentified == old(allowNotIdentified)
    {
      SetValue(ResponseValue(response), pending[i].key);
      pending := pending[..i] + pending[i + 1..];
      if i + 1 < |old(pending)| {
        assert pending[|pending| - 1] == old(pending)[|old(pending)| - 1];
      }
    }

    /** `setValue` takes effect for this key. */
    predicate Commits(serialized: Serialized<P>)
      reads this
    {
      loadingParameters == Some(serialized)
    }

    /** The state after `value` was committed for `serialized`: cached,
        nothing loading, loaded exactly when truthy, `onChange` called exactly
        when truthy. */
    ghost predicate Committed(serialized: Serialized<P>, value: Option<V>, oldChanges: seq<V>)
      reads this
    {
      && cache == value
      && loadingParameters == None
      && loadedParameters == (if IsTruthy(truthy, value) then Some(serialized) else None)
      && changes == oldChanges + OnChangeCalls(value)
    }

    function OnChangeCalls(value: Option<V>): (calls: seq<V>)
      reads this
      ensures |calls| <= 1
      ensures calls != [] <==> hasOnChange && IsTruthy(truthy, value)
      ensures calls != [] ==> calls[0] == value.value
    {
      if hasOnChange && IsTruthy(truthy, value) then [value.value] else []
    }

    /** `setValue(value, serialized)`: ignored unless `serialized` is the key
        being loaded. */
    method SetValue(value: Option<V>, serialized: Serialized<P>)
      requires Valid()
      modifies this
      ensures Valid()
      ensures old(Commits(serialized)) ==> Committed(serialized, value, old(changes))
      ensures !old(Commits(serialized)) ==> unchanged(this)
      ensures pending == old(pending) && userToken == old(userToken) && allowNotIdentified == old(allowNotIdentified)
    {
      if loadingParameters == Some(serialized) {
        cache := value;
        loadingParameters := None;
        loadedParameters := if IsTruthy(truthy, value) then Some(serialized) else None;
        if hasOnChange && IsTruthy(truthy, value) {
          changes := changes + [value.value];
        }
      }
    }

    /** `refresh()`: reloads the loaded parameters, if any. */
    method Refresh()
      requires Valid()
      modifies this
      ensures Valid()
      ensures old(loadedParameters).None? ==> unchanged(this)
      ensures old(loadedParameters).Some? ==>
        && loadingParameters == old(loadedParameters)
        && pending == old(pending) + [PendingLoad(Parse(old(loadedParameters).value), old(loadedParameters).value)]
        && userToken == old(CapturedToken())
        && cache == old(cache) && loadedParameters == old(loadedParameters) && changes == old(changes)
      ensures allowNotIdentified == old(allowNotIdentified)
    {
      // A serialised tuple is never the empty string, so the test is a null test.
      if loadedParameters.Some? {
        Load(Parse(loadedParameters.value), loadedParameters.value);
      }
    }

    /** `invalidate()`: forgets which key is loaded, keeps the value. */
    method Invalidate()
      requires Valid()
      modifies this
      ensures Valid()
      ensures loadedParameters == None
      ensures cache == old(cache) && loadingParameters == old(loadingParameters) && userToken == old(userToken)
      ensures pending == old(pending) && changes == old(changes) && allowNotIdentified == old(allowNotIdentified)
    {
      loadedParameters := None;
    }

    /** `isLoading`. */
    function IsLoading(): (r: bool)
      reads this
      ensures r <==> loadingParameters.Some?
      ensures Valid() && r ==> pending != []
    {
      loadingParameters != None
    }
  }

  /** `ValueLoaderSync` (and `LazyLoaderSync`): the wrapped loader function
      closes the previous subscription and opens one for its parameters, and
      the pushed `Update<identifier>` and `Delete<identifier>` events go
      through `setValue`. */
  class ValueLoaderSync<P(==), V> {
    const inner: ValueLoader<P, V>
    const subscription: Subscription<P>
    const connection: HubConnection<P>
    const identifier: string

    /** The open subscription is for the key being loaded or, when none
        is, for the loaded key. */
    ghost predicate Valid()
      reads this, inner, subscription
    {
      && inner.Valid() && subscription.Valid()
      && subscription.connection == connection
      && subscription.identifier == identifier
      && subscription.style == PerEntityNames
      && (var current := if inner.loadingParameters.Some? then inner.loadingParameters else inner.loadedParameters;
          current.Some? ==> subscription.previousParameters.Some? && Stringify(subscription.previousParameters.value) == current.value)
    }

    /** `paramsTruthy` is the truthiness of a parameter value: always true
        for the rest-parameter tuple of `ValueLoaderSync`, false for 0, ""
        and null for the single parameter of `LazyLoaderSync`. */
    constructor (connection: HubConnection<P>, identifier: string, userManager: UserStore?, hasOnChange: bool,
                 truthy: V -> bool, paramsTruthy: P -> bool)
      modifies connection
      ensures Valid()
      ensures fresh(inner) && fresh(subscription)
      ensures this.connection == connection && this.identifier == identifier
      ensures inner.cache == None && inner.loadedParameters == None && inner.loadingParameters == None
      ensures inner.userToken == (if userManager == null then None else userManager.authorizationHeader)
      ensures !inner.allowNotIdentified && inner.pending == [] && inner.changes == []
      ensures inner.userManager == userManager && inner.hasOnChange == hasOnChange && inner.truthy == truthy
      ensures subscription.truthy == paramsTruthy && subscription.previousParameters == None
      ensures connection.handlers == old(connection.handlers) + ["Update" + identifier, "Delete" + identifier]
      ensures connection.calls == old(connection.calls)
    {
      inner := new ValueLoader(userManager, hasOnChange, truthy);
      subscription := new Subscription(connection, identifier, PerEntityNames, paramsTruthy);
      this.connection := connection;
      this.identifier := identifier;
      new;
      connection.On("Update" + identifier);
      connection.On("Delete" + identifier);
    }

    /** `getValue(...parameters)`: as `ValueLoader.GetValue`, and a load that
        starts sends the subscription calls. */
    method GetValue(parameters: P) returns (r: Option<V>)
      requires Valid()
      modifies inner, subscription, connection
      ensures Valid()
      ensures old(inner.Answers(Stringify(parameters))) ==>
        unchanged(inner) && unchanged(subscription) && unchanged(connection) && r == inner.cache
      ensures !old(inner.Answers(Stringify(parameters))) ==>
        && r == None
        && inner.loadingParameters == Some(Stringify(parameters))
        && inner.pending == old(inner.pending) + [PendingLoad(parameters, Stringify(parameters))]
        && inner.userToken == old(inner.CapturedToken())
        && inner.cache == old(inner.cache) && inner.loadedParameters == old(inner.loadedParameters)
        && inner.changes == old(inner.changes) && inner.allowNotIdentified == old(inner.allowNotIdentified)
        && connection.calls == old(connection.calls) + old(subscription.SwitchCalls(parameters))
        && subscription.previousParameters == Some(parameters)
      ensures connection.handlers == old(connection.handlers)
    {
      var before := |inner.pending|;
      r := inner.GetValue(parameters);
      if |inner.pending| != before {
        subscription.Switch(parameters);
        StringifyParse(Stringify(parameters));
      }
    }

    /** `refresh()` through the wrapped loader function. */
    method Refresh()
      requires Valid()
      modifies inner, subscription, connection
      ensures Valid()
      ensures old(inner.loadedParameters).None? ==> unchanged(inner) && unchanged(subscription) && unchanged(connection)
      ensures old(inner.loadedParameters).Some? ==>
        && inner.loadingParameters == old(inner.loadedParameters)
        && inner.pending == old(inner.pending) + [PendingLoad(Parse(old(inner.loadedParameters).value), old(inner.loadedParameters).value)]
        && inner.userToken == old(inner.CapturedToken())
        && inner.cache == old(inner.cache) && inner.loadedParameters == old(inner.loadedParameters)
        && inner.changes == old(inner.changes) && inner.allowNotIdentified == old(inner.allowNotIdentified)
        && connection.calls == old(connection.calls) + old(subscription.SwitchCalls(Parse(inner.loadedParameters.value)))
        && subscription.previousParameters == Some(Parse(old(inner.loadedParameters).value))
      ensures connection.handlers == old(connection.handlers)
    {
      if inner.loadedParameters.Some? {
        var parameters := Parse(inner.loadedParameters.value);
        inner.Refresh();
        subscription.Switch(parameters);
        StringifyParse(inner.loadedParameters.value);
      }
    }

    /** The pushed `Update<identifier>(updatedValue, p)` event. */
    method OnUpdate(updatedValue: V, p: P)
      requires Valid()
      modifies inner
      ensures Valid()
      ensures old(inner.Commits(Stringify(p))) ==> inner.Committed(Stringify(p), Some(updatedValue), old(inner.changes))
      ensures !old(inner.Commits(Stringify(p))) ==> unchanged(inner)
      ensures inner.pending == old(inner.pending)
    {
      inner.SetValue(Some(updatedValue), Stringify(p));
    }

    /** The pushed `Delete<identifier>(p)` event. */
    method OnDelete(p: P)
      requires Valid()
      modifies inner
      ensures Valid()
      ensures old(inner.Commits(Stringify(p))) ==> inner.Committed(Stringify(p), None, old(inner.changes))
      ensures !old(inner.Commits(Stringify(p))) ==> unchanged(inner)
      ensures inner.pending == old(inner.pending)
    {
      inner.SetValue(None, Stringify(p));
    }

    /** The `i`-th pending load settles. */
    method Complete(i: nat, response: LoaderResponse<V>)
      requires Valid()
      requires i < |inner.pending|
      modifies inner
      ensures Valid()
      ensures inner.pending == old(inner.pending[..i] + inner.pending[i + 1..])
      ensures old(inner.Commits(inner.pending[i].key)) ==>
        inner.Committed(old(inner.pending[i].key), ResponseValue(response), old(inner.changes))
      ensures !old(inner.Commits(inner.pending[i].key)) ==>
        && inner.cache == old(inner.cache) && inner.loadedParameters == old(inner.loadedParameters)
        && inner.loadingParameters == old(inner.loadingParameters) && inner.changes == old(inner.changes)
      ensures inner.userToken == old(inner.userToken) && inner.allowNotIdentified == old(inner.allowNotIdentified)
    {
      inner.Complete(i, response);
    }
  }

  /** A response for parameters that are no longer the ones loading is
      dropped: 1 is requested, then 2; the answer for 1 lands first and is
      ignored, the answer for 2 is committed and served. */
  method SupersededResponseDropped() returns (afterStale: Option<int>, served: Option<int>, loadsLeft: nat)
    ensures afterStale == None && served == Some(200) && loadsLeft == 0
  {
    var loader := new ValueLoader<int, int>(null, false, x => x != 0);
    var first := loader.GetValue(1);
    var second := loader.GetValue(2);
    loader.Complete(0, Success(100));
    afterStale := loader.GetValue(2);
    loader.Complete(0, Success(200));
    served := loader.GetValue(2);
    loadsLeft := |loader.pending|;
  }

  /** A failed load and a falsy value both leave nothing loaded, so the next
      read starts another load; a truthy value is served without one. */
  method FalsyIsReloaded() returns (afterFailure: Option<int>, loadsAfterFailure: nat, afterZero: Option<int>,
                                    loadsAfterZero: nat, afterFive: Option<int>, loadsAfterFive: nat)
    ensures afterFailure == None && loadsAfterFailure == 1
    ensures afterZero == None && loadsAfterZero == 1
    ensures afterFive == Some(5) && loadsAfterFive == 0
  {
    var loader := new ValueLoader<int, int>(null, false, x => x != 0);
    var r := loader.GetValue(3);
    loader.Complete(0, Failure);
    afterFailure := loader.GetValue(3);
    loadsAfterFailure := |loader.pending|;
    loader.Complete(0, Success(0));
    afterZero := loader.GetValue(3);
    loadsAfterZero := |loader.pending|;
    loader.Complete(0, Success(5));
    afterFive := loader.GetValue(3);
    loadsAfterFive := |loader.pending|;
  }

  /** Without a header and without `allowNotIdentified` nothing loads; once
      a header appears the read loads, and after another header appears the
      loaded value is no longer served and a new load starts. */
  method TokenChangeReloads() returns (anonymous: Option<int>, loadsWhileAnonymous: nat, connected: Option<int>,
                                       sameUser: Option<int>, otherUser: Option<int>, loadsForOtherUser: nat)
    ensures anonymous == None && loadsWhileAnonymous == 0 && connected == None
    ensures sameUser == Some(9) && otherUser == None && loadsForOtherUser == 1
  {
    var store := new UserStore(None, None);
    var loader := new ValueLoader<int, int>(store, false, x => x != 0);
    anonymous := loader.GetValue(9);
    loadsWhileAnonymous := |loader.pending|;
    store.authorizationHeader := Some("Bearer a");
    connected := loader.GetValue(9);
    loader.Complete(0, Success(9));
    sameUser := loader.GetValue(9);
    store.authorizationHeader := Some("Bearer b");
    otherUser := loader.GetValue(9);
    loadsForOtherUser := |loader.pending|;
  }

  /** On the hub, the first load opens its parameters and the next one closes
      them before opening its own; the handlers are registered once. */
  method LiveSubscription() returns (calls: seq<HubCall<int>>, handlers: seq<string>)
    ensures calls == [Invoked("OpenUser", [Parameters(4)]), Invoked("CloseUser", [Parameters(4)]), Invoked("OpenUser", [Parameters(5)])]
    ensures handlers == ["UpdateUser", "DeleteUser"]
  {
    var connection := new HubConnection<int>();
    var loader := new ValueLoaderSync<int, int>(connection, "User", null, false, x => x != 0, p => true);
    var r := loader.GetValue(4);
    assert connection.calls == [Invoked("Open" + "User", [Parameters(4)])];
    r := loader.GetValue(5);
    assert "Open" + "User" == "OpenUser" && "Close" + "User" == "CloseUser";
    assert "Update" + "User" == "UpdateUser" && "Delete" + "User" == "DeleteUser";
    calls := connection.calls;
    handlers := connection.handlers;
  }

  /** A pushed update lands while its parameters are loading, and the late
      response is then ignored; once nothing is loading the same push is
      ignored too. */
  method PushOnlyWhileLoading() returns (whileLoading: Option<int>, afterSettled: Option<int>)
    ensures whileLoading == Some(7) && afterSettled == Some(7)
  {
    var connection := new HubConnection<int>();
    var loader := new ValueLoaderSync<int, int>(connection, "User", null, false, x => x != 0, p => true);
    var r := loader.GetValue(4);
    loader.OnUpdate(7, 4);
    whileLoading := loader.inner.cache;
    loader.Complete(0, Success(8));
    loader.OnUpdate(9, 4);
    afterSettled := loader.inner.cache;
  }

  /** `LazyLoaderSync` with a single falsy parameter: a load for 0 opens a
      subscription that the next load never closes. */
  method FalsyParameterNeverClosed() returns (calls: seq<HubCall<int>>)
    ensures calls == [Invoked("OpenUser", [Parameters(0)]), Invoked("OpenUser", [Parameters(1)])]
  {
    var connection := new HubConnection<int>();
    var loader := new ValueLoaderSync<int, int>(connection, "User", null, false, x => x != 0, p => p != 0);
    var r := loader.GetValue(0);
    assert connection.calls == [Invoked("Open" + "User", [Parameters(0)])];
    r := loader.GetValue(1);
    assert connection.calls == [Invoked("Open" + "User", [Parameters(0)]), Invoked("Open" + "User", [Parameters(1)])];
    assert "Open" + "User" == "OpenUser";
    calls := connection.calls;
  }
}
