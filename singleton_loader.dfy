/** `SingletonLoader`: one value loaded by a loader without parameters, with
    a `loading` and a `loaded` flag. Unlike the other loaders, a failed load
    counts as loaded: its null is served until `invalidate` or `refresh`. */
module SingletonLoaders {
  import opened Common

  class SingletonLoader<V> {
    /** `cache`: the last committed value, null at first. */
    var cache: Option<V>
    var loaded: bool
    var loading: bool
    /** `userToken`: the header captured when the last load started. */
    var userToken: Option<string>
    /** A public field, false at first. */
    var allowNotIdentified: bool
    /** Calls of the loader whose promise has not settled yet. */
    var inFlight: nat
    /** The values passed to `onChange`, oldest first. */
    var changes: seq<V>

    const userManager: UserStore?
    const hasOnChange: bool
    const truthy: V -> bool

    /** While `loading` is set some load is in flight. */
    ghost predicate Valid()
      reads this
    {
      loading ==> inFlight > 0
    }

    /** `getValue` answers from `cache` without loading. */
    predicate Answers()
      reads this, userManager
    {
      (loaded && (userManager == null || userManager.authorizationHeader == userToken || userManager.authorizationHeader == None))
      || (loading && (userManager == null || userManager.authorizationHeader == userToken))
      || (userManager != null && userManager.authorizationHeader == None && !allowNotIdentified)
    }

    /** The token a load started now captures: null without a user manager. */
    function CapturedToken(): Option<string>
      reads this, userManager
    {
      if userManager == null then None else userManager.authorizationHeader
    }

    constructor (userManager: UserStore?, hasOnChange: bool, truthy: V -> bool)
      ensures Valid()
      ensures cache == None && !loaded && !loading && !allowNotIdentified && inFlight == 0 && changes == []
      ensures userToken == (if userManager == null then None else userManager.authorizationHeader)
      ensures this.userManager == userManager && this.hasOnChange == hasOnChange && this.truthy == truthy
    {
      this.userManager := userManager;
      this.hasOnChange := hasOnChange;
      this.truthy := truthy;
      cache := None;
      loaded := false;
      loading := false;
      userToken := if userManager == null then None else userManager.authorizationHeader;
      allowNotIdentified := false;
      inFlight := 0;
      changes := [];
    }

    /** `getValue()`: serves `cache`, or starts one load and serves nothing. */
    method GetValue() returns (r: Option<V>)
      requires Valid()
      modifies this
      ensures Valid()
      ensures old(Answers()) ==> unchanged(this) && r == cache
      ensures !old(Answers()) ==>
        && r == None && loading && inFlight == old(inFlight) + 1
        && userToken == old(CapturedToken())
        && cache == old(cache) && loaded == old(loaded)
        && changes == old(changes) && allowNotIdentified == old(allowNotIdentified)
    {
      if loaded && (userManager == null || userManager.authorizationHeader == userToken || userManager.authorizationHeader == None) {
        return cache;
      }
      if (loading && (userManager == null || userManager.authorizationHeader == userToken))
        || (userManager != null && userManager.authorizationHeader == None && !allowNotIdentified)
      {
        return cache;
      }
      Load();
      return None;
    }

    /** `load`: captures the token, sets `loading` and calls the loader. */
    method Load()
      modifies this
      ensures Valid()
      ensures loading && inFlight == old(inFlight) + 1
      ensures userToken == old(CapturedToken())
      ensures cache == old(cache) && loaded == old(loaded)
      ensures changes == old(changes) && allowNotIdentified == old(allowNotIdentified)
    {
      userToken := if userManager != null then userManager.authorizationHeader else None;
      loading := true;
      inFlight := inFlight + 1;
    }

    /** One in-flight load settles: a success offers its value to
        `setValue`, a failure offers null. */
    method Complete(response: LoaderResponse<V>)
      requires Valid()
      requires inFlight > 0
      modifies this
      ensures Valid()
      ensures inFlight == old(inFlight) - 1
      ensures old(loading) ==> Committed(ResponseValue(response), old(changes))
      ensures !old(loading) ==> cache == old(cache) && loaded == old(loaded) && !loading && changes == old(changes)
      ensures userToken == old(userToken) && allowNotIdentified == old(allowNotIdentified)
    {
      SetValue(ResponseValue(response));
      inFlight := inFlight - 1;
    }

    /** The state after `value` was committed: cached and loaded whatever it
        is, nothing loading, `onChange` called exactly when it is truthy. */
    ghost predicate Committed(value: Option<V>, oldChanges: seq<V>)
      reads this
    {
      cache == value && loaded && !loading && changes == oldChanges + OnChangeCalls(value)
    }

    function OnChangeCalls(value: Option<V>): (calls: seq<V>)
      reads this
      ensures |calls| <= 1
      ensures calls != [] <==> hasOnChange && IsTruthy(truthy, value)
      ensures calls != [] ==> calls[0] == value.value
    {
      if hasOnChange && IsTruthy(truthy, value) then [value.value] else []
    }

    /** `setValue(value)`: ignored unless a load is flagged. */
    method SetValue(value: Option<V>)
      modifies this
      ensures old(loading) ==> Committed(value, old(changes))
      ensures !old(loading) ==> unchanged(this)
      ensures inFlight == old(inFlight) && userToken == old(userToken) && allowNotIdentified == old(allowNotIdentified)
    {
      if loading {
        cache := value;
        loading := false;
        loaded := true;
        if hasOnChange && IsTruthy(truthy, value) {
          changes := changes + [value.value];
        }
      }
    }

    /** `refresh()`: loads again, but only once something is loaded. */
    method Refresh()
      requires Valid()
      modifies this
      ensures Valid()
      ensures !old(loaded) ==> unchanged(this)
      ensures old(loaded) ==>
        && loading && inFlight == old(inFlight) + 1 && userToken == old(CapturedToken())
        && cache == old(cache) && loaded && changes == old(changes)
    {
      if loaded {
        Load();
      }
    }

    /** `invalidate()`: clears `loaded`, keeps the value. */
    method Invalidate()
      modifies this
      ensures !loaded
      ensures cache == old(cache) && loading == old(loading) && userToken == old(userToken)
      ensures inFlight == old(inFlight) && changes == old(changes) && allowNotIdentified == old(allowNotIdentified)
    {
      loaded := false;
    }

    /** `isLoading`. */
    function IsLoading(): (r: bool)
      reads this
      ensures r <==> loading
      ensures Valid() && r ==> inFlight > 0
    {
      loading
    }
  }

  /** A failed load is cached: the null it stores is served and no second
      load starts, until `invalidate` makes the next read load again. */
  method FailureIsCached() returns (afterFailure: Option<int>, loadsAfterFailure: nat,
                                    afterInvalidate: Option<int>, loadsAfterInvalidate: nat)
    ensures afterFailure == None && loadsAfterFailure == 0
    ensures afterInvalidate == None && loadsAfterInvalidate == 1
  {
    var loader := new SingletonLoader<int>(null, false, x => x != 0);
    var r := loader.GetValue();
    loader.Complete(Failure);
    afterFailure := loader.GetValue();
    loadsAfterFailure := loader.inFlight;
    loader.Invalidate();
    afterInvalidate := loader.GetValue();
    loadsAfterInvalidate := loader.inFlight;
  }

  /** `refresh` does nothing before the first value lands; afterwards it
      loads again while the old value stays served, and `onChange` sees
      each truthy value committed. */
  method RefreshAfterLoad() returns (loadsBeforeLoad: nat, servedWhileRefreshing: Option<int>, changes: seq<int>)
    ensures loadsBeforeLoad == 1 && servedWhileRefreshing == Some(4) && changes == [4, 6]
  {
    var loader := new SingletonLoader<int>(null, true, x => x != 0);
    loader.Refresh();
    var r := loader.GetValue();
    loader.Refresh();
    loadsBeforeLoad := loader.inFlight;
    loader.Complete(Success(4));
    loader.Refresh();
    servedWhileRefreshing := loader.GetValue();
    loader.Complete(Success(6));
    changes := loader.changes;
  }
}
