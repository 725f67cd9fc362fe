/** `ArrayLoader`: the list of records for the latest parameters. The list
    (`result`) holds references into a backing store (`cache`) that may be
    shared with other loaders; the store only grows, by `push`, and its
    records are changed in place by `Object.assign`. The model keeps the
    store as a sequence in a `RecordStore` object and `result` as positions
    in it, so that a record changed in the store is changed in every list
    that refers to it. */
module ArrayLoaders {
  import opened Common
  import opened Hubs
  import opened Subscriptions

  /** A record with an `id`; its other properties are `fields`. */
  datatype Record<F> = Record(id: int, fields: map<string, F>)

  /** `Object.assign(existing, value)` on two records with the same id: the
      properties of `value` overwrite those of `existing`, the others stay. */
  function Merge<F>(existing: Record<F>, value: Record<F>): (r: Record<F>)
    ensures r.id == existing.id
    ensures r.fields.Keys == existing.fields.Keys + value.fields.Keys
    ensures forall k :: k in value.fields ==> r.fields[k] == value.fields[k]
    ensures forall k :: k in existing.fields && k !in value.fields ==> r.fields[k] == existing.fields[k]
  {
    Record(existing.id, existing.fields + value.fields)
  }

  /** `cache.find(x => x.id === id)`, as a position. */
  function FindId<F>(records: seq<Record<F>>, id: int): (r: Option<nat>)
    ensures r.Some? ==> r.value < |records| && records[r.value].id == id
    ensures r.Some? ==> forall j :: 0 <= j < r.value ==> records[j].id != id
    ensures r.None? ==> forall j :: 0 <= j < |records| ==> records[j].id != id
  {
    if records == [] then None
    else if records[0].id == id then Some(0)
    else
      match FindId(records[1..], id)
      case None => None
      case Some(j) => Some(j + 1)
  }

  /** Every position of `result` points into the store. */
  predicate RefsValid<F>(records: seq<Record<F>>, result: seq<nat>)
  {
    forall k :: 0 <= k < |result| ==> result[k] < |records|
  }

  /** `result.findIndex(x => x.id === id)`. */
  function FindRef<F>(records: seq<Record<F>>, result: seq<nat>, id: int): (r: Option<nat>)
    requires RefsValid(records, result)
    ensures r.Some? ==> r.value < |result| && records[result[r.value]].id == id
    ensures r.Some? ==> forall j :: 0 <= j < r.value ==> records[result[j]].id != id
    ensures r.None? ==> forall j :: 0 <= j < |result| ==> records[result[j]].id != id
  {
    if result == [] then None
    else if records[result[0]].id == id then Some(0)
    else
      match FindRef(records, result[1..], id)
      case None => None
      case Some(j) => Some(j + 1)
  }

  /** No id occurs twice in the store. */
  predicate IdsUnique<F>(records: seq<Record<F>>)
  {
    forall i, j :: 0 <= i < j < |records| ==> records[i].id != records[j].id
  }

  /** The records a list of positions refers to, in order. */
  function Materialise<F>(records: seq<Record<F>>, result: seq<nat>): (r: seq<Record<F>>)
    requires RefsValid(records, result)
    ensures |r| == |result|
    ensures forall k :: 0 <= k < |result| ==> r[k] == records[result[k]]
  {
    seq(|result|, k requires 0 <= k < |result| => records[result[k]])
  }

  /** What `addValue` works on: the store, the list, and the records passed
      to the `onChange` (older: `onItemLoaded`) callback. */
  datatype View<F> = View(records: seq<Record<F>>, result: seq<nat>, changes: seq<Record<F>>)

  /** `addValue(value)` on a list that is not null: a new id is pushed to the
      store (and reported when `notify`), a known id is merged into the
      stored record; either way the stored record is appended to the list. */
  function AddStep<F>(v: View<F>, value: Record<F>, notify: bool): (r: View<F>)
    ensures FindId(v.records, value.id).None? ==>
      r.records == v.records + [value] && r.changes == v.changes + (if notify then [value] else [])
    ensures FindId(v.records, value.id).Some? ==>
      |r.records| == |v.records| && r.changes == v.changes
      && forall j :: 0 <= j < |v.records| && j != FindId(v.records, value.id).value ==> r.records[j] == v.records[j]
    ensures forall j :: 0 <= j < |v.records| ==> r.records[j].id == v.records[j].id
    ensures |r.result| == |v.result| + 1 && r.result == v.result + [r.result[|v.result|]]
    ensures r.result[|v.result|] < |r.records| && r.records[r.result[|v.result|]].id == value.id
    ensures forall k :: k in value.fields ==>
      k in r.records[r.result[|v.result|]].fields && r.records[r.result[|v.result|]].fields[k] == value.fields[k]
    ensures RefsValid(v.records, v.result) ==> RefsValid(r.records, r.result)
  {
    match FindId(v.records, value.id)
    case None =>
      View(v.records + [value], v.result + [|v.records|], v.changes + (if notify then [value] else []))
    case Some(j) =>
      View(v.records[j := Merge(v.records[j], value)], v.result + [j], v.changes)
  }

  /** `addValue` never gives two stored records the same id. */
  lemma AddStepKeepsIdsUnique<F>(v: View<F>, value: Record<F>, notify: bool)
    requires IdsUnique(v.records)
    ensures IdsUnique(AddStep(v, value, notify).records)
  {
  }

  /** The `for` loop of `setValues`: `addValue` for each record in order. */
  function AddAll<F>(v: View<F>, values: seq<Record<F>>, notify: bool): (r: View<F>)
    ensures |r.records| >= |v.records|
    ensures forall j :: 0 <= j < |v.records| ==> r.records[j].id == v.records[j].id
    ensures |r.result| == |v.result| + |values| && r.result[..|v.result|] == v.result
    ensures RefsValid(v.records, v.result) ==> RefsValid(r.records, r.result)
    ensures !notify ==> r.changes == v.changes
    decreases |values|
  {
    if values == [] then v
    else
      var n := |values| - 1;
      var before := AddAll(v, values[..n], notify);
      var step := AddStep(before, values[n], notify);
      assert step.result[..|v.result|] == before.result[..|v.result|];
      step
  }

  /** The list gains one entry per record, pointing at a stored record with
      that record's id. */
  lemma {:induction false} AddAllIds<F>(v: View<F>, values: seq<Record<F>>, notify: bool, k: nat)
    requires k < |values|
    ensures AddAll(v, values, notify).result[|v.result| + k] < |AddAll(v, values, notify).records|
    ensures AddAll(v, values, notify).records[AddAll(v, values, notify).result[|v.result| + k]].id == values[k].id
    decreases |values|
  {
    var n := |values| - 1;
    var before := AddAll(v, values[..n], notify);
    var r := AddAll(v, values, notify);
    assert r == AddStep(before, values[n], notify);
    if k < n {
      AddAllIds(v, values[..n], notify, k);
      assert values[..n][k] == values[k];
      var at := before.result[|v.result| + k];
      assert r.result[|v.result| + k] == at;
    }
  }

  /** Loading a list never gives two stored records the same id. */
  lemma {:induction false} AddAllKeepsIdsUnique<F>(v: View<F>, values: seq<Record<F>>, notify: bool)
    requires IdsUnique(v.records)
    ensures IdsUnique(AddAll(v, values, notify).records)
    decreases |values|
  {
    if values != [] {
      var n := |values| - 1;
      AddAllKeepsIdsUnique(v, values[..n], notify);
      AddStepKeepsIdsUnique(AddAll(v, values[..n], notify), values[n], notify);
    }
  }

  /** One more iteration of the loop is one more `addValue`. */
  lemma AddAllSnoc<F>(v: View<F>, values: seq<Record<F>>, i: nat, notify: bool)
    requires i < |values|
    ensures AddAll(v, values[..i + 1], notify) == AddStep(AddAll(v, values[..i], notify), values[i], notify)
  {
    assert values[..i + 1][..i] == values[..i];
  }

  /** Loading a list into an empty one gives the response's ids in the
      response's order. */
  lemma AddAllListsResponse<F>(records: seq<Record<F>>, changes: seq<Record<F>>, values: seq<Record<F>>, notify: bool)
    ensures var r := AddAll(View(records, [], changes), values, notify);
      RefsValid(r.records, r.result)
      && |Materialise(r.records, r.result)| == |values|
      && forall k :: 0 <= k < |values| ==> Materialise(r.records, r.result)[k].id == values[k].id
  {
    var v := View(records, [], changes);
    var r := AddAll(v, values, notify);
    assert RefsValid(v.records, v.result);
    var listed := Materialise(r.records, r.result);
    forall k | 0 <= k < |values|
      ensures listed[k].id == values[k].id
    {
      AddAllIds(v, values, notify, k);
      assert |v.result| + k == k;
      assert listed[k] == r.records[r.result[k]];
    }
  }

  /** The shared backing store: an array of records that loaders push to and
      merge into, and never remove from. */
  class RecordStore<F> {
    var records: seq<Record<F>>

    constructor (records: seq<Record<F>>)
      ensures this.records == records
    {
      this.records := records;
    }
  }

  datatype PendingLoad<P> = PendingLoad(parameters: P, key: Serialized<P>)

  class ArrayLoader<P(==), F> {
    var loadingParameters: Option<Serialized<P>>
    var loadedParameters: Option<Serialized<P>>
    /** `result`: null until the first records land, then positions in the
        store. */
    var result: Option<seq<nat>>
    /** The header captured when the last load started. */
    var authorizationHeader: Option<string>
    var pending: seq<PendingLoad<P>>
    /** The records passed to `onChange` (`onItemLoaded`), oldest first. */
    var changes: seq<Record<F>>

    /** `cache`: the store given to the constructor, or a new empty one. */
    const store: RecordStore<F>
    const userManager: UserStore?
    const hasOnChange: bool

    /** The list only refers to records of the store. */
    ghost predicate Valid()
      reads this, store
    {
      result.Some? ==> RefsValid(store.records, result.value)
    }

    /** The list as the caller sees it, or null. */
    function Current(): (r: Option<seq<Record<F>>>)
      requires Valid()
      reads this, store
      ensures r.Some? <==> result.Some?
      ensures r.Some? ==> |r.value| == |result.value|
    {
      if result.None? then None else Some(Materialise(store.records, result.value))
    }

    function ViewOf(): View<F>
      requires result.Some?
      reads this, store
    {
      View(store.records, result.value, changes)
    }

    /** The list may be served for its parameters: no user manager, the
        header is the captured one, or it is null. */
    predicate HeaderAccepted()
      reads this, userManager
    {
      userManager == null || userManager.authorizationHeader == authorizationHeader || userManager.authorizationHeader == None
    }

    /** With a user manager, the same parameters are loading under the same
        header, or the header is null. */
    predicate Waits(key: Serialized<P>)
      reads this, userManager
    {
      userManager != null
      && ((loadingParameters == Some(key) && userManager.authorizationHeader == authorizationHeader)
          || userManager.authorizationHeader == None)
    }

    /** `getValue` serves the list without loading. */
    predicate Serves(key: Serialized<P>)
      reads this, userManager
    {
      (loadedParameters == Some(key) && HeaderAccepted()) || Waits(key)
    }

    /** `getValue` starts a load: it does not serve the list, and the key is
        not already loading (then it serves null). */
    predicate Starts(key: Serialized<P>)
      reads this, userManager
    {
      !Serves(key) && loadingParameters != Some(key)
    }

    function CapturedHeader(): Option<string>
      reads this, userManager
    {
      if userManager == null then None else userManager.authorizationHeader
    }

    /** `store` is `None` for `cache` left undefined. */
    constructor (store: RecordStore?<F>, userManager: UserStore?, hasOnChange: bool)
      ensures Valid()
      ensures store != null ==> this.store == store
      ensures store == null ==> fresh(this.store) && this.store.records == []
      ensures loadingParameters == None && loadedParameters == None && result == None
      ensures authorizationHeader == CapturedHeader()
      ensures pending == [] && changes == []
      ensures this.userManager == userManager && this.hasOnChange == hasOnChange
    {
      if store == null {
        this.store := new RecordStore([]);
      } else {
        this.store := store;
      }
      this.userManager := userManager;
      this.hasOnChange := hasOnChange;
      loadingParameters := None;
      loadedParameters := None;
      result := None;
      authorizationHeader := if userManager == null then None else userManager.authorizationHeader;
      pending := [];
      changes := [];
    }

    /** `getValue(parameters)`. */
    method GetValue(parameters: P) returns (r: Option<seq<Record<F>>>)
      requires Valid()
      modifies this
      ensures Valid()
      ensures old(Serves(Stringify(parameters))) ==> unchanged(this) && r == Current()
      ensures old(!Serves(Stringify(parameters)) && !Starts(Stringify(parameters))) ==> unchanged(this) && r == None
      ensures old(Starts(Stringify(parameters))) ==>
        && loadingParameters == Some(Stringify(parameters))
        && authorizationHeader == old(CapturedHeader())
        && pending == old(pending) + [PendingLoad(parameters, Stringify(parameters))]
        && loadedParameters == old(loadedParameters) && result == old(result) && changes == old(changes)
        && r == Current()
    {
      var serialized := Stringify(parameters);
      if loadedParameters == Some(serialized)
        && (userManager == null || userManager.authorizationHeader == authorizationHeader || userManager.authorizationHeader == None)
      {
        return Current();
      }
      if userManager != null
        && ((loadingParameters == Some(serialized) && userManager.authorizationHeader == authorizationHeader)
            || userManager.authorizationHeader == None)
      {
        return Current();
      }
      if loadingParameters == Some(serialized) {
        return None;
      }
      loadingParameters := Some(serialized);
      authorizationHeader := if userManager != null then userManager.authorizationHeader else None;
      pending := pending + [PendingLoad(parameters, serialized)];
      return Current();
    }

    /** The promise of the `i`-th pending load settles: a failure changes
        nothing (the key stays loading), a success goes to `setValues`. */
    method Complete(i: nat, response: LoaderResponse<seq<Record<F>>>)
      requires Valid()
      requires i < |pending|
      modifies this, store
      ensures Valid()
      ensures pending == old(pending[..i] + pending[i + 1..])
      ensures response.Failure? || !old(Commits(pending[i].key)) ==>
        && loadingParameters == old(loadingParameters) && loadedParameters == old(loadedParameters)
        && result == old(result) && changes == old(changes) && unchanged(store)
      ensures response.Success? && old(Commits(pending[i].key)) ==>
        && result.Some?
        && ViewOf() == AddAll(View(old(store.records), [], old(changes)), response.value, hasOnChange)
        && loadedParameters == Some(old(pending[i].key)) && loadingParameters == None
      ensures authorizationHeader == old(authorizationHeader)
    {
      var load := pending[i];
      pending := pending[..i] + pending[i + 1..];
      if response.Success? {
        SetValues(load.key, response.value);
      }
    }

    /** `setValues` takes effect for this key. */
    predicate Commits(serialized: Serialized<P>)
      reads this
    {
      loadingParameters == Some(serialized)
    }

    /** `addValue(value)`: nothing while the list is null. */
    method AddValue(value: Record<F>)
      requires Valid()
      modifies this, store
      ensures Valid()
      ensures old(result).None? ==> unchanged(this) && unchanged(store)
      ensures old(result).Some? ==> result.Some? && ViewOf() == AddStep(old(ViewOf()), value, hasOnChange)
      ensures loadingParameters == old(loadingParameters) && loadedParameters == old(loadedParameters)
      ensures authorizationHeader == old(authorizationHeader) && pending == old(pending)
    {
      if result.None? {
        return;
      }
      var existing := FindId(store.records, value.id);
      if existing.None? {
        store.records := store.records + [value];
        var added := store.records[|store.records| - 1];
        if hasOnChange {
          changes := changes + [added];
        }
        result := Some(result.value + [|store.records| - 1]);
      } else {
        store.records := store.records[existing.value := Merge(store.records[existing.value], value)];
        result := Some(result.value + [existing.value]);
      }
    }

    /** `updateValue(value)`: merges into the stored record with that id, if
        any; never inserts and never touches the list. */
    method UpdateValue(value: Record<F>)
      requires Valid()
      modifies store
      ensures Valid()
      ensures FindId(old(store.records), value.id).None? ==> unchanged(store)
      ensures FindId(old(store.records), value.id).Some? ==>
        var j := FindId(old(store.records), value.id).value;
        store.records == old(store.records)[j := Merge(old(store.records)[j], value)]
    {
      var existing := FindId(store.records, value.id);
      if existing.Some? {
        store.records := store.records[existing.value := Merge(store.records[existing.value], value)];
      }
    }

    /** `deleteValue(value)`: removes the first entry of the list with that
        id; the store keeps the record. */
    method DeleteValue(value: Record<F>)
      requires Valid()
      modifies this
      ensures Valid()
      ensures old(result).None? ==> unchanged(this)
      ensures old(result).Some? && FindRef(store.records, old(result).value, value.id).None? ==> unchanged(this)
      ensures old(result).Some? && FindRef(store.records, old(result).value, value.id).Some? ==>
        var k := FindRef(store.records, old(result).value, value.id).value;
        result == Some(old(result).value[..k] + old(result).value[k + 1..])
      ensures loadingParameters == old(loadingParameters) && loadedParameters == old(loadedParameters)
      ensures authorizationHeader == old(authorizationHeader) && pending == old(pending) && changes == old(changes)
    {
      if result.None? {
        return;
      }
      var index := FindRef(store.records, result.value, value.id);
      if index.Some? {
        result := Some(result.value[..index.value] + result.value[index.value + 1..]);
      }
    }

    /** The `for` loop of `setValues`: `addValue` for each record. */
    method AddValues(values: seq<Record<F>>)
      requires Valid() && result.Some?
      modifies this, store
      ensures Valid() && result.Some?
      ensures ViewOf() == AddAll(old(ViewOf()), values, hasOnChange)
      ensures loadingParameters == old(loadingParameters) && loadedParameters == old(loadedParameters)
      ensures authorizationHeader == old(authorizationHeader) && pending == old(pending)
    {
      ghost var start := ViewOf();
      var i := 0;
      while i < |values|
        invariant 0 <= i <= |values|
        invariant Valid() && result.Some?
        invariant ViewOf() == AddAll(start, values[..i], hasOnChange)
        invariant loadingParameters == old(loadingParameters) && loadedParameters == old(loadedParameters)
        invariant authorizationHeader == old(authorizationHeader) && pending == old(pending)
      {
        AddAllSnoc(start, values, i, hasOnChange);
        AddValue(values[i]);
        i := i + 1;
      }
      assert values[..|values|] == values;
    }

    /** `setValues(serialized, values)`: for the key being loaded, empties
        the list, adds each record in order, and marks the key loaded. */
    method SetValues(serialized: Serialized<P>, values: seq<Record<F>>)
      requires Valid()
      modifies this, store
      ensures Valid()
      ensures !old(Commits(serialized)) ==> unchanged(this) && unchanged(store)
      ensures old(Commits(serialized)) ==>
        && result.Some?
        && ViewOf() == AddAll(View(old(store.records), [], old(changes)), values, hasOnChange)
        && loadedParameters == Some(serialized) && loadingParameters == None
      ensures authorizationHeader == old(authorizationHeader) && pending == old(pending)
    {
      if loadingParameters == Some(serialized) {
        // `splice(0)` on the list there is, or a new empty list.
        result := Some([]);
        AddValues(values);
        loadedParameters := Some(serialized);
        loadingParameters := None;
      }
    }
  }

  /** `ArrayLoaderSync`: the wrapped loader function sends `Close(identifier,
      previous)` and `Open(identifier, parameters)` (the older copy sends
      `Open` with `autoInvoke`), and pushed `Add<identifier>`,
      `Update<identifier>` and `Delete<identifier>` events go to `addValue`,
      `updateValue` and `deleteValue` whatever parameters they carry. */
  class ArrayLoaderSync<P(==), F> {
    const inner: ArrayLoader<P, F>
    const subscription: Subscription<P>
    const connection: HubConnection<P>
    const identifier: string

    /** The open subscription is for the key being loaded or, when none
        is, for the loaded key. */
    ghost predicate Valid()
      reads this, inner, inner.store, subscription
    {
      && inner.Valid() && subscription.Valid()
      && subscription.connection == connection
      && subscription.identifier == identifier
      && subscription.style.SharedNames?
      && (var current := if inner.loadingParameters.Some? then inner.loadingParameters else inner.loadedParameters;
          current.Some? ==> subscription.previousParameters.Some? && Stringify(subscription.previousParameters.value) == current.value)
    }

    constructor (connection: HubConnection<P>, identifier: string, autoInvokeOpen: bool, userManager: UserStore?,
                 store: RecordStore?<F>, hasOnChange: bool, paramsTruthy: P -> bool)
      modifies connection
      ensures Valid()
      ensures fresh(inner) && fresh(subscription)
      ensures this.connection == connection && this.identifier == identifier
      ensures store != null ==> inner.store == store
      ensures store == null ==> fresh(inner.store) && inner.store.records == []
      ensures inner.loadingParameters == None && inner.loadedParameters == None && inner.result == None
      ensures inner.pending == [] && inner.changes == []
      ensures inner.userManager == userManager && inner.hasOnChange == hasOnChange
      ensures subscription.style == SharedNames(autoInvokeOpen) && subscription.truthy == paramsTruthy
      ensures subscription.previousParameters == None
      ensures connection.handlers == old(connection.handlers) + ["Add" + identifier, "Update" + identifier, "Delete" + identifier]
      ensures connection.calls == old(connection.calls)
    {
      inner := new ArrayLoader(store, userManager, hasOnChange);
      subscription := new Subscription(connection, identifier, SharedNames(autoInvokeOpen), paramsTruthy);
      this.connection := connection;
      this.identifier := identifier;
      new;
      connection.On("Add" + identifier);
      connection.On("Update" + identifier);
      connection.On("Delete" + identifier);
    }

    /** `getValue(parameters)`: as `ArrayLoader.GetValue`, and a load that
        starts sends the subscription calls. */
    method GetValue(parameters: P) returns (r: Option<seq<Record<F>>>)
      requires Valid()
      modifies inner, subscription, connection
      ensures Valid()
      ensures !old(inner.Starts(Stringify(parameters))) ==>
        unchanged(inner) && unchanged(subscription) && unchanged(connection)
      ensures old(inner.Serves(Stringify(parameters))) ==> r == inner.Current()
      ensures old(!inner.Serves(Stringify(parameters)) && !inner.Starts(Stringify(parameters))) ==> r == None
      ensures old(inner.Starts(Stringify(parameters))) ==>
        && inner.loadingParameters == Some(Stringify(parameters))
        && inner.authorizationHeader == old(inner.CapturedHeader())
        && inner.pending == old(inner.pending) + [PendingLoad(parameters, Stringify(parameters))]
        && inner.result == old(inner.result) && inner.loadedParameters == old(inner.loadedParameters)
        && inner.changes == old(inner.changes)
        && connection.calls == old(connection.calls) + old(subscription.SwitchCalls(parameters))
        && subscription.previousParameters == Some(parameters)
        && r == inner.Current()
      ensures connection.handlers == old(connection.handlers)
    {
      var before := |inner.pending|;
      r := inner.GetValue(parameters);
      if |inner.pending| != before {
        subscription.Switch(parameters);
        StringifyParse(Stringify(parameters));
      }
    }

    /** The pushed `Add<identifier>(record, parameters)` event. */
    method OnAdd(value: Record<F>)
      requires Valid()
      modifies inner, inner.store
      ensures Valid()
      ensures old(inner.result).None? ==> unchanged(inner) && unchanged(inner.store)
      ensures old(inner.result).Some? ==>
        inner.result.Some? && inner.ViewOf() == AddStep(old(inner.ViewOf()), value, inner.hasOnChange)
    {
      inner.AddValue(value);
    }

    /** The pushed `Update<identifier>(record, parameters)` event. */
    method OnUpdate(value: Record<F>)
      requires Valid()
      modifies inner.store
      ensures Valid()
      ensures FindId(old(inner.store.records), value.id).None? ==> unchanged(inner.store)
      ensures FindId(old(inner.store.records), value.id).Some? ==>
        var j := FindId(old(inner.store.records), value.id).value;
        inner.store.records == old(inner.store.records)[j := Merge(old(inner.store.records)[j], value)]
    {
      inner.UpdateValue(value);
    }

    /** The pushed `Delete<identifier>(record, parameters)` event. */
    method OnDelete(value: Record<F>)
      requires Valid()
      modifies inner
      ensures Valid()
      ensures old(inner.result).None? ==> unchanged(inner)
      ensures old(inner.result).Some? && FindRef(inner.store.records, old(inner.result).value, value.id).Some? ==>
        var k := FindRef(inner.store.records, old(inner.result).value, value.id).value;
        inner.result == Some(old(inner.result).value[..k] + old(inner.result).value[k + 1..])
      ensures old(inner.result).Some? && FindRef(inner.store.records, old(inner.result).value, value.id).None? ==>
        unchanged(inner)
    {
      inner.DeleteValue(value);
    }

    /** The `i`-th pending load settles. */
    method Complete(i: nat, response: LoaderResponse<seq<Record<F>>>)
      requires Valid()
      requires i < |inner.pending|
      modifies inner, inner.store
      ensures Valid()
      ensures inner.pending == old(inner.pending[..i] + inner.pending[i + 1..])
      ensures response.Success? && old(inner.Commits(inner.pending[i].key)) ==>
        && inner.result.Some?
        && inner.ViewOf() == AddAll(View(old(inner.store.records), [], old(inner.changes)), response.value, inner.hasOnChange)
        && inner.loadedParameters == Some(old(inner.pending[i].key)) && inner.loadingParameters == None
      ensures response.Failure? || !old(inner.Commits(inner.pending[i].key)) ==>
        && inner.result == old(inner.result) && inner.loadingParameters == old(inner.loadingParameters)
        && inner.loadedParameters == old(inner.loadedParameters) && inner.changes == old(inner.changes)
        && unchanged(inner.store)
      ensures inner.authorizationHeader == old(inner.authorizationHeader)
    {
      inner.Complete(i, response);
    }
  }

  /** A failed load leaves its parameters loading for good: the next read
      of the same parameters serves null and never loads again. */
  method FailureIsNeverRetried() returns (afterFailure: Option<seq<Record<int>>>, loadsAfterFailure: nat)
    ensures afterFailure == None && loadsAfterFailure == 0
  {
    var loader := new ArrayLoader<int, int>(null, null, false);
    var r := loader.GetValue(1);
    loader.Complete(0, Failure);
    afterFailure := loader.GetValue(1);
    loadsAfterFailure := |loader.pending|;
  }

  /** The first read of new parameters already serves the list of the
      previous ones, while their own load is in flight. */
  method ServesPreviousList() returns (ids: seq<int>, loads: nat)
    ensures ids == [1, 2] && loads == 1
  {
    var loader := new ArrayLoader<int, int>(null, null, false);
    var r := loader.GetValue(1);
    loader.Complete(0, Success([Record(1, map[]), Record(2, map[])]));
    r := loader.GetValue(2);
    loads := |loader.pending|;
    ids := if r.Some? && |r.value| == 2 then [r.value[0].id, r.value[1].id] else [];
  }

  /** A pushed record whose id is already listed is listed a second time,
      while the store keeps one record per id. */
  method AddTwiceListsTwice() returns (listed: seq<int>, stored: nat)
    ensures listed == [7, 7] && stored == 1
  {
    var loader := new ArrayLoader<int, int>(null, null, false);
    var r := loader.GetValue(1);
    loader.Complete(0, Success([Record(7, map["n" := 1])]));
    loader.AddValue(Record(7, map["n" := 2]));
    r := loader.GetValue(1);
    listed := if r.Some? && |r.value| == 2 then [r.value[0].id, r.value[1].id] else [];
    stored := |loader.store.records|;
  }

  /** A loader without a user manager that has loaded `values` for the
      parameters 1. */
  method LoadedLoader(values: seq<Record<int>>) returns (loader: ArrayLoader<int, int>)
    ensures fresh(loader) && fresh(loader.store)
    ensures loader.Valid() && loader.result.Some? && loader.userManager == null && !loader.hasOnChange
    ensures loader.ViewOf() == AddAll(View([], [], []), values, false)
    ensures loader.loadedParameters == Some(Stringify(1)) && loader.loadingParameters == None
    ensures loader.pending == []
  {
    loader := new ArrayLoader<int, int>(null, null, false);
    var r := loader.GetValue(1);
    loader.Complete(0, Success(values));
  }

  /** The loader after loading one record for the parameters 1: the store
      holds it at position 0 and the list refers to it. */
  method LoadedOne(record: Record<int>) returns (loader: ArrayLoader<int, int>)
    ensures fresh(loader) && fresh(loader.store)
    ensures loader.Valid() && loader.userManager == null
    ensures loader.store.records == [record] && loader.result == Some([0])
    ensures loader.loadedParameters == Some(Stringify(1))
  {
    var values := [record];
    assert AddAll(View([], [], []), values, false) == AddStep(AddAll(View([], [], []), [], false), record, false) by {
      assert values[..0] == [];
    }
    loader := LoadedLoader(values);
  }

  /** A pushed update merges into the stored record, and the list sees the
      change. */
  method UpdateIsListed() returns (merged: Option<seq<Record<int>>>)
    ensures merged == Some([Record(7, map["n" := 2, "m" := 3])])
  {
    var loader := LoadedOne(Record(7, map["n" := 1, "m" := 3]));
    assert FindId(loader.store.records, 7) == Some(0);
    loader.UpdateValue(Record(7, map["n" := 2]));
    assert map["n" := 1, "m" := 3] + map["n" := 2] == map["n" := 2, "m" := 3];
    assert loader.store.records == [Record(7, map["n" := 2, "m" := 3])];
    merged := loader.GetValue(1);
    assert merged.Some? && |merged.value| == 1 && merged.value[0] == Record(7, map["n" := 2, "m" := 3]);
    assert merged.value == [Record(7, map["n" := 2, "m" := 3])];
  }

  /** A pushed delete unlists the record and the store keeps it. */
  method DeleteKeepsStored() returns (afterDelete: Option<seq<Record<int>>>, stored: nat)
    ensures afterDelete == Some([]) && stored == 1
  {
    var loader := LoadedOne(Record(7, map[]));
    assert FindRef(loader.store.records, [0], 7) == Some(0);
    loader.DeleteValue(Record(7, map[]));
    afterDelete := loader.GetValue(1);
    stored := |loader.store.records|;
  }

  /** The older `ArrayLoaderSync` opens with `autoInvoke` and closes with
      `invoke`. */
  method LegacyOpensWithAutoInvoke() returns (calls: seq<HubCall<int>>)
    ensures calls == [AutoInvoked("Open", [Text("Item"), Parameters(1)]),
                      Invoked("Close", [Text("Item"), Parameters(1)]),
                      AutoInvoked("Open", [Text("Item"), Parameters(2)])]
  {
    var connection := new HubConnection<int>();
    var loader := new ArrayLoaderSync<int, int>(connection, "Item", true, null, null, false, p => p != 0);
    var r := loader.GetValue(1);
    r := loader.GetValue(2);
    calls := connection.calls;
  }
}
