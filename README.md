# folke-service-helpers: identity-aware loaders, API client helpers and authorization pages

This project models the service helpers of folke-service-helpers in Dafny and proves properties of the model.

The core is the family of asynchronous loaders. Each one memoises what an async loader function resolves to, keyed by `JSON.stringify(parameters)`. It does not start a second load for a key that is already loading, and it stops serving a cached value when the user's identity changes. The loaders are:

- `SingletonLoader`: one value, no parameters.
- `ValueLoader` (older copy: `LazyLoader`): one value for the latest parameters.
- `MapLoader`: one entry per key, with a cache-wide identifier. The older copy at the repository root differs enough to have its own class.
- `ArrayLoader`: a list of records with an `id`. The list refers into a shared backing store that is changed in place.
- The live variants (`ValueLoaderSync`, `LazyLoaderSync`, `ArrayLoaderSync`): they close and open a hub subscription around each load, and route pushed events into the loader.

Around the loaders, the project models:

- the HTTP client helpers: the query-string builder, the status-to-message mapping, the request set-up of `fetch`, and the status rule of the oldest client;
- `AuthorizeService`: the signed-in user state, the bearer header, the subject identifier, the path table and the three result shapes;
- the login and logout pages: return-URL selection and what the page does with a sign-in or sign-out result.

How the model is built:

- Each loader is a `class` whose fields are the source's fields.
- A call of the loader function whose promise has not settled is an entry of `pending`. The environment settles it later by calling `Complete(i, response)`. `SingletonLoader` only counts its calls (`inFlight`).
- `JSON.stringify` is `Stringify`, an injective function whose inverse is `Parse` (module `Common`).
- JavaScript truthiness of a loaded value is a predicate `truthy` given at construction, because a value type may have falsy members such as 0 or "".
- The user store (`AuthorizeService` as the loaders see it) is a `UserStore` object. Whoever owns it changes its fields between calls.
- `onChange` (`onItemLoaded`) calls are an append-only log `changes`.
- Hub calls are an append-only log, and registered handlers are a list of names (module `Hubs`).
- In `ArrayLoader`, the store is a `RecordStore` object holding a sequence of records, and `result` is a sequence of positions into it. A merge into a stored record is therefore seen by every list that refers to it.

The older copies at the repository root are modelled as follows:

- `LazyLoader` and `LazyLoaderSync` (value-loader.ts) follow exactly the transitions of `ValueLoader` and `ValueLoaderSync`. They are the same classes here; the only difference is the single parameter, whose truthiness `paramsTruthy` gives.
- The older `SingletonLoader` (singleton-loader.ts) is the same as the newer one.
- The older `ArrayLoader` (array-loader.ts) is the same as the newer one. Its `ArrayLoaderSync` opens with `autoInvoke`, which is the `autoInvokeOpen` flag of the call style.
- The older `MapLoader` (map-loader.ts) serves only a truthy entry and compares authorization headers instead of identifiers. It is `LegacyMapLoaders.LegacyMapLoader`.

## Model

| member | source | states |
|---|---|---|
| Common.ResponseValue | src/cache/map-loader.ts:72-77 | a completion offers the loaded value on success and null on failure |
| Common.UserStore.constructor | src/user-store.ts:3-6 | the store holds the identifier and header it is given |
| JsMaps.HasKeyAt | src/cache/map-loader.ts:28 | `has(key)` holds exactly when some entry holds the key |
| JsMaps.Get | src/cache/map-loader.ts:28 | `get` finds a value exactly when the key is present; with unique keys it is the value stored under that key |
| JsMaps.Set | src/cache/map-loader.ts:85 | after `set` the key maps to the value; the map grows by one only for a new key; existing keys keep their positions |
| JsMaps.Values | src/cache/map-loader.ts:101 | `values()` lists the values in enumeration order, one per entry |
| JsMaps.GetSetOther | src/cache/map-loader.ts:85 | `set` on one key leaves every other key's value unchanged |
| JsMaps.SetNewKeyAppends | src/cache/map-loader.ts:85 | a new key is appended at the end of the enumeration order |
| JsMaps.SetKeys | src/cache/map-loader.ts:85 | after `set` the keys are the old keys plus the key set |
| JsMaps.SetKeepsKeysUnique | src/cache/map-loader.ts:85 | `set` never makes a key occur twice |
| MapLoaders.CachedEntries | src/cache/map-loader.ts:91-98 | every pair returned is a non-null entry, with decoded parameters, that passes the filter, and every such entry is returned |
| MapLoaders.CachedEntriesCount | src/cache/map-loader.ts:91-98 | each pair occurs exactly as often as its entry does when it passes the filter, and not at all otherwise |
| MapLoaders.CachedEntriesAppend | src/cache/map-loader.ts:92-96 | `getCached` keeps enumeration order: it maps the entries of a concatenation to the concatenation of the results |
| MapLoaders.NonNull | src/cache/map-loader.ts:101-103 | `filter((x) => x !== null)` drops exactly the nulls |
| MapLoaders.NonNullCount | src/cache/map-loader.ts:101-103 | each value occurs in the result exactly as often as it does, non-null, in the input |
| MapLoaders.NonNullAppend | src/cache/map-loader.ts:101-103 | the filter keeps order: it commutes with concatenation |
| MapLoaders.CachedValues | src/cache/map-loader.ts:100-104 | every value returned is stored non-null under some key, and every stored non-null value is returned |
| MapLoaders.CachedValuesAppend | src/cache/map-loader.ts:100-104 | `getCachedValues` keeps enumeration order |
| MapLoaders.MapLoader.constructor | src/cache/map-loader.ts:10-23 | empty cache, nothing loading, identifier taken from the user store |
| MapLoaders.MapLoader.GetValue | src/cache/map-loader.ts:26-64 | blocked without an identifier; an entry is served while the identifier is the recorded one or null; a loading key starts nothing; otherwise exactly one load starts for exactly that key and null is returned; single flight is kept |
| MapLoaders.MapLoader.Load | src/cache/map-loader.ts:66-71 | flags the key as loading and records one pending call with the identifier captured now |
| MapLoaders.MapLoader.Complete | src/cache/map-loader.ts:72-77 | a settled load stores its value or null, records its captured identifier and clears its flag, with no supersession check |
| MapLoaders.MapLoader.OnChangeCalls | src/cache/map-loader.ts:88 | `onChange` is called once, with the value, exactly when a callback exists and the value is truthy |
| MapLoaders.MapLoader.SetValue | src/cache/map-loader.ts:80-89 | writes the entry, sets the cache-wide identifier, clears the key's flag and logs `onChange` for a truthy value; keys stay unique |
| MapLoaders.MapLoader.GetCached | src/cache/map-loader.ts:91-98 | every pair returned is a stored non-null entry that passes the filter, occurring as often as that entry does, and every such entry is returned |
| MapLoaders.MapLoader.GetCachedValues | src/cache/map-loader.ts:100-104 | returns exactly the stored non-null values, each as often as it is stored |
| MapLoaders.MapLoader.UpdateCache | src/cache/map-loader.ts:106-108 | overwrites one key's entry; flags, identifier and pending loads unchanged |
| MapLoaders.ReadTwice | src/cache/map-loader.ts:49-63 | two reads with no completion in between give the same answer and start at most one load |
| MapLoaders.GetValueThenSettle | src/cache/map-loader.spec.ts:6-16 | the first read of an unseen key returns null and starts one load; after it lands the value is served |
| MapLoaders.LoadedLoader | src/cache/map-loader.ts:62-89 | a read followed by its completion leaves one entry, nothing loading, and the store's identifier recorded |
| MapLoaders.IdentifierDidChange | src/cache/map-loader.spec.ts:42-69 | after the identifier changes, a loaded key is not served, a new load starts, and its result replaces the entry |
| MapLoaders.UserGotConnected | src/cache/map-loader.spec.ts:71-96 | with a null identifier nothing loads; once identified the read loads and the result is served |
| LegacyMapLoaders.StoredValue | map-loader.ts:42-47 | status 400 or above stores null, any other status stores the value |
| LegacyMapLoaders.LegacyMapLoader.constructor | map-loader.ts:9-18 | empty cache; the header is captured from the user manager |
| LegacyMapLoaders.LegacyMapLoader.GetValue | map-loader.ts:21-36 | a truthy entry is served while the header is unchanged or null; a loading key returns `cache \|\| null` and starts nothing; otherwise one load starts and null is returned |
| LegacyMapLoaders.LegacyMapLoader.Load | map-loader.ts:38-49 | captures the header, flags the key and records one pending call |
| LegacyMapLoaders.LegacyMapLoader.Complete | map-loader.ts:42-47 | a settled load stores the value or null by status and clears the flag |
| LegacyMapLoaders.LegacyMapLoader.OnChangeCalls | map-loader.ts:55 | `onChange` is called exactly for a truthy value when a callback exists |
| LegacyMapLoaders.LegacyMapLoader.SetValue | map-loader.ts:51-56 | stores the entry and clears the key's flag |
| LegacyMapLoaders.LegacyMapLoader.GetCached | map-loader.ts:58-65 | exactly the non-null entries that pass the filter, each as often as it is stored |
| LegacyMapLoaders.LegacyMapLoader.GetCachedValues | map-loader.ts:67-71 | exactly the non-null values, each as often as it is stored |
| LegacyMapLoaders.LegacyMapLoader.UpdateCache | map-loader.ts:73-75 | overwrites one key's entry and nothing else |
| LegacyMapLoaders.FailureIsRetried | map-loader.ts:21-36 | a stored failure or falsy value is not served by the fast path, so the next read loads again |
| ValueLoaders.ValueLoader.constructor | src/cache/value-loader.ts:10-26 | nothing cached, loaded or loading; the token is captured from the user manager; `allowNotIdentified` is false |
| ValueLoaders.ValueLoader.GetValue | src/cache/value-loader.ts:29-52 | serves `cache` for the loaded key under an accepted token, for the loading key under the same token, or when blocked; otherwise captures the token, starts exactly one load and returns null; a served loaded value is truthy; the older copy at value-loader.ts:20-31 is the same |
| ValueLoaders.ValueLoader.Load | src/cache/value-loader.ts:54-65 | captures the token (only with a user manager), records the loading key and one pending call |
| ValueLoaders.ValueLoader.Complete | src/cache/value-loader.ts:58-64 | a settled load offers its value or null to `setValue`; a superseded response changes nothing |
| ValueLoaders.ValueLoader.OnChangeCalls | src/cache/value-loader.ts:91 | `onChange` is called exactly for a truthy committed value |
| ValueLoaders.ValueLoader.SetValue | src/cache/value-loader.ts:85-93 | ignored unless its key is the loading one; otherwise caches the value, clears loading, marks loaded exactly when truthy; the older copy at value-loader.ts:59-67 is the same |
| ValueLoaders.ValueLoader.Refresh | src/cache/value-loader.ts:67-74 | reloads the loaded key's decoded parameters; does nothing when nothing is loaded |
| ValueLoaders.ValueLoader.Invalidate | src/cache/value-loader.ts:76-79 | clears only `loadedParameters` and keeps `cache` |
| ValueLoaders.ValueLoader.IsLoading | src/cache/value-loader.ts:81-83 | true exactly when a key is loading, and then a load is in flight |
| ValueLoaders.ValueLoaderSync.constructor | src/cache/value-loader.ts:102-131 | registers exactly the `Update<identifier>` and `Delete<identifier>` handlers and sends nothing |
| ValueLoaders.ValueLoaderSync.GetValue | src/cache/value-loader.ts:109-119 | answers as the wrapped loader does; a load that starts records one pending call with the captured token, sends `Close` for truthy previous parameters and then `Open` for the new ones, and remembers the new parameters; otherwise nothing changes; the older copy at value-loader.ts:79-84 is the same |
| ValueLoaders.ValueLoaderSync.Refresh | src/cache/value-loader.ts:67-74 | a refresh of loaded parameters records one pending call for them with the captured token, closes and re-opens them; with nothing loaded nothing changes |
| ValueLoaders.ValueLoaderSync.OnUpdate | src/cache/value-loader.ts:123-127 | a pushed update is committed only while its parameters are loading |
| ValueLoaders.ValueLoaderSync.OnDelete | src/cache/value-loader.ts:128-130 | a pushed delete commits null only while its parameters are loading |
| ValueLoaders.ValueLoaderSync.Complete | src/cache/value-loader.ts:58-64 | settlement of a live load, as for `ValueLoader`: the settled call leaves the pending list; a response for the parameters still loading is committed; otherwise the cache, the loaded and loading parameters and the change log stay; the token is untouched |
| ValueLoaders.SupersededResponseDropped | src/cache/value-loader.ts:85-93 | the response for superseded parameters is dropped; the newer one is committed and served |
| ValueLoaders.FalsyIsReloaded | src/cache/value-loader.ts:88-91 | a failure or a falsy value leaves nothing loaded, so the next read loads again; a truthy value is served |
| ValueLoaders.TokenChangeReloads | src/cache/value-loader.ts:31-51 | without a header nothing loads; a new header stops the loaded value from being served and starts a load |
| ValueLoaders.LiveSubscription | src/cache/value-loader.ts:110-130 | the hub sees `Open`, then `Close` of the same parameters before the next `Open`; the two handlers are registered |
| ValueLoaders.PushOnlyWhileLoading | src/cache/value-loader.ts:123-127 | a push lands while loading and the late response is dropped; a push after settlement is ignored |
| ValueLoaders.FalsyParameterNeverClosed | value-loader.ts:80 | `LazyLoaderSync` never closes a falsy single parameter |
| Subscriptions.ClosedBy | src/cache/value-loader.ts:111-115 | recognises a close call and the parameters it closes |
| Subscriptions.OpenIsNotClose | src/cache/value-loader.ts:111-117 | an open call is never taken for a close call |
| Subscriptions.Subscription.constructor | src/cache/value-loader.ts:100 | no previous parameters, nothing sent |
| Subscriptions.Subscription.Switch | src/cache/array-loader.ts:134-143 | sends `Close` for truthy previous parameters, then `Open`; every close follows the open of the parameters it closes |
| Hubs.HubConnection.constructor | src/cache/array-loader.ts:125 | a connection with no calls and no handlers |
| Hubs.HubConnection.Invoke | src/cache/array-loader.ts:136-142 | `invoke` appends one call to the log |
| Hubs.HubConnection.AutoInvoke | array-loader.ts:112 | `autoInvoke` appends one auto-replayed call |
| Hubs.HubConnection.On | src/cache/array-loader.ts:148-161 | `on` registers one handler name |
| SingletonLoaders.SingletonLoader.constructor | src/cache/singleton-loader.ts:12-23 | nothing cached, loaded or loading; the token is captured or null |
| SingletonLoaders.SingletonLoader.GetValue | src/cache/singleton-loader.ts:26-48 | serves `cache` when loaded under an accepted token, loading under the same token, or blocked; otherwise captures the token, sets `loading`, starts one load and returns null; the older copy at singleton-loader.ts:21-31 is the same |
| SingletonLoaders.SingletonLoader.Load | src/cache/singleton-loader.ts:50-63 | captures the token, sets `loading`, one more load in flight |
| SingletonLoaders.SingletonLoader.Complete | src/cache/singleton-loader.ts:56-62 | a settled load commits its value or null while loading, and otherwise changes nothing |
| SingletonLoaders.SingletonLoader.OnChangeCalls | src/cache/singleton-loader.ts:85 | `onChange` is called exactly for a truthy committed value |
| SingletonLoaders.SingletonLoader.SetValue | src/cache/singleton-loader.ts:79-87 | ignored unless loading; otherwise caches the value, clears loading and sets loaded, even for null; the older copy at singleton-loader.ts:59-67 is the same |
| SingletonLoaders.SingletonLoader.Refresh | src/cache/singleton-loader.ts:65-68 | loads again only when loaded |
| SingletonLoaders.SingletonLoader.Invalidate | src/cache/singleton-loader.ts:70-73 | clears `loaded`, keeps `cache` |
| SingletonLoaders.SingletonLoader.IsLoading | src/cache/singleton-loader.ts:75-77 | equals `loading`, and then a load is in flight |
| SingletonLoaders.FailureIsCached | src/cache/singleton-loader.ts:79-84 | a failed load's null is served without a new load until `invalidate` |
| SingletonLoaders.RefreshAfterLoad | src/cache/singleton-loader.ts:65-68 | `refresh` before the first value does nothing; afterwards it reloads while the old value is served; `onChange` sees each truthy value |
| ArrayLoaders.Merge | src/cache/array-loader.ts:78 | `Object.assign`: the merged record keeps the id, takes the new properties and keeps the others |
| ArrayLoaders.FindId | src/cache/array-loader.ts:71 | `find` by id: the first stored record with the id, or none |
| ArrayLoaders.FindRef | src/cache/array-loader.ts:97 | `findIndex` by id: the first list entry with the id, or none |
| ArrayLoaders.Materialise | src/cache/array-loader.ts:13-15 | the list as records: one record per position, in order |
| ArrayLoaders.AddStep | src/cache/array-loader.ts:67-81 | a new id is pushed to the store (and reported), a known id is merged; the list always gains the stored record, which carries the pushed properties |
| ArrayLoaders.AddStepKeepsIdsUnique | src/cache/array-loader.ts:67-81 | `addValue` never gives two stored records the same id |
| ArrayLoaders.AddAll | src/cache/array-loader.ts:109-111 | the loop keeps the store's ids, grows the list by one entry per record, and keeps the list's references valid |
| ArrayLoaders.AddAllIds | src/cache/array-loader.ts:109-111 | the k-th added entry refers to a stored record with the k-th record's id |
| ArrayLoaders.AddAllKeepsIdsUnique | src/cache/array-loader.ts:109-111 | loading a list never gives two stored records the same id |
| ArrayLoaders.AddAllSnoc | src/cache/array-loader.ts:109-111 | one more iteration is one more `addValue` |
| ArrayLoaders.AddAllListsResponse | src/cache/array-loader.ts:101-115 | a list loaded into an empty list shows the response's ids in the response's order |
| ArrayLoaders.RecordStore.constructor | src/cache/array-loader.ts:26 | the store holds the records it is given |
| ArrayLoaders.ArrayLoader.Current | src/cache/array-loader.ts:42 | the list the caller sees is null exactly while `result` is, with one record per position |
| ArrayLoaders.ArrayLoader.constructor | src/cache/array-loader.ts:17-30 | uses the given store or a fresh empty one; nothing loaded or loading; the header is captured |
| ArrayLoaders.ArrayLoader.GetValue | src/cache/array-loader.ts:33-65 | serves the list for the loaded key under an accepted header or while waiting; serves null for a loading key; otherwise starts exactly one load and returns the current list, which may be the previous parameters'; the older copy at array-loader.ts:26-44 is the same |
| ArrayLoaders.ArrayLoader.Complete | src/cache/array-loader.ts:60-63 | a failure changes nothing and the key stays loading; a success for the loading key commits the list |
| ArrayLoaders.ArrayLoader.AddValue | src/cache/array-loader.ts:67-81 | nothing while the list is null; otherwise one `addValue` step on the store and the list; the older copy at array-loader.ts:46-60 is the same |
| ArrayLoaders.ArrayLoader.UpdateValue | src/cache/array-loader.ts:83-91 | merges into the stored record with the id, if any; never inserts and never touches the list |
| ArrayLoaders.ArrayLoader.DeleteValue | src/cache/array-loader.ts:93-99 | removes only the first list entry with the id; the store is untouched; the older copy at array-loader.ts:72-78 is the same |
| ArrayLoaders.ArrayLoader.AddValues | src/cache/array-loader.ts:109-111 | the loop applies `addValue` to each record in order |
| ArrayLoaders.ArrayLoader.SetValues | src/cache/array-loader.ts:101-115 | commits only for the loading key: empties the list, re-adds each record, marks the key loaded; the older copy at array-loader.ts:80-94 is the same |
| ArrayLoaders.ArrayLoaderSync.constructor | src/cache/array-loader.ts:124-162 | registers the Add, Update and Delete handlers and sends nothing |
| ArrayLoaders.ArrayLoaderSync.GetValue | src/cache/array-loader.ts:134-143 | serves as the wrapped loader does (the list, or null for a key neither served nor started); a load that starts captures the header, sends `Close` for the previous parameters, then `Open`, and remembers the new parameters |
| ArrayLoaders.ArrayLoaderSync.OnAdd | src/cache/array-loader.ts:148-153 | a pushed add goes to `addValue`, whatever parameters it carries |
| ArrayLoaders.ArrayLoaderSync.OnUpdate | src/cache/array-loader.ts:154-157 | a pushed update goes to `updateValue` |
| ArrayLoaders.ArrayLoaderSync.OnDelete | src/cache/array-loader.ts:158-161 | a pushed delete goes to `deleteValue` |
| ArrayLoaders.ArrayLoaderSync.Complete | src/cache/array-loader.ts:60-63 | settlement of a live load, as for `ArrayLoader`: a success for the loading key replaces the list and marks the key loaded; otherwise the store, the loaded key and the change log stay; the header is untouched |
| ArrayLoaders.FailureIsNeverRetried | src/cache/array-loader.ts:53-61 | after a failed load the same parameters serve null and never load again |
| ArrayLoaders.ServesPreviousList | src/cache/array-loader.ts:56-64 | the first read of new parameters serves the previous list while their load is in flight |
| ArrayLoaders.AddTwiceListsTwice | src/cache/array-loader.ts:76-79 | a pushed record already listed is listed twice, while the store keeps one record per id |
| ArrayLoaders.LoadedLoader | src/cache/array-loader.ts:56-63 | a read and its successful completion leave the loaded list |
| ArrayLoaders.LoadedOne | src/cache/array-loader.ts:101-115 | loading one record stores it and lists it |
| ArrayLoaders.UpdateIsListed | src/cache/array-loader.ts:83-91 | a pushed update merges into the stored record and the list shows the change |
| ArrayLoaders.DeleteKeepsStored | src/cache/array-loader.ts:93-99 | a pushed delete unlists the record and the store keeps it |
| ArrayLoaders.LegacyOpensWithAutoInvoke | array-loader.ts:109-114 | the older live loader opens with `autoInvoke` and closes with `invoke` |
| Strings.IndexOf | src/authorize/authorize.tsx:172 | the first position of a character, or none when it is absent |
| Strings.FindFrom | authorize/login.tsx:68 | the first occurrence of a pattern from a position on |
| Strings.ReplacePrefix | authorize/login.tsx:68 | `replace(prefix, "")` on a string that starts with the prefix removes exactly the prefix |
| Strings.Join | src/api-client.tsx:106 | `join` of no parts is empty, of one part is that part |
| Strings.Split | src/authorize/authorize.tsx:172 | `split` gives at least one piece |
| Strings.SplitJoin | src/api-client.tsx:106 | `split` undoes `join` when no part holds the separator |
| Strings.IndexOfAfter | src/api-client.tsx:104 | the first separator after a part without one is right after that part |
| ApiClients.PresentPairs | src/api-client.tsx:99-105 | at most one pair per parameter |
| ApiClients.GetQueryString | src/api-client.tsx:96-115 | the loop builds exactly the entries of the present values, and the result is "?" and the entries joined with "&", or "" (also api-client.ts:91-110 and index.ts:50-71) |
| ApiClients.EntriesCount | src/api-client.tsx:102 | one entry per present value; no entries exactly when every value is null or undefined |
| ApiClients.QueryStringEmpty | src/api-client.tsx:109-113 | the query string is "" exactly when there are no parameters or every value is missing, and otherwise starts with "?" |
| ApiClients.QueryRoundTrip | src/api-client.tsx:99-110 | reading the query string back gives the present keys and encoded values in enumeration order |
| ApiClients.EntriesParse | src/api-client.tsx:104 | each entry is `key=value` and reads back as its pair |
| ApiClients.ParseErrors | src/api-client.tsx:131-145 | 401, 404 and 500 map to their messages, every other status to the unknown-error message; the older copy at api-client.ts:126-140 is the same |
| ApiClients.DefaultMessagesIdentifyStatus | src/api-client.tsx:124-129 | with the default messages, the message identifies a known status and tells known from unknown |
| ApiClients.ReportErrors | index.ts:87-114 | no response reports the unknown error; a known status reports its message; another status reports the body exactly when it has `json` |
| ApiClients.ReportAgreesWithParseErrors | index.ts:93-106 | every message index.ts shows at once is the one the newer `parseErrors` returns |
| ApiClients.ErrorStatusIsNotOk | index.ts:38-42 | a response is an error exactly when its status is outside 200 to 299 |
| ApiClients.BuildRequest | src/api-client.tsx:72-91 | the Authorization header is added, and credentials set to "omit", exactly when a user manager gives a non-empty header |
| ApiClients.LegacyRequest | api-client.ts:71-86 | the older client sends the verb and body given, always "same-origin" credentials, the JSON headers first, and an Authorization header exactly when a user manager gives a non-empty one, carrying that header |
| ApiClients.CompareClients | api-client.ts:71-86 | the older client sends the same headers and body and always "same-origin" credentials |
| Authorize.StatusName | src/authorize/authorize.tsx:88-91 | a result's status is "fail", "success" or "redirect" |
| Authorize.StatusNameIdentifiesShape | src/authorize/authorize.tsx:321-331 | the status tag alone tells the three result shapes apart |
| Authorize.ActionNamed | src/authorize/authorize.tsx:20-32 | a route segment names the action whose segment it is |
| Authorize.PathsRouteBack | src/authorize/authorize.tsx:121-136 | each authentication path is "/authentication/" and its action's segment, and routes back to that action |
| Authorize.PathsDistinct | src/authorize/authorize.tsx:121-136 | two actions share a path exactly when they are the same action |
| Authorize.FixedPaths | src/authorize/authorize.tsx:121-136 | the configuration URL is "/_configuration/" followed by the application name, the default redirect is "/", the prefix is "/authentication", and the signed-out page "/account/logout" and the Identity pages route to no authentication action |
| Authorize.ConfigurationUrlNamesApplication | src/authorize/authorize.tsx:123 | two applications share a configuration URL exactly when they share a name |
| Authorize.AuthorizeService.constructor | src/authorize/authorize.tsx:111-136 | nobody signed in, not ready, the path table for the application name |
| Authorize.AuthorizeService.UpdateState | src/authorize/authorize.tsx:301-315 | always ready; a user is stored, and authenticated exactly when `expires_in > 0`; null or undefined keeps user and flag |
| Authorize.AuthorizeService.SerializedAccessToken | src/authorize/authorize.tsx:165-167 | the token, if any, is the stored user's |
| Authorize.AuthorizeService.AuthorizationHeader | src/authorize/authorize.tsx:147-153 | a header exists exactly when the access token is non-empty |
| Authorize.AuthorizeService.Identifier | src/authorize/authorize.tsx:169-178 | no access token gives a null identifier |
| Authorize.HeaderCarriesToken | src/authorize/authorize.tsx:151 | the header is "Bearer " and the token; stripping "Bearer " gives the token back |
| Authorize.IdentifiedHasHeader | src/authorize/authorize.tsx:169-178 | a user who has an identifier also has a bearer header |
| Authorize.NullUpdateKeepsUser | src/authorize/authorize.tsx:303-307 | `updateState(null)` after a sign-in keeps the user authenticated and the header in place |
| ReturnUrls.StripOrigin | authorize/login.tsx:57-68 | a URL that passes the origin test loses exactly the origin and leaves a path starting with "/" |
| ReturnUrls.RemoveTabsAndNewlines | authorize/login.tsx:95 | what the URL parser reads of the URL given to `window.location.replace`: no tab, LF or CR is left |
| ReturnUrls.RemoveTabsAndNewlinesCount | authorize/login.tsx:95 | every other character keeps its count, and tabs and newlines are all gone |
| ReturnUrls.RemoveNothing | authorize/login.tsx:95 | a URL without tabs or newlines is read unchanged |
| ReturnUrls.RemoveTabsAndNewlinesAppend | authorize/login.tsx:95 | the other characters keep their order |
| ReturnUrls.StrictCheckMeansOnOrigin | authorize/login.tsx:57-68 | the strict check passes exactly the URLs whose stripped form, as the URL parser reads it, stays on the origin |
| ReturnUrls.OriginCheckLetsOtherHostThrough | authorize/login.tsx:57-68 | the origin followed by "//evil.example" passes the origin test and is stripped to a reference to another host |
| ReturnUrls.SlashSlashLeavesOrigin | authorize/login.tsx:95 | a reference starting "//" without tabs or newlines leaves the origin |
| ReturnUrls.TabAfterSlashIsDropped | authorize/login.tsx:95 | a tab after a leading "/" is dropped by the parser, joining that "/" to what follows |
| ReturnUrls.TabIsDropped | authorize/login.tsx:95 | "/\t/evil.example" is read as "//evil.example", which leaves the origin |
| ReturnUrls.TabDoesNotSlipThrough | authorize/login.tsx:57-68 | the origin followed by "/\t/evil.example" passes the origin test as written and fails the strict one |
| LoginPage.GetReturnUrlAsWritten | authorize/login.tsx:54-71 | throws exactly for a query URL off the origin, before the state is read; then a non-empty state URL wins; then the stripped query URL; then the origin's root |
| LoginPage.LoginOpenRedirect | authorize/login.tsx:57-68 | the origin test as written returns "//evil.example", a reference to another host |
| LoginPage.GetReturnUrl | authorize/login.tsx:54-71 | with the intended check, a return URL not taken from the state stays on the origin as the browser reads it, tabs and newlines removed |
| LoginPage.TabbedQueryRefused | authorize/login.tsx:54-71 | a query URL with a tab between the slashes is returned as written and refused by the intended check |
| LoginPage.CorrectedRefusesOnlyOffOrigin | authorize/login.tsx:57-65 | the intended check agrees wherever it accepts, and refuses only URLs that leave the origin |
| LoginPage.LoginStore.constructor | authorize/login.tsx:18-19 | no message and no navigation |
| LoginPage.LoginStore.SetMessage | authorize/login.tsx:20-22 | sets the message only |
| LoginPage.LoginStore.NavigateToReturnUrl | authorize/login.tsx:92-96 | navigates to the URL only |
| LoginPage.LoginStore.Login | authorize/login.tsx:23-36 | a redirect does nothing, a success navigates to the return URL, a failure shows its message |
| LoginPage.LoginStore.ProcessLoginCallback | authorize/login.tsx:37-52 | a redirect throws; a success navigates to the return URL `getReturnUrl` selects as written, or throws when it refuses; a failure shows its message |
| LoginPage.LoginStore.ProcessLoginCallbackOnOrigin | authorize/login.tsx:37-52 | the same callback with the intended origin test: a return URL not taken from the state keeps the user on the origin as the browser reads it |
| LoginPage.CallbackOpenRedirect | authorize/login.tsx:45-47 | the callback as written navigates to "//evil.example"; with the intended test it throws and navigates nowhere |
| LoginPage.LoginReturnsToQueryPath | authorize/login.tsx:54-71 | a query URL on the origin is returned to as its path after sign-in |
| LoginPage.FailedLoginShowsMessage | authorize/login.tsx:32-34 | a failed sign-in shows its message and navigates nowhere |
| LogoutPage.GetReturnUrlAsWritten | src/authorize/logout.tsx:72-87 | a non-empty state URL is returned unchecked; a query URL off the origin throws; a valid one is stripped; with neither, the signed-out page |
| LogoutPage.LogoutOpenRedirect | src/authorize/logout.tsx:77-84 | the origin test as written returns "//evil.example", a reference to another host |
| LogoutPage.GetReturnUrl | src/authorize/logout.tsx:72-87 | with the intended check, a return URL not taken from the state stays on the origin as the browser reads it, or is the signed-out page |
| LogoutPage.TabbedQueryRefused | src/authorize/logout.tsx:72-87 | a query URL with a tab between the slashes is returned as written and refused by the intended check |
| LogoutPage.CorrectedRefusesOnlyOffOrigin | src/authorize/logout.tsx:77-84 | the intended check agrees wherever it accepts, and refuses only URLs that leave the origin |
| LogoutPage.LogoutStore.constructor | src/authorize/logout.tsx:22-23 | no message, not ready, nothing requested |
| LogoutPage.LogoutStore.Logout | src/authorize/logout.tsx:24-46 | without an access token the page says "You successfully logged out!" and `signOut` is not called; otherwise the result is dispatched |
| LogoutPage.LogoutStore.ProcessLogoutCallback | src/authorize/logout.tsx:48-65 | a redirect throws; a success navigates to the return URL `getReturnUrl` selects as written, or throws when it refuses; a failure shows its message |
| LogoutPage.LogoutStore.ProcessLogoutCallbackOnOrigin | src/authorize/logout.tsx:48-65 | the same callback with the intended origin test: a return URL not taken from the state stays on the origin as the browser reads it, or is the signed-out page |
| LogoutPage.CallbackOpenRedirect | src/authorize/logout.tsx:55-57 | the callback as written navigates to "//evil.example"; with the intended test it throws and navigates nowhere |
| LogoutPage.LogoutStore.SetReady | src/authorize/logout.tsx:92-95 | sets the message and the ready flag |
| LogoutPage.LogoutStore.ProcessFrontChannelLogout | src/authorize/logout.tsx:67-70 | once `completeSignOut` resolves, the page is ready and says "Vous êtes déconnecté"; when it rejects, the page is left as it was |
| LogoutPage.LogoutWithoutToken | src/authorize/logout.tsx:26-27 | a visitor without a token gets the logged-out message and no sign-out call |
| LogoutPage.LogoutReturnsToLoggedOutPage | src/authorize/logout.tsx:86 | with no query URL, sign-out returns to the signed-out page |

## Left out

- The MobX machinery (`makeObservable`, `@observable`, `@computed`, `@action`, `observable.shallow` for `readonly`): the fields are modelled directly.
- Promise scheduling: each settlement is an explicit `Complete` call that the environment makes in any order.
- `JSON.stringify`, `JSON.parse`, `encodeURIComponent`, `toISOString` and `atob`: foreign primitives, modelled as functions given as parameters, or as an injective wrapper for serialisation.
- The HTTP transport (`window.fetch`, `response.json()`, `fetchJson`) and the `json().then(showError)` branch of index.ts, which only forwards the response body: I/O. `ReportErrors` returns `FromBody` there.
- The SignalR connection and its reconnect loop (hub-auto-connection.ts): network and timer plumbing. The hub is a log of calls plus a list of handler names.
- The OIDC flows of `AuthorizeService` (`signIn`, `signOut`, `completeSignIn`, `completeSignOut`, `getUser`, `ensureUserManagerInitialized`): calls into `oidc-client` and the network. Their results are inputs of the page methods.
- The decoding of the access token's payload: an uninterpreted `decode` function.
- React rendering, providers, hooks and routes.
- `ApiClients.ParseErrors`: the newer clients' `parseErrors` is `async`; the model returns the message the promise resolves to.
- `ApiClients.BuildRequest`: `onQueryStart` and the `await` of `getAuthorizationHeader` are left out; the resolved header is an input.
- `ApiClients.GetQueryString`: the `for ... in` enumeration order of the parameters object is the order of the input sequence.
- `Authorize.AuthorizeService.Identifier`: an access token whose payload cannot be decoded throws in the source; the model returns `Err`. Its contract states only the no-token case, because decoding is uninterpreted.
- `Authorize.AuthorizeService.UpdateState`: the source's condition `(user && this.user !== null) || (user && (this.user === null || this.user.id_token !== user.id_token))` holds exactly when the new user is truthy, so the model tests only that.
- `Common.NonEmpty`: null, undefined and "" are all `None` or `Some("")`; a header or identifier that is undefined is modelled as null. Truthiness tests (`!newIdentifier`, `if (authorizationHeader)`) treat them alike in the source too. The strict tests `authorizationHeader === null` (src/cache/value-loader.ts:35,44, src/cache/singleton-loader.ts:31,40, src/cache/array-loader.ts:40,49, and the older copies in map-loader.ts, value-loader.ts, singleton-loader.ts and array-loader.ts) and `newIdentifier === null` (src/cache/map-loader.ts:45,55) do not: the model compares with `None` there, so a store whose header or identifier is undefined is taken as not identified.
- `ArrayLoaders.ArrayLoader.GetValue`: the source returns its live `result` array, which later `splice` and `push` calls change in place; the model returns a copy (`Current()`). A caller holding the list served for the previous parameters sees it emptied and refilled in the source, but keeps the old list in the model.
- `ReturnUrls.OnOrigin`: of the URL parsing a browser applies to a navigation target, only what decides whether a reference starting with "/" leaves the origin is modelled: tabs and newlines are dropped, and "\" counts as "/" for an http or https page. Other schemes are not modelled.
- `MapLoaders.MapLoader.GetValue`: `if (this.loadingParameters)` tests a `Map` object, which is always truthy, so the model has no such test.
- `ValueLoaders.ValueLoader.constructor`: the `options.allowNotIdentified` setting is ignored by the source, which always starts with `allowNotIdentified = false`; the model does the same.
- `SingletonLoaders.SingletonLoader.Complete`: a settlement is not tied to the particular call that produced it, since the source does not tell them apart either.
- `LoginPage.LoginStore.Login`, `LogoutPage.LogoutStore.Logout`: the value of `state.returnUrl` sent to the identity provider is trusted when it comes back; this is the source's behaviour, not a check the model adds.
- `LogoutPage.LogoutStore.Logout`: the `default` branch that throws on an unknown status cannot be reached with the three result shapes.
- The descriptions of this library disagree with the code in a few places; the model follows the code:
  - `addValue` appends the stored record to the list even when that id is already listed, so a list can hold a record twice (`ArrayLoaders.AddTwiceListsTwice`).
  - The newer `MapLoader.setValue` has no supersession check: whichever load for a key lands last wins.
  - `ValueLoader` does not mark a failed or falsy value as loaded, so it reloads; `ArrayLoader` leaves `loadingParameters` set after a failure, so it never reloads; `SingletonLoader` caches the failure.
  - Pushed updates of `ValueLoaderSync` take effect only while their parameters are loading.
  - `updateState(null)`, called on sign-out, does not clear the user (`Authorize.NullUpdateKeepsUser`).

## Findings

| source | as written | input that shows it | evidently intended | confidence | as-written member | corrected member |
|---|---|---|---|---|---|---|
| authorize/login.tsx:57-68 | a query `returnUrl` passes when it starts with `origin + "/"`, and is returned with the origin removed | origin `https://app.example`, `returnUrl=https://app.example//evil.example` gives `//evil.example`, which a browser reads as the host `evil.example`; so does `returnUrl=https://app.example/%09/evil.example`, whose tab URL parsing drops | the origin test prevents open redirects (the source's own comment), so the stripped URL must stay on the origin as the browser reads it: once tabs and newlines are removed (they are dropped by URL parsing, and `%09` in the query becomes a tab), "/" not followed by "/" or "\" | not executed | LoginPage.GetReturnUrlAsWritten, LoginPage.LoginOpenRedirect, LoginPage.LoginStore.ProcessLoginCallback, LoginPage.CallbackOpenRedirect | LoginPage.GetReturnUrl, LoginPage.LoginStore.ProcessLoginCallbackOnOrigin, LoginPage.TabbedQueryRefused |
| src/authorize/logout.tsx:77-84 | the same origin test and stripping on the logout page | the same input gives `//evil.example` | the same | not executed | LogoutPage.GetReturnUrlAsWritten, LogoutPage.LogoutOpenRedirect, LogoutPage.LogoutStore.ProcessLogoutCallback, LogoutPage.CallbackOpenRedirect | LogoutPage.GetReturnUrl, LogoutPage.LogoutStore.ProcessLogoutCallbackOnOrigin, LogoutPage.TabbedQueryRefused |
