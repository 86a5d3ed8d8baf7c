# ssm-cache: the expiring parameter cache, modelled in Dafny

This project models `ssmCacheImpl`, the auto-expiring, in-process cache that fronts AWS Systems
Manager Parameter Store. A caller asks for a named parameter, either as a plain string, a
comma-delimited list or a decrypted secure string, or asks for a whole parameter subtree as a
group. The cache answers from its store when the key is present. Otherwise it fetches from the
remote store, checks the parameter's declared type, reshapes the answer and stores it with the
caller's expiry (or go-cache's `DefaultExpiration`).

Files and modules:

- `wrappers.dfy` (`Wrappers`): `Option` for Go's nil pointers and `Result` for Go's `(value, error)` returns.
- `ssm.dfy` (`Ssm`): the boundary with the remote store. It holds the three declared-type
  constants (`"String"`, `"StringList"`, `"SecureString"`) and the answers of `GetParameter` and
  `GetParametersByPathPages`. `Service` bundles those two answers as total functions and is passed
  to every call. A `Call` records one remote call with its arguments.
- `strings.dfy` (`Strings`): `strings.Split(s, ",")` and `strings.Join`, with the round trip proved both ways.
- `ssm_cache_impl.dfy` (`SsmCache`): everything in `ssm-cache-impl.go`.
  - `CachedValue` is tagged with the Go dynamic type a cached value would have: `Str`,
    `UntypedMap` (`map[string]interface{}`) or `Group` (the named type `ParameterGroup`).
  - The error kinds.
  - The hit checks `StringHit` and `GroupHit`, which mirror Go's type assertions.
  - The page aggregation: `Concat`, `Overlay`, `GroupMap`, and the page callback `AccumulatePage`.
  - The class `SsmCacheImpl`. Its `cache` field (a `map` from key to value and expiry) stands for
    the go-cache store. Its ghost `remoteCalls` log shows when the remote store is consulted.
- `scenarios.dfy` (`Scenarios`): clients that use the class contracts and the module's lemmas. They
  state usage scenarios of the cache as assertions about a concrete remote store, and those
  assertions are proved.

The accessor contracts are the ghost predicates `StringAccess` and `GroupAccess`. Each states
what one call does, given the cache and call log before and after. `GroupAccess` is
`GroupAccessStoring` with the as-written stored value `StoredGroup`; the same predicate with
`StoredGroupIntended` states the evidently intended behaviour. Each default-expiration
wrapper has the same contract as its explicit-expiry method, with `DefaultExpiration` as the expiry.

The class invariant `Valid()` says that every cached value is a string or an untyped map, because
that is all this code stores. Two consequences follow, and both are proved:

- A hit on a group key never succeeds.
- A group cached under a key makes every string accessor on that key fail.

Go's nil slice, which `GetStringList` returns, is modelled as the empty list.

## Model

| member | source | states |
|---|---|---|
| `SsmCache.ValueOrEmpty` | ssm-cache-impl.go:40-43 | a present value is kept as is, and a nil value becomes `""` (the same rule is used at lines 148-151) |
| `SsmCache.StringHit` | ssm-cache-impl.go:59-64 | the `value.(string)` check succeeds exactly when the cached value is a string, returning that string; otherwise the error is a type assertion naming the key (also lines 81-85 and 104-108) |
| `SsmCache.GroupHit` | ssm-cache-impl.go:130-135 | the `value.(ParameterGroup)` check succeeds exactly when the cached value is a ParameterGroup, returning its map; any other value, an untyped map included, gives a type-assertion error naming the key |
| `SsmCache.StoredGroup` | ssm-cache-impl.go:144-161 | a group miss stores the map's contents unchanged as an untyped `map[string]interface{}`, which every group hit check rejects |
| `SsmCache.StoredGroupIntended` | ssm-cache.go:11-13 | a map stored as a ParameterGroup passes every group hit check and yields that map |
| `SsmCache.Concat` | ssm-cache-impl.go:145-147 | every parameter of every page is among the concatenated parameters |
| `SsmCache.Overlay` | ssm-cache-impl.go:147-153 | writing parameters into a map never removes a key, and every written name is a key afterwards |
| `SsmCache.GroupMap` | ssm-cache-impl.go:144-155 | every parameter name on any page is a key of the group map |
| `Strings.Split` | ssm-cache-impl.go:86-95 | the split has at least one piece, no piece contains a comma, and joining the pieces with commas gives the input back |
| `Strings.SplitJoin` | ssm-cache-impl.go:86-95 | splitting the comma-join of comma-free pieces returns exactly those pieces (Split is the inverse of Join) |
| `Strings.JoinInjective` | ssm-cache-impl.go:86-95 | two non-empty lists of comma-free pieces with the same join are equal, so the split is uniquely determined |
| `Strings.SplitExamples` | ssm-cache-impl.go:79-96 | `""` splits to `[""]`, `"a,b,c"` to `["a","b","c"]` and `"a,"` to `["a",""]` |
| `SsmCache.OverlayKeys` | ssm-cache-impl.go:147-153 | after the page loop the keys are the earlier keys plus every parameter name that occurred |
| `SsmCache.OverlayLastWins` | ssm-cache-impl.go:147-153 | each name maps to the value of its last occurrence, with nil read as `""`: a later occurrence overwrites an earlier one |
| `SsmCache.OverlayKeeps` | ssm-cache-impl.go:147-153 | a key that no parameter names keeps its value |
| `SsmCache.OverlayAppend` | ssm-cache-impl.go:145-155 | writing two runs of parameters one after the other equals writing their concatenation, so pages may be folded one at a time |
| `SsmCache.GroupMapSnoc` | ssm-cache-impl.go:145-155 | the map after one more page is the previous map with that page written over it |
| `SsmCache.GroupMapContents` | ssm-cache-impl.go:144-155 | the group map's keys are exactly the names on all pages, and each maps to the value of its last occurrence |
| `SsmCache.InConcat` | ssm-cache-impl.go:145-147 | a parameter is among the concatenated pages iff it is on one of the pages |
| `SsmCache.AccumulatePage` | ssm-cache-impl.go:146-155 | the page callback writes every parameter of the page into the map (nil as `""`, later names overwriting earlier ones) and always asks for the next page |
| `SsmCache.SsmCacheImpl.constructor` | ssm-cache.go:57-62 | a new client starts with an empty cache and has made no remote calls |
| `SsmCache.SsmCacheImpl.GetParameter` | ssm-cache-impl.go:20-46 | exactly one GetParameter call with the given decryption flag. A remote error is returned as is. A declared type other than `paramType` gives a mismatch error naming the parameter, the actual type and the expected type. In both failure cases the cache is unchanged. Otherwise the value (nil as `""`) is stored under exactly `paramName` with exactly `expiry` and returned |
| `SsmCache.SsmCacheImpl.Purge` | ssm-cache-impl.go:48-51 | removes only the given key, present or not, makes no remote call and returns the same client |
| `SsmCache.SsmCacheImpl.GetString` | ssm-cache-impl.go:53-55 | behaves as GetExpiringString with `DefaultExpiration` |
| `SsmCache.SsmCacheImpl.GetExpiringString` | ssm-cache-impl.go:57-74 | hit: returns the cached string unchanged, or a type-assertion error naming the key when the entry is not a string; no remote call and the cache is unchanged. Miss: an unencrypted fetch expecting `"String"`; a success stores the raw value under the name with `expiry`; a failure wraps the remote error or the mismatch with the name and stores nothing |
| `SsmCache.SsmCacheImpl.GetStringList` | ssm-cache-impl.go:75-77 | as written: returns no list and no error, without touching the cache or the remote |
| `SsmCache.SsmCacheImpl.GetStringListIntended` | ssm-cache.go:24-26 | the documented default-expiration list accessor: GetExpiringStringList with `DefaultExpiration` |
| `SsmCache.SsmCacheImpl.GetExpiringStringList` | ssm-cache-impl.go:79-96 | as GetExpiringString, but expecting `"StringList"`. The cache always holds the raw unsplit string, and the result is its comma split on a hit and on a miss |
| `SsmCache.SsmCacheImpl.GetSecureString` | ssm-cache-impl.go:98-100 | behaves as GetExpiringSecureString with `DefaultExpiration` |
| `SsmCache.SsmCacheImpl.GetExpiringSecureString` | ssm-cache-impl.go:102-119 | as GetExpiringString, but fetching with decryption and expecting `"SecureString"`; the plaintext is cached |
| `SsmCache.SsmCacheImpl.GetParameterGroup` | ssm-cache-impl.go:121-123 | behaves as GetExpiringParameterGroup with `DefaultExpiration` |
| `SsmCache.SsmCacheImpl.GetExpiringParameterGroup` | ssm-cache-impl.go:125-163 | hit: always a type-assertion error naming `groupKey`, with no remote call and no change. Miss: one recursive paged fetch of `ssmKeyPath`. A paging error stores nothing, even after pages were accumulated, and names the path. Otherwise the map of all pages is stored under `groupKey` (not the path) with `expiry` and returned |
| `SsmCache.StringHitReturnsStoredValue` | ssm-cache-impl.go:57-65 | once a string accessor has returned a value, any later string accessor on that key returns the same value, makes no remote call and leaves the cache unchanged |
| `SsmCache.PurgedKeyIsFetchedAgain` | ssm-cache-impl.go:48-51 | after a purge, the next lookup of the key consults the remote store |
| `SsmCache.GroupKeyFailsStringAccess` | ssm-cache-impl.go:58-63 | after a group is cached under a key, every string accessor on that key fails with a type-assertion error, changing nothing |
| `SsmCache.ListLookupNeverEmpty` | ssm-cache-impl.go:79-96 | a successful list lookup never returns the empty list |
| `SsmCache.GroupHitNeverSucceeds` | ssm-cache-impl.go:129-136 | on any cache this code builds, the group hit check fails with an error naming the key |
| `SsmCache.GroupSecondCallFails` | ssm-cache-impl.go:129-161 | a group call that misses and succeeds makes the next group call on the same key fail |
| `SsmCache.GroupSecondCallIntended` | ssm-cache.go:40-48 | if a successful miss stored a ParameterGroup, the next group call on the same key would return the same map, make no remote call and leave the cache unchanged |

## Left out

- AWS SDK calls and session construction (`NewClient`, `NewClientWithSession`) are left out. Each call takes the remote store's answers as a `Service` input, and the constructor builds an empty cache.
- go-cache's wall-clock expiry, its janitor sweep, and how `DefaultExpiration` resolves to the configured default are left out. The expiry passed to `Set` is recorded as given. A lapsed entry is treated as a key that has been removed from outside.
- go-cache's internal locking is left out, and so is the last-writer-wins race between concurrent misses. The model is single-threaded.
- Error message text (`errors.Errorf` / `errors.Wrapf`) is replaced by error kinds that carry the names and types the messages would mention.
- A nil `Name` in a page is not modelled: the Go code would panic on it, and every name is taken to be present.
- The callback's `lastPage` argument is not modelled, because the callback ignores it.
- Group values are `interface{}` in Go. The model stores them as strings, since the code only ever puts strings there.

## Findings

| source | as written | input that shows it | evidently intended | confidence | as-written member | corrected member |
|---|---|---|---|---|---|---|
| ssm-cache-impl.go:161 | a group miss stores `paramMap`, whose dynamic type is `map[string]interface{}`, and the hit path (line 131) asserts the named type `ParameterGroup`; in Go that assertion fails | `GetParameterGroup("appcfg", "/app/")` succeeds, then the same call within the TTL returns "Failed to type assert cached ParameterGroup type: appcfg" | a hit returns the cached group | not executed; follows from Go's type-assertion rules | `SsmCache.GroupSecondCallFails` | `SsmCache.GroupSecondCallIntended` |
| ssm-cache-impl.go:75-77 | `GetStringList` returns `nil, nil` without a lookup | remote `"/app/hosts"` = `"a,b,c"` of type StringList: `GetStringList` returns an empty list, while `GetExpiringStringList` with the default expiration returns `["a","b","c"]` | delegate to `GetExpiringStringList` with `DefaultExpiration`, as its interface comment says | not executed | `SsmCache.ListLookupNeverEmpty` | `SsmCache.SsmCacheImpl.GetStringListIntended` |

The class keeps both behaviours as written. `GetStringListIntended` sits beside the stub. The
intended group store is `StoredGroupIntended`, a `ParameterGroup`, which the group hit check
accepts; `GroupSecondCallIntended` states the two-call behaviour it gives.
