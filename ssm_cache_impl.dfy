/**
 * The expiring parameter cache of ssm-cache-impl.go: a key -> (value, expiry) store in front of
 * the remote parameter store. A lookup trusts a cached entry when the key is present (go-cache
 * drops lapsed entries itself, so lapse is an external removal here), and otherwise fetches,
 * checks the declared type, reshapes the answer and stores it.
 */
module SsmCache {
  import opened Wrappers
  import opened Ssm
  import Strings

  /** go-cache's expiry argument, a `time.Duration`, with its two sentinel values. */
  type Duration = int
  const DefaultExpiration: Duration := 0
  const NoExpiration: Duration := -1

  /**
   * A cached value, tagged with the Go dynamic type it would have in the cache's
   * `interface{}` slot. `UntypedMap` is `map[string]interface{}`; `Group` is the named type
   * `ParameterGroup` with the same underlying type. Go's type assertion tells them apart.
   */
  datatype CachedValue =
    | Str(s: string)
    | UntypedMap(m: map<string, string>)
    | Group(g: map<string, string>)

  /** A go-cache item: the value and the expiry that was passed to `Set`. */
  datatype Entry = Entry(value: CachedValue, expiry: Duration)

  /** The type a hit asserts the cached value to have. */
  datatype AssertedType = StringType | ParameterGroupType

  /** The error kinds the cache reports; the wrapping kinds record the context a message would name. */
  datatype Error =
    | Remote(awsError: AwsError)
    | TypeMismatch(name: string, actual: string, expected: string)
    | CacheTypeAssertion(key: string, asserted: AssertedType)
    | AttemptingToGet(name: string, cause: Error)
    | PagingFailed(path: string, cause: Error)

  /** A nil parameter value is read as the empty string. */
  function ValueOrEmpty(v: Option<string>): (s: string)
    ensures v.Some? ==> s == v.value
    ensures v.None? ==> s == ""
  {
    match v
    case Some(s) => s
    case None => ""
  }

  /** The hit path of the three string accessors: the cached value must have dynamic type string. */
  function StringHit(v: CachedValue, key: string): (r: Result<string, Error>)
    ensures r.Success? <==> v.Str?
    ensures r.Success? ==> v == Str(r.value)
    ensures r.Failure? ==> r.error == CacheTypeAssertion(key, StringType)
  {
    match v
    case Str(s) => Success(s)
    case _ => Failure(CacheTypeAssertion(key, StringType))
  }

  /**
   * The hit path of the group accessor: the cached value must have dynamic type ParameterGroup.
   * An untyped map fails, although its contents would do.
   */
  function GroupHit(v: CachedValue, key: string): (r: Result<map<string, string>, Error>)
    ensures r.Success? <==> v.Group?
    ensures r.Success? ==> v == Group(r.value)
    ensures r.Failure? ==> r.error == CacheTypeAssertion(key, ParameterGroupType)
  {
    match v
    case Group(g) => Success(g)
    case _ => Failure(CacheTypeAssertion(key, ParameterGroupType))
  }

  /**
   * The value a group miss stores. The source builds `paramMap` with `make(map[string]interface{})`
   * and stores it as is, so its dynamic type is the unnamed map type, not ParameterGroup.
   */
  function StoredGroup(m: map<string, string>): (v: CachedValue)
    ensures v.UntypedMap? && v.m == m
    ensures forall key :: GroupHit(v, key).Failure?
  {
    UntypedMap(m)
  }

  /** The value a group miss was evidently meant to store: a ParameterGroup. */
  function StoredGroupIntended(m: map<string, string>): (v: CachedValue)
    ensures forall key :: GroupHit(v, key) == Success(m)
  {
    Group(m)
  }

  /** The only kinds of value this code ever stores: strings and untyped maps. */
  ghost predicate OnlyStoredShapes(cache: map<string, Entry>)
  {
    forall k :: k in cache ==> cache[k].value.Str? || cache[k].value.UntypedMap?
  }

  // ---------------------------------------------------------------------------------------------
  // Aggregating the pages of a subtree fetch

  /** Every parameter of every page, in the order the pages were delivered. */
  function Concat(pages: seq<Page>): (all: seq<Parameter>)
    ensures forall i, p :: 0 <= i < |pages| && p in pages[i] ==> p in all
  {
    if pages == [] then [] else Concat(pages[..|pages| - 1]) + pages[|pages| - 1]
  }

  /** The names that occur among `params`. */
  ghost function Names(params: seq<Parameter>): set<string>
  {
    set p | p in params :: p.name
  }

  /** `acc` with each parameter of `params` written into it in order: name -> value, nil as "". */
  function Overlay(acc: map<string, string>, params: seq<Parameter>): (m: map<string, string>)
    ensures acc.Keys <= m.Keys
    ensures forall j :: 0 <= j < |params| ==> params[j].name in m
  {
    if params == [] then acc
    else
      var last := params[|params| - 1];
      Overlay(acc, params[..|params| - 1])[last.name := ValueOrEmpty(last.value)]
  }

  /** The map a successful subtree fetch produces from its pages. */
  function GroupMap(pages: seq<Page>): (m: map<string, string>)
    ensures forall i, p :: 0 <= i < |pages| && p in pages[i] ==> p.name in m
  {
    var all := Concat(pages);
    assert forall p :: p in all ==> p.name in Overlay(map[], all) by {
      forall p | p in all ensures p.name in Overlay(map[], all) {
        var j :| 0 <= j < |all| && all[j] == p;
      }
    }
    Overlay(map[], all)
  }

  /** Writing two runs of parameters one after the other is writing their concatenation. */
  lemma {:induction false} OverlayAppend(acc: map<string, string>, a: seq<Parameter>, b: seq<Parameter>)
    ensures Overlay(acc, a + b) == Overlay(Overlay(acc, a), b)
    decreases |b|
  {
    if b == [] {
      assert a + b == a;
    } else {
      assert (a + b)[..|a + b| - 1] == a + b[..|b| - 1];
      OverlayAppend(acc, a, b[..|b| - 1]);
    }
  }

  /** The keys after overlaying are the old keys plus every name that occurs in `params`. */
  lemma {:induction false} OverlayKeys(acc: map<string, string>, params: seq<Parameter>)
    ensures Overlay(acc, params).Keys == acc.Keys + Names(params)
    decreases |params|
  {
    if params != [] {
      var init := params[..|params| - 1];
      OverlayKeys(acc, init);
      assert params == init + [params[|params| - 1]];
      assert Names(params) == Names(init) + {params[|params| - 1].name};
    }
  }

  /** A name is bound to the value of its LAST occurrence: later parameters overwrite earlier ones. */
  lemma {:induction false} OverlayLastWins(acc: map<string, string>, params: seq<Parameter>, i: nat)
    requires i < |params|
    requires forall j :: i < j < |params| ==> params[j].name != params[i].name
    ensures params[i].name in Overlay(acc, params)
    ensures Overlay(acc, params)[params[i].name] == ValueOrEmpty(params[i].value)
    decreases |params|
  {
    if i < |params| - 1 {
      var init := params[..|params| - 1];
      assert init[i] == params[i];
      OverlayLastWins(acc, init, i);
    }
  }

  /** A key that no parameter names keeps the value it had. */
  lemma {:induction false} OverlayKeeps(acc: map<string, string>, params: seq<Parameter>, k: string)
    requires k in acc
    requires forall j :: 0 <= j < |params| ==> params[j].name != k
    ensures k in Overlay(acc, params) && Overlay(acc, params)[k] == acc[k]
    decreases |params|
  {
    if params != [] {
      OverlayKeeps(acc, params[..|params| - 1], k);
    }
  }

  /** The group map of one more page is the previous group map with that page written over it. */
  lemma GroupMapSnoc(pages: seq<Page>, i: nat)
    requires i < |pages|
    ensures GroupMap(pages[..i + 1]) == Overlay(GroupMap(pages[..i]), pages[i])
  {
    assert pages[..i + 1][..i] == pages[..i];
    assert Concat(pages[..i + 1]) == Concat(pages[..i]) + pages[i];
    OverlayAppend(map[], Concat(pages[..i]), pages[i]);
  }

  /**
   * What a subtree fetch yields: its keys are exactly the names found on all the pages, and
   * each name maps to the value (nil read as "") of its last occurrence.
   */
  lemma {:induction false} GroupMapContents(pages: seq<Page>)
    ensures GroupMap(pages).Keys == Names(Concat(pages))
    ensures forall i :: 0 <= i < |Concat(pages)| && (forall j :: i < j < |Concat(pages)| ==> Concat(pages)[j].name != Concat(pages)[i].name)
              ==> GroupMap(pages)[Concat(pages)[i].name] == ValueOrEmpty(Concat(pages)[i].value)
  {
    var all := Concat(pages);
    OverlayKeys(map[], all);
    forall i | 0 <= i < |all| && (forall j :: i < j < |all| ==> all[j].name != all[i].name)
      ensures GroupMap(pages)[all[i].name] == ValueOrEmpty(all[i].value)
    {
      OverlayLastWins(map[], all, i);
    }
  }

  /** A parameter is among the concatenated pages iff it is on one of the pages. */
  lemma {:induction false} InConcat(pages: seq<Page>, p: Parameter)
    ensures p in Concat(pages) <==> exists i :: 0 <= i < |pages| && p in pages[i]
    decreases |pages|
  {
    if pages != [] {
      var init := pages[..|pages| - 1];
      InConcat(init, p);
      if p in Concat(init) {
        var i :| 0 <= i < |init| && p in init[i];
        assert pages[i] == init[i];
      }
      if exists i :: 0 <= i < |pages| && p in pages[i] {
        var i :| 0 <= i < |pages| && p in pages[i];
        if i < |pages| - 1 {
          assert init[i] == pages[i];
        }
      }
    }
  }

  /**
   * The page callback of the subtree fetch: writes every parameter of the page into the
   * accumulated map (nil values as "") and always asks for the next page.
   */
  method AccumulatePage(paramMap: map<string, string>, page: Page)
    returns (updated: map<string, string>, more: bool)
    ensures updated == Overlay(paramMap, page)
    ensures more
  {
    updated := paramMap;
    var j := 0;
    while j < |page|
      invariant 0 <= j <= |page|
      invariant updated == Overlay(paramMap, page[..j])
    {
      var eachParam := page[j];
      var value := "";
      if eachParam.value.Some? {
        value := eachParam.value.value;
      }
      updated := updated[eachParam.name := value];
      assert page[..j + 1][..j] == page[..j];
      j := j + 1;
    }
    assert page[..j] == page;
    more := true;
  }

  // ---------------------------------------------------------------------------------------------
  // What one call of an accessor does, stated over the cache and the call log before and after

  /**
   * A string-backed accessor (scalar, list or secure) for `name`, fetching with `withDecryption`,
   * expecting declared type `expected`, storing with `expiry`; `decode` turns the raw string into
   * the result (the identity, or the comma split).
   *  - Hit: no remote call, the cache is unchanged, and the result is the decoded cached string,
   *    or a type-assertion error naming `name` when the entry is not a string.
   *  - Miss: exactly one GetParameter call. It succeeds iff the remote answers with the expected
   *    declared type; then the raw value (nil as "") is stored under `name` with `expiry`, nothing
   *    else changes, and its decoding is returned. Otherwise the cache is unchanged and the error
   *    names `name` and wraps the remote error or the type mismatch (actual and expected type).
   */
  ghost predicate StringAccess<T>(
    before: map<string, Entry>, after: map<string, Entry>,
    callsBefore: seq<Call>, callsAfter: seq<Call>,
    name: string, expiry: Duration, withDecryption: bool, expected: string,
    svc: Service, decode: string -> T, r: Result<T, Error>)
  {
    if name in before then
      && after == before
      && callsAfter == callsBefore
      && match StringHit(before[name].value, name)
         case Success(s) => r == Success(decode(s))
         case Failure(e) => r == Failure(e)
    else
      var resp := svc.getParameter(name, withDecryption);
      && callsAfter == callsBefore + [GetParameterCall(name, withDecryption)]
      && (r.Success? <==> resp.Found? && resp.declaredType == expected)
      && (r.Success? ==>
            var raw := ValueOrEmpty(resp.value);
            r.value == decode(raw) && after == before[name := Entry(Str(raw), expiry)])
      && (r.Failure? ==>
            && after == before
            && r.error == AttemptingToGet(name,
                 if resp.Failed? then Remote(resp.error)
                 else TypeMismatch(name, resp.declaredType, expected)))
  }

  /**
   * The group accessor for `groupKey` over the subtree `ssmKeyPath`.
   *  - Hit: no remote call, the cache is unchanged, and the result is the cached ParameterGroup,
   *    or a type-assertion error naming `groupKey`.
   *  - Miss: exactly one recursive GetParametersByPathPages call on `ssmKeyPath`. If it ends in
   *    an error, the cache is unchanged and the error names `ssmKeyPath`, whatever pages came
   *    before. Otherwise the map of all pages is stored under `groupKey` (not under the path)
   *    with `expiry`, nothing else changes, and the map is returned.
   */
  ghost predicate GroupAccess(
    before: map<string, Entry>, after: map<string, Entry>,
    callsBefore: seq<Call>, callsAfter: seq<Call>,
    groupKey: string, ssmKeyPath: string, expiry: Duration,
    svc: Service, r: Result<map<string, string>, Error>)
  {
    GroupAccessStoring(before, after, callsBefore, callsAfter, groupKey, ssmKeyPath, expiry, svc, StoredGroup, r)
  }

  /** The group accessor as above, with `store` giving the cached value a successful miss stores. */
  ghost predicate GroupAccessStoring(
    before: map<string, Entry>, after: map<string, Entry>,
    callsBefore: seq<Call>, callsAfter: seq<Call>,
    groupKey: string, ssmKeyPath: string, expiry: Duration,
    svc: Service, store: map<string, string> -> CachedValue, r: Result<map<string, string>, Error>)
  {
    if groupKey in before then
      && after == before
      && callsAfter == callsBefore
      && r == GroupHit(before[groupKey].value, groupKey)
    else
      var resp := svc.getParametersByPathPages(ssmKeyPath, true);
      && callsAfter == callsBefore + [GetParametersByPathCall(ssmKeyPath, true)]
      && (resp.failure.Some? ==>
            && r == Failure(PagingFailed(ssmKeyPath, Remote(resp.failure.value)))
            && after == before)
      && (resp.failure.None? ==>
            && r == Success(GroupMap(resp.pages))
            && after == before[groupKey := Entry(store(r.value), expiry)])
  }

  // ---------------------------------------------------------------------------------------------
  // The cache object

  /** `ssmCacheImpl`: the go-cache store as a map field; the remote's answers come with each call. */
  class SsmCacheImpl {
    var cache: map<string, Entry>
    /** Every remote call made so far, oldest first. */
    ghost var remoteCalls: seq<Call>

    ghost predicate Valid()
      reads this
    {
      OnlyStoredShapes(cache)
    }

    constructor ()
      ensures Valid()
      ensures cache == map[] && remoteCalls == []
    {
      cache := map[];
      remoteCalls := [];
    }

    /**
     * `getParameter`: one GetParameter call. Fails with the remote error, or with a type mismatch
     * naming the parameter, its declared type and `paramType`, leaving the cache as it was;
     * otherwise stores the value (nil as "") under `paramName` with `expiry` and returns it.
     */
    method GetParameter(paramName: string, encrypted: bool, paramType: string, expiry: Duration, svc: Service)
      returns (r: Result<string, Error>)
      requires Valid()
      modifies this
      ensures Valid()
      ensures remoteCalls == old(remoteCalls) + [GetParameterCall(paramName, encrypted)]
      ensures var resp := svc.getParameter(paramName, encrypted);
        && (r.Success? <==> resp.Found? && resp.declaredType == paramType)
        && (r.Success? ==> r.value == ValueOrEmpty(resp.value)
                           && cache == old(cache)[paramName := Entry(Str(r.value), expiry)])
        && (resp.Failed? ==> r == Failure(Remote(resp.error)) && cache == old(cache))
        && (resp.Found? && resp.declaredType != paramType ==>
              r == Failure(TypeMismatch(paramName, resp.declaredType, paramType)) && cache == old(cache))
    {
      remoteCalls := remoteCalls + [GetParameterCall(paramName, encrypted)];
      var paramValueOutput := svc.getParameter(paramName, encrypted);
      if paramValueOutput.Failed? {
        return Failure(Remote(paramValueOutput.error));
      }
      if paramValueOutput.declaredType != paramType {
        return Failure(TypeMismatch(paramName, paramValueOutput.declaredType, paramType));
      }
      var paramValue := "";
      if paramValueOutput.value.Some? {
        paramValue := paramValueOutput.value.value;
      }
      cache := cache[paramName := Entry(Str(paramValue), expiry)];
      return Success(paramValue);
    }

    /** Removes `paramName` and nothing else, whether or not it was cached, and returns this client. */
    method Purge(paramName: string) returns (client: SsmCacheImpl)
      requires Valid()
      modifies this
      ensures Valid()
      ensures client == this
      ensures cache == old(cache) - {paramName}
      ensures remoteCalls == old(remoteCalls)
    {
      cache := cache - {paramName};
      return this;
    }

    /** A plain string, cached with the default expiration. */
    method GetString(paramName: string, svc: Service) returns (r: Result<string, Error>)
      requires Valid()
      modifies this
      ensures Valid()
      ensures StringAccess(old(cache), cache, old(remoteCalls), remoteCalls,
                           paramName, DefaultExpiration, false, ParameterTypeString, svc, (s: string) => s, r)
    {
      r := GetExpiringString(paramName, DefaultExpiration, svc);
    }

    /** A plain string, cached with `expiry`: fetched unencrypted, declared type "String". */
    method GetExpiringString(paramName: string, expiry: Duration, svc: Service) returns (r: Result<string, Error>)
      requires Valid()
      modifies this
      ensures Valid()
      ensures StringAccess(old(cache), cache, old(remoteCalls), remoteCalls,
                           paramName, expiry, false, ParameterTypeString, svc, (s: string) => s, r)
    {
      if paramName in cache {
        return StringHit(cache[paramName].value, paramName);
      }
      var newValue := GetParameter(paramName, false, ParameterTypeString, expiry, svc);
      if newValue.Failure? {
        return Failure(AttemptingToGet(paramName, newValue.error));
      }
      return Success(newValue.value);
    }

    /**
     * As written, the default-expiration list accessor is a stub: it returns no list (Go's nil
     * slice, empty here) and no error, and touches neither the cache nor the remote.
     */
    method GetStringList(paramName: string) returns (r: Result<seq<string>, Error>)
      ensures r == Success([])
    {
      return Success([]);
    }

    /**
     * The list accessor as its interface comment describes it: the explicit-expiry accessor with
     * the default expiration.
     */
    method GetStringListIntended(paramName: string, svc: Service) returns (r: Result<seq<string>, Error>)
      requires Valid()
      modifies this
      ensures Valid()
      ensures StringAccess(old(cache), cache, old(remoteCalls), remoteCalls,
                           paramName, DefaultExpiration, false, ParameterTypeStringList, svc, Strings.Split, r)
    {
      r := GetExpiringStringList(paramName, DefaultExpiration, svc);
    }

    /**
     * A comma-delimited list, cached with `expiry`: fetched unencrypted, declared type "StringList".
     * The cache holds the raw string; the result is its comma split, on a hit and on a miss.
     */
    method GetExpiringStringList(paramName: string, expiry: Duration, svc: Service)
      returns (r: Result<seq<string>, Error>)
      requires Valid()
      modifies this
      ensures Valid()
      ensures StringAccess(old(cache), cache, old(remoteCalls), remoteCalls,
                           paramName, expiry, false, ParameterTypeStringList, svc, Strings.Split, r)
    {
      if paramName in cache {
        var value := StringHit(cache[paramName].value, paramName);
        if value.Failure? {
          return Failure(value.error);
        }
        return Success(Strings.Split(value.value));
      }
      var newValue := GetParameter(paramName, false, ParameterTypeStringList, expiry, svc);
      if newValue.Failure? {
        return Failure(AttemptingToGet(paramName, newValue.error));
      }
      return Success(Strings.Split(newValue.value));
    }

    /** A secret, cached with the default expiration. */
    method GetSecureString(paramName: string, svc: Service) returns (r: Result<string, Error>)
      requires Valid()
      modifies this
      ensures Valid()
      ensures StringAccess(old(cache), cache, old(remoteCalls), remoteCalls,
                           paramName, DefaultExpiration, true, ParameterTypeSecureString, svc, (s: string) => s, r)
    {
      r := GetExpiringSecureString(paramName, DefaultExpiration, svc);
    }

    /** A secret, cached with `expiry`: fetched with decryption, declared type "SecureString"; the plaintext is cached. */
    method GetExpiringSecureString(paramName: string, expiry: Duration, svc: Service)
      returns (r: Result<string, Error>)
      requires Valid()
      modifies this
      ensures Valid()
      ensures StringAccess(old(cache), cache, old(remoteCalls), remoteCalls,
                           paramName, expiry, true, ParameterTypeSecureString, svc, (s: string) => s, r)
    {
      if paramName in cache {
        return StringHit(cache[paramName].value, paramName);
      }
      var newValue := GetParameter(paramName, true, ParameterTypeSecureString, expiry, svc);
      if newValue.Failure? {
        return Failure(AttemptingToGet(paramName, newValue.error));
      }
      return Success(newValue.value);
    }

    /** A parameter subtree, cached under `groupKey` with the default expiration. */
    method GetParameterGroup(groupKey: string, ssmKeyPath: string, svc: Service)
      returns (r: Result<map<string, string>, Error>)
      requires Valid()
      modifies this
      ensures Valid()
      ensures GroupAccess(old(cache), cache, old(remoteCalls), remoteCalls,
                          groupKey, ssmKeyPath, DefaultExpiration, svc, r)
    {
      r := GetExpiringParameterGroup(groupKey, ssmKeyPath, DefaultExpiration, svc);
    }

    /**
     * A parameter subtree, cached under `groupKey` with `expiry`. Because a miss stores an untyped
     * map and a hit asserts ParameterGroup, a hit never succeeds (see GroupHitNeverSucceeds).
     */
    method GetExpiringParameterGroup(groupKey: string, ssmKeyPath: string, expiry: Duration, svc: Service)
      returns (r: Result<map<string, string>, Error>)
      requires Valid()
      modifies this
      ensures Valid()
      ensures GroupAccess(old(cache), cache, old(remoteCalls), remoteCalls,
                          groupKey, ssmKeyPath, expiry, svc, r)
      ensures groupKey in old(cache) ==> r == Failure(CacheTypeAssertion(groupKey, ParameterGroupType))
    {
      if groupKey in cache {
        return GroupHit(cache[groupKey].value, groupKey);
      }
      remoteCalls := remoteCalls + [GetParametersByPathCall(ssmKeyPath, true)];
      var paging := svc.getParametersByPathPages(ssmKeyPath, true);
      var paramMap: map<string, string> := map[];
      var i := 0;
      var more := true;
      while i < |paging.pages| && more
        invariant 0 <= i <= |paging.pages|
        invariant more
        invariant paramMap == GroupMap(paging.pages[..i])
        invariant cache == old(cache)
        invariant remoteCalls == old(remoteCalls) + [GetParametersByPathCall(ssmKeyPath, true)]
      {
        paramMap, more := AccumulatePage(paramMap, paging.pages[i]);
        GroupMapSnoc(paging.pages, i);
        i := i + 1;
      }
      assert paging.pages[..i] == paging.pages;
      if paging.failure.Some? {
        return Failure(PagingFailed(ssmKeyPath, Remote(paging.failure.value)));
      }
      cache := cache[groupKey := Entry(StoredGroup(paramMap), expiry)];
      return Success(paramMap);
    }
  }

  // ---------------------------------------------------------------------------------------------
  // Properties relating several calls

  /**
   * Cache-hit fidelity: once a string accessor has returned a value, any string accessor on the
   * same key (with any expiry, decryption flag, expected type or remote answer) returns that same
   * raw value, with no remote call and no change to the cache, until the key is purged or lapses.
   */
  lemma StringHitReturnsStoredValue(
    c0: map<string, Entry>, c1: map<string, Entry>, c2: map<string, Entry>,
    l0: seq<Call>, l1: seq<Call>, l2: seq<Call>,
    name: string, expiry1: Duration, decrypt1: bool, expected1: string, svc1: Service, r1: Result<string, Error>,
    expiry2: Duration, decrypt2: bool, expected2: string, svc2: Service, r2: Result<string, Error>)
    requires StringAccess(c0, c1, l0, l1, name, expiry1, decrypt1, expected1, svc1, (s: string) => s, r1)
    requires StringAccess(c1, c2, l1, l2, name, expiry2, decrypt2, expected2, svc2, (s: string) => s, r2)
    requires r1.Success?
    ensures r2 == r1 && c2 == c1 && l2 == l1
  {
  }

  /** Purge makes the next lookup of the key a miss: it consults the remote again. */
  lemma PurgedKeyIsFetchedAgain<T>(
    c0: map<string, Entry>, c1: map<string, Entry>, l0: seq<Call>, l1: seq<Call>,
    name: string, expiry: Duration, decrypt: bool, expected: string,
    svc: Service, decode: string -> T, r: Result<T, Error>)
    requires StringAccess(c0 - {name}, c1, l0, l1, name, expiry, decrypt, expected, svc, decode, r)
    ensures l1 == l0 + [GetParameterCall(name, decrypt)]
  {
  }

  /** Cross-accessor isolation: after a group is cached under `key`, a string accessor on `key` fails. */
  lemma GroupKeyFailsStringAccess<T>(
    c0: map<string, Entry>, c1: map<string, Entry>, c2: map<string, Entry>,
    l0: seq<Call>, l1: seq<Call>, l2: seq<Call>,
    key: string, path: string, expiry: Duration, svc: Service, g: Result<map<string, string>, Error>,
    expiry2: Duration, decrypt: bool, expected: string, svc2: Service, decode: string -> T, r: Result<T, Error>)
    requires GroupAccess(c0, c1, l0, l1, key, path, expiry, svc, g)
    requires g.Success?
    requires StringAccess(c1, c2, l1, l2, key, expiry2, decrypt, expected, svc2, decode, r)
    ensures r == Failure(CacheTypeAssertion(key, StringType)) && c2 == c1 && l2 == l1
  {
  }

  /**
   * A successful list lookup never returns the empty list, since a comma split has at least one
   * piece; so the stub's empty answer is never what the list accessor would give.
   */
  lemma ListLookupNeverEmpty(
    c0: map<string, Entry>, c1: map<string, Entry>, l0: seq<Call>, l1: seq<Call>,
    name: string, expiry: Duration, svc: Service, r: Result<seq<string>, Error>)
    requires StringAccess(c0, c1, l0, l1, name, expiry, false, ParameterTypeStringList, svc, Strings.Split, r)
    requires r.Success?
    ensures r.value != []
  {
  }

  /** No cache this code builds ever yields a ParameterGroup on a hit: every group hit fails. */
  lemma GroupHitNeverSucceeds(cache: map<string, Entry>, key: string)
    requires OnlyStoredShapes(cache)
    requires key in cache
    ensures GroupHit(cache[key].value, key) == Failure(CacheTypeAssertion(key, ParameterGroupType))
  {
  }

  /**
   * As written: a second group call on a key that the first call stored fails with a type
   * assertion error, since the stored value is an untyped map.
   */
  lemma GroupSecondCallFails(
    c0: map<string, Entry>, c1: map<string, Entry>, c2: map<string, Entry>,
    l0: seq<Call>, l1: seq<Call>, l2: seq<Call>,
    key: string, path1: string, expiry1: Duration, svc1: Service, r1: Result<map<string, string>, Error>,
    path2: string, expiry2: Duration, svc2: Service, r2: Result<map<string, string>, Error>)
    requires key !in c0
    requires GroupAccess(c0, c1, l0, l1, key, path1, expiry1, svc1, r1)
    requires r1.Success?
    requires GroupAccess(c1, c2, l1, l2, key, path2, expiry2, svc2, r2)
    ensures r2 == Failure(CacheTypeAssertion(key, ParameterGroupType))
  {
  }

  /**
   * As intended: when a successful miss stores a ParameterGroup, the next group call on the same
   * key returns the same map, makes no remote call and leaves the cache unchanged.
   */
  lemma GroupSecondCallIntended(
    c0: map<string, Entry>, c1: map<string, Entry>, c2: map<string, Entry>,
    l0: seq<Call>, l1: seq<Call>, l2: seq<Call>,
    key: string, path1: string, expiry1: Duration, svc1: Service, r1: Result<map<string, string>, Error>,
    path2: string, expiry2: Duration, svc2: Service, r2: Result<map<string, string>, Error>)
    requires key !in c0
    requires GroupAccessStoring(c0, c1, l0, l1, key, path1, expiry1, svc1, StoredGroupIntended, r1)
    requires r1.Success?
    requires GroupAccessStoring(c1, c2, l1, l2, key, path2, expiry2, svc2, StoredGroupIntended, r2)
    ensures r2 == r1 && c2 == c1 && l2 == l1
  {
  }
}
