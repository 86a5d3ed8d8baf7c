/**
 * Clients of SsmCacheImpl that use only its contracts: usage scenarios of the cache,
 * stated as assertions about concrete answers from the remote store.
 */
module Scenarios {
  import opened Wrappers
  import opened Ssm
  import opened SsmCache

  /** A remote store holding "/app/db-host" = "db.internal" (String), "/app/hosts" = "a,b,c" (StringList), and the subtree "/app/" in two pages. */
  function AppStore(): Service
  {
    Service(
      (name: string, withDecryption: bool) =>
        if name == "/app/db-host" then Found(ParameterTypeString, Some("db.internal"))
        else if name == "/app/hosts" then Found(ParameterTypeStringList, Some("a,b,c"))
        else if name == "/app/empty" then Found(ParameterTypeStringList, None)
        else Failed(AwsError("ParameterNotFound")),
      (path: string, recursive: bool) =>
        if path == "/app/" then
          PagesResponse([[Parameter("/app/a", Some("1"))], [Parameter("/app/b", Some("2"))]], None)
        else
          PagesResponse([[Parameter("/other/x", None)]], Some(AwsError("Throttling"))))
  }

  /** A scalar is fetched once and then served from the cache; purging it makes the next call fetch again. */
  method DbHostScenario()
  {
    var svc := AppStore();
    var client := new SsmCacheImpl();
    var first := client.GetString("/app/db-host", svc);
    assert first == Success("db.internal");
    var second := client.GetString("/app/db-host", svc);
    assert second == Success("db.internal");
    assert client.remoteCalls == [GetParameterCall("/app/db-host", false)];
    var same := client.Purge("/app/db-host");
    assert same == client && client.cache == map[];
    var third := client.GetExpiringString("/app/db-host", NoExpiration, svc);
    assert third == Success("db.internal");
    assert |client.remoteCalls| == 2;
    assert client.cache["/app/db-host"] == Entry(Str("db.internal"), NoExpiration);
  }

  /** A declared-type mismatch fails and caches nothing. */
  method MismatchScenario()
  {
    var svc := AppStore();
    var client := new SsmCacheImpl();
    var wrongKind := client.GetString("/app/hosts", svc);
    assert wrongKind == Failure(AttemptingToGet("/app/hosts",
      TypeMismatch("/app/hosts", ParameterTypeStringList, ParameterTypeString)));
    assert client.cache == map[];
  }

  /** The list accessor splits the raw value; a nil value reads as "", a list of one empty field. */
  method ListScenario()
  {
    var svc := AppStore();
    var client := new SsmCacheImpl();
    var hosts := client.GetExpiringStringList("/app/hosts", DefaultExpiration, svc);
    Strings.SplitExamples();
    assert hosts == Success(["a", "b", "c"]);
    assert client.cache["/app/hosts"].value == Str("a,b,c");
    var empty := client.GetExpiringStringList("/app/empty", DefaultExpiration, svc);
    assert empty == Success([""]);
  }

  /** Two one-parameter pages with non-nil values yield the map of both, the second written last. */
  lemma TwoPageGroupMap(a: Parameter, b: Parameter)
    requires a.value.Some? && b.value.Some?
    ensures GroupMap([[a], [b]]) == map[a.name := a.value.value, b.name := b.value.value]
  {
    var pages := [[a], [b]];
    assert pages[..1] == [[a]] && [[a]][..0] == [];
    assert Concat([[a]]) == [a];
    assert Concat(pages) == [a, b];
    assert [a, b][..1] == [a] && [a][..0] == [];
    assert Overlay(map[], [a]) == map[a.name := a.value.value];
  }

  /** The map the "/app/" subtree yields: both pages, nil-free values. */
  lemma AppGroupMap()
    ensures GroupMap(AppStore().getParametersByPathPages("/app/", true).pages) == map["/app/a" := "1", "/app/b" := "2"]
  {
    var a, b := Parameter("/app/a", Some("1")), Parameter("/app/b", Some("2"));
    assert AppStore().getParametersByPathPages("/app/", true).pages == [[a], [b]];
    TwoPageGroupMap(a, b);
  }

  /** A subtree over two pages is cached under the group key; the next call on that key fails, as written. */
  method GroupScenario()
  {
    var svc := AppStore();
    var client := new SsmCacheImpl();
    var group := client.GetParameterGroup("appcfg", "/app/", svc);
    AppGroupMap();
    assert group == Success(map["/app/a" := "1", "/app/b" := "2"]);
    assert "appcfg" in client.cache && "/app/" !in client.cache;
    var again := client.GetParameterGroup("appcfg", "/app/", svc);
    assert again == Failure(CacheTypeAssertion("appcfg", ParameterGroupType));
    var asString := client.GetString("appcfg", svc);
    assert asString == Failure(CacheTypeAssertion("appcfg", StringType));
  }

  /** A paging error stores nothing, although a page had already been delivered. */
  method BrokenGroupScenario()
  {
    var svc := AppStore();
    var client := new SsmCacheImpl();
    var broken := client.GetParameterGroup("other", "/other/", svc);
    assert broken == Failure(PagingFailed("/other/", Remote(AwsError("Throttling"))));
    assert client.cache == map[];
  }
}
