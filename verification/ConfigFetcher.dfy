/** ConfigFetcher.Config of the second revision: the failover algorithm run
    for the full remote configuration (tags and proxies), returning the
    empty RemoteConfig when the policy is soft and nothing answers. */
module ConfigFetcher {
  import opened Failover
  import opened Types

  const NoConfig := "No config available"

  /** The resolution policy a ConfigOrigin describes. */
  function OriginOf(co: ConfigOrigin): Origin
  {
    Origin(co.serviceName, co.path, co.isFatal)
  }

  /** ConfigFetcher.Config: a panic message, or the remote configuration. */
  function Config(co: ConfigOrigin, clientOk: bool, lookup: Lookup,
                  fetch: (nat, string) -> Attempt<RemoteConfig>): (r: Resolution<RemoteConfig>)
    ensures !clientOk ==> r == Resolution(Fatal(ClientFailure), [])
    ensures !co.isFatal ==> (r.outcome.Fatal? <==> !clientOk)
    ensures clientOk && lookup.failed && co.isFatal ==> r == Resolution(Fatal(CatalogFailure), [])
    ensures clientOk && |lookup.instances| == 0 ==> r.contacted == [] && (r.outcome.Fatal? <==> co.isFatal)
    ensures clientOk && |lookup.instances| == 0 && !co.isFatal ==> r.outcome == Doc(EmptyRemoteConfig)
    ensures |r.contacted| <= |lookup.instances|
    ensures r.contacted == CatalogUrls(lookup.instances, co.path)[..|r.contacted|]
  {
    Resolve(OriginOf(co), clientOk, lookup, fetch, EmptyRemoteConfig, NoConfig)
  }

  /** The configuration of the first instance that answers is returned, and
      no later instance is contacted. */
  lemma ConfigFromFirstAnswer(co: ConfigOrigin, clientOk: bool, lookup: Lookup,
                              fetch: (nat, string) -> Attempt<RemoteConfig>, k: nat)
    requires Walks(OriginOf(co), clientOk, lookup)
    requires k < |lookup.instances| && AttemptAt(lookup, co.path, fetch, k).Parsed?
    requires forall j :: 0 <= j < k ==> !AttemptAt(lookup, co.path, fetch, j).Parsed?
    ensures Config(co, clientOk, lookup, fetch)
            == Resolution(Doc(AttemptAt(lookup, co.path, fetch, k).doc), CatalogUrls(lookup.instances, co.path)[..k + 1])
  {
    FirstSuccessWins(OriginOf(co), clientOk, lookup, fetch, EmptyRemoteConfig, NoConfig, k);
  }

  /** When every instance fails, all were contacted and the result is a
      panic if the origin is fatal and the empty configuration otherwise. */
  lemma ConfigWhenAllFail(co: ConfigOrigin, clientOk: bool, lookup: Lookup,
                          fetch: (nat, string) -> Attempt<RemoteConfig>)
    requires Walks(OriginOf(co), clientOk, lookup)
    requires forall j :: 0 <= j < |lookup.instances| ==> !AttemptAt(lookup, co.path, fetch, j).Parsed?
    ensures Config(co, clientOk, lookup, fetch)
            == Resolution(if co.isFatal then Fatal(NoConfig) else Doc(EmptyRemoteConfig), CatalogUrls(lookup.instances, co.path))
  {
    AllFailed(OriginOf(co), clientOk, lookup, fetch, EmptyRemoteConfig, NoConfig);
  }
}
