/** TagsFetcher.Tags of the first revision: the failover algorithm run for
    the tags-only document, returning the `tags` list of the first instance
    that answers, or the empty list when the policy is soft. */
module TagsFetcher {
  import opened Failover
  import Configuration

  const NoTags := "No tags available"

  /** The resolution policy a TagsOrigin describes. */
  function OriginOf(to: Configuration.TagsOrigin): Origin
  {
    Origin(to.serviceName, to.path, to.isFatal)
  }

  /** TagsFetcher.Tags: a panic message, or the tags to register with. */
  function Tags(to: Configuration.TagsOrigin, clientOk: bool, lookup: Lookup,
                fetch: (nat, string) -> Attempt<Configuration.FetchedTags>): (r: Resolution<seq<string>>)
    ensures !clientOk ==> r == Resolution(Fatal(ClientFailure), [])
    ensures !to.isFatal ==> (r.outcome.Fatal? <==> !clientOk)
    ensures clientOk && lookup.failed && to.isFatal ==> r == Resolution(Fatal(CatalogFailure), [])
    ensures clientOk && |lookup.instances| == 0 ==> r.contacted == [] && (r.outcome.Fatal? <==> to.isFatal)
    ensures clientOk && |lookup.instances| == 0 && !to.isFatal ==> r.outcome == Doc([])
    ensures |r.contacted| <= |lookup.instances|
    ensures r.contacted == CatalogUrls(lookup.instances, to.path)[..|r.contacted|]
  {
    var res := Resolve(OriginOf(to), clientOk, lookup, fetch, Configuration.FetchedTags([]), NoTags);
    match res.outcome
    case Fatal(m) => Resolution(Fatal(m), res.contacted)
    case Doc(t) => Resolution(Doc(t.tags), res.contacted)
  }

  /** The tags of the first instance that answers are returned, and no later
      instance is contacted. */
  lemma TagsFromFirstAnswer(to: Configuration.TagsOrigin, clientOk: bool, lookup: Lookup,
                            fetch: (nat, string) -> Attempt<Configuration.FetchedTags>, k: nat)
    requires Walks(OriginOf(to), clientOk, lookup)
    requires k < |lookup.instances| && AttemptAt(lookup, to.path, fetch, k).Parsed?
    requires forall j :: 0 <= j < k ==> !AttemptAt(lookup, to.path, fetch, j).Parsed?
    ensures Tags(to, clientOk, lookup, fetch)
            == Resolution(Doc(AttemptAt(lookup, to.path, fetch, k).doc.tags), CatalogUrls(lookup.instances, to.path)[..k + 1])
  {
    FirstSuccessWins(OriginOf(to), clientOk, lookup, fetch, Configuration.FetchedTags([]), NoTags, k);
  }

  /** When every instance fails, all were contacted and the result is a
      panic if the origin is fatal and the empty list otherwise. */
  lemma TagsWhenAllFail(to: Configuration.TagsOrigin, clientOk: bool, lookup: Lookup,
                        fetch: (nat, string) -> Attempt<Configuration.FetchedTags>)
    requires Walks(OriginOf(to), clientOk, lookup)
    requires forall j :: 0 <= j < |lookup.instances| ==> !AttemptAt(lookup, to.path, fetch, j).Parsed?
    ensures Tags(to, clientOk, lookup, fetch)
            == Resolution(if to.isFatal then Fatal(NoTags) else Doc([]), CatalogUrls(lookup.instances, to.path))
  {
    AllFailed(OriginOf(to), clientOk, lookup, fetch, Configuration.FetchedTags([]), NoTags);
  }
}
