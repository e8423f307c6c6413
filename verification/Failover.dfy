/** Remote-document resolution with failover: the one algorithm that both
    ConfigFetcher.Config and TagsFetcher.Tags run, written once over the
    document type D.

    The outside world enters as explicit inputs:
    - whether the Consul client could be built,
    - the outcome of the catalog lookup (its instances and whether it erred),
    - a fetch oracle: fetch(i, url) is what GETting url from the i-th
      catalog instance and unmarshalling its body produced.
    The result is the outcome (a fatal panic message or a document) and the
    URLs contacted, in order. */
module Failover {
  import opened Optional
  import GoStrings

  /** One entry of the catalog answer: the instance's address and port. */
  datatype Instance = Instance(address: string, servicePort: int)

  /** Where to fetch from and whether failing to do so aborts the process:
      the ServiceName, Path and IsFatal of a TagsOrigin or ConfigOrigin. */
  datatype Origin = Origin(serviceName: string, path: string, isFatal: bool)

  /** What Catalog.Service returned: the instances and whether it erred. */
  datatype Lookup = Lookup(instances: seq<Instance>, failed: bool)

  /** What happened at one instance: the GET failed, the body did not
      unmarshal, or it gave a document. */
  datatype Attempt<D> = FetchErr | ParseErr | Parsed(doc: D)

  /** A panic with its message, or the returned document. */
  datatype Outcome<D> = Fatal(message: string) | Doc(doc: D)

  /** The outcome together with the URLs contacted, in order. */
  datatype Resolution<D> = Resolution(outcome: Outcome<D>, contacted: seq<string>)

  /** The instance loop's result: the first document found, if any, and the
      URLs it contacted. */
  datatype Walked<D> = Walked(found: Option<D>, contacted: seq<string>)

  const ClientFailure := "Unable to connect to consul"
  const CatalogFailure := "Unable to get catalog"

  function NoServiceMessage(serviceName: string): string
  {
    "No service [" + serviceName + "] available"
  }

  /** The URL fetched from an instance: http://address:port/path. */
  function Url(inst: Instance, path: string): string
  {
    "http://" + inst.address + ":" + GoStrings.Itoa(inst.servicePort) + "/" + path
  }

  /** Where each part of "http://address:port/path" sits. */
  lemma UrlLayout(address: string, port: string, path: string)
    ensures var u := "http://" + address + ":" + port + "/" + path;
            var a := |address|;
            var p := |port|;
            && |u| == 9 + a + p + |path|
            && u[..7] == "http://"
            && u[7..7 + a] == address
            && u[7 + a] == ':'
            && u[8 + a..8 + a + p] == port
            && u[8 + a + p] == '/'
            && u[9 + a + p..] == path
  {
  }

  /** The URL is made of the scheme, the address, a colon, a port that
      strconv reads back as the instance's port, a slash and the path. */
  lemma UrlParts(inst: Instance, path: string)
    requires GoStrings.MinInt32 <= inst.servicePort <= GoStrings.MaxInt32
    ensures var u := Url(inst, path);
            var a := |inst.address|;
            var p := |GoStrings.Itoa(inst.servicePort)|;
            && |u| == 9 + a + p + |path|
            && u[..7] == "http://"
            && u[7..7 + a] == inst.address
            && u[7 + a] == ':'
            && u[8 + a..8 + a + p] == GoStrings.Itoa(inst.servicePort)
            && GoStrings.ParseInt32(GoStrings.Itoa(inst.servicePort)) == GoStrings.Parsed(inst.servicePort, GoStrings.NoError)
            && u[8 + a + p] == '/'
            && u[9 + a + p..] == path
  {
    UrlLayout(inst.address, GoStrings.Itoa(inst.servicePort), path);
    GoStrings.ParseInt32Itoa(inst.servicePort);
  }

  /** The URLs of the catalog's instances, in catalog order. */
  function CatalogUrls(insts: seq<Instance>, path: string): (urls: seq<string>)
    ensures |urls| == |insts|
    ensures forall j :: 0 <= j < |insts| ==> urls[j] == Url(insts[j], path)
  {
    seq(|insts|, j requires 0 <= j < |insts| => Url(insts[j], path))
  }

  /** No URL in lo .. hi-1 gave a document. */
  predicate NoneParsed<D>(urls: seq<string>, fetch: (nat, string) -> Attempt<D>, lo: nat, hi: nat)
    requires lo <= hi <= |urls|
  {
    forall j :: lo <= j < hi ==> !fetch(j, urls[j]).Parsed?
  }

  /** The instance loop from position i: contact each URL in catalog
      order, skip a fetch or unmarshal failure, stop at the first document.
      What it contacts is a run of consecutive catalog URLs from i. */
  function Walk<D>(urls: seq<string>, fetch: (nat, string) -> Attempt<D>, i: nat): (w: Walked<D>)
    requires i <= |urls|
    ensures i + |w.contacted| <= |urls|
    ensures w.contacted == urls[i..i + |w.contacted|]
    decreases |urls| - i
  {
    if i == |urls| then Walked(None, [])
    else
      var a := fetch(i, urls[i]);
      if a.Parsed? then Walked(Some(a.doc), [urls[i]])
      else
        var rest := Walk(urls, fetch, i + 1);
        assert urls[i..i + 1 + |rest.contacted|] == [urls[i]] + urls[i + 1..i + 1 + |rest.contacted|];
        Walked(rest.found, [urls[i]] + rest.contacted)
  }

  /** The walk finds nothing exactly when no URL from i on gives a
      document, and then it has contacted all of them. */
  lemma {:induction false} WalkFindsNothing<D>(urls: seq<string>, fetch: (nat, string) -> Attempt<D>, i: nat)
    requires i <= |urls|
    ensures var w := Walk(urls, fetch, i);
            && (w.found.None? <==> NoneParsed(urls, fetch, i, |urls|))
            && (w.found.None? ==> i + |w.contacted| == |urls|)
    decreases |urls| - i
  {
    if i < |urls| {
      var w := Walk(urls, fetch, i);
      if fetch(i, urls[i]).Parsed? {
        assert w.found.Some?;
      } else {
        var rest := Walk(urls, fetch, i + 1);
        WalkFindsNothing(urls, fetch, i + 1);
        assert w == Walked(rest.found, [urls[i]] + rest.contacted);
        assert NoneParsed(urls, fetch, i, |urls|) == NoneParsed(urls, fetch, i + 1, |urls|);
      }
    }
  }

  /** If URL k is the first from i on to give a document, the walk returns
      that document after contacting exactly the URLs i .. k. */
  lemma {:induction false} WalkStopsAt<D>(urls: seq<string>, fetch: (nat, string) -> Attempt<D>, i: nat, k: nat)
    requires i <= k < |urls| && fetch(k, urls[k]).Parsed?
    requires forall j :: i <= j < k ==> !fetch(j, urls[j]).Parsed?
    ensures Walk(urls, fetch, i) == Walked(Some(fetch(k, urls[k]).doc), urls[i..k + 1])
    decreases k - i
  {
    if i < k {
      WalkStopsAt(urls, fetch, i + 1, k);
      assert urls[i..k + 1] == [urls[i]] + urls[i + 1..k + 1];
    }
  }

  /** The whole algorithm: build the client, look the service up, apply
      the fatal policy to a lookup error and to an empty answer, walk the
      instances, and apply the policy again when every instance failed. */
  function Resolve<D>(o: Origin, clientOk: bool, lookup: Lookup, fetch: (nat, string) -> Attempt<D>,
                      empty: D, exhausted: string): (r: Resolution<D>)
    ensures !clientOk ==> r == Resolution(Fatal(ClientFailure), [])
    ensures clientOk && lookup.failed && o.isFatal ==> r == Resolution(Fatal(CatalogFailure), [])
    ensures clientOk && |lookup.instances| == 0 ==>
              r.contacted == [] && (r.outcome.Fatal? <==> o.isFatal)
    ensures clientOk && |lookup.instances| == 0 && !o.isFatal ==> r == Resolution(Doc(empty), [])
    ensures !o.isFatal ==> (r.outcome.Fatal? <==> !clientOk)
    ensures |r.contacted| <= |lookup.instances|
    ensures r.contacted == CatalogUrls(lookup.instances, o.path)[..|r.contacted|]
  {
    if !clientOk then Resolution(Fatal(ClientFailure), [])
    else if lookup.failed && o.isFatal then Resolution(Fatal(CatalogFailure), [])
    else if |lookup.instances| == 0 && o.isFatal then Resolution(Fatal(NoServiceMessage(o.serviceName)), [])
    else
      var w := Walk(CatalogUrls(lookup.instances, o.path), fetch, 0);
      if w.found.Some? then Resolution(Doc(w.found.value), w.contacted)
      else if o.isFatal then Resolution(Fatal(exhausted), w.contacted)
      else Resolution(Doc(empty), w.contacted)
  }

  /** The client and the lookup succeeded far enough for the instance loop
      to run. */
  predicate Walks(o: Origin, clientOk: bool, lookup: Lookup)
  {
    clientOk && !(lookup.failed && o.isFatal) && !(|lookup.instances| == 0 && o.isFatal)
  }

  /** What contacting the k-th catalog instance produced. */
  function AttemptAt<D>(lookup: Lookup, path: string, fetch: (nat, string) -> Attempt<D>, k: nat): Attempt<D>
    requires k < |lookup.instances|
  {
    fetch(k, Url(lookup.instances[k], path))
  }

  /** If instance k is the first whose fetch and unmarshal both succeed, the
      result is its document and exactly the instances 0 .. k were contacted,
      in catalog order. */
  lemma FirstSuccessWins<D>(o: Origin, clientOk: bool, lookup: Lookup,
                            fetch: (nat, string) -> Attempt<D>, empty: D, exhausted: string, k: nat)
    requires Walks(o, clientOk, lookup)
    requires k < |lookup.instances| && AttemptAt(lookup, o.path, fetch, k).Parsed?
    requires forall j :: 0 <= j < k ==> !AttemptAt(lookup, o.path, fetch, j).Parsed?
    ensures Resolve(o, clientOk, lookup, fetch, empty, exhausted)
            == Resolution(Doc(AttemptAt(lookup, o.path, fetch, k).doc), CatalogUrls(lookup.instances, o.path)[..k + 1])
  {
    var urls := CatalogUrls(lookup.instances, o.path);
    forall j | 0 <= j < k
      ensures !fetch(j, urls[j]).Parsed?
    {
      assert !AttemptAt(lookup, o.path, fetch, j).Parsed?;
    }
    WalkStopsAt(urls, fetch, 0, k);
    assert urls[0..k + 1] == urls[..k + 1];
  }

  /** If every instance fails, all of them were contacted in catalog order
      and the policy decides between a panic and the empty document. */
  lemma AllFailed<D>(o: Origin, clientOk: bool, lookup: Lookup,
                     fetch: (nat, string) -> Attempt<D>, empty: D, exhausted: string)
    requires Walks(o, clientOk, lookup)
    requires forall j :: 0 <= j < |lookup.instances| ==> !AttemptAt(lookup, o.path, fetch, j).Parsed?
    ensures Resolve(o, clientOk, lookup, fetch, empty, exhausted)
            == Resolution(if o.isFatal then Fatal(exhausted) else Doc(empty), CatalogUrls(lookup.instances, o.path))
  {
    var urls := CatalogUrls(lookup.instances, o.path);
    forall j | 0 <= j < |urls|
      ensures !fetch(j, urls[j]).Parsed?
    {
      assert !AttemptAt(lookup, o.path, fetch, j).Parsed?;
    }
    assert NoneParsed(urls, fetch, 0, |urls|);
    WalkFindsNothing(urls, fetch, 0);
    assert urls[0..|urls|] == urls;
  }

  /** Per-instance failures are soft whatever the policy: once some instance
      answers, the fatal flag makes no difference. */
  lemma PolicyIrrelevantOnceFound<D>(o: Origin, clientOk: bool, lookup: Lookup,
                                     fetch: (nat, string) -> Attempt<D>, empty: D, exhausted: string, k: nat)
    requires clientOk && !lookup.failed
    requires k < |lookup.instances| && AttemptAt(lookup, o.path, fetch, k).Parsed?
    ensures Resolve(o.(isFatal := true), clientOk, lookup, fetch, empty, exhausted)
            == Resolve(o.(isFatal := false), clientOk, lookup, fetch, empty, exhausted)
  {
    var urls := CatalogUrls(lookup.instances, o.path);
    assert fetch(k, urls[k]).Parsed?;
    assert !NoneParsed(urls, fetch, 0, |urls|);
    WalkFindsNothing(urls, fetch, 0);
  }

  /** The instance loop as the source writes it, over the catalog's URLs: a
      range loop with `continue` on a failed instance and `return` on the
      first document. It computes exactly what Walk does. */
  method TryInstances<D>(urls: seq<string>, fetch: (nat, string) -> Attempt<D>)
    returns (found: Option<D>, contacted: seq<string>)
    ensures Walked(found, contacted) == Walk(urls, fetch, 0)
  {
    contacted := [];
    var i := 0;
    while i < |urls|
      invariant 0 <= i <= |urls|
      invariant contacted == urls[..i]
      invariant Walk(urls, fetch, 0) == Walked(Walk(urls, fetch, i).found, contacted + Walk(urls, fetch, i).contacted)
    {
      var u := urls[i];
      var attempt := fetch(i, u);
      if attempt.Parsed? {
        return Some(attempt.doc), contacted + [u];
      }
      var next := Walk(urls, fetch, i + 1);
      assert Walk(urls, fetch, i) == Walked(next.found, [u] + next.contacted);
      assert contacted + ([u] + next.contacted) == (contacted + [u]) + next.contacted;
      assert urls[..i + 1] == contacted + [u];
      contacted := contacted + [u];
      i := i + 1;
    }
    assert contacted + [] == contacted;
    return None, contacted;
  }

  /** Resolve as the source writes it, statement by statement. */
  method ResolveLoop<D>(o: Origin, clientOk: bool, lookup: Lookup, fetch: (nat, string) -> Attempt<D>,
                        empty: D, exhausted: string) returns (outcome: Outcome<D>, contacted: seq<string>)
    ensures Resolution(outcome, contacted) == Resolve(o, clientOk, lookup, fetch, empty, exhausted)
  {
    if !clientOk {
      return Fatal(ClientFailure), [];
    }
    if lookup.failed && o.isFatal {
      return Fatal(CatalogFailure), [];
    }
    if |lookup.instances| == 0 && o.isFatal {
      return Fatal(NoServiceMessage(o.serviceName)), [];
    }
    var found;
    found, contacted := TryInstances(CatalogUrls(lookup.instances, o.path), fetch);
    if found.Some? {
      return Doc(found.value), contacted;
    }
    if o.isFatal {
      return Fatal(exhausted), contacted;
    }
    return Doc(empty), contacted;
  }
}
