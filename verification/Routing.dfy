/** The tunnel routes, and their agreement with the outbound filter
    (auth.go:93-96, tunnel_config.go:82-98, session.go:129-132). */
module Routing {
  import opened Netip
  import opened Sorting
  import opened RouteMerge
  import opened Resources
  import opened DnsHosts
  import opened ResourceFilter

  /** The table lists the address under some name. */
  ghost predicate Hosted(hosts: seq<DnsHost>, a: Addr) {
    exists d :: Listed(hosts, d, a)
  }

  /** Everything `buildTunnelConfiguration` puts in front of the merge. */
  ghost predicate Routed(resources: seq<Resource>, hosts: seq<DnsHost>, dns: seq<Addr>, a: Addr) {
    || Permitted(resources, a, 0)
    || (a != NoAddr && Hosted(hosts, a))
    || (a != NoAddr && a in dns)
  }

  lemma CoveredConcat(ps: seq<Prefix>, qs: seq<Prefix>, a: Addr)
    ensures Covered(ps + qs, a) <==> Covered(ps, a) || Covered(qs, a)
  {
    forall i | 0 <= i < |ps| && ps[i].Contains(a) ensures Covered(ps + qs, a) {
      assert (ps + qs)[i] == ps[i];
    }
    forall i | 0 <= i < |qs| && qs[i].Contains(a) ensures Covered(ps + qs, a) {
      assert (ps + qs)[|ps| + i] == qs[i];
    }
  }

  // The prefixes in front of the merge, one by one.

  ghost predicate EntriesHave(es: seq<ResourceEntry>, p: Prefix) {
    exists j :: 0 <= j < |es| && p in es[j].prefixes
  }

  ghost predicate ResourcesHave(rs: seq<Resource>, p: Prefix) {
    exists i :: 0 <= i < |rs| && EntriesHave(rs[i].entries, p)
  }

  ghost predicate HostsHave(hosts: seq<DnsHost>, p: Prefix) {
    exists i, a :: 0 <= i < |hosts| && a in hosts[i].addresses && p == Single(a)
  }

  ghost predicate AddressesHave(addresses: seq<Addr>, p: Prefix) {
    exists a :: a in addresses && p == Single(a)
  }

  ghost predicate RouteInput(resources: seq<Resource>, hosts: seq<DnsHost>, dns: seq<Addr>, p: Prefix) {
    ResourcesHave(resources, p) || HostsHave(hosts, p) || AddressesHave(dns, p)
  }

  lemma EntriesHaveAppend(es: seq<ResourceEntry>, e: ResourceEntry, p: Prefix)
    ensures EntriesHave(es + [e], p) <==> EntriesHave(es, p) || p in e.prefixes
  {
    forall j | 0 <= j < |es| && p in es[j].prefixes ensures EntriesHave(es + [e], p) {
      assert (es + [e])[j] == es[j];
    }
    if p in e.prefixes {
      assert (es + [e])[|es|] == e;
    }
  }

  lemma ResourcesHaveAppend(rs: seq<Resource>, r: Resource, p: Prefix)
    ensures ResourcesHave(rs + [r], p) <==> ResourcesHave(rs, p) || EntriesHave(r.entries, p)
  {
    forall i | 0 <= i < |rs| && EntriesHave(rs[i].entries, p) ensures ResourcesHave(rs + [r], p) {
      assert (rs + [r])[i] == rs[i];
    }
    if EntriesHave(r.entries, p) {
      assert (rs + [r])[|rs|] == r;
    }
  }

  lemma HostsHaveAppend(hosts: seq<DnsHost>, h: DnsHost, p: Prefix)
    ensures HostsHave(hosts + [h], p) <==> HostsHave(hosts, p) || AddressesHave(h.addresses, p)
  {
    forall i, a | 0 <= i < |hosts| && a in hosts[i].addresses && p == Single(a) ensures HostsHave(hosts + [h], p) {
      assert (hosts + [h])[i] == hosts[i];
    }
    if AddressesHave(h.addresses, p) {
      assert (hosts + [h])[|hosts|] == h;
    }
  }

  /** `Resource.Prefixes` (resource.go:43-47). */
  method ResourcePrefixes(r: Resource) returns (prefixes: seq<Prefix>)
    ensures forall a :: Covered(prefixes, a) <==> EntriesPermit(r.entries, a, 0)
    ensures forall p :: p in prefixes <==> EntriesHave(r.entries, p)
  {
    prefixes := [];
    for j := 0 to |r.entries|
      invariant forall a :: Covered(prefixes, a) <==> EntriesPermit(r.entries[..j], a, 0)
      invariant forall p :: p in prefixes <==> EntriesHave(r.entries[..j], p)
    {
      assert r.entries[..j + 1] == r.entries[..j] + [r.entries[j]];
      forall p ensures p in prefixes + r.entries[j].prefixes <==> EntriesHave(r.entries[..j + 1], p) {
        EntriesHaveAppend(r.entries[..j], r.entries[j], p);
      }
      forall a ensures Covered(prefixes + r.entries[j].prefixes, a) <==> EntriesPermit(r.entries[..j + 1], a, 0) {
        CoveredConcat(prefixes, r.entries[j].prefixes, a);
        EntriesPermitAppend(r.entries[..j], r.entries[j], a, 0);
      }
      prefixes := prefixes + r.entries[j].prefixes;
    }
    assert r.entries[..|r.entries|] == r.entries;
  }

  /** One single-address prefix per address. */
  method Singles(addresses: seq<Addr>) returns (prefixes: seq<Prefix>)
    ensures forall a :: Covered(prefixes, a) <==> a != NoAddr && a in addresses
    ensures forall p :: p in prefixes <==> AddressesHave(addresses, p)
  {
    prefixes := [];
    for i := 0 to |addresses|
      invariant forall a :: Covered(prefixes, a) <==> a != NoAddr && a in addresses[..i]
      invariant forall p :: p in prefixes <==> AddressesHave(addresses[..i], p)
    {
      assert addresses[..i + 1] == addresses[..i] + [addresses[i]];
      forall a ensures Covered(prefixes + [Single(addresses[i])], a) <==> a != NoAddr && a in addresses[..i + 1] {
        CoveredAppend(prefixes, Single(addresses[i]), a);
        SingleContains(addresses[i], a);
      }
      prefixes := prefixes + [Single(addresses[i])];
    }
    assert addresses[..|addresses|] == addresses;
  }

  /** The host loop over addresses (tunnel_config.go:87-92). */
  method HostPrefixes(hosts: seq<DnsHost>) returns (prefixes: seq<Prefix>)
    ensures forall a :: Covered(prefixes, a) <==> a != NoAddr && Hosted(hosts, a)
    ensures forall p :: p in prefixes <==> HostsHave(hosts, p)
  {
    prefixes := [];
    for i := 0 to |hosts|
      invariant forall a :: Covered(prefixes, a) <==> a != NoAddr && Hosted(hosts[..i], a)
      invariant forall p :: p in prefixes <==> HostsHave(hosts[..i], p)
    {
      var singles := Singles(hosts[i].addresses);
      assert hosts[..i + 1] == hosts[..i] + [hosts[i]];
      ListedAppend(hosts[..i], hosts[i]);
      forall p ensures p in prefixes + singles <==> HostsHave(hosts[..i + 1], p) {
        HostsHaveAppend(hosts[..i], hosts[i], p);
      }
      forall a ensures Covered(prefixes + singles, a) <==> a != NoAddr && Hosted(hosts[..i + 1], a) {
        CoveredConcat(prefixes, singles, a);
        if a != NoAddr && a in hosts[i].addresses {
          assert Listed(hosts[..i + 1], hosts[i].domain, a);
        }
      }
      prefixes := prefixes + singles;
    }
    assert hosts[..|hosts|] == hosts;
  }

  /** The resource loop (tunnel_config.go:83-86). */
  method ResourcesPrefixes(resources: seq<Resource>) returns (prefixes: seq<Prefix>)
    ensures forall a :: Covered(prefixes, a) <==> Permitted(resources, a, 0)
    ensures forall p :: p in prefixes <==> ResourcesHave(resources, p)
  {
    prefixes := [];
    for i := 0 to |resources|
      invariant forall a :: Covered(prefixes, a) <==> Permitted(resources[..i], a, 0)
      invariant forall p :: p in prefixes <==> ResourcesHave(resources[..i], p)
    {
      var ps := ResourcePrefixes(resources[i]);
      assert resources[..i + 1] == resources[..i] + [resources[i]];
      forall a ensures Covered(prefixes + ps, a) <==> Permitted(resources[..i + 1], a, 0) {
        CoveredConcat(prefixes, ps, a);
        PermittedAppend(resources[..i], resources[i], a, 0);
      }
      forall p ensures p in prefixes + ps <==> ResourcesHave(resources[..i + 1], p) {
        ResourcesHaveAppend(resources[..i], resources[i], p);
      }
      prefixes := prefixes + ps;
    }
    assert resources[..|resources|] == resources;
  }

  /** Every published prefix has its host bits clear, as those of the resource parser do. */
  ghost predicate ResourcesMasked(resources: seq<Resource>) {
    forall p :: ResourcesHave(resources, p) && p.IsValid() ==> p.Masked() == p
  }

  /** A valid input that no other input encloses. */
  ghost predicate Outermost(resources: seq<Resource>, hosts: seq<DnsHost>, dns: seq<Addr>, p: Prefix) {
    && RouteInput(resources, hosts, dns, p) && p.IsValid()
    && forall q :: RouteInput(resources, hosts, dns, q) && q.Encloses(p) ==> q == p
  }

  /** The routes are the outermost inputs, each once, strictly ascending and pairwise disjoint. */
  ghost predicate OutermostRoutes(resources: seq<Resource>, hosts: seq<DnsHost>, dns: seq<Addr>, routes: seq<Prefix>) {
    && StrictlyAscending(routes) && Disjoint(routes)
    && forall p :: p in routes <==> Outermost(resources, hosts, dns, p)
  }

  /** The prefixes are exactly the inputs of the merge. */
  ghost predicate AreInputs(resources: seq<Resource>, hosts: seq<DnsHost>, dns: seq<Addr>, prefixes: seq<Prefix>) {
    forall p :: p in prefixes <==> RouteInput(resources, hosts, dns, p)
  }

  lemma InputsMasked(resources: seq<Resource>, hosts: seq<DnsHost>, dns: seq<Addr>, prefixes: seq<Prefix>)
    requires ResourcesMasked(resources) && AreInputs(resources, hosts, dns, prefixes)
    ensures AllMasked(prefixes)
  {
    forall i | 0 <= i < |prefixes| && prefixes[i].IsValid() ensures prefixes[i].Masked() == prefixes[i] {
      assert prefixes[i] in prefixes;
      SingleMasked(prefixes[i].addr);
    }
  }

  lemma InputsOutermost(
    resources: seq<Resource>, hosts: seq<DnsHost>, dns: seq<Addr>, prefixes: seq<Prefix>, routes: seq<Prefix>)
    requires AreInputs(resources, hosts, dns, prefixes) && IsMaximalPart(prefixes, routes)
    ensures OutermostRoutes(resources, hosts, dns, routes)
  {
    forall p ensures p in routes <==> Outermost(resources, hosts, dns, p) {
      if Maximal(prefixes, p) {
        forall q | RouteInput(resources, hosts, dns, q) && q.Encloses(p) ensures q == p {
          assert q in prefixes;
        }
      } else if p.IsValid() {
        var i :| 0 <= i < |prefixes| && prefixes[i].Encloses(p) && prefixes[i] != p;
        assert prefixes[i] in prefixes;
      }
    }
  }

  /** The route part of `buildTunnelConfiguration` (tunnel_config.go:82-98). */
  method BuildRoutes(resources: seq<Resource>, hosts: seq<DnsHost>, dns: seq<Addr>) returns (routes: seq<Prefix>)
    ensures forall a :: Covered(routes, a) <==> Routed(resources, hosts, dns, a)
    ensures exists sorted ::
              Sorted(sorted) && AreInputs(resources, hosts, dns, sorted) && routes == MergeSorted(sorted)
    ensures ResourcesMasked(resources) ==> OutermostRoutes(resources, hosts, dns, routes)
  {
    var published := ResourcesPrefixes(resources);
    var hosted := HostPrefixes(hosts);
    var servers := Singles(dns);
    ghost var prefixes := published + hosted + servers;
    forall a ensures Covered(prefixes, a) <==> Routed(resources, hosts, dns, a) {
      CoveredConcat(published, hosted, a);
      CoveredConcat(published + hosted, servers, a);
    }
    routes := MergePrefixes(published + hosted + servers);
    assert AreInputs(resources, hosts, dns, prefixes);
    ghost var sorted :| Sorted(sorted) && multiset(sorted) == multiset(prefixes) && routes == MergeSorted(sorted);
    SameElements(sorted, prefixes);
    assert AreInputs(resources, hosts, dns, sorted);
    if ResourcesMasked(resources) {
      InputsMasked(resources, hosts, dns, prefixes);
      InputsOutermost(resources, hosts, dns, prefixes, routes);
    }
  }

  // ------------------------------------------------- the host table keeps prefixes masked

  lemma SingleMasked(a: Addr)
    ensures a != NoAddr ==> Single(a).IsValid() && Single(a).Masked() == Single(a)
  {}

  lemma OpenEntriesHave(es: seq<ResourceEntry>, record: DnsRecord, p: Prefix)
    ensures EntriesHave(OpenEntries(es, record), p) <==> EntriesHave(es, p) || p == Single(record.address)
  {
    var os := OpenEntries(es, record);
    forall j | 0 <= j < |es| && p in es[j].prefixes ensures EntriesHave(os, p) {
      assert p in os[j].prefixes;
    }
    if p == Single(record.address) {
      if AnyMatches(es, record) {
        var j :| 0 <= j < |es| && Matches(es[j], record);
        assert p in os[j].prefixes;
      } else {
        assert p in os[|es|].prefixes;
      }
    }
  }

  lemma ApplyHas(st: State, record: DnsRecord, p: Prefix)
    requires Indexed(st)
    ensures ResourcesHave(ApplyRecord(st, record).resources, p) <==>
            ResourcesHave(st.resources, p) || p == Single(record.address)
  {
    var rs, rs' := st.resources, ApplyRecord(st, record).resources;
    if record.resourceID in st.byID {
      var index := st.byID[record.resourceID];
      OpenEntriesHave(rs[index].entries, record, p);
      forall i | 0 <= i < |rs| && EntriesHave(rs[i].entries, p) ensures ResourcesHave(rs', p) {
        assert EntriesHave(rs'[i].entries, p);
      }
      if p == Single(record.address) {
        assert EntriesHave(rs'[index].entries, p);
      }
    } else {
      var added := Resource(record.resourceID, "", [NewEntry(record)]);
      ResourcesHaveAppend(rs, added, p);
      assert EntriesHave(added.entries, p) <==> p in added.entries[0].prefixes;
    }
  }

  /** Some of the first n records has this single address. */
  ghost predicate RecordsHave(records: seq<DnsRecord>, n: nat, p: Prefix)
    requires n <= |records|
  {
    exists k :: 0 <= k < n && p == Single(records[k].address)
  }

  lemma RecordsHaveMore(records: seq<DnsRecord>, n: nat, p: Prefix)
    requires n < |records|
    ensures RecordsHave(records, n + 1, p) <==> RecordsHave(records, n, p) || p == Single(records[n].address)
  {}

  lemma TurnHas(st: State, records: seq<DnsRecord>, n: nat, p: Prefix)
    requires Indexed(st) && n < |records|
    requires ResourcesHave(After(st, records, n).resources, p) <==>
             ResourcesHave(st.resources, p) || RecordsHave(records, n, p)
    ensures ResourcesHave(After(st, records, n + 1).resources, p) <==>
            ResourcesHave(st.resources, p) || RecordsHave(records, n + 1, p)
  {
    RecordsHaveMore(records, n, p);
    ApplyHas(After(st, records, n), records[n], p);
  }

  lemma {:induction false} AfterHas(st: State, records: seq<DnsRecord>, n: nat, p: Prefix)
    requires Indexed(st) && n <= |records|
    ensures ResourcesHave(After(st, records, n).resources, p) <==>
            ResourcesHave(st.resources, p) || RecordsHave(records, n, p)
  {
    if n != 0 {
      AfterHas(st, records, n - 1, p);
      TurnHas(st, records, n - 1, p);
    }
  }

  /** The host table adds exactly the record addresses to the published prefixes. */
  lemma AppliedHas(published: seq<Resource>, records: seq<DnsRecord>, p: Prefix)
    ensures ResourcesHave(Applied(published, records), p) <==>
            ResourcesHave(published, p) || RecordsHave(records, |records|, p)
  {
    IndexIDsIndexed(published);
    AfterHas(State(published, IndexIDs(published)), records, |records|, p);
  }

  lemma AppliedMasked(published: seq<Resource>, records: seq<DnsRecord>)
    requires ResourcesMasked(published)
    ensures ResourcesMasked(Applied(published, records))
  {
    forall p | ResourcesHave(Applied(published, records), p) && p.IsValid() ensures p.Masked() == p {
      AppliedHas(published, records, p);
      SingleMasked(p.addr);
    }
  }

  /** The host routes add nothing: every listed address is already opened in the resources. */
  lemma HostsAreOpened(published: seq<Resource>, records: seq<DnsRecord>, hosts: seq<DnsHost>, d: string, a: Addr)
    requires AllAddressed(records) && Listed(hosts, d, a)
    requires forall e, b :: Listed(hosts, e, b) <==> Recorded(records, e, b)
    ensures Permitted(Applied(published, records), a, 0)
  {
    assert Recorded(records, d, a);
    AppliedOnlyOpens(published, records, a, 0);
  }

  /** A permission on some port is a permission of portless datagrams. */
  lemma PermittedAnyPort(resources: seq<Resource>, a: Addr, port: Uint16)
    requires Permitted(resources, a, port)
    ensures Permitted(resources, a, 0)
  {
    var i :| 0 <= i < |resources| && EntriesPermit(resources[i].entries, a, port);
    var j :| 0 <= j < |resources[i].entries| && EntryPermits(resources[i].entries[j], a, port);
    assert EntryPermits(resources[i].entries[j], a, 0);
    assert EntriesPermit(resources[i].entries, a, 0);
  }

  /** What is routed into the tunnel is what the filter publishes, for the resources and hosts
      that authentication derives from one record list. */
  lemma RoutedIffPublished(
    published: seq<Resource>, records: seq<DnsRecord>, hosts: seq<DnsHost>, dns: seq<Addr>, a: Addr, port: Uint16)
    requires AllAddressed(records)
    requires forall e, b :: Listed(hosts, e, b) <==> Recorded(records, e, b)
    ensures var resources := Applied(published, records);
            && (Routed(resources, hosts, dns, a) <==> Published(resources, dns, a, 0))
            && (Published(resources, dns, a, port) ==> Routed(resources, hosts, dns, a))
  {
    forall d | Listed(hosts, d, a) ensures Permitted(Applied(published, records), a, 0) {
      HostsAreOpened(published, records, hosts, d, a);
    }
    if Permitted(Applied(published, records), a, port) {
      PermittedAnyPort(Applied(published, records), a, port);
    }
  }

  // -------------------------------------------- from the parsed lists alone

  /** A DNS server of the session: a configured one, or a usable one the gateway publishes. */
  predicate Server(configured: seq<Addr>, published: seq<Addr>, a: Addr) {
    a in configured || (a in published && a != NoAddr && !a.IsUnspecified())
  }

  /** Some record opens the destination at its turn, starting from the published resources. */
  ghost predicate Opened(published: seq<Resource>, records: seq<DnsRecord>, a: Addr, port: Uint16) {
    IndexIDsIndexed(published);
    OpenedWithin(State(published, IndexIDs(published)), records, |records|, a, port)
  }

  lemma AppliedPermits(published: seq<Resource>, records: seq<DnsRecord>, a: Addr, port: Uint16)
    requires AllAddressed(records)
    ensures Permitted(Applied(published, records), a, port) <==>
            Permitted(published, a, port) || Opened(published, records, a, port)
  {
    IndexIDsIndexed(published);
    AfterPermits(State(published, IndexIDs(published)), records, |records|, a, port);
  }

  /** Every record opens its address to portless datagrams. */
  lemma OpenedPortless(published: seq<Resource>, records: seq<DnsRecord>, a: Addr)
    ensures Opened(published, records, a, 0) <==> exists n :: 0 <= n < |records| && records[n].address == a
  {
    IndexIDsIndexed(published);
    var st := State(published, IndexIDs(published));
    forall n | 0 <= n < |records| && records[n].address == a ensures OpensAt(st, records, n, a, 0) {}
  }

  /** The addresses a session routes. */
  ghost predicate ShouldRoute(
    published: seq<Resource>, records: seq<DnsRecord>, configuredDNS: seq<Addr>, publishedDNS: seq<Addr>, a: Addr)
  {
    || Permitted(published, a, 0)
    || (exists n :: 0 <= n < |records| && records[n].address == a)
    || (a != NoAddr && Server(configuredDNS, publishedDNS, a))
  }

  /** The destinations a session lets out. */
  ghost predicate ShouldPermit(
    published: seq<Resource>, records: seq<DnsRecord>, configuredDNS: seq<Addr>, publishedDNS: seq<Addr>,
    a: Addr, port: Uint16)
  {
    || Permitted(published, a, port)
    || Opened(published, records, a, port)
    || (a != NoAddr && Server(configuredDNS, publishedDNS, a))
  }

  /** The prefixes a session merges. */
  ghost predicate ShouldMerge(
    published: seq<Resource>, records: seq<DnsRecord>, configuredDNS: seq<Addr>, publishedDNS: seq<Addr>, p: Prefix)
  {
    || ResourcesHave(published, p)
    || RecordsHave(records, |records|, p)
    || exists a :: Server(configuredDNS, publishedDNS, a) && p == Single(a)
  }

  lemma InputsFromLists(
    published: seq<Resource>, records: seq<DnsRecord>, hosts: seq<DnsHost>, dns: seq<Addr>,
    configuredDNS: seq<Addr>, publishedDNS: seq<Addr>, p: Prefix)
    requires forall e, b :: Listed(hosts, e, b) <==> Recorded(records, e, b)
    requires forall a :: a in dns <==> Server(configuredDNS, publishedDNS, a)
    ensures RouteInput(Applied(published, records), hosts, dns, p) <==>
            ShouldMerge(published, records, configuredDNS, publishedDNS, p)
  {
    AppliedHas(published, records, p);
    forall i, a | 0 <= i < |hosts| && a in hosts[i].addresses && p == Single(a)
      ensures RecordsHave(records, |records|, p)
    {
      assert Listed(hosts, hosts[i].domain, a);
      assert Recorded(records, hosts[i].domain, a);
    }
  }

  lemma DestinationsFromLists(
    published: seq<Resource>, records: seq<DnsRecord>, hosts: seq<DnsHost>, dns: seq<Addr>,
    configuredDNS: seq<Addr>, publishedDNS: seq<Addr>, a: Addr, port: Uint16)
    requires AllAddressed(records)
    requires forall e, b :: Listed(hosts, e, b) <==> Recorded(records, e, b)
    requires forall b :: b in dns <==> Server(configuredDNS, publishedDNS, b)
    ensures Routed(Applied(published, records), hosts, dns, a) <==>
            ShouldRoute(published, records, configuredDNS, publishedDNS, a)
    ensures Published(Applied(published, records), dns, a, port) <==>
            ShouldPermit(published, records, configuredDNS, publishedDNS, a, port)
  {
    AppliedPermits(published, records, a, port);
    AppliedPermits(published, records, a, 0);
    OpenedPortless(published, records, a);
    RoutedIffPublished(published, records, hosts, dns, a, port);
  }

  /** The routes are the outermost of the prefixes merged, each once, ascending and disjoint. */
  ghost predicate OutermostMerged(
    published: seq<Resource>, records: seq<DnsRecord>, configuredDNS: seq<Addr>, publishedDNS: seq<Addr>,
    routes: seq<Prefix>)
  {
    && StrictlyAscending(routes) && Disjoint(routes)
    && forall p :: p in routes <==>
         && ShouldMerge(published, records, configuredDNS, publishedDNS, p) && p.IsValid()
         && forall q :: ShouldMerge(published, records, configuredDNS, publishedDNS, q) && q.Encloses(p) ==> q == p
  }

  lemma OutermostFromLists(
    published: seq<Resource>, records: seq<DnsRecord>, hosts: seq<DnsHost>, dns: seq<Addr>,
    configuredDNS: seq<Addr>, publishedDNS: seq<Addr>, routes: seq<Prefix>)
    requires forall e, b :: Listed(hosts, e, b) <==> Recorded(records, e, b)
    requires forall a :: a in dns <==> Server(configuredDNS, publishedDNS, a)
    requires OutermostRoutes(Applied(published, records), hosts, dns, routes)
    ensures OutermostMerged(published, records, configuredDNS, publishedDNS, routes)
  {
    forall p ensures RouteInput(Applied(published, records), hosts, dns, p) <==>
        ShouldMerge(published, records, configuredDNS, publishedDNS, p) {
      InputsFromLists(published, records, hosts, dns, configuredDNS, publishedDNS, p);
    }
  }

  /** From the parsed lists of `authenticate` to the routes and the filter of the tunnel session,
      both described by the lists alone. An address is routed exactly when it is published
      without port, a record's, or a DNS server's. A datagram is let out exactly when its
      destination is published, opened by a record on that port, or a DNS server; then it is
      routed. Masked resources give exactly the outermost prefixes, ascending without overlap. */
  method ConnectRouting(
    published: seq<Resource>, records: seq<DnsRecord>, configuredDNS: seq<Addr>, publishedDNS: seq<Addr>)
    returns (routes: seq<Prefix>, filter: Filter)
    requires AllAddressed(records)
    ensures fresh(filter) && filter.Valid()
    ensures forall a :: Covered(routes, a) <==> ShouldRoute(published, records, configuredDNS, publishedDNS, a)
    ensures forall a, port :: AnyAllows(filter.added, a, port) <==>
              ShouldPermit(published, records, configuredDNS, publishedDNS, a, port)
    ensures forall d: Datagram :: var k := DatagramDestination(d);
              k.Known? && AnyAllows(filter.added, k.addr, k.port) ==> Covered(routes, k.addr)
    ensures forall a :: Covered(routes, a) <==> AnyAllows(filter.added, a, 0)
    ensures ResourcesMasked(published) ==>
              OutermostMerged(published, records, configuredDNS, publishedDNS, routes)
  {
    var resources := ApplyDNSHosts(published, records);
    var hosts := CollectDNSHosts(records);
    var dns := MergeAddresses(configuredDNS, publishedDNS);
    routes := BuildRoutes(resources, hosts, dns);
    if ResourcesMasked(published) {
      AppliedMasked(published, records);
      OutermostFromLists(published, records, hosts, dns, configuredDNS, publishedDNS, routes);
    }
    filter := NewResourceFilter(resources, dns);
    forall a
      ensures Covered(routes, a) <==> ShouldRoute(published, records, configuredDNS, publishedDNS, a)
      ensures Covered(routes, a) <==> AnyAllows(filter.added, a, 0)
    {
      DestinationsFromLists(published, records, hosts, dns, configuredDNS, publishedDNS, a, 0);
      RoutedIffPublished(published, records, hosts, dns, a, 0);
    }
    forall a, port: Uint16
      ensures AnyAllows(filter.added, a, port) <==>
              ShouldPermit(published, records, configuredDNS, publishedDNS, a, port)
      ensures AnyAllows(filter.added, a, port) ==> Covered(routes, a)
    {
      DestinationsFromLists(published, records, hosts, dns, configuredDNS, publishedDNS, a, port);
      RoutedIffPublished(published, records, hosts, dns, a, port);
    }
  }
}
