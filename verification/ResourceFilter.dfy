/** The outbound filter (resource_filter.go). */
module ResourceFilter {
  import opened Netip
  import opened Resources
  import opened DnsHosts

  /** What `datagramDestination` finds in a packet: the header is read by the packet library,
      so a datagram is its destination, protocol, transport length and port. */
  datatype Datagram = Datagram(
    headerValid: bool, destination: Uint32, protocol: nat, transportLength: nat, port: Uint16)
  datatype Destination = Unknown | Known(addr: Addr, port: Uint16)

  const TCP := 6
  const UDP := 17
  const TCP_MINIMUM_SIZE := 20
  const UDP_MINIMUM_SIZE := 8

  /** `datagramDestination` (resource_filter.go:66-90). */
  function DatagramDestination(d: Datagram): Destination {
    if !d.headerValid then Unknown
    else if d.protocol == TCP then
      if d.transportLength < TCP_MINIMUM_SIZE then Unknown else Known(V4(d.destination), d.port)
    else if d.protocol == UDP then
      if d.transportLength < UDP_MINIMUM_SIZE then Unknown else Known(V4(d.destination), d.port)
    else Known(V4(d.destination), 0)
  }

  /** One published prefix with its ports. */
  datatype Rule = Rule(prefix: Prefix, ports: PortRange) {
    predicate Allows(a: Addr, port: Uint16) {
      prefix.Contains(a) && PortAllowed(ports, port)
    }
  }

  /** The filter by definition: a scan of everything added. */
  ghost predicate AnyAllows(rules: seq<Rule>, a: Addr, port: Uint16) {
    exists i :: 0 <= i < |rules| && rules[i].Allows(a, port)
  }

  ghost predicate AnyPort(ranges: seq<PortRange>, port: Uint16) {
    exists i :: 0 <= i < |ranges| && PortAllowed(ranges[i], port)
  }

  lemma AnyAllowsAppend(rules: seq<Rule>, r: Rule, a: Addr, port: Uint16)
    ensures AnyAllows(rules + [r], a, port) <==> AnyAllows(rules, a, port) || r.Allows(a, port)
  {
    forall i | 0 <= i < |rules| && rules[i].Allows(a, port) ensures AnyAllows(rules + [r], a, port) {
      assert (rules + [r])[i] == rules[i];
    }
    if r.Allows(a, port) {
      assert (rules + [r])[|rules|] == r;
    }
  }

  lemma AnyPortAppend(ranges: seq<PortRange>, r: PortRange, port: Uint16)
    ensures AnyPort(ranges + [r], port) <==> AnyPort(ranges, port) || PortAllowed(r, port)
  {
    forall i | 0 <= i < |ranges| && PortAllowed(ranges[i], port) ensures AnyPort(ranges + [r], port) {
      assert (ranges + [r])[i] == ranges[i];
    }
    if PortAllowed(r, port) {
      assert (ranges + [r])[|ranges|] == r;
    }
  }

  predicate CarriesPorts(d: Datagram) {
    d.protocol == 6 || d.protocol == 17
  }

  /** The rule covers the datagram: its destination, and, if it carries ports and names one, its
      port. */
  ghost predicate RuleCovers(r: Rule, d: Datagram) {
    r.prefix.Contains(V4(d.destination)) &&
    (CarriesPorts(d) && d.port != 0 ==> r.ports.start <= d.port <= r.ports.end)
  }

  /** What the filter lets through: well-formed datagrams, with a transport header if they carry
      ports, that some rule covers. */
  ghost predicate LetsThrough(rules: seq<Rule>, d: Datagram) {
    && d.headerValid
    && (d.protocol == 6 ==> 20 <= d.transportLength) && (d.protocol == 17 ==> 8 <= d.transportLength)
    && exists i :: 0 <= i < |rules| && RuleCovers(rules[i], d)
  }

  lemma LetsThroughMeans(rules: seq<Rule>, d: Datagram)
    ensures LetsThrough(rules, d) <==>
            DatagramDestination(d).Known? &&
            AnyAllows(rules, DatagramDestination(d).addr, DatagramDestination(d).port)
  {
    var k := DatagramDestination(d);
    if k.Known? {
      forall i | 0 <= i < |rules| ensures RuleCovers(rules[i], d) <==> rules[i].Allows(k.addr, k.port) {}
    }
  }

  /** The rules a resource list publishes, in the order `newResourceFilter` visits them. */
  function EntryRules(e: ResourceEntry): seq<Rule> {
    seq(|e.prefixes|, i requires 0 <= i < |e.prefixes| => Rule(e.prefixes[i], e.ports))
  }

  class Filter {
    var singleAddresses: map<Addr, seq<PortRange>>
    var prefixes: seq<Rule>
    ghost var added: seq<Rule>

    /** The indexed lookup of `permits` for a known destination. */
    ghost predicate Lookup(a: Addr, port: Uint16)
      reads this
    {
      (a in singleAddresses && AnyPort(singleAddresses[a], port)) || AnyAllows(prefixes, a, port)
    }

    /** The map and the prefix list together allow what a scan of all added rules allows. */
    ghost predicate Valid()
      reads this
    {
      forall a, port :: Lookup(a, port) <==> AnyAllows(added, a, port)
    }

    constructor ()
      ensures Valid() && added == []
    {
      singleAddresses := map[];
      prefixes := [];
      added := [];
    }

    method Add(prefix: Prefix, ports: PortRange)
      requires Valid()
      modifies this
      ensures Valid() && added == old(added) + [Rule(prefix, ports)]
    {
      ghost var rule := Rule(prefix, ports);
      added := added + [rule];
      if prefix.IsSingleIP() {
        var address := prefix.addr;
        var ranges := if address in singleAddresses then singleAddresses[address] else [];
        singleAddresses := singleAddresses[address := ranges + [ports]];
        forall a, port ensures Lookup(a, port) <==> AnyAllows(added, a, port) {
          AnyAllowsAppend(old(added), rule, a, port);
          AnyPortAppend(ranges, ports, port);
          SingleContains(address, a);
          assert old(Lookup(a, port)) <==> AnyAllows(old(added), a, port);
        }
      } else {
        prefixes := prefixes + [Rule(prefix.Masked(), ports)];
        forall a, port ensures Lookup(a, port) <==> AnyAllows(added, a, port) {
          AnyAllowsAppend(old(added), rule, a, port);
          AnyAllowsAppend(old(prefixes), Rule(prefix.Masked(), ports), a, port);
          MaskedSame(prefix, a);
          assert old(Lookup(a, port)) <==> AnyAllows(old(added), a, port);
        }
      }
    }

    /** `permits` (resource_filter.go:48-64). */
    method Permits(d: Datagram) returns (permitted: bool)
      requires Valid()
      ensures permitted <==>
                (DatagramDestination(d).Known? &&
                 AnyAllows(added, DatagramDestination(d).addr, DatagramDestination(d).port))
      ensures permitted <==> LetsThrough(added, d)
    {
      LetsThroughMeans(added, d);
      var destination := DatagramDestination(d);
      if destination.Unknown? {
        return false;
      }
      var a, port := destination.addr, destination.port;
      assert Lookup(a, port) <==> AnyAllows(added, a, port);
      var ranges := if a in singleAddresses then singleAddresses[a] else [];
      for i := 0 to |ranges|
        invariant forall k :: 0 <= k < i ==> !PortAllowed(ranges[k], port)
      {
        if port == 0 || ranges[i].Contains(port) {
          assert PortAllowed(ranges[i], port);
          return true;
        }
      }
      for i := 0 to |prefixes|
        invariant forall k :: 0 <= k < i ==> !prefixes[k].Allows(a, port)
      {
        if prefixes[i].prefix.Contains(a) && (port == 0 || prefixes[i].ports.Contains(port)) {
          assert prefixes[i].Allows(a, port);
          return true;
        }
      }
      return false;
    }
  }

  /** The destination is published by a resource, or always allowed. */
  ghost predicate Published(resources: seq<Resource>, alwaysAllowed: seq<Addr>, a: Addr, port: Uint16) {
    Permitted(resources, a, port) || (a != NoAddr && a in alwaysAllowed)
  }

  lemma EntryRulesAllow(e: ResourceEntry, a: Addr, port: Uint16)
    ensures AnyAllows(EntryRules(e), a, port) <==> EntryPermits(e, a, port)
  {
    forall i | 0 <= i < |e.prefixes| ensures EntryRules(e)[i].Allows(a, port) <==>
        e.prefixes[i].Contains(a) && PortAllowed(e.ports, port) {}
  }

  /** The rules added so far, as a set of destinations. */
  ghost predicate AddedExactly(rules: seq<Rule>, resources: seq<Resource>, alwaysAllowed: seq<Addr>) {
    forall a, port :: AnyAllows(rules, a, port) <==> Published(resources, alwaysAllowed, a, port)
  }

  /** Adding every rule of one resource. */
  method AddResource(filter: Filter, resource: Resource)
    requires filter.Valid()
    modifies filter
    ensures filter.Valid()
    ensures forall a, port :: AnyAllows(filter.added, a, port) <==>
              AnyAllows(old(filter.added), a, port) || EntriesPermit(resource.entries, a, port)
  {
    for j := 0 to |resource.entries|
      invariant filter.Valid()
      invariant forall a, port :: AnyAllows(filter.added, a, port) <==>
                  AnyAllows(old(filter.added), a, port) || EntriesPermit(resource.entries[..j], a, port)
    {
      ghost var before := filter.added;
      var entry := resource.entries[j];
      for k := 0 to |entry.prefixes|
        invariant filter.Valid()
        invariant filter.added == before + EntryRules(entry)[..k]
      {
        filter.Add(entry.prefixes[k], entry.ports);
        assert EntryRules(entry)[..k + 1] == EntryRules(entry)[..k] + [EntryRules(entry)[k]];
      }
      assert EntryRules(entry)[..|entry.prefixes|] == EntryRules(entry);
      assert resource.entries[..j + 1] == resource.entries[..j] + [entry];
      forall a, port ensures AnyAllows(filter.added, a, port) <==>
          AnyAllows(old(filter.added), a, port) || EntriesPermit(resource.entries[..j + 1], a, port) {
        AnyAllowsConcat(before, EntryRules(entry), a, port);
        EntryRulesAllow(entry, a, port);
        EntriesPermitAppend(resource.entries[..j], entry, a, port);
      }
    }
    assert resource.entries[..|resource.entries|] == resource.entries;
  }

  lemma AnyAllowsConcat(xs: seq<Rule>, ys: seq<Rule>, a: Addr, port: Uint16)
    ensures AnyAllows(xs + ys, a, port) <==> AnyAllows(xs, a, port) || AnyAllows(ys, a, port)
  {
    forall i | 0 <= i < |xs| && xs[i].Allows(a, port) ensures AnyAllows(xs + ys, a, port) {
      assert (xs + ys)[i] == xs[i];
    }
    forall i | 0 <= i < |ys| && ys[i].Allows(a, port) ensures AnyAllows(xs + ys, a, port) {
      assert (xs + ys)[|xs| + i] == ys[i];
    }
  }

  lemma EntriesPermitAppend(es: seq<ResourceEntry>, e: ResourceEntry, a: Addr, port: Uint16)
    ensures EntriesPermit(es + [e], a, port) <==> EntriesPermit(es, a, port) || EntryPermits(e, a, port)
  {
    forall i | 0 <= i < |es| && EntryPermits(es[i], a, port) ensures EntriesPermit(es + [e], a, port) {
      assert (es + [e])[i] == es[i];
    }
    if EntryPermits(e, a, port) {
      assert (es + [e])[|es|] == e;
    }
  }

  lemma PermittedAppend(rs: seq<Resource>, r: Resource, a: Addr, port: Uint16)
    ensures Permitted(rs + [r], a, port) <==> Permitted(rs, a, port) || EntriesPermit(r.entries, a, port)
  {
    forall i | 0 <= i < |rs| && EntriesPermit(rs[i].entries, a, port) ensures Permitted(rs + [r], a, port) {
      assert (rs + [r])[i] == rs[i];
    }
    if EntriesPermit(r.entries, a, port) {
      assert (rs + [r])[|rs|] == r;
    }
  }

  /** `newResourceFilter` (resource_filter.go:24-37). */
  method NewResourceFilter(resources: seq<Resource>, alwaysAllowed: seq<Addr>) returns (filter: Filter)
    ensures fresh(filter) && filter.Valid()
    ensures AddedExactly(filter.added, resources, alwaysAllowed)
  {
    filter := new Filter();
    for i := 0 to |resources|
      invariant fresh(filter) && filter.Valid()
      invariant forall a, port :: AnyAllows(filter.added, a, port) <==> Permitted(resources[..i], a, port)
    {
      AddResource(filter, resources[i]);
      assert resources[..i + 1] == resources[..i] + [resources[i]];
      forall a, port ensures AnyAllows(filter.added, a, port) <==> Permitted(resources[..i + 1], a, port) {
        PermittedAppend(resources[..i], resources[i], a, port);
      }
    }
    assert resources[..|resources|] == resources;
    for i := 0 to |alwaysAllowed|
      invariant fresh(filter) && filter.Valid()
      invariant AddedExactly(filter.added, resources, alwaysAllowed[..i])
    {
      ghost var before := filter.added;
      filter.Add(Single(alwaysAllowed[i]), WHOLE_PORT_RANGE);
      forall a, port
        ensures AnyAllows(filter.added, a, port) <==> Published(resources, alwaysAllowed[..i + 1], a, port)
      {
        AnyAllowsAppend(before, Rule(Single(alwaysAllowed[i]), WHOLE_PORT_RANGE), a, port);
        SingleContains(alwaysAllowed[i], a);
        assert alwaysAllowed[..i + 1] == alwaysAllowed[..i] + [alwaysAllowed[i]];
        assert AnyAllows(before, a, port) <==> Published(resources, alwaysAllowed[..i], a, port);
      }
    }
    assert alwaysAllowed[..|alwaysAllowed|] == alwaysAllowed;
  }
}
