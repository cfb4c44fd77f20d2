/** Folding the DNS host table into the resource list, and grouping it by name
    (resource.go:250-342). */
module DnsHosts {
  import opened Netip
  import opened Sorting
  import opened Resources

  // ------------------------------------------------------------ permission

  predicate PortAllowed(ports: PortRange, port: Uint16) {
    port == 0 || ports.Contains(port)
  }

  ghost predicate EntryPermits(e: ResourceEntry, a: Addr, port: Uint16) {
    PortAllowed(e.ports, port) && Covered(e.prefixes, a)
  }

  ghost predicate EntriesPermit(es: seq<ResourceEntry>, a: Addr, port: Uint16) {
    exists i :: 0 <= i < |es| && EntryPermits(es[i], a, port)
  }

  /** Some entry of some resource publishes the destination. */
  ghost predicate Permitted(rs: seq<Resource>, a: Addr, port: Uint16) {
    exists i :: 0 <= i < |rs| && EntriesPermit(rs[i].entries, a, port)
  }

  lemma SingleContains(x: Addr, a: Addr)
    ensures Single(x).Contains(a) <==> x != NoAddr && a == x
  {
    if x.Width() == a.Width() && x.Value() == a.Value() {
      SameAddr(x, a);
    }
  }

  // --------------------------------------------------------- applyDNSHosts

  datatype State = State(resources: seq<Resource>, byID: map<string, nat>)

  /** Every indexed ID leads to a resource with that ID. */
  ghost predicate Indexed(st: State) {
    forall id <- st.byID :: st.byID[id] < |st.resources| && st.resources[st.byID[id]].id == id
  }

  /** The last resource of every nonempty ID. */
  function IndexIDs(rs: seq<Resource>): map<string, nat> {
    if rs == [] then map[] else
      var n := |rs| - 1;
      var m := IndexIDs(rs[..n]);
      if rs[n].id == "" then m else m[rs[n].id := n]
  }

  /** Which resource an ID leads to: the last one that has it, and none for the empty ID. */
  lemma {:induction false} IndexIDsLast(rs: seq<Resource>, id: string)
    ensures id in IndexIDs(rs) <==> id != "" && exists i :: 0 <= i < |rs| && rs[i].id == id
    ensures id in IndexIDs(rs) ==>
              && IndexIDs(rs)[id] < |rs| && rs[IndexIDs(rs)[id]].id == id
              && forall i :: IndexIDs(rs)[id] < i < |rs| ==> rs[i].id != id
  {
    if rs != [] {
      var n := |rs| - 1;
      IndexIDsLast(rs[..n], id);
      assert rs[n].id == id ==> id == "" || id in IndexIDs(rs);
      forall i | 0 <= i < n ensures rs[..n][i] == rs[i] {}
    }
  }

  predicate Matches(e: ResourceEntry, record: DnsRecord) {
    CanonicalDomain(e.domain) == record.domain
  }

  predicate AnyMatches(es: seq<ResourceEntry>, record: DnsRecord) {
    exists i :: 0 <= i < |es| && Matches(es[i], record)
  }

  function NewEntry(record: DnsRecord): ResourceEntry {
    ResourceEntry(record.domain, [Single(record.address)], WHOLE_PORT_RANGE)
  }

  function OpenEntry(e: ResourceEntry, record: DnsRecord): ResourceEntry {
    if Matches(e, record) && Single(record.address) !in e.prefixes
    then e.(prefixes := e.prefixes + [Single(record.address)]) else e
  }

  function OpenEntries(es: seq<ResourceEntry>, record: DnsRecord): seq<ResourceEntry> {
    seq(|es|, i requires 0 <= i < |es| => OpenEntry(es[i], record)) +
    if AnyMatches(es, record) then [] else [NewEntry(record)]
  }

  function ApplyRecord(st: State, record: DnsRecord): State
    requires record.resourceID in st.byID ==> st.byID[record.resourceID] < |st.resources|
  {
    if record.resourceID !in st.byID then
      State(st.resources + [Resource(record.resourceID, "", [NewEntry(record)])],
            st.byID[record.resourceID := |st.resources|])
    else
      var index := st.byID[record.resourceID];
      var r := st.resources[index];
      st.(resources := st.resources[index := r.(entries := OpenEntries(r.entries, record))])
  }

  /** The state after the first n records. */
  ghost function After(st: State, records: seq<DnsRecord>, n: nat): (st': State)
    requires Indexed(st) && n <= |records|
    ensures Indexed(st')
  {
    if n == 0 then st else ApplyRecord(After(st, records, n - 1), records[n - 1])
  }

  lemma {:induction false} IndexIDsIndexed(rs: seq<Resource>)
    ensures Indexed(State(rs, IndexIDs(rs)))
  {
    if rs != [] {
      IndexIDsIndexed(rs[..|rs| - 1]);
    }
  }

  ghost function Applied(rs: seq<Resource>, records: seq<DnsRecord>): seq<Resource> {
    IndexIDsIndexed(rs);
    After(State(rs, IndexIDs(rs)), records, |records|).resources
  }

  /** The entry loop (resource.go:321-338). */
  method OpenEntriesLoop(entries: seq<ResourceEntry>, record: DnsRecord) returns (extended: seq<ResourceEntry>)
    ensures extended == OpenEntries(entries, record)
  {
    var prefix := Single(record.address);
    extended := entries;
    var matched := false;
    for i := 0 to |entries|
      invariant |extended| == |entries|
      invariant forall k :: 0 <= k < i ==> extended[k] == OpenEntry(entries[k], record)
      invariant forall k :: i <= k < |entries| ==> extended[k] == entries[k]
      invariant matched <==> exists k :: 0 <= k < i && Matches(entries[k], record)
    {
      if CanonicalDomain(entries[i].domain) != record.domain {
        continue;
      }
      if prefix !in entries[i].prefixes {
        extended := extended[i := entries[i].(prefixes := entries[i].prefixes + [prefix])];
      }
      matched := true;
    }
    if !matched {
      extended := extended + [ResourceEntry(record.domain, [prefix], WHOLE_PORT_RANGE)];
    }
  }

  method ApplyDNSHosts(resources: seq<Resource>, records: seq<DnsRecord>) returns (applied: seq<Resource>)
    ensures applied == Applied(resources, records)
  {
    applied := resources;
    var byID: map<string, nat> := map[];
    for i := 0 to |resources|
      invariant byID == IndexIDs(resources[..i])
    {
      assert resources[..i + 1][..i] == resources[..i];
      if resources[i].id != "" {
        byID := byID[resources[i].id := i];
      }
    }
    assert resources[..|resources|] == resources;
    IndexIDsIndexed(resources);
    ghost var start := State(resources, IndexIDs(resources));
    for n := 0 to |records|
      invariant State(applied, byID) == After(start, records, n)
    {
      var record := records[n];
      if record.resourceID !in byID {
        byID := byID[record.resourceID := |applied|];
        applied := applied + [Resource(record.resourceID, "", [NewEntry(record)])];
        continue;
      }
      assert Indexed(State(applied, byID));
      var index := byID[record.resourceID];
      var entries := OpenEntriesLoop(applied[index].entries, record);
      applied := applied[index := applied[index].(entries := entries)];
    }
  }

  // ------------------------------------------------ what a record opens

  lemma OpenEntryPermits(e: ResourceEntry, record: DnsRecord, a: Addr, port: Uint16)
    requires record.address != NoAddr
    ensures EntryPermits(OpenEntry(e, record), a, port) <==>
            EntryPermits(e, a, port) || (Matches(e, record) && a == record.address && PortAllowed(e.ports, port))
  {
    var p := Single(record.address);
    SingleContains(record.address, a);
    CoveredAppend(e.prefixes, p, a);
    if p in e.prefixes && a == record.address {
      var i :| 0 <= i < |e.prefixes| && e.prefixes[i] == p;
      assert Covered(e.prefixes, a);
    }
  }

  /** The ports on which a record opens its address in a resource with these entries: those of
      the entries for its domain, or all of them when there is no such entry. */
  ghost predicate Opens(es: seq<ResourceEntry>, record: DnsRecord, port: Uint16) {
    AnyMatches(es, record) ==> exists i :: 0 <= i < |es| && Matches(es[i], record) && PortAllowed(es[i].ports, port)
  }

  lemma NewEntryPermits(record: DnsRecord, a: Addr, port: Uint16)
    requires record.address != NoAddr
    ensures EntryPermits(NewEntry(record), a, port) <==> a == record.address
  {
    SingleContains(record.address, a);
    assert NewEntry(record).prefixes[0] == Single(record.address);
  }

  lemma OpenEntriesPermit(es: seq<ResourceEntry>, record: DnsRecord, a: Addr, port: Uint16)
    requires record.address != NoAddr
    ensures EntriesPermit(OpenEntries(es, record), a, port) <==>
            EntriesPermit(es, a, port) || (a == record.address && Opens(es, record, port))
  {
    var os := OpenEntries(es, record);
    NewEntryPermits(record, a, port);
    forall i | 0 <= i < |es|
      ensures os[i] == OpenEntry(es[i], record)
      ensures EntryPermits(os[i], a, port) <==>
              EntryPermits(es[i], a, port) ||
              (Matches(es[i], record) && a == record.address && PortAllowed(es[i].ports, port))
    {
      OpenEntryPermits(es[i], record, a, port);
    }
    forall i | 0 <= i < |es| && EntryPermits(es[i], a, port) ensures EntriesPermit(os, a, port) {
      assert EntryPermits(os[i], a, port);
    }
    if a == record.address && Opens(es, record, port) {
      if AnyMatches(es, record) {
        var i :| 0 <= i < |es| && Matches(es[i], record) && PortAllowed(es[i].ports, port);
        assert EntryPermits(os[i], a, port);
      } else {
        assert os[|es|] == NewEntry(record);
      }
    }
  }

  /** The entries of the resource a record belongs to; none when the record creates it. */
  function EntriesOf(st: State, id: string): seq<ResourceEntry>
    requires id in st.byID ==> st.byID[id] < |st.resources|
  {
    if id in st.byID then st.resources[st.byID[id]].entries else []
  }

  /** One record permits its address on the ports it opens, and changes nothing else. */
  lemma ApplyRecordPermits(st: State, record: DnsRecord, a: Addr, port: Uint16)
    requires Indexed(st) && record.address != NoAddr
    ensures Permitted(ApplyRecord(st, record).resources, a, port) <==>
            Permitted(st.resources, a, port) ||
            (a == record.address && Opens(EntriesOf(st, record.resourceID), record, port))
  {
    var rs, rs' := st.resources, ApplyRecord(st, record).resources;
    if record.resourceID !in st.byID {
      NewEntryPermits(record, a, port);
      forall i | 0 <= i < |rs| && EntriesPermit(rs[i].entries, a, port) ensures Permitted(rs', a, port) {
        assert rs'[i] == rs[i];
      }
      if a == record.address {
        assert rs'[|rs|].entries[0] == NewEntry(record);
        assert EntriesPermit(rs'[|rs|].entries, a, port);
      }
    } else {
      var index := st.byID[record.resourceID];
      OpenEntriesPermit(rs[index].entries, record, a, port);
      forall i | 0 <= i < |rs| && EntriesPermit(rs[i].entries, a, port) ensures Permitted(rs', a, port) {
        assert EntriesPermit(rs'[i].entries, a, port);
      }
      if a == record.address && Opens(rs[index].entries, record, port) {
        assert EntriesPermit(rs'[index].entries, a, port);
      }
    }
  }

  ghost predicate AllAddressed(records: seq<DnsRecord>) {
    forall n :: 0 <= n < |records| ==> records[n].address != NoAddr
  }

  /** The k-th record opens the destination at its turn. */
  ghost predicate OpensAt(st: State, records: seq<DnsRecord>, k: nat, a: Addr, port: Uint16)
    requires Indexed(st) && k < |records|
  {
    a == records[k].address && Opens(EntriesOf(After(st, records, k), records[k].resourceID), records[k], port)
  }

  ghost predicate OpenedWithin(st: State, records: seq<DnsRecord>, n: nat, a: Addr, port: Uint16)
    requires Indexed(st) && n <= |records|
  {
    exists k :: 0 <= k < n && OpensAt(st, records, k, a, port)
  }

  lemma OpenedNext(st: State, records: seq<DnsRecord>, n: nat, a: Addr, port: Uint16)
    requires Indexed(st) && n < |records|
    ensures OpenedWithin(st, records, n + 1, a, port) <==>
            OpenedWithin(st, records, n, a, port) || OpensAt(st, records, n, a, port)
  {}

  lemma TurnPermits(st: State, records: seq<DnsRecord>, n: nat, a: Addr, port: Uint16)
    requires Indexed(st) && AllAddressed(records) && n < |records|
    requires Permitted(After(st, records, n).resources, a, port) <==>
             Permitted(st.resources, a, port) || OpenedWithin(st, records, n, a, port)
    ensures Permitted(After(st, records, n + 1).resources, a, port) <==>
            Permitted(st.resources, a, port) || OpenedWithin(st, records, n + 1, a, port)
  {
    OpenedNext(st, records, n, a, port);
    ApplyRecordPermits(After(st, records, n), records[n], a, port);
  }

  /** Exactly what the table opens: what was permitted, and every record's address on the
      ports it opens at its turn. */
  lemma {:induction false} AfterPermits(st: State, records: seq<DnsRecord>, n: nat, a: Addr, port: Uint16)
    requires Indexed(st) && AllAddressed(records) && n <= |records|
    ensures Permitted(After(st, records, n).resources, a, port) <==>
            Permitted(st.resources, a, port) || OpenedWithin(st, records, n, a, port)
  {
    if n != 0 {
      AfterPermits(st, records, n - 1, a, port);
      TurnPermits(st, records, n - 1, a, port);
    }
  }

  /** The host table never revokes a permission, permits nothing new but record addresses, and
      opens every record address to portless datagrams. */
  lemma AppliedOnlyOpens(rs: seq<Resource>, records: seq<DnsRecord>, a: Addr, port: Uint16)
    requires AllAddressed(records)
    ensures Permitted(rs, a, port) ==> Permitted(Applied(rs, records), a, port)
    ensures Permitted(Applied(rs, records), a, port) && !Permitted(rs, a, port) ==>
              exists n :: 0 <= n < |records| && records[n].address == a
    ensures (exists n :: 0 <= n < |records| && records[n].address == a) ==> Permitted(Applied(rs, records), a, 0)
  {
    IndexIDsIndexed(rs);
    var st := State(rs, IndexIDs(rs));
    AfterPermits(st, records, |records|, a, port);
    AfterPermits(st, records, |records|, a, 0);
    forall n | 0 <= n < |records| && records[n].address == a
      ensures OpensAt(st, records, n, a, 0)
    {}
  }

  // -------------------------------------------------------- grouping by name

  /** `strings.Compare(a, b) <= 0`. */
  predicate StringAtMost(a: string, b: string) {
    a == [] || (b != [] && (a[0] < b[0] || (a[0] == b[0] && StringAtMost(a[1..], b[1..]))))
  }

  lemma {:induction false} StringTotal(a: string, b: string)
    ensures StringAtMost(a, b) || StringAtMost(b, a)
    ensures StringAtMost(a, b) && StringAtMost(b, a) ==> a == b
  {
    if a != [] && b != [] {
      StringTotal(a[1..], b[1..]);
      assert a == [a[0]] + a[1..] && b == [b[0]] + b[1..];
    }
  }

  lemma {:induction false} StringTransitive(a: string, b: string, c: string)
    requires StringAtMost(a, b) && StringAtMost(b, c)
    ensures StringAtMost(a, c)
  {
    if a != [] && b[0] == a[0] == c[0] {
      StringTransitive(a[1..], b[1..], c[1..]);
    }
  }

  /** `a` is a prefix of `b`, or smaller at the first place where they differ. */
  ghost predicate Lexicographic(a: string, b: string) {
    a <= b || exists k :: 0 <= k < |a| && k < |b| && a[..k] == b[..k] && a[k] < b[k]
  }

  lemma {:induction false} StringAtMostMeans(a: string, b: string)
    ensures StringAtMost(a, b) <==> Lexicographic(a, b)
  {
    if a != [] && b != [] && a[0] == b[0] {
      StringAtMostMeans(a[1..], b[1..]);
      LexicographicRest(a, b);
    } else if a != [] && b != [] && a[0] < b[0] {
      assert a[..0] == b[..0];
    }
  }

  lemma LexicographicRest(a: string, b: string)
    requires a != [] && b != [] && a[0] == b[0]
    ensures Lexicographic(a, b) <==> Lexicographic(a[1..], b[1..])
  {
    assert a == [a[0]] + a[1..] && b == [b[0]] + b[1..];
    if k :| 0 <= k < |a| && k < |b| && a[..k] == b[..k] && a[k] < b[k] {
      assert a[1..][..k - 1] == a[1..k] == a[..k][1..];
      assert b[1..][..k - 1] == b[1..k] == b[..k][1..];
      assert a[1..][k - 1] < b[1..][k - 1];
    }
    if k :| 0 <= k < |a[1..]| && k < |b[1..]| && a[1..][..k] == b[1..][..k] && a[1..][k] < b[1..][k] {
      assert a[..k + 1] == [a[0]] + a[1..][..k] && b[..k + 1] == [b[0]] + b[1..][..k];
      assert a[k + 1] < b[k + 1];
    }
  }

  const BY_DOMAIN: (DnsHost, DnsHost) -> bool := (g: DnsHost, h: DnsHost) => StringAtMost(g.domain, h.domain)
  const BY_ADDRESS: (Addr, Addr) -> bool := (a: Addr, b: Addr) => a.AtMost(b)

  lemma DomainsOrdered()
    ensures TotalPreorder(BY_DOMAIN)
  {
    forall g, h ensures BY_DOMAIN(g, h) || BY_DOMAIN(h, g) {
      StringTotal(g.domain, h.domain);
    }
    forall f, g, h | BY_DOMAIN(f, g) && BY_DOMAIN(g, h) ensures BY_DOMAIN(f, h) {
      StringTransitive(f.domain, g.domain, h.domain);
    }
  }

  /** The pair is among the records. */
  ghost predicate Recorded(records: seq<DnsRecord>, domain: string, a: Addr) {
    domain != "" && exists n :: 0 <= n < |records| && records[n].domain == domain && records[n].address == a
  }

  /** The pair is in the table. */
  ghost predicate Listed(hosts: seq<DnsHost>, domain: string, a: Addr) {
    exists i :: 0 <= i < |hosts| && hosts[i].domain == domain && a in hosts[i].addresses
  }

  /** One host a name, with at least one address and none twice. */
  ghost predicate ProperTable(hosts: seq<DnsHost>) {
    && (forall i :: 0 <= i < |hosts| ==>
          hosts[i].domain != "" && hosts[i].addresses != [] && Distinct(hosts[i].addresses))
    && (forall i, j :: 0 <= i < j < |hosts| ==> hosts[i].domain != hosts[j].domain)
  }

  /** What the two lookup maps of `collectDNSHosts` say about the hosts collected so far. */
  ghost predicate Consistent(hosts: seq<DnsHost>, index: map<string, nat>, seen: map<string, set<Addr>>) {
    && ProperTable(hosts)
    && index.Keys == seen.Keys
    && (forall i :: 0 <= i < |hosts| ==> hosts[i].domain in index && index[hosts[i].domain] == i)
    && (forall d <- index :: index[d] < |hosts| && hosts[index[d]].domain == d)
    && (forall i :: 0 <= i < |hosts| && hosts[i].domain in seen ==>
          forall a :: a in seen[hosts[i].domain] <==> a in hosts[i].addresses)
  }

  lemma ConsistentNew(hosts: seq<DnsHost>, index: map<string, nat>, seen: map<string, set<Addr>>, d: string, a: Addr)
    requires Consistent(hosts, index, seen) && d != "" && d !in index
    ensures Consistent(hosts + [DnsHost(d, [a])], index[d := |hosts|], seen[d := {a}])
  {
    forall i | 0 <= i < |hosts| ensures hosts[i].domain != d {}
  }

  lemma ConsistentAdded(hosts: seq<DnsHost>, index: map<string, nat>, seen: map<string, set<Addr>>, i: nat, a: Addr)
    requires Consistent(hosts, index, seen) && i < |hosts| && a !in hosts[i].addresses
    ensures var d := hosts[i].domain;
            Consistent(hosts[i := DnsHost(d, hosts[i].addresses + [a])], index, seen[d := seen[d] + {a}])
  {}

  /** One turn of the collecting loop (resource.go:269-285) for a record with a name. */
  method CollectRecord(hosts: seq<DnsHost>, index: map<string, nat>, seen: map<string, set<Addr>>, record: DnsRecord)
    returns (hosts': seq<DnsHost>, index': map<string, nat>, seen': map<string, set<Addr>>)
    requires Consistent(hosts, index, seen) && record.domain != ""
    ensures Consistent(hosts', index', seen')
    ensures forall d, a :: Listed(hosts', d, a) <==> Listed(hosts, d, a) || (d == record.domain && a == record.address)
  {
    hosts', index', seen' := hosts, index, seen;
    if record.domain !in index {
      hosts' := hosts + [DnsHost(record.domain, [record.address])];
      index' := index[record.domain := |hosts|];
      seen' := seen[record.domain := {record.address}];
      ListedAppend(hosts, DnsHost(record.domain, [record.address]));
      ConsistentNew(hosts, index, seen, record.domain, record.address);
    } else {
      var i := index[record.domain];
      if record.address in seen[record.domain] {
        return;
      }
      seen' := seen[record.domain := seen[record.domain] + {record.address}];
      var h := DnsHost(record.domain, hosts[i].addresses + [record.address]);
      hosts' := hosts[i := h];
      ListedUpdate(hosts, i, record.address);
      ConsistentAdded(hosts, index, seen, i, record.address);
    }
  }

  lemma ListedAppend(hosts: seq<DnsHost>, h: DnsHost)
    ensures forall d, a :: Listed(hosts + [h], d, a) <==> Listed(hosts, d, a) || (d == h.domain && a in h.addresses)
  {
    var hosts' := hosts + [h];
    forall d, a ensures Listed(hosts', d, a) <==> Listed(hosts, d, a) || (d == h.domain && a in h.addresses) {
      if Listed(hosts, d, a) {
        var i :| 0 <= i < |hosts| && hosts[i].domain == d && a in hosts[i].addresses;
        assert hosts'[i] == hosts[i];
      }
      if d == h.domain && a in h.addresses {
        assert hosts'[|hosts|] == h;
      }
    }
  }

  lemma ListedUpdate(hosts: seq<DnsHost>, i: nat, b: Addr)
    requires i < |hosts|
    ensures forall d, a :: Listed(hosts[i := DnsHost(hosts[i].domain, hosts[i].addresses + [b])], d, a) <==>
                           Listed(hosts, d, a) || (d == hosts[i].domain && a == b)
  {
    var hosts' := hosts[i := DnsHost(hosts[i].domain, hosts[i].addresses + [b])];
    forall d, a ensures Listed(hosts', d, a) <==> Listed(hosts, d, a) || (d == hosts[i].domain && a == b) {
      if Listed(hosts, d, a) {
        var k :| 0 <= k < |hosts| && hosts[k].domain == d && a in hosts[k].addresses;
        assert hosts'[k].domain == d && a in hosts'[k].addresses;
      }
      if d == hosts[i].domain && a == b {
        assert a in hosts'[i].addresses;
      }
    }
  }

  /** The hosts ascend by name and each lists its addresses in ascending order. */
  ghost predicate SortedTable(hosts: seq<DnsHost>) {
    SortedBy(BY_DOMAIN, hosts) && forall i :: 0 <= i < |hosts| ==> SortedBy(BY_ADDRESS, hosts[i].addresses)
  }

  lemma TablePermutes(hosts: seq<DnsHost>, sorted: seq<DnsHost>)
    requires ProperTable(hosts) && multiset(hosts) == multiset(sorted)
    ensures ProperTable(sorted)
    ensures forall d, a :: Listed(sorted, d, a) <==> Listed(hosts, d, a)
  {
    SameElements(hosts, sorted);
    DistinctPermutes(hosts, sorted);
    forall i | 0 <= i < |sorted| ensures exists k :: 0 <= k < |hosts| && hosts[k] == sorted[i] {
      assert sorted[i] in hosts;
    }
    forall i | 0 <= i < |hosts| ensures exists k :: 0 <= k < |sorted| && sorted[k] == hosts[i] {
      assert hosts[i] in sorted;
    }
  }

  /** `collectDNSHosts` (resource.go:265-293): exactly the named records, one host a name, each
      address once, in order. */
  method CollectDNSHosts(records: seq<DnsRecord>) returns (hosts: seq<DnsHost>)
    ensures ProperTable(hosts) && SortedTable(hosts)
    ensures forall d, a :: Listed(hosts, d, a) <==> Recorded(records, d, a)
  {
    hosts := [];
    var index: map<string, nat>, seen: map<string, set<Addr>> := map[], map[];
    for n := 0 to |records|
      invariant Consistent(hosts, index, seen)
      invariant forall d, a :: Listed(hosts, d, a) <==> Recorded(records[..n], d, a)
    {
      assert records[..n + 1] == records[..n] + [records[n]];
      RecordedAppend(records[..n], records[n]);
      if records[n].domain == "" {
        continue;
      }
      hosts, index, seen := CollectRecord(hosts, index, seen, records[n]);
    }
    assert records[..|records|] == records;
    hosts := SortTable(hosts);
  }

  lemma RecordedAppend(records: seq<DnsRecord>, r: DnsRecord)
    ensures forall d, a :: Recorded(records + [r], d, a) <==>
              Recorded(records, d, a) || (r.domain != "" && d == r.domain && a == r.address)
  {
    var rs := records + [r];
    forall d, a
      ensures Recorded(rs, d, a) <==> Recorded(records, d, a) || (r.domain != "" && d == r.domain && a == r.address)
    {
      forall n | 0 <= n < |records| ensures rs[n] == records[n] {}
      assert rs[|records|] == r;
    }
  }

  /** The two sorts at the end of `collectDNSHosts` (resource.go:286-291). */
  method SortTable(hosts: seq<DnsHost>) returns (sorted: seq<DnsHost>)
    requires ProperTable(hosts)
    ensures ProperTable(sorted) && SortedTable(sorted)
    ensures forall d, a :: Listed(sorted, d, a) <==> Listed(hosts, d, a)
  {
    DomainsOrdered();
    sorted := Sort(BY_DOMAIN, hosts);
    TablePermutes(hosts, sorted);
    ghost var table := sorted;
    for i := 0 to |sorted|
      invariant |sorted| == |table|
      invariant forall k :: 0 <= k < |table| ==>
                  sorted[k].domain == table[k].domain && multiset(sorted[k].addresses) == multiset(table[k].addresses)
      invariant forall k :: 0 <= k < i ==> SortedBy(BY_ADDRESS, sorted[k].addresses)
    {
      var addresses := Sort(BY_ADDRESS, sorted[i].addresses);
      sorted := sorted[i := DnsHost(sorted[i].domain, addresses)];
    }
    AddressesPermute(table, sorted);
  }

  lemma AddressesPermute(table: seq<DnsHost>, sorted: seq<DnsHost>)
    requires ProperTable(table) && |sorted| == |table|
    requires forall k :: 0 <= k < |table| ==>
               sorted[k].domain == table[k].domain && multiset(sorted[k].addresses) == multiset(table[k].addresses)
    ensures ProperTable(sorted)
    ensures forall d, a :: Listed(sorted, d, a) <==> Listed(table, d, a)
    ensures SortedBy(BY_DOMAIN, table) ==> SortedBy(BY_DOMAIN, sorted)
  {
    forall k | 0 <= k < |table|
      ensures sorted[k].addresses != [] && Distinct(sorted[k].addresses)
      ensures forall a :: a in sorted[k].addresses <==> a in table[k].addresses
    {
      SameElements(sorted[k].addresses, table[k].addresses);
      DistinctPermutes(table[k].addresses, sorted[k].addresses);
    }
  }

  /** Where the address is first found. */
  function FirstAt(src: seq<Addr>, a: Addr): (n: nat)
    requires a in src
    ensures n < |src| && src[n] == a && a !in src[..n]
  {
    if src[0] == a then 0 else
      assert a in src[1..];
      assert src[1..][..FirstAt(src[1..], a)] == src[1..FirstAt(src[1..], a) + 1];
      1 + FirstAt(src[1..], a)
  }

  /** The elements of `merged` behind the first n stand in the order in which `src` first has them. */
  ghost predicate InFirstOrder(src: seq<Addr>, merged: seq<Addr>, n: nat) {
    && (forall i :: n <= i < |merged| ==> merged[i] in src)
    && (forall i, j :: n <= i < j < |merged| && merged[i] in src && merged[j] in src ==>
          FirstAt(src, merged[i]) < FirstAt(src, merged[j]))
  }

  lemma FirstOrderMore(src: seq<Addr>, merged: seq<Addr>, n: nat, k: nat)
    requires InFirstOrder(src, merged, n) && k < |src| && src[k] !in src[..k] && n <= |merged|
    requires forall i :: n <= i < |merged| ==> merged[i] in src[..k]
    ensures InFirstOrder(src, merged + [src[k]], n)
  {
    forall i | n <= i < |merged| ensures FirstAt(src, merged[i]) < FirstAt(src, src[k]) {
      assert merged[i] in src[..k];
      assert FirstAt(src, src[k]) == k;
    }
  }

  /** `mergeAddresses` (resource.go:250-263): the usable addresses of `src` that `dst` lacks,
      each once, behind `dst`, in the order of `src`. */
  method MergeAddresses(dst: seq<Addr>, src: seq<Addr>) returns (merged: seq<Addr>)
    ensures dst <= merged
    ensures forall a :: a in merged <==> a in dst || (a in src && a != NoAddr && !a.IsUnspecified())
    ensures Distinct(dst) ==> Distinct(merged)
    ensures InFirstOrder(src, merged, |dst|)
  {
    var seen: set<Addr> := set a | a in dst;
    merged := dst;
    for n := 0 to |src|
      invariant dst <= merged
      invariant forall a :: a in seen <==> a in merged
      invariant forall a :: a in merged <==> a in dst || (a in src[..n] && a != NoAddr && !a.IsUnspecified())
      invariant Distinct(dst) ==> Distinct(merged)
      invariant InFirstOrder(src, merged, |dst|)
      invariant forall i :: |dst| <= i < |merged| ==> merged[i] in src[..n]
    {
      if src[n] == NoAddr || src[n].IsUnspecified() || src[n] in seen {
        continue;
      }
      FirstOrderMore(src, merged, |dst|, n);
      seen := seen + {src[n]};
      merged := merged + [src[n]];
    }
  }
}
