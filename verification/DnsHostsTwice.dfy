/** Applying the DNS host table a second time (resource.go:295-342): exactly when it changes
    nothing. */
module DnsHostsTwice {
  import opened Netip
  import opened Resources
  import opened DnsHosts

  predicate Canonical(record: DnsRecord) {
    CanonicalDomain(record.domain) == record.domain
  }

  ghost predicate Holds(es: seq<ResourceEntry>, record: DnsRecord) {
    && AnyMatches(es, record)
    && forall i :: 0 <= i < |es| && Matches(es[i], record) ==> Single(record.address) in es[i].prefixes
  }

  /** The record's resource is indexed, has an entry for its domain, and every such entry
      already holds its address. */
  ghost predicate Satisfied(st: State, record: DnsRecord)
    requires Indexed(st)
  {
    record.resourceID in st.byID && Holds(EntriesOf(st, record.resourceID), record)
  }

  lemma SatisfiedFixed(st: State, record: DnsRecord)
    requires Indexed(st) && Satisfied(st, record)
    ensures ApplyRecord(st, record) == st
  {
    var es := EntriesOf(st, record.resourceID);
    assert OpenEntries(es, record) == es;
    var index := st.byID[record.resourceID];
    assert st.resources[index := st.resources[index].(entries := es)] == st.resources;
  }

  /** The record is matched at its turn, or the entry it adds matches it from then on. */
  predicate Settles(es: seq<ResourceEntry>, record: DnsRecord) {
    Canonical(record) || AnyMatches(es, record)
  }

  lemma OpenEntriesHold(es: seq<ResourceEntry>, record: DnsRecord)
    requires Settles(es, record)
    ensures Holds(OpenEntries(es, record), record)
  {
    var es' := OpenEntries(es, record);
    if AnyMatches(es, record) {
      var i :| 0 <= i < |es| && Matches(es[i], record);
      assert Matches(es'[i], record);
    } else {
      assert Matches(es'[|es|], record);
    }
  }

  ghost predicate EntryHolds(e: ResourceEntry, record: DnsRecord) {
    Matches(e, record) ==> Single(record.address) in e.prefixes
  }

  lemma OpenEntryKeeps(e: ResourceEntry, record: DnsRecord, next: DnsRecord)
    requires EntryHolds(e, record)
    ensures EntryHolds(OpenEntry(e, next), record)
    ensures Matches(OpenEntry(e, next), record) <==> Matches(e, record)
  {}

  lemma OpenEntriesKeep(es: seq<ResourceEntry>, record: DnsRecord, next: DnsRecord)
    requires Holds(es, record) && Settles(es, next)
    ensures Holds(OpenEntries(es, next), record)
  {
    var es' := OpenEntries(es, next);
    forall i | 0 <= i < |es|
      ensures EntryHolds(es'[i], record) && (Matches(es'[i], record) <==> Matches(es[i], record))
    {
      assert EntryHolds(es[i], record);
      OpenEntryKeeps(es[i], record, next);
    }
    var k :| 0 <= k < |es| && Matches(es[k], record);
    assert Matches(es'[k], record);
    if next.domain == record.domain {
      assert Matches(es[k], next);
    }
    assert |es| < |es'| ==> es'[|es|] == NewEntry(next);
    forall i | 0 <= i < |es'| ensures EntryHolds(es'[i], record) {}
  }

  /** What a record makes of the entries of resource `id`. */
  function OpenOwn(es: seq<ResourceEntry>, record: DnsRecord, id: string): seq<ResourceEntry> {
    if record.resourceID == id then OpenEntries(es, record) else es
  }

  /** A record changes the entries of its own resource only. */
  lemma ApplyEntries(st: State, record: DnsRecord, id: string)
    requires Indexed(st)
    ensures EntriesOf(ApplyRecord(st, record), id) == OpenOwn(EntriesOf(st, id), record, id)
  {
    if record.resourceID !in st.byID {
      assert OpenEntries([], record) == [NewEntry(record)];
    }
  }

  // Applying records only appends: resources, entries and prefixes.

  ghost predicate EntryGrows(e: ResourceEntry, e': ResourceEntry) {
    e'.domain == e.domain && e'.ports == e.ports && e.prefixes <= e'.prefixes
  }

  ghost predicate EntriesGrow(es: seq<ResourceEntry>, es': seq<ResourceEntry>) {
    |es| <= |es'| && forall i :: 0 <= i < |es| ==> EntryGrows(es[i], es'[i])
  }

  ghost predicate ResourceGrows(r: Resource, r': Resource) {
    r'.id == r.id && r'.name == r.name && EntriesGrow(r.entries, r'.entries)
  }

  ghost predicate Grows(rs: seq<Resource>, rs': seq<Resource>) {
    |rs| <= |rs'| && forall i :: 0 <= i < |rs| ==> ResourceGrows(rs[i], rs'[i])
  }

  lemma GrowsTransitive(xs: seq<Resource>, ys: seq<Resource>, zs: seq<Resource>)
    requires Grows(xs, ys) && Grows(ys, zs)
    ensures Grows(xs, zs)
  {
    forall i | 0 <= i < |xs| ensures ResourceGrows(xs[i], zs[i]) {
      assert ResourceGrows(xs[i], ys[i]) && ResourceGrows(ys[i], zs[i]);
      EntriesGrowTransitive(xs[i].entries, ys[i].entries, zs[i].entries);
    }
  }

  lemma EntriesGrowTransitive(xs: seq<ResourceEntry>, ys: seq<ResourceEntry>, zs: seq<ResourceEntry>)
    requires EntriesGrow(xs, ys) && EntriesGrow(ys, zs)
    ensures EntriesGrow(xs, zs)
  {
    forall i | 0 <= i < |xs| ensures EntryGrows(xs[i], zs[i]) {
      assert EntryGrows(xs[i], ys[i]) && EntryGrows(ys[i], zs[i]);
    }
  }

  lemma EntriesGrowBothWays(es: seq<ResourceEntry>, es': seq<ResourceEntry>)
    requires EntriesGrow(es, es') && EntriesGrow(es', es)
    ensures es == es'
  {
    forall i | 0 <= i < |es| ensures es[i] == es'[i] {
      assert EntryGrows(es[i], es'[i]) && EntryGrows(es'[i], es[i]);
    }
  }

  lemma GrowsBothWays(rs: seq<Resource>, rs': seq<Resource>)
    requires Grows(rs, rs') && Grows(rs', rs)
    ensures rs == rs'
  {
    forall i | 0 <= i < |rs| ensures rs[i] == rs'[i] {
      assert ResourceGrows(rs[i], rs'[i]) && ResourceGrows(rs'[i], rs[i]);
      EntriesGrowBothWays(rs[i].entries, rs'[i].entries);
    }
  }

  lemma OpenEntriesGrow(es: seq<ResourceEntry>, record: DnsRecord)
    ensures EntriesGrow(es, OpenEntries(es, record))
  {
    forall i | 0 <= i < |es| ensures EntryGrows(es[i], OpenEntries(es, record)[i]) {}
  }

  lemma ApplyGrows(st: State, record: DnsRecord)
    requires Indexed(st)
    ensures Grows(st.resources, ApplyRecord(st, record).resources)
  {
    OpenEntriesGrow(EntriesOf(st, record.resourceID), record);
    forall i | 0 <= i < |st.resources|
      ensures ResourceGrows(st.resources[i], ApplyRecord(st, record).resources[i])
    {}
  }

  /** The states a table goes through. */
  ghost predicate IsTrace(states: seq<State>, records: seq<DnsRecord>) {
    && |states| == |records| + 1
    && (forall i :: 0 <= i < |states| ==> Indexed(states[i]))
    && (forall i :: 0 <= i < |records| ==> Indexed(states[i]) && states[i + 1] == ApplyRecord(states[i], records[i]))
  }

  lemma TraceOf(st: State, records: seq<DnsRecord>) returns (states: seq<State>)
    requires Indexed(st)
    ensures IsTrace(states, records) && states[0] == st
    ensures states[|records|] == After(st, records, |records|)
  {
    states := seq(|records| + 1, i requires 0 <= i <= |records| => After(st, records, i));
  }

  lemma {:induction false} TraceGrows(states: seq<State>, records: seq<DnsRecord>, i: nat, j: nat)
    requires IsTrace(states, records) && i <= j <= |records|
    ensures Grows(states[i].resources, states[j].resources)
    decreases j
  {
    if i < j {
      TraceGrows(states, records, i, j - 1);
      ApplyGrows(states[j - 1], records[j - 1]);
      GrowsTransitive(states[i].resources, states[j - 1].resources, states[j].resources);
    }
  }

  /** What the first n records make of the entries of one resource. */
  ghost function Within(es: seq<ResourceEntry>, records: seq<DnsRecord>, n: nat, id: string): seq<ResourceEntry>
    requires n <= |records|
  {
    if n == 0 then es else OpenOwn(Within(es, records, n - 1, id), records[n - 1], id)
  }

  lemma AfterTurn(st: State, records: seq<DnsRecord>, n: nat, id: string)
    requires Indexed(st) && n < |records|
    ensures EntriesOf(After(st, records, n + 1), id) == OpenOwn(EntriesOf(After(st, records, n), id), records[n], id)
  {
    ApplyEntries(After(st, records, n), records[n], id);
  }

  lemma WithinTurn(st: State, records: seq<DnsRecord>, n: nat, id: string)
    requires Indexed(st) && n < |records|
    requires EntriesOf(After(st, records, n), id) == Within(EntriesOf(st, id), records, n, id)
    ensures EntriesOf(After(st, records, n + 1), id) == Within(EntriesOf(st, id), records, n + 1, id)
  {
    AfterTurn(st, records, n, id);
  }

  lemma {:induction false} AfterWithin(st: State, records: seq<DnsRecord>, n: nat, id: string)
    requires Indexed(st) && n <= |records|
    ensures EntriesOf(After(st, records, n), id) == Within(EntriesOf(st, id), records, n, id)
  {
    if n != 0 {
      AfterWithin(st, records, n - 1, id);
      WithinTurn(st, records, n - 1, id);
    }
  }

  lemma {:induction false} WithinGrows(es: seq<ResourceEntry>, records: seq<DnsRecord>, m: nat, n: nat, id: string)
    requires m <= n <= |records|
    ensures EntriesGrow(Within(es, records, m, id), Within(es, records, n, id))
    decreases n
  {
    if m < n {
      var before := Within(es, records, n - 1, id);
      WithinGrows(es, records, m, n - 1, id);
      OpenEntriesGrow(before, records[n - 1]);
      if records[n - 1].resourceID == id {
        EntriesGrowTransitive(Within(es, records, m, id), before, OpenEntries(before, records[n - 1]));
      }
    }
  }

  lemma GrowsKeepsMatch(es: seq<ResourceEntry>, es': seq<ResourceEntry>, record: DnsRecord)
    requires EntriesGrow(es, es')
    ensures AnyMatches(es, record) ==> AnyMatches(es', record)
    ensures forall i :: 0 <= i < |es| && Matches(es'[i], record) ==> AnyMatches(es, record)
  {
    forall i | 0 <= i < |es| ensures Matches(es[i], record) <==> Matches(es'[i], record) {
      assert EntryGrows(es[i], es'[i]);
    }
  }

  /** Every record is matched, or matches itself, in the resource it names before any record is
      applied. */
  ghost predicate AllSettle(st: State, records: seq<DnsRecord>)
    requires Indexed(st)
  {
    forall n :: 0 <= n < |records| ==> Settles(EntriesOf(st, records[n].resourceID), records[n])
  }

  /** Records that settle are all held in the end. */
  lemma {:induction false} WithinHolds(es: seq<ResourceEntry>, records: seq<DnsRecord>, n: nat, id: string, k: nat)
    requires k < n <= |records| && records[k].resourceID == id
    requires forall m :: 0 <= m < |records| && records[m].resourceID == id ==> Settles(es, records[m])
    ensures Holds(Within(es, records, n, id), records[k])
    decreases n
  {
    var before, next := Within(es, records, n - 1, id), records[n - 1];
    if next.resourceID == id {
      WithinGrows(es, records, 0, n - 1, id);
      GrowsKeepsMatch(es, before, next);
    }
    if k == n - 1 {
      OpenEntriesHold(before, next);
    } else {
      WithinHolds(es, records, n - 1, id, k);
      if next.resourceID == id {
        OpenEntriesKeep(before, records[k], next);
      }
    }
  }

  lemma ApplyIndexes(st: State, record: DnsRecord, id: string)
    requires Indexed(st) && (id in st.byID || id == record.resourceID)
    ensures id in ApplyRecord(st, record).byID
  {}

  lemma {:induction false} AfterIndexes(st: State, records: seq<DnsRecord>, n: nat, k: nat)
    requires Indexed(st) && k < n <= |records|
    ensures records[k].resourceID in After(st, records, n).byID
    decreases n
  {
    if k < n - 1 {
      AfterIndexes(st, records, n - 1, k);
    }
    ApplyIndexes(After(st, records, n - 1), records[n - 1], records[k].resourceID);
  }

  lemma AllSatisfied(st: State, records: seq<DnsRecord>, k: nat)
    requires Indexed(st) && AllSettle(st, records) && k < |records|
    ensures Satisfied(After(st, records, |records|), records[k])
  {
    var id := records[k].resourceID;
    AfterIndexes(st, records, |records|, k);
    AfterWithin(st, records, |records|, id);
    WithinHolds(EntriesOf(st, id), records, |records|, id, k);
  }

  ghost predicate AllHold(st: State, records: seq<DnsRecord>)
    requires Indexed(st)
  {
    forall k :: 0 <= k < |records| ==> Satisfied(st, records[k])
  }

  lemma AfterNext(st: State, records: seq<DnsRecord>, n: nat)
    requires Indexed(st) && n < |records|
    requires After(st, records, n) == st && Satisfied(st, records[n])
    ensures After(st, records, n + 1) == st
  {
    SatisfiedFixed(st, records[n]);
  }

  lemma {:induction false} AfterFixed(st: State, records: seq<DnsRecord>, n: nat)
    requires Indexed(st) && n <= |records| && AllHold(st, records)
    ensures After(st, records, n) == st
  {
    if n != 0 {
      var m := n - 1;
      AfterFixed(st, records, m);
      assert Satisfied(st, records[m]);
      AfterNext(st, records, m);
    }
  }

  lemma {:induction false} IndexIDsOfIDs(rs: seq<Resource>, rs': seq<Resource>)
    requires |rs| == |rs'| && forall i :: 0 <= i < |rs| ==> rs[i].id == rs'[i].id
    ensures IndexIDs(rs) == IndexIDs(rs')
  {
    if rs != [] {
      IndexIDsOfIDs(rs[..|rs| - 1], rs'[..|rs| - 1]);
    }
  }

  lemma IndexStep(st: State, record: DnsRecord)
    requires Indexed(st) && st.byID == IndexIDs(st.resources) && record.resourceID != ""
    ensures ApplyRecord(st, record).byID == IndexIDs(ApplyRecord(st, record).resources)
  {
    var st' := ApplyRecord(st, record);
    if record.resourceID in st.byID {
      IndexIDsOfIDs(st.resources, st'.resources);
    } else {
      assert st'.resources[..|st.resources|] == st.resources;
    }
  }

  /** The running index is the index a fresh application would build. */
  lemma {:induction false} TraceIndexed(states: seq<State>, records: seq<DnsRecord>, i: nat)
    requires IsTrace(states, records) && AllNamed(records) && i <= |records|
    requires states[0].byID == IndexIDs(states[0].resources)
    ensures states[i].byID == IndexIDs(states[i].resources)
  {
    if i != 0 {
      TraceIndexed(states, records, i - 1);
      IndexStep(states[i - 1], records[i - 1]);
    }
  }

  lemma RunningIndex(st: State, records: seq<DnsRecord>)
    requires Indexed(st) && st.byID == IndexIDs(st.resources) && AllNamed(records)
    ensures After(st, records, |records|).byID == IndexIDs(After(st, records, |records|).resources)
  {
    var states := TraceOf(st, records);
    TraceIndexed(states, records, |records|);
  }

  lemma {:induction false} EmptyIDNotIndexed(rs: seq<Resource>)
    ensures "" !in IndexIDs(rs)
  {
    if rs != [] {
      EmptyIDNotIndexed(rs[..|rs| - 1]);
    }
  }

  /** A resource has been added since, if one without ID is indexed. */
  ghost predicate GrownBy(rs: seq<Resource>, st: State) {
    |rs| <= |st.resources| && ("" in st.byID ==> |rs| < |st.resources|)
  }

  lemma GrownStep(rs: seq<Resource>, st: State, record: DnsRecord)
    requires Indexed(st) && GrownBy(rs, st)
    ensures GrownBy(rs, ApplyRecord(st, record))
  {}

  lemma {:induction false} EmptyIDGrows(st: State, records: seq<DnsRecord>, n: nat)
    requires Indexed(st) && "" !in st.byID && n <= |records|
    ensures GrownBy(st.resources, After(st, records, n))
  {
    if n != 0 {
      EmptyIDGrows(st, records, n - 1);
      GrownStep(st.resources, After(st, records, n - 1), records[n - 1]);
    }
  }

  // A second application that changes nothing changes nothing at any of its records.

  lemma FixedSatisfies(st: State, record: DnsRecord)
    requires Indexed(st) && ApplyRecord(st, record).resources == st.resources
    ensures Satisfied(st, record)
  {
    if record.resourceID in st.byID {
      ApplyEntries(st, record, record.resourceID);
      var es := EntriesOf(st, record.resourceID);
      assert OpenEntries(es, record) == es;
      forall i | 0 <= i < |es| && Matches(es[i], record) ensures Single(record.address) in es[i].prefixes {
        assert OpenEntries(es, record)[i] == OpenEntry(es[i], record);
      }
    }
  }

  lemma FixedBackwards(st: State, before: State, record: DnsRecord)
    requires Indexed(st) && Indexed(before) && Grows(st.resources, before.resources)
    requires st.byID == IndexIDs(st.resources) && before.byID == IndexIDs(before.resources)
    requires ApplyRecord(before, record).resources == st.resources
    ensures before == st && Satisfied(st, record)
  {
    ApplyGrows(before, record);
    GrowsBothWays(st.resources, before.resources);
    FixedSatisfies(st, record);
  }

  lemma FixedTrace(states: seq<State>, records: seq<DnsRecord>, k: nat)
    requires IsTrace(states, records) && AllNamed(records) && k < |records|
    requires states[0].byID == IndexIDs(states[0].resources)
    requires states[|records|].resources == states[0].resources
    ensures Satisfied(states[0], records[k])
  {
    TraceGrows(states, records, 0, k);
    TraceGrows(states, records, 0, k + 1);
    TraceGrows(states, records, k + 1, |records|);
    GrowsBothWays(states[k + 1].resources, states[0].resources);
    TraceIndexed(states, records, k);
    FixedBackwards(states[0], states[k], records[k]);
  }

  lemma FixedHolds(st: State, records: seq<DnsRecord>)
    requires Indexed(st) && st.byID == IndexIDs(st.resources) && AllNamed(records)
    requires After(st, records, |records|).resources == st.resources
    ensures AllHold(st, records)
  {
    var states := TraceOf(st, records);
    forall k | 0 <= k < |records| ensures Satisfied(st, records[k]) {
      FixedTrace(states, records, k);
    }
  }

  /** The m-th record finds no match at its turn, so it adds an entry to its resource, which had
      the entries `es` at the start. */
  ghost predicate AddsEntry(es: seq<ResourceEntry>, records: seq<DnsRecord>, m: nat)
    requires m < |records|
  {
    !AnyMatches(Within(es, records, m, records[m].resourceID), records[m])
  }

  /** An entry that was not there after b records was added by a later one. */
  lemma {:induction false} EntryOrigin(
    es: seq<ResourceEntry>, records: seq<DnsRecord>, b: nat, n: nat, id: string, i: nat)
    returns (m: nat)
    requires b <= n <= |records| && |Within(es, records, b, id)| <= i < |Within(es, records, n, id)|
    ensures b <= m < n && records[m].resourceID == id && AddsEntry(es, records, m)
    ensures Within(es, records, n, id)[i].domain == records[m].domain
    decreases n
  {
    m := n - 1;
    if i < |Within(es, records, m, id)| {
      m := EntryOrigin(es, records, b, m, id, i);
    }
  }

  /** In the end every record of the resource is matched by one of its entries. */
  ghost predicate MatchedInTheEnd(es: seq<ResourceEntry>, records: seq<DnsRecord>, id: string) {
    forall k :: 0 <= k < |records| && records[k].resourceID == id ==>
      AnyMatches(Within(es, records, |records|, id), records[k])
  }

  lemma MatchedByCanonical(added: DnsRecord, record: DnsRecord)
    requires CanonicalDomain(added.domain) == record.domain && Canonical(added)
    ensures Canonical(record)
  {}

  /** A record that added an entry and is matched in the end has a canonical domain: only the
      entry itself or one added later can match it, and the latter is no more canonical. */
  lemma {:induction false} AddedIsCanonical(es: seq<ResourceEntry>, records: seq<DnsRecord>, id: string, m: nat)
    requires m < |records| && records[m].resourceID == id && AddsEntry(es, records, m)
    requires MatchedInTheEnd(es, records, id)
    ensures Canonical(records[m])
    decreases |records| - m
  {
    var end, record := Within(es, records, |records|, id), records[m];
    var j :| 0 <= j < |end| && Matches(end[j], record);
    WithinGrows(es, records, m, |records|, id);
    GrowsKeepsMatch(Within(es, records, m, id), end, record);
    var origin := EntryOrigin(es, records, m, |records|, id, j);
    if origin != m {
      AddedIsCanonical(es, records, id, origin);
      MatchedByCanonical(records[origin], record);
    }
  }

  /** Records that are matched in the end settled at once. */
  lemma MatchedSettles(es: seq<ResourceEntry>, records: seq<DnsRecord>, id: string, n: nat)
    requires n < |records| && records[n].resourceID == id && MatchedInTheEnd(es, records, id)
    ensures Settles(es, records[n])
  {
    var record := records[n];
    if AddsEntry(es, records, n) {
      AddedIsCanonical(es, records, id, n);
    } else {
      var at := Within(es, records, n, id);
      var j :| 0 <= j < |at| && Matches(at[j], record);
      WithinGrows(es, records, 0, n, id);
      GrowsKeepsMatch(es, at, record);
      if |es| <= j {
        var m := EntryOrigin(es, records, 0, n, id, j);
        AddedIsCanonical(es, records, id, m);
        MatchedByCanonical(records[m], record);
      }
    }
  }

  lemma HoldingSettles(st: State, records: seq<DnsRecord>)
    requires Indexed(st) && AllHold(After(st, records, |records|), records)
    ensures AllSettle(st, records)
  {
    forall n | 0 <= n < |records| ensures Settles(EntriesOf(st, records[n].resourceID), records[n]) {
      var id := records[n].resourceID;
      AfterWithin(st, records, |records|, id);
      assert MatchedInTheEnd(EntriesOf(st, id), records, id) by {
        forall k | 0 <= k < |records| && records[k].resourceID == id
          ensures AnyMatches(Within(EntriesOf(st, id), records, |records|, id), records[k])
        {
          assert Satisfied(After(st, records, |records|), records[k]);
        }
      }
      MatchedSettles(EntriesOf(st, id), records, id, n);
    }
  }

  predicate AllNamed(records: seq<DnsRecord>) {
    forall n :: 0 <= n < |records| ==> records[n].resourceID != ""
  }

  /** What the table must be like for a second application to change nothing, read off the
      original resources: every record names a resource, and its domain is canonical or that of
      an entry its resource had from the start. */
  ghost predicate Stable(rs: seq<Resource>, records: seq<DnsRecord>) {
    IndexIDsIndexed(rs);
    AllNamed(records) && AllSettle(State(rs, IndexIDs(rs)), records)
  }

  lemma StableAppliesOnce(rs: seq<Resource>, records: seq<DnsRecord>)
    requires Stable(rs, records)
    ensures Applied(Applied(rs, records), records) == Applied(rs, records)
  {
    IndexIDsIndexed(rs);
    var start := State(rs, IndexIDs(rs));
    var st := After(start, records, |records|);
    RunningIndex(start, records);
    forall k | 0 <= k < |records| ensures Satisfied(st, records[k]) {
      AllSatisfied(start, records, k);
    }
    AfterFixed(st, records, |records|);
  }

  lemma AppliesOnceStable(rs: seq<Resource>, records: seq<DnsRecord>)
    requires Applied(Applied(rs, records), records) == Applied(rs, records)
    ensures Stable(rs, records)
  {
    IndexIDsIndexed(rs);
    var start := State(rs, IndexIDs(rs));
    var st := After(start, records, |records|);
    IndexIDsIndexed(st.resources);
    if AllNamed(records) {
      RunningIndex(start, records);
      FixedHolds(st, records);
      HoldingSettles(start, records);
    } else {
      var k :| 0 <= k < |records| && records[k].resourceID == "";
      var again := State(st.resources, IndexIDs(st.resources));
      EmptyIDNotIndexed(st.resources);
      EmptyIDGrows(again, records, |records|);
      AfterIndexes(again, records, |records|, k);
      assert false;
    }
  }

  /** A second application changes nothing if and only if every record names a resource and has
      a domain that is canonical or was matched from the start. An entry added for another
      record never makes up for a domain that is not canonical. */
  lemma AppliedTwice(rs: seq<Resource>, records: seq<DnsRecord>)
    ensures Applied(Applied(rs, records), records) == Applied(rs, records) <==> Stable(rs, records)
  {
    if Stable(rs, records) {
      StableAppliesOnce(rs, records);
    } else if Applied(Applied(rs, records), records) == Applied(rs, records) {
      AppliesOnceStable(rs, records);
    }
  }

  /** The entry `r:http:// . a:1.2.3.4` of a host table leaves the domain " a", for which every
      application adds one more entry. */
  lemma AppliedTwiceDiffers(a: Addr)
    ensures CanonicalDomain(" . a") == " a" && CanonicalDomain(" a") == "a"
    ensures var records := [DnsRecord("r", " a", a)];
            AllNamed(records) && Applied(Applied([], records), records) != Applied([], records)
  {
    SpaceUncovered();
    var records := [DnsRecord("r", " a", a)];
    IndexIDsIndexed([]);
    assert !Settles(EntriesOf(State([], IndexIDs([])), records[0].resourceID), records[0]);
    AppliedTwice([], records);
  }
}
