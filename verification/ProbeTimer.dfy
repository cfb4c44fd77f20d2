/** The data channel keepalive (data_channel_keepalive.go): the choice of a destination, and the
    timer loop in discrete time, with steps taking no time and a clock that never goes back. */
module ProbeTimer {
  import opened Netip
  import opened Resources
  import opened DnsHosts
  import opened ResourceFilter
  import opened Routing

  // ------------------------------------------------------------ destination

  const ICMP := 1
  const ICMP_HEADER := 8

  /** The echo request to an address; only its identification differs from probe to probe. */
  function EchoRequest(destination: Uint32): Datagram {
    Datagram(true, destination, ICMP, ICMP_HEADER, 0)
  }

  /** A probe is a well-formed datagram to its destination that carries no ports. */
  lemma ProbesCarryNoPorts(destination: Uint32)
    ensures DatagramDestination(EchoRequest(destination)) == Known(V4(destination), 0)
    ensures !CarriesPorts(EchoRequest(destination))
  {}

  datatype OutboundFilter = NoFilter | Rules(rules: seq<Rule>)

  /** The filter lets the datagram out. */
  ghost predicate LetsOut(filter: OutboundFilter, d: Datagram) {
    filter.Rules? ==> DatagramDestination(d).Known? &&
                      AnyAllows(filter.rules, DatagramDestination(d).addr, DatagramDestination(d).port)
  }

  /** `reaches` (data_channel_keepalive.go:79-89). */
  ghost predicate Reaches(filter: OutboundFilter, a: Addr) {
    a.V4? && !a.IsUnspecified() && LetsOut(filter, EchoRequest(a.v4))
  }

  ghost predicate NoneReaches(filter: OutboundFilter, candidates: seq<Addr>) {
    forall i :: 0 <= i < |candidates| ==> !Reaches(filter, candidates[i])
  }

  /** The rules of a filter object; a missing filter lets everything out. */
  ghost function Live(filter: Filter?): OutboundFilter
    reads filter
  {
    if filter == null then NoFilter else Rules(filter.added)
  }

  datatype Keepalive = Disabled | Rejected | Probing(destination: Addr)

  /** Whether a probe to the address would pass, decided as `reaches` does with the live filter. */
  method DecideReaches(filter: Filter?, a: Addr) returns (reaches: bool)
    requires filter != null ==> filter.Valid()
    ensures reaches <==> Reaches(Live(filter), a)
  {
    if !a.V4? || a.IsUnspecified() {
      return false;
    }
    if filter == null {
      return true;
    }
    reaches := filter.Permits(EchoRequest(a.v4));
  }

  /** The addresses of the first n hosts, in order. */
  function HostAddresses(hosts: seq<DnsHost>, n: nat): seq<Addr>
    requires n <= |hosts|
  {
    if n == 0 then [] else HostAddresses(hosts, n - 1) + hosts[n - 1].addresses
  }

  /** The addresses of the single-address prefixes among the first n. */
  function SingleAddresses(prefixes: seq<Prefix>, n: nat): seq<Addr>
    requires n <= |prefixes|
  {
    if n == 0 then [] else
      SingleAddresses(prefixes, n - 1) + if prefixes[n - 1].IsSingleIP() then [prefixes[n - 1].addr] else []
  }

  function EntrySingles(entries: seq<ResourceEntry>, n: nat): seq<Addr>
    requires n <= |entries|
  {
    if n == 0 then [] else
      EntrySingles(entries, n - 1) + SingleAddresses(entries[n - 1].prefixes, |entries[n - 1].prefixes|)
  }

  function ResourceSingles(resources: seq<Resource>, n: nat): seq<Addr>
    requires n <= |resources|
  {
    if n == 0 then [] else
      ResourceSingles(resources, n - 1) + EntrySingles(resources[n - 1].entries, |resources[n - 1].entries|)
  }

  ghost function Candidates(dns: seq<Addr>, hosts: seq<DnsHost>, resources: seq<Resource>): seq<Addr> {
    dns + HostAddresses(hosts, |hosts|) + ResourceSingles(resources, |resources|)
  }

  /** The first candidate that the filter lets a probe out to. */
  ghost predicate IsFirstReached(filter: OutboundFilter, candidates: seq<Addr>, a: Addr) {
    exists i :: 0 <= i < |candidates| && candidates[i] == a && Reaches(filter, a) &&
      NoneReaches(filter, candidates[..i])
  }

  /** `pickProbeDestinations` (data_channel_keepalive.go:64-77): the DNS servers, then the listed
      hosts, then the single addresses published, each in order. */
  method PickProbeDestinations(dns: seq<Addr>, hosts: seq<DnsHost>, resources: seq<Resource>)
    returns (picked: seq<Addr>)
    ensures picked == Candidates(dns, hosts, resources)
  {
    picked := AppendHosts(dns, hosts);
    picked := AppendSingles(picked, resources);
  }

  method AppendHosts(before: seq<Addr>, hosts: seq<DnsHost>) returns (picked: seq<Addr>)
    ensures picked == before + HostAddresses(hosts, |hosts|)
  {
    picked := before;
    for i := 0 to |hosts|
      invariant picked == before + HostAddresses(hosts, i)
    {
      picked := picked + hosts[i].addresses;
    }
  }

  method AppendSingles(before: seq<Addr>, resources: seq<Resource>) returns (picked: seq<Addr>)
    ensures picked == before + ResourceSingles(resources, |resources|)
  {
    picked := before;
    for i := 0 to |resources|
      invariant picked == before + ResourceSingles(resources, i)
    {
      var singles := SinglesOf(resources[i]);
      picked := picked + singles;
    }
  }

  method SinglesOf(r: Resource) returns (singles: seq<Addr>)
    ensures singles == EntrySingles(r.entries, |r.entries|)
  {
    singles := [];
    for j := 0 to |r.entries|
      invariant singles == EntrySingles(r.entries, j)
    {
      ghost var before := singles;
      var prefixes := r.entries[j].prefixes;
      for n := 0 to |prefixes|
        invariant singles == before + SingleAddresses(prefixes, n)
      {
        if prefixes[n].IsSingleIP() {
          singles := singles + [prefixes[n].addr];
        }
      }
    }
  }

  /** A candidate taken from the published prefixes is one of their single addresses. */
  lemma {:induction false} SinglesArePublished(prefixes: seq<Prefix>, n: nat, a: Addr)
    requires n <= |prefixes|
    ensures a in SingleAddresses(prefixes, n) <==> exists k :: 0 <= k < n && prefixes[k] == Single(a) && a != NoAddr
  {
    if n != 0 {
      SinglesArePublished(prefixes, n - 1, a);
      var p := prefixes[n - 1];
      assert p.IsSingleIP() && p.addr == a <==> p == Single(a) && a != NoAddr;
    }
  }

  lemma {:induction false} EntrySinglesArePublished(es: seq<ResourceEntry>, n: nat, a: Addr)
    requires n <= |es|
    ensures a in EntrySingles(es, n) <==> a != NoAddr && EntriesHave(es[..n], Single(a))
  {
    if n != 0 {
      assert es[..n] == es[..n - 1] + [es[n - 1]];
      EntriesHaveAppend(es[..n - 1], es[n - 1], Single(a));
      EntrySinglesArePublished(es, n - 1, a);
      SinglesArePublished(es[n - 1].prefixes, |es[n - 1].prefixes|, a);
    }
  }

  lemma {:induction false} ResourceSinglesArePublished(rs: seq<Resource>, n: nat, a: Addr)
    requires n <= |rs|
    ensures a in ResourceSingles(rs, n) <==> a != NoAddr && ResourcesHave(rs[..n], Single(a))
  {
    if n != 0 {
      assert rs[..n] == rs[..n - 1] + [rs[n - 1]];
      ResourcesHaveAppend(rs[..n - 1], rs[n - 1], Single(a));
      assert rs[n - 1].entries[..|rs[n - 1].entries|] == rs[n - 1].entries;
      ResourceSinglesArePublished(rs, n - 1, a);
      EntrySinglesArePublished(rs[n - 1].entries, |rs[n - 1].entries|, a);
    }
  }

  lemma {:induction false} HostAddressesAreListed(hosts: seq<DnsHost>, n: nat, a: Addr)
    requires n <= |hosts|
    ensures a in HostAddresses(hosts, n) <==> Hosted(hosts[..n], a)
  {
    if n != 0 {
      assert hosts[..n] == hosts[..n - 1] + [hosts[n - 1]];
      HostAddressesAreListed(hosts, n - 1, a);
      ListedAppend(hosts[..n - 1], hosts[n - 1]);
      assert a in hosts[n - 1].addresses ==> Listed(hosts[..n], hosts[n - 1].domain, a);
    }
  }

  /** The candidates are exactly the DNS servers, the listed host addresses and the published
      single addresses. */
  lemma CandidatesExactly(dns: seq<Addr>, hosts: seq<DnsHost>, resources: seq<Resource>, a: Addr)
    ensures a in Candidates(dns, hosts, resources) <==>
            a in dns || Hosted(hosts, a) || (a != NoAddr && ResourcesHave(resources, Single(a)))
  {
    HostAddressesAreListed(hosts, |hosts|, a);
    ResourceSinglesArePublished(resources, |resources|, a);
    assert hosts[..|hosts|] == hosts && resources[..|resources|] == resources;
  }

  /** A prefix that is published is permitted without port. */
  lemma HavingPermits(rs: seq<Resource>, a: Addr)
    requires a != NoAddr && ResourcesHave(rs, Single(a))
    ensures Permitted(rs, a, 0)
  {
    SingleContains(a, a);
    var i :| 0 <= i < |rs| && EntriesHave(rs[i].entries, Single(a));
    var es := rs[i].entries;
    var j :| 0 <= j < |es| && Single(a) in es[j].prefixes;
    assert EntryPermits(es[j], a, 0);
    assert EntriesPermit(es, a, 0);
  }

  /** The candidates come in three stretches: the DNS servers as given, then listed host addresses,
      then published single addresses. */
  lemma CandidatesInOrder(dns: seq<Addr>, hosts: seq<DnsHost>, resources: seq<Resource>) returns (n: nat)
    ensures var picked := Candidates(dns, hosts, resources);
            && dns <= picked && |dns| <= n <= |picked|
            && (forall i :: |dns| <= i < n ==> Hosted(hosts, picked[i]))
            && (forall i :: n <= i < |picked| ==> ResourcesHave(resources, Single(picked[i])))
  {
    var hosted, singles := HostAddresses(hosts, |hosts|), ResourceSingles(resources, |resources|);
    n := |dns| + |hosted|;
    assert hosts[..|hosts|] == hosts && resources[..|resources|] == resources;
    forall a | a in hosted ensures Hosted(hosts, a) {
      HostAddressesAreListed(hosts, |hosts|, a);
    }
    forall a | a in singles ensures ResourcesHave(resources, Single(a)) {
      ResourceSinglesArePublished(resources, |resources|, a);
    }
    var picked := Candidates(dns, hosts, resources);
    forall i | |dns| <= i < n ensures Hosted(hosts, picked[i]) {
      assert picked[i] == hosted[i - |dns|];
    }
    forall i | n <= i < |picked| ensures ResourcesHave(resources, Single(picked[i])) {
      assert picked[i] == singles[i - n];
    }
  }

  /** With the filter and the hosts that one session derives from the same lists, every candidate
      that is a specified IPv4 address can be probed, so probing is given up only when there is
      no such candidate. */
  lemma CandidatesReach(
    published: seq<Resource>, records: seq<DnsRecord>, hosts: seq<DnsHost>, dns: seq<Addr>, rules: seq<Rule>, a: Addr)
    requires AllAddressed(records)
    requires forall d, b :: Listed(hosts, d, b) <==> Recorded(records, d, b)
    requires AddedExactly(rules, Applied(published, records), dns)
    requires a in Candidates(dns, hosts, Applied(published, records))
    ensures Reaches(Rules(rules), a) <==> a.V4? && !a.IsUnspecified()
  {
    var resources := Applied(published, records);
    if a.V4? {
      CandidatesExactly(dns, hosts, resources, a);
      if ResourcesHave(resources, Single(a)) {
        HavingPermits(resources, a);
      }
      forall d | Listed(hosts, d, a) ensures Permitted(resources, a, 0) {
        HostsAreOpened(published, records, hosts, d, a);
      }
      assert Published(resources, dns, a, 0);
      assert AnyAllows(rules, a, 0);
    }
  }

  /** `newDataChannelKeepalive` (data_channel_keepalive.go:24-62): a configured destination must
      be reachable, otherwise the first candidate that is. */
  method NewDataChannelKeepalive(
    interval: nat, source: Addr, configured: Addr, dns: seq<Addr>, hosts: seq<DnsHost>, resources: seq<Resource>,
    filter: Filter?)
    returns (k: Keepalive)
    requires filter != null ==> filter.Valid()
    ensures var candidates := Candidates(dns, hosts, resources);
            && (k.Disabled? <==>
                  interval == 0 || (source.V4? && configured == NoAddr && NoneReaches(Live(filter), candidates)))
            && (k.Probing? ==>
                  && 0 < interval && source.V4? && Reaches(Live(filter), k.destination)
                  && if configured != NoAddr then k.destination == configured
                     else IsFirstReached(Live(filter), candidates, k.destination))
            && (k.Rejected? ==>
                  0 < interval && (!source.V4? || (configured != NoAddr && !Reaches(Live(filter), configured))))
  {
    if interval == 0 {
      return Disabled;
    }
    if !source.V4? {
      return Rejected;
    }
    if configured != NoAddr {
      var ok := DecideReaches(filter, configured);
      return if ok then Probing(configured) else Rejected;
    }
    var candidates := PickProbeDestinations(dns, hosts, resources);
    for i := 0 to |candidates|
      invariant NoneReaches(Live(filter), candidates[..i])
    {
      var ok := DecideReaches(filter, candidates[i]);
      if ok {
        return Probing(candidates[i]);
      }
    }
    assert candidates[..|candidates|] == candidates;
    return Disabled;
  }

  // ------------------------------------------------------------- timer loop

  datatype Config = Config(interval: nat, timeout: nat, filter: OutboundFilter, destination: Uint32)

  datatype Ending = Cancelled | Silent(silence: nat) | WriteFailed
  datatype Phase = Running | Ended(ending: Ending)

  /** A probe that reached the connection: when, how long the upload had been idle, how long the
      receive side had been silent, and its sequence number. */
  datatype Sent = Sent(time: nat, idle: nat, silence: nat, sequence: Uint16)

  /** `rejected` counts the probes that the filter dropped. */
  datatype State = Moment(
    now: nat, lastWrite: nat, lastInbound: nat, timerAt: nat, phase: Phase, probes: seq<Sent>, rejected: nat,
    sequence: Uint16)

  /** A fired timer finds the session ready or not, and the connection takes the write or not. */
  datatype Step = Advance(d: nat) | DataWritten | Inbound | Fire(ready: bool, writeOk: bool) | Cancel

  /** The filter lets out the probes of this keepalive. */
  ghost predicate Passes(c: Config) {
    LetsOut(c.filter, EchoRequest(c.destination))
  }

  /** One turn of the loop body (data_channel_keepalive.go:106-122) at `s.now`, with the part of
      the write path it takes (session.go:226-267). */
  ghost function Turn(c: Config, s: State, ready: bool, writeOk: bool): State
    requires s.lastWrite <= s.now && s.lastInbound <= s.now
  {
    var idle, silence := s.now - s.lastWrite, s.now - s.lastInbound;
    if idle < c.interval then s.(timerAt := s.now + (c.interval - idle))
    else if c.timeout > 0 && silence > c.timeout then s.(phase := Ended(Silent(silence)))
    else
      var built := s.(sequence := (s.sequence + 1) % 0x1_0000);
      if !ready then built.(phase := Ended(WriteFailed))
      else if !Passes(c) then built.(rejected := s.rejected + 1, timerAt := s.now + c.interval)
      else if !writeOk then built.(phase := Ended(WriteFailed))
      else
        built.(probes := s.probes + [Sent(s.now, idle, silence, built.sequence)],
               lastWrite := s.now, timerAt := s.now + c.interval)
  }

  /** Time does not pass a timer that is due; the clock never goes back. */
  predicate Enabled(s: State, step: Step) {
    s.lastWrite <= s.now && s.lastInbound <= s.now &&
    match step
    case Advance(d) => s.phase == Running ==> s.now + d <= s.timerAt
    case Fire(_, _) => s.phase == Running && s.now >= s.timerAt
    case Cancel => s.phase == Running
    case _ => true
  }

  ghost function Apply(c: Config, s: State, step: Step): State
    requires Enabled(s, step)
  {
    match step
    case Advance(d) => s.(now := s.now + d)
    case DataWritten => s.(lastWrite := s.now)
    case Inbound => s.(lastInbound := s.now)
    case Fire(ready, writeOk) => Turn(c, s, ready, writeOk)
    case Cancel => s.(phase := Ended(Cancelled))
  }

  /** The session marks a write and an inbound packet as it starts, and the timer is set. */
  function Initial(interval: nat, start: nat): State {
    Moment(start, start, start, start + interval, Running, [], 0, 0)
  }

  ghost predicate IsRun(c: Config, start: nat, states: seq<State>, steps: seq<Step>) {
    && |states| == |steps| + 1 && states[0] == Initial(c.interval, start)
    && forall i {:trigger steps[i]} :: 0 <= i < |steps| ==>
         Enabled(states[i], steps[i]) && states[i + 1] == Apply(c, states[i], steps[i])
  }

  /** When and how each probe went out. */
  ghost predicate ProperProbe(c: Config, p: Sent, i: nat) {
    p.idle == c.interval && (c.timeout > 0 ==> p.silence <= c.timeout) && p.sequence == (i + 1) % 0x1_0000
  }

  ghost predicate Inv(c: Config, s: State) {
    && s.lastWrite <= s.now && s.lastInbound <= s.now
    && (s.phase == Running ==> s.now <= s.timerAt <= s.lastWrite + c.interval)
    && (s.probes != [] ==> s.probes[|s.probes| - 1].time <= s.lastWrite)
    && (forall i :: 0 <= i < |s.probes| ==> ProperProbe(c, s.probes[i], i))
    && (forall i, j :: 0 <= i < |s.probes| - 1 && j == i + 1 ==> s.probes[i].time + c.interval <= s.probes[j].time)
    && (s.phase.Ended? && s.phase.ending.Silent? ==> 0 < c.timeout < s.phase.ending.silence)
    && s.rejected == 0
    && (s.phase == Running ==> s.sequence == |s.probes| % 0x1_0000)
  }

  lemma TurnKeepsInv(c: Config, s: State, ready: bool, writeOk: bool)
    requires Inv(c, s) && Passes(c) && s.phase == Running && s.now >= s.timerAt
    ensures Inv(c, Turn(c, s, ready, writeOk))
  {
    var after := Turn(c, s, ready, writeOk);
    if after.probes != s.probes {
      var n := |s.probes|;
      assert (n % 0x1_0000 + 1) % 0x1_0000 == (n + 1) % 0x1_0000;
      assert ProperProbe(c, after.probes[n], n);
    }
  }

  lemma StepKeepsInv(c: Config, s: State, step: Step)
    requires Inv(c, s) && Enabled(s, step) && Passes(c)
    ensures Inv(c, Apply(c, s, step))
  {
    if step.Fire? {
      TurnKeepsInv(c, s, step.ready, step.writeOk);
    }
  }

  /** Over every run of a keepalive probing a destination that was found reachable: while it runs,
      the timer fires no later than the last write plus the interval, so the upload is never idle
      longer; a probe is sent exactly when the upload has been idle for the interval, so probes
      are at least an interval apart; the filter rejects none and they are numbered from 1 up;
      none is sent once the receive side has been silent for longer than the timeout, and the
      timeout is reported only then. */
  lemma {:induction false} KeepaliveRuns(c: Config, start: nat, states: seq<State>, steps: seq<Step>, i: nat)
    requires IsRun(c, start, states, steps) && Reaches(c.filter, V4(c.destination)) && i < |states|
    ensures Inv(c, states[i])
    ensures states[i].phase == Running ==> states[i].now - states[i].lastWrite <= c.interval
  {
    PassingRuns(c, start, states, steps, i);
  }

  lemma {:induction false} PassingRuns(c: Config, start: nat, states: seq<State>, steps: seq<Step>, i: nat)
    requires IsRun(c, start, states, steps) && Passes(c) && i < |states|
    ensures Inv(c, states[i])
  {
    if i != 0 {
      PassingRuns(c, start, states, steps, i - 1);
      StepKeepsInv(c, states[i - 1], steps[i - 1]);
    }
  }

  /** After a write and a packet received at `since`, with n probes sent before: later probes and the
      report of silence are dated from then on. */
  ghost predicate Postponed(c: Config, since: nat, n: nat, s: State, written: bool, received: bool) {
    && since <= s.now && n <= |s.probes| && s.lastWrite <= s.now && s.lastInbound <= s.now
    && (written ==> since <= s.lastWrite)
    && (written ==> forall i :: n <= i < |s.probes| ==> since + c.interval <= s.probes[i].time)
    && (received ==> since <= s.lastInbound)
    && (received && s.phase.Ended? && s.phase.ending.Silent? ==> since + c.timeout < s.now)
  }

  lemma StepPostponed(c: Config, since: nat, n: nat, s: State, step: Step, written: bool, received: bool)
    requires Postponed(c, since, n, s, written, received) && Enabled(s, step)
    ensures Postponed(c, since, n, Apply(c, s, step), written, received)
  {
    if step.Fire? {
      var s' := Turn(c, s, step.ready, step.writeOk);
      assert s'.probes == s.probes || s'.probes == s.probes + [s'.probes[|s.probes|]];
    }
  }

  /** In every run a write puts off the next probe by a whole interval, and a packet received puts
      off the report of silence by the timeout. */
  lemma {:induction false} TrafficPostpones(
    c: Config, start: nat, states: seq<State>, steps: seq<Step>, i: nat, j: nat)
    requires IsRun(c, start, states, steps) && i < j < |states| && states[i].phase.Running?
    requires steps[i].DataWritten? || steps[i].Inbound?
    ensures Postponed(c, states[i].now, |states[i].probes|, states[j], steps[i].DataWritten?, steps[i].Inbound?)
    decreases j
  {
    if i + 1 < j {
      TrafficPostpones(c, start, states, steps, i, j - 1);
      StepPostponed(c, states[i].now, |states[i].probes|, states[j - 1], steps[j - 1],
                    steps[i].DataWritten?, steps[i].Inbound?);
    }
  }

  /** No run leaves the upload idle for longer than the interval while the loop is running. */
  ghost predicate IdleBounded(c: Config) {
    forall start: nat, states: seq<State>, steps: seq<Step> :: IsRun(c, start, states, steps) ==>
      var s := states[|states| - 1];
      s.phase == Running ==> s.now - s.lastWrite <= c.interval
  }

  /** No run has a probe dropped by the filter. */
  ghost predicate NeverRejected(c: Config) {
    forall start: nat, states: seq<State>, steps: seq<Step> :: IsRun(c, start, states, steps) ==>
      states[|states| - 1].rejected == 0
  }

  /** A run in which the filter drops a probe and the upload stays idle. */
  lemma DroppedRun(c: Config) returns (states: seq<State>, steps: seq<Step>)
    requires !Passes(c) && 0 < c.interval
    ensures IsRun(c, 0, states, steps)
    ensures var s := states[|states| - 1];
            s.phase == Running && s.now - s.lastWrite > c.interval && s.rejected == 1
  {
    var s0 := Initial(c.interval, 0);
    var s1 := Apply(c, s0, Advance(c.interval));
    var s2 := Apply(c, s1, Inbound);
    var s3 := Apply(c, s2, Fire(true, true));
    var s4 := Apply(c, s3, Advance(1));
    states := [s0, s1, s2, s3, s4];
    steps := [Advance(c.interval), Inbound, Fire(true, true), Advance(1)];
  }

  /** Idleness is bounded in every run if and only if the filter lets the probes out, whatever the
      timeout. */
  lemma DroppedProbesLeaveIdle(c: Config)
    requires 0 < c.interval
    ensures IdleBounded(c) <==> Passes(c)
  {
    if Passes(c) {
      forall start: nat, states: seq<State>, steps: seq<Step> | IsRun(c, start, states, steps)
        ensures Inv(c, states[|states| - 1])
      {
        PassingRuns(c, start, states, steps, |states| - 1);
      }
    } else {
      var states, steps := DroppedRun(c);
    }
  }

  /** A probe is rejected in no run if and only if the destination is one that a keepalive would
      find reachable; for an IPv4 destination that is not unspecified the test at construction
      is exact. */
  lemma ProbesAreLetOut(c: Config)
    requires 0 < c.interval && c.destination != 0
    ensures NeverRejected(c) <==> Reaches(c.filter, V4(c.destination))
  {
    if Passes(c) {
      forall start: nat, states: seq<State>, steps: seq<Step> | IsRun(c, start, states, steps)
        ensures states[|states| - 1].rejected == 0
      {
        PassingRuns(c, start, states, steps, |states| - 1);
      }
    } else {
      var states, steps := DroppedRun(c);
    }
  }

  /** The keepalive and the live session state its loop reads and updates. */
  class Loop {
    const interval: nat
    const timeout: nat
    const destination: Uint32
    const filter: Filter?
    var state: State

    ghost function Settings(): Config
      reads filter
    {
      Config(interval, timeout, Live(filter), destination)
    }

    constructor (interval: nat, timeout: nat, destination: Uint32, filter: Filter?, start: nat)
      ensures Settings() == Config(interval, timeout, Live(filter), destination) && this.filter == filter
      ensures state == Initial(interval, start)
    {
      this.interval, this.timeout, this.destination, this.filter := interval, timeout, destination, filter;
      state := Initial(interval, start);
    }

    /** The loop body as the source orders it. */
    method TimerFired(ready: bool, writeOk: bool)
      requires state.phase == Running && state.lastWrite <= state.now && state.lastInbound <= state.now
      requires filter != null ==> filter.Valid()
      modifies this
      ensures state == Turn(Settings(), old(state), ready, writeOk)
    {
      var now := state.now;
      var idle := now - state.lastWrite;
      if idle < interval {
        state := state.(timerAt := now + (interval - idle));
        return;
      }
      if timeout > 0 {
        var silence := now - state.lastInbound;
        if silence > timeout {
          state := state.(phase := Ended(Silent(silence)));
          return;
        }
      }
      state := state.(sequence := (state.sequence + 1) % 0x1_0000);
      var ok := WriteProbe(ready, writeOk);
      state := if ok then state.(timerAt := now + interval) else state.(phase := Ended(WriteFailed));
    }

    /** The write path for one probe: ready, filter, connection. */
    method WriteProbe(ready: bool, writeOk: bool) returns (ok: bool)
      requires state.lastWrite <= state.now && state.lastInbound <= state.now
      requires filter != null ==> filter.Valid()
      modifies this
      ensures ok <==> ready && (Passes(Settings()) ==> writeOk)
      ensures state ==
              if !ok then old(state)
              else if !Passes(Settings()) then old(state).(rejected := old(state).rejected + 1)
              else old(state).(
                probes := old(state).probes +
                  [Sent(old(state).now, old(state).now - old(state).lastWrite, old(state).now - old(state).lastInbound,
                        old(state).sequence)],
                lastWrite := old(state).now)
    {
      if !ready {
        return false;
      }
      if filter != null {
        var permitted := filter.Permits(EchoRequest(destination));
        if !permitted {
          state := state.(rejected := state.rejected + 1);
          return true;
        }
      }
      if !writeOk {
        return false;
      }
      var s := state;
      state := s.(
        probes := s.probes + [Sent(s.now, s.now - s.lastWrite, s.now - s.lastInbound, s.sequence)],
        lastWrite := s.now);
      return true;
    }
  }
}
