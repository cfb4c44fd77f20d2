# Verified model of the EasyConnect VPN client

A Dafny model of the parts of the client where a mistake loses packets, leaks sessions, deadlocks a
goroutine or sends traffic the gateway punishes, with proofs over all inputs and all interleavings.
`dafny verify dfyconfig.toml` checks the whole project.

| files | what they model |
|---|---|
| `Bits`, `Netip`, `AddressRange` | prefixes, and the decomposition of an address range into CIDR blocks in wrapping uint32 |
| `Sorting`, `RouteMerge` | merging of route prefixes |
| `Resources`, `DnsHosts`, `DnsHostsTwice`, `ResourceFilter`, `Routing` | published resources, the DNS host table folded into them, the outbound filter, and their agreement with the routes |
| `PacketQueue`, `PacketQueueRuns` | the ring queue, and every interleaving of its users |
| `Wire`, `WireReaders`, `PacketBuffers` | frames, replies and camouflage records as printer and parser; in-place framing and payload encoding |
| `UploadPath`, `UploadOwnership`, `UploadStream`, `UploadComplete`, `UploadProgress` | every interleaving of callers, writer, probe, `Fail`, `Start` and `Close` on the way out |
| `ProbeTimer` | the keepalive destination, and the probe timer in discrete time |
| `Reconnect`, `Lifecycle`, `Supervisor*` | the reconnect budget, the lifecycle fields, and every interleaving of the supervisor, the callers and the event dispatcher |

How it is modelled:

- Each critical section of a mutex is one step, and every unlock is a point where other goroutines
  run. A run is a sequence of states, each the result of a step that was enabled in the one before.
- A channel that is closed to signal is a number with a "closed" bit; a goroutine blocked on it may
  go on once the bit is set.
- Foreign operations (authentication, dialing, connection writes, a session failing on its own) are
  choices made by the step, so every outcome is covered. `authenticate` succeeds or fails, terminally
  or not; `connectTunnel` likewise. A session that fails on its own does so after its start and not
  with a suspension, which is an error that only `Suspend` and the supervisor's own check use.
- Integers are unbounded, and uint32 arithmetic is wrapped explicitly where it can wrap. Bytes are
  numbers below 256. Durations are nanoseconds.
- `slices.SortFunc` is a sort that promises a sorted permutation and no more.
- Objects the source updates in place are classes (`PacketQueue.Ring`, `ResourceFilter.Filter`,
  `WireReaders.Reader`, `PacketBuffers.Buffer`, `Lifecycle.ClientObject`, `Reconnect.Supervision`,
  `ProbeTimer.Loop`). Their methods are proved equal to the functions that the runs are made of.

Statements the code does not support, with the exact condition under which they hold:

- Merged routes are pairwise disjoint if and only if no sorted input is straddled by a later, larger
  one (`RouteMerge.MergeDisjointIff`); 10.0.0.1/32 with the unmasked 10.0.0.2/30 is a counterexample
  (`RouteMerge.UnmaskedMayOverlap`), and masked inputs always satisfy the condition.
- Applying the host table twice is applying it once if and only if every record names a resource and
  has a domain that is canonical or was that of an entry of its resource from the start
  (`DnsHostsTwice.AppliedTwice`). The parser refuses records without an ID, but `r:http:// . a:1.2.3.4`
  leaves the domain " a", for which each application adds one more entry
  (`DnsHostsTwice.AppliedTwiceDiffers`).
- Canonicalising a domain twice is canonicalising it once if and only if the domain, its outer spaces
  trimmed, has no space that only dots separate from an end (`Resources.CanonicalTwice`); ". a" has one
  (`Resources.SpaceUncovered`).
- A frame is read back if and only if its payload has at most 65535 bytes (`Wire.FrameRoundTrip`).
- A session that is not ready, failed or not, can get ready in some continuation if and only if the
  supervisor is about to start it, or about to make it current on a client neither closed nor cancelled
  (`SupervisorReady.ReadyAgainIff`). A `RestartSession` between the two leads to a failed session that
  is published and handed out as ready (`SupervisorReady.FailedSessionPublished`).
- Upload idleness is bounded by the interval in every run if and only if the filter lets the probes out
  (`ProbeTimer.DroppedProbesLeaveIdle`).
- Every popped batch is written unless it is given up at a step that finds the queue closed or the
  session not ready, or whose write fails (`UploadComplete.MissingBatch`); none is while the session has
  neither failed nor is being closed (`UploadComplete.NothingSkipped`).

## Model

| member | source | states |
|---|---|---|
| `AddressRange.AddressRangePrefixes` | resource.go:141-171 | for IPv4 start ≤ end the loop terminates with aligned blocks laid end to end from start to end, each the largest aligned block that fits at its place, although `blockSize` may become 0 and `first+blockSize` may wrap; otherwise nothing |
| `AddressRange.GreedyBitLength` | resource.go:152-163 | the bit count chosen is bounded by the trailing zeros of the address and by the logarithm of the remaining count |
| `AddressRange.GreedyBlock` | resource.go:152-164 | the block appended starts at the address, fits the rest of the range and is the largest that does |
| `AddressRange.GreedyIsLargest` | resource.go:152-164 | the block fits the remaining range and no aligned block at the same address that fits is larger |
| `AddressRange.WrappedStep` | resource.go:165-169 | the wrapped uint32 comparison and increment decide as unbounded ones |
| `AddressRange.RangeIsTiled` | resource.go:141-171 | tiles cover exactly the addresses of the range, are masked, strictly ascending and never overlap |
| `AddressRange.TileIsMaximal` | resource.go:151-170 | any prefix inside the range that shares an address with a returned block lies in that block |
| `AddressRange.TilingIsMinimal` | resource.go:151-170 | any list of prefixes with the same union is at least as long |
| `AddressRange.AtMost62` | resource.go:151-170 | no range takes more than 62 blocks |
| `AddressRange.SixtyTwoReached` | resource.go:151-170 | 0.0.0.1 to 255.255.255.254 takes exactly 62 |
| `Netip.OverlapsMeansShared` | tunnel_config.go:117 | `Overlaps` holds exactly when some address is in both; with the bit test it is containment |
| `Netip.EnclosesIsInclusion` | tunnel_config.go:117 | containment by bits and address is inclusion of the address sets |
| `RouteMerge.MergePrefixes` | tunnel_config.go:103-123 | the result is the merge of a sorted permutation and covers exactly the addresses the input covered, masked or not, valid or not; for masked inputs it is their containment-maximal part |
| `RouteMerge.MergeKeepsCoverage` | tunnel_config.go:111-122 | merging neither adds nor loses an address |
| `RouteMerge.MergeIsKept` | tunnel_config.go:112-121 | comparing with the last merged prefix only equals keeping each prefix that no earlier one encloses |
| `RouteMerge.MergeDisjointIff` | tunnel_config.go:103-123 | the result is pairwise disjoint if and only if no sorted input is straddled |
| `RouteMerge.MergeOfMasked` | tunnel_config.go:103-123 | for masked inputs the result is exactly the containment-maximal ones, without duplicates, strictly ascending and disjoint |
| `RouteMerge.UnmaskedMayOverlap` | tunnel_config.go:105-116 | an unmasked input for which the result overlaps |
| `Resources.CanonicalTwice` | resource.go:356-358 | canonicalisation is idempotent on a domain if and only if, its outer spaces trimmed, it has no space that only dots separate from an end |
| `Resources.SpaceUncovered` | resource.go:356-358 | ". a" becomes " a" and then "a" |
| `Resources.CanonicalMeans` | resource.go:356-358 | the result is the part of the domain left when spaces, then dots, are cut at both ends until something else stands there, A to Z lowered |
| `DnsHosts.ApplyDNSHosts` | resource.go:295-342 | the loops compute the fold of the records over the resources and the ID index |
| `DnsHosts.IndexIDsLast` | resource.go:300-305 | an ID leads to the last resource that has it, and the empty ID to none |
| `DnsHosts.OpenEntriesLoop` | resource.go:321-338 | every entry with the record's domain gets the address once, or a new entry with all ports is added |
| `DnsHosts.ApplyRecordPermits` | resource.go:306-340 | one record permits its address on the ports of the matching entries, on all ports when none matches, and changes nothing else |
| `DnsHosts.AfterPermits` | resource.go:306-340 | the permitted datagrams after any number of records are those permitted before and those each record opened at its turn |
| `DnsHosts.AppliedOnlyOpens` | resource.go:295-342 | no permission is revoked, new destinations are record addresses, and every record address is opened |
| `DnsHostsTwice.AppliedTwice` | resource.go:295-342 | for all resources and records, a second application changes nothing if and only if every record has a resource ID and a domain that is canonical or matched by an original entry of its resource |
| `DnsHostsTwice.AddedIsCanonical` | resource.go:321-338 | a record that added an entry and is matched in the end has a canonical domain, so no entry added for another record makes up for one that is not |
| `DnsHostsTwice.AppliedTwiceDiffers` | resource.go:220-221 | a record the parser produces for which a second application adds an entry |
| `DnsHosts.CollectDNSHosts` | resource.go:265-293 | exactly the named records, one host a name, each address once, both levels sorted |
| `DnsHosts.CollectRecord` | resource.go:269-285 | one record adds exactly its pair, and the two lookup maps stay consistent with the hosts |
| `DnsHosts.SortTable` | resource.go:286-291 | both sorts keep every pair |
| `DnsHosts.StringAtMostMeans` | resource.go:286-288 | the order of names is the lexicographic one |
| `DnsHosts.MergeAddresses` | resource.go:250-263 | the first list, then the usable new addresses of the second in the order in which it first has them, no duplicates added |
| `ResourceFilter.Filter.Add` | resource_filter.go:39-46 | the address map and the prefix list together stay equal to a scan of all rules added |
| `ResourceFilter.Filter.Permits` | resource_filter.go:48-64 | a datagram is permitted exactly when its destination is known and some rule added allows it |
| `ResourceFilter.LetsThroughMeans` | resource_filter.go:48-90 | in terms of the header: TCP needs 20 and UDP 8 bytes, their port must lie in the rule's range unless it is 0, and other protocols need only the address |
| `ResourceFilter.AddResource` | resource_filter.go:26-32 | the rules of one resource permit exactly what its entries permit |
| `ResourceFilter.NewResourceFilter` | resource_filter.go:24-37 | the filter allows exactly what the resources publish and the always-allowed addresses |
| `Routing.BuildRoutes` | tunnel_config.go:82-98 | the routes cover exactly the resources' prefixes, the hosts' addresses and the DNS servers; for masked prefixes they are exactly the outermost of these, strictly ascending and disjoint |
| `Routing.ResourcePrefixes` | resource.go:43-47 | the flattened prefixes cover what the entries permit without port |
| `Routing.HostPrefixes` | tunnel_config.go:87-92 | the host routes cover exactly the listed addresses |
| `Routing.RoutedIffPublished` | auth.go:93-96 | an address is routed if and only if a portless datagram to it is published, and whatever is published on a port is routed |
| `Routing.ConnectRouting` | session.go:129-132 | from the parsed lists alone: an address is routed exactly when it is published without port, a record's, or a DNS server's; a datagram is let out exactly when its destination is published, opened by a record on that port, or a DNS server, and then it is routed; for masked resources the routes are exactly the outermost of these prefixes |
| `Routing.AppliedHas` | resource.go:306-340 | the host table adds exactly the record addresses to the published prefixes |
| `Routing.AppliedMasked` | resource.go:306-340 | the host table keeps published prefixes masked |
| `PacketQueue.Ring.PushLocked` | data_packet_queue.go:58-66 | the ring array appends to the contents and signals a reader when it was empty |
| `PacketQueue.Ring.TryPushBatchLocked` | data_packet_queue.go:22-31 | as many items as fit are appended, none once closed, and their number is returned |
| `PacketQueue.Ring.PushTurnLocked` | data_packet_queue.go:33-56 | one turn of the push loop refuses, accepts, or hands out the channel to wait on |
| `PacketQueue.Ring.TakeLocked` | data_packet_queue.go:85-93 | the copying loop hands out the first live slots in order and zeroes them |
| `PacketQueue.Ring.PopIntoLocked` | data_packet_queue.go:72-97 | the first items are handed out in order, freed slots hold the zero value again, and pushers are signalled |
| `PacketQueue.Ring.WakeLocked` | data_packet_queue.go:99-106 | a closed channel when there is something to read or the queue is closed, else the channel to wait on |
| `PacketQueue.Ring.CloseLocked` | data_packet_queue.go:114-122 | closing signals both sides once |
| `PacketQueue.PushTurnKeeps` | data_packet_queue.go:33-66 | a live channel is open and its condition false: notEmpty only while empty and open, notFull only while full and open; all other channels stay closed |
| `PacketQueue.PopKeeps` | data_packet_queue.go:72-97 | the same for popping |
| `PacketQueue.CloseKeeps` | data_packet_queue.go:114-122 | the same for closing |
| `PacketQueue.BatchKeeps` | data_packet_queue.go:22-31 | the same for a batch |
| `PacketQueue.WakeKeeps` | data_packet_queue.go:99-106 | the same for handing out a channel to a reader |
| `PacketQueue.SlotIsModulo` | data_packet_queue.go:60 | the modulo index is the slot behind the head |
| `PacketQueue.PushTurnDecides` | data_packet_queue.go:33-66 | a push is refused only by a closed queue, accepted exactly when an open one has room, and waits for an unsignalled channel otherwise |
| `PacketQueue.BatchDecides` | data_packet_queue.go:22-31 | of a batch an open queue accepts all or as much as fills it, from the front; a closed one nothing |
| `PacketQueue.PopDecides` | data_packet_queue.go:72-97 | what is handed out and what stays make up the contents; a positive maximum hands out that many, or all there are |
| `PacketQueueRuns.RunKeepsInv` | data_packet_queue.go:22-155 | the FIFO and wakeup invariants hold in every state of every run |
| `PacketQueueRuns.QueueRefinesBoundedFifo` | data_packet_queue.go:22-97 | in every run what was popped followed by the contents is what was accepted, within capacity, and a blocked pusher or reader has a false condition or a closed channel |
| `PacketQueueRuns.ClosedForGood` | data_packet_queue.go:114-130 | nothing is accepted after close, and one more pop hands out all that is missing |
| `PacketQueueRuns.PushAnswered` | data_packet_queue.go:33-56 | in every run a push answered true had its item accepted by an open queue with room, and one answered false was cancelled or found the queue closed |
| `PacketQueueRuns.AcceptedStep` | data_packet_queue.go:22-56 | nothing is accepted but by a push that is answered true or by a batch, from its front |
| `Wire.FrameRoundTrip` | l3_channel.go:73-94 | a frame is read back with exactly its bytes consumed if and only if the payload has at most 65535 bytes |
| `Wire.StreamRoundTrip` | l3_channel.go:73-94 | reading a concatenation of frames gives the payloads in order |
| `Wire.AppliedTwice` | payload_encoding.go:42-47 | applying the payload encoding twice gives the payload back |
| `Wire.XorAllTwice` | payload_encoding_xor.go:5-9 | combining with any key twice gives the bytes back |
| `Wire.XorByteBits` | payload_encoding_xor.go:5-9 | a bit of the combined byte is set exactly where the two bytes differ |
| `Wire.ObfuscationFlips` | payload_encoding.go:24-47 | the key flips the bit of weight 64 and nothing else |
| `Wire.FrameLayout` | protocol.go:198-202 | every byte of a frame: `IPCP`, the total length low byte first, four zeros, the payload with that bit flipped or as it is |
| `Wire.ReadDataPacketIff` | l3_channel.go:73-86 | exactly the streams that start with `IPCP` and a legal length that is all there yield a packet, of that length |
| `Wire.ReadReplyIff` | protocol.go:176-194 | exactly the streams of at least 40 bytes that start with `AABB` yield a reply, whose fields stand at the offsets the source reads |
| `Wire.ReadRecordIff` | camouflage.go:155-174 | exactly the streams with the expected kind and a length of at most 2^14, high byte first, that is all there yield a record, of that length |
| `Wire.ReadServerAckIff` | camouflage.go:135-153 | exactly three records of kinds 22, 20 and 22, the first starting with 2, are accepted |
| `Wire.NegotiatedEncoding` | payload_encoding.go:28-40 | the encoding accepted for an announcement is the one and only encoding that reads back the packets of a gateway that flips the bit of weight 64 or leaves them alone; announcements that are not understood are refused |
| `Wire.ReplyRoundTrip` | protocol.go:176-194 | an AABB reply is read back field by field from exactly 40 bytes |
| `Wire.RecordRoundTrip` | camouflage.go:155-174 | a record is read back exactly when its kind is the expected one and its length legal |
| `Wire.ServerAckRoundTrip` | camouflage.go:135-153 | three legal records are consumed exactly and accepted if and only if the first is a server hello |
| `WireReaders.Reader.ReadTLSRecord` | camouflage.go:155-174 | the reader succeeds and consumes as the record parser says |
| `WireReaders.Reader.ReadCamouflageServerAck` | camouflage.go:135-153 | the same for the three records |
| `WireReaders.Reader.ReadAABB` | protocol.go:176-194 | the same for the reply |
| `WireReaders.Reader.ReadIPCPHeader` | protocol.go:204-222 | the same for the frame header |
| `WireReaders.Reader.ReadPacket` | l3_channel.go:73-86 | the same for one packet |
| `WireReaders.Reader.ReceiveAll` | session.go:198-212 | the receive loop counts every packet of the stream up to the first error as inbound and hands on those that are neither empty nor the keepalive's own echo replies |
| `WireReaders.ForwardedAre` | session.go:206-212 | what is handed on stands, in order and as often as read, at exactly the places of the packets that are neither empty nor owned |
| `WireReaders.Reader.ReadFull` | protocol.go:178 | exactly n bytes are consumed, or the stream is used up and an error reported |
| `WireReaders.ReceiveSide` | camouflage.go:135-174 | three camouflage records, one reply and any frames are consumed part by part, and exactly the sent payloads are delivered |
| `PacketBuffers.XorKey` | payload_encoding_xor.go:5-9 | the range is combined with the key byte by byte, nothing else changes |
| `PacketBuffers.XorKeyVector` | payload_encoding_xor_simd.go:9-20 | the same result for every length and every lane width |
| `PacketBuffers.NewPacketBufferFrom` | packet_buffer.go:18-22 | a fresh buffer with headroom holding the payload |
| `PacketBuffers.Buffer.ApplyEncoding` | payload_encoding.go:42-47 | the payload is encoded in place |
| `PacketBuffers.Buffer.PrependHeader` | protocol.go:198-202 | the header ends up in front of the payload |
| `PacketBuffers.RequireHeadroom` | packet_buffer.go:28-35 | the same buffer, or a copy with headroom for which the old one is released once |
| `PacketBuffers.FrameDataPacket` | l3_channel.go:88-94 | the buffer ends up holding the frame of its payload, and there is always headroom for the header |
| `UploadPath.FrameLoop` | session.go:233-242 | the loop frames permitted packets and replaces those without headroom |
| `UploadOwnership.FramedTimes` | session.go:233-242 | replacing buffers neither loses nor invents one |
| `UploadOwnership.FramedBuffers` | l3_channel.go:88-94 | after framing every permitted buffer has headroom and its payload, and the others are untouched |
| `UploadOwnership.StepConserves` | data_packet_writer.go:8-48 | every step keeps each buffer held once or released once |
| `UploadOwnership.ReleasedExactlyOnce` | data_packet_writer.go:8-48 | in every state of every run a buffer handed over is held in one place or has been released once, never both, never twice |
| `UploadOwnership.AllReleasedAtRest` | session.go:280-297 | when the session is over every buffer has been released exactly once |
| `UploadOwnership.EmptyAfterClose` | session.go:280-297 | once `Close` has returned the outgoing queue is empty and closed in every later state |
| `UploadStream.FramedPayloads` | session.go:233-242 | the frames of a batch are those of its permitted payloads, in order |
| `UploadStream.StepKeeps` | session.go:226-267 | every step keeps the stream whole until a write fails, and batches in order |
| `UploadStream.StreamDecodes` | session.go:226-267 | until the first failed write, decoding the upload stream gives the permitted payloads of the batches in pop order with probes only between them, and popped batches then queue are what was accepted |
| `UploadComplete.StepAccounts` | session.go:226-267 | a step leaves a popped batch written or in the writer's hands, or gives it up for one of the four reasons |
| `UploadComplete.MissingBatch` | data_packet_writer.go:20-43 | in every run a popped batch that was not written was given up at a step that found the queue closed or the session not ready, whose write failed, or that drained a closed queue |
| `UploadComplete.NothingSkipped` | data_packet_writer.go:20-43 | while the session has not failed and is not being closed, exactly the popped batches but the one in hand have been written, in order, and these, the one in hand and the queue are all that was accepted |
| `UploadProgress.SentWasReady` | session.go:226-231 | in every run a batch in the stream was found by the writer with the queue open and then with the session ready before it was written |
| `UploadProgress.ProbeWasReady` | session.go:226-231 | the same for a probe about to be written |
| `UploadProgress.FailedStaysDown` | session.go:269-278 | a session that fails after it was started is not ready in any later state |
| `UploadProgress.ProbesEnd` | data_channel_keepalive.go:118-122 | no probe is built after one that was refused or could not be written |
| `UploadProgress.WriterNeverStuck` | data_packet_writer.go:24-31 | in every run the writer sleeps on an unsignalled channel only while the queue is open and empty |
| `UploadProgress.WriterFinishes` | data_packet_writer.go:20-43 | once the queue is closed the writer is never blocked and exits after at most seven steps of its own |
| `ProbeTimer.NewDataChannelKeepalive` | data_channel_keepalive.go:24-62 | disabled, rejected, or probing a destination that the filter lets out: the configured one, or the first of the picked candidates of which that holds |
| `ProbeTimer.PickProbeDestinations` | data_channel_keepalive.go:64-77 | exactly the DNS servers, then the listed hosts, then the published single addresses, each in order |
| `ProbeTimer.DecideReaches` | data_channel_keepalive.go:79-89 | an IPv4 address that is not unspecified and whose echo request the filter lets out |
| `ProbeTimer.SinglesArePublished` | data_channel_keepalive.go:69-75 | the addresses taken from prefixes are exactly those of single-address prefixes |
| `ProbeTimer.CandidatesExactly` | data_channel_keepalive.go:64-77 | an address is a candidate exactly when it is a DNS server, a listed host address or a published single address |
| `ProbeTimer.CandidatesInOrder` | data_channel_keepalive.go:64-77 | the DNS servers come first, then the host addresses, then the published single addresses |
| `ProbeTimer.CandidatesReach` | session.go:129-133 | with the filter and hosts derived from the same lists every specified IPv4 candidate is reachable, so probing is given up only without one |
| `ProbeTimer.ProbesAreLetOut` | data_channel_keepalive.go:79-89 | no run has a probe rejected by the filter if and only if the destination passes the reachability test |
| `ProbeTimer.KeepaliveRuns` | data_channel_keepalive.go:97-124 | for a reachable destination, in every run no probe is rejected and they are numbered from 1; the timer fires by last write plus interval, so idleness never exceeds it; probes go out exactly at the interval, so they are at least one apart; none past the silence timeout, which is reported only then |
| `ProbeTimer.TrafficPostpones` | data_channel_keepalive.go:106-118 | in every run a write puts off the next probe by a whole interval, and a packet received puts off the report of silence by the timeout |
| `ProbeTimer.DroppedProbesLeaveIdle` | data_channel_keepalive.go:97-124 | idleness is bounded in every run if and only if the filter lets the probes out, whatever the timeout |
| `ProbeTimer.Loop.TimerFired` | data_channel_keepalive.go:106-122 | the loop body, with the live filter, computes the turn the runs are made of |
| `ProbeTimer.Loop.WriteProbe` | session.go:226-267 | a probe is refused when not ready, dropped by the filter without error, or written and the write marked |
| `Reconnect.WaitsForIsLeast` | client_supervisor.go:222-242 | the closed form, 6 + ceil((T-63s)/60s) beyond 63 s, is the least number of waits that uses the budget up |
| `Reconnect.BackoffValues` | client_supervisor.go:36-38 | every backoff is 1, 2, 4, 8, 16, 32 or 60 s |
| `Reconnect.OutOfBudgetExactly` | client_supervisor.go:224-230 | the timeout is raised exactly after that many waits, with all of the budget spent |
| `Reconnect.WaitKeepsSchedule` | client_supervisor.go:162-165 | a wait and the failed attempt after it keep spent and remaining time adding up |
| `Reconnect.Supervision.LoseTunnel` | client_supervisor.go:29-34 | the method computes the state after a lost tunnel |
| `Reconnect.Supervision.FailAttempt` | client_supervisor.go:36-38 | the method doubles the backoff up to the maximum |
| `Reconnect.Supervision.WaitBackoff` | client_supervisor.go:222-242 | timed out, cancelled or elapsed, in that order of precedence; how long, and what is left of the budget |
| `Reconnect.Supervision.RetryUntilTimeout` | client_supervisor.go:105-166 | attempts that keep failing end after the closed-form number of waits, having waited exactly the timeout, if and only if no earlier wait is cancelled; after a cancelled one, time waited and remainder add up |
| `Lifecycle.PublishSection` | client_supervisor.go:256-265 | publishing keeps the invariant, takes nothing back, and happens only while neither closed nor failed |
| `Lifecycle.SetCurrentSection` | client_supervisor.go:244-254 | the same for setting the current session |
| `Lifecycle.ClearSection` | client_supervisor.go:267-275 | the same for clearing it |
| `Lifecycle.TerminalSection` | client_supervisor.go:286-304 | the same for a terminal error, which is written once |
| `Lifecycle.CloseSections` | client_supervisor.go:339-348 | the same for closing |
| `Lifecycle.SuspendSection` | client.go:165-179 | suspending opens a new resume channel, all earlier ones being closed |
| `Lifecycle.ResumeSection` | client.go:181-193 | resuming closes the open channel |
| `Lifecycle.ClientObject.SetCurrent` | client_supervisor.go:244-254 | the method computes the section |
| `Lifecycle.ClientObject.PublishCurrent` | client_supervisor.go:256-265 | the method computes the section |
| `Lifecycle.ClientObject.ClearCurrent` | client_supervisor.go:267-275 | the method computes the section |
| `Lifecycle.ClientObject.SetTerminal` | client_supervisor.go:286-304 | the method computes the section, and asks for cancellation unless closed |
| `Lifecycle.ClientObject.CloseState` | client_supervisor.go:339-348 | the method computes the section |
| `Lifecycle.ClientObject.SuspendLocked` | client.go:165-174 | the method computes the section and returns the session to fail |
| `Lifecycle.ClientObject.ResumeLocked` | client.go:181-193 | the channel it closes was open, so none is closed twice |
| `Lifecycle.ClientObject.CloseLocked` | client.go:382-390 | the method computes the section |
| `SupervisorSessions.RunKeepsShape` | client_supervisor.go:174-220 | in every run the current and the published session are those of the place the supervisor stands at, and every other session is closed |
| `SupervisorSessions.SuspensionAlwaysHeard` | client_supervisor.go:188-208 | in every interleaving, a supervisor past its suspension check on a suspended client waits on a session that has failed or that a Suspend call still owes a Fail |
| `SupervisorSessions.ResumedChannels` | client_supervisor.go:318-332 | suspended exactly when the latest resume channel is open; nobody stays blocked on one while resumed |
| `SupervisorSuspension.TunnelEnd` | client_supervisor.go:130-156 | in every run, when the end of a tunnel is seen and the loop goes on: the session's own error and one look at the client decide; with a suspension a run of its own starts (reset in the log right after the disconnect, fresh reconnect state), without one the error was not terminal and the remainder is the timeout; no web session is held either way |
| `SupervisorSuspension.NextAnnouncement` | client_supervisor.go:174-192 | the next tunnel is announced as a re-establishment exactly when the one before was not ended by a suspension, none was seen at the look, and nothing has been reset since |
| `SupervisorSuspension.SuspensionIff` | client.go:165-179 | a session's error is a suspension exactly when a Suspend call or the supervisor's own suspension check was the first to fail it |
| `SupervisorLoop.SuspendedWaits` | client_supervisor.go:88-104 | a supervisor that finds the client suspended hands back its web session and waits until it sees the client resumed, and then starts a run of its own |
| `SupervisorLoop.ConnectsOnlyResumed` | client_supervisor.go:122-131 | a tunnel is connected only with a web session in hand, right after a look that found the client not suspended |
| `SupervisorLoop.FailedAttempt` | client_supervisor.go:106-166 | after a failed attempt the loop goes on only if the failure was not terminal, with exactly one wait taken from the budget and the backoff moved on, or afresh if it found a suspension |
| `SupervisorCalls.SuspendFails` | client.go:165-179 | a Suspend call fails the session it found published, or is still about to |
| `SupervisorCalls.OwedWasPublished` | client.go:165-179 | it fails no other session |
| `SupervisorCalls.RestartFails` | client.go:155-163 | a RestartSession call fails the session it found current, or is still about to |
| `SupervisorCalls.CloseCloses` | client.go:380-410 | a call of Close closes the session it found current before it waits for the supervisor |
| `SupervisorCalls.ClosedHasFailed` | session.go:280-297 | in every run a session that has been closed has failed |
| `SupervisorCalls.ResumeUnblocks` | client.go:181-193 | a Resume call leaves the client resumed and nobody blocked on its resume channel |
| `SupervisorEnds.EndsExactlyFor` | client_supervisor.go:80-172 | the loop is left exactly for a cancelled context or closed client, a terminal authentication error, a terminal tunnel error without suspension, or a used up budget |
| `SupervisorEnds.AuthFailedFor` | client_supervisor.go:106-116 | the verdict acted on is that of the authentication that failed |
| `SupervisorEnds.UnpublishedFor` | client_supervisor.go:124-131 | the error acted on after a tunnel that was never published is that of the attempt: the verdict of the connection, or none for a session refused or not published |
| `SupervisorEnds.TerminalRecorded` | client_supervisor.go:286-304 | a terminal error of the supervisor becomes the client's unless it is closed or has one, wakes the callers and cancels the context |
| `SupervisorEnds.FinishedDecided` | client_supervisor.go:339-348 | a finished supervisor leaves the client closed or failed, and a client closed without a Close call was closed by a supervisor that finished without a terminal error |
| `SupervisorEnds.PublishesReady` | client_supervisor.go:256-265 | in every run a session that becomes published is the current one and ready, on a client neither closed, failed nor cancelled |
| `SupervisorEnds.ReadyAnswers` | client.go:195-218 | WaitReady reports the terminal error first, then closing, and readiness exactly while an announced tunnel runs on a ready session |
| `SupervisorEnds.CancelledFinishes` | client_supervisor.go:80-172 | once cancelled the supervisor is never blocked and finishes after at most 25 steps of its own |
| `SupervisorEnds.CloseReturns` | client.go:380-410 | a call of Close that has begun can always go on until it has returned |
| `SupervisorReady.NoMissedReadiness` | client.go:195-218 | a WaitReady caller blocked on the current channel has no terminal error, no closed client and no ready session to report |
| `SupervisorReady.ClosedOrFailedForGood` | client_supervisor.go:256-304 | the terminal error is written at most once; after it or after closing no session is published or handed out as ready |
| `SupervisorReady.PublishedIsCurrent` | client_supervisor.go:244-284 | in every reachable state the published session is none or the current one |
| `SupervisorReady.ReadyAgainIff` | client_supervisor.go:174-192 | from any reachable state a session that is not ready can get ready if and only if its start is still to come |
| `SupervisorReady.StartedStaysUnready` | session.go:148-161 | in particular, a started session that is not ready never gets ready again |
| `SupervisorReady.FailedSessionPublished` | client.go:155-163 | a run in which a session that failed before its start is published and handed out as ready |
| `SupervisorBudget.WebSessionsReleased` | client_supervisor.go:80-172 | at most one web session is held, none while waiting to be resumed, each is released exactly once by the end, and every tunnel session is closed before the next authentication |
| `SupervisorBudget.ClosedCleanly` | client.go:380-410 | once `Close` has returned, the supervisor has finished, every tunnel session is closed, none is current, and every web session has been released once |
| `SupervisorBudget.ReconnectBudget` | client_supervisor.go:105-166 | time waited plus remainder is the timeout, the remainder never negative; the timeout is raised after exactly the closed-form number of waits with all of it spent |
| `SupervisorEvents.EventsAlternate` | client_supervisor.go:183-215 | events alternate up and disconnect; an up is a re-establishment exactly when an earlier tunnel came up with no suspension reset since |
| `SupervisorEvents.ReportedAlternate` | client_supervisor.go:192-215 | a proper log reports an up at even and a disconnect at odd places |
| `SupervisorEvents.DeliveredIsPrefix` | client.go:312-365 | the events handed to the callback are a prefix of those published, and the dispatcher never sleeps through a wakeup |
| `SupervisorEvents.NoCallbackAfterError` | client.go:347-364 | after a callback error the callback never runs again |
| `SupervisorDispatch.CallbackErrorEnds` | client.go:346-363 | from the step in which a callback returns an error: nothing is delivered again, delivery is stopped, the current session is looked up once, and when the dispatcher has exited the client is closed or has a terminal error, is cancelled, and that session has failed |
| `SupervisorDispatch.StopsOnlyForClose` | client.go:330-349 | as long as no callback has failed, delivery is stopped and the dispatcher left for Close alone |
| `SupervisorDispatch.StoppedForGood` | client.go:391-398 | once delivery is stopped nothing is delivered |

## Left out

- HTTP, cookies, TLS configuration and material loading; authentication is an oracle that fails or returns a web session.
- XML decoding and the parsing of hosts, ports and DNS records from text; the model starts from parsed resources and records. Record addresses are IPv4, as the parser guarantees; the proofs only need them to be present.
- Resources.CanonicalTwice: lower-casing of letters other than A to Z is not modelled.
- Address zones, and IPv6 destinations of datagrams, which the packet header rules out.
- IPv4 and ICMP header bytes and checksums: a datagram is its destination, protocol, transport length and port.
- The stored tunnel configuration other than its routes, search domains and the MTU choice: they would only add easy members.
- Writing of TIMQ and JJYY messages, ACKQ handling and the keepalive channel: settled by reading one branch.
- The random disguise of the keepalive sequence.
- The branch for a session whose `Start` fails: a tunnel session's `Start` never does.
- The error values returned to callers of the write path.
- Error wrapping and the classification of terminal errors: an error says whether it is a suspension and whether it is terminal.
- A client without an event callback: nothing is ever delivered to it.
- The incoming side of the client beyond the receive loop: pushing to the incoming queue is an ordinary use of the modelled queue.
- The counter of dropped packets.
- WireReaders.Reader.ReceiveAll: which packets are the keepalive's own echo replies is a parameter.
- The framing, the connection write and the release of a batch are one step: the write lock excludes other writers, and no other goroutine reads the stream.
- PacketQueue.Ring.PushTurnLocked: the blocking loop of `Push` is one turn per step, the turns being put together in `PacketQueueRuns`.
- Progress: that an enabled step is eventually taken is up to the scheduler; the model proves that no goroutine waits for a signal that has already been given, and how many steps a cancelled one has left.
