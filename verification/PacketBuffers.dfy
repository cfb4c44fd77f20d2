/** Packet buffers, the in-place payload encoding and framing
    (packet_buffer.go, payload_encoding*.go, l3_channel.go:88-94). */
module PacketBuffers {
  import opened Wire

  /** The bytes of `a` from lo to hi have been combined with the key; no other byte changed. */
  twostate predicate XorsRange(a: array<Byte>, lo: nat, hi: nat, key: Byte)
    requires lo <= hi <= a.Length
    reads a
  {
    && a[lo..hi] == XorAll(old(a[lo..hi]), key)
    && a[..lo] == old(a[..lo]) && a[hi..] == old(a[hi..])
  }

  /** `xorKey`, one byte at a time (payload_encoding_xor.go:5-9). */
  method XorKey(a: array<Byte>, lo: nat, hi: nat, key: Byte)
    requires lo <= hi <= a.Length
    modifies a
    ensures XorsRange(a, lo, hi, key)
  {
    for i := lo to hi
      invariant forall k :: 0 <= k < a.Length ==> a[k] == if lo <= k < i then XorByte(old(a[k]), key) else old(a[k])
    {
      a[i] := XorByte(a[i], key);
    }
  }

  /** One vector operation: load a lane, combine it with the broadcast key, store it back. */
  method XorLane(a: array<Byte>, at: nat, width: nat, key: Byte)
    requires at + width <= a.Length
    modifies a
    ensures forall k :: 0 <= k < a.Length ==>
              a[k] == if at <= k < at + width then XorByte(old(a[k]), key) else old(a[k])
  {
    forall k | at <= k < at + width {
      a[k] := XorByte(a[k], key);
    }
  }

  /** The vector `xorKey` (payload_encoding_xor_simd.go:9-20), for any lane width: whole lanes
      while they fit, then the rest as a partial lane. */
  method XorKeyVector(a: array<Byte>, lo: nat, hi: nat, key: Byte, width: nat)
    requires lo <= hi <= a.Length && 0 < width
    modifies a
    ensures XorsRange(a, lo, hi, key)
  {
    var at := lo;
    while hi - at >= width
      invariant lo <= at <= hi
      invariant forall k :: 0 <= k < a.Length ==> a[k] == if lo <= k < at then XorByte(old(a[k]), key) else old(a[k])
    {
      XorLane(a, at, width, key);
      at := at + width;
    }
    if hi - at > 0 {
      XorLane(a, at, hi - at, key);
    }
  }

  /** A `buf.Buffer`: a byte array of which start..end is in use. */
  class Buffer {
    const data: array<Byte>
    var start: nat
    var end: nat
    var releases: nat

    ghost predicate Valid()
      reads this
    {
      start <= end <= data.Length
    }

    function Payload(): Bytes
      reads this, data
      requires Valid()
    {
      data[start..end]
    }

    /** `newPacketBuffer` (packet_buffer.go:12-16): headroom, no payload yet. */
    constructor (payloadSize: nat)
      ensures Valid() && fresh(data) && releases == 0
      ensures start == end == IPCP_HEADER_LENGTH && data.Length == IPCP_HEADER_LENGTH + payloadSize
    {
      data := new Byte[IPCP_HEADER_LENGTH + payloadSize](_ => 0);
      start, end, releases := IPCP_HEADER_LENGTH, IPCP_HEADER_LENGTH, 0;
    }

    /** `buf.Buffer.Write` with room for all of it. */
    method Write(payload: Bytes)
      requires Valid() && end + |payload| <= data.Length
      modifies this`end, data
      ensures Valid() && Payload() == old(Payload()) + payload
      ensures end == old(end) + |payload|
    {
      var from := end;
      for i := 0 to |payload|
        invariant end == from && forall k :: 0 <= k < data.Length ==>
          data[k] == if from <= k < from + i then payload[k - from] else old(data[k])
      {
        data[from + i] := payload[i];
      }
      end := from + |payload|;
    }

    method Release()
      modifies this`releases
      ensures releases == old(releases) + 1
    {
      releases := releases + 1;
    }

    /** `Encoding.apply` on the payload in place. */
    method ApplyEncoding(e: Encoding)
      requires Valid()
      modifies data
      ensures Valid() && Payload() == e.Applied(old(Payload()))
    {
      if !e.obfuscated {
        return;
      }
      XorKey(data, start, end, OBFUSCATION_KEY);
    }

    /** `ExtendHeader` filled by `encodeIPCPHeader` (protocol.go:198-202). */
    method PrependHeader(header: Bytes)
      requires Valid() && |header| == IPCP_HEADER_LENGTH <= start
      modifies this`start, data
      ensures Valid() && Payload() == header + old(Payload())
    {
      var from := start - IPCP_HEADER_LENGTH;
      for i := 0 to IPCP_HEADER_LENGTH
        invariant start == old(start) && forall k :: 0 <= k < data.Length ==>
          data[k] == if from <= k < from + i then header[k - from] else old(data[k])
      {
        data[from + i] := header[i];
      }
      start := from;
      assert data[start..end] == header + old(data[start..end]);
    }
  }

  /** `newPacketBufferFrom` (packet_buffer.go:18-22). */
  method NewPacketBufferFrom(payload: Bytes) returns (b: Buffer)
    ensures fresh(b) && fresh(b.data) && b.Valid() && b.releases == 0
    ensures b.Payload() == payload && b.start == IPCP_HEADER_LENGTH
  {
    b := new Buffer(|payload|);
    b.Write(payload);
  }

  /** `requireHeadroom` (packet_buffer.go:28-35): the buffer itself, or a copy with headroom in
      exchange for releasing it. */
  method RequireHeadroom(b: Buffer) returns (r: Buffer)
    requires b.Valid()
    modifies b
    ensures r.Valid() && IPCP_HEADER_LENGTH <= r.start && r.Payload() == old(b.Payload())
    ensures if old(b.start) >= IPCP_HEADER_LENGTH then r == b && b.releases == old(b.releases)
            else fresh(r) && fresh(r.data) && r.releases == 0 && b.releases == old(b.releases) + 1
    ensures b.Valid() && b.start == old(b.start)
  {
    if b.start >= IPCP_HEADER_LENGTH {
      return b;
    }
    r := NewPacketBufferFrom(b.data[b.start..b.end]);
    b.Release();
  }

  /** `frameDataPacket` (l3_channel.go:88-94). */
  method FrameDataPacket(b: Buffer, e: Encoding) returns (framed: Buffer)
    requires b.Valid()
    modifies b, b.data
    ensures framed.Valid() && framed.Payload() == Frame(old(b.Payload()), e)
    ensures if old(b.start) >= IPCP_HEADER_LENGTH then framed == b && b.releases == old(b.releases)
            else fresh(framed) && framed.releases == 0 && b.releases == old(b.releases) + 1
  {
    framed := RequireHeadroom(b);
    ghost var plain := framed.Payload();
    framed.ApplyEncoding(e);
    AppliedTwice(e, plain);
    var payloadLength := framed.end - framed.start;
    framed.PrependHeader(Header(payloadLength));
  }
}
