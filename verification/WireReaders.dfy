/** The stream readers as the source runs them, step by step on a connection. */
module WireReaders {
  import opened Wire

  /** An `io.Reader` with all it will ever deliver still in front of it. */
  class Reader {
    var remaining: Bytes

    constructor (stream: Bytes)
      ensures remaining == stream
    {
      remaining := stream;
    }

    /** `io.ReadFull`: a short stream is used up and reported as an error. */
    method ReadFull(n: nat) returns (ok: bool, bytes: Bytes)
      modifies this
      ensures ok <==> Full(old(remaining), n).Got?
      ensures if ok then Full(old(remaining), n) == Got(bytes, remaining) else remaining == []
    {
      if n <= |remaining| {
        ok, bytes := true, remaining[..n];
        remaining := remaining[n..];
      } else {
        ok, bytes := false, remaining;
        remaining := [];
      }
    }

    /** camouflage.go:155-174. */
    method ReadTLSRecord(kind: Byte) returns (ok: bool, payload: Bytes)
      modifies this
      ensures ok <==> ReadRecord(old(remaining), kind).Got?
      ensures ok ==> ReadRecord(old(remaining), kind) == Got(payload, remaining)
    {
      payload := [];
      var header;
      ok, header := ReadFull(5);
      if !ok {
        return;
      }
      if header[0] != kind {
        return false, [];
      }
      var length := BigEndian16(header[3..5]);
      if length > MAXIMUM_RECORD {
        return false, [];
      }
      ok, payload := ReadFull(length);
    }

    /** camouflage.go:135-153. */
    method ReadCamouflageServerAck() returns (ok: bool)
      modifies this
      ensures ok <==> ReadServerAck(old(remaining)).Got?
      ensures ok ==> ReadServerAck(old(remaining)) == Got((), remaining)
    {
      var serverHello, spec, ack;
      ok, serverHello := ReadTLSRecord(HANDSHAKE);
      if !ok {
        return;
      }
      if |serverHello| == 0 || serverHello[0] != SERVER_HELLO {
        return false;
      }
      ok, spec := ReadTLSRecord(CHANGE_CIPHER_SPEC);
      if !ok {
        return;
      }
      ok, ack := ReadTLSRecord(HANDSHAKE);
    }

    /** protocol.go:176-194. */
    method ReadAABB() returns (ok: bool, reply: Reply)
      modifies this
      ensures ok <==> ReadReply(old(remaining)).Got?
      ensures ok ==> ReadReply(old(remaining)) == Got(reply, remaining)
    {
      reply := Reply(0, [], 0, [], 0, 0);
      var message;
      ok, message := ReadFull(40);
      if !ok {
        return;
      }
      if message[..4] != AABB {
        return false, reply;
      }
      reply := Reply(LittleEndian32(message[4..8]), message[8..12], LittleEndian32(message[12..16]),
                     message[16..20], LittleEndian32(message[20..24]), LittleEndian32(message[24..28]));
    }

    /** protocol.go:204-222. */
    method ReadIPCPHeader() returns (ok: bool, payloadLength: nat)
      modifies this
      ensures ok <==> ReadHeader(old(remaining)).Got?
      ensures ok ==> ReadHeader(old(remaining)) == Got(payloadLength, remaining)
    {
      payloadLength := 0;
      var header;
      ok, header := ReadFull(IPCP_HEADER_LENGTH);
      if !ok {
        return;
      }
      if header[..4] != IPCP {
        return false, 0;
      }
      var frameLength := LittleEndian32(header[4..8]);
      if frameLength < IPCP_HEADER_LENGTH {
        return false, 0;
      }
      payloadLength := frameLength - IPCP_HEADER_LENGTH;
      if payloadLength > MAXIMUM_PAYLOAD {
        return false, 0;
      }
    }

    /** l3_channel.go:73-86. */
    method ReadPacket(e: Encoding) returns (ok: bool, payload: Bytes)
      modifies this
      ensures ok <==> ReadDataPacket(old(remaining), e).Got?
      ensures ok ==> ReadDataPacket(old(remaining), e) == Got(payload, remaining)
    {
      payload := [];
      var length;
      ok, length := ReadIPCPHeader();
      if !ok {
        return;
      }
      ok, payload := ReadFull(length);
      if !ok {
        return;
      }
      payload := e.Applied(payload);
    }

    /** The loop of `runReceiveChannel` (session.go:198-212) up to the first error: every packet
        counts as inbound traffic, and those that are neither empty nor the keepalive's own echo
        replies are handed to the incoming queue. */
    method ReceiveAll(e: Encoding, owns: Bytes -> bool) returns (packets: seq<Bytes>, inbound: nat)
      modifies this
      ensures packets == Forwarded(Delivered(old(remaining), e), owns)
      ensures inbound == |Delivered(old(remaining), e)|
    {
      packets, inbound := [], 0;
      ghost var stream, read: seq<Bytes> := remaining, [];
      var more := true;
      while more
        invariant Delivered(stream, e) == if more then read + Delivered(remaining, e) else read
        invariant packets == Forwarded(read, owns) && inbound == |read|
        decreases more, |remaining|
      {
        ghost var before := remaining;
        var payload;
        more, payload := ReadPacket(e);
        DeliveredNext(read, before, e);
        if !more {
          break;
        }
        ForwardedMore(read, payload, owns);
        read := read + [payload];
        inbound := inbound + 1;
        if owns(payload) {
          continue;
        }
        if payload != [] {
          packets := packets + [payload];
        }
      }
    }
  }

  /** The packets a client gets to see. */
  function Forwarded(read: seq<Bytes>, owns: Bytes -> bool): seq<Bytes> {
    if read == [] then [] else
      var payload := read[|read| - 1];
      Forwarded(read[..|read| - 1], owns) + if owns(payload) || payload == [] then [] else [payload]
  }

  lemma ForwardedMore(read: seq<Bytes>, payload: Bytes, owns: Bytes -> bool)
    ensures Forwarded(read + [payload], owns) ==
            Forwarded(read, owns) + if owns(payload) || payload == [] then [] else [payload]
  {
    assert (read + [payload])[..|read|] == read;
  }

  /** `picked` lists places of a sequence in ascending order. */
  ghost predicate Ascending(picked: seq<nat>, bound: nat) {
    && (forall i :: 0 <= i < |picked| ==> picked[i] < bound)
    && (forall i, j :: 0 <= i < j < |picked| ==> picked[i] < picked[j])
  }

  /** `handed` is what stands at the picked places of `read`, which are exactly those of the packets
      that are neither empty nor the keepalive's own. */
  ghost predicate Picks(read: seq<Bytes>, owns: Bytes -> bool, handed: seq<Bytes>, picked: seq<nat>) {
    && Ascending(picked, |read|) && |handed| == |picked|
    && (forall i :: 0 <= i < |picked| ==> handed[i] == read[picked[i]])
    && (forall k :: 0 <= k < |read| ==> (k in picked <==> read[k] != [] && !owns(read[k])))
  }

  lemma PicksMore(read: seq<Bytes>, last: Bytes, owns: Bytes -> bool, handed: seq<Bytes>, picked: seq<nat>)
    requires Picks(read, owns, handed, picked)
    ensures if owns(last) || last == [] then Picks(read + [last], owns, handed, picked)
            else Picks(read + [last], owns, handed + [last], picked + [|read|])
  {
    var all, more := read + [last], if owns(last) || last == [] then picked else picked + [|read|];
    forall k | 0 <= k < |all| ensures k in more <==> all[k] != [] && !owns(all[k]) {
      assert k < |read| ==> (k in more <==> k in picked);
      assert |read| !in picked;
    }
  }

  /** What is handed on, place by place: in the order read, each as often as read, exactly the
      packets that are neither empty nor the keepalive's own. */
  lemma {:induction false} ForwardedAre(read: seq<Bytes>, owns: Bytes -> bool) returns (picked: seq<nat>)
    ensures Picks(read, owns, Forwarded(read, owns), picked)
  {
    if read == [] {
      picked := [];
    } else {
      var init, last := read[..|read| - 1], read[|read| - 1];
      assert read == init + [last];
      picked := ForwardedAre(init, owns);
      PicksMore(init, last, owns, Forwarded(init, owns), picked);
      ForwardedMore(init, last, owns);
      picked := if owns(last) || last == [] then picked else picked + [|init|];
    }
  }

  /** The packets of a stream up to the first error. */
  function Delivered(s: Bytes, e: Encoding): seq<Bytes>
    decreases |s|
  {
    match ReadDataPacket(s, e)
    case Failed => []
    case Got(payload, rest) => [payload] + Delivered(rest, e)
  }

  lemma DeliveredNext(packets: seq<Bytes>, s: Bytes, e: Encoding)
    ensures var r := ReadDataPacket(s, e);
            if r.Failed? then packets + Delivered(s, e) == packets
            else |r.rest| < |s| && packets + Delivered(s, e) == packets + [r.value] + Delivered(r.rest, e)
  {}

  /** A stream that ends between frames delivers everything it holds. */
  lemma {:induction false} DeliversAll(s: Bytes, e: Encoding)
    requires ReadAll(s, e).Got?
    ensures Delivered(s, e) == ReadAll(s, e).value
    decreases |s|
  {
    match ReadDataPacket(s, e)
    case Failed =>
    case Got(_, rest) => DeliversAll(rest, e);
  }

  /** For any three legal camouflage records with a server hello, one AABB reply and any frames
      that fit, the readers consume exactly each part and return what was sent. */
  lemma ReceiveSide(v: Bytes, hello: Bytes, v': Bytes, spec: Bytes, v'': Bytes, ack: Bytes,
                    reply: Reply, unread: Bytes, payloads: seq<Bytes>, e: Encoding)
    requires LegalRecord(v, hello) && LegalRecord(v', spec) && LegalRecord(v'', ack)
    requires hello != [] && hello[0] == SERVER_HELLO
    requires reply.Fits() && |unread| == 12 && AllFit(payloads)
    ensures var frames := FrameAll(payloads, e);
            var announced := PutReply(reply, unread) + frames;
            && ReadServerAck(PutRecord(HANDSHAKE, v, hello) + (PutRecord(CHANGE_CIPHER_SPEC, v', spec) +
                             (PutRecord(HANDSHAKE, v'', ack) + announced))) == Got((), announced)
            && ReadReply(announced) == Got(reply, frames)
            && ReadAll(frames, e) == Got(payloads, []) && Delivered(frames, e) == payloads
  {
    ServerAckRoundTrip(v, hello, v', spec, v'', ack, PutReply(reply, unread) + FrameAll(payloads, e));
    ReplyRoundTrip(reply, unread, FrameAll(payloads, e));
    StreamRoundTrip(payloads, e);
    DeliversAll(FrameAll(payloads, e), e);
  }
}
