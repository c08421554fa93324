/** One end of the duplex pipe: exact reads over any chunking, sends, receive loop and
    handshakes (src/rdphost/IpcClient.cpp, src/app/rdp/RdpHostClient.cpp). */
module Pipes {
  import opened Wrappers
  import opened Wire

  // ---- handshakes, on the bytes that arrive ----------------------------------

  function HelloFrame(minVersion: byte, maxVersion: byte): Frame {
    Frame(HELLO, [minVersion, maxVersion, 0, 0])
  }

  function HelloAckFrame(ok: bool): Frame {
    Frame(HELLO_ACK, [PROTOCOL_VERSION, if ok then 0 else 1, 0, 0])
  }

  function HwndReadyFrame(hwnd: nat): Frame {
    Frame(HWND_READY, Bytes(hwnd, 8))
  }

  /** The stream starts with the header of a frame of this kind and size, and all of it is there. */
  predicate Starts(bs: seq<byte>, kind: byte, size: nat) {
    |bs| >= 8 + size && HeaderKind(bs) == kind && HeaderPayloadSize(bs) == size
  }

  /** The window the child reports, and what follows, if its handshake is in order. */
  function ParentShake(bs: seq<byte>): Option<(nat, seq<byte>)> {
    if !Starts(bs, HELLO_ACK, 4) || bs[9] != 0 then None
    else
      var rest := bs[12..];
      if !Starts(rest, HWND_READY, 8) || Value(rest[8..16]) == 0 then None
      else Some((Value(rest[8..16]), rest[16..]))
  }

  predicate ChildShake(bs: seq<byte>) {
    Starts(bs, HELLO, 4) && bs[8] <= PROTOCOL_VERSION <= bs[9]
  }

  lemma FrameStarts(f: Frame, rest: seq<byte>)
    requires Sendable(f)
    ensures var bs := Encode(f) + rest;
            Starts(bs, f.kind, |f.payload|) && bs[8..8 + |f.payload|] == f.payload && bs[8 + |f.payload|..] == rest
  {
    HeaderReads(f, f.payload + rest);
    assert Encode(f) + rest == Header(f) + (f.payload + rest);
  }

  /** The parent's handshake accepts the child's first two frames and leaves the rest. */
  lemma ParentAccepts(hwnd: nat, rest: seq<byte>)
    requires 0 < hwnd < Pow256(8)
    ensures ParentShake(EncodeAll([HelloAckFrame(true), HwndReadyFrame(hwnd)]) + rest) == Some((hwnd, rest))
  {
    var ack, ready := HelloAckFrame(true), HwndReadyFrame(hwnd);
    PowersOf256();
    assert [ack, ready][1..] == [ready];
    assert EncodeAll([ready]) == Encode(ready);
    var tail := Encode(ready) + rest;
    assert EncodeAll([ack, ready]) + rest == Encode(ack) + tail;
    FrameStarts(ack, tail);
    FrameStarts(ready, rest);
    var bs := Encode(ack) + tail;
    assert bs[9] == bs[8..12][1] == ack.payload[1];
    ValueBytes(hwnd, 8);
  }

  /** The child accepts exactly the version ranges that hold its own. */
  lemma ChildAccepts(minVersion: byte, maxVersion: byte, rest: seq<byte>)
    ensures ChildShake(Encode(HelloFrame(minVersion, maxVersion)) + rest) <==>
            minVersion <= PROTOCOL_VERSION <= maxVersion
  {
    var f := HelloFrame(minVersion, maxVersion);
    PowersOf256();
    FrameStarts(f, rest);
    var bs := Encode(f) + rest;
    assert bs[8] == bs[8..12][0] && bs[9] == bs[8..12][1];
  }

  // ---- one end ---------------------------------------------------------------

  /** `incoming` is what arrives before the pipe closes or fails, `outgoing` what was written.
      Reads come back short as they please; writes are taken whole. */
  class PipeEnd {
    var incoming: seq<byte>
    var outgoing: seq<byte>

    constructor (incoming: seq<byte>)
      ensures this.incoming == incoming && outgoing == []
    {
      this.incoming, outgoing := incoming, [];
    }

    /** Some bytes, at least one if any is to come; 0 at the end. */
    method OverlappedRead(buf: array<byte>, at: nat, bytes: nat) returns (got: nat)
      requires 0 < bytes && at + bytes <= buf.Length
      modifies this`incoming, buf
      ensures got <= bytes && got <= |old(incoming)| && (got == 0 <==> old(incoming) == [])
      ensures buf[..] == old(buf[..at]) + old(incoming)[..got] + old(buf[at + got..])
      ensures incoming == old(incoming)[got..]
    {
      if incoming == [] { return 0; }
      got :| 0 < got <= bytes && got <= |incoming|;
      forall i | 0 <= i < got {
        buf[at + i] := incoming[i];
      }
      incoming := incoming[got..];
    }

    method ReadExact(buf: array<byte>) returns (ok: bool)
      modifies this`incoming, buf
      ensures ok <==> buf.Length <= |old(incoming)|
      ensures ok ==> buf[..] == old(incoming)[..buf.Length] && incoming == old(incoming)[buf.Length..]
      ensures !ok ==> incoming == []
    {
      var p, remaining := 0, buf.Length;
      while remaining > 0
        invariant 0 <= p <= |old(incoming)| && 0 <= remaining && p + remaining == buf.Length
        invariant buf[..p] == old(incoming)[..p] && incoming == old(incoming)[p..]
      {
        var got := OverlappedRead(buf, p, remaining);
        if got == 0 { return false; }
        p := p + got;
        remaining := remaining - got;
        assert old(incoming)[..p] == old(incoming)[..p - got] + old(incoming)[p - got..][..got];
      }
      assert buf[..] == buf[..p];
      return true;
    }

    /** Whole frames are handed over in order; then the pipe's end is reported, once. */
    method ReceiveLoop() returns (delivered: seq<Frame>, disconnects: nat)
      modifies this`incoming
      ensures delivered == Parse(old(incoming)) && disconnects == 1
      ensures incoming == []
    {
      delivered, disconnects := [], 0;
      while true
        invariant Parse(old(incoming)) == delivered + Parse(incoming)
        decreases |incoming|
      {
        ghost var before := incoming;
        var h := new byte[8];
        var ok := ReadExact(h);
        if !ok { break; }
        var header := h[..];
        HeaderIsPrefix(before, header);
        var payload := [];
        var size := HeaderPayloadSize(header);
        if size > 0 {
          var buf := new byte[size];
          ok := ReadExact(buf);
          if !ok { break; }
          payload := buf[..];
        }
        assert payload == before[8..8 + size] && incoming == before[8 + size..];
        delivered := delivered + [Frame(HeaderKind(header), payload)];
      }
      disconnects := disconnects + 1;
    }

    method Write(bytes: seq<byte>)
      modifies this`outgoing
      ensures outgoing == old(outgoing) + bytes
    {
      outgoing := outgoing + bytes;
    }

    /** Two writes: header, then payload if there is one. */
    method Send(f: Frame)
      modifies this`outgoing
      ensures outgoing == old(outgoing) + Encode(f)
    {
      Write(Header(f));
      if |f.payload| > 0 {
        Write(f.payload);
      }
    }

    /** One write of bytes already framed. */
    method SendRaw(framed: seq<byte>)
      modifies this`outgoing
      ensures outgoing == old(outgoing) + framed
    {
      Write(framed);
    }

    /** The child's side: reads Hello, answers with its version. */
    method ChildHandshake() returns (ok: bool)
      modifies this
      ensures ok <==> ChildShake(old(incoming))
      ensures ok ==> incoming == old(incoming)[12..]
      ensures outgoing == old(outgoing) + (if Starts(old(incoming), HELLO, 4) then Encode(HelloAckFrame(ok)) else [])
    {
      var h := new byte[8];
      ok := ReadExact(h);
      if !ok { return false; }
      HeaderIsPrefix(old(incoming), h[..]);
      if HeaderKind(h[..]) != HELLO { return false; }
      if HeaderPayloadSize(h[..]) != 4 { return false; }
      var hello := new byte[4];
      ok := ReadExact(hello);
      if !ok { return false; }
      assert hello[0] == old(incoming)[8] && hello[1] == old(incoming)[9];
      ok := hello[0] <= PROTOCOL_VERSION <= hello[1];
      Send(HelloAckFrame(ok));
    }

    /** The parent's side after it sent Hello: HelloAck, then HwndReady. 0 means failure. */
    method ParentHandshake() returns (hwnd: nat)
      modifies this
      ensures match ParentShake(old(incoming))
              case None => hwnd == 0
              case Some((w, rest)) => hwnd == w && incoming == rest
      ensures outgoing == old(outgoing) + Encode(HelloFrame(PROTOCOL_VERSION, PROTOCOL_VERSION))
    {
      Send(HelloFrame(PROTOCOL_VERSION, PROTOCOL_VERSION));
      var h := new byte[8];
      var ok := ReadExact(h);
      if !ok { return 0; }
      HeaderIsPrefix(old(incoming), h[..]);
      if HeaderKind(h[..]) != HELLO_ACK || HeaderPayloadSize(h[..]) != 4 { return 0; }
      var ack := new byte[4];
      ok := ReadExact(ack);
      if !ok { return 0; }
      assert ack[1] == old(incoming)[9];
      if ack[1] != 0 { return 0; }
      ghost var rest := incoming;
      assert rest == old(incoming)[12..];
      ok := ReadExact(h);
      if !ok { return 0; }
      HeaderIsPrefix(rest, h[..]);
      if HeaderKind(h[..]) != HWND_READY || HeaderPayloadSize(h[..]) != 8 { return 0; }
      var ready := new byte[8];
      ok := ReadExact(ready);
      if !ok { return 0; }
      assert ready[..] == rest[8..16];
      hwnd := Value(ready[..]);
    }
  }

  lemma HeaderIsPrefix(bs: seq<byte>, header: seq<byte>)
    requires |bs| >= 8 && header == bs[..8]
    ensures HeaderKind(header) == HeaderKind(bs) && HeaderPayloadSize(header) == HeaderPayloadSize(bs)
  {
    assert header + bs[8..] == bs;
    UnpackPrefix(HEADER, header, bs[8..]);
  }

  lemma {:induction false} UnpackPrefix(widths: seq<nat>, bs: seq<byte>, rest: seq<byte>)
    requires |bs| >= Size(widths)
    ensures Unpack(widths, bs + rest) == Unpack(widths, bs)
  {
    if widths != [] {
      var w := widths[0];
      assert (bs + rest)[..w] == bs[..w];
      assert (bs + rest)[w..] == bs[w..] + rest;
      UnpackPrefix(widths[1..], bs[w..], rest);
    }
  }

  /** The handshake byte by byte: the parent's hello, the child's answer, and its window. */
  lemma HandshakeBytes(ok: bool, hwnd: nat)
    ensures Encode(HelloFrame(PROTOCOL_VERSION, PROTOCOL_VERSION)) == [1, 0, 0, 0, 4, 0, 0, 0, 3, 3, 0, 0]
    ensures Encode(HelloAckFrame(ok)) == [128, 0, 0, 0, 4, 0, 0, 0, 3, if ok then 0 else 1, 0, 0]
    ensures Encode(HwndReadyFrame(hwnd)) == [129, 0, 0, 0, 8, 0, 0, 0] + Bytes(hwnd, 8)
  {
    PowersOf256();
    FrameBytes(HelloFrame(PROTOCOL_VERSION, PROTOCOL_VERSION));
    FrameBytes(HelloAckFrame(ok));
    FrameBytes(HwndReadyFrame(hwnd));
    hide Encode, Bytes, Pow256;
  }
}
