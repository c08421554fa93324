/** The queue of ActiveX notifications and the thread that drains it
    (src/rdphost/RdpHost.cpp), one thread's view at a time; `Traffic` has the interleavings. */
module Outboxes {
  import opened Wire
  import opened Pipes

  /** A whole frame in one buffer, header first. */
  method Framed(kind: byte, payload: array<byte>) returns (buf: array<byte>)
    requires payload.Length < Pow256(4)
    ensures fresh(buf) && buf[..] == Encode(Frame(kind, payload[..]))
  {
    var header := Header(Frame(kind, payload[..]));
    buf := new byte[8 + payload.Length];
    var i := 0;
    while i < 8
      invariant 0 <= i <= 8 && buf[..i] == header[..i]
    {
      buf[i] := header[i];
      i := i + 1;
    }
    var j := 0;
    while j < payload.Length
      invariant 0 <= j <= payload.Length && buf[..8] == header && buf[8..8 + j] == payload[..j]
    {
      buf[8 + j] := payload[j];
      j := j + 1;
    }
    assert buf[..] == buf[..8] + buf[8..8 + j];
  }

  class Outbox {
    const pipe: PipeEnd
    var outQueue: seq<seq<byte>>
    ghost var queued: seq<Frame>
    ghost var enqueued: seq<Frame>
    ghost var sent: seq<Frame>
    ghost const before: seq<byte>

    /** The queue holds the frames not sent yet, each in one buffer; the rest is on the pipe. */
    ghost predicate Valid()
      reads this, pipe
    {
      && |outQueue| == |queued| && (forall k | 0 <= k < |queued| :: outQueue[k] == Encode(queued[k]))
      && (forall f | f in enqueued :: Sendable(f))
      && enqueued == sent + queued
      && pipe.outgoing == before + EncodeAll(sent)
    }

    constructor (pipe: PipeEnd)
      ensures Valid() && this.pipe == pipe && enqueued == [] && before == pipe.outgoing
    {
      this.pipe, outQueue, queued, enqueued, sent, before := pipe, [], [], [], [], pipe.outgoing;
      new;
      assert before + EncodeAll(sent) == before;
    }

    method QueueOutbound(kind: byte, payload: array<byte>)
      requires Valid() && payload.Length < Pow256(4)
      modifies this
      ensures Valid() && enqueued == old(enqueued) + [Frame(kind, payload[..])] && sent == old(sent)
    {
      var buf := Framed(kind, payload);
      outQueue := outQueue + [buf[..]];
      queued := queued + [Frame(kind, payload[..])];
      enqueued := enqueued + [Frame(kind, payload[..])];
    }

    /** The sender thread's turn: the oldest message leaves the queue and is written. */
    method SendNext() returns (any: bool)
      requires Valid()
      modifies this`outQueue, this`queued, this`sent, pipe`outgoing
      ensures Valid() && any == (old(queued) != [])
      ensures any ==> queued == old(queued)[1..] && sent == old(sent) + [old(queued)[0]]
      ensures !any ==> queued == old(queued) && sent == old(sent)
    {
      if |outQueue| == 0 { return false; }
      var msg := outQueue[0];
      outQueue := outQueue[1..];
      pipe.SendRaw(msg);
      EncodeAllConcat(sent, [queued[0]]);
      assert EncodeAll([queued[0]]) == Encode(queued[0]) + EncodeAll([queued[0]][1..]);
      assert EncodeAll([queued[0]][1..]) == [];
      assert before + EncodeAll(sent) + msg == before + (EncodeAll(sent) + msg);
      sent := sent + [queued[0]];
      queued := queued[1..];
      return true;
    }

    /** Draining: with `fs` written before the sender started (the answer to the parent's
        hello), the parent afterwards parses those and every event queued, in order. */
    method Drain(ghost fs: seq<Frame>)
      requires Valid() && before == EncodeAll(fs) && forall f | f in fs :: Sendable(f)
      modifies this`outQueue, this`queued, this`sent, pipe`outgoing
      ensures Valid() && sent == old(enqueued) && Parse(pipe.outgoing) == fs + old(enqueued)
    {
      var any := true;
      while any
        invariant Valid() && (any || queued == [])
        decreases |queued|, any
      {
        any := SendNext();
      }
      EncodeAllConcat(fs, sent);
      ParseEncodeAll(fs + sent, []);
      assert EncodeAll(fs + sent) + [] == pipe.outgoing;
    }
  }
}
