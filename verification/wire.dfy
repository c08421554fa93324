/** The packed little-endian wire format between the app and its rdphost children
    (src/shared/RdpIpc.h). A packed struct is a list of field widths; every struct of the
    protocol is an instance. */
module Wire {
  type byte = x: int | 0 <= x < 256

  // ---- little-endian numbers -------------------------------------------------

  function Pow256(n: nat): (r: nat)
    ensures r >= 1
  {
    if n == 0 then 1 else 256 * Pow256(n - 1)
  }

  lemma PowersOf256()
    ensures Pow256(1) == 256 && Pow256(3) == 0x100_0000 && Pow256(4) == 0x1_0000_0000
  {
    assert Pow256(0) == 1 && Pow256(1) == 256 && Pow256(2) == 65536;
  }

  function Bytes(v: nat, n: nat): (r: seq<byte>)
    ensures |r| == n
  {
    if n == 0 then [] else [v % 256] + Bytes(v / 256, n - 1)
  }

  function Value(bs: seq<byte>): nat {
    if bs == [] then 0 else bs[0] + 256 * Value(bs[1..])
  }

  lemma {:induction false} ValueBytes(v: nat, n: nat)
    requires v < Pow256(n)
    ensures Value(Bytes(v, n)) == v
  {
    if n > 0 {
      ValueBytes(v / 256, n - 1);
      assert Bytes(v, n)[1..] == Bytes(v / 256, n - 1);
    }
  }

  lemma {:induction false} BytesValue(bs: seq<byte>)
    ensures Value(bs) < Pow256(|bs|) && Bytes(Value(bs), |bs|) == bs
  {
    if bs != [] {
      BytesValue(bs[1..]);
      assert Value(bs) / 256 == Value(bs[1..]) && Value(bs) % 256 == bs[0];
    }
  }

  // ---- packed structs --------------------------------------------------------

  function Size(widths: seq<nat>): nat {
    if widths == [] then 0 else widths[0] + Size(widths[1..])
  }

  /** Each field fits its width. */
  predicate Fit(widths: seq<nat>, fields: seq<nat>) {
    |fields| == |widths| && forall i :: 0 <= i < |widths| ==> fields[i] < Pow256(widths[i])
  }

  function Pack(widths: seq<nat>, fields: seq<nat>): (r: seq<byte>)
    requires |fields| == |widths|
    ensures |r| == Size(widths)
  {
    if widths == [] then [] else Bytes(fields[0], widths[0]) + Pack(widths[1..], fields[1..])
  }

  function Unpack(widths: seq<nat>, bs: seq<byte>): (r: seq<nat>)
    requires |bs| >= Size(widths)
    ensures |r| == |widths|
  {
    if widths == [] then [] else [Value(bs[..widths[0]])] + Unpack(widths[1..], bs[widths[0]..])
  }

  /** Reading back a struct just written, whatever follows it. */
  lemma {:induction false} UnpackPack(widths: seq<nat>, fields: seq<nat>, rest: seq<byte>)
    requires Fit(widths, fields)
    ensures Unpack(widths, Pack(widths, fields) + rest) == fields
  {
    if widths != [] {
      var bs := Pack(widths, fields) + rest;
      assert bs[..widths[0]] == Bytes(fields[0], widths[0]);
      assert bs[widths[0]..] == Pack(widths[1..], fields[1..]) + rest;
      ValueBytes(fields[0], widths[0]);
      assert forall i :: 0 <= i < |widths| - 1 ==> widths[1..][i] == widths[i + 1] && fields[1..][i] == fields[i + 1];
      UnpackPack(widths[1..], fields[1..], rest);
    }
  }

  /** And writing back a struct just read. */
  lemma {:induction false} PackUnpack(widths: seq<nat>, bs: seq<byte>)
    requires |bs| >= Size(widths)
    ensures Fit(widths, Unpack(widths, bs)) && Pack(widths, Unpack(widths, bs)) == bs[..Size(widths)]
  {
    if widths != [] {
      var w := widths[0];
      PackUnpack(widths[1..], bs[w..]);
      BytesValue(bs[..w]);
      assert bs[..Size(widths)] == bs[..w] + bs[w..][..Size(widths[1..])];
      assert Unpack(widths, bs)[1..] == Unpack(widths[1..], bs[w..]);
      forall i | 0 <= i < |widths| ensures Unpack(widths, bs)[i] < Pow256(widths[i]) {
        if i > 0 { assert Unpack(widths, bs)[i] == Unpack(widths[1..], bs[w..])[i - 1]; }
      }
    }
  }

  // ---- frames ----------------------------------------------------------------

  const HELLO: byte := 1
  const CONNECT: byte := 2
  const CONNECT_LOCAL_VM: byte := 3
  const HELLO_ACK: byte := 128
  const HWND_READY: byte := 129
  const DISCONNECTED: byte := 132
  const LOG_LINE: byte := 137
  const PROTOCOL_VERSION: byte := 3

  /** type, two reserved fields, payloadSize. */
  const HEADER: seq<nat> := [1, 1, 2, 4]

  datatype Frame = Frame(kind: byte, payload: seq<byte>)

  /** The size of a payload is a 32-bit field. */
  predicate Sendable(f: Frame) {
    |f.payload| < Pow256(4)
  }

  lemma HeaderSize()
    ensures Size(HEADER) == 8
  {
    assert HEADER[1..] == [1, 2, 4] && [1, 2, 4][1..] == [2, 4] && [2, 4][1..] == [4];
  }

  function Header(f: Frame): (r: seq<byte>)
    ensures |r| == 8
  {
    HeaderSize();
    Pack(HEADER, [f.kind, 0, 0, |f.payload|])
  }

  function Encode(f: Frame): seq<byte> {
    Header(f) + f.payload
  }

  function EncodeAll(frames: seq<Frame>): seq<byte> {
    if frames == [] then [] else Encode(frames[0]) + EncodeAll(frames[1..])
  }

  function HeaderKind(bs: seq<byte>): byte
    requires |bs| >= 8
  {
    bs[0]
  }

  function HeaderPayloadSize(bs: seq<byte>): nat
    requires |bs| >= 8
  {
    HeaderSize();
    Unpack(HEADER, bs)[3]
  }

  /** The complete frames at the front of a byte stream. */
  function Parse(bs: seq<byte>): seq<Frame> {
    if |bs| < 8 then []
    else
      var n := HeaderPayloadSize(bs);
      if |bs| < 8 + n then []
      else [Frame(HeaderKind(bs), bs[8..8 + n])] + Parse(bs[8 + n..])
  }

  lemma HeaderReads(f: Frame, rest: seq<byte>)
    requires Sendable(f)
    ensures HeaderKind(Header(f) + rest) == f.kind && HeaderPayloadSize(Header(f) + rest) == |f.payload|
  {
    HeaderSize();
    var fields: seq<nat> := [f.kind, 0, 0, |f.payload|];
    assert Pow256(1) == 256 && Pow256(0) == 1;
    UnpackPack(HEADER, fields, rest);
    var bs := Header(f) + rest;
    assert Unpack(HEADER, bs)[0] == Value(bs[..1]);
    assert bs[..1] == [bs[0]] && Value([bs[0]]) == bs[0] + 256 * Value([bs[0]][1..]);
  }

  /** One whole frame in front is the next one read. */
  lemma ParseNext(f: Frame, rest: seq<byte>)
    requires Sendable(f)
    ensures Parse(Encode(f) + rest) == [f] + Parse(rest)
  {
    var bs := Encode(f) + rest;
    assert bs == Header(f) + (f.payload + rest);
    HeaderReads(f, f.payload + rest);
    assert bs[8..8 + |f.payload|] == f.payload;
    assert bs[8 + |f.payload|..] == rest;
  }

  /** Parsing undoes encoding, up to what follows. */
  lemma {:induction false} ParseEncodeAll(frames: seq<Frame>, rest: seq<byte>)
    requires forall f | f in frames :: Sendable(f)
    ensures Parse(EncodeAll(frames) + rest) == frames + Parse(rest)
  {
    hide Parse, Encode;
    if frames == [] {
      assert EncodeAll(frames) + rest == rest;
    } else {
      ParseEncodeAll(frames[1..], rest);
      ParseNext(frames[0], EncodeAll(frames[1..]) + rest);
      assert EncodeAll(frames) + rest == Encode(frames[0]) + (EncodeAll(frames[1..]) + rest);
    }
  }

  /** A frame cut short yields nothing. */
  lemma ParseCut(f: Frame, k: nat)
    requires Sendable(f) && k < |Encode(f)|
    ensures Parse(Encode(f)[..k]) == []
  {
    if k >= 8 {
      var bs := Encode(f)[..k];
      assert bs == Header(f) + f.payload[..k - 8];
      HeaderReads(f, f.payload[..k - 8]);
    }
  }

  /** How many whole frames the first `k` bytes hold. */
  function Whole(frames: seq<Frame>, k: nat): (n: nat)
    ensures n <= |frames|
  {
    if frames == [] || k < |Encode(frames[0])| then 0 else 1 + Whole(frames[1..], k - |Encode(frames[0])|)
  }

  /** A stream cut anywhere yields exactly its whole frames. */
  lemma {:induction false} ParseTruncated(frames: seq<Frame>, k: nat)
    requires (forall f | f in frames :: Sendable(f)) && k <= |EncodeAll(frames)|
    ensures Parse(EncodeAll(frames)[..k]) == frames[..Whole(frames, k)]
  {
    if frames == [] {
      assert Parse([]) == [];
    } else {
      hide Parse, Encode;
      var f, rest := frames[0], frames[1..];
      var n := |Encode(f)|;
      if k < n {
        assert EncodeAll(frames)[..k] == Encode(f)[..k];
        ParseCut(f, k);
      } else {
        ParseTruncated(rest, k - n);
        assert EncodeAll(frames)[..k] == Encode(f) + EncodeAll(rest)[..k - n];
        ParseNext(f, EncodeAll(rest)[..k - n]);
        assert frames == [f] + rest;
      }
    }
  }

  /** `Whole` is the number of frames that fit in `k` bytes, and no more would fit. */
  lemma {:induction false} WholeFits(frames: seq<Frame>, k: nat)
    requires k <= |EncodeAll(frames)|
    ensures var n := Whole(frames, k);
            && |EncodeAll(frames[..n])| <= k
            && (n < |frames| ==> k < |EncodeAll(frames[..n + 1])|)
  {
    if frames != [] {
      hide Encode;
      var f, rest := frames[0], frames[1..];
      if k < |Encode(f)| {
        assert frames[..1] == [f] && EncodeAll([f]) == Encode(f) + EncodeAll([f][1..]);
      } else {
        WholeFits(rest, k - |Encode(f)|);
        var m := Whole(rest, k - |Encode(f)|);
        assert frames[..m + 1][1..] == rest[..m];
        if m < |rest| { assert frames[..m + 2][1..] == rest[..m + 1]; }
      }
    }
  }

  lemma {:induction false} EncodeAllConcat(a: seq<Frame>, b: seq<Frame>)
    ensures EncodeAll(a + b) == EncodeAll(a) + EncodeAll(b)
  {
    if a == [] {
      assert a + b == b;
    } else {
      assert (a + b)[1..] == a[1..] + b;
      EncodeAllConcat(a[1..], b);
    }
  }

  // ---- the bytes themselves --------------------------------------------------

  /** Numbers are little-endian: byte `i` is the `i`-th digit in base 256. */
  lemma {:induction false} LittleEndian(v: nat, n: nat, i: nat)
    requires i < n
    ensures Bytes(v, n)[i] == v / Pow256(i) % 256
  {
    if i > 0 {
      LittleEndian(v / 256, n - 1, i - 1);
      assert v / 256 / Pow256(i - 1) == v / (256 * Pow256(i - 1)) by { DivDiv(v, Pow256(i - 1)); }
    }
  }

  lemma DivDiv(v: nat, m: nat)
    requires m > 0
    ensures v / 256 / m == v / (256 * m)
  {
    var q := v / 256 / m;
    assert v == 256 * (v / 256) + v % 256;
    assert v / 256 == m * q + v / 256 % m;
    var r := 256 * (v / 256 % m) + v % 256;
    assert v == q * (256 * m) + r by { assert 256 * (m * q) == q * (256 * m); }
    assert v / 256 % m <= m - 1;
    assert 0 <= r < 256 * m;
    QuotientIs(v, 256 * m, q, r);
  }

  lemma {:induction false} MoreTimes(a: int, b: int, d: nat)
    requires a <= b
    ensures a * d <= b * d
    decreases b - a
  {
    if a < b { MoreTimes(a + 1, b, d); }
  }

  lemma QuotientIs(v: nat, d: nat, q: nat, r: nat)
    requires d > 0 && v == q * d + r && r < d
    ensures v / d == q
  {
    var k := v / d;
    assert k * d <= v < k * d + d;
    assert (q + 1) * d == q * d + d && (k + 1) * d == k * d + d;
    if k > q { MoreTimes(q + 1, k, d); } else if k < q { MoreTimes(k + 1, q, d); }
  }

  /** A frame is its type, three zero bytes, the payload's size in four bytes, lowest first,
      and the payload. */
  lemma FrameBytes(f: Frame)
    requires Sendable(f)
    ensures var n := |f.payload|;
            Encode(f) == [f.kind, 0, 0, 0, n % 256, n / 256 % 256, n / 65536 % 256, n / 16777216] + f.payload
  {
    var n := |f.payload|;
    PowersOf256();
    assert Pow256(0) == 1 && Pow256(2) == 65536;
    forall i | 0 <= i < 4 ensures Bytes(n, 4)[i] == n / Pow256(i) % 256 { LittleEndian(n, 4, i); }
    var fields := [f.kind, 0, 0, n];
    assert fields[1..] == [0, 0, n] && [0, 0, n][1..] == [0, n] && [0, n][1..] == [n];
    HeaderSize();
    assert HEADER[1..] == [1, 2, 4] && [1, 2, 4][1..] == [2, 4] && [2, 4][1..] == [4] && [4][1..] == [];
    assert Bytes(f.kind, 1) == [f.kind] && Bytes(0, 1) == [0] && Bytes(0, 2) == [0, 0];
    assert Pack([4], [n]) == Bytes(n, 4) + Pack([], [n][1..]);
    assert Pack([4], [n]) == Bytes(n, 4);
    assert Pack([2, 4], [0, n]) == [0, 0] + Bytes(n, 4);
    assert Pack([1, 2, 4], [0, 0, n]) == [0] + ([0, 0] + Bytes(n, 4));
    assert Header(f) == [f.kind] + ([0] + ([0, 0] + Bytes(n, 4)));
  }
}
