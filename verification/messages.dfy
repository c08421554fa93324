/** Payloads with trailing text: how one side builds them and the other takes them apart
    (src/app/rdp/RdpHostClient.cpp, src/rdphost/main.cpp, src/rdphost/RdpHost.cpp). Text is
    the UTF-8 bytes on the wire. */
module Messages {
  import opened Wrappers
  import opened Wire

  // ---- RdpOptions ------------------------------------------------------------

  const OPTIONS: seq<nat> := [2, 2, 2, 2, 4, 1, 2, 1, 4, 4, 4]
  const OPTIONS_SIZE: nat := 28
  const GUID_SIZE: nat := 16

  datatype RdpOptions = RdpOptions(
    port: nat,
    desktopWidth: nat,
    desktopHeight: nat,
    colorDepth: nat,
    flags: nat,
    audioMode: nat,
    dpiScalePercent: nat,
    reserved: nat,
    serverByteLen: nat,
    domainByteLen: nat,
    userByteLen: nat)

  function Fields(o: RdpOptions): (r: seq<nat>)
    ensures |r| == |OPTIONS|
  {
    [o.port, o.desktopWidth, o.desktopHeight, o.colorDepth, o.flags, o.audioMode, o.dpiScalePercent, o.reserved,
     o.serverByteLen, o.domainByteLen, o.userByteLen]
  }

  function FromFields(f: seq<nat>): RdpOptions
    requires |f| == |OPTIONS|
  {
    RdpOptions(f[0], f[1], f[2], f[3], f[4], f[5], f[6], f[7], f[8], f[9], f[10])
  }

  /** Every field fits the width it has in the struct. */
  predicate InRange(o: RdpOptions) {
    Fit(OPTIONS, Fields(o))
  }

  lemma {:induction false} SizeIs(widths: seq<nat>, w: nat, rest: seq<nat>)
    requires widths == [w] + rest
    ensures Size(widths) == w + Size(rest)
  {
    assert widths[1..] == rest;
  }

  lemma OptionsTailSize()
    ensures Size([4, 1, 2, 1, 4, 4, 4]) == 20
  {
    SizeIs([4, 1, 2, 1, 4, 4, 4], 4, [1, 2, 1, 4, 4, 4]);
    SizeIs([1, 2, 1, 4, 4, 4], 1, [2, 1, 4, 4, 4]);
    SizeIs([2, 1, 4, 4, 4], 2, [1, 4, 4, 4]);
    SizeIs([1, 4, 4, 4], 1, [4, 4, 4]);
    SizeIs([4, 4, 4], 4, [4, 4]);
    SizeIs([4, 4], 4, [4]);
    SizeIs([4], 4, []);
  }

  lemma OptionsMiddleSize()
    ensures Size([2, 2, 4, 1, 2, 1, 4, 4, 4]) == 2 + Size([2, 4, 1, 2, 1, 4, 4, 4])
    ensures Size([2, 2, 2, 4, 1, 2, 1, 4, 4, 4]) == 4 + Size([2, 4, 1, 2, 1, 4, 4, 4])
  {
    hide Size;
    SizeIs([2, 2, 2, 4, 1, 2, 1, 4, 4, 4], 2, [2, 2, 4, 1, 2, 1, 4, 4, 4]);
    SizeIs([2, 2, 4, 1, 2, 1, 4, 4, 4], 2, [2, 4, 1, 2, 1, 4, 4, 4]);
  }

  lemma OptionsSize()
    ensures Size(OPTIONS) == OPTIONS_SIZE
  {
    OptionsTailSize();
    OptionsMiddleSize();
    hide Size;
    SizeIs(OPTIONS, 2, [2, 2, 2, 4, 1, 2, 1, 4, 4, 4]);
    SizeIs([2, 4, 1, 2, 1, 4, 4, 4], 2, [4, 1, 2, 1, 4, 4, 4]);
  }

  function PackOptions(o: RdpOptions): (r: seq<byte>)
    ensures |r| == OPTIONS_SIZE
  {
    OptionsSize();
    Pack(OPTIONS, Fields(o))
  }

  function UnpackOptions(bs: seq<byte>): RdpOptions
    requires |bs| >= OPTIONS_SIZE
  {
    OptionsSize();
    FromFields(Unpack(OPTIONS, bs))
  }

  lemma OptionsRoundTrip(o: RdpOptions, rest: seq<byte>)
    requires InRange(o)
    ensures UnpackOptions(PackOptions(o) + rest) == o
  {
    OptionsSize();
    UnpackPack(OPTIONS, Fields(o), rest);
  }

  // ---- Connect and ConnectLocalVm --------------------------------------------

  datatype Strings = Strings(server: seq<byte>, domain: seq<byte>, user: seq<byte>)

  const NO_STRINGS := Strings([], [], [])

  /** The trailing text, or none of it when the lengths promise more than is there. */
  function ExtractRdpStrings(o: RdpOptions, extra: seq<byte>): Strings {
    var s, d, u := o.serverByteLen, o.domainByteLen, o.userByteLen;
    if s + d + u > |extra| then NO_STRINGS
    else Strings(extra[..s], extra[s..s + d], extra[s + d..s + d + u])
  }

  datatype Command =
    | Connect(options: RdpOptions, strings: Strings)
    | ConnectLocalVm(guid: seq<byte>, options: RdpOptions, strings: Strings)

  /** DispatchIpcMessage, for the two commands that start a session. */
  function Dispatch(f: Frame): Option<Command> {
    if f.kind == CONNECT then
      if |f.payload| < OPTIONS_SIZE then None
      else
        var o := UnpackOptions(f.payload);
        Some(Connect(o, ExtractRdpStrings(o, f.payload[OPTIONS_SIZE..])))
    else if f.kind == CONNECT_LOCAL_VM then
      if |f.payload| < GUID_SIZE + OPTIONS_SIZE then None
      else
        var o := UnpackOptions(f.payload[GUID_SIZE..]);
        Some(ConnectLocalVm(f.payload[..GUID_SIZE], o, ExtractRdpStrings(o, f.payload[GUID_SIZE + OPTIONS_SIZE..])))
    else None
  }

  /** static_cast<uint32_t>. */
  function Cut32(n: nat): nat {
    n % Pow256(4)
  }

  function ConnectFrame(o: RdpOptions, t: Strings): Frame {
    var cmd := o.(serverByteLen := Cut32(|t.server|), domainByteLen := Cut32(|t.domain|),
               userByteLen := Cut32(|t.user|));
    Frame(CONNECT, PackOptions(cmd) + t.server + t.domain + t.user)
  }

  const LOCALHOST: seq<byte> := [108, 111, 99, 97, 108, 104, 111, 115, 116]

  function ConnectLocalVmFrame(guid: seq<byte>, o: RdpOptions): Frame {
    var cmd := o.(serverByteLen := |LOCALHOST|, domainByteLen := 0);
    Frame(CONNECT_LOCAL_VM, guid + PackOptions(cmd) + LOCALHOST)
  }

  lemma ExtractJoined(o: RdpOptions, t: Strings)
    requires o.serverByteLen == |t.server| && o.domainByteLen == |t.domain| && o.userByteLen == |t.user|
    ensures ExtractRdpStrings(o, t.server + t.domain + t.user) == t
  {
    var extra := t.server + t.domain + t.user;
    assert extra[..|t.server|] == t.server;
    assert extra[|t.server|..|t.server| + |t.domain|] == t.domain;
    assert extra[|t.server| + |t.domain|..] == t.user;
    assert extra[|t.server| + |t.domain|..|t.server| + |t.domain| + |t.user|] == t.user;
  }

  lemma DispatchConnect(cmd: RdpOptions, text: seq<byte>)
    requires InRange(cmd)
    ensures Dispatch(Frame(CONNECT, PackOptions(cmd) + text)) == Some(Connect(cmd, ExtractRdpStrings(cmd, text)))
  {
    hide PackOptions, UnpackOptions, ExtractRdpStrings, InRange;
    OptionsRoundTrip(cmd, text);
    assert (PackOptions(cmd) + text)[OPTIONS_SIZE..] == text;
  }

  lemma NotCut(n: nat)
    requires n < Pow256(4)
    ensures Cut32(n) == n
  {}

  lemma ConnectSize(o: RdpOptions, t: Strings)
    ensures |ConnectFrame(o, t).payload| == OPTIONS_SIZE + |t.server| + |t.domain| + |t.user|
  {
    hide PackOptions, Cut32;
  }

  /** No length is cut in a frame that can be sent. */
  lemma NothingCut(o: RdpOptions, t: Strings)
    requires Sendable(ConnectFrame(o, t))
    ensures |t.server| < Pow256(4) && |t.domain| < Pow256(4) && |t.user| < Pow256(4)
    ensures var cmd := o.(serverByteLen := |t.server|, domainByteLen := |t.domain|, userByteLen := |t.user|);
            ConnectFrame(o, t) == Frame(CONNECT, PackOptions(cmd) + (t.server + t.domain + t.user))
  {
    hide PackOptions, Pow256, Cut32;
    ConnectSize(o, t);
    NotCut(|t.server|);
    NotCut(|t.domain|);
    NotCut(|t.user|);
    var cmd := o.(serverByteLen := |t.server|, domainByteLen := |t.domain|, userByteLen := |t.user|);
    var packed := PackOptions(cmd);
    assert packed + t.server + t.domain + t.user == packed + (t.server + t.domain + t.user);
  }

  /** What Connect was called with arrives, options and text, as long as it fits a frame. */
  lemma ConnectArrives(o: RdpOptions, t: Strings)
    requires InRange(o) && Sendable(ConnectFrame(o, t))
    ensures Dispatch(ConnectFrame(o, t))
         == Some(Connect(o.(serverByteLen := |t.server|, domainByteLen := |t.domain|, userByteLen := |t.user|), t))
  {
    hide PackOptions, InRange, Pow256, Dispatch, ExtractRdpStrings, ConnectFrame;
    var cmd := o.(serverByteLen := |t.server|, domainByteLen := |t.domain|, userByteLen := |t.user|);
    NothingCut(o, t);
    LengthsInRange(o, cmd);
    DispatchConnect(cmd, t.server + t.domain + t.user);
    ExtractJoined(cmd, t);
  }

  lemma LengthsInRange(o: RdpOptions, cmd: RdpOptions)
    requires InRange(o) && cmd.serverByteLen < Pow256(4) && cmd.domainByteLen < Pow256(4) && cmd.userByteLen < Pow256(4)
    requires cmd == o.(serverByteLen := cmd.serverByteLen, domainByteLen := cmd.domainByteLen,
                    userByteLen := cmd.userByteLen)
    ensures InRange(cmd)
  {
    forall i | 0 <= i < |OPTIONS| ensures Fields(cmd)[i] < Pow256(OPTIONS[i]) {
      if i < 8 { assert Fields(cmd)[i] == Fields(o)[i] < Pow256(OPTIONS[i]); }
    }
  }

  lemma DispatchLocalVm(guid: seq<byte>, cmd: RdpOptions, text: seq<byte>)
    requires InRange(cmd) && |guid| == GUID_SIZE
    ensures Dispatch(Frame(CONNECT_LOCAL_VM, guid + PackOptions(cmd) + text))
         == Some(ConnectLocalVm(guid, cmd, ExtractRdpStrings(cmd, text)))
  {
    hide PackOptions, UnpackOptions, ExtractRdpStrings, InRange;
    OptionsRoundTrip(cmd, text);
    var payload := guid + PackOptions(cmd) + text;
    assert payload[GUID_SIZE..] == PackOptions(cmd) + text;
    assert payload[GUID_SIZE + OPTIONS_SIZE..] == text;
    assert payload[..GUID_SIZE] == guid;
  }

  /** The guid and the options always arrive. The server name does if and only if the caller's
      options claim no user name, for ConnectLocalVm sends none and leaves that length alone;
      otherwise the child gets no text at all. */
  lemma ConnectLocalVmArrives(guid: seq<byte>, o: RdpOptions)
    requires InRange(o) && |guid| == 16
    ensures var r := Dispatch(ConnectLocalVmFrame(guid, o));
            && r.Some? && r.value.ConnectLocalVm? && r.value.guid == guid
            && r.value.options == o.(serverByteLen := |LOCALHOST|, domainByteLen := 0)
            && (r.value.strings == Strings(LOCALHOST, [], []) <==> o.userByteLen == 0)
            && (o.userByteLen != 0 ==> r.value.strings == NO_STRINGS)
  {
    var cmd := o.(serverByteLen := |LOCALHOST|, domainByteLen := 0);
    LocalLengths(o);
    ExtractLocal(cmd);
    hide PackOptions, InRange, Pow256, Dispatch, ExtractRdpStrings;
    LengthsInRange(o, cmd);
    DispatchLocalVm(guid, cmd, LOCALHOST);
  }

  lemma ExtractLocal(cmd: RdpOptions)
    requires cmd.serverByteLen == |LOCALHOST| && cmd.domainByteLen == 0
    ensures ExtractRdpStrings(cmd, LOCALHOST)
         == if cmd.userByteLen == 0 then Strings(LOCALHOST, [], []) else NO_STRINGS
  {}

  lemma LocalLengths(o: RdpOptions)
    requires InRange(o)
    ensures |LOCALHOST| < Pow256(4) && 0 < Pow256(4) && o.userByteLen < Pow256(4)
  {
    assert Pow256(0) == 1 && Pow256(1) == 256 && Pow256(2) == 65536;
    assert Fields(o)[10] < Pow256(OPTIONS[10]);
  }

  // ---- structs followed by their own text ------------------------------------

  /** reason, extended reason, fatal, reserved, descByteLen. */
  const DISCONNECTED_STRUCT: seq<nat> := [4, 4, 1, 3, 4]

  /** level, reserved, byteLen. */
  const LOG_LINE_STRUCT: seq<nat> := [1, 3, 4]

  lemma StructSizes()
    ensures Size(DISCONNECTED_STRUCT) == 16 && Size(LOG_LINE_STRUCT) == 8
  {
    SizeIs(DISCONNECTED_STRUCT, 4, [4, 1, 3, 4]);
    SizeIs([4, 1, 3, 4], 4, [1, 3, 4]);
    SizeIs([1, 3, 4], 1, [3, 4]);
    SizeIs([3, 4], 3, [4]);
    SizeIs([4], 4, []);
  }

  predicate Int32(v: int) {
    -0x8000_0000 <= v < 0x8000_0000
  }

  /** Two's complement. */
  function FromInt32(v: int): nat
    requires Int32(v)
  {
    if v < 0 then v + 0x1_0000_0000 else v
  }

  function ToInt32(n: nat): int {
    if n < 0x8000_0000 then n else n - 0x1_0000_0000
  }

  /** The text at the end of a payload: as long as promised, or as long as there is. */
  function Trailing(payload: seq<byte>, size: nat, promised: nat): seq<byte>
    requires |payload| >= size
  {
    payload[size..size + if promised <= |payload| - size then promised else |payload| - size]
  }

  datatype DisconnectedInfo = DisconnectedInfo(reason: int, extended: int, fatal: bool, description: seq<byte>)

  /** The child's OnEvActDisconnected: reasons above 3 are errors, and only those carry text. */
  function DisconnectedFrame(reason: int, extended: int, description: seq<byte>): Frame
    requires Int32(reason) && Int32(extended)
  {
    var fatal := reason > 3;
    var desc := if fatal then description else [];
    Frame(DISCONNECTED,
          Pack(DISCONNECTED_STRUCT, [FromInt32(reason), FromInt32(extended), if fatal then 1 else 0, 0,
                                     Cut32(|desc|)]) + desc)
  }

  /** The parent's DispatchEvent. */
  function ReadDisconnected(payload: seq<byte>): Option<DisconnectedInfo> {
    StructSizes();
    if |payload| < 16 then None
    else
      var f := Unpack(DISCONNECTED_STRUCT, payload);
      Some(DisconnectedInfo(ToInt32(f[0]), ToInt32(f[1]), f[2] != 0, Trailing(payload, 16, f[4])))
  }

  lemma DisconnectedArrives(reason: int, extended: int, description: seq<byte>)
    requires Int32(reason) && Int32(extended) && Sendable(DisconnectedFrame(reason, extended, description))
    ensures ReadDisconnected(DisconnectedFrame(reason, extended, description).payload)
         == Some(DisconnectedInfo(reason, extended, reason > 3, if reason > 3 then description else []))
  {
    StructSizes();
    PowersOf256();
    var payload := DisconnectedFrame(reason, extended, description).payload;
    var desc := if reason > 3 then description else [];
    var fields: seq<nat> := [FromInt32(reason), FromInt32(extended), if reason > 3 then 1 else 0, 0, Cut32(|desc|)];
    assert |payload| == 16 + |desc|;
    UnpackPack(DISCONNECTED_STRUCT, fields, desc);
    assert payload[16..16 + |desc|] == desc;
  }

  function LogLineFrame(text: seq<byte>): Frame {
    Frame(LOG_LINE, Pack(LOG_LINE_STRUCT, [1, 0, Cut32(|text|)]) + text)
  }

  function ReadLogLine(payload: seq<byte>): Option<seq<byte>> {
    StructSizes();
    if |payload| < 8 then None else Some(Trailing(payload, 8, Unpack(LOG_LINE_STRUCT, payload)[2]))
  }

  lemma LogLineArrives(text: seq<byte>)
    requires Sendable(LogLineFrame(text))
    ensures ReadLogLine(LogLineFrame(text).payload) == Some(text)
  {
    StructSizes();
    PowersOf256();
    var payload := LogLineFrame(text).payload;
    assert |payload| == 8 + |text|;
    UnpackPack(LOG_LINE_STRUCT, [1, 0, Cut32(|text|)], text);
    assert payload[8..8 + |text|] == text;
  }

  // ---- the bytes themselves --------------------------------------------------

  /** One after another. */
  function Joined(parts: seq<seq<byte>>): seq<byte> {
    if parts == [] then [] else parts[0] + Joined(parts[1..])
  }

  function Parts(widths: seq<nat>, fields: seq<nat>): (r: seq<seq<byte>>)
    requires |fields| == |widths|
    ensures |r| == |widths| && forall i | 0 <= i < |r| :: r[i] == Bytes(fields[i], widths[i])
  {
    seq(|widths|, i requires 0 <= i < |widths| => Bytes(fields[i], widths[i]))
  }

  lemma {:induction false} PackJoins(widths: seq<nat>, fields: seq<nat>)
    requires |fields| == |widths|
    ensures Pack(widths, fields) == Joined(Parts(widths, fields))
  {
    if widths != [] {
      PackJoins(widths[1..], fields[1..]);
      assert Parts(widths, fields)[1..] == Parts(widths[1..], fields[1..]);
    }
  }

  /** RdpOptions on the wire: the eleven fields one after another, each little-endian in its
      own width. */
  lemma OptionsBytes(o: RdpOptions)
    ensures PackOptions(o)
         == Joined([Bytes(o.port, 2), Bytes(o.desktopWidth, 2), Bytes(o.desktopHeight, 2), Bytes(o.colorDepth, 2),
                    Bytes(o.flags, 4), Bytes(o.audioMode, 1), Bytes(o.dpiScalePercent, 2), Bytes(o.reserved, 1),
                    Bytes(o.serverByteLen, 4), Bytes(o.domainByteLen, 4), Bytes(o.userByteLen, 4)])
  {
    OptionsSize();
    hide Bytes, Pack, Size, Joined;
    PackJoins(OPTIONS, Fields(o));
    assert Parts(OPTIONS, Fields(o))
        == [Bytes(o.port, 2), Bytes(o.desktopWidth, 2), Bytes(o.desktopHeight, 2), Bytes(o.colorDepth, 2),
            Bytes(o.flags, 4), Bytes(o.audioMode, 1), Bytes(o.dpiScalePercent, 2), Bytes(o.reserved, 1),
            Bytes(o.serverByteLen, 4), Bytes(o.domainByteLen, 4), Bytes(o.userByteLen, 4)];
  }

  /** Connect on the wire: options, then the three texts; ConnectLocalVm: the guid, options
      that claim the server's nine letters and no domain, and the letters of localhost. */
  lemma ConnectBytes(o: RdpOptions, t: Strings, guid: seq<byte>)
    requires |guid| == 16 && Sendable(ConnectFrame(o, t))
    ensures var cmd := o.(serverByteLen := |t.server|, domainByteLen := |t.domain|, userByteLen := |t.user|);
            ConnectFrame(o, t) == Frame(2, PackOptions(cmd) + (t.server + t.domain + t.user))
    ensures var cmd := o.(serverByteLen := 9, domainByteLen := 0);
            ConnectLocalVmFrame(guid, o)
            == Frame(3, guid + PackOptions(cmd) + [108, 111, 99, 97, 108, 104, 111, 115, 116])
  {
    NothingCut(o, t);
    hide PackOptions, Pow256;
  }

  /** Disconnected on the wire: reason and extended reason, the class byte, three zeros, the
      text's length, the text. */
  lemma DisconnectedBytes(reason: int, extended: int, description: seq<byte>)
    requires Int32(reason) && Int32(extended) && |description| < Pow256(4)
    ensures var desc := if reason > 3 then description else [];
            DisconnectedFrame(reason, extended, description)
            == Frame(132, Joined([Bytes(FromInt32(reason), 4), Bytes(FromInt32(extended), 4),
                                  Bytes(if reason > 3 then 1 else 0, 1), Bytes(0, 3), Bytes(|desc|, 4)]) + desc)
  {
    var desc := if reason > 3 then description else [];
    var f: seq<nat> := [FromInt32(reason), FromInt32(extended), if reason > 3 then 1 else 0, 0, |desc|];
    hide Bytes, Pack, Joined, Pow256, Cut32, FromInt32;
    PackJoins(DISCONNECTED_STRUCT, f);
    NotCut(|desc|);
    assert Parts(DISCONNECTED_STRUCT, f)
        == [Bytes(FromInt32(reason), 4), Bytes(FromInt32(extended), 4), Bytes(if reason > 3 then 1 else 0, 1),
            Bytes(0, 3), Bytes(|desc|, 4)];
  }

  /** A log line on the wire: its level, three zeros, length and text. */
  lemma LogLineBytes(text: seq<byte>)
    requires |text| < Pow256(4)
    ensures LogLineFrame(text) == Frame(137, Joined([Bytes(1, 1), Bytes(0, 3), Bytes(|text|, 4)]) + text)
  {
    hide Bytes, Pack, Joined, Pow256, Cut32;
    PackJoins(LOG_LINE_STRUCT, [1, 0, |text|]);
    NotCut(|text|);
    assert Parts(LOG_LINE_STRUCT, [1, 0, |text|]) == [Bytes(1, 1), Bytes(0, 3), Bytes(|text|, 4)];
  }
}
