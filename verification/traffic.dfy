/** The child's threads on one pipe: startup, logging, queued events, one send lock
    (src/rdphost/main.cpp, src/rdphost/IpcClient.cpp, src/rdphost/RdpHost.cpp).

    A step is one indivisible act of one thread. Any thread may log. `sent` and `enqueued`
    are history: no field of the program holds them. Writes succeed. */
module Traffic {
  import opened Wrappers
  import opened Wire
  import opened Messages
  import opened Pipes

  type Thread = nat

  const UI: Thread := 0
  const SENDER: Thread := 1

  /** Who holds m_sendMutex and what for; `raw` is SendRaw's single write. */
  datatype Holder = Holder(thread: Thread, frame: Frame, raw: bool, headerOut: bool)

  datatype Sent = Sent(frame: Frame, raw: bool)

  /** How far wWinMain has come. */
  datatype Phase = Handshaking | Acked | SenderUp | HwndSent | RxUp | Looping

  datatype State = State(
    hwnd: nat,
    phase: Phase,
    commanded: bool,
    wire: seq<byte>,
    lock: Option<Holder>,
    queue: seq<Frame>,
    inFlight: Option<Frame>,
    sent: seq<Sent>,
    enqueued: seq<Frame>)

  datatype Step =
    | AckStarts
    | StartSender
    | ReadyStarts
    | StartRx
    | StartLoop
    | CommandArrives
    | Event(frame: Frame)
    | Log(thread: Thread, text: seq<byte>)
    | Pop
    | RawStarts
    | HeaderOut
    | PayloadOut
    | RawOut

  function Start(hwnd: nat): State {
    State(hwnd, Handshaking, false, [], None, [], None, [], [])
  }

  /** What the program allows. The logger is set when the message loop is about to run, a
      Connect is dispatched by that loop, and the control raises no events before it. */
  predicate Enabled(s: State, step: Step) {
    match step
    case AckStarts => s.phase == Handshaking && s.lock.None?
    case StartSender => s.phase == Acked
    case ReadyStarts => s.phase == SenderUp && s.lock.None?
    case StartRx => s.phase == HwndSent
    case StartLoop => s.phase == RxUp
    case CommandArrives => s.phase == Looping
    case Event(f) => s.phase == Looping && s.commanded && Sendable(f)
    case Log(_, text) => s.phase == Looping && s.lock.None? && Sendable(LogLineFrame(text))
    case Pop => s.phase !in {Handshaking, Acked} && s.queue != [] && s.inFlight.None?
    case RawStarts => s.inFlight.Some? && s.lock.None?
    case HeaderOut => s.lock.Some? && !s.lock.value.raw && !s.lock.value.headerOut
    case PayloadOut => s.lock.Some? && !s.lock.value.raw && s.lock.value.headerOut
    case RawOut => s.lock.Some? && s.lock.value.raw
  }

  function Take(s: State, t: Thread, f: Frame, raw: bool): State {
    s.(lock := Some(Holder(t, f, raw, false)))
  }

  /** A two-write send is done: the lock is free, and startup goes on if it waited for this. */
  function Done(s: State): State
    requires s.lock.Some?
  {
    s.(lock := None, sent := s.sent + [Sent(s.lock.value.frame, false)],
    phase := match s.phase case Handshaking => Acked case SenderUp => HwndSent case p => p)
  }

  function Next(s: State, step: Step): State
    requires Enabled(s, step)
  {
    match step
    case AckStarts => Take(s, UI, HelloAckFrame(true), false)
    case StartSender => s.(phase := SenderUp)
    case ReadyStarts => Take(s, UI, HwndReadyFrame(s.hwnd), false)
    case StartRx => s.(phase := RxUp)
    case StartLoop => s.(phase := Looping)
    case CommandArrives => s.(commanded := true)
    case Event(f) => s.(queue := s.queue + [f], enqueued := s.enqueued + [f])
    case Log(t, text) => Take(s, t, LogLineFrame(text), false)
    case Pop => s.(inFlight := Some(s.queue[0]), queue := s.queue[1..])
    case RawStarts => Take(s, SENDER, s.inFlight.value, true)
    case HeaderOut =>
      var f := s.lock.value.frame;
      var s' := s.(wire := s.wire + Header(f), lock := Some(s.lock.value.(headerOut := true)));
      if f.payload == [] then Done(s') else s'
    case PayloadOut => Done(s.(wire := s.wire + s.lock.value.frame.payload))
    case RawOut =>
      var f := s.lock.value.frame;
      s.(wire := s.wire + Encode(f), lock := None, inFlight := None, sent := s.sent + [Sent(f, true)])
  }

  function Run(s: State, steps: seq<Step>): State
    decreases |steps|
  {
    if steps == [] then s else Run(if Enabled(s, steps[0]) then Next(s, steps[0]) else s, steps[1..])
  }

  // ---- the invariant ---------------------------------------------------------

  function Frames(sent: seq<Sent>): seq<Frame> {
    if sent == [] then [] else [sent[0].frame] + Frames(sent[1..])
  }

  /** The frames that went out through the sender thread. */
  function Raws(sent: seq<Sent>): seq<Frame> {
    if sent == [] then [] else (if sent[0].raw then [sent[0].frame] else []) + Raws(sent[1..])
  }

  function HeaderHeld(s: State): seq<byte> {
    if s.lock.Some? && s.lock.value.headerOut then Header(s.lock.value.frame) else []
  }

  function InFlight(s: State): seq<Frame> {
    if s.inFlight.Some? then [s.inFlight.value] else []
  }

  /** Whole frames, and at most one header whose writer holds the lock. */
  predicate WholeFrames(s: State) {
    && s.wire == EncodeAll(Frames(s.sent)) + HeaderHeld(s)
    && (s.lock.Some? && s.lock.value.headerOut ==> s.lock.value.frame.payload != [] && !s.lock.value.raw)
  }

  /** Events leave in the order they were queued, none lost, none twice. */
  predicate InOrder(s: State) {
    && s.enqueued == Raws(s.sent) + InFlight(s) + s.queue
    && (s.lock.Some? && s.lock.value.raw ==> s.inFlight == Some(s.lock.value.frame))
  }

  ghost predicate AllSendable(s: State) {
    && (forall f | f in Frames(s.sent) + InFlight(s) + s.queue :: Sendable(f))
    && (s.lock.Some? ==> Sendable(s.lock.value.frame))
  }

  function Opening(hwnd: nat): seq<Frame> {
    [HelloAckFrame(true), HwndReadyFrame(hwnd)]
  }

  /** HelloAck first, HwndReady second, nothing before, between or beside them. */
  predicate Opened(s: State) {
    && (s.phase != Looping ==>
          && !s.commanded && s.queue == [] && s.inFlight.None?
          && (s.lock.Some? ==> s.lock.value.thread == UI && !s.lock.value.raw))
    && match s.phase
       case Handshaking => Frames(s.sent) == [] && (s.lock.Some? ==> s.lock.value.frame == HelloAckFrame(true))
       case Acked => Frames(s.sent) == [HelloAckFrame(true)] && s.lock.None?
       case SenderUp =>
         Frames(s.sent) == [HelloAckFrame(true)] && (s.lock.Some? ==> s.lock.value.frame == HwndReadyFrame(s.hwnd))
       case Looping => Opening(s.hwnd) <= Frames(s.sent)
       case _ => Frames(s.sent) == Opening(s.hwnd) && s.lock.None?
  }

  ghost predicate Inv(s: State) {
    0 < s.hwnd < Pow256(8) && WholeFrames(s) && InOrder(s) && AllSendable(s) && Opened(s)
  }

  lemma {:induction false} SentMore(sent: seq<Sent>, x: Sent)
    ensures Frames(sent + [x]) == Frames(sent) + [x.frame]
    ensures Raws(sent + [x]) == Raws(sent) + if x.raw then [x.frame] else []
  {
    if sent == [] {
      assert sent + [x] == [x];
    } else {
      assert (sent + [x])[1..] == sent[1..] + [x];
      SentMore(sent[1..], x);
    }
  }

  lemma StartInv(hwnd: nat)
    requires 0 < hwnd < Pow256(8)
    ensures Inv(Start(hwnd))
  {}

  /** What one more complete frame does to the wire. */
  lemma OneMore(s: State, f: Frame, raw: bool)
    ensures EncodeAll(Frames(s.sent + [Sent(f, raw)])) == EncodeAll(Frames(s.sent)) + Encode(f)
  {
    SentMore(s.sent, Sent(f, raw));
    EncodeAllConcat(Frames(s.sent), [f]);
    assert EncodeAll([f]) == Encode(f) + EncodeAll([f][1..]);
    assert EncodeAll([f]) == Encode(f);
  }

  lemma DoneInv(s: State, s': State)
    requires Inv(s) && s.lock.Some? && !s.lock.value.raw
    requires s' == Done(s.(wire := EncodeAll(Frames(s.sent)) + Encode(s.lock.value.frame)))
    ensures Inv(s')
  {
    OneMore(s, s.lock.value.frame, false);
    SentMore(s.sent, Sent(s.lock.value.frame, false));
    hide Encode;
  }

  lemma StartupStepInv(s: State, step: Step)
    requires Inv(s) && Enabled(s, step)
    requires step.AckStarts? || step.StartSender? || step.ReadyStarts? || step.StartRx? || step.StartLoop?
             || step.CommandArrives? || step.Log?
    ensures Inv(Next(s, step))
  {
    PowersOf256();
    hide Encode, EncodeAll, Frames, Raws;
  }

  lemma QueueStepInv(s: State, step: Step)
    requires Inv(s) && Enabled(s, step) && (step.Event? || step.Pop? || step.RawStarts?)
    ensures Inv(Next(s, step))
  {
    hide Encode, EncodeAll, Frames, Raws, Header;
  }

  lemma WriteStepInv(s: State, step: Step)
    requires Inv(s) && Enabled(s, step) && (step.HeaderOut? || step.PayloadOut?)
    ensures Inv(Next(s, step))
  {
    hide Inv, Next;
    if step.PayloadOut? { PayloadInv(s); }
    else if s.lock.value.frame.payload == [] { HeaderOnlyInv(s); }
    else { HeaderHeldInv(s); }
  }

  lemma PayloadInv(s: State)
    requires Inv(s) && Enabled(s, PayloadOut)
    ensures Inv(Next(s, PayloadOut))
  {
    var f, out := s.lock.value.frame, EncodeAll(Frames(s.sent));
    assert out + Header(f) + f.payload == out + Encode(f);
    assert s.wire + f.payload == out + Encode(f);
    hide Encode, EncodeAll, Frames, Inv, Header;
    DoneInv(s, Next(s, PayloadOut));
  }

  lemma HeaderOnlyInv(s: State)
    requires Inv(s) && Enabled(s, HeaderOut) && s.lock.value.frame.payload == []
    ensures Inv(Next(s, HeaderOut))
  {
    var f, out := s.lock.value.frame, EncodeAll(Frames(s.sent));
    assert s.wire == out;
    assert Encode(f) == Header(f);
    var s' := s.(wire := s.wire + Header(f), lock := Some(s.lock.value.(headerOut := true)));
    assert Next(s, HeaderOut) == Done(s');
    assert Done(s') == Done(s.(wire := out + Encode(f)));
    hide Encode, EncodeAll, Frames, Inv, Header, Next;
    DoneInv(s, Next(s, HeaderOut));
  }

  /** The header is out, the payload still to come. */
  lemma HeaderHeldInv(s: State)
    requires Inv(s) && Enabled(s, HeaderOut) && s.lock.value.frame.payload != []
    ensures Inv(Next(s, HeaderOut))
  {
    hide Encode, EncodeAll, Frames, Raws, Header;
    var s' := Next(s, HeaderOut);
    assert InOrder(s') && AllSendable(s');
    hide InOrder, AllSendable;
    assert WholeFrames(s') && Opened(s');
  }

  lemma RawOutInv(s: State)
    requires Inv(s) && Enabled(s, RawOut)
    ensures Inv(Next(s, RawOut))
  {
    RawOutWhole(s);
    RawOutSendable(s);
    RawOutOpened(s);
    RawOutOrder(s);
    hide WholeFrames, AllSendable, Opened, InOrder, Encode;
  }

  lemma RawOutWhole(s: State)
    requires WholeFrames(s) && Enabled(s, RawOut)
    ensures WholeFrames(Next(s, RawOut))
  {
    var f := s.lock.value.frame;
    hide Encode, EncodeAll, Frames, Header;
    OneMore(s, f, true);
    assert HeaderHeld(s) == [];
    assert s.wire == EncodeAll(Frames(s.sent));
    var s' := Next(s, RawOut);
    assert s'.wire == EncodeAll(Frames(s.sent)) + Encode(f);
  }

  lemma RawOutSendable(s: State)
    requires AllSendable(s) && Enabled(s, RawOut)
    ensures AllSendable(Next(s, RawOut))
  {
    var f, s' := s.lock.value.frame, Next(s, RawOut);
    SentMore(s.sent, Sent(f, true));
    hide Encode, Frames, Raws, Sendable;
    forall g | g in Frames(s'.sent) + InFlight(s') + s'.queue ensures Sendable(g) {
      assert g == f || g in Frames(s.sent) + InFlight(s) + s.queue;
    }
  }

  lemma RawOutOpened(s: State)
    requires Inv(s) && Enabled(s, RawOut)
    ensures Opened(Next(s, RawOut))
  {
    SentMore(s.sent, Sent(s.lock.value.frame, true));
    hide Encode, EncodeAll, Frames, Raws, Header;
  }

  lemma RawOutOrder(s: State)
    requires InOrder(s) && Enabled(s, RawOut)
    ensures InOrder(Next(s, RawOut))
  {
    SentMore(s.sent, Sent(s.lock.value.frame, true));
    hide Encode, Frames, Raws;
  }

  lemma StepInv(s: State, step: Step)
    requires Inv(s) && Enabled(s, step)
    ensures Inv(Next(s, step))
  {
    hide Inv, Next;
    if step.RawOut? { RawOutInv(s); }
    else if step.HeaderOut? || step.PayloadOut? { WriteStepInv(s, step); }
    else if step.Event? || step.Pop? || step.RawStarts? { QueueStepInv(s, step); }
    else { StartupStepInv(s, step); }
  }

  /** Whatever the interleaving, from the start of the process on. */
  lemma {:induction false} RunInv(s: State, steps: seq<Step>)
    requires Inv(s)
    ensures Inv(Run(s, steps))
    decreases |steps|
  {
    hide Inv, Next, Enabled;
    if steps != [] {
      if Enabled(s, steps[0]) {
        StepInv(s, steps[0]);
        RunInv(Next(s, steps[0]), steps[1..]);
      } else {
        RunInv(s, steps[1..]);
      }
    }
  }

  // ---- what the parent sees --------------------------------------------------

  /** At every moment the bytes written parse to exactly the frames sent. */
  lemma WireParses(s: State)
    requires Inv(s)
    ensures Parse(s.wire) == Frames(s.sent)
  {
    forall f | f in Frames(s.sent) ensures Sendable(f) {
      assert f in Frames(s.sent) + InFlight(s) + s.queue;
    }
    ParseEncodeAll(Frames(s.sent), HeaderHeld(s));
    if s.lock.Some? && s.lock.value.headerOut {
      var f := s.lock.value.frame;
      assert Encode(f)[..8] == Header(f);
      ParseCut(f, 8);
    }
  }

  /** The first two frames, in every run. */
  lemma OpeningComesFirst(s: State)
    requires Inv(s)
    ensures Frames(s.sent) <= Opening(s.hwnd) || Opening(s.hwnd) <= Frames(s.sent)
  {}

  /** Once two frames are out, the parent's handshake succeeds on what it has received, and
      its receive loop gets exactly the frames that follow. */
  lemma ParentStarts(s: State)
    requires Inv(s) && |Frames(s.sent)| >= 2
    ensures var r := ParentShake(s.wire);
            r.Some? && r.value.0 == s.hwnd && Parse(r.value.1) == Frames(s.sent)[2..]
  {
    var later := Frames(s.sent)[2..];
    var rest := EncodeAll(later) + HeaderHeld(s);
    AfterOpening(s);
    HeaderParsesToNothing(s);
    LaterSendable(s);
    hide Inv, ParentShake, Parse, Frames, EncodeAll, HeaderHeld;
    ParentAccepts(s.hwnd, rest);
    ParseEncodeAll(later, HeaderHeld(s));
  }

  lemma AfterOpening(s: State)
    requires Inv(s) && |Frames(s.sent)| >= 2
    ensures s.wire == EncodeAll(Opening(s.hwnd)) + (EncodeAll(Frames(s.sent)[2..]) + HeaderHeld(s))
    ensures Opening(s.hwnd) == [HelloAckFrame(true), HwndReadyFrame(s.hwnd)] && 0 < s.hwnd < Pow256(8)
  {
    OpeningComesFirst(s);
    var later := Frames(s.sent)[2..];
    assert Frames(s.sent) == Opening(s.hwnd) + later;
    EncodeAllConcat(Opening(s.hwnd), later);
    hide Encode, EncodeAll, Frames;
  }

  /** A header alone is no frame yet. */
  lemma HeaderParsesToNothing(s: State)
    requires Inv(s)
    ensures Parse(HeaderHeld(s)) == []
  {
    if s.lock.Some? && s.lock.value.headerOut {
      var f := s.lock.value.frame;
      assert Encode(f)[..8] == Header(f);
      ParseCut(f, 8);
    }
  }

  lemma LaterSendable(s: State)
    requires Inv(s) && |Frames(s.sent)| >= 2
    ensures forall f | f in Frames(s.sent)[2..] :: Sendable(f)
  {
    forall f | f in Frames(s.sent)[2..] ensures Sendable(f) {
      assert f in Frames(s.sent) + InFlight(s) + s.queue;
    }
  }

  /** Over every interleaving: whole frames on the wire, the opening first, and the queued
      events sent in order with the rest still to come. */
  lemma EveryRun(hwnd: nat, steps: seq<Step>)
    requires 0 < hwnd < Pow256(8)
    ensures var s := Run(Start(hwnd), steps);
            && WholeFrames(s) && Parse(s.wire) == Frames(s.sent)
            && (Frames(s.sent) <= Opening(hwnd) || Opening(hwnd) <= Frames(s.sent))
            && s.enqueued == Raws(s.sent) + InFlight(s) + s.queue
  {
    StartInv(hwnd);
    RunInv(Start(hwnd), steps);
    var s := Run(Start(hwnd), steps);
    RunKeepsHwnd(Start(hwnd), steps);
    WireParses(s);
    OpeningComesFirst(s);
  }

  lemma {:induction false} RunKeepsHwnd(s: State, steps: seq<Step>)
    ensures Run(s, steps).hwnd == s.hwnd
    decreases |steps|
  {
    if steps != [] {
      RunKeepsHwnd(if Enabled(s, steps[0]) then Next(s, steps[0]) else s, steps[1..]);
    }
  }

  /** Why the logger waits: a log line between the two makes the parent give up. */
  lemma EarlyLogBreaksHandshake(text: seq<byte>, rest: seq<byte>)
    requires Sendable(LogLineFrame(text))
    ensures ParentShake(EncodeAll([HelloAckFrame(true), LogLineFrame(text)]) + rest).None?
  {
    var ack, line := HelloAckFrame(true), LogLineFrame(text);
    PowersOf256();
    assert [ack, line][1..] == [line];
    assert EncodeAll([line]) == Encode(line);
    assert EncodeAll([ack, line]) + rest == Encode(ack) + (Encode(line) + rest);
    FrameStarts(ack, Encode(line) + rest);
    FrameStarts(line, rest);
  }

  // ---- progress ----------------------------------------------------------------

  /** Each step is one the program allows when it is taken. */
  predicate Legal(s: State, steps: seq<Step>)
    decreases |steps|
  {
    steps == [] || (Enabled(s, steps[0]) && Legal(Next(s, steps[0]), steps[1..]))
  }

  lemma {:induction false} LegalConcat(s: State, a: seq<Step>, b: seq<Step>)
    requires Legal(s, a) && Legal(Run(s, a), b)
    ensures Legal(s, a + b) && Run(s, a + b) == Run(Run(s, a), b)
    decreases |a|
  {
    if a == [] {
      assert a + b == b;
    } else {
      assert (a + b)[1..] == a[1..] + b;
      LegalConcat(Next(s, a[0]), a[1..], b);
    }
  }

  lemma OneLegal(s: State, step: Step)
    requires Enabled(s, step)
    ensures Legal(s, [step]) && Run(s, [step]) == Next(s, step)
  {
    assert [step][1..] == [];
  }

  lemma LegalThen(s: State, step: Step, rest: seq<Step>)
    requires Enabled(s, step) && Legal(Next(s, step), rest)
    ensures Legal(s, [step] + rest) && Run(s, [step] + rest) == Run(Next(s, step), rest)
  {
    assert ([step] + rest)[1..] == rest;
  }

  /** The same queue and history, with no send under way. */
  predicate Idle(s: State, s': State) {
    s'.lock.None? && s'.phase == s.phase && s'.queue == s.queue && s'.enqueued == s.enqueued
  }

  /** Whoever holds the send lock can finish. */
  lemma SendFinishes(s: State) returns (steps: seq<Step>)
    requires Inv(s) && s.phase == Looping
    ensures Legal(s, steps) && Idle(s, Run(s, steps))
    ensures s.inFlight.None? ==> Run(s, steps).inFlight.None?
  {
    hide Inv, Encode, Header;
    steps := [];
    if s.lock.Some? && s.lock.value.raw {
      OneLegal(s, RawOut);
      steps := [RawOut];
    } else if s.lock.Some? && s.lock.value.headerOut {
      OneLegal(s, PayloadOut);
      steps := [PayloadOut];
    } else if s.lock.Some? {
      var s1 := Next(s, HeaderOut);
      if s1.lock.None? {
        OneLegal(s, HeaderOut);
        steps := [HeaderOut];
      } else {
        OneLegal(s1, PayloadOut);
        LegalThen(s, HeaderOut, [PayloadOut]);
        steps := [HeaderOut] + [PayloadOut];
      }
    }
  }

  /** With the lock free, the sender can send what it holds. */
  lemma HeldIsSent(s: State) returns (steps: seq<Step>)
    requires s.phase == Looping && s.lock.None? && s.inFlight.Some?
    ensures Legal(s, steps) && Idle(s, Run(s, steps)) && Run(s, steps).inFlight.None?
    ensures Run(s, steps).sent == s.sent + [Sent(s.inFlight.value, true)]
  {
    hide Encode;
    OneLegal(Next(s, RawStarts), RawOut);
    LegalThen(s, RawStarts, [RawOut]);
    steps := [RawStarts] + [RawOut];
  }

  /** And take the next one off the queue. */
  lemma NextIsTaken(s: State)
    requires s.phase == Looping && s.lock.None? && s.inFlight.None? && s.queue != []
    ensures Enabled(s, Pop)
    ensures var s' := Next(s, Pop);
            s' == s.(inFlight := Some(s.queue[0]), queue := s.queue[1..])
  {}

  /** From any moment of any run the sender can send every event that is queued: then all of
      them are out, in the order they were queued. */
  lemma {:induction false} QueueDrains(s: State) returns (steps: seq<Step>)
    requires Inv(s) && s.phase == Looping
    ensures Legal(s, steps)
    ensures var s' := Run(s, steps);
            s'.queue == [] && s'.inFlight.None? && s'.lock.None? && s'.enqueued == s.enqueued == Raws(s'.sent)
    decreases |s.queue|
  {
    hide Inv, Next, Enabled, Raws;
    steps := SendFinishes(s);
    var s1 := Run(s, steps);
    RunInv(s, steps);
    var more: seq<Step> := [];
    if s1.inFlight.Some? {
      more := HeldIsSent(s1);
      LegalConcat(s, steps, more);
      RunInv(s1, more);
    } else {
      LegalConcat(s, steps, []);
    }
    var s2 := Run(s1, more);
    steps := steps + more;
    if s2.queue != [] {
      NextIsTaken(s2);
      StepInv(s2, Pop);
      var rest := QueueDrains(Next(s2, Pop));
      LegalThen(s2, Pop, rest);
      LegalConcat(s, steps, [Pop] + rest);
      steps := steps + ([Pop] + rest);
    } else {
      AllAreOut(s2);
    }
  }

  lemma AllAreOut(s: State)
    requires Inv(s) && s.queue == [] && s.inFlight.None?
    ensures s.enqueued == Raws(s.sent)
  {
    assert InOrder(s) by { hide WholeFrames, AllSendable, Opened; }
    hide Raws;
  }

  /** A two-write send of startup, from the step that takes the lock to the last byte. */
  lemma StartupSend(s: State, step: Step, f: Frame) returns (steps: seq<Step>)
    requires Enabled(s, step) && Next(s, step) == Take(s, UI, f, false)
    requires s.phase == Handshaking || s.phase == SenderUp
    ensures Legal(s, steps)
    ensures var s' := Run(s, steps);
            && s'.phase == (if s.phase == Handshaking then Acked else HwndSent)
            && s' == s.(phase := s'.phase, lock := None, wire := s'.wire, sent := s.sent + [Sent(f, false)])
  {
    hide Header;
    var s1 := Next(s, step);
    var s2 := Next(s1, HeaderOut);
    steps := if f.payload == [] then [] else [PayloadOut];
    if f.payload != [] { OneLegal(s2, PayloadOut); }
    hide Next, Enabled;
    LegalThen(s1, HeaderOut, steps);
    steps := [HeaderOut] + steps;
    LegalThen(s, step, steps);
    steps := [step] + steps;
  }

  /** Startup reaches the message loop, with the opening and nothing else on the wire. */
  lemma StartupRuns(hwnd: nat) returns (steps: seq<Step>)
    ensures Legal(Start(hwnd), steps)
    ensures var s := Run(Start(hwnd), steps);
            && s.phase == Looping && s.lock.None? && s.sent == [Sent(HelloAckFrame(true), false),
                                                                Sent(HwndReadyFrame(hwnd), false)]
            && s.queue == [] && s.enqueued == [] && !s.commanded
  {
    hide Header, HelloAckFrame, HwndReadyFrame;
    var s0 := Start(hwnd);
    var ack := StartupSend(s0, AckStarts, HelloAckFrame(true));
    var s1 := Run(s0, ack);
    var s2 := Next(s1, StartSender);
    var ready := StartupSend(s2, ReadyStarts, HwndReadyFrame(hwnd));
    var s3 := Run(s2, ready);
    var s4 := Next(s3, StartRx);
    OneLegal(s4, StartLoop);
    hide Next, Enabled;
    LegalThen(s3, StartRx, [StartLoop]);
    LegalConcat(s2, ready, [StartRx] + [StartLoop]);
    steps := ready + ([StartRx] + [StartLoop]);
    LegalThen(s1, StartSender, steps);
    LegalConcat(s0, ack, [StartSender] + steps);
    steps := ack + ([StartSender] + steps);
  }

  /** In the message loop a command can arrive, and after it the control can raise any event
      that fits a frame, which joins the end of the queue; before it, none. */
  lemma EventsFollowCommand(s: State, f: Frame)
    requires s.phase == Looping
    ensures Enabled(s, CommandArrives) && Next(s, CommandArrives) == s.(commanded := true)
    ensures Enabled(s, Event(f)) <==> s.commanded && Sendable(f)
    ensures Enabled(s, Event(f)) ==>
              Next(s, Event(f)) == s.(queue := s.queue + [f], enqueued := s.enqueued + [f])
  {}
}
