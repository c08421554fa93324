/** What every run of one VM tab keeps. */
module VmTabRuns {
  import opened Wrappers
  import opened VmTab

  // ---- what holds whatever events arrive, stale ones included ---------------

  /** At most one child is alive, and it is the client's. */
  predicate OneChild(c: Child) {
    && (c.client.None? ==> c.alive == {})
    && (c.client.Some? ==> c.client.value.id < c.spawned && c.alive == {c.client.value.id})
  }

  /** The popup is on screen only for the wanted, connected, unsuppressed tab, and belongs
      to the window that holds the tab. */
  predicate PopupGated(p: Popup) {
    p.child.client.Some? ==>
      && p.child.client.value.owner == p.child.window
      && (p.child.client.value.shown ==> p.gate.wantsVisible && p.gate.connected && !p.gate.suppressed)
  }

  /** The same orders from the window: wanted or not, suppressed or not, which owner. */
  predicate SameOrders(p: Popup, q: Popup) {
    && q.gate.wantsVisible == p.gate.wantsVisible && q.gate.suppressed == p.gate.suppressed
    && q.child.window == p.child.window
  }

  predicate FailuresEscalate(t: Tab) {
    && (t.health.hadError ==> t.child.client.None?)
    && (!t.health.hadError ==> t.health.failures < MAX_CONNECT_FAILURES)
    && (t.gate.connected ==> t.health.everConnected)
    && (t.health.everConnected ==> t.health.failures == 0)
  }

  /** A client whose Disconnected was handled waits for an armed reconnect timer. */
  predicate NoZombie(t: Tab) {
    t.child.client.Some? && t.child.client.value.droppedAt.Some? ==> t.timers.reconnectAt.Some?
  }

  predicate FitBounded(t: Tab) {
    && t.timers.fitTicks <= MAX_FIT_TICKS
    && (t.timers.fitRunning ==> t.enhanced.ready)
  }

  predicate Valid(t: Tab) {
    OneChild(t.child) && PopupGated(PopupOf(t)) && FailuresEscalate(t) && NoZombie(t) && FitBounded(t)
  }

  lemma TearDownValid(t: Tab)
    requires Valid(t)
    ensures Valid(TearDownClient(t))
  {}

  lemma WantClientValid(t: Tab, w: World)
    requires Valid(t) && !t.health.hadError
    ensures Valid(WantClient(t, w))
  {}

  lemma ShowStoppedValid(t: Tab, w: World)
    requires Valid(t) && !t.health.hadError && w.vm.Some?
    ensures Valid(ShowStopped(t, w))
  {}

  lemma UpdateKnownValid(t: Tab, w: World)
    requires Valid(t) && w.vm.Some?
    ensures Valid(UpdateKnown(t, w))
  {
    if IsRunning(w) || t.start.pending {
      if t.health.hadError {
        TearDownValid(t);
      } else {
        WantClientValid(t, w);
      }
    } else {
      ShowStoppedValid(if t.health.hadError then ClearError(t) else t, w);
    }
  }

  lemma UpdateValid(t: Tab, w: World)
    requires Valid(t)
    ensures Valid(UpdatePlaceholderAndClient(t, w))
  {
    if w.vm.None? {
      TearDownValid(t);
    } else {
      UpdateKnownValid(AgePending(t, w), w);
    }
  }

  lemma DropSessionValid(t: Tab, w: World, src: nat, delay: nat)
    requires Valid(t)
    ensures Valid(ScheduleReconnect(DropSession(t, w, src), w, delay))
  {}

  /** With no reason left to keep a client, the update drops the one there is. */
  lemma UnwantedClientIsDropped(t: Tab, w: World)
    requires !IsRunning(w) && !t.start.pending
    ensures UpdatePlaceholderAndClient(t, w) == UpdatePlaceholderAndClient(TearDownClient(t), w)
    ensures UpdatePlaceholderAndClient(t, w).child.client.None?
  {}

  lemma DisconnectedValid(t: Tab, w: World, src: nat, fatal: bool)
    requires Valid(t)
    ensures Valid(OnDisconnected(t, w, src, fatal))
  {
    var t' := DropSession(t, w, src);
    DropSessionValid(t, w, src, 0);
    if IsRunning(w) {
      DropSessionValid(t, w, src, ReconnectDelay(t'));
    } else if t.start.pending {
      DropSessionValid(t, w, src, BASIC_RECONNECT_DELAY);
    } else {
      UnwantedClientIsDropped(t', w);
      UpdateValid(TearDownClient(t'), w);
    }
  }

  lemma ConnectedValid(t: Tab, w: World, src: nat, enhanced: bool)
    requires Valid(t)
    ensures Valid(OnConnected(t, w, src, enhanced))
  {
    var t' := BeginSession(t, src, enhanced);
    UpdateValid(t', w);
    ConnectedGate(t', w);
    hide UpdatePlaceholderAndClient;
  }

  /** After the update of OnConnected a client that is still there belongs to a connected tab. */
  lemma ConnectedGate(t: Tab, w: World)
    requires t.gate.connected
    ensures var t' := UpdatePlaceholderAndClient(t, w); t'.child.client.Some? ==> t'.gate.connected
  {}

  /** Whatever the VM does, a firing timer tears down and updates. */
  lemma ReconnectTimerValid(t: Tab, w: World)
    requires Valid(t)
    ensures Valid(OnReconnectTimer(t, w))
  {
    var t' := t.(timers := t.timers.(reconnectAt := None));
    if t.timers.reconnectAt.Some? {
      if !IsRunning(w) && !t.start.pending { UnwantedClientIsDropped(t', w); }
      UpdateValid(TearDownClient(t'), w);
    }
  }

  lemma StepValid(t: Tab, w: World, ev: Event)
    requires Valid(t)
    ensures Valid(Step(t, w, ev))
  {
    hide UpdatePlaceholderAndClient, OnConnected, OnDisconnected, OnReconnectTimer;
    match ev
    case Loaded => UpdateValid(t.(loaded := true), w);
    case Poll => UpdateValid(if UpgradesOnPoll(t, w) then ScheduleReconnect(t, w, UPGRADE_DELAY) else t, w);
    case StartClick => UpdateValid(
      ClearError(t).(start := Start(true, w.now, true, w.now), placeholder := Starting), w);
    case RetryClick => UpdateValid(ClearError(t), w);
    case Reapply => TearDownValid(t); UpdateValid(TearDownClient(t), w);
    case ReconnectFires => ReconnectTimerValid(t, w);
    case Connected(src, enhanced) => ConnectedValid(t, w, src, enhanced);
    case Disconnected(src, fatal) => DisconnectedValid(t, w, src, fatal);
    case _ =>
  }

  lemma {:induction false} RunValid(t: Tab, inputs: seq<Input>)
    requires Valid(t)
    ensures Valid(Run(t, inputs))
    decreases |inputs|
  {
    hide Step, Valid;
    if inputs != [] {
      StepValid(t, inputs[0].world, inputs[0].event);
      RunValid(Step(t, inputs[0].world, inputs[0].event), inputs[1..]);
    }
  }

  // ---- runs whose events come from the live child ----------------------------

  /** A child raises events only while it is the client, was launched and has not reported
      its disconnect (errors may still follow); ShutdownClient ends a run. */
  predicate Delivered(t: Tab, ev: Event) {
    match ev
    case Connected(src, _) => FromLiveChild(t.child, src)
    case EnhancedReady(src, _) => FromLiveChild(t.child, src)
    case Resized(src, _) => FromLiveChild(t.child, src)
    case Disconnected(src, _) => FromLiveChild(t.child, src)
    case Failed(src) => t.child.client.Some? && t.child.client.value.id == src
    case Shutdown => false
    case _ => true
  }

  predicate FromLiveChild(c: Child, src: nat) {
    c.client.Some? && c.client.value.id == src && c.client.value.launched && c.client.value.droppedAt.None?
  }

  /** A run on a steady clock that starts at or after `now`. */
  predicate LiveRun(t: Tab, now: nat, inputs: seq<Input>)
    decreases |inputs|
  {
    inputs != [] ==>
      && now <= inputs[0].world.now
      && Delivered(t, inputs[0].event)
      && LiveRun(Step(t, inputs[0].world, inputs[0].event), inputs[0].world.now, inputs[1..])
  }

  /** m_connected says exactly that the current child's session is up. */
  predicate Truthful(p: Popup) {
    p.gate.connected <==> p.child.client.Some? && p.child.client.value.up
  }

  /** No show is lost: a wanted, connected, unsuppressed popup is up or will be at layout. */
  predicate Complete(p: Popup) {
    p.child.client.Some? && p.gate.wantsVisible && p.gate.connected && !p.gate.suppressed ==>
      p.child.client.value.shown || p.gate.deferredShow
  }

  /** A dropped child is retried no later than 2 s after its drop was handled. */
  predicate PromptRetry(t: Tab) {
    t.child.client.Some? && t.child.client.value.droppedAt.Some? ==>
      && !t.child.client.value.up
      && t.timers.reconnectAt.Some?
      && t.timers.reconnectAt.value <= t.child.client.value.droppedAt.value + ENHANCED_RECONNECT_DELAY
  }

  /** An enhanced attempt still under way was started after the last cooldown ended. */
  predicate BackedOff(t: Tab, now: nat) {
    t.child.client.Some? ==>
      && t.child.client.value.spawnedAt <= now
      && (t.enhanced.wanted && t.child.client.value.droppedAt.None? ==>
            t.enhanced.cooldownUntil <= t.child.client.value.spawnedAt)
  }

  predicate Live(t: Tab, now: nat) {
    Truthful(PopupOf(t)) && Complete(PopupOf(t)) && PromptRetry(t) && BackedOff(t, now)
  }

  lemma WantClientLive(t: Tab, w: World)
    requires Live(t, w.now)
    ensures Live(WantClient(t, w), w.now)
  {}

  lemma UpdateLive(t: Tab, w: World)
    requires Live(t, w.now)
    ensures Live(UpdatePlaceholderAndClient(t, w), w.now)
    ensures UpdatePlaceholderAndClient(t, w).enhanced.cooldownUntil == t.enhanced.cooldownUntil
  {
    var t' := AgePending(t, w);
    if w.vm.Some? && (IsRunning(w) || t'.start.pending) && !t'.health.hadError {
      WantClientLive(t', w);
    } else {
      UnwantedIsTornDown(t, w);
    }
  }

  /** Every branch of the update but the wanting one leaves what TearDownClient leaves. */
  lemma UnwantedIsTornDown(t: Tab, w: World)
    requires w.vm.None? || AgePending(t, w).health.hadError || !(IsRunning(w) || AgePending(t, w).start.pending)
    ensures var t' := UpdatePlaceholderAndClient(t, w);
            && t'.child == TearDownClient(t).child && t'.gate == TearDownClient(t).gate
            && t'.timers == TearDownClient(t).timers && t'.enhanced == t.enhanced
  {}

  /** While it is wanted, the update leaves the client of an error-free tab alone. */
  lemma WantedIsKept(t: Tab, w: World)
    requires t.child.client.Some? && !t.health.hadError
    requires w.vm.Some? && (IsRunning(w) || AgePending(t, w).start.pending)
    ensures var t' := UpdatePlaceholderAndClient(t, w);
            && t'.child == t.child && t'.gate == t.gate && t'.timers == t.timers && t'.enhanced == t.enhanced
  {}

  /** Where there was no client, the update of a wanted tab leaves the gate alone, and the
      child it may start has no session. */
  lemma SpawnedStaysConnected(t: Tab, w: World)
    requires t.child.client.None? && !t.health.hadError
    requires w.vm.Some? && (IsRunning(w) || AgePending(t, w).start.pending)
    ensures var t' := UpdatePlaceholderAndClient(t, w);
            t'.gate == t.gate && (t'.child.client.Some? ==> !t'.child.client.value.up)
  {}

  lemma ConnectedLive(t: Tab, w: World, src: nat, enhanced: bool)
    requires Live(t, w.now) && FromLiveChild(t.child, src)
    ensures Live(OnConnected(t, w, src, enhanced), w.now)
    ensures OnConnected(t, w, src, enhanced).enhanced.cooldownUntil == t.enhanced.cooldownUntil
  {
    var t' := BeginSession(t, src, enhanced);
    if w.vm.Some? && (IsRunning(w) || AgePending(t', w).start.pending) {
      WantedIsKept(t', w);
    } else {
      UnwantedIsTornDown(t', w);
    }
    hide UpdatePlaceholderAndClient;
  }

  lemma DisconnectedLive(t: Tab, w: World, src: nat, fatal: bool)
    requires Live(t, w.now) && FromLiveChild(t.child, src)
    ensures Live(OnDisconnected(t, w, src, fatal), w.now)
    ensures OnDisconnected(t, w, src, fatal).enhanced.cooldownUntil
         == if EarlyEnhancedDrop(t) then w.now + ENHANCED_COOLDOWN else t.enhanced.cooldownUntil
  {
    var t' := DropSession(t, w, src);
    if !IsRunning(w) && !t.start.pending {
      UnwantedClientIsDropped(t', w);
      UnwantedIsTornDown(t', w);
    }
  }

  lemma ReconnectTimerLive(t: Tab, w: World)
    requires Live(t, w.now)
    ensures Live(OnReconnectTimer(t, w), w.now)
    ensures OnReconnectTimer(t, w).enhanced.cooldownUntil == t.enhanced.cooldownUntil
  {
    var t' := t.(timers := t.timers.(reconnectAt := None));
    if t.timers.reconnectAt.Some? {
      if !IsRunning(w) && !t.start.pending { UnwantedClientIsDropped(t', w); }
      UpdateLive(TearDownClient(t'), w);
    }
  }

  /** The events whose handlers run no update. */
  predicate Quiet(ev: Event) {
    ev.SizeChanged? || ev.Show? || ev.Hide? || ev.Suppress? || ev.SetHwnd? || ev.FitFires?
    || ev.EnhancedReady? || ev.Resized? || ev.Failed? || ev.Shutdown?
  }

  lemma QuietLive(t: Tab, w: World, ev: Event)
    requires Live(t, w.now) && Delivered(t, ev) && Quiet(ev)
    ensures Live(Step(t, w, ev), w.now)
    ensures Step(t, w, ev).enhanced.cooldownUntil == t.enhanced.cooldownUntil
  {}

  lemma StepLive(t: Tab, now: nat, w: World, ev: Event)
    requires Live(t, now) && now <= w.now && Delivered(t, ev)
    ensures Live(Step(t, w, ev), w.now)
    ensures Step(t, w, ev).enhanced.cooldownUntil
         == if ev.Disconnected? && EarlyEnhancedDrop(t) then w.now + ENHANCED_COOLDOWN
            else t.enhanced.cooldownUntil
  {
    hide UpdatePlaceholderAndClient, OnConnected, OnDisconnected, OnReconnectTimer, ShowConnectError;
    match ev
    case Loaded => UpdateLive(t.(loaded := true), w);
    case Poll => UpdateLive(if UpgradesOnPoll(t, w) then ScheduleReconnect(t, w, UPGRADE_DELAY) else t, w);
    case StartClick => UpdateLive(
      ClearError(t).(start := Start(true, w.now, true, w.now), placeholder := Starting), w);
    case RetryClick => UpdateLive(ClearError(t), w);
    case Reapply => UpdateLive(TearDownClient(t), w);
    case ReconnectFires => ReconnectTimerLive(t, w);
    case Connected(src, enhanced) => ConnectedLive(t, w, src, enhanced);
    case Disconnected(src, fatal) => DisconnectedLive(t, w, src, fatal);
    case _ => QuietLive(t, w, ev);
  }

  function EndTime(now: nat, inputs: seq<Input>): nat {
    if inputs == [] then now else inputs[|inputs| - 1].world.now
  }

  lemma {:induction false} LiveRunStaysLive(t: Tab, now: nat, inputs: seq<Input>)
    requires Live(t, now) && LiveRun(t, now, inputs)
    ensures Live(Run(t, inputs), EndTime(now, inputs))
    decreases |inputs|
  {
    if inputs != [] {
      StepLive(t, now, inputs[0].world, inputs[0].event);
      hide Step, Live;
      LiveRunStaysLive(Step(t, inputs[0].world, inputs[0].event), inputs[0].world.now, inputs[1..]);
    }
  }

  // ---- enhanced back-off -----------------------------------------------------

  /** The tab before input `k`. */
  function At(t: Tab, inputs: seq<Input>, k: nat): Tab
    requires k <= |inputs|
  {
    Run(t, inputs[..k])
  }

  /** Input `k` reports an enhanced attempt that died before its login completed. */
  predicate DropsEnhanced(t: Tab, inputs: seq<Input>, k: nat)
    requires k < |inputs|
  {
    inputs[k].event.Disconnected? && EarlyEnhancedDrop(At(t, inputs, k))
  }

  lemma AtTail(t: Tab, inputs: seq<Input>, k: nat)
    requires 0 < k <= |inputs|
    ensures At(t, inputs, k) == At(Step(t, inputs[0].world, inputs[0].event), inputs[1..], k - 1)
  {
    assert inputs[..k][1..] == inputs[1..][..k - 1];
  }

  /** While a cooldown runs, no enhanced attempt can fail before it ends. */
  lemma {:induction false} DropsWaitForCooldown(t: Tab, now: nat, inputs: seq<Input>, until: nat, k: nat)
    requires Live(t, now) && LiveRun(t, now, inputs) && until <= t.enhanced.cooldownUntil
    requires k < |inputs| && DropsEnhanced(t, inputs, k)
    ensures until <= inputs[k].world.now
    decreases k
  {
    var t' := Step(t, inputs[0].world, inputs[0].event);
    StepLive(t, now, inputs[0].world, inputs[0].event);
    hide Step;
    if k > 0 {
      AtTail(t, inputs, k);
      DropsWaitForCooldown(t', inputs[0].world.now, inputs[1..], until, k - 1);
    }
  }

  lemma FirstDropStartsCooldown(t: Tab, now: nat, inputs: seq<Input>)
    requires Live(t, now) && LiveRun(t, now, inputs)
    requires inputs != [] && DropsEnhanced(t, inputs, 0)
    ensures Step(t, inputs[0].world, inputs[0].event).enhanced.cooldownUntil
         == inputs[0].world.now + ENHANCED_COOLDOWN
  {
    StepLive(t, now, inputs[0].world, inputs[0].event);
    hide Step, Live;
    assert At(t, inputs, 0) == t;
  }

  /** Two enhanced attempts that fail early are at least 20 s apart. */
  lemma {:induction false} EnhancedBackOff(t: Tab, now: nat, inputs: seq<Input>, i: nat, j: nat)
    requires Live(t, now) && LiveRun(t, now, inputs)
    requires i < j < |inputs| && DropsEnhanced(t, inputs, i) && DropsEnhanced(t, inputs, j)
    ensures inputs[i].world.now + ENHANCED_COOLDOWN <= inputs[j].world.now
    decreases i
  {
    hide Step, Live, EarlyEnhancedDrop, Delivered;
    var t' := Step(t, inputs[0].world, inputs[0].event);
    StepLive(t, now, inputs[0].world, inputs[0].event);
    AtTail(t, inputs, j);
    if i == 0 {
      FirstDropStartsCooldown(t, now, inputs);
      DropsWaitForCooldown(t', inputs[0].world.now, inputs[1..], inputs[0].world.now + ENHANCED_COOLDOWN, j - 1);
    } else {
      AtTail(t, inputs, i);
      EnhancedBackOff(t', inputs[0].world.now, inputs[1..], i - 1, j - 1);
    }
  }

  /** The update touches neither the back-off nor, but for clearing a stale error, the count. */
  lemma UpdateFrame(t: Tab, w: World)
    ensures var t' := UpdatePlaceholderAndClient(t, w);
            && t'.enhanced.ever == t.enhanced.ever
            && t'.enhanced.cooldownUntil == t.enhanced.cooldownUntil
            && t'.health == if t.health.hadError && w.vm.Some? && !IsRunning(w) && !AgePending(t, w).start.pending
                            then t.health.(hadError := false, failures := 0) else t.health
  {}

  lemma DisconnectedFrame(t: Tab, w: World, src: nat, fatal: bool)
    ensures var t' := OnDisconnected(t, w, src, fatal);
            && t'.enhanced.ever == t.enhanced.ever
            && (t.enhanced.ever ==> t'.enhanced.cooldownUntil == t.enhanced.cooldownUntil)
            && (IsRunning(w) ==>
                  && t'.health.failures == TallyFailure(t.health, t.gate.connected, fatal).failures
                  && t'.health.hadError == (t.health.hadError ||
                                            (CountsAsFailure(t, w, fatal) && t.health.failures + 1 >= MAX_CONNECT_FAILURES)))
            && (!IsRunning(w) ==>
                  t'.health == if t.health.hadError && w.vm.Some? && !t.start.pending
                  then t.health.(hadError := false, failures := 0) else t.health)
  {
    if !IsRunning(w) && !t.start.pending {
      UpdateFrame(DropSession(t, w, src), w);
    }
  }

  /** An rdphost error, or the fourth counted failure. */
  predicate LatchesNow(t: Tab, w: World, ev: Event) {
    || ev.Failed?
    || (ev.Disconnected? && CountsAsFailure(t, w, ev.fatal) && t.health.failures + 1 >= MAX_CONNECT_FAILURES)
  }

  /** The quiet events neither spawn a child nor arm the timer. */
  lemma QuietStep(t: Tab, w: World, ev: Event)
    requires Quiet(ev)
    ensures var t' := Step(t, w, ev);
            && t'.child.spawned == t.child.spawned && t'.timers.reconnectAt == t.timers.reconnectAt
            && t'.health == (if ev.Failed? then t.health.(hadError := true) else t.health)
            && (!ev.Failed? && !ev.Shutdown? ==> t'.child.client.Some? == t.child.client.Some?)
            && t'.enhanced.cooldownUntil == t.enhanced.cooldownUntil && (t.enhanced.ever ==> t'.enhanced.ever)
  {}

  /** What an event does to the back-off and to the failure count. */
  predicate Tallied(t: Tab, w: World, ev: Event, t': Tab) {
    && (t.enhanced.ever ==> t'.enhanced.ever && t'.enhanced.cooldownUntil == t.enhanced.cooldownUntil)
    && t'.health.failures
       == (if Resets(t, w, ev) then 0
           else if ev.Disconnected? && CountsAsFailure(t, w, ev.fatal) then t.health.failures + 1
           else t.health.failures)
    && (t'.health.hadError ==> t.health.hadError || LatchesNow(t, w, ev))
    && (LatchesNow(t, w, ev) ==> t'.health.hadError)
  }

  lemma DisconnectedTallied(t: Tab, w: World, src: nat, fatal: bool)
    ensures Tallied(t, w, Disconnected(src, fatal), OnDisconnected(t, w, src, fatal))
  {
    DisconnectedFrame(t, w, src, fatal);
    hide OnDisconnected;
  }

  lemma UpdateTallied(t: Tab, t0: Tab, w: World, ev: Event)
    requires Updates(t, w, ev) && !ev.Disconnected?
    requires t0.health == t.health && t0.start == t.start
    requires t0.enhanced.ever == t.enhanced.ever && t0.enhanced.cooldownUntil == t.enhanced.cooldownUntil
    ensures Tallied(t, w, ev, UpdatePlaceholderAndClient(t0, w))
  {
    UpdateFrame(t0, w);
    hide UpdatePlaceholderAndClient;
  }

  /** The update on a later timer, a poll, or a change of settings. */
  lemma UpdatingFrame(t: Tab, w: World, ev: Event)
    requires ev.Loaded? || ev.Poll? || ev.Reapply? || ev.ReconnectFires?
    ensures Tallied(t, w, ev, Step(t, w, ev))
  {
    hide UpdatePlaceholderAndClient, Resolve, TearDown, WantEnhanced;
    if Updates(t, w, ev) {
      match ev
      case Loaded => UpdateTallied(t, t.(loaded := true), w, ev);
      case Poll =>
        UpdateTallied(t, if UpgradesOnPoll(t, w) then ScheduleReconnect(t, w, UPGRADE_DELAY) else t, w, ev);
      case Reapply => UpdateTallied(t, TearDownClient(t), w, ev);
      case ReconnectFires =>
        var t' := t.(timers := t.timers.(reconnectAt := None));
        UpdateTallied(t, if !IsRunning(w) && !t.start.pending then t' else TearDownClient(t'), w, ev);
      case _ =>
    }
  }

  lemma StepFrame(t: Tab, w: World, ev: Event)
    ensures Tallied(t, w, ev, Step(t, w, ev))
  {
    hide UpdatePlaceholderAndClient, OnLoaded, OnPoll, OnDisconnected, OnReconnectTimer, ReapplyConnectionSettings,
      ShowConnectError, MarkUp;
    match ev
    case Loaded => UpdatingFrame(t, w, ev);
    case Poll => UpdatingFrame(t, w, ev);
    case Reapply => UpdatingFrame(t, w, ev);
    case ReconnectFires => UpdatingFrame(t, w, ev);
    case StartClick => UpdateFrame(
      ClearError(t).(start := Start(true, w.now, true, w.now), placeholder := Starting), w);
    case RetryClick => UpdateFrame(ClearError(t), w);
    case Connected(src, enhanced) => UpdateFrame(BeginSession(t, src, enhanced), w);
    case Disconnected(src, fatal) => DisconnectedTallied(t, w, src, fatal);
    case _ => QuietStep(t, w, ev);
  }

  /** Once a tab had an enhanced session its cooldown deadline never moves again. */
  lemma {:induction false} EverEnhancedFreezesCooldown(t: Tab, inputs: seq<Input>)
    requires t.enhanced.ever
    ensures Run(t, inputs).enhanced.ever
    ensures Run(t, inputs).enhanced.cooldownUntil == t.enhanced.cooldownUntil
    decreases |inputs|
  {
    if inputs != [] {
      StepFrame(t, inputs[0].world, inputs[0].event);
      EverEnhancedFreezesCooldown(Step(t, inputs[0].world, inputs[0].event), inputs[1..]);
    }
  }

  // ---- failure escalation ----------------------------------------------------

  /** The events, other than a click or a session, that bring the page in line with the VM. */
  predicate Updates(t: Tab, w: World, ev: Event) {
    || ev.Poll?
    || (ev.Loaded? && !t.loaded)
    || (ev.ReconnectFires? && t.timers.reconnectAt.Some?)
    || (ev.Disconnected? && !IsRunning(w) && !t.start.pending)
    || (ev.Reapply? && t.child.client.Some?)
  }

  /** The VM is known to be down, and no start the user asked for is still awaited. */
  predicate KnownDown(t: Tab, w: World) {
    && w.vm.Some? && !IsRunning(w)
    && (t.start.pending ==> w.now > t.start.pendingAt + PENDING_CONNECT_TIMEOUT)
  }

  /** What starts the failure count over: a session, a user click, a disconnect of a tab
      that has connected before, or an update that takes down a latched error because the
      VM is known to be down. */
  predicate Resets(t: Tab, w: World, ev: Event) {
    || ev.Connected? || ev.StartClick? || ev.RetryClick?
    || (ev.Disconnected? && IsRunning(w) && (t.gate.connected || t.health.everConnected))
    || (Updates(t, w, ev) && t.health.hadError && KnownDown(t, w))
  }

  /** Fatal, never-connected disconnects on a Running VM since the last reset. */
  function Tally(t: Tab, inputs: seq<Input>, sofar: nat): nat
    decreases |inputs|
  {
    if inputs == [] then sofar
    else
      var w, ev := inputs[0].world, inputs[0].event;
      var sofar' := if Resets(t, w, ev) then 0
                    else if ev.Disconnected? && CountsAsFailure(t, w, ev.fatal) then sofar + 1
                    else sofar;
      Tally(Step(t, w, ev), inputs[1..], sofar')
  }

  lemma {:induction false} FailuresAreTallied(t: Tab, inputs: seq<Input>)
    ensures Run(t, inputs).health.failures == Tally(t, inputs, t.health.failures)
    decreases |inputs|
  {
    if inputs != [] {
      StepFrame(t, inputs[0].world, inputs[0].event);
      FailuresAreTallied(Step(t, inputs[0].world, inputs[0].event), inputs[1..]);
    }
  }

  /** The error view latches exactly on an rdphost error or on the fourth counted failure;
      a tab that has ever connected never latches on a disconnect. */
  lemma LatchesExactly(t: Tab, w: World, ev: Event)
    requires Valid(t) && !t.health.hadError
    ensures Step(t, w, ev).health.hadError <==>
            || ev.Failed?
            || (ev.Disconnected? && ev.fatal && IsRunning(w) && !t.health.everConnected
                && t.health.failures == MAX_CONNECT_FAILURES - 1)
  {
    StepFrame(t, w, ev);
  }

  /** A VM that runs throughout, whose every disconnect is fatal, and a user who does nothing. */
  predicate Hopeless(i: Input) {
    && IsRunning(i.world)
    && !(i.event.Connected? || i.event.StartClick? || i.event.RetryClick? || i.event.Reapply? || i.event.Shutdown?)
    && (i.event.Disconnected? ==> i.event.fatal)
  }

  function Count<T>(o: Option<T>): nat {
    if o.Some? then 1 else 0
  }

  /** Every child but the present one, and every retry under way, is paid for by a failure. */
  predicate PaidFor(t: Tab) {
    && Valid(t) && !t.health.everConnected
    && t.child.spawned <= MAX_CONNECT_FAILURES
    && (!t.health.hadError ==>
          t.child.spawned + Count(t.timers.reconnectAt) <= t.health.failures + Count(t.child.client))
  }

  lemma UpdatePaidFor(t: Tab, w: World)
    requires IsRunning(w) && PaidFor(t)
    ensures PaidFor(UpdatePlaceholderAndClient(t, w))
  {
    UpdateValid(t, w);
  }

  lemma DisconnectedPaidFor(t: Tab, w: World, src: nat)
    requires IsRunning(w) && PaidFor(t)
    ensures PaidFor(OnDisconnected(t, w, src, true))
  {
    DisconnectedValid(t, w, src, true);
    var t' := DropSession(t, w, src);
    assert t'.child.spawned == t.child.spawned && Count(t'.child.client) == Count(t.child.client);
  }

  lemma StepPaidFor(t: Tab, i: Input)
    requires Hopeless(i) && PaidFor(t)
    ensures PaidFor(Step(t, i.world, i.event))
  {
    var w := i.world;
    StepValid(t, w, i.event);
    hide UpdatePlaceholderAndClient, OnConnected, OnDisconnected;
    match i.event
    case Loaded => UpdatePaidFor(t.(loaded := true), w);
    case Poll => UpdatePaidFor(t, w);
    case ReconnectFires =>
      if t.timers.reconnectAt.Some? {
        UpdatePaidFor(TearDownClient(t.(timers := t.timers.(reconnectAt := None))), w);
      }
    case Disconnected(src, fatal) => DisconnectedPaidFor(t, w, src);
    case _ => QuietStep(t, w, i.event);
  }

  /** An unreachable console is tried four times, then the tab gives up for good. */
  lemma {:induction false} AtMostFourSpawns(t: Tab, inputs: seq<Input>)
    requires PaidFor(t) && forall i | i in inputs :: Hopeless(i)
    ensures Run(t, inputs).child.spawned <= MAX_CONNECT_FAILURES
    decreases |inputs|
  {
    if inputs != [] {
      StepPaidFor(t, inputs[0]);
      AtMostFourSpawns(Step(t, inputs[0].world, inputs[0].event), inputs[1..]);
    }
  }

  // ---- level-triggered client control ----------------------------------------

  /** A client is wanted: the VM runs, or a start is pending for no more than 25 s. */
  predicate Wanted(t: Tab, w: World) {
    && w.vm.Some?
    && (IsRunning(w) || (t.start.pending && w.now <= t.start.pendingAt + PENDING_CONNECT_TIMEOUT))
  }

  /** No error is latched and, if there is no client, the window and the executable are there. */
  predicate GetsClient(t: Tab, w: World) {
    Wanted(t, w) && !t.health.hadError && (t.child.client.Some? || CanSpawn(t.child, w))
  }

  /** After an update a client exists exactly when it is wanted and can be had; it is never
      respawned. */
  lemma UpdateIsLevelTriggered(t: Tab, w: World)
    ensures var t' := UpdatePlaceholderAndClient(t, w);
            && (t'.child.client.Some? <==> GetsClient(t, w))
            && (t'.child.client.Some? && t.child.client.Some? ==> t'.child.client == t.child.client)
            && t'.child.spawned == t.child.spawned
                                   + (if t.child.client.None? && t'.child.client.Some? then 1 else 0)
            && (t'.health.hadError <==> t.health.hadError && (w.vm.None? || Wanted(t, w)))
  {}

  /** Repeating the update in the same world changes at most the placeholder's text. */
  lemma UpdateIsIdempotent(t: Tab, w: World)
    ensures var t' := UpdatePlaceholderAndClient(t, w);
            UpdatePlaceholderAndClient(t', w) == t'.(placeholder := UpdatePlaceholderAndClient(t', w).placeholder)
  {
    UpdateIsLevelTriggered(t, w);
    hide CanSpawn, TearDown;
  }

  // ---- when a popup comes on screen --------------------------------------------

  predicate OnScreen(p: Popup) {
    p.child.client.Some? && p.child.client.value.shown
  }

  /** Everything a popup needs but its client, a size to cover, and the chance. */
  predicate Ready(g: Gate) {
    g.connected && g.wantsVisible && !g.suppressed
  }

  /** The events that bring a popup on screen, with what each needs. */
  predicate Appears(t: Tab, w: World, ev: Event) {
    match ev
    case Show => t.child.client.Some? && t.gate.connected && !t.gate.suppressed && w.border
    case Suppress(on) => !on && t.child.client.Some? && t.gate.connected && t.gate.wantsVisible && w.border
    case SizeChanged => t.child.client.Some? && Ready(t.gate) && t.gate.deferredShow
    case Loaded => !t.loaded && GetsClient(t, w) && Ready(t.gate) && t.gate.deferredShow
    case Connected(src, enhanced) =>
      GetsClient(BeginSession(t, src, enhanced), w) && t.gate.wantsVisible && !t.gate.suppressed
    case _ => false
  }

  lemma UpdateRaisesNone(t: Tab, w: World)
    ensures var t' := UpdatePlaceholderAndClient(t, w);
            && (OnScreen(PopupOf(t')) ==> OnScreen(PopupOf(t)))
            && (t'.child.client.Some? ==> t'.gate == t.gate)
  {}

  lemma DisconnectedRaisesNone(t: Tab, w: World, src: nat, fatal: bool)
    ensures !OnScreen(PopupOf(OnDisconnected(t, w, src, fatal)))
  {
    UpdateRaisesNone(DropSession(t, w, src), w);
    hide UpdatePlaceholderAndClient;
  }

  /** A popup that is not on screen comes up with an event exactly under the event's condition. */
  lemma AppearsExactly(t: Tab, w: World, ev: Event)
    requires !OnScreen(PopupOf(t))
    ensures OnScreen(PopupOf(Step(t, w, ev))) <==> Appears(t, w, ev)
  {
    hide UpdatePlaceholderAndClient, OnDisconnected;
    match ev
    case Loaded =>
      UpdateIsLevelTriggered(t.(loaded := true), w);
      UpdateRaisesNone(t.(loaded := true), w);
    case Poll => UpdateRaisesNone(if UpgradesOnPoll(t, w) then ScheduleReconnect(t, w, UPGRADE_DELAY) else t, w);
    case StartClick => UpdateRaisesNone(
      ClearError(t).(start := Start(true, w.now, true, w.now), placeholder := Starting), w);
    case RetryClick => UpdateRaisesNone(ClearError(t), w);
    case Reapply => UpdateRaisesNone(TearDownClient(t), w);
    case ReconnectFires =>
      var t' := t.(timers := t.timers.(reconnectAt := None));
      UpdateRaisesNone(if !IsRunning(w) && !t.start.pending then t' else TearDownClient(t'), w);
    case Connected(src, enhanced) =>
      UpdateIsLevelTriggered(BeginSession(t, src, enhanced), w);
      UpdateRaisesNone(BeginSession(t, src, enhanced), w);
    case Disconnected(src, fatal) => DisconnectedRaisesNone(t, w, src, fatal);
    case _ =>
  }

  predicate PollsOf(inputs: seq<Input>, vm: Option<Vm>) {
    forall i | i in inputs :: i.event == Poll && i.world.vm == vm
  }

  /** No poll of this VM will spawn a child any more. */
  predicate Spent(t: Tab, vm: Option<Vm>) {
    t.child.client.Some? || vm.None? || (vm.value.state != Running && !t.start.pending)
  }

  lemma PollSpawns(t: Tab, w: World)
    requires Valid(t)
    ensures var t' := OnPoll(t, w);
            && Valid(t')
            && (Spent(t, w.vm) ==> Spent(t', w.vm) && t'.child.spawned == t.child.spawned)
            && t'.child.spawned <= t.child.spawned + 1
            && (t'.child.spawned > t.child.spawned ==> Spent(t', w.vm))
  {
    var t' := if UpgradesOnPoll(t, w) then ScheduleReconnect(t, w, UPGRADE_DELAY) else t;
    UpdateValid(t', w);
    UpdateIsLevelTriggered(t', w);
  }

  lemma {:induction false} SpentPollsSpawnNothing(t: Tab, inputs: seq<Input>, vm: Option<Vm>)
    requires Valid(t) && PollsOf(inputs, vm) && Spent(t, vm)
    ensures Run(t, inputs).child.spawned == t.child.spawned
    decreases |inputs|
  {
    if inputs != [] {
      PollSpawns(t, inputs[0].world);
      SpentPollsSpawnNothing(Step(t, inputs[0].world, Poll), inputs[1..], vm);
    }
  }

  /** Any number of polls that see the same VM spawn at most one child, whatever the clock,
      the settings and the latches do meanwhile. */
  lemma {:induction false} PollsSpawnAtMostOnce(t: Tab, inputs: seq<Input>, vm: Option<Vm>)
    requires Valid(t) && PollsOf(inputs, vm)
    ensures Run(t, inputs).child.spawned <= t.child.spawned + 1
    decreases |inputs|
  {
    if inputs != [] {
      var t' := Step(t, inputs[0].world, Poll);
      PollSpawns(t, inputs[0].world);
      if t'.child.spawned > t.child.spawned {
        SpentPollsSpawnNothing(t', inputs[1..], vm);
      } else {
        PollsSpawnAtMostOnce(t', inputs[1..], vm);
      }
    }
  }

  // ---- the reconnect timer ---------------------------------------------------

  /** A firing timer never leaves the client it found: it replaces it or removes it, and it
      is not armed afterwards. */
  lemma FiringTimerRetiresClient(t: Tab, w: World)
    requires Valid(t) && t.timers.reconnectAt.Some?
    ensures var t' := OnReconnectTimer(t, w);
            && t'.timers.reconnectAt.None?
            && (t'.child.client.Some? ==> t'.child.client.value.id == t.child.spawned)
            && (t'.child.client.Some? <==> Wanted(t, w) && !t.health.hadError
                                           && t.child.window != 0 && w.exePresent)
  {
    var t' := t.(timers := t.timers.(reconnectAt := None));
    if !IsRunning(w) && !t.start.pending { UnwantedClientIsDropped(t', w); }
    UpdateIsLevelTriggered(TearDownClient(t'), w);
  }

  /** ShutdownClient leaves the timer alone, so a closed tab spawns one more child when its
      timer fires, exactly under the condition a caller can check before it fires. */
  lemma ClosedTabSpawnsAgain(t: Tab, w: World)
    requires Valid(t)
    ensures var closed := ShutdownClient(t);
            Step(closed, w, ReconnectFires).child.spawned > t.child.spawned <==>
            && t.timers.reconnectAt.Some? && Wanted(t, w) && !t.health.hadError
            && t.child.window != 0 && w.exePresent
  {
    var closed := ShutdownClient(t);
    if closed.timers.reconnectAt.Some? {
      FiringTimerRetiresClient(closed, w);
      var t' := closed.(timers := closed.timers.(reconnectAt := None));
      if !IsRunning(w) && !closed.start.pending { UnwantedClientIsDropped(t', w); }
      UpdateIsLevelTriggered(TearDownClient(t'), w);
    }
  }

  /** A Connected event is queued with no trace of the child that raised it. Delivered after
      that child was replaced, it marks the new child's tab connected: m_connected stays
      truthful exactly when the event is the current client's, the client was already up, or
      the update that follows drops the client. */
  lemma StaleConnectedIsBelieved(t: Tab, w: World, src: nat, enhanced: bool)
    requires Valid(t) && Truthful(PopupOf(t))
    ensures Truthful(PopupOf(OnConnected(t, w, src, enhanced))) <==>
            && t.child.client.Some?
            && (t.child.client.value.id == src || t.child.client.value.up || !Wanted(t, w))
  {
    var t' := BeginSession(t, src, enhanced);
    UpdateIsLevelTriggered(t', w);
    if !Wanted(t, w) {
      UnwantedIsTornDown(t', w);
    } else if t.child.client.Some? {
      WantedIsKept(t', w);
    } else {
      SpawnedStaysConnected(t', w);
    }
    hide UpdatePlaceholderAndClient;
  }

  /** The state a page starts in. */
  lemma InitialHolds(now: nat)
    ensures Valid(Initial()) && Live(Initial(), now) && PaidFor(Initial())
  {}
}
