/** One VM tab field by field: what every event does to each of them.

    The source, and `VmTab`, are organised by handler. Here each law is about one field over
    all events, and says in terms of the tab before the event exactly what the field is after
    it. Together they leave nothing of a step open. */
module VmTabFields {
  import opened Wrappers
  import opened VmTab
  import Runs = VmTabRuns

  // ---- what the update sees --------------------------------------------------

  /** The events that end in an update of placeholder and client. */
  predicate Updates(t: Tab, w: World, ev: Event) {
    || ev.Poll? || ev.StartClick? || ev.RetryClick? || ev.Connected?
    || (ev.Loaded? && !t.loaded)
    || (ev.Reapply? && t.child.client.Some?)
    || (ev.ReconnectFires? && t.timers.reconnectAt.Some?)
    || (ev.Disconnected? && !Running(w) && !t.start.pending)
  }

  predicate Running(w: World) {
    w.vm.Some? && w.vm.value.state.Running?
  }

  /** A start clicked no more than 25 s ago has not brought the VM up yet. */
  predicate AwaitsStart(t: Tab, w: World, ev: Event) {
    !Running(w) && (ev.StartClick? || (t.start.pending && w.now <= t.start.pendingAt + 25000))
  }

  predicate Wanted(t: Tab, w: World, ev: Event) {
    w.vm.Some? && (Running(w) || AwaitsStart(t, w, ev))
  }

  /** A latched error that the event itself does not clear. */
  predicate StillFailed(t: Tab, ev: Event) {
    t.health.hadError && !ev.StartClick? && !ev.RetryClick? && !ev.Connected?
  }

  /** The child outlives the event's own part: settings are not re-applied, and no due
      reconnect replaces it. */
  predicate HasClient(t: Tab, w: World, ev: Event) {
    && t.child.client.Some? && !ev.Reapply?
    && (ev.ReconnectFires? ==> !Running(w) && !t.start.pending)
  }

  /** The event starts a child. */
  predicate Spawns(t: Tab, w: World, ev: Event) {
    && Updates(t, w, ev) && Wanted(t, w, ev) && !StillFailed(t, ev)
    && !HasClient(t, w, ev) && t.child.window != 0 && w.exePresent
  }

  /** An rdphost error, or the fourth fatal disconnect in a row of a tab that never connected. */
  predicate Latches(t: Tab, w: World, ev: Event) {
    || ev.Failed?
    || (ev.Disconnected? && ev.fatal && Running(w) && !t.gate.connected && !t.health.everConnected
        && t.health.failures >= 3)
  }

  /** The event lets the child go, other than by closing the tab. */
  predicate LetsGo(t: Tab, w: World, ev: Event) {
    && t.child.client.Some?
    && (Latches(t, w, ev)
        || (Updates(t, w, ev) && !(HasClient(t, w, ev) && Wanted(t, w, ev) && !StillFailed(t, ev))))
  }

  /** The tab the handler of an updating event hands to the update. */
  function Prepared(t: Tab, w: World, ev: Event): Tab {
    match ev
    case Loaded => t.(loaded := true)
    case Poll => if UpgradesOnPoll(t, w) then ScheduleReconnect(t, w, UPGRADE_DELAY) else t
    case StartClick => ClearError(t).(start := Start(true, w.now, true, w.now), placeholder := Starting)
    case RetryClick => ClearError(t)
    case Reapply => TearDownClient(t)
    case ReconnectFires =>
      var t' := t.(timers := t.timers.(reconnectAt := None));
      if !IsRunning(w) && !t.start.pending then t' else TearDownClient(t')
    case Connected(src, enhanced) => BeginSession(t, src, enhanced)
    case Disconnected(src, _) => DropSession(t, w, src)
    case _ => t
  }

  /** What a handler does after the update. */
  function Finished(t: Tab, ev: Event): Tab {
    if ev.Loaded? then ResolveDeferredShow(t)
    else if ev.Connected? && t.gate.wantsVisible && !t.gate.suppressed then t.(child := SetShown(t.child, true))
    else t
  }

  lemma StepUpdates(t: Tab, w: World, ev: Event)
    requires Updates(t, w, ev)
    ensures Step(t, w, ev) == Finished(UpdatePlaceholderAndClient(Prepared(t, w, ev), w), ev)
  {
    hide UpdatePlaceholderAndClient;
  }

  /** The update's choice for the tab it is handed: a client may be there or be started. */
  predicate Allows(t: Tab, w: World) {
    w.vm.Some? && (IsRunning(w) || AgePending(t, w).start.pending) && !t.health.hadError
  }

  lemma PreparedFacts(t: Tab, w: World, ev: Event)
    requires Updates(t, w, ev)
    ensures var p := Prepared(t, w, ev);
            && p.child.client.Some? == HasClient(t, w, ev)
            && p.health.hadError == StillFailed(t, ev)
            && Allows(p, w) == (Wanted(t, w, ev) && !StillFailed(t, ev))
            && p.child.window == t.child.window && p.child.spawned == t.child.spawned
  {}

  lemma UpdateAllowed(t: Tab, w: World)
    requires Allows(t, w)
    ensures var u, spawns := UpdatePlaceholderAndClient(t, w), t.child.client.None? && CanSpawn(t.child, w);
            && u.child == (if spawns then Spawn(t.child, w) else t.child) && u.gate == t.gate
            && u.timers == (if spawns then StopEnhancedFit(t).timers else t.timers)
            && u.enhanced == (if spawns then t.enhanced.(wanted := WantEnhanced(t, w), ready := false) else t.enhanced)
            && u.health == t.health && u.loaded == t.loaded
  {}

  lemma UpdateDenied(t: Tab, w: World)
    requires !Allows(t, w)
    ensures var u, torn := UpdatePlaceholderAndClient(t, w), TearDownClient(t);
            && u.child == torn.child && u.gate == torn.gate && u.timers == torn.timers && u.enhanced == t.enhanced
            && u.loaded == t.loaded
  {}

  // ---- the child ---------------------------------------------------------------

  /** The child goes or stays, and one is started: exactly when, and with what. */
  predicate ChildLaw(t: Tab, w: World, ev: Event, c: Child) {
    var lost := LetsGo(t, w, ev) || ev.Shutdown?;
    && (c.client.Some? <==> Spawns(t, w, ev) || (t.child.client.Some? && !lost))
    && c.spawned == t.child.spawned + (if Spawns(t, w, ev) then 1 else 0)
    && c.alive == (if lost && t.child.client.Some? then t.child.alive - {t.child.client.value.id} else t.child.alive)
                  + (if Spawns(t, w, ev) then {t.child.spawned} else {})
    && (Spawns(t, w, ev) ==>
          && c.client.value.id == t.child.spawned && c.client.value.owner == t.child.window
          && c.client.value.launched == w.launchOk && c.client.value.spawnedAt == w.now
          && !c.client.value.up && c.client.value.droppedAt.None?)
    && (c.client.Some? && !Spawns(t, w, ev) ==> SameChild(t, w, ev, c.client.value))
  }

  /** The child there was: what its own events leave on it, and who owns its popup. */
  predicate SameChild(t: Tab, w: World, ev: Event, c: Client)
    requires t.child.client.Some?
  {
    var o := t.child.client.value;
    && c.id == o.id && c.launched == o.launched && c.spawnedAt == o.spawnedAt
    && c.up == (if ev.Connected? && ev.src == o.id then true
                else if ev.Disconnected? && ev.src == o.id then false else o.up)
    && c.droppedAt == (if ev.Disconnected? && ev.src == o.id then Some(w.now) else o.droppedAt)
    && c.owner == (if ev.SetHwnd? && ev.hwnd != t.child.window then ev.hwnd else o.owner)
  }

  /** What the handler has done to the child before the update. */
  lemma PreparedChild(t: Tab, w: World, ev: Event)
    requires Updates(t, w, ev)
    ensures var c, had := Prepared(t, w, ev).child, HasClient(t, w, ev);
            && c.client.Some? == had && c.window == t.child.window && c.spawned == t.child.spawned
            && c.alive == (if t.child.client.Some? && !had then t.child.alive - {t.child.client.value.id}
                           else t.child.alive)
            && (had ==> SameChild(t, w, ev, c.client.value))
  {}

  lemma UpdatedChild(t: Tab, w: World, ev: Event)
    requires Updates(t, w, ev)
    ensures ChildLaw(t, w, ev, UpdatePlaceholderAndClient(Prepared(t, w, ev), w).child)
  {
    var p := Prepared(t, w, ev);
    PreparedFacts(t, w, ev);
    PreparedChild(t, w, ev);
    hide UpdatePlaceholderAndClient, Allows, Wanted, Prepared, Updates, HasClient, SameChild, ChildLaw;
    if Allows(p, w) {
      UpdateAllowed(p, w);
      AllowedChild(t, w, ev, p.child);
    } else {
      UpdateDenied(p, w);
      DeniedChild(t, w, ev, p.child);
    }
  }

  /** What is known of the child when the update begins. */
  predicate ChildBefore(t: Tab, w: World, ev: Event, c: Child) {
    var had := HasClient(t, w, ev);
    && c.client.Some? == had && c.window == t.child.window && c.spawned == t.child.spawned
    && c.alive == (if t.child.client.Some? && !had then t.child.alive - {t.child.client.value.id} else t.child.alive)
    && (had ==> SameChild(t, w, ev, c.client.value))
  }

  lemma AllowedChild(t: Tab, w: World, ev: Event, c: Child)
    requires Updates(t, w, ev) && Wanted(t, w, ev) && !StillFailed(t, ev) && ChildBefore(t, w, ev, c)
    ensures ChildLaw(t, w, ev, if c.client.None? && CanSpawn(c, w) then Spawn(c, w) else c)
  {
    NotLatching(t, w, ev);
    hide Wanted, Updates, HasClient, SameChild, Latches;
  }

  lemma NotLatching(t: Tab, w: World, ev: Event)
    requires Updates(t, w, ev)
    ensures !Latches(t, w, ev) && !ev.Shutdown? && !ev.SetHwnd?
  {}

  lemma DeniedChild(t: Tab, w: World, ev: Event, c: Child)
    requires Updates(t, w, ev) && !(Wanted(t, w, ev) && !StillFailed(t, ev)) && ChildBefore(t, w, ev, c)
    ensures ChildLaw(t, w, ev, Release(c))
  {
    NotLatching(t, w, ev);
    hide Wanted, Updates, HasClient, Latches;
  }

  lemma FinishedChild(t: Tab, w: World, ev: Event, u: Tab)
    requires Updates(t, w, ev) && ChildLaw(t, w, ev, u.child) && u.child.window == t.child.window
    ensures ChildLaw(t, w, ev, Finished(u, ev).child) && Finished(u, ev).child.window == t.child.window
  {
    hide Spawns, LetsGo, Updates;
  }

  lemma QuietChild(t: Tab, w: World, ev: Event)
    requires !Updates(t, w, ev)
    ensures ChildLaw(t, w, ev, Step(t, w, ev).child)
    ensures Step(t, w, ev).child.window == (if ev.SetHwnd? then ev.hwnd else t.child.window)
  {
    hide UpdatePlaceholderAndClient;
  }

  /** Over every event: when the child goes, when one is started, how many run. */
  lemma ChildExactly(t: Tab, w: World, ev: Event)
    ensures ChildLaw(t, w, ev, Step(t, w, ev).child)
    ensures Step(t, w, ev).child.window == (if ev.SetHwnd? then ev.hwnd else t.child.window)
  {
    if Updates(t, w, ev) {
      UpdatedWindow(t, w, ev);
      StepUpdates(t, w, ev);
      UpdatedChild(t, w, ev);
      hide UpdatePlaceholderAndClient, Prepared, Finished, ChildLaw, Step;
      FinishedChild(t, w, ev, UpdatePlaceholderAndClient(Prepared(t, w, ev), w));
    } else {
      QuietChild(t, w, ev);
    }
  }

  lemma UpdatedWindow(t: Tab, w: World, ev: Event)
    requires Updates(t, w, ev)
    ensures UpdatePlaceholderAndClient(Prepared(t, w, ev), w).child.window == t.child.window
  {
    PreparedFacts(t, w, ev);
    var p := Prepared(t, w, ev);
    hide Prepared, Updates, UpdatePlaceholderAndClient;
    if Allows(p, w) { UpdateAllowed(p, w); } else { UpdateDenied(p, w); }
  }

  // ---- enhanced attempts -------------------------------------------------------

  /** What an enhanced session takes: known to be available, preferred, no cooldown running. */
  predicate EnhancedPossible(t: Tab, w: World) {
    w.vm.Some? && w.vm.value.enhancedAvailable && w.enhancedPref && t.enhanced.cooldownUntil <= w.now
  }

  /** An enhanced attempt that drops before its login completed, of a tab that never had one. */
  predicate Backoff(t: Tab, ev: Event) {
    ev.Disconnected? && t.enhanced.wanted && !t.enhanced.ready && !t.enhanced.ever
  }

  predicate EnhancedLaw(t: Tab, w: World, ev: Event, e: Enhanced) {
    && e.wanted == (if Spawns(t, w, ev) then EnhancedPossible(t, w) else t.enhanced.wanted)
    && e.ready == ((t.enhanced.ready && !ev.Disconnected? && !Spawns(t, w, ev)) || (ev.EnhancedReady? && ev.ready))
    && e.ever == (t.enhanced.ever || (ev.Connected? && ev.enhanced) || (ev.EnhancedReady? && ev.ready))
    && e.cooldownUntil == (if Backoff(t, ev) then w.now + 20000 else t.enhanced.cooldownUntil)
  }

  lemma UpdatedEnhanced(t: Tab, w: World, ev: Event)
    requires Updates(t, w, ev)
    ensures EnhancedLaw(t, w, ev, UpdatePlaceholderAndClient(Prepared(t, w, ev), w).enhanced)
  {
    var p := Prepared(t, w, ev);
    PreparedFacts(t, w, ev);
    NotLatching(t, w, ev);
    hide UpdatePlaceholderAndClient, Allows, Wanted, Latches, UpgradesOnPoll;
    if Allows(p, w) { UpdateAllowed(p, w); } else { UpdateDenied(p, w); }
  }

  /** Over every event: an attempt is an enhanced one exactly when it is started with the VM
      known to offer it, the user's preference on and no cooldown running. */
  lemma EnhancedExactly(t: Tab, w: World, ev: Event)
    ensures EnhancedLaw(t, w, ev, Step(t, w, ev).enhanced)
  {
    if Updates(t, w, ev) {
      StepUpdates(t, w, ev);
      UpdatedEnhanced(t, w, ev);
      hide UpdatePlaceholderAndClient, Prepared, Step, EnhancedLaw;
    }
    hide UpdatePlaceholderAndClient;
  }

  // ---- the reconnect timer -----------------------------------------------------

  /** A poll finds a basic session that could be an enhanced one. */
  predicate Upgrades(t: Tab, w: World, ev: Event) {
    && ev.Poll? && t.child.client.Some? && t.gate.connected && !t.enhanced.wanted
    && Running(w) && EnhancedPossible(t, w)
  }

  /** When the one reconnect timer is due after the event. */
  function Due(t: Tab, w: World, ev: Event): Option<nat> {
    if ev.ReconnectFires? then None
    else if Upgrades(t, w, ev) then Some(w.now + 250)
    else if ev.Disconnected? && Running(w) && !Latches(t, w, ev) then
      Some(w.now + if t.enhanced.wanted then 2000 else 700)
    else if ev.Disconnected? && !Running(w) && t.start.pending then Some(w.now + 700)
    else t.timers.reconnectAt
  }

  /** The timer that drives the display fit of an enhanced session. */
  predicate FitLaw(t: Tab, w: World, ev: Event, f: Timers) {
    var tick := ev.FitFires? && t.timers.fitRunning;
    var done := tick && (t.timers.fitTicks >= 60 || !t.enhanced.ready || t.child.client.None?);
    if ev.EnhancedReady? && ev.ready then f.fitRunning && f.fitTicks == 0
    else if LetsGo(t, w, ev) || Spawns(t, w, ev) || ev.Disconnected? || (ev.Resized? && ev.fills) || done
    then !f.fitRunning && f.fitTicks == 0
    else f.fitRunning == t.timers.fitRunning && f.fitTicks == t.timers.fitTicks + (if tick then 1 else 0)
  }

  lemma PreparedTimers(t: Tab, w: World, ev: Event)
    requires Updates(t, w, ev)
    ensures Prepared(t, w, ev).timers.reconnectAt == Due(t, w, ev)
  {
    NotLatching(t, w, ev);
    hide Latches;
  }

  lemma UpdatedTimers(t: Tab, w: World, ev: Event)
    requires Updates(t, w, ev)
    ensures var f := UpdatePlaceholderAndClient(Prepared(t, w, ev), w).timers;
            f.reconnectAt == Due(t, w, ev) && FitLaw(t, w, ev, f)
  {
    var p := Prepared(t, w, ev);
    PreparedFacts(t, w, ev);
    PreparedTimers(t, w, ev);
    NotLatching(t, w, ev);
    hide UpdatePlaceholderAndClient, Allows, Wanted, Latches, Due, UpgradesOnPoll;
    if Allows(p, w) { UpdateAllowed(p, w); } else { UpdateDenied(p, w); }
  }

  lemma TimersExactly(t: Tab, w: World, ev: Event)
    ensures Step(t, w, ev).timers.reconnectAt == Due(t, w, ev) && FitLaw(t, w, ev, Step(t, w, ev).timers)
  {
    if Updates(t, w, ev) {
      StepUpdates(t, w, ev);
      UpdatedTimers(t, w, ev);
      hide UpdatePlaceholderAndClient, Prepared, Step, FitLaw, Due;
    }
    hide UpdatePlaceholderAndClient;
  }

  /** A poll touches the timer if and only if a client is connected in a basic session and an
      enhanced one is possible now; it is then due in 250 ms. */
  lemma PollUpgradesExactly(t: Tab, w: World)
    ensures var due := Step(t, w, Poll).timers.reconnectAt;
            && (Upgrades(t, w, Poll) ==> due == Some(w.now + 250))
            && (!Upgrades(t, w, Poll) ==> due == t.timers.reconnectAt)
  {
    TimersExactly(t, w, Poll);
    hide Step;
  }

  // ---- the popup gate ----------------------------------------------------------

  /** The event asks for the popup now: a show, or the release of a suppressed, wanted tab. */
  predicate Asks(t: Tab, ev: Event) {
    (ev.Show? && !t.gate.suppressed) || (ev.Suppress? && !ev.on && t.gate.wantsVisible)
  }

  /** A deferred show finds its chance: the layout has a size and everything else is there. */
  predicate Resolves(t: Tab, w: World, ev: Event) {
    && (ev.SizeChanged? || (ev.Loaded? && !t.loaded))
    && ((t.child.client.Some? && !LetsGo(t, w, ev)) || Spawns(t, w, ev))
    && t.gate.connected && t.gate.wantsVisible && !t.gate.suppressed && t.gate.deferredShow
  }

  predicate GateLaw(t: Tab, w: World, ev: Event, g: Gate) {
    && g.wantsVisible == ((t.gate.wantsVisible || ev.Show?) && !ev.Hide?)
    && g.suppressed == (if ev.Suppress? then ev.on else t.gate.suppressed)
    && g.connected == ((t.gate.connected || ev.Connected?) && !ev.Disconnected? && !LetsGo(t, w, ev))
    && g.deferredShow == (if ev.Hide? || LetsGo(t, w, ev) || Resolves(t, w, ev) then false
                          else if Asks(t, ev) && t.child.client.Some? && t.gate.connected then !w.border
                          else t.gate.deferredShow)
  }

  /** The popup is on screen afterwards. */
  predicate Shows(t: Tab, w: World, ev: Event) {
    var has := (t.child.client.Some? && !LetsGo(t, w, ev)) || Spawns(t, w, ev);
    || (Asks(t, ev) && t.child.client.Some? && t.gate.connected && w.border)
    || Resolves(t, w, ev)
    || (ev.Connected? && has && t.gate.wantsVisible && !t.gate.suppressed)
    || (Runs.OnScreen(PopupOf(t)) && !LetsGo(t, w, ev)
        && !ev.Hide? && !ev.Disconnected? && !ev.Shutdown? && !(ev.Suppress? && ev.on))
  }

  lemma UpdatedGate(t: Tab, w: World, ev: Event)
    requires Updates(t, w, ev)
    ensures var u := UpdatePlaceholderAndClient(Prepared(t, w, ev), w);
            && u.gate.connected == ((t.gate.connected || ev.Connected?) && !ev.Disconnected? && !LetsGo(t, w, ev))
            && u.gate.deferredShow == (t.gate.deferredShow && !LetsGo(t, w, ev))
            && u.gate.wantsVisible == t.gate.wantsVisible && u.gate.suppressed == t.gate.suppressed
            && Runs.OnScreen(PopupOf(u)) == (Runs.OnScreen(PopupOf(t)) && !LetsGo(t, w, ev) && !ev.Disconnected?)
  {
    var p := Prepared(t, w, ev);
    PreparedFacts(t, w, ev);
    PreparedGate(t, w, ev);
    PreparedShown(t, w, ev);
    hide UpdatePlaceholderAndClient, Allows, Wanted, Prepared;
    if Allows(p, w) { UpdateAllowed(p, w); } else { UpdateDenied(p, w); }
  }

  /** What the handler has done to the gate before the update. */
  lemma PreparedGate(t: Tab, w: World, ev: Event)
    requires Updates(t, w, ev)
    ensures var p, gone := Prepared(t, w, ev), t.child.client.Some? && !HasClient(t, w, ev);
            && p.gate.connected == ((t.gate.connected || ev.Connected?) && !ev.Disconnected? && !gone)
            && p.gate.deferredShow == (t.gate.deferredShow && !gone)
            && p.gate.wantsVisible == t.gate.wantsVisible && p.gate.suppressed == t.gate.suppressed
  {}

  lemma PreparedShown(t: Tab, w: World, ev: Event)
    requires Updates(t, w, ev)
    ensures Runs.OnScreen(PopupOf(Prepared(t, w, ev)))
       <==> Runs.OnScreen(PopupOf(t)) && HasClient(t, w, ev) && !ev.Disconnected?
  {}

  lemma FinishedGate(t: Tab, w: World, ev: Event, u: Tab)
    requires Updates(t, w, ev) && ChildLaw(t, w, ev, u.child)
    requires u.gate.connected == ((t.gate.connected || ev.Connected?) && !ev.Disconnected? && !LetsGo(t, w, ev))
    requires u.gate.deferredShow == (t.gate.deferredShow && !LetsGo(t, w, ev))
    requires u.gate.wantsVisible == t.gate.wantsVisible && u.gate.suppressed == t.gate.suppressed
    requires Runs.OnScreen(PopupOf(u)) == (Runs.OnScreen(PopupOf(t)) && !LetsGo(t, w, ev) && !ev.Disconnected?)
    ensures var t' := Finished(u, ev);
            GateLaw(t, w, ev, t'.gate) && (Runs.OnScreen(PopupOf(t')) <==> Shows(t, w, ev))
  {
    hide SameChild;
  }

  /** Over every event: what the gate holds, and whether the popup is on screen. */
  lemma GateExactly(t: Tab, w: World, ev: Event)
    ensures GateLaw(t, w, ev, Step(t, w, ev).gate)
    ensures Runs.OnScreen(PopupOf(Step(t, w, ev))) <==> Shows(t, w, ev)
  {
    if Updates(t, w, ev) {
      StepUpdates(t, w, ev);
      UpdatedGate(t, w, ev);
      UpdatedChild(t, w, ev);
      hide UpdatePlaceholderAndClient, Prepared, Step, GateLaw, Shows, Finished, ChildLaw;
      FinishedGate(t, w, ev, UpdatePlaceholderAndClient(Prepared(t, w, ev), w));
    } else {
      hide UpdatePlaceholderAndClient, Prepared, Step, GateLaw, Shows, Finished, ChildLaw;
      QuietGate(t, w, ev);
    }
  }

  lemma QuietGate(t: Tab, w: World, ev: Event)
    requires !Updates(t, w, ev)
    ensures GateLaw(t, w, ev, Step(t, w, ev).gate)
    ensures Runs.OnScreen(PopupOf(Step(t, w, ev))) <==> Shows(t, w, ev)
  {
    hide UpdatePlaceholderAndClient, Step, GateLaw, Shows, Updates;
    if ev.Disconnected? || ev.Failed? {
      DroppedGate(t, w, ev);
    } else {
      OrderedGate(t, w, ev);
      OrderedShows(t, w, ev);
    }
  }

  lemma DroppedGate(t: Tab, w: World, ev: Event)
    requires !Updates(t, w, ev) && (ev.Disconnected? || ev.Failed?)
    ensures GateLaw(t, w, ev, Step(t, w, ev).gate)
    ensures Runs.OnScreen(PopupOf(Step(t, w, ev))) <==> Shows(t, w, ev)
  {
    hide UpdatePlaceholderAndClient;
  }

  lemma OrderedGate(t: Tab, w: World, ev: Event)
    requires !Updates(t, w, ev) && !ev.Disconnected? && !ev.Failed?
    ensures GateLaw(t, w, ev, Step(t, w, ev).gate)
  {
    hide UpdatePlaceholderAndClient;
  }

  lemma OrderedShows(t: Tab, w: World, ev: Event)
    requires !Updates(t, w, ev) && !ev.Disconnected? && !ev.Failed?
    ensures Runs.OnScreen(PopupOf(Step(t, w, ev))) <==> Shows(t, w, ev)
  {
    hide UpdatePlaceholderAndClient;
  }

  // ---- start latches, health, placeholder ----------------------------------------

  /** A known VM with no reason to keep a client. */
  predicate Stops(t: Tab, w: World, ev: Event) {
    Updates(t, w, ev) && w.vm.Some? && !Wanted(t, w, ev)
  }

  /** A Start button still pressed: no job of the VM has taken over, and 5 s are not up. */
  predicate StillRequested(t: Tab, w: World, ev: Event) {
    || ev.StartClick?
    || (t.start.requested && (Stops(t, w, ev) ==> !w.vm.value.jobInFlight && w.now <= t.start.requestedAt + 5000))
  }

  predicate StartLaw(t: Tab, w: World, ev: Event, s: Start) {
    && s.requested == StillRequested(t, w, ev)
    && s.requestedAt == (if ev.StartClick? then w.now else t.start.requestedAt)
    && s.pending == (if Updates(t, w, ev) && w.vm.Some? then AwaitsStart(t, w, ev)
                     else t.start.pending || ev.StartClick?)
    && s.pendingAt == (if ev.StartClick? then w.now else t.start.pendingAt)
  }

  predicate HealthLaw(t: Tab, w: World, ev: Event, h: Health) {
    var clean := ev.StartClick? || ev.RetryClick? || ev.Connected? || (t.health.hadError && Stops(t, w, ev));
    && h.hadError == (Latches(t, w, ev) || (t.health.hadError && !clean))
    && h.everConnected == (t.health.everConnected || ev.Connected?)
    && h.failures == (if clean then 0
                      else if ev.Disconnected? && Running(w) then
                        if t.gate.connected || t.health.everConnected then 0
                        else t.health.failures + (if ev.fatal then 1 else 0)
                      else t.health.failures)
  }

  /** What the page shows in place of the session. The Start button is offered for a VM at
      rest that nobody is starting. */
  function Shown(t: Tab, w: World, ev: Event): Placeholder {
    if Latches(t, w, ev) then ConnectError
    else if !Updates(t, w, ev) then t.placeholder
    else if w.vm.None? then (if w.polledOnce then Missing else Loading)
    else if Stops(t, w, ev) then
      Stopped((w.vm.value.state.Off? || w.vm.value.state.Saved? || w.vm.value.state.Paused?)
              && !StillRequested(t, w, ev) && !w.vm.value.jobInFlight)
    else if StillFailed(t, ev) then ConnectError
    else if HasClient(t, w, ev) && (t.gate.connected || ev.Connected?) then Covered
    else if !Running(w) then Starting
    else if HasClient(t, w, ev) then Connecting
    else Covered
  }

  /** A known VM that neither runs nor is about to, as the update sees it. */
  predicate AtRest(t: Tab, w: World) {
    w.vm.Some? && !IsRunning(w) && !AgePending(t, w).start.pending
  }

  lemma UpdateRest(t: Tab, w: World)
    ensures var u := UpdatePlaceholderAndClient(t, w);
            && u.start == (if w.vm.None? then t.start
                           else AgePending(t, w).start.(requested := t.start.requested
                                                                     && (AtRest(t, w) ==> !StartLatchExpires(t, w))))
            && u.health == (if AtRest(t, w) && t.health.hadError then ClearError(t).health else t.health)
  {}

  lemma UpdatePlaceholder(t: Tab, w: World)
    ensures var p := UpdatePlaceholderAndClient(t, w).placeholder;
            && (w.vm.None? ==> p == if w.polledOnce then Missing else Loading)
            && (AtRest(t, w) ==>
                  p == Stopped(w.vm.value.state in {Off, Saved, Paused} && !w.vm.value.jobInFlight
                               && !(t.start.requested && !StartLatchExpires(t, w))))
            && (w.vm.Some? && !AtRest(t, w) ==>
                  p == if t.health.hadError then ConnectError
                  else if t.child.client.Some? && t.gate.connected then Covered
                  else if !IsRunning(w) then Starting
                  else if t.child.client.Some? then Connecting
                  else Covered)
  {}

  lemma PreparedRest(t: Tab, w: World, ev: Event)
    requires Updates(t, w, ev)
    ensures var p := Prepared(t, w, ev);
            && p.start == (if ev.StartClick? then Start(true, w.now, true, w.now) else t.start)
            && p.child.client.Some? == HasClient(t, w, ev) && AtRest(p, w) == Stops(t, w, ev)
            && p.health == (if ev.Connected? then Health(false, 0, true)
                            else if ev.StartClick? || ev.RetryClick? then t.health.(hadError := false, failures := 0)
                            else t.health)
            && (HasClient(t, w, ev) ==> p.gate.connected == ((t.gate.connected || ev.Connected?) && !ev.Disconnected?))
  {}

  lemma UpdatedLatches(t: Tab, w: World, ev: Event)
    requires Updates(t, w, ev)
    ensures var u := UpdatePlaceholderAndClient(Prepared(t, w, ev), w);
            StartLaw(t, w, ev, u.start) && HealthLaw(t, w, ev, u.health)
  {
    PreparedRest(t, w, ev);
    UpdateRest(Prepared(t, w, ev), w);
    hide UpdatePlaceholderAndClient, Prepared, HasClient;
  }

  lemma UpdatedPlaceholder(t: Tab, w: World, ev: Event)
    requires Updates(t, w, ev)
    ensures UpdatePlaceholderAndClient(Prepared(t, w, ev), w).placeholder == Shown(t, w, ev)
  {
    PreparedRest(t, w, ev);
    UpdatePlaceholder(Prepared(t, w, ev), w);
    hide UpdatePlaceholderAndClient, Prepared, HasClient;
  }

  lemma QuietRest(t: Tab, w: World, ev: Event)
    requires !Updates(t, w, ev)
    ensures var t' := Step(t, w, ev);
            && StartLaw(t, w, ev, t'.start) && HealthLaw(t, w, ev, t'.health) && t'.placeholder == Shown(t, w, ev)
            && t'.loaded == (t.loaded || ev.Loaded?)
  {
    hide UpdatePlaceholderAndClient;
  }

  /** Over every event: latches, error, count and placeholder. */
  lemma RestExactly(t: Tab, w: World, ev: Event)
    ensures var t' := Step(t, w, ev);
            && StartLaw(t, w, ev, t'.start) && HealthLaw(t, w, ev, t'.health) && t'.placeholder == Shown(t, w, ev)
            && t'.loaded == (t.loaded || ev.Loaded?)
  {
    if Updates(t, w, ev) {
      StepUpdates(t, w, ev);
      UpdatedLatches(t, w, ev);
      UpdatedPlaceholder(t, w, ev);
      UpdatedLoaded(t, w, ev);
      hide UpdatePlaceholderAndClient, Prepared, Step, HealthLaw, StartLaw, Shown, Updates;
    } else {
      hide UpdatePlaceholderAndClient, Prepared, Step, HealthLaw, StartLaw, Shown, Updates;
      QuietRest(t, w, ev);
    }
  }

  lemma UpdatedLoaded(t: Tab, w: World, ev: Event)
    requires Updates(t, w, ev)
    ensures UpdatePlaceholderAndClient(Prepared(t, w, ev), w).loaded == (t.loaded || ev.Loaded?)
  {
    var p := Prepared(t, w, ev);
    hide UpdatePlaceholderAndClient, Allows;
    if Allows(p, w) { UpdateAllowed(p, w); } else { UpdateDenied(p, w); }
  }

  // ---- the whole step ------------------------------------------------------------

  /** All the laws together. */
  predicate StepLaw(t: Tab, w: World, ev: Event, t': Tab) {
    && ChildLaw(t, w, ev, t'.child) && t'.child.window == (if ev.SetHwnd? then ev.hwnd else t.child.window)
    && (Runs.OnScreen(PopupOf(t')) <==> Shows(t, w, ev)) && GateLaw(t, w, ev, t'.gate)
    && EnhancedLaw(t, w, ev, t'.enhanced) && t'.timers.reconnectAt == Due(t, w, ev) && FitLaw(t, w, ev, t'.timers)
    && StartLaw(t, w, ev, t'.start) && HealthLaw(t, w, ev, t'.health) && t'.placeholder == Shown(t, w, ev)
    && t'.loaded == (t.loaded || ev.Loaded?)
  }

  lemma SameChildren(t: Tab, w: World, ev: Event, c: Child, d: Child)
    requires ChildLaw(t, w, ev, c) && ChildLaw(t, w, ev, d) && c.window == d.window
    requires (c.client.Some? && c.client.value.shown) == (d.client.Some? && d.client.value.shown)
    ensures c == d
  {
    hide Spawns, LetsGo;
  }

  lemma SameRest(t: Tab, w: World, ev: Event, a: Tab, b: Tab)
    requires StepLaw(t, w, ev, a) && StepLaw(t, w, ev, b)
    ensures a.gate == b.gate && a.enhanced == b.enhanced && a.timers == b.timers
    ensures a.start == b.start && a.health == b.health && a.placeholder == b.placeholder && a.loaded == b.loaded
  {
    hide ChildLaw, Shows, Shown, Due, Spawns, LetsGo, Updates, Latches, Stops, Resolves, Asks;
  }

  /** The laws hold of the step and of nothing else: a tab after an event is known field by
      field from the tab before it. */
  lemma StepExactly(t: Tab, w: World, ev: Event, t': Tab)
    ensures StepLaw(t, w, ev, t') <==> t' == Step(t, w, ev)
  {
    ChildExactly(t, w, ev);
    GateExactly(t, w, ev);
    EnhancedExactly(t, w, ev);
    TimersExactly(t, w, ev);
    RestExactly(t, w, ev);
    hide Step, ChildLaw, GateLaw, Shows, EnhancedLaw, Due, FitLaw, StartLaw, HealthLaw, Shown;
    assert StepLaw(t, w, ev, Step(t, w, ev));
    if StepLaw(t, w, ev, t') {
      SameChildren(t, w, ev, t'.child, Step(t, w, ev).child);
      SameRest(t, w, ev, t', Step(t, w, ev));
    }
  }
}
