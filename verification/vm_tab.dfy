/** The connection machine of one VM tab (src/app/VmTabPage.xaml.cpp).

    A `Tab` is the page's fields; every handler of the page is a function from a tab and
    the facts the handler reads from outside (`World`) to the new tab. `VmTabPage` in
    vm_tab_page.dfy is the same page as an object, whose methods are proved equal to these
    functions; vm_tab_runs.dfy proves what every run of handlers keeps.

    Times are milliseconds of the steady clock.
  */
module VmTab {
  import opened Wrappers

  const MAX_CONNECT_FAILURES: nat := 4
  const ENHANCED_COOLDOWN: nat := 20000
  const PENDING_CONNECT_TIMEOUT: nat := 25000
  const START_REQUEST_TIMEOUT: nat := 5000
  const UPGRADE_DELAY: nat := 250
  const BASIC_RECONNECT_DELAY: nat := 700
  const ENHANCED_RECONNECT_DELAY: nat := 2000
  const MAX_FIT_TICKS: nat := 60

  datatype VmState = Running | Off | Saved | Paused | InTransition

  /** The VM as the last poll of the VM manager saw it. */
  datatype Vm = Vm(state: VmState, enhancedAvailable: bool, jobInFlight: bool)

  /** What a handler reads from outside the page. `border` says whether the layout pass has
      measured the session border, `exePresent` whether the child executable is on disk, and
      `launchOk` what ConnectLocalVm returns for a child spawned now. */
  datatype World = World(
    now: nat,
    vm: Option<Vm>,
    polledOnce: bool,
    enhancedPref: bool,
    exePresent: bool,
    launchOk: bool,
    border: bool)

  /** One rdphost child and its popup. `owner` is the window handle the popup is owned by.
      The page does not keep the last three fields: they record what happened to this child,
      so that lemmas can speak of it (`up`: its last session event was Connected). */
  datatype Client = Client(
    id: nat,
    owner: nat,
    shown: bool,
    launched: bool,
    spawnedAt: nat,
    up: bool,
    droppedAt: Option<nat>)

  datatype Placeholder =
    | Loading
    | Missing
    | ConnectError
    | Starting
    | Connecting
    | Covered
    | Stopped(startButton: bool)

  /** The child side: `alive` is the set of child processes not stopped yet, `spawned` the
      number of children ever started (also the id of the next one), `window` the handle the
      page was given, 0 when it has none. */
  datatype Child = Child(client: Option<Client>, alive: set<nat>, spawned: nat, window: nat)

  /** m_connected, m_wantsVisible, m_deferredShow, m_popupSuppressed. */
  datatype Gate = Gate(connected: bool, wantsVisible: bool, deferredShow: bool, suppressed: bool)

  /** m_startRequested and m_pendingConnect with their click times. */
  datatype Start = Start(requested: bool, requestedAt: nat, pending: bool, pendingAt: nat)

  /** m_hadConnectError, m_connectFailures, m_everConnected. */
  datatype Health = Health(hadError: bool, failures: nat, everConnected: bool)

  /** m_everEnhanced, m_wantedEnhanced, m_enhancedReady, m_enhancedCooldownUntil. */
  datatype Enhanced = Enhanced(ever: bool, wanted: bool, ready: bool, cooldownUntil: nat)

  /** The one-shot reconnect timer's due time and the repeating fit timer. */
  datatype Timers = Timers(reconnectAt: Option<nat>, fitRunning: bool, fitTicks: nat)

  datatype Tab = Tab(
    child: Child,
    gate: Gate,
    start: Start,
    health: Health,
    enhanced: Enhanced,
    timers: Timers,
    loaded: bool,
    placeholder: Placeholder)

  function Initial(): Tab {
    Tab(Child(None, {}, 0, 0), Gate(false, false, false, false), Start(false, 0, false, 0),
        Health(false, 0, false), Enhanced(false, false, false, 0), Timers(None, false, 0),
        false, Loading)
  }

  predicate IsRunning(w: World) {
    w.vm.Some? && w.vm.value.state == Running
  }

  predicate InCooldown(t: Tab, w: World) {
    w.now < t.enhanced.cooldownUntil
  }

  // ---- popup ---------------------------------------------------------------

  function SetShown(c: Child, shown: bool): Child {
    if c.client.Some? then c.(client := Some(c.client.value.(shown := shown))) else c
  }

  /** What a page that owns a popup has: its child and the gate before the popup. */
  datatype Popup = Popup(child: Child, gate: Gate)

  /** The tab is wanted: show now, at layout, or when the gate opens. */
  function Raise(p: Popup, w: World): Popup {
    if p.gate.suppressed || p.child.client.None? || !p.gate.connected
    then p.(gate := p.gate.(wantsVisible := true))
    else if w.border
      then Popup(SetShown(p.child, true), p.gate.(wantsVisible := true, deferredShow := false))
      else p.(gate := p.gate.(wantsVisible := true, deferredShow := true))
  }

  function Lower(p: Popup): Popup {
    Popup(SetShown(p.child, false), p.gate.(wantsVisible := false, deferredShow := false))
  }

  function Mute(p: Popup, w: World, on: bool): Popup {
    var p' := p.(gate := p.gate.(suppressed := on));
    if on then p'.(child := SetShown(p.child, false))
    else if p.gate.wantsVisible then Raise(p', w)
    else p'
  }

  /** Layout has a size: a show that waited for it happens. */
  function Resolve(p: Popup): Popup {
    if p.child.client.Some? && p.gate.wantsVisible && p.gate.connected && p.gate.deferredShow && !p.gate.suppressed
    then Popup(SetShown(p.child, true), p.gate.(deferredShow := false))
    else p
  }

  function Own(c: Child, hwnd: nat): Child {
    c.(window := hwnd,
    client := if c.window != hwnd && c.client.Some? then Some(c.client.value.(owner := hwnd)) else c.client)
  }

  function Release(c: Child): Child {
    if c.client.Some? then c.(client := None, alive := c.alive - {c.client.value.id}) else c
  }

  function TearDown(p: Popup): Popup {
    if p.child.client.None? then p
    else Popup(Release(p.child), p.gate.(connected := false, deferredShow := false))
  }

  // ---- the page's popup ----------------------------------------------------

  function PopupOf(t: Tab): Popup {
    Popup(t.child, t.gate)
  }

  function WithPopup(t: Tab, p: Popup): Tab {
    t.(child := p.child, gate := p.gate)
  }

  function ShowPopup(t: Tab, w: World): Tab {
    WithPopup(t, Raise(PopupOf(t), w))
  }

  function HidePopup(t: Tab): Tab {
    WithPopup(t, Lower(PopupOf(t)))
  }

  function SetPopupSuppressed(t: Tab, w: World, on: bool): Tab {
    WithPopup(t, Mute(PopupOf(t), w, on))
  }

  function ResolveDeferredShow(t: Tab): Tab {
    WithPopup(t, Resolve(PopupOf(t)))
  }

  function SetWindow(t: Tab, hwnd: nat): Tab {
    t.(child := Own(t.child, hwnd))
  }

  // ---- client lifecycle ----------------------------------------------------

  function StopEnhancedFit(t: Tab): Tab {
    t.(timers := t.timers.(fitRunning := false, fitTicks := 0))
  }

  function TearDownClient(t: Tab): Tab {
    if t.child.client.None? then t else WithPopup(StopEnhancedFit(t), TearDown(PopupOf(t)))
  }

  function ShutdownClient(t: Tab): Tab {
    t.(child := Release(t.child))
  }

  function WantEnhanced(t: Tab, w: World): bool {
    w.vm.Some? && w.vm.value.enhancedAvailable && w.enhancedPref && !InCooldown(t, w)
  }

  function Spawn(c: Child, w: World): Child {
    Child(Some(Client(c.spawned, c.window, false, w.launchOk, w.now, false, None)),
          c.alive + {c.spawned}, c.spawned + 1, c.window)
  }

  predicate CanSpawn(c: Child, w: World) {
    c.client.None? && c.window != 0 && w.exePresent
  }

  function StartConnection(t: Tab, w: World): Tab {
    if !CanSpawn(t.child, w) then t
    else StopEnhancedFit(t).(child := Spawn(t.child, w),
         enhanced := t.enhanced.(wanted := WantEnhanced(t, w), ready := false))
  }

  function ScheduleReconnect(t: Tab, w: World, delay: nat): Tab {
    t.(timers := t.timers.(reconnectAt := Some(w.now + delay)))
  }

  /** The pre-connect latch drops once the VM runs, or after 25 s. */
  function AgePending(t: Tab, w: World): Tab {
    if t.start.pending && (IsRunning(w) || w.now > t.start.pendingAt + PENDING_CONNECT_TIMEOUT)
    then t.(start := t.start.(pending := false)) else t
  }

  function ClearError(t: Tab): Tab {
    t.(health := t.health.(hadError := false, failures := 0))
  }

  /** The branch for a VM that runs, or whose start is still pending. */
  function WantClient(t: Tab, w: World): Tab {
    if t.child.client.None? then
      StartConnection(t.(placeholder := if IsRunning(w) then Covered else Starting), w)
    else t.(placeholder := if t.gate.connected then Covered
         else if IsRunning(w) then Connecting else Starting)
  }

  predicate StartLatchExpires(t: Tab, w: World)
    requires w.vm.Some?
  {
    w.vm.value.jobInFlight || w.now > t.start.requestedAt + START_REQUEST_TIMEOUT
  }

  /** The branch for a known VM with no reason to keep a client. */
  function ShowStopped(t: Tab, w: World): Tab
    requires w.vm.Some?
  {
    var requested := t.start.requested && !StartLatchExpires(t, w);
    var stable := w.vm.value.state in {Off, Saved, Paused};
    TearDownClient(t).(start := t.start.(requested := requested),
    placeholder := Stopped(stable && !requested && !w.vm.value.jobInFlight))
  }

  /** What UpdatePlaceholderAndClient does for a known VM once the pre-connect latch has aged. */
  function UpdateKnown(t: Tab, w: World): Tab
    requires w.vm.Some?
  {
    var wanted := IsRunning(w) || t.start.pending;
    if t.health.hadError && wanted then TearDownClient(t).(placeholder := ConnectError)
    else if wanted then WantClient(t, w)
    else ShowStopped(if t.health.hadError then ClearError(t) else t, w)
  }

  function UpdatePlaceholderAndClient(t: Tab, w: World): Tab {
    if w.vm.None? then TearDownClient(t).(placeholder := if w.polledOnce then Missing else Loading)
    else UpdateKnown(AgePending(t, w), w)
  }

  function ShowConnectError(t: Tab): Tab {
    TearDownClient(t).(health := t.health.(hadError := true), placeholder := ConnectError)
  }

  // ---- handlers ------------------------------------------------------------

  predicate UpgradesOnPoll(t: Tab, w: World) {
    && t.child.client.Some? && t.gate.connected && !t.enhanced.wanted
    && IsRunning(w) && WantEnhanced(t, w)
  }

  function OnPoll(t: Tab, w: World): Tab {
    UpdatePlaceholderAndClient(if UpgradesOnPoll(t, w) then ScheduleReconnect(t, w, UPGRADE_DELAY) else t, w)
  }

  function OnLoaded(t: Tab, w: World): Tab {
    if t.loaded then t
    else ResolveDeferredShow(UpdatePlaceholderAndClient(t.(loaded := true), w))
  }

  function OnStartClick(t: Tab, w: World): Tab {
    UpdatePlaceholderAndClient(
      ClearError(t).(start := Start(true, w.now, true, w.now), placeholder := Starting), w)
  }

  function OnRetryClick(t: Tab, w: World): Tab {
    UpdatePlaceholderAndClient(ClearError(t), w)
  }

  function ReapplyConnectionSettings(t: Tab, w: World): Tab {
    if t.child.client.None? then t else UpdatePlaceholderAndClient(TearDownClient(t), w)
  }

  /** The one-shot reconnect timer fires; it does nothing when it is not armed. */
  function OnReconnectTimer(t: Tab, w: World): Tab {
    if t.timers.reconnectAt.None? then t
    else
      var t' := t.(timers := t.timers.(reconnectAt := None));
      UpdatePlaceholderAndClient(if !IsRunning(w) && !t.start.pending then t' else TearDownClient(t'), w)
  }

  function OnFitTimer(t: Tab): Tab {
    if !t.timers.fitRunning then t
    else if t.timers.fitTicks + 1 > MAX_FIT_TICKS || !t.enhanced.ready || t.child.client.None? then StopEnhancedFit(t)
    else t.(timers := t.timers.(fitTicks := t.timers.fitTicks + 1))
  }

  function MarkUp(c: Child, src: nat): Child {
    if c.client.Some? && c.client.value.id == src then c.(client := Some(c.client.value.(up := true))) else c
  }

  /** The fields a session sets before the page is brought in line. */
  function BeginSession(t: Tab, src: nat, enhanced: bool): Tab {
    t.(gate := t.gate.(connected := true),
    health := Health(false, 0, true),
    enhanced := t.enhanced.(ever := t.enhanced.ever || enhanced),
                                    child := MarkUp(t.child, src))
  }

  /** `src` is the child that raised the event. The page never looks at it. */
  function OnConnected(t: Tab, w: World, src: nat, enhanced: bool): Tab {
    var t' := UpdatePlaceholderAndClient(BeginSession(t, src, enhanced), w);
    if t'.gate.wantsVisible && !t'.gate.suppressed then t'.(child := SetShown(t'.child, true)) else t'
  }

  function OnEnhancedReady(t: Tab, ready: bool): Tab {
    if !ready then t
    else t.(enhanced := t.enhanced.(ready := true, ever := true),
         timers := t.timers.(fitRunning := true, fitTicks := 0))
  }

  /** `fills`: the session now covers the measured border, up to 8 pixels. */
  function OnDesktopResized(t: Tab, fills: bool): Tab {
    if fills then StopEnhancedFit(t) else t
  }

  predicate EarlyEnhancedDrop(t: Tab) {
    t.enhanced.wanted && !t.enhanced.ready && !t.enhanced.ever
  }

  function MarkDropped(c: Child, w: World, src: nat): Child {
    if c.client.Some? && c.client.value.id == src
    then c.(client := Some(c.client.value.(up := false, droppedAt := Some(w.now)))) else c
  }

  /** The part of OnDisconnected that always runs: back-off, latches, popup. */
  function DropSession(t: Tab, w: World, src: nat): Tab {
    StopEnhancedFit(t).(
    enhanced := t.enhanced.(ready := false,
    cooldownUntil := if EarlyEnhancedDrop(t) then w.now + ENHANCED_COOLDOWN
    else t.enhanced.cooldownUntil),
         gate := t.gate.(connected := false),
         child := MarkDropped(SetShown(t.child, false), w, src))
  }

  /** A fatal disconnect of a tab that never reached a session, on a Running VM. */
  predicate CountsAsFailure(t: Tab, w: World, fatal: bool) {
    IsRunning(w) && !t.gate.connected && !t.health.everConnected && fatal
  }

  function TallyFailure(h: Health, wasConnected: bool, fatal: bool): Health {
    h.(failures := if wasConnected || h.everConnected then 0 else if fatal then h.failures + 1 else h.failures)
  }

  function ReconnectDelay(t: Tab): nat {
    if t.enhanced.wanted then ENHANCED_RECONNECT_DELAY else BASIC_RECONNECT_DELAY
  }

  function OnDisconnected(t: Tab, w: World, src: nat, fatal: bool): Tab {
    var t' := DropSession(t, w, src);
    if IsRunning(w) then
      var t'' := t'.(health := TallyFailure(t.health, t.gate.connected, fatal));
      if CountsAsFailure(t, w, fatal) && t''.health.failures >= MAX_CONNECT_FAILURES then ShowConnectError(t'')
      else ScheduleReconnect(t'', w, ReconnectDelay(t''))
    else if t.start.pending then ScheduleReconnect(t', w, BASIC_RECONNECT_DELAY)
    else UpdatePlaceholderAndClient(t', w)
  }

  datatype Event =
    | Loaded
    | SizeChanged
    | Show
    | Hide
    | Suppress(on: bool)
    | SetHwnd(hwnd: nat)
    | Poll
    | StartClick
    | RetryClick
    | Reapply
    | ReconnectFires
    | FitFires
    | Connected(src: nat, enhanced: bool)
    | EnhancedReady(src: nat, ready: bool)
    | Resized(src: nat, fills: bool)
    | Disconnected(src: nat, fatal: bool)
    | Failed(src: nat)
    | Shutdown

  function Step(t: Tab, w: World, ev: Event): Tab {
    match ev
    case Loaded => OnLoaded(t, w)
    case SizeChanged => ResolveDeferredShow(t)
    case Show => ShowPopup(t, w)
    case Hide => HidePopup(t)
    case Suppress(on) => SetPopupSuppressed(t, w, on)
    case SetHwnd(hwnd) => SetWindow(t, hwnd)
    case Poll => OnPoll(t, w)
    case StartClick => OnStartClick(t, w)
    case RetryClick => OnRetryClick(t, w)
    case Reapply => ReapplyConnectionSettings(t, w)
    case ReconnectFires => OnReconnectTimer(t, w)
    case FitFires => OnFitTimer(t)
    case Connected(src, enhanced) => OnConnected(t, w, src, enhanced)
    case EnhancedReady(_, ready) => OnEnhancedReady(t, ready)
    case Resized(_, fills) => OnDesktopResized(t, fills)
    case Disconnected(src, fatal) => OnDisconnected(t, w, src, fatal)
    case Failed(_) => ShowConnectError(t)
    case Shutdown => ShutdownClient(t)
  }

  /** One step of a run: an event together with the world its handler reads. */
  datatype Input = Input(world: World, event: Event)

  function Run(t: Tab, inputs: seq<Input>): Tab
    decreases |inputs|
  {
    if inputs == [] then t
    else Run(Step(t, inputs[0].world, inputs[0].event), inputs[1..])
  }
}
