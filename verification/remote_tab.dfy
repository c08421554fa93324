/** The page of a remote host (src/app/RemoteHostTabPage.xaml.cpp): the popup gate and child
    of a VM's page, without polls, timers or back-off. `RemoteHostTabPage` in remote_page.dfy
    is the same page as an object. */
module RemoteTab {
  import opened Wrappers
  import opened VmTab
  import Runs = VmTabRuns

  datatype Remote = Remote(
    child: Child,
    gate: Gate,
    loaded: bool,
    autoConnect: bool,
    connecting: bool,
    hadError: bool)

  function Fresh(autoConnect: bool): Remote {
    Remote(Child(None, {}, 0, 0), Gate(false, false, false, false), false, autoConnect, false, false)
  }

  // ---- popup ---------------------------------------------------------------

  function PopupOf(t: Remote): Popup {
    Popup(t.child, t.gate)
  }

  function WithPopup(t: Remote, p: Popup): Remote {
    t.(child := p.child, gate := p.gate)
  }

  function ShowPopup(t: Remote, w: World): Remote {
    WithPopup(t, Raise(PopupOf(t), w))
  }

  function HidePopup(t: Remote): Remote {
    WithPopup(t, Lower(PopupOf(t)))
  }

  function SetPopupSuppressed(t: Remote, w: World, on: bool): Remote {
    WithPopup(t, Mute(PopupOf(t), w, on))
  }

  function ResolveDeferredShow(t: Remote): Remote {
    WithPopup(t, Resolve(PopupOf(t)))
  }

  function SetWindow(t: Remote, hwnd: nat): Remote {
    t.(child := Own(t.child, hwnd))
  }

  // ---- client ----------------------------------------------------------------

  function TearDownClient(t: Remote): Remote {
    WithPopup(t, TearDown(PopupOf(t)))
  }

  function ShutdownClient(t: Remote): Remote {
    t.(child := Release(t.child))
  }

  /** `saved`: the host is still in the saved list. A child that cannot be connected is let
      go at once. */
  function StartConnection(t: Remote, w: World, saved: bool): Remote {
    if t.child.client.Some? || t.child.window == 0 then t
    else if !saved || !w.exePresent then t.(hadError := true)
    else
      var c := Spawn(t.child, w);
      if w.launchOk then t.(child := c, connecting := true, hadError := false)
      else t.(child := Release(c), connecting := false, hadError := true)
  }

  // ---- handlers --------------------------------------------------------------

  datatype RemoteEvent =
    | Arrived(saved: bool)
    | LaidOut
    | ActionClick(saved: bool)
    | SettingsChanged(saved: bool)
    | Up(src: nat)
    | Dropped(src: nat)
    | Errored(src: nat)

  function OnArrived(t: Remote, w: World, saved: bool): Remote {
    if t.loaded then t
    else
      var t' := t.(loaded := true);
      ResolveDeferredShow(if t.autoConnect then StartConnection(t', w, saved) else t')
  }

  function OnActionClick(t: Remote, w: World, saved: bool): Remote {
    StartConnection(TearDownClient(t.(hadError := false)), w, saved)
  }

  function OnSettingsChanged(t: Remote, w: World, saved: bool): Remote {
    if t.child.client.None? then t else OnActionClick(t, w, saved)
  }

  function OnUp(t: Remote, src: nat): Remote {
    var t' := t.(gate := t.gate.(connected := true), child := MarkUp(t.child, src), connecting := false,
              hadError := false);
    if t.gate.wantsVisible && !t.gate.suppressed then t'.(child := SetShown(t'.child, true)) else t'
  }

  /** An established session that ends is no error; an attempt that never got there is. */
  function OnDropped(t: Remote, w: World, src: nat): Remote {
    t.(gate := t.gate.(connected := false),
    child := MarkDropped(SetShown(t.child, false), w, src),
    connecting := false,
    hadError := !t.gate.connected)
  }

  function OnErrored(t: Remote): Remote {
    t.(connecting := false, hadError := true)
  }

  function Step(t: Remote, w: World, ev: RemoteEvent): Remote {
    match ev
    case Arrived(saved) => OnArrived(t, w, saved)
    case LaidOut => ResolveDeferredShow(t)
    case ActionClick(saved) => OnActionClick(t, w, saved)
    case SettingsChanged(saved) => OnSettingsChanged(t, w, saved)
    case Up(src) => OnUp(t, src)
    case Dropped(src) => OnDropped(t, w, src)
    case Errored(_) => OnErrored(t)
  }

  /** What the window asks of the page, besides. */
  datatype Order = Event(ev: RemoteEvent) | Show | Hide | Suppress(on: bool) | SetHwnd(hwnd: nat)

  function Obey(t: Remote, w: World, o: Order): Remote {
    match o
    case Event(ev) => Step(t, w, ev)
    case Show => ShowPopup(t, w)
    case Hide => HidePopup(t)
    case Suppress(on) => SetPopupSuppressed(t, w, on)
    case SetHwnd(hwnd) => SetWindow(t, hwnd)
  }

  datatype Turn = Turn(world: World, order: Order)

  function Run(t: Remote, turns: seq<Turn>): Remote
    decreases |turns|
  {
    if turns == [] then t else Run(Obey(t, turns[0].world, turns[0].order), turns[1..])
  }

  // ---- what every run keeps --------------------------------------------------

  /** One child at most, its popup owned by the page's window and on screen only for the
      wanted, connected, unsuppressed tab. */
  predicate Valid(t: Remote) {
    Runs.OneChild(t.child) && Runs.PopupGated(PopupOf(t))
  }

  lemma StartedValid(t: Remote, w: World, saved: bool)
    requires Valid(t)
    ensures Valid(StartConnection(t, w, saved))
  {}

  lemma StepValid(t: Remote, w: World, ev: RemoteEvent)
    requires Valid(t)
    ensures Valid(Step(t, w, ev))
  {
    hide StartConnection;
    match ev
    case Arrived(saved) => StartedValid(t.(loaded := true), w, saved);
    case ActionClick(saved) => StartedValid(TearDownClient(t.(hadError := false)), w, saved);
    case SettingsChanged(saved) => StartedValid(TearDownClient(t.(hadError := false)), w, saved);
    case _ =>
  }

  lemma ObeyValid(t: Remote, w: World, o: Order)
    requires Valid(t)
    ensures Valid(Obey(t, w, o))
  {
    hide Step;
    if o.Event? { StepValid(t, w, o.ev); }
  }

  lemma {:induction false} RunValid(t: Remote, turns: seq<Turn>)
    requires Valid(t)
    ensures Valid(Run(t, turns))
    decreases |turns|
  {
    hide Obey, Valid;
    if turns != [] {
      ObeyValid(t, turns[0].world, turns[0].order);
      RunValid(Obey(t, turns[0].world, turns[0].order), turns[1..]);
    }
  }

  /** A child's events reach the page while it is the client and its disconnect is not in. */
  predicate Delivered(t: Remote, o: Order) {
    o.Event? ==>
      match o.ev
      case Up(src) => Runs.FromLiveChild(t.child, src)
      case Dropped(src) => Runs.FromLiveChild(t.child, src)
      case Errored(src) => t.child.client.Some? && t.child.client.value.id == src
      case _ => true
  }

  predicate LiveRun(t: Remote, turns: seq<Turn>)
    decreases |turns|
  {
    turns != [] ==> Delivered(t, turns[0].order) && LiveRun(Obey(t, turns[0].world, turns[0].order), turns[1..])
  }

  /** The connected flag is the child's, and no show is lost: a wanted, connected,
      unsuppressed popup is up or will be at layout. A new child starts as not connected. */
  predicate Live(t: Remote) {
    Runs.Truthful(PopupOf(t)) && Runs.Complete(PopupOf(t))
  }

  lemma StartedLive(t: Remote, w: World, saved: bool)
    requires Live(t)
    ensures Live(StartConnection(t, w, saved))
  {}

  lemma StepLive(t: Remote, w: World, ev: RemoteEvent)
    requires Live(t) && Delivered(t, Event(ev))
    ensures Live(Step(t, w, ev))
  {
    hide StartConnection;
    match ev
    case Arrived(saved) => StartedLive(t.(loaded := true), w, saved);
    case ActionClick(saved) => StartedLive(TearDownClient(t.(hadError := false)), w, saved);
    case SettingsChanged(saved) => StartedLive(TearDownClient(t.(hadError := false)), w, saved);
    case _ =>
  }

  lemma ObeyLive(t: Remote, w: World, o: Order)
    requires Live(t) && Delivered(t, o)
    ensures Live(Obey(t, w, o))
  {
    hide Step, Delivered;
    if o.Event? { StepLive(t, w, o.ev); }
  }

  lemma {:induction false} LiveRunStaysLive(t: Remote, turns: seq<Turn>)
    requires Live(t) && LiveRun(t, turns)
    ensures Live(Run(t, turns))
    decreases |turns|
  {
    hide Obey, Live, Delivered;
    if turns != [] {
      ObeyLive(t, turns[0].world, turns[0].order);
      LiveRunStaysLive(Obey(t, turns[0].world, turns[0].order), turns[1..]);
    }
  }

  /** A child can be started and connected. */
  predicate CanStart(t: Remote, w: World, saved: bool) {
    t.child.window != 0 && saved && w.exePresent && w.launchOk
  }

  /** The events of its own that bring the popup on screen, with what each needs. */
  predicate Appears(t: Remote, w: World, ev: RemoteEvent) {
    match ev
    case Arrived(saved) =>
      && !t.loaded && (t.child.client.Some? || (t.autoConnect && CanStart(t, w, saved)))
      && Runs.Ready(t.gate) && t.gate.deferredShow
    case LaidOut => t.child.client.Some? && Runs.Ready(t.gate) && t.gate.deferredShow
    case Up(_) => t.child.client.Some? && t.gate.wantsVisible && !t.gate.suppressed
    case _ => false
  }

  lemma AppearsExactly(t: Remote, w: World, ev: RemoteEvent)
    requires !Runs.OnScreen(PopupOf(t))
    ensures Runs.OnScreen(PopupOf(Step(t, w, ev))) <==> Appears(t, w, ev)
  {}

  lemma StartedKeepsOrders(t: Remote, w: World, saved: bool)
    ensures Runs.SameOrders(PopupOf(t), PopupOf(StartConnection(t, w, saved)))
  {}

  /** What the window asked for, no event of the page's own changes. */
  lemma OwnEventKeepsOrders(t: Remote, w: World, ev: RemoteEvent)
    ensures Runs.SameOrders(PopupOf(t), PopupOf(Step(t, w, ev)))
  {
    hide StartConnection;
    match ev
    case Arrived(saved) => StartedKeepsOrders(t.(loaded := true), w, saved);
    case ActionClick(saved) => StartedKeepsOrders(TearDownClient(t.(hadError := false)), w, saved);
    case SettingsChanged(saved) => StartedKeepsOrders(TearDownClient(t.(hadError := false)), w, saved);
    case _ =>
  }

  /** The button starts a child exactly when the page has a window, the host is still saved,
      the program is there and the launch works; otherwise none is left. */
  lemma ActionStartsChild(t: Remote, w: World, saved: bool)
    ensures var t' := OnActionClick(t, w, saved);
            && (t'.child.client.Some? <==> t.child.window != 0 && saved && w.exePresent && w.launchOk)
            && (t'.child.client.Some? ==> t'.child.client.value.id == t.child.spawned && !t'.child.client.value.up)
            && t'.hadError == (t.child.window != 0 && !(saved && w.exePresent && w.launchOk))
            && (t.child.client.Some? ==> !t'.gate.connected)
  {}
}
