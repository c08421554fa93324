/** No show is lost: over every run in which children's events come from the live child, the
    selected tab's connected popup is on screen, or waits only for layout. */
module PopupCompleteness {
  import opened Wrappers
  import opened Strips
  import opened Desktop
  import opened DesktopRuns
  import opened DesktopCloses
  import opened PopupSafety
  import opened PopupPending
  import RemoteTab
  import VmTab
  import Runs = VmTabRuns

  // ---- live pages ------------------------------------------------------------

  predicate PageLive(p: Page, now: nat) {
    match p
    case VmPage(_, tab) => Runs.Live(tab, now)
    case RemotePage(_, remote) => RemoteTab.Live(remote)
    case _ => true
  }

  ghost predicate AllLive(d: Desk, now: nat) {
    forall t | t in d.pages :: PageLive(d.pages[t], now)
  }

  lemma VmOrdersLive(t: VmTab.Tab, now: nat, world: VmTab.World, on: bool, win: WinId)
    requires Runs.Live(t, now) && now <= world.now
    ensures Runs.Live(t, world.now)
    ensures Runs.Live(VmTab.ShowPopup(t, world), world.now) && Runs.Live(VmTab.HidePopup(t), world.now)
    ensures Runs.Live(VmTab.SetPopupSuppressed(t, world, on), world.now) && Runs.Live(VmTab.SetWindow(t, win), world.now)
  {
    Runs.StepLive(t, now, world, VmTab.Show);
    Runs.StepLive(t, now, world, VmTab.Hide);
    Runs.StepLive(t, now, world, VmTab.Suppress(on));
    Runs.StepLive(t, now, world, VmTab.SetHwnd(win));
    hide VmTab.Raise, VmTab.Lower, VmTab.Mute, VmTab.Own;
  }

  lemma RemoteOrdersLive(t: RemoteTab.Remote, world: VmTab.World, on: bool, win: WinId)
    requires RemoteTab.Live(t)
    ensures RemoteTab.Live(RemoteTab.ShowPopup(t, world)) && RemoteTab.Live(RemoteTab.HidePopup(t))
    ensures RemoteTab.Live(RemoteTab.SetPopupSuppressed(t, world, on)) && RemoteTab.Live(RemoteTab.SetWindow(t, win))
  {
    RemoteTab.ObeyLive(t, world, RemoteTab.Show);
    RemoteTab.ObeyLive(t, world, RemoteTab.Hide);
    RemoteTab.ObeyLive(t, world, RemoteTab.Suppress(on));
    RemoteTab.ObeyLive(t, world, RemoteTab.SetHwnd(win));
  }

  /** What a window asks of a page leaves it live. */
  lemma OrdersLive(p: Page, now: nat, world: VmTab.World, active: bool, on: bool, win: WinId)
    requires PageLive(p, now) && now <= world.now
    ensures PageLive(p, world.now) && PageLive(Focus(p, active, world), world.now)
    ensures PageLive(Suppress(p, on, world), world.now) && PageLive(Rehome(p, win), world.now)
  {
    hide Runs.Live, RemoteTab.Live, VmTab.ShowPopup, VmTab.HidePopup, VmTab.SetPopupSuppressed, VmTab.SetWindow,
      RemoteTab.ShowPopup, RemoteTab.HidePopup, RemoteTab.SetPopupSuppressed, RemoteTab.SetWindow;
    match p
    case VmPage(_, tab) => VmOrdersLive(tab, now, world, on, win);
    case RemotePage(_, remote) => RemoteOrdersLive(remote, world, on, win);
    case _ =>
  }

  lemma NewPageLive(win: WinId, guid: string, address: string, autoConnect: bool, now: nat)
    ensures PageLive(NewVmPage(win, guid), now) && PageLive(NewRemotePage(win, address, autoConnect), now)
  {}

  // ---- windows keep pages live -----------------------------------------------

  lemma SelectLive(d: Desk, win: WinId, t: Option<TabId>, world: VmTab.World)
    requires AllLive(d, world.now) && win in d.windows
    ensures AllLive(Select(d, win, t, world), world.now)
  {
    forall u, active: bool | u in d.pages ensures PageLive(Focus(d.pages[u], active, world), world.now) {
      OrdersLive(d.pages[u], world.now, world, active, false, 0);
    }
    hide PageLive, Focus;
  }

  lemma DetachLive(d: Desk, win: WinId, t: TabId, prefer: seq<TabId>, world: VmTab.World)
    requires AllLive(d, world.now) && win in d.windows
    ensures AllLive(Detach(d, win, t, prefer, world), world.now)
  {
    hide Select, PageLive;
    var strip := Remove(d.windows[win].strip, t);
    SelectLive(d.(windows := d.windows[win := d.windows[win].(strip := strip)]), win, Pick(strip, prefer), world);
  }

  lemma AddTabLive(d: Desk, win: WinId, page: Page, world: VmTab.World)
    requires AllLive(d, world.now) && win in d.windows && PageLive(page, world.now)
    ensures AllLive(AddTab(d, win, page, world), world.now)
  {
    hide Select, PageLive;
    var d' := d.(pages := d.pages[d.nextTab := page], nextTab := d.nextTab + 1);
    SelectLive(Attach(d', win, d.nextTab, -1), win, Some(d.nextTab), world);
  }

  lemma OpenLive(d: Desk, win: WinId, q: Query, page: Page, world: VmTab.World)
    requires AllLive(d, world.now) && win in d.windows && PageLive(page, world.now)
    ensures AllLive(OpenOrFocus(d, win, q, page, world), world.now)
  {
    hide Select, AddTab, AllLive;
    SelectLive(d, win, Find(d.windows[win].strip, d.pages, q, None), world);
    AddTabLive(d, win, page, world);
  }

  lemma CloseItemLive(d: Desk, win: WinId, t: TabId, prefer: seq<TabId>, world: VmTab.World)
    requires AllLive(d, world.now) && win in d.windows
    ensures AllLive(CloseTabItem(d, win, t, prefer, world), world.now)
  {
    var d' := Detach(DropPage(d, t), win, t, prefer, world);
    DetachLive(DropPage(d, t), win, t, prefer, world);
    assert PageLive(WelcomePage, world.now);
    hide Detach, AddTab, PageLive;
    if win in d'.windows { AddTabLive(d', win, WelcomePage, world); }
  }

  lemma {:induction false} CloseAllLive(d: Desk, win: WinId, items: seq<TabId>, prefer: seq<TabId>, world: VmTab.World)
    requires AllLive(d, world.now)
    ensures AllLive(CloseAll(d, win, items, prefer, world), world.now)
    decreases |items|
  {
    hide CloseTabItem, AllLive;
    if items != [] && win in d.windows {
      CloseItemLive(d, win, items[0], prefer, world);
      CloseAllLive(CloseTabItem(d, win, items[0], prefer, world), win, items[1..], prefer, world);
    }
  }

  lemma AdoptLive(d: Desk, win: WinId, t: TabId, prefer: seq<TabId>, world: VmTab.World)
    requires AllLive(d, world.now) && win in d.windows
    ensures AllLive(AdoptMovedTab(d, win, t, prefer, world), world.now)
  {
    if t in d.pages { OrdersLive(d.pages[t], world.now, world, false, false, win); }
    hide PageLive, Select, CloseTabItem, Rehome, Find;
    var d' := if t in d.pages then d.(pages := d.pages[t := Rehome(d.pages[t], win)]) else d;
    assert AllLive(d', world.now);
    hide AllLive;
    var other := Find(d.windows[win].strip, d.pages, ForSettings, Some(t));
    if other.Some? {
      CloseItemLive(d', win, other.value, prefer, world);
      var d2 := CloseTabItem(d', win, other.value, prefer, world);
      if win in d2.windows { SelectLive(d2, win, Some(t), world); }
    }
    SelectLive(d', win, Some(t), world);
  }

  lemma SourceLive(d: Desk, win: WinId, world: VmTab.World)
    requires AllLive(d, world.now) && win in d.windows
    ensures AllLive(HandleSourceAfterDetach(d, win, world), world.now)
  {
    assert PageLive(WelcomePage, world.now);
    hide AddTab, PageLive;
    AddTabLive(d, win, WelcomePage, world);
  }

  lemma MoveLive(d: Desk, src: WinId, dest: WinId, t: TabId, index: int, prefer: seq<TabId>, world: VmTab.World)
    requires AllLive(d, world.now) && src in d.windows && dest in d.windows
    ensures AllLive(MoveTab(d, src, dest, t, index, prefer, world), world.now)
  {
    if src != dest {
      var d0 := Detach(d, src, t, prefer, world);
      DetachLive(d, src, t, prefer, world);
      hide PageLive, Detach, AdoptMovedTab, HandleSourceAfterDetach;
      var d1 := Attach(d0, dest, t, index);
      assert AllLive(d1, world.now);
      hide AllLive, Attach;
      AdoptLive(d1, dest, t, prefer, world);
      var d2 := AdoptMovedTab(d1, dest, t, prefer, world);
      if src in d2.windows { SourceLive(d2, src, world); }
    }
  }

  lemma TearLive(d: Desk, src: WinId, t: TabId, prefer: seq<TabId>, world: VmTab.World)
    requires AllLive(d, world.now) && src in d.windows
    ensures AllLive(TearOut(d, src, t, prefer, world), world.now)
  {
    if |d.windows[src].strip| > 1 {
      var d' := Detach(d, src, t, prefer, world);
      DetachLive(d, src, t, prefer, world);
      hide PageLive, Detach, HandleSourceAfterDetach;
      SourceLive(d'.(windows := d'.windows[d.nextWin := Window(false, [], None, Some(t), 0)], nextWin := d.nextWin + 1),
                 src, world);
    }
  }

  lemma ActivateLive(d: Desk, win: WinId, prefer: seq<TabId>, world: VmTab.World)
    requires AllLive(d, world.now) && win in d.windows
    ensures AllLive(Activate(d, win, prefer, world), world.now)
  {
    var w := d.windows[win];
    if w.pending.Some? {
      hide PageLive, AdoptMovedTab;
      var d' := d.(windows := d.windows[win := w.(pending := None)]);
      AdoptLive(Attach(d', win, w.pending.value, -1), win, w.pending.value, prefer, world);
    }
  }

  lemma ReplaceLive(d: Desk, win: WinId, t: TabId, guid: string, prefer: seq<TabId>, world: VmTab.World)
    requires AllLive(d, world.now) && win in d.windows
    ensures AllLive(ReplaceTabWith(d, win, t, guid, prefer, world), world.now)
  {
    var d1 := OpenVmTab(d, win, guid, world);
    assert win in d1.windows;
    hide AllLive, OpenOrFocus, CloseTabItem, Select, NewVmPage, Find, PageLive;
    NewPageLive(win, guid, "", false, world.now);
    OpenLive(d, win, ForVm(guid), NewVmPage(win, guid), world);
    var target := Find(d1.windows[win].strip, d1.pages, ForVm(guid), None);
    CloseItemLive(d1, win, t, prefer, world);
    var d2 := CloseTabItem(d1, win, t, prefer, world);
    if win in d2.windows { SelectLive(d2, win, target, world); }
  }

  lemma SuppressLive(d: Desk, win: WinId, on: bool, world: VmTab.World)
    requires AllLive(d, world.now) && win in d.windows
    ensures AllLive(SuppressAll(d, win, on, world), world.now)
  {
    forall u | u in d.pages ensures PageLive(Suppress(d.pages[u], on, world), world.now) {
      OrdersLive(d.pages[u], world.now, world, false, on, 0);
    }
    hide PageLive, Suppress;
  }

  lemma PushPopLive(d: Desk, win: WinId, world: VmTab.World)
    requires AllLive(d, world.now) && win in d.windows
    ensures AllLive(PushPopupSuppression(d, win, world), world.now)
    ensures AllLive(PopPopupSuppression(d, win, world), world.now)
  {
    hide PageLive, SuppressAll;
    SuppressLive(SetDepth(d, win, d.windows[win].depth + 1), win, true, world);
    SuppressLive(SetDepth(d, win, 0), win, false, world);
  }

  // ---- every run -------------------------------------------------------------

  /** A child's event comes from the live child. */
  predicate Genuine(d: Desk, a: Action) {
    && (a.Session? && a.t in d.pages && d.pages[a.t].VmPage? ==> Runs.Delivered(d.pages[a.t].tab, a.ev))
    && (a.RemoteSession? && a.t in d.pages && d.pages[a.t].RemotePage? ==>
          RemoteTab.Delivered(d.pages[a.t].remote, RemoteTab.Event(a.rev)))
  }

  lemma SessionLive(d: Desk, a: Action, now: nat, world: VmTab.World)
    requires AllLive(d, now) && now <= world.now && Genuine(d, a) && (a.Session? || a.RemoteSession?)
    ensures Possible(d, a) && AllLive(Do(d, a, world), world.now)
  {
    AgeLive(d, now, world);
    if a.Session? && a.t in d.pages && d.pages[a.t].VmPage? {
      Runs.StepLive(d.pages[a.t].tab, now, world, a.ev);
    }
    if a.RemoteSession? && a.t in d.pages && d.pages[a.t].RemotePage? {
      RemoteTab.StepLive(d.pages[a.t].remote, world, a.rev);
    }
    hide Runs.Live, RemoteTab.Live, VmTab.Step, RemoteTab.Step;
  }

  /** Time alone makes no page less live. */
  lemma AgeLive(d: Desk, now: nat, world: VmTab.World)
    requires AllLive(d, now) && now <= world.now
    ensures AllLive(d, world.now)
  {
    forall t | t in d.pages ensures PageLive(d.pages[t], world.now) {
      OrdersLive(d.pages[t], now, world, false, false, 0);
    }
    hide PageLive;
  }

  lemma DoLive(d: Desk, a: Action, now: nat, world: VmTab.World)
    requires AllLive(d, now) && now <= world.now && Possible(d, a) && Genuine(d, a)
    ensures AllLive(Do(d, a, world), world.now)
  {
    AgeLive(d, now, world);
    if a.Session? || a.RemoteSession? {
      hide AllLive, Do;
      SessionLive(d, a, now, world);
    } else if IsOpening(a) {
      hide Do;
      OpeningLive(d, a, world);
    } else {
      hide Do;
      OtherLive(d, a, world);
    }
  }

  lemma OpeningLive(d: Desk, a: Action, world: VmTab.World)
    requires AllLive(d, world.now) && Possible(d, a) && IsOpening(a)
    ensures AllLive(Do(d, a, world), world.now)
  {
    hide AllLive, OpenOrFocus, ReplaceTabWith, AddTab, NewVmPage, NewRemotePage;
    match a
    case OpenVm(win, guid) =>
      NewPageLive(win, guid, "", false, world.now);
      OpenLive(d, win, ForVm(guid), NewVmPage(win, guid), world);
    case OpenRemote(win, address, autoConnect) =>
      NewPageLive(win, "", address, autoConnect, world.now);
      OpenLive(d, win, ForRemote(address), NewRemotePage(win, address, autoConnect), world);
    case OpenWelcome(win) => AddTabLive(d, win, WelcomePage, world);
    case OpenSettings(win) => OpenLive(d, win, ForSettings, SettingsPage, world);
    case Replace(win, t, guid, prefer) => ReplaceLive(d, win, t, guid, prefer, world);
    case _ =>
  }

  lemma OtherLive(d: Desk, a: Action, world: VmTab.World)
    requires AllLive(d, world.now) && Possible(d, a) && !IsOpening(a) && !a.Session? && !a.RemoteSession?
    ensures AllLive(Do(d, a, world), world.now)
  {
    hide PageLive, Select, CloseTabItem, CloseAll, MoveTab, TearOut, Activate, PushPopupSuppression, PopPopupSuppression;
    match a
    case SelectTab(win, t) => SelectLive(d, win, Some(t), world);
    case CloseTab(win, t, prefer) => CloseItemLive(d, win, t, prefer, world);
    case CloseWin(win) =>
    case Move(src, win, t, index, prefer) => MoveLive(d, src, win, t, index, prefer, world);
    case Tear(win, t, prefer) => TearLive(d, win, t, prefer, world);
    case Activated(win, prefer) => ActivateLive(d, win, prefer, world);
    case Polled(win, known, prefer) =>
      CloseAllLive(d, win, Deleted(d.windows[win].strip, d.pages, known), prefer, world);
    case Push(win) => PushPopLive(d, win, world);
    case Pop(win) => PushPopLive(d, win, world);
    case Reordered(win, strip) =>
    case _ =>
  }

  /** The clock is steady, and children's events come from live children. */
  predicate GenuineRun(d: Desk, now: nat, turns: seq<Turn>)
    decreases |turns|
  {
    turns == [] ||
    var a, world := turns[0].action, turns[0].world;
    && now <= world.now && Genuine(d, a)
    && GenuineRun(if Possible(d, a) then Do(d, a, world) else d, world.now, turns[1..])
  }

  function Clock(now: nat, turns: seq<Turn>): nat {
    if turns == [] then now else turns[|turns| - 1].world.now
  }

  lemma {:induction false} PlayLive(d: Desk, now: nat, turns: seq<Turn>)
    requires AllLive(d, now) && GenuineRun(d, now, turns)
    ensures AllLive(Play(d, turns), Clock(now, turns))
    decreases |turns|
  {
    hide AllLive, Do, Possible, Genuine;
    if turns != [] {
      var a, world := turns[0].action, turns[0].world;
      AgeLive(d, now, world);
      if Possible(d, a) { DoLive(d, a, now, world); }
      PlayLive(if Possible(d, a) then Do(d, a, world) else d, world.now, turns[1..]);
    }
  }

  /** The selected tab of a window without dialog, its session up, has its popup on screen,
      or shows it as soon as it is laid out. */
  ghost predicate NoShowLost(d: Desk) {
    forall w | w in d.windows && d.windows[w].depth == 0 && d.windows[w].selected.Some? ::
      SelectedShows(d, d.windows[w].selected.value)
  }

  predicate SelectedShows(d: Desk, t: TabId) {
    t in d.pages ==>
      match d.pages[t]
      case VmPage(_, tab) => ShownOrDeferred(tab.child, tab.gate)
      case RemotePage(_, remote) => ShownOrDeferred(remote.child, remote.gate)
      case _ => true
  }

  predicate ShownOrDeferred(child: VmTab.Child, gate: VmTab.Gate) {
    child.client.Some? && child.client.value.up ==> child.client.value.shown || gate.deferredShow
  }

  lemma LiveShows(d: Desk, now: nat)
    requires Inv(d) && Sync(d) && AllLive(d, now)
    ensures NoShowLost(d)
  {
    assert SelectionOk(d, None) && PopupsFit(d, None);
    hide Homed, OneSettings, Manned, TabsValid, Runs.PromptRetry, Runs.BackedOff;
    forall w | w in d.windows && d.windows[w].depth == 0 && d.windows[w].selected.Some?
      ensures SelectedShows(d, d.windows[w].selected.value)
    {
      var t := d.windows[w].selected.value;
      assert Holds(d, w, t);
      if t in d.pages {
        assert Fits(d.pages[t], w, true) && Agrees(d.pages[t], 0) && PageLive(d.pages[t], now);
      }
    }
  }

  /** Popup completeness over every calm, genuine run. */
  lemma PlayShows(d: Desk, now: nat, turns: seq<Turn>)
    requires Inv(d) && Sync(d) && CalmRun(d, turns) && AllLive(d, now) && GenuineRun(d, now, turns)
    ensures NoShowLost(Play(d, turns))
  {
    hide Inv, Sync, AllLive, CalmRun, GenuineRun, NoShowLost;
    PlayObeys(d, turns);
    PlayLive(d, now, turns);
    LiveShows(Play(d, turns), Clock(now, turns));
  }

  /** At launch no tab waits to be adopted. */
  lemma LaunchHeld(world: VmTab.World)
    ensures HeldObey(OpenWelcomeTab(Launch(), 1, world))
  {
    var d := OpenWelcomeTab(Launch(), 1, world);
    AddTabShape(Launch(), 1, WelcomePage, world);
    hide Inv, Sync, StripSync, AddTab, HeldObey, PopupsObey, OnScreen;
    LaunchInv(world);
    SyncStrips(d);
    InvObeys(d);
    HeldObeyExactly(d);
    assert forall w, t :: !Waits(d, w, t);
  }

  /** The program's popups, from launch on: over every calm, genuine run they are shown only
      where they may be, and where they should be none is lost. If the run is discreet too,
      that holds for the tabs between two windows as well. */
  lemma FromLaunch(world: VmTab.World, turns: seq<Turn>)
    requires var d := OpenWelcomeTab(Launch(), 1, world); CalmRun(d, turns) && GenuineRun(d, world.now, turns)
    ensures var d := Play(OpenWelcomeTab(Launch(), 1, world), turns); Inv(d) && PopupsObey(d) && NoShowLost(d)
    ensures DiscreetRun(OpenWelcomeTab(Launch(), 1, world), turns) ==>
              HeldObey(Play(OpenWelcomeTab(Launch(), 1, world), turns))
  {
    var d := OpenWelcomeTab(Launch(), 1, world);
    assert AllLive(Launch(), world.now) && PageLive(WelcomePage, world.now);
    hide Inv, Sync, AllLive, CalmRun, GenuineRun, NoShowLost, PopupsObey, AddTab, PageLive, HeldObey, DiscreetRun;
    LaunchInv(world);
    LaunchHeld(world);
    AddTabLive(Launch(), 1, WelcomePage, world);
    PlayObeys(d, turns);
    PlayShows(d, world.now, turns);
    if DiscreetRun(d, turns) { PlayHeldObeys(d, turns); }
  }
}
