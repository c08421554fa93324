/** The popup of a tab torn out into a window that has not been activated yet. */
module PopupPending {
  import opened Wrappers
  import opened Strips
  import opened Desktop
  import opened DesktopRuns
  import opened DesktopMoves
  import opened DesktopCloses
  import opened DesktopSafety
  import opened PopupSafety
  import VmTab
  import RemoteTab
  import Runs = VmTabRuns

  // ---- a tab outside every strip is left alone ---------------------------------

  /** The tab, if one is meant, is in no strip. */
  predicate Out(d: Desk, t: Option<TabId>) {
    t.Some? ==> t.value < d.nextTab && forall w | w in d.windows :: t.value !in d.windows[w].strip
  }

  /** The windows that are left await what they awaited. */
  ghost predicate SamePending(d: Desk, d': Desk) {
    && d'.nextWin == d.nextWin
    && forall w | w in d'.windows :: w in d.windows && d'.windows[w].pending == d.windows[w].pending
  }

  /** The tab is still outside, and its page, if not dropped, is the same. */
  ghost predicate LeftOut(d: Desk, d': Desk, t: Option<TabId>) {
    && Out(d', t) && SamePending(d, d')
    && (t.Some? && t.value in d'.pages ==> t.value in d.pages && d'.pages[t.value] == d.pages[t.value])
  }

  lemma SelectLeaves(d: Desk, win: WinId, u: Option<TabId>, t: Option<TabId>, world: VmTab.World)
    requires Out(d, t) && win in d.windows
    ensures LeftOut(d, Select(d, win, u, world), t)
  {}

  lemma {:induction false} RemoveLeaves(s: seq<TabId>, x: TabId, t: TabId)
    requires t !in s
    ensures t !in Remove(s, x)
  {
    if s != [] { RemoveLeaves(s[1..], x, t); }
  }

  lemma DetachLeaves(d: Desk, win: WinId, u: TabId, t: Option<TabId>, prefer: seq<TabId>, world: VmTab.World)
    requires Out(d, t) && win in d.windows
    ensures LeftOut(d, Detach(d, win, u, prefer, world), t)
  {
    var w := d.windows[win];
    if t.Some? { RemoveLeaves(w.strip, u, t.value); }
    var d1 := d.(windows := d.windows[win := w.(strip := Remove(w.strip, u))]);
    hide Select;
    SelectLeaves(d1, win, Pick(d1.windows[win].strip, prefer), t, world);
  }

  lemma AddTabLeaves(d: Desk, win: WinId, page: Page, t: Option<TabId>, world: VmTab.World)
    requires Out(d, t) && win in d.windows
    ensures LeftOut(d, AddTab(d, win, page, world), t)
  {
    var d1 := Attach(d.(pages := d.pages[d.nextTab := page], nextTab := d.nextTab + 1), win, d.nextTab, -1);
    hide Select;
    SelectLeaves(d1, win, Some(d.nextTab), t, world);
  }

  lemma OpenLeaves(d: Desk, win: WinId, q: Query, page: Page, t: Option<TabId>, world: VmTab.World)
    requires Out(d, t) && win in d.windows
    ensures LeftOut(d, OpenOrFocus(d, win, q, page, world), t)
  {
    hide Select, AddTab, LeftOut;
    SelectLeaves(d, win, Find(d.windows[win].strip, d.pages, q, None), t, world);
    AddTabLeaves(d, win, page, t, world);
  }

  lemma LeftTrans(d: Desk, d1: Desk, d2: Desk, t: Option<TabId>)
    requires LeftOut(d, d1, t) && LeftOut(d1, d2, t)
    ensures LeftOut(d, d2, t)
  {}

  lemma CloseWindowLeaves(d: Desk, win: WinId, t: Option<TabId>)
    requires Out(d, t) && win in d.windows
    ensures LeftOut(d, CloseWindow(d, win), t)
  {}

  lemma CloseItemLeaves(d: Desk, win: WinId, u: TabId, t: Option<TabId>, prefer: seq<TabId>, world: VmTab.World)
    requires Out(d, t) && win in d.windows && Some(u) != t
    ensures LeftOut(d, CloseTabItem(d, win, u, prefer, world), t)
  {
    var d0 := DropPage(d, u);
    assert LeftOut(d, d0, t);
    var d1 := Detach(d0, win, u, prefer, world);
    assert d1.windows.Keys == d0.windows.Keys;
    hide Detach, DropPage, AddTab, CloseWindow, LeftOut;
    DetachLeaves(d0, win, u, t, prefer, world);
    LeftTrans(d, d0, d1, t);
    LeftIsOut(d0, d1, t);
    AddTabLeaves(d1, win, WelcomePage, t, world);
    CloseWindowLeaves(d1, win, t);
    LeftTrans(d, d1, AddTab(d1, win, WelcomePage, world), t);
    LeftTrans(d, d1, CloseWindow(d1, win), t);
  }

  lemma LeftIsOut(d: Desk, d': Desk, t: Option<TabId>)
    requires LeftOut(d, d', t)
    ensures Out(d', t)
  {}

  lemma {:induction false} CloseAllLeaves(d: Desk, win: WinId, items: seq<TabId>, t: Option<TabId>, prefer: seq<TabId>,
                                          world: VmTab.World)
    requires Out(d, t) && (t.Some? ==> t.value !in items)
    ensures LeftOut(d, CloseAll(d, win, items, prefer, world), t)
    decreases |items|
  {
    if items != [] && win in d.windows {
      var d1 := CloseTabItem(d, win, items[0], prefer, world);
      hide CloseTabItem;
      CloseItemLeaves(d, win, items[0], t, prefer, world);
      CloseAllLeaves(d1, win, items[1..], t, prefer, world);
      LeftTrans(d, d1, CloseAll(d1, win, items[1..], prefer, world), t);
    }
  }

  lemma ReplaceLeaves(d: Desk, win: WinId, u: TabId, guid: string, t: Option<TabId>, prefer: seq<TabId>,
                      world: VmTab.World)
    requires Out(d, t) && win in d.windows && Some(u) != t
    ensures LeftOut(d, ReplaceTabWith(d, win, u, guid, prefer, world), t)
  {
    var d1 := OpenVmTab(d, win, guid, world);
    assert win in d1.windows;
    var target := Find(d1.windows[win].strip, d1.pages, ForVm(guid), None);
    var d2 := CloseTabItem(d1, win, u, prefer, world);
    hide OpenOrFocus, CloseTabItem, Select, LeftOut, NewVmPage, Find;
    OpenLeaves(d, win, ForVm(guid), NewVmPage(win, guid), t, world);
    LeftIsOut(d, d1, t);
    CloseItemLeaves(d1, win, u, t, prefer, world);
    LeftTrans(d, d1, d2, t);
    LeftIsOut(d, d2, t);
    if win in d2.windows {
      SelectLeaves(d2, win, target, t, world);
      LeftTrans(d, d2, Select(d2, win, target, world), t);
    }
  }

  lemma AdoptLeaves(d: Desk, win: WinId, u: TabId, t: Option<TabId>, prefer: seq<TabId>, world: VmTab.World)
    requires Out(d, t) && win in d.windows && Some(u) != t
    ensures LeftOut(d, AdoptMovedTab(d, win, u, prefer, world), t)
  {
    var d1 := if u in d.pages then d.(pages := d.pages[u := Rehome(d.pages[u], win)]) else d;
    assert LeftOut(d, d1, t);
    var other := Find(d.windows[win].strip, d.pages, ForSettings, Some(u));
    hide CloseTabItem, Select, LeftOut, Rehome, Find;
    if other.Some? {
      CloseItemLeaves(d1, win, other.value, t, prefer, world);
      LeftTrans(d, d1, CloseTabItem(d1, win, other.value, prefer, world), t);
    }
    var d2 := if u in d.pages && d.pages[u].SettingsPage? && other.Some?
    then CloseTabItem(d1, win, other.value, prefer, world) else d1;
    LeftIsOut(d, d2, t);
    if win in d2.windows {
      SelectLeaves(d2, win, Some(u), t, world);
      LeftTrans(d, d2, Select(d2, win, Some(u), world), t);
    }
  }

  lemma AttachLeaves(d: Desk, win: WinId, u: TabId, index: int, t: Option<TabId>)
    requires Out(d, t) && win in d.windows && Some(u) != t
    ensures LeftOut(d, Attach(d, win, u, index), t)
  {}

  lemma SettleLeaves(d: Desk, win: WinId, t: Option<TabId>, world: VmTab.World)
    requires Out(d, t) && win in d.windows
    ensures LeftOut(d, HandleSourceAfterDetach(d, win, world), t)
  {
    hide AddTab, CloseWindow;
    AddTabLeaves(d, win, WelcomePage, t, world);
    CloseWindowLeaves(d, win, t);
  }

  lemma MoveLeaves(d: Desk, src: WinId, dest: WinId, u: TabId, index: int, t: Option<TabId>, prefer: seq<TabId>,
                   world: VmTab.World)
    requires Out(d, t) && src in d.windows && dest in d.windows && Some(u) != t
    ensures LeftOut(d, MoveTab(d, src, dest, u, index, prefer, world), t)
  {
    if src != dest {
      var d0 := Detach(d, src, u, prefer, world);
      assert d0.windows.Keys == d.windows.Keys;
      var d1 := Attach(d0, dest, u, index);
      var d2 := AdoptMovedTab(d1, dest, u, prefer, world);
      assert dest in d1.windows;
      hide Detach, Attach, AdoptMovedTab, LeftOut, HandleSourceAfterDetach;
      DetachLeaves(d, src, u, t, prefer, world);
      LeftIsOut(d, d0, t);
      AttachLeaves(d0, dest, u, index, t);
      LeftTrans(d, d0, d1, t);
      LeftIsOut(d, d1, t);
      AdoptLeaves(d1, dest, u, t, prefer, world);
      LeftTrans(d, d1, d2, t);
      LeftIsOut(d, d2, t);
      if src in d2.windows {
        SettleLeaves(d2, src, t, world);
        LeftTrans(d, d2, HandleSourceAfterDetach(d2, src, world), t);
      }
    }
  }

  lemma SuppressLeaves(d: Desk, win: WinId, depth: nat, on: bool, t: Option<TabId>, world: VmTab.World)
    requires Out(d, t) && win in d.windows
    ensures LeftOut(d, SetDepth(d, win, depth), t) && LeftOut(d, SuppressAll(SetDepth(d, win, depth), win, on, world), t)
  {}

  lemma PushPopLeaves(d: Desk, win: WinId, t: Option<TabId>, world: VmTab.World)
    requires Out(d, t) && win in d.windows
    ensures LeftOut(d, PushPopupSuppression(d, win, world), t) && LeftOut(d, PopPopupSuppression(d, win, world), t)
  {
    var depth := d.windows[win].depth;
    SuppressLeaves(d, win, depth + 1, true, t, world);
    if depth > 0 { SuppressLeaves(d, win, depth - 1, false, t, world); }
    hide SuppressAll;
  }

  lemma ReorderLeaves(d: Desk, win: WinId, strip: seq<TabId>, t: Option<TabId>)
    requires Out(d, t) && win in d.windows
    ensures LeftOut(d, Reorder(d, win, strip), t)
  {
    if multiset(strip) == multiset(d.windows[win].strip) {
      forall u ensures u in strip <==> u in d.windows[win].strip {
        assert u in multiset(strip) <==> u in multiset(d.windows[win].strip);
      }
    }
  }

  lemma EventLeaves(d: Desk, a: Action, t: Option<TabId>, world: VmTab.World)
    requires Out(d, t) && (a.Session? || a.RemoteSession?) && Some(a.t) != t
    ensures Possible(d, a) && LeftOut(d, Do(d, a, world), t)
  {
    hide VmTab.Step, RemoteTab.Step;
  }

  lemma OpenActionLeaves(d: Desk, a: Action, t: Option<TabId>, world: VmTab.World)
    requires Out(d, t) && Possible(d, a) && IsOpening(a)
    ensures LeftOut(d, Do(d, a, world), t)
  {
    hide LeftOut, OpenOrFocus, ReplaceTabWith, AddTab, NewVmPage, NewRemotePage;
    match a
    case OpenVm(win, guid) => OpenLeaves(d, win, ForVm(guid), NewVmPage(win, guid), t, world);
    case OpenRemote(win, address, autoConnect) =>
      if address == "" { LeftSelf(d, t); }
      else { OpenLeaves(d, win, ForRemote(address), NewRemotePage(win, address, autoConnect), t, world); }
    case OpenWelcome(win) => AddTabLeaves(d, win, WelcomePage, t, world);
    case OpenSettings(win) => OpenLeaves(d, win, ForSettings, SettingsPage, t, world);
    case Replace(win, u, guid, prefer) => ReplaceLeaves(d, win, u, guid, t, prefer, world);
    case _ =>
  }

  lemma LeftSelf(d: Desk, t: Option<TabId>)
    requires Out(d, t)
    ensures LeftOut(d, d, t)
  {}

  /** No action of a window reaches a tab outside the strips, unless it makes or adopts one. */
  lemma ActionLeaves(d: Desk, a: Action, t: Option<TabId>, world: VmTab.World)
    requires Inv(d) && Out(d, t) && Possible(d, a) && !a.Tear? && !a.Activated?
    requires a.Session? || a.RemoteSession? ==> Some(a.t) != t
    ensures LeftOut(d, Do(d, a, world), t)
  {
    InvHomed(d);
    hide Inv, Homed, LeftOut, Select, CloseTabItem, CloseWindow, CloseAll, MoveTab, PushPopupSuppression,
      PopPopupSuppression, Reorder;
    if IsOpening(a) {
      hide Do;
      OpenActionLeaves(d, a, t, world);
    } else if a.Session? || a.RemoteSession? {
      hide Do;
      EventLeaves(d, a, t, world);
    } else {
      match a
      case SelectTab(win, u) => SelectLeaves(d, win, Some(u), t, world);
      case CloseTab(win, u, prefer) => CloseItemLeaves(d, win, u, t, prefer, world);
      case CloseWin(win) => CloseWindowLeaves(d, win, t);
      case Move(src, dest, u, index, prefer) => MoveLeaves(d, src, dest, u, index, t, prefer, world);
      case Polled(win, known, prefer) =>
        DeletedMembers(d.windows[win].strip, d.pages, known);
        CloseAllLeaves(d, win, Deleted(d.windows[win].strip, d.pages, known), t, prefer, world);
      case Push(win) => PushPopLeaves(d, win, t, world);
      case Pop(win) => PushPopLeaves(d, win, t, world);
      case Reordered(win, strip) => ReorderLeaves(d, win, strip, t);
      case _ =>
    }
  }

  // ---- tearing out and adopting ------------------------------------------------

  lemma DetachedIsOut(d: Desk, win: WinId, t: TabId, prefer: seq<TabId>, world: VmTab.World)
    requires Homed(d, None) && Shows(d, win, t)
    ensures LeftOut(d.(windows := d.windows[win := d.windows[win].(strip := Remove(d.windows[win].strip, t))]),
                    Detach(d, win, t, prefer, world), Some(t))
  {
    var d1 := d.(windows := d.windows[win := d.windows[win].(strip := Remove(d.windows[win].strip, t))]);
    ShownOnce(d, win, t, None);
    RemoveShown(d, win, t, None);
    assert Out(d1, Some(t));
    hide Select, Homed;
    SelectLeaves(d1, win, Pick(d1.windows[win].strip, prefer), Some(t), world);
  }

  predicate Waits(d: Desk, win: WinId, t: TabId) {
    win in d.windows && d.windows[win].pending == Some(t)
  }

  lemma WaitsOut(d: Desk, win: WinId, t: TabId)
    requires Homed(d, None) && Waits(d, win, t)
    ensures Out(d, Some(t)) && t in d.pages && win < d.nextWin
    ensures forall w | Waits(d, w, t) :: w == win
  {
    assert Holds(d, win, t);
    forall w | w in d.windows ensures t !in d.windows[w].strip {
      if t in d.windows[w].strip { assert Holds(d, w, t); }
    }
    forall w | Waits(d, w, t) ensures w == win { assert Holds(d, w, t); }
  }

  /** Tearing a tab out leaves its page, popup and all, as it was. */
  lemma TornPageSame(d: Desk, src: WinId, t: TabId, prefer: seq<TabId>, world: VmTab.World)
    requires Inv(d) && Shows(d, src, t) && |d.windows[src].strip| > 1
    ensures var d' := TearOut(d, src, t, prefer, world);
            && t in d.pages && t in d'.pages && d'.pages[t] == d.pages[t]
            && Waits(d', d.nextWin, t)
  {
    InvHomed(d);
    TearOutInv(d, src, t, prefer, world);
    hide Inv;
    ShownOnce(d, src, t, None);
    DetachedIsOut(d, src, t, prefer, world);
    hide Homed, Detach, TearOut;
    TearOutPages(d, src, t, prefer, world);
  }

  lemma TearOutPages(d: Desk, src: WinId, t: TabId, prefer: seq<TabId>, world: VmTab.World)
    requires src in d.windows && |d.windows[src].strip| > 1
    requires var d1 := TearOut(d, src, t, prefer, world);
             src in d1.windows && d1.windows[src].strip != [] && d1.pages.Keys == d.pages.Keys
    ensures TearOut(d, src, t, prefer, world).pages == Detach(d, src, t, prefer, world).pages
    ensures TearOut(d, src, t, prefer, world).nextWin == d.nextWin + 1
  {}

  lemma TearLeaves(d: Desk, src: WinId, u: TabId, t: TabId, prefer: seq<TabId>, world: VmTab.World)
    requires Inv(d) && Shows(d, src, u) && |d.windows[src].strip| > 1 && Out(d, Some(t)) && t in d.pages
    ensures var d' := TearOut(d, src, u, prefer, world); t in d'.pages && d'.pages[t] == d.pages[t]
  {
    TearOutInv(d, src, u, prefer, world);
    hide Inv, Homed;
    DetachLeaves(d, src, u, Some(t), prefer, world);
    hide Detach, TearOut;
    TearOutPages(d, src, u, prefer, world);
  }

  lemma AttachWindows(d: Desk, win: WinId, t: TabId, index: int)
    requires win in d.windows
    ensures Attach(d, win, t, index).windows.Keys == d.windows.Keys
  {}

  lemma ActivateLeaves(d: Desk, win: WinId, t: TabId, prefer: seq<TabId>, world: VmTab.World)
    requires Inv(d) && win in d.windows && Out(d, Some(t)) && d.windows[win].pending != Some(t)
    ensures var d' := Activate(d, win, prefer, world);
            Out(d', Some(t)) && (t in d'.pages ==> t in d.pages && d'.pages[t] == d.pages[t])
  {
    var w := d.windows[win];
    if w.pending.Some? {
      var u := w.pending.value;
      var d0 := d.(windows := d.windows[win := w.(pending := None)]);
      assert Out(d0, Some(t));
      hide Inv, Attach, AdoptMovedTab;
      AttachLeaves(d0, win, u, -1, Some(t));
      var d1 := Attach(d0, win, u, -1);
      AttachWindows(d0, win, u, -1);
      AdoptLeaves(d1, win, u, Some(t), prefer, world);
    }
  }

  // ---- what reaches a waiting tab ----------------------------------------------

  /** The action is an event of the tab's own page. */
  predicate Concerns(a: Action, t: TabId) {
    (a.Session? || a.RemoteSession?) && a.t == t
  }

  /** What an action does to a waiting tab: until the first activation of its window or that
      window's end it waits, and nothing but an event of its own changes its page. */
  ghost predicate StillWaits(d: Desk, d': Desk, a: Action, win: WinId, t: TabId) {
    && t in d.pages
    && (!(a.Activated? && a.win == win) ==>
          && (win in d'.windows ==> Waits(d', win, t))
          && (t in d'.pages && !Concerns(a, t) ==> d'.pages[t] == d.pages[t]))
  }

  lemma WaitingIsLeft(d: Desk, a: Action, win: WinId, t: TabId, world: VmTab.World)
    requires Inv(d) && Possible(d, a) && Waits(d, win, t)
    ensures StillWaits(d, Do(d, a, world), a, win, t)
  {
    InvHomed(d);
    WaitsOut(d, win, t);
    DoTears(d, a, world);
    hide Inv, Homed, Do, TearOut, Activate, Out;
    if a.Tear? {
      TearWaits(d, a.win, a.t, win, t, a.prefer, world);
    } else if a.Activated? {
      ActivatedWaits(d, a.win, win, t, a.prefer, world);
    } else if Concerns(a, t) {
      EventWindows(d, a, world);
    } else {
      ActionLeaves(d, a, Some(t), world);
      LeftWaits(d, Do(d, a, world), a, win, t);
    }
  }

  lemma LeftWaits(d: Desk, d': Desk, a: Action, win: WinId, t: TabId)
    requires t in d.pages && Waits(d, win, t) && LeftOut(d, d', Some(t))
    ensures StillWaits(d, d', a, win, t)
  {}

  lemma DoTears(d: Desk, a: Action, world: VmTab.World)
    requires Possible(d, a)
    ensures a.Tear? ==> Do(d, a, world) == TearOut(d, a.win, a.t, a.prefer, world)
    ensures a.Activated? ==> Do(d, a, world) == Activate(d, a.win, a.prefer, world)
  {
    hide TearOut, Activate;
  }

  lemma EventWindows(d: Desk, a: Action, world: VmTab.World)
    requires a.Session? || a.RemoteSession?
    ensures Possible(d, a) && Do(d, a, world).windows == d.windows && Do(d, a, world).pages.Keys == d.pages.Keys
    ensures forall t | t in d.pages && t != a.t :: Do(d, a, world).pages[t] == d.pages[t]
  {
    hide VmTab.Step, RemoteTab.Step;
  }

  lemma TearWaits(d: Desk, src: WinId, u: TabId, win: WinId, t: TabId, prefer: seq<TabId>, world: VmTab.World)
    requires Inv(d) && Shows(d, src, u) && Waits(d, win, t)
    ensures var d' := TearOut(d, src, u, prefer, world);
            Waits(d', win, t) && t in d.pages && t in d'.pages && d'.pages[t] == d.pages[t]
  {
    InvHomed(d);
    WaitsOut(d, win, t);
    hide TearOut, Inv;
    if |d.windows[src].strip| > 1 {
      TearOutInv(d, src, u, prefer, world);
      TearLeaves(d, src, u, t, prefer, world);
      hide SameKinds, Homed;
    } else {
      TearNothing(d, src, u, prefer, world);
    }
  }

  lemma ActivatedWaits(d: Desk, other: WinId, win: WinId, t: TabId, prefer: seq<TabId>, world: VmTab.World)
    requires Inv(d) && other in d.windows && Waits(d, win, t)
    ensures var d' := Activate(d, other, prefer, world);
            other != win ==> Waits(d', win, t) && t in d.pages && (t in d'.pages ==> d'.pages[t] == d.pages[t])
  {
    InvHomed(d);
    WaitsOut(d, win, t);
    hide Inv, Activate, Homed, Out, ActivatedFrame;
    if other != win {
      assert Waits(d, other, t) <==> d.windows[other].pending == Some(t);
      ActivateLeaves(d, other, t, prefer, world);
      ActivateInv(d, other, prefer, world);
      if d.windows[other].pending.Some? {
        ActivatedElsewhere(d, Activate(d, other, prefer, world), other, d.windows[other].pending.value, win);
      } else {
        ActivateNothing(d, other, prefer, world);
      }
    }
  }

  lemma ActivatedElsewhere(d: Desk, d': Desk, other: WinId, u: TabId, win: WinId)
    requires ActivatedFrame(d, d', other, u) && win != other && win in d.windows
    ensures win in d'.windows && d'.windows[win].pending == d.windows[win].pending
  {
    hide SameKinds, IsSettings;
  }

  lemma TornWaits(d: Desk, d': Desk, src: WinId, u: TabId)
    requires TornOut(d, d', src, u)
    ensures forall w, t | Waits(d', w, t) :: Waits(d, w, t) || (w == d.nextWin && t == u)
  {
    hide SameKinds, Remove;
  }

  lemma TearWaitsFrom(d: Desk, src: WinId, u: TabId, win: WinId, t: TabId, prefer: seq<TabId>, world: VmTab.World)
    requires Inv(d) && Shows(d, src, u) && Waits(TearOut(d, src, u, prefer, world), win, t)
    ensures Waits(d, win, t) || (|d.windows[src].strip| > 1 && win == d.nextWin && t == u)
  {
    hide Inv, TearOut, TornOut;
    if |d.windows[src].strip| > 1 {
      TearOutInv(d, src, u, prefer, world);
      TornWaits(d, TearOut(d, src, u, prefer, world), src, u);
    } else {
      TearNothing(d, src, u, prefer, world);
    }
  }

  lemma ActivatedWaitsFrom(d: Desk, other: WinId, win: WinId, t: TabId, prefer: seq<TabId>, world: VmTab.World)
    requires Inv(d) && other in d.windows && Waits(Activate(d, other, prefer, world), win, t)
    ensures Waits(d, win, t)
  {
    ActivateInv(d, other, prefer, world);
    if d.windows[other].pending.None? { ActivateNothing(d, other, prefer, world); }
    hide Inv, Activate, SameKinds;
  }

  /** A tab that waits afterwards waited before, or has just been torn out. */
  lemma WaitsFrom(d: Desk, a: Action, win: WinId, t: TabId, world: VmTab.World)
    requires Inv(d) && Possible(d, a) && Waits(Do(d, a, world), win, t)
    ensures Waits(d, win, t) || (a.Tear? && |d.windows[a.win].strip| > 1 && win == d.nextWin && t == a.t)
  {
    DoTears(d, a, world);
    hide Inv, Do, TearOut, Activate;
    if a.Tear? {
      TearWaitsFrom(d, a.win, a.t, win, t, a.prefer, world);
    } else if a.Activated? {
      ActivatedWaitsFrom(d, a.win, win, t, a.prefer, world);
    } else {
      ActionLeaves(d, a, None, world);
    }
  }

  // ---- the popup of a waiting tab ------------------------------------------------

  predicate OnScreen(p: Page) {
    match p
    case VmPage(_, tab) => Runs.OnScreen(VmTab.PopupOf(tab))
    case RemotePage(_, remote) => Runs.OnScreen(RemoteTab.PopupOf(remote))
    case _ => false
  }

  /** The page's own event brings its popup up. */
  predicate Surfaces(d: Desk, a: Action, world: VmTab.World) {
    || (a.Session? && a.t in d.pages && d.pages[a.t].VmPage? && OwnEvent(a.ev)
        && Runs.Appears(d.pages[a.t].tab, world, a.ev))
    || (a.RemoteSession? && a.t in d.pages && d.pages[a.t].RemotePage?
        && RemoteTab.Appears(d.pages[a.t].remote, world, a.rev))
  }

  /** The tab is between two windows. */
  ghost predicate Waiting(d: Desk, t: TabId) {
    exists w :: Waits(d, w, t)
  }

  ghost predicate WaitingHidden(d: Desk) {
    forall w, t | Waits(d, w, t) && t in d.pages :: !OnScreen(d.pages[t])
  }

  /** A tab torn out has its popup down, and no waiting tab's popup comes up. */
  ghost predicate Discreet(d: Desk, a: Action, world: VmTab.World)
    requires Possible(d, a)
  {
    && (a.Tear? && |d.windows[a.win].strip| > 1 && a.t in d.pages ==> !OnScreen(d.pages[a.t]))
    && (Surfaces(d, a, world) ==> !Waiting(d, a.t))
  }

  lemma EventSurfaces(d: Desk, a: Action, world: VmTab.World)
    requires (a.Session? || a.RemoteSession?) && a.t in d.pages && !OnScreen(d.pages[a.t])
    ensures Possible(d, a) && a.t in Do(d, a, world).pages
    ensures OnScreen(Do(d, a, world).pages[a.t]) <==> Surfaces(d, a, world)
  {
    if a.Session? && d.pages[a.t].VmPage? { Runs.AppearsExactly(d.pages[a.t].tab, world, a.ev); }
    if a.RemoteSession? && d.pages[a.t].RemotePage? { RemoteTab.AppearsExactly(d.pages[a.t].remote, world, a.rev); }
    hide VmTab.Step, RemoteTab.Step, Runs.Appears, RemoteTab.Appears, Runs.OnScreen;
  }

  /** The windows and tabs that wait afterwards, with their pages. */
  lemma HiddenAfter(d: Desk, a: Action, win: WinId, t: TabId, world: VmTab.World)
    requires Inv(d) && Possible(d, a) && WaitingHidden(d) && Discreet(d, a, world)
    requires Waits(Do(d, a, world), win, t) && t in Do(d, a, world).pages
    ensures !OnScreen(Do(d, a, world).pages[t])
  {
    WaitsFrom(d, a, win, t, world);
    DoTears(d, a, world);
    hide Inv, Do, TearOut, OnScreen, Surfaces;
    if Waits(d, win, t) {
      WaitingIsLeft(d, a, win, t, world);
      hide Waits;
      if Concerns(a, t) { EventSurfaces(d, a, world); }
      else if a.Activated? && a.win == win { NotWaitingAfter(d, a.win, t, a.prefer, world); }
    } else {
      TornPageSame(d, a.win, a.t, a.prefer, world);
    }
  }

  lemma NotWaitingAfter(d: Desk, win: WinId, t: TabId, prefer: seq<TabId>, world: VmTab.World)
    requires Inv(d) && Waits(d, win, t)
    ensures !Waits(Activate(d, win, prefer, world), win, t)
  {
    ActivateInv(d, win, prefer, world);
    hide Inv, Activate;
  }

  /** Exactly the discreet actions keep every waiting tab's popup off screen. */
  lemma DoHidden(d: Desk, a: Action, world: VmTab.World)
    requires Inv(d) && Possible(d, a) && WaitingHidden(d)
    ensures WaitingHidden(Do(d, a, world)) <==> Discreet(d, a, world)
  {
    var d' := Do(d, a, world);
    hide Inv, Do, TearOut, OnScreen, Surfaces, Waits, Discreet;
    if Discreet(d, a, world) {
      forall w, t | Waits(d', w, t) && t in d'.pages ensures !OnScreen(d'.pages[t]) {
        HiddenAfter(d, a, w, t, world);
      }
    } else {
      IndiscreetShows(d, a, world);
    }
  }

  lemma IndiscreetShows(d: Desk, a: Action, world: VmTab.World)
    requires Inv(d) && Possible(d, a) && WaitingHidden(d) && !Discreet(d, a, world)
    ensures !WaitingHidden(Do(d, a, world))
  {
    DoTears(d, a, world);
    var d' := Do(d, a, world);
    if a.Tear? && |d.windows[a.win].strip| > 1 && a.t in d.pages && OnScreen(d.pages[a.t]) {
      hide Inv, Do, TearOut, OnScreen, Surfaces;
      TornPageSame(d, a.win, a.t, a.prefer, world);
      assert Waits(d', d.nextWin, a.t);
    } else {
      assert (a.Session? || a.RemoteSession?) && a.t in d.pages;
      var w :| Waits(d, w, a.t);
      EventSurfaces(d, a, world);
      EventWindows(d, a, world);
      hide Inv, Do, OnScreen, Surfaces;
      assert Waits(d', w, a.t);
    }
  }

  // ---- popups over every tab a window has ----------------------------------------

  /** Popup safety for all that windows hold, the item that waits to be adopted included. */
  ghost predicate HeldObey(d: Desk) {
    forall w, t | Holds(d, w, t) && t in d.pages :: PopupObeys(d.windows[w], w, t, d.pages[t])
  }

  lemma WaitingObeys(d: Desk, w: WinId, t: TabId)
    requires Inv(d) && Waits(d, w, t) && t in d.pages
    ensures PopupObeys(d.windows[w], w, t, d.pages[t]) <==> !OnScreen(d.pages[t])
  {
    assert SelectionOk(d, None) && t !in d.windows[w].strip;
    hide Inv;
  }

  lemma HeldObeyExactly(d: Desk)
    requires Inv(d) && PopupsObey(d)
    ensures HeldObey(d) <==> WaitingHidden(d)
  {
    hide Inv, PopupObeys, OnScreen;
    forall w, t | Waits(d, w, t) && t in d.pages
      ensures PopupObeys(d.windows[w], w, t, d.pages[t]) <==> !OnScreen(d.pages[t])
    {
      WaitingObeys(d, w, t);
    }
    if HeldObey(d) {
      forall w, t | Waits(d, w, t) && t in d.pages ensures !OnScreen(d.pages[t]) {
        assert Holds(d, w, t);
      }
    }
    forall w, t | Holds(d, w, t) && t in d.pages && WaitingHidden(d) ensures PopupObeys(d.windows[w], w, t, d.pages[t]) {
      assert t in d.windows[w].strip || Waits(d, w, t);
    }
  }

  lemma TornStrips(d: Desk, d': Desk, src: WinId, t: TabId)
    requires Homed(d, None) && StripSync(d) && TornOut(d, d', src, t)
    ensures StripSync(d')
  {
    RemoveShown(d, src, t, None);
    hide Homed, IsMuted, IsSession, SameKind;
    forall w, u | w in d'.windows && u in d'.windows[w].strip && u in d'.pages
      ensures Agrees(d'.pages[u], d'.windows[w].depth)
    {
      assert w in d.windows && u in d.windows[w].strip && u in d.pages && d'.windows[w].depth == d.windows[w].depth;
      AgreesAlike(d.pages[u], d'.pages[u], d.windows[w].depth);
    }
  }

  lemma TearIsDiscreet(d: Desk, src: WinId, t: TabId, prefer: seq<TabId>, world: VmTab.World)
    requires Shows(d, src, t) && |d.windows[src].strip| > 1 && t in d.pages
    ensures Possible(d, Tear(src, t, prefer)) && (Discreet(d, Tear(src, t, prefer), world) <==> !OnScreen(d.pages[t]))
  {
    hide OnScreen;
  }

  /** A tear-out keeps popup safety if and only if the torn tab's popup is not on screen: no
      one hides it, and its page stays as it is. */
  lemma TearOutObeys(d: Desk, src: WinId, t: TabId, prefer: seq<TabId>, world: VmTab.World)
    requires Inv(d) && StripSync(d) && HeldObey(d) && Shows(d, src, t) && |d.windows[src].strip| > 1
    ensures var d' := TearOut(d, src, t, prefer, world);
            && t in d.pages && t in d'.pages && d'.pages[t] == d.pages[t]
            && PopupsObey(d') && (HeldObey(d') <==> !OnScreen(d.pages[t]))
  {
    var d' := TearOut(d, src, t, prefer, world);
    InvHomed(d);
    TornPageSame(d, src, t, prefer, world);
    TearOutInv(d, src, t, prefer, world);
    TearIsDiscreet(d, src, t, prefer, world);
    hide Inv, Homed, TearOut, HeldObey, PopupsObey, StripSync, Do, WaitingHidden, TornOut, OnScreen, Discreet, Possible;
    TornStrips(d, d', src, t);
    InvObeys(d);
    InvObeys(d');
    HeldObeyExactly(d);
    HeldObeyExactly(d');
    DoHidden(d, Tear(src, t, prefer), world);
    DoTears(d, Tear(src, t, prefer), world);
  }

  /** Exactly the discreet actions, among calm ones, keep it. */
  lemma DoHeldObeys(d: Desk, a: Action, world: VmTab.World)
    requires Inv(d) && Sync(d) && HeldObey(d) && Possible(d, a) && Calm(d, a)
    ensures HeldObey(Do(d, a, world)) <==> Discreet(d, a, world)
  {
    var d' := Do(d, a, world);
    hide Inv, Sync, HeldObey, Possible, Calm, Do, Discreet, WaitingHidden, PopupsObey, StripSync;
    DoInv(d, a, world);
    DoSync(d, a, world);
    SyncStrips(d);
    SyncStrips(d');
    InvObeys(d);
    InvObeys(d');
    HeldObeyExactly(d);
    HeldObeyExactly(d');
    DoHidden(d, a, world);
  }

  /** Every turn of the run is discreet when it is taken. */
  ghost predicate DiscreetRun(d: Desk, turns: seq<Turn>)
    decreases |turns|
  {
    turns == [] ||
    if Possible(d, turns[0].action)
    then Discreet(d, turns[0].action, turns[0].world)
         && DiscreetRun(Do(d, turns[0].action, turns[0].world), turns[1..])
    else DiscreetRun(d, turns[1..])
  }

  lemma {:induction false} PlayHeldObeys(d: Desk, turns: seq<Turn>)
    requires Inv(d) && Sync(d) && HeldObey(d) && CalmRun(d, turns) && DiscreetRun(d, turns)
    ensures HeldObey(Play(d, turns))
    decreases |turns|
  {
    hide Inv, Sync, HeldObey, Do, Possible, Calm, Discreet;
    if turns == [] {
    } else if Possible(d, turns[0].action) {
      DoInv(d, turns[0].action, turns[0].world);
      DoSync(d, turns[0].action, turns[0].world);
      DoHeldObeys(d, turns[0].action, turns[0].world);
      PlayHeldObeys(Do(d, turns[0].action, turns[0].world), turns[1..]);
    } else {
      PlayHeldObeys(d, turns[1..]);
    }
  }

  /** The first activation puts things right: with no other tab waiting with its popup up,
      every popup obeys again. */
  lemma ActivationRestores(d: Desk, win: WinId, prefer: seq<TabId>, world: VmTab.World)
    requires Inv(d) && Sync(d) && win in d.windows
    requires forall w, t | Waits(d, w, t) && w != win && t in d.pages :: !OnScreen(d.pages[t])
    ensures HeldObey(Activate(d, win, prefer, world))
  {
    var d' := Activate(d, win, prefer, world);
    ActivateInv(d, win, prefer, world);
    ActivatedHidden(d, win, prefer, world);
    hide Inv, Sync, HeldObey, PopupsObey, StripSync, Activate, ActivatedFrame, WaitingHidden, OnScreen, Waits;
    if d.windows[win].pending.Some? {
      ActivatedSync(d, d', win, d.windows[win].pending.value);
    } else {
      ActivateNothing(d, win, prefer, world);
    }
    SyncStrips(d');
    InvObeys(d');
    HeldObeyExactly(d');
  }

  lemma ActivatedHidden(d: Desk, win: WinId, prefer: seq<TabId>, world: VmTab.World)
    requires Inv(d) && win in d.windows
    requires forall w, t | Waits(d, w, t) && w != win && t in d.pages :: !OnScreen(d.pages[t])
    ensures WaitingHidden(Activate(d, win, prefer, world))
  {
    var d' := Activate(d, win, prefer, world);
    ActivateInv(d, win, prefer, world);
    if d.windows[win].pending.None? { ActivateNothing(d, win, prefer, world); }
    hide Inv, Activate, OnScreen;
    forall w, t | Waits(d', w, t) && t in d'.pages ensures !OnScreen(d'.pages[t]) {
      assert w != win && Waits(d, w, t);
      ActivatedWaits(d, win, w, t, prefer, world);
    }
  }

  // ---- while it waits ------------------------------------------------------------

  /** The window the page's popup is owned by. */
  function PopupOwner(p: Page): Option<WinId> {
    match p
    case VmPage(_, tab) => if tab.child.client.Some? then Some(tab.child.client.value.owner) else None
    case RemotePage(_, remote) => if remote.child.client.Some? then Some(remote.child.client.value.owner) else None
    case _ => None
  }

  /** The same orders from the same window. */
  predicate SameCharge(p: Page, q: Page) {
    WantsVisible(q) == WantsVisible(p) && IsMuted(q) == IsMuted(p) && OwnerWindow(q) == OwnerWindow(p)
  }

  lemma EventKeepsCharge(d: Desk, a: Action, world: VmTab.World)
    requires TabsValid(d) && (a.Session? || a.RemoteSession?) && a.t in d.pages
    ensures Possible(d, a) && a.t in Do(d, a, world).pages && SameCharge(d.pages[a.t], Do(d, a, world).pages[a.t])
  {
    if a.Session? && d.pages[a.t].VmPage? && OwnEvent(a.ev) { OwnEventKeeps(d.pages[a.t].tab, world, a.ev); }
    if a.RemoteSession? && d.pages[a.t].RemotePage? { RemoteTab.OwnEventKeepsOrders(d.pages[a.t].remote, world, a.rev); }
    hide VmTab.Step, RemoteTab.Step, Runs.Valid;
  }

  lemma NextWinGrows(d: Desk, a: Action, world: VmTab.World)
    requires Inv(d) && Possible(d, a)
    ensures d.nextWin <= Do(d, a, world).nextWin
  {
    DoTears(d, a, world);
    hide Inv, Do, TearOut, Activate;
    if a.Tear? {
      if |d.windows[a.win].strip| > 1 {
        TearOutInv(d, a.win, a.t, a.prefer, world);
        TearOutPages(d, a.win, a.t, a.prefer, world);
      } else {
        TearNothing(d, a.win, a.t, a.prefer, world);
      }
    } else if a.Activated? {
      ActivateSameNext(d, a.win, a.prefer, world);
    } else {
      ActionLeaves(d, a, None, world);
    }
  }

  lemma ActivateSameNext(d: Desk, win: WinId, prefer: seq<TabId>, world: VmTab.World)
    requires win in d.windows
    ensures Activate(d, win, prefer, world).nextWin == d.nextWin
  {
    var w := d.windows[win];
    if w.pending.Some? {
      var d0 := d.(windows := d.windows[win := w.(pending := None)]);
      var d1 := Attach(d0, win, w.pending.value, -1);
      AttachWindows(d0, win, w.pending.value, -1);
      assert d1.nextWin == d.nextWin;
      hide Attach, AdoptMovedTab;
      AdoptLeaves(d1, win, w.pending.value, None, prefer, world);
    }
  }

  /** Window numbers are not used twice, so a wait that is over does not resume. */
  lemma {:induction false} WaitIsOver(d: Desk, win: WinId, t: TabId, turns: seq<Turn>)
    requires Inv(d) && win < d.nextWin && !Waits(d, win, t)
    ensures !Waits(Play(d, turns), win, t)
    decreases |turns|
  {
    hide Inv, Do, Possible, Waits;
    if turns != [] {
      var a, world := turns[0].action, turns[0].world;
      if Possible(d, a) {
        DoInv(d, a, world);
        NextWinGrows(d, a, world);
        if Waits(Do(d, a, world), win, t) { WaitsFrom(d, a, win, t, world); }
        WaitIsOver(Do(d, a, world), win, t, turns[1..]);
      } else {
        WaitIsOver(d, win, t, turns[1..]);
      }
    }
  }

  /** One turn of the wait. */
  lemma WaitingKeepsCharge(d: Desk, a: Action, win: WinId, t: TabId, world: VmTab.World)
    requires Inv(d) && Possible(d, a) && Waits(d, win, t) && Waits(Do(d, a, world), win, t)
    ensures t in d.pages && t in Do(d, a, world).pages && SameCharge(d.pages[t], Do(d, a, world).pages[t])
  {
    DoInv(d, a, world);
    InvHomed(Do(d, a, world));
    WaitsOut(Do(d, a, world), win, t);
    WaitingIsLeft(d, a, win, t, world);
    DoTears(d, a, world);
    assert TabsValid(d);
    hide Inv, Homed, Do, TabsValid, Activate, TearOut, SameCharge;
    if Concerns(a, t) {
      EventKeepsCharge(d, a, world);
    } else if a.Activated? && a.win == win {
      NotWaitingAfter(d, win, t, a.prefer, world);
    } else {
      SameChargeSelf(d.pages[t]);
    }
  }

  lemma SameChargeSelf(p: Page)
    ensures SameCharge(p, p)
  {}

  /** However long a tab waits, no window asks anything of its page. */
  lemma {:induction false} WaitingRun(d: Desk, win: WinId, t: TabId, turns: seq<Turn>)
    requires Inv(d) && Waits(d, win, t)
    ensures var e := Play(d, turns);
            Waits(e, win, t) ==> t in d.pages && t in e.pages && SameCharge(d.pages[t], e.pages[t])
    decreases |turns|
  {
    InvHomed(d);
    WaitsOut(d, win, t);
    hide Inv, Do, Possible, Waits, Homed, Out;
    if turns != [] {
      var a, world := turns[0].action, turns[0].world;
      var d1 := if Possible(d, a) then Do(d, a, world) else d;
      if Possible(d, a) {
        DoInv(d, a, world);
        NextWinGrows(d, a, world);
        if Waits(d1, win, t) { WaitingKeepsCharge(d, a, win, t, world); }
      }
      if Waits(d1, win, t) { WaitingRun(d1, win, t, turns[1..]); } else { WaitIsOver(d1, win, t, turns[1..]); }
    }
  }

  lemma OwnedByItsWindow(p: Page)
    requires PageValid(p) && OnScreen(p)
    ensures PopupOwner(p) == Some(OwnerWindow(p)) && WantsVisible(p) && !IsMuted(p)
  {}

  /** After a tear-out, while the tab waits for its window to be activated, a popup on screen
      is the one wanted before, and lies over the window the tab came from. */
  lemma TornPopupStays(d: Desk, src: WinId, t: TabId, prefer: seq<TabId>, world: VmTab.World, turns: seq<Turn>)
    requires Inv(d) && Shows(d, src, t) && |d.windows[src].strip| > 1
    ensures var e := Play(TearOut(d, src, t, prefer, world), turns);
            Waits(e, d.nextWin, t) && t in e.pages && OnScreen(e.pages[t]) ==>
              && PopupOwner(e.pages[t]) == Some(src) && t in d.pages
              && WantsVisible(d.pages[t]) && !IsMuted(d.pages[t])
  {
    var d' := TearOut(d, src, t, prefer, world);
    var e := Play(d', turns);
    TornPageSame(d, src, t, prefer, world);
    TearOutInv(d, src, t, prefer, world);
    assert Fits(d.pages[t], src, d.windows[src].selected == Some(t));
    hide TearOut, Inv;
    WaitingRun(d', d.nextWin, t, turns);
    PlayInv(d', turns);
    if Waits(e, d.nextWin, t) && t in e.pages && OnScreen(e.pages[t]) {
      PageOf(e, t);
      OwnedByItsWindow(e.pages[t]);
    }
  }

  lemma PageOf(d: Desk, t: TabId)
    requires Inv(d) && t in d.pages
    ensures PageValid(d.pages[t])
  {}

  /** Why tearing out a tab with its popup up is not discreet: a dialog then opened in the
      window it came from suppresses that window's strip, and the popup stays over it. */
  lemma TornPopupOverDialog(d: Desk, src: WinId, t: TabId, prefer: seq<TabId>, world: VmTab.World)
    requires Inv(d) && Shows(d, src, t) && |d.windows[src].strip| > 1 && t in d.pages && OnScreen(d.pages[t])
    ensures var d1 := TearOut(d, src, t, prefer, world);
            src in d1.windows &&
            var d2 := PushPopupSuppression(d1, src, world);
            && src in d2.windows && d2.windows[src].depth > 0
            && t in d2.pages && OnScreen(d2.pages[t]) && PopupOwner(d2.pages[t]) == Some(src)
  {
    var d1 := TearOut(d, src, t, prefer, world);
    TornPageSame(d, src, t, prefer, world);
    TearOutInv(d, src, t, prefer, world);
    TornPopupStays(d, src, t, prefer, world, []);
    InvHomed(d1);
    WaitsOut(d1, d.nextWin, t);
    assert Play(d1, []) == d1;
    hide Inv, Homed, TearOut;
    PushPopLeaves(d1, src, Some(t), world);
    PushKeepsWindows(d1, src, world);
  }

  lemma PushKeepsWindows(d: Desk, win: WinId, world: VmTab.World)
    requires win in d.windows
    ensures var d' := PushPopupSuppression(d, win, world);
            win in d'.windows && d'.windows[win].depth == d.windows[win].depth + 1 && d'.pages.Keys == d.pages.Keys
  {}
}
