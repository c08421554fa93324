/** Whose children live: over every run, whether closing tabs and windows stops every child. */
module DesktopChildren {
  import opened Wrappers
  import opened Strips
  import opened Desktop
  import opened DesktopRuns
  import opened DesktopMoves
  import opened DesktopCloses
  import opened DesktopSafety
  import opened PopupSafety
  import opened PopupPending
  import VmTab
  import RemoteTab
  import Runs = VmTabRuns

  /** The children of a page that still run. */
  function Alive(p: Page): set<nat> {
    match p
    case VmPage(_, tab) => tab.child.alive
    case RemotePage(_, remote) => remote.child.alive
    case _ => {}
  }

  /** Every child that runs is the child of a page that some window holds. */
  ghost predicate NoStrays(d: Desk) {
    forall t | t in d.gone :: Alive(d.gone[t]) == {}
  }

  predicate HoldsChild(d: Desk, t: Option<TabId>) {
    t.Some? && t.value in d.pages && Alive(d.pages[t.value]) != {}
  }

  /** The window the action closes: by its own button, with its last tab if that owns no
      popup, or because its last tab moved away and it is not the primary window. */
  function Ends(d: Desk, a: Action): Option<WinId>
    requires Possible(d, a)
  {
    match a
    case CloseWin(win) => Some(win)
    case CloseTab(win, t, _) =>
      if d.windows[win].strip == [t] && !HoldsSession(d, Some(t)) then Some(win) else None
    case Move(src, dest, t, _, _) =>
      if src != dest && d.windows[src].strip == [t] && !d.windows[src].primary then Some(src) else None
    case _ => None
  }

  predicate Strands(d: Desk, a: Action)
    requires Possible(d, a)
  {
    Ends(d, a).Some? && Ends(d, a).value in d.windows && HoldsChild(d, d.windows[Ends(d, a).value].pending)
  }

  lemma PartedStops(p: Page)
    requires PageValid(p)
    ensures Alive(Shut(p)) == {} && Alive(Part(p)) == {}
  {}

  lemma CloseWindowStrays(d: Desk, win: WinId)
    requires Homed(d, None) && TabsValid(d) && NoStrays(d) && win in d.windows
    ensures NoStrays(CloseWindow(d, win)) <==> !HoldsChild(d, d.windows[win].pending)
  {
    var d' := CloseWindow(d, win);
    var w := d.windows[win];
    assert w.pending.Some? ==> w.pending.value !in w.strip;
    hide Homed;
    forall t | t in d.pages ensures PageValid(d.pages[t]) && Alive(Shut(d.pages[t])) == {} {
      PartedStops(d.pages[t]);
    }
    hide Shut, Alive, TabsValid, PageValid;
    if HoldsChild(d, w.pending) {
      assert w.pending.value in d'.gone && d'.gone[w.pending.value] == d.pages[w.pending.value];
    }
  }

  lemma SelectGone(d: Desk, win: WinId, t: Option<TabId>, world: VmTab.World)
    requires win in d.windows
    ensures Select(d, win, t, world).gone == d.gone
  {}

  lemma DetachGone(d: Desk, win: WinId, t: TabId, prefer: seq<TabId>, world: VmTab.World)
    requires win in d.windows
    ensures Detach(d, win, t, prefer, world).gone == d.gone
  {}

  lemma AddTabGone(d: Desk, win: WinId, page: Page, world: VmTab.World)
    requires win in d.windows
    ensures AddTab(d, win, page, world).gone == d.gone
  {}

  /** Closing one of several tabs stops its child. */
  lemma CloseBesideGone(d: Desk, win: WinId, t: TabId, u: TabId, prefer: seq<TabId>, world: VmTab.World)
    requires NoStrays(d) && TabsValid(d) && win in d.windows && u in d.windows[win].strip && u != t
    ensures NoStrays(CloseTabItem(d, win, t, prefer, world))
  {
    RemoveOther(d.windows[win].strip, t, u);
    if t in d.pages { PartedStops(d.pages[t]); }
    DetachGone(DropPage(d, t), win, t, prefer, world);
    hide Part, Alive;
    assert NoStrays(DropPage(d, t));
  }

  lemma CloseLastStrays(d: Desk, win: WinId, t: TabId, prefer: seq<TabId>, world: VmTab.World)
    requires Inv(d) && NoStrays(d) && win in d.windows && d.windows[win].strip == [t] && t in d.pages
    ensures NoStrays(CloseTabItem(d, win, t, prefer, world))
       <==> IsSession(d.pages[t]) || !HoldsChild(d, d.windows[win].pending)
  {
    var d0 := DropPage(d, t);
    var d1 := Detach(d0, win, t, prefer, world);
    CloseStripped(d, win, t, prefer, world, None);
    PendingBeside(d, win, t, prefer, world);
    assert TabsValid(d1);
    PartedStops(d.pages[t]);
    hide Inv, Homed, TabsValid, Detach, AddTab, CloseWindow, Alive, Part, HoldsChild;
    assert NoStrays(d0);
    DetachGone(d0, win, t, prefer, world);
    if IsSession(d.pages[t]) {
      AddTabGone(d1, win, WelcomePage, world);
    } else {
      CloseWindowStrays(d1, win);
    }
  }

  /** Closing any tab does, but where it closes the window with a waiting tab's child. */
  lemma CloseItemStrays(d: Desk, win: WinId, t: TabId, prefer: seq<TabId>, world: VmTab.World)
    requires Inv(d) && NoStrays(d) && Shows(d, win, t)
    ensures NoStrays(CloseTabItem(d, win, t, prefer, world))
       <==> !(d.windows[win].strip == [t] && !HoldsSession(d, Some(t)) && HoldsChild(d, d.windows[win].pending))
  {
    var strip := d.windows[win].strip;
    ShownOnce(d, win, t, None);
    InvHomed(d);
    assert TabsValid(d);
    if strip == [t] {
      hide Inv, NoStrays, CloseTabItem, HoldsChild;
      CloseLastStrays(d, win, t, prefer, world);
    } else {
      var u := if strip[0] == t then strip[1] else strip[0];
      assert u != t;
      hide Inv, NoStrays, CloseTabItem;
      CloseBesideGone(d, win, t, u, prefer, world);
    }
  }

  /** Taking the tab out leaves the waiting one alone. */
  lemma PendingBeside(d: Desk, win: WinId, t: TabId, prefer: seq<TabId>, world: VmTab.World)
    requires Homed(d, None) && Shows(d, win, t)
    ensures var d1 := Detach(DropPage(d, t), win, t, prefer, world);
            && win in d1.windows && d1.windows[win].pending == d.windows[win].pending
            && HoldsChild(d1, d.windows[win].pending) == HoldsChild(d, d.windows[win].pending)
  {
    var pending := d.windows[win].pending;
    var d0 := DropPage(d, t);
    if pending.Some? {
      WaitsOut(d, win, pending.value);
      assert pending.value != t;
    }
    assert Out(d0, pending);
    hide Homed, Detach;
    DetachLeaves(d0, win, t, pending, prefer, world);
    DetachKeys(d0, win, t, prefer, world);
  }

  lemma DetachKeys(d: Desk, win: WinId, t: TabId, prefer: seq<TabId>, world: VmTab.World)
    requires win in d.windows
    ensures Detach(d, win, t, prefer, world).pages.Keys == d.pages.Keys
    ensures Detach(d, win, t, prefer, world).windows.Keys == d.windows.Keys
  {}

  lemma {:induction false} CloseAllStrays(d: Desk, win: WinId, items: seq<TabId>, prefer: seq<TabId>,
                                          world: VmTab.World)
    requires Inv(d) && NoStrays(d) && AllSessions(d, win, items)
    ensures NoStrays(CloseAll(d, win, items, prefer, world))
    decreases |items|
  {
    if items != [] {
      hide Inv, NoStrays, CloseTabItem;
      StillSessions(d, win, items, prefer, world);
      assert items[0] in items;
      CloseItemStrays(d, win, items[0], prefer, world);
      CloseAllStrays(CloseTabItem(d, win, items[0], prefer, world), win, items[1..], prefer, world);
    }
  }

  lemma OpenGone(d: Desk, win: WinId, q: Query, page: Page, world: VmTab.World)
    requires win in d.windows
    ensures OpenOrFocus(d, win, q, page, world).gone == d.gone
  {
    hide Select, AddTab;
    SelectGone(d, win, Find(d.windows[win].strip, d.pages, q, None), world);
    AddTabGone(d, win, page, world);
  }

  /** The tab found or opened keeps the window open, or the tab to be closed is a session. */
  lemma OpenedStaysOpen(d: Desk, win: WinId, t: TabId, guid: string, world: VmTab.World)
    requires Inv(d) && NoStrays(d) && Shows(d, win, t)
    ensures var d1 := OpenVmTab(d, win, guid, world);
            && Inv(d1) && NoStrays(d1) && Shows(d1, win, t)
            && (d1.windows[win].strip == [t] ==> HoldsSession(d1, Some(t)))
  {
    NewPageFits(win, guid, "", false);
    assert Matches(NewVmPage(win, guid), ForVm(guid));
    hide Inv, NewVmPage, PageFor, OpenOrFocus, Find, Kept, NoStrays;
    OpenMatches(d, win, t, ForVm(guid), NewVmPage(win, guid), world);
    OpenGone(d, win, ForVm(guid), NewVmPage(win, guid), world);
    SameGone(d, OpenVmTab(d, win, guid, world));
  }

  lemma ReplaceStrays(d: Desk, win: WinId, t: TabId, guid: string, prefer: seq<TabId>, world: VmTab.World)
    requires Inv(d) && NoStrays(d) && Shows(d, win, t)
    ensures NoStrays(ReplaceTabWith(d, win, t, guid, prefer, world))
  {
    var d1 := OpenVmTab(d, win, guid, world);
    OpenedStaysOpen(d, win, t, guid, world);
    hide Inv, OpenOrFocus, CloseTabItem, Select, Find, NoStrays, HoldsSession, HoldsChild;
    CloseItemStrays(d1, win, t, prefer, world);
    var d2 := CloseTabItem(d1, win, t, prefer, world);
    if win in d2.windows {
      SelectGone(d2, win, Find(d1.windows[win].strip, d1.pages, ForVm(guid), None), world);
    }
    assert ReplaceTabWith(d, win, t, guid, prefer, world).gone == d2.gone;
    SameGone(d2, ReplaceTabWith(d, win, t, guid, prefer, world));
  }

  lemma AdoptStrays(d: Desk, win: WinId, t: TabId, prefer: seq<TabId>, world: VmTab.World)
    requires NoStrays(d) && TabsValid(d) && win in d.windows && t in d.windows[win].strip
    ensures NoStrays(AdoptMovedTab(d, win, t, prefer, world))
  {
    var d1 := if t in d.pages then d.(pages := d.pages[t := Rehome(d.pages[t], win)]) else d;
    if t in d.pages { RehomeFits(d.pages[t], win); }
    var other := Find(d.windows[win].strip, d.pages, ForSettings, Some(t));
    assert TabsValid(d1);
    hide CloseTabItem, Select, Rehome, TabsValid;
    if other.Some? { CloseBesideGone(d1, win, other.value, t, prefer, world); }
    var d2 := if t in d.pages && d.pages[t].SettingsPage? && other.Some?
    then CloseTabItem(d1, win, other.value, prefer, world) else d1;
    if win in d2.windows { SelectGone(d2, win, Some(t), world); }
  }

  lemma MoveBeforeAdopt(d: Desk, src: WinId, dest: WinId, t: TabId, index: int, prefer: seq<TabId>, world: VmTab.World)
    requires Inv(d) && src != dest && dest in d.windows && Shows(d, src, t)
    ensures var d1 := Attach(Detach(d, src, t, prefer, world), dest, t, index);
            TabsValid(d1) && d1.gone == d.gone && Shows(d1, dest, t)
  {
    DetachTidy(d, src, t, prefer, world);
    DetachGone(d, src, t, prefer, world);
    hide Homed, Detach, OneSettings, Manned;
  }

  /** Up to the point where the emptied window is dealt with, its waiting tab is left alone. */
  lemma PendingLands(d: Desk, src: WinId, dest: WinId, t: TabId, index: int, prefer: seq<TabId>, world: VmTab.World)
    requires Inv(d) && src != dest && dest in d.windows && Shows(d, src, t)
    requires var d1 := Attach(Detach(d, src, t, prefer, world), dest, t, index);
             var d2 := AdoptMovedTab(d1, dest, t, prefer, world);
             Homed(d2, None) && src in d2.windows
    ensures var d2 := AdoptMovedTab(Attach(Detach(d, src, t, prefer, world), dest, t, index), dest, t, prefer, world);
            && d2.windows[src].pending == d.windows[src].pending
            && HoldsChild(d2, d.windows[src].pending) == HoldsChild(d, d.windows[src].pending)
  {
    var pending := d.windows[src].pending;
    if pending.Some? {
      InvHomed(d);
      WaitsOut(d, src, pending.value);
    }
    assert Some(t) != pending;
    var d0 := Detach(d, src, t, prefer, world);
    var d1 := Attach(d0, dest, t, index);
    var d2 := AdoptMovedTab(d1, dest, t, prefer, world);
    DetachKeys(d, src, t, prefer, world);
    AttachWindows(d0, dest, t, index);
    hide Inv, Detach, Attach, AdoptMovedTab, LeftOut;
    DetachLeaves(d, src, t, pending, prefer, world);
    LeftIsOut(d, d0, pending);
    AttachLeaves(d0, dest, t, index, pending);
    LeftTrans(d, d0, d1, pending);
    LeftIsOut(d, d1, pending);
    AdoptLeaves(d1, dest, t, pending, prefer, world);
    LeftTrans(d, d1, d2, pending);
    LeftChild(d, d2, src);
  }

  lemma LeftChild(d: Desk, d': Desk, win: WinId)
    requires win in d.windows && win in d'.windows && Homed(d', None) && Homed(d, None)
    requires LeftOut(d, d', d.windows[win].pending)
    ensures d'.windows[win].pending == d.windows[win].pending
    ensures HoldsChild(d', d.windows[win].pending) == HoldsChild(d, d.windows[win].pending)
  {
    var pending := d.windows[win].pending;
    if pending.Some? {
      assert Holds(d', win, pending.value) && Holds(d, win, pending.value);
    }
  }

  lemma EmptiedExactly(d: Desk, win: WinId, t: TabId)
    requires Homed(d, None) && Shows(d, win, t)
    ensures Remove(d.windows[win].strip, t) == [] <==> d.windows[win].strip == [t]
  {
    if |d.windows[win].strip| == 1 { assert d.windows[win].strip == [t]; }
  }

  /** A move strands a child exactly when it empties a secondary window that awaits a tab. */
  lemma MoveStrays(d: Desk, src: WinId, dest: WinId, t: TabId, index: int, prefer: seq<TabId>, world: VmTab.World)
    requires Inv(d) && NoStrays(d) && src != dest && dest in d.windows && Shows(d, src, t)
    ensures NoStrays(MoveTab(d, src, dest, t, index, prefer, world))
       <==> !(d.windows[src].strip == [t] && !d.windows[src].primary && HoldsChild(d, d.windows[src].pending))
  {
    var d0 := Detach(d, src, t, prefer, world);
    var d1 := Attach(d0, dest, t, index);
    var d2 := AdoptMovedTab(d1, dest, t, prefer, world);
    DetachGone(d, src, t, prefer, world);
    MoveLands(d, src, dest, t, index, prefer, world);
    MoveBeforeAdopt(d, src, dest, t, index, prefer, world);
    PendingLands(d, src, dest, t, index, prefer, world);
    EmptiedExactly(d, src, t);
    assert TabsValid(d2);
    hide Inv, TabsValid, Homed, Detach, Attach, AdoptMovedTab, AddTab, CloseWindow, Tidy, OneSettings;
    AdoptStrays(d1, dest, t, prefer, world);
    if d2.windows[src].strip == [] {
      if d2.windows[src].primary { AddTabGone(d2, src, WelcomePage, world); } else { CloseWindowStrays(d2, src); }
    }
  }

  lemma TearGone(d: Desk, src: WinId, t: TabId, prefer: seq<TabId>, world: VmTab.World)
    requires Inv(d) && Shows(d, src, t)
    ensures TearOut(d, src, t, prefer, world).gone == d.gone
  {
    if |d.windows[src].strip| > 1 {
      TearOutInv(d, src, t, prefer, world);
      DetachGone(d, src, t, prefer, world);
      EmptiedExactly(d, src, t);
      hide Inv, Detach, AddTab, CloseWindow;
    }
  }

  lemma ActivateStrays(d: Desk, win: WinId, prefer: seq<TabId>, world: VmTab.World)
    requires Inv(d) && NoStrays(d) && win in d.windows
    ensures NoStrays(Activate(d, win, prefer, world))
  {
    var w := d.windows[win];
    if w.pending.Some? {
      var d1 := Attach(d.(windows := d.windows[win := w.(pending := None)]), win, w.pending.value, -1);
      assert TabsValid(d1) && w.pending.value in d1.windows[win].strip;
      hide Inv, AdoptMovedTab;
      AdoptStrays(d1, win, w.pending.value, prefer, world);
    }
  }

  /** The actions that close nothing and move nothing. */
  predicate IsQuiet(a: Action) {
    a.SelectTab? || a.Push? || a.Pop? || a.Reordered? || a.Session? || a.RemoteSession?
  }

  lemma QuietGone(d: Desk, a: Action, world: VmTab.World)
    requires Possible(d, a) && IsQuiet(a)
    ensures Do(d, a, world).gone == d.gone
  {
    if a.SelectTab? { SelectGone(d, a.win, Some(a.t), world); }
    hide Select, VmTab.Step, RemoteTab.Step, Suppress;
  }

  lemma OpeningStrays(d: Desk, a: Action, world: VmTab.World)
    requires Inv(d) && NoStrays(d) && Possible(d, a) && IsOpening(a)
    ensures NoStrays(Do(d, a, world))
  {
    hide Inv, NewVmPage, NewRemotePage, OpenOrFocus, ReplaceTabWith, AddTab;
    match a
    case OpenVm(win, guid) => OpenGone(d, win, ForVm(guid), NewVmPage(win, guid), world);
    case OpenRemote(win, address, autoConnect) =>
      OpenGone(d, win, ForRemote(address), NewRemotePage(win, address, autoConnect), world);
    case OpenWelcome(win) => AddTabGone(d, win, WelcomePage, world);
    case OpenSettings(win) => OpenGone(d, win, ForSettings, SettingsPage, world);
    case Replace(win, t, guid, prefer) => ReplaceStrays(d, win, t, guid, prefer, world);
    case _ =>
  }

  lemma PolledStrays(d: Desk, win: WinId, known: set<string>, prefer: seq<TabId>, world: VmTab.World)
    requires Inv(d) && NoStrays(d) && win in d.windows
    ensures NoStrays(CloseDeleted(d, win, known, prefer, world))
  {
    InvHomed(d);
    DeletedMembers(d.windows[win].strip, d.pages, known);
    hide Inv, Homed;
    CloseAllStrays(d, win, Deleted(d.windows[win].strip, d.pages, known), prefer, world);
  }

  lemma ClosingStrays(d: Desk, a: Action, world: VmTab.World)
    requires Inv(d) && NoStrays(d) && Possible(d, a) && (a.CloseWin? || a.CloseTab? || a.Move?)
    ensures NoStrays(Do(d, a, world)) <==> !Strands(d, a)
  {
    InvHomed(d);
    assert TabsValid(d);
    hide Inv, NoStrays, TabsValid, Homed, CloseTabItem, CloseWindow, MoveTab, HoldsChild, HoldsSession;
    match a
    case CloseWin(win) => CloseWindowStrays(d, win);
    case CloseTab(win, t, prefer) => CloseItemStrays(d, win, t, prefer, world);
    case Move(src, dest, t, index, prefer) =>
      if src == dest { MoveNowhere(d, src, t, index, prefer, world); }
      else { MoveStrays(d, src, dest, t, index, prefer, world); }
    case _ =>
  }

  lemma OtherStrays(d: Desk, a: Action, world: VmTab.World)
    requires Inv(d) && NoStrays(d) && Possible(d, a) && (a.Tear? || a.Activated? || a.Polled?)
    ensures NoStrays(Do(d, a, world))
  {
    hide Inv, NoStrays, TearOut, Activate, CloseDeleted;
    match a
    case Tear(win, t, prefer) =>
      TearGone(d, win, t, prefer, world);
      SameGone(d, TearOut(d, win, t, prefer, world));
    case Activated(win, prefer) => ActivateStrays(d, win, prefer, world);
    case Polled(win, known, prefer) => PolledStrays(d, win, known, prefer, world);
    case _ =>
  }

  /** A child is left running without a window exactly when an action closes a window that was
      handed a tab with a child and has not adopted it. */
  lemma DoStrays(d: Desk, a: Action, world: VmTab.World)
    requires Inv(d) && NoStrays(d) && Possible(d, a)
    ensures NoStrays(Do(d, a, world)) <==> !Strands(d, a)
  {
    hide Inv, NoStrays, Do;
    if IsOpening(a) {
      OpeningStrays(d, a, world);
    } else if IsQuiet(a) {
      QuietGone(d, a, world);
      SameGone(d, Do(d, a, world));
    } else if a.CloseWin? || a.CloseTab? || a.Move? {
      ClosingStrays(d, a, world);
    } else {
      OtherStrays(d, a, world);
    }
  }

  lemma SameGone(d: Desk, d': Desk)
    requires d'.gone == d.gone
    ensures NoStrays(d') == NoStrays(d)
  {}

  /** No turn of the run closes a window with a waiting tab's child. */
  predicate NothingStranded(d: Desk, turns: seq<Turn>)
    decreases |turns|
  {
    turns == [] ||
    if Possible(d, turns[0].action)
    then !Strands(d, turns[0].action) && NothingStranded(Do(d, turns[0].action, turns[0].world), turns[1..])
    else NothingStranded(d, turns[1..])
  }

  /** A child that runs belongs to a page, and the page to a window. */
  ghost predicate ChildrenHeld(d: Desk) {
    && (forall t | t in d.gone :: Alive(d.gone[t]) == {})
    && (forall t | t in d.pages :: |Alive(d.pages[t])| <= 1 && exists w :: Holds(d, w, t))
  }

  lemma {:induction false} PlayStrays(d: Desk, turns: seq<Turn>)
    requires Inv(d) && NoStrays(d) && NothingStranded(d, turns)
    ensures ChildrenHeld(Play(d, turns))
    decreases |turns|
  {
    if turns == [] { HeldChildren(d); }
    hide Inv, NoStrays, Do, Possible, Strands, ChildrenHeld;
    if turns != [] {
      var a, world := turns[0].action, turns[0].world;
      if Possible(d, a) {
        DoInv(d, a, world);
        DoStrays(d, a, world);
        PlayStrays(Do(d, a, world), turns[1..]);
      } else {
        PlayStrays(d, turns[1..]);
      }
    }
  }

  lemma HeldChildren(d: Desk)
    requires Inv(d) && NoStrays(d)
    ensures ChildrenHeld(d)
  {
    assert TabsValid(d) && Homed(d, None);
    forall t | t in d.pages ensures |Alive(d.pages[t])| <= 1 { assert PageValid(d.pages[t]); }
  }

  /** A tab torn out with its child running, whose new window is closed before it was ever
      activated: nothing stops the child. */
  lemma TornChildStranded(d: Desk, src: WinId, t: TabId, prefer: seq<TabId>, world: VmTab.World)
    requires Inv(d) && NoStrays(d) && Shows(d, src, t) && |d.windows[src].strip| > 1
    requires t in d.pages && Alive(d.pages[t]) != {}
    ensures var d1 := TearOut(d, src, t, prefer, world);
            && d.nextWin in d1.windows && NoStrays(d1) && !NoStrays(CloseWindow(d1, d.nextWin))
  {
    var d1 := TearOut(d, src, t, prefer, world);
    TornPageSame(d, src, t, prefer, world);
    TearOutInv(d, src, t, prefer, world);
    TearGone(d, src, t, prefer, world);
    SameGone(d, d1);
    assert Homed(d1, None) && TabsValid(d1);
    hide Inv, Homed, TabsValid, TearOut, CloseWindow, Alive, NoStrays;
    CloseWindowStrays(d1, d.nextWin);
  }
}
