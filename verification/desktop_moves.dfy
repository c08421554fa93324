/** Moving tabs between windows and closing the tabs of deleted VMs: what is conserved. */
module DesktopMoves {
  import opened Wrappers
  import opened Strips
  import opened Desktop
  import opened DesktopRuns
  import VmTab
  import Runs = VmTabRuns

  lemma AdoptInv(d: Desk, win: WinId, t: TabId, prefer: seq<TabId>, world: VmTab.World)
    requires Homed(d, None) && win in d.windows && t in d.windows[win].strip && t in d.pages
    requires SelectionOk(d, None) && TabsValid(d) && PopupsFit(d, Some(t)) && OneSettings(d, Some(t))
    requires d.windows[win].selected != Some(t)
    ensures var d' := AdoptMovedTab(d, win, t, prefer, world);
            && Homed(d', None) && Tidy(d') && OneSettings(d', None) && AdoptFrame(d, d', win, t)
  {
    if d.pages[t].SettingsPage? {
      assert PopupsFit(d, None);
      hide Homed, SelectionOk, TabsValid, PopupsFit, OneSettings, AdoptMovedTab;
      AdoptSettings(d, win, t, prefer, world);
    } else {
      assert OneSettings(d, None) by { hide Homed, TabsValid, PopupsFit; }
      hide Homed, SelectionOk, TabsValid, PopupsFit, OneSettings, AdoptMovedTab;
      AdoptOther(d, win, t, prefer, world);
    }
  }

  /** A tab in hand is put into a strip and adopted there. */
  lemma Land(d: Desk, win: WinId, t: TabId, index: int, prefer: seq<TabId>, world: VmTab.World)
    requires Homed(d, Some(t)) && Tidy(d) && OneSettings(d, None) && win in d.windows
    ensures var d1 := Attach(d, win, t, index);
            var d' := AdoptMovedTab(d1, win, t, prefer, world);
            && Homed(d', None) && Tidy(d') && OneSettings(d', None)
            && AdoptFrame(d1, d', win, t) && SameElsewhere(d, d1, win) && d1.pages == d.pages && Gained(d, d1, win, t)
  {
    assert t in d.pages;
    hide Homed, TabsValid, PopupsFit, OneSettings, AdoptMovedTab, Attach;
    AttachTidy(d, win, t, index);
    var d1 := Attach(d, win, t, index);
    AttachedSettings(d, d1, win, t);
    AdoptInv(d1, win, t, prefer, world);
  }

  /** Where every tab is after `t` went from window `src` to `dest`: no other tab changed its
      window; what is gone is an older Settings tab of `dest` or what a closed source had
      pending; what is new is the welcome tab of an emptied primary window. */
  ghost predicate Moved(d: Desk, d': Desk, src: WinId, dest: WinId, t: TabId) {
    && src in d.windows && t in d.pages && Shows(d', dest, t) && d'.windows[dest].selected == Some(t)
    && TabsMoved(d, d', src, dest, t) && PagesMoved(d, d', src, dest, t) && WindowsMoved(d, d', src, t)
  }

  ghost predicate TabsMoved(d: Desk, d': Desk, src: WinId, dest: WinId, t: TabId) {
    forall w, u | Holds(d', w, u) ::
      if u == t then w == dest
      else if u in d.pages then Holds(d, w, u)
      else w == src && u == d.nextTab && u in d'.pages && d'.pages[u].WelcomePage?
           && src in d.windows && d.windows[src].primary
  }

  ghost predicate PagesMoved(d: Desk, d': Desk, src: WinId, dest: WinId, t: TabId) {
    && SameKinds(d, d')
    && (forall u | u in d.pages && u !in d'.pages ::
          || (t in d.pages && d.pages[t].SettingsPage? && IsSettings(d, dest, u))
          || (src !in d'.windows && src in d.windows && d.windows[src].pending == Some(u)))
  }

  ghost predicate WindowsMoved(d: Desk, d': Desk, src: WinId, t: TabId) {
    && src in d.windows && d'.windows.Keys + {src} == d.windows.Keys
    && (forall w | w in d'.windows :: d'.windows[w].depth == d.windows[w].depth)
    && (src !in d'.windows ==> !d.windows[src].primary && forall u | u in d.windows[src].strip :: u == t)
  }

  /** The desk once `t` has landed and before its old window has looked at what it lost. */
  ghost predicate Landed(d: Desk, d': Desk, src: WinId, dest: WinId, t: TabId) {
    && t in d.pages
    && WindowsLanded(d, d', src, dest, t) && TabsLanded(d, d', dest, t) && PagesLanded(d, d', dest, t)
  }

  ghost predicate WindowsLanded(d: Desk, d': Desk, src: WinId, dest: WinId, t: TabId) {
    && src in d.windows && Shows(d', dest, t) && d'.windows[dest].selected == Some(t)
    && d'.windows.Keys == d.windows.Keys && d'.nextTab == d.nextTab && d'.nextWin == d.nextWin
    && (forall w | w in d.windows :: SameFrame(d.windows[w], d'.windows[w]))
    && (forall w | w in d.windows && w != src && w != dest :: d'.windows[w].strip == d.windows[w].strip)
    && d'.windows[src].strip == Remove(d.windows[src].strip, t)
  }

  ghost predicate TabsLanded(d: Desk, d': Desk, dest: WinId, t: TabId) {
    forall w, u | Holds(d', w, u) :: if u == t then w == dest else Holds(d, w, u)
  }

  ghost predicate PagesLanded(d: Desk, d': Desk, dest: WinId, t: TabId) {
    && d'.pages.Keys <= d.pages.Keys && SameKinds(d, d')
    && (forall u | u in d.pages && u !in d'.pages :: t in d.pages && d.pages[t].SettingsPage? && IsSettings(d, dest, u))
  }

  lemma MoveLands(d: Desk, src: WinId, dest: WinId, t: TabId, index: int, prefer: seq<TabId>, world: VmTab.World)
    requires Inv(d) && src != dest && dest in d.windows && Shows(d, src, t)
    ensures var d1 := Attach(Detach(d, src, t, prefer, world), dest, t, index);
            var d2 := AdoptMovedTab(d1, dest, t, prefer, world);
            Homed(d2, None) && Tidy(d2) && OneSettings(d2, None) && Landed(d, d2, src, dest, t)
  {
    var d0 := Detach(d, src, t, prefer, world);
    ShownOnce(d, src, t, None);
    RemoveShown(d, src, t, None);
    hide Homed, Tidy, OneSettings, Detach, AdoptMovedTab, Attach, Manned, Gained, AdoptFrame, Landed;
    DetachTidy(d, src, t, prefer, world);
    SameKindsOneSettings(d, d0, None);
    Land(d0, dest, t, index, prefer, world);
    LandedFrame(d, d0, Attach(d0, dest, t, index), AdoptMovedTab(Attach(d0, dest, t, index), dest, t, prefer,
                                                                 world), src, dest, t);
  }

  ghost predicate Gained(d: Desk, d': Desk, win: WinId, t: TabId) {
    win in d.windows && win in d'.windows
    && forall u :: u in d'.windows[win].strip <==> u in d.windows[win].strip || u == t
  }

  lemma LandedFrame(d: Desk, d0: Desk, d1: Desk, d2: Desk, src: WinId, dest: WinId, t: TabId)
    requires src != dest && dest in d.windows && Homed(d, None) && Shows(d, src, t)
    requires SameElsewhere(d, d0, src) && SameKinds(d, d0) && d0.pages.Keys == d.pages.Keys
    requires d0.windows[src].strip == Remove(d.windows[src].strip, t)
    requires SameElsewhere(d0, d1, dest) && d1.pages == d0.pages && AdoptFrame(d1, d2, dest, t)
    requires Gained(d0, d1, dest, t)
    ensures Landed(d, d2, src, dest, t)
  {
    ShownOnce(d, src, t, None);
    hide Homed, SameKinds, SameElsewhere, AdoptFrame, Remove, Gained, WindowsLanded, TabsLanded, PagesLanded;
    LandedHolds(d, d0, d1, d2, src, dest, t);
    LandedWindows(d, d0, d1, d2, src, dest, t);
    LandedPages(d, d0, d1, d2, src, dest, t);
  }

  lemma LandedWindows(d: Desk, d0: Desk, d1: Desk, d2: Desk, src: WinId, dest: WinId, t: TabId)
    requires src != dest && dest in d.windows
    requires SameElsewhere(d, d0, src) && d0.windows[src].strip == Remove(d.windows[src].strip, t)
    requires SameElsewhere(d0, d1, dest) && AdoptFrame(d1, d2, dest, t)
    ensures WindowsLanded(d, d2, src, dest, t)
  {
    hide SameKinds, Holds, IsSettings, Remove;
    assert SameFrame(d.windows[src], d0.windows[src]) && SameFrame(d0.windows[dest], d1.windows[dest]);
  }

  lemma LandedPages(d: Desk, d0: Desk, d1: Desk, d2: Desk, src: WinId, dest: WinId, t: TabId)
    requires src != dest && dest in d.windows && t in d.pages
    requires SameElsewhere(d, d0, src) && SameKinds(d, d0) && d0.pages.Keys == d.pages.Keys
    requires SameElsewhere(d0, d1, dest) && d1.pages == d0.pages && AdoptFrame(d1, d2, dest, t)
    requires Gained(d0, d1, dest, t)
    ensures PagesLanded(d, d2, dest, t)
  {
    forall u | u in d.pages && u !in d2.pages ensures d.pages[t].SettingsPage? && IsSettings(d, dest, u) {
      assert IsSettings(d1, dest, t) && IsSettings(d1, dest, u) && u != t;
    }
  }

  lemma LandedHolds(d: Desk, d0: Desk, d1: Desk, d2: Desk, src: WinId, dest: WinId, t: TabId)
    requires src != dest && dest in d.windows && Homed(d, None) && Shows(d, src, t)
    requires SameElsewhere(d, d0, src) && d0.windows[src].strip == Remove(d.windows[src].strip, t)
    requires SameElsewhere(d0, d1, dest) && AdoptFrame(d1, d2, dest, t)
    requires Gained(d0, d1, dest, t)
    ensures TabsLanded(d, d2, dest, t)
  {
    RemoveShown(d, src, t, None);
    assert Holds(d, src, t);
    forall w, u | Holds(d2, w, u) ensures if u == t then w == dest else Holds(d, w, u) {
      assert Holds(d1, w, u);
      if !(u == t && w == dest) { assert Holds(d, w, u); }
    }
  }

  lemma MoveInv(d: Desk, src: WinId, dest: WinId, t: TabId, index: int, prefer: seq<TabId>, world: VmTab.World)
    requires Inv(d) && src != dest && dest in d.windows && Shows(d, src, t)
    ensures var d' := MoveTab(d, src, dest, t, index, prefer, world);
            Inv(d') && Moved(d, d', src, dest, t)
  {
    var d2 := AdoptMovedTab(Attach(Detach(d, src, t, prefer, world), dest, t, index), dest, t, prefer, world);
    MoveLands(d, src, dest, t, index, prefer, world);
    LandedManned(d, d2, src, dest, t);
    hide Homed, Tidy, OneSettings, Manned, Detach, AdoptMovedTab, Attach, AddTab, CloseWindow;
    SourceSettles(d, d2, src, dest, t, world);
  }

  lemma LandedManned(d: Desk, d2: Desk, src: WinId, dest: WinId, t: TabId)
    requires Manned(d, None) && Landed(d, d2, src, dest, t)
    ensures Manned(d2, Some(src))
  {}

  lemma SourceSettles(d: Desk, d2: Desk, src: WinId, dest: WinId, t: TabId, world: VmTab.World)
    requires src != dest && Homed(d, None) && Shows(d, src, t)
    requires Homed(d2, None) && Tidy(d2) && OneSettings(d2, None) && Manned(d2, Some(src))
             && Landed(d, d2, src, dest, t)
    ensures var d' := HandleSourceAfterDetach(d2, src, world);
            Inv(d') && Moved(d, d', src, dest, t)
  {
    if d2.windows[src].strip != [] {
      hide Homed, Tidy, OneSettings, Landed, Moved;
      LandedMoved(d, d2, src, dest, t);
    } else {
      hide Homed, Tidy, OneSettings, Manned, Landed, Moved, AddTab, CloseWindow;
      if d2.windows[src].primary {
        SourceWelcomes(d, d2, src, dest, t, world);
      } else {
        CloseWindowInv(d2, src);
        ClosedMoved(d, d2, src, dest, t);
      }
    }
  }

  lemma SourceWelcomes(d: Desk, d2: Desk, src: WinId, dest: WinId, t: TabId, world: VmTab.World)
    requires src != dest && Homed(d, None) && Shows(d, src, t) && Landed(d, d2, src, dest, t)
    requires Homed(d2, None) && Tidy(d2) && OneSettings(d2, None) && Manned(d2, Some(src))
    requires src in d2.windows && d2.windows[src].primary && d2.windows[src].strip == []
    ensures var d' := OpenWelcomeTab(d2, src, world);
            Inv(d') && Moved(d, d', src, dest, t)
  {
    hide Homed, Tidy, OneSettings, Manned, Landed, Moved, AddTab, SameKinds, SameKind;
    AddTabInv(d2, src, WelcomePage, world);
    assert [] + [d2.nextTab] == [d2.nextTab];
    WelcomeMoved(d, d2, AddTab(d2, src, WelcomePage, world), src, dest, t);
  }

  lemma LandedMoved(d: Desk, d2: Desk, src: WinId, dest: WinId, t: TabId)
    requires Homed(d, None) && Shows(d, src, t) && Homed(d2, None) && Landed(d, d2, src, dest, t)
    ensures Moved(d, d2, src, dest, t)
  {
    forall w, u | Holds(d2, w, u) && u != t ensures u in d.pages {
      assert Holds(d, w, u);
    }
    hide Homed, SameKinds;
  }

  /** The emptied primary window with its welcome tab. */
  ghost predicate Welcomed(d2: Desk, d': Desk, src: WinId) {
    && src in d2.windows && d2.windows[src].primary && d2.windows[src].strip == []
    && d'.windows.Keys == d2.windows.Keys && d'.pages.Keys == d2.pages.Keys + {d2.nextTab}
    && d'.windows[src].strip == [d2.nextTab] && SameFrame(d2.windows[src], d'.windows[src])
    && (forall w | w in d2.windows && w != src :: d'.windows[w] == d2.windows[w])
    && SameKind(WelcomePage, d'.pages[d2.nextTab]) && SameKinds(d2, d')
  }

  lemma WelcomeMoved(d: Desk, d2: Desk, d': Desk, src: WinId, dest: WinId, t: TabId)
    requires Homed(d, None) && Landed(d, d2, src, dest, t) && src != dest && Welcomed(d2, d', src)
    ensures Moved(d, d', src, dest, t)
  {
    WelcomeTabs(d, d2, d', src, dest, t);
    WelcomePages(d, d2, d', src, dest, t);
    WelcomeWindows(d, d2, d', src, dest, t);
    hide Homed, SameKinds, Holds, TabsMoved, PagesMoved, WindowsMoved;
  }

  lemma WelcomeTabs(d: Desk, d2: Desk, d': Desk, src: WinId, dest: WinId, t: TabId)
    requires Homed(d, None) && Landed(d, d2, src, dest, t) && Welcomed(d2, d', src)
    ensures TabsMoved(d, d', src, dest, t)
  {
    assert d.nextTab !in d.pages && t < d.nextTab && d2.nextTab == d.nextTab;
    assert d.windows[src].primary == d2.windows[src].primary;
    assert forall w, u | Holds(d, w, u) :: u in d.pages;
    hide Homed, SameKinds, IsSettings;
    forall w, u | Holds(d', w, u) && u != d.nextTab ensures Holds(d2, w, u) {}
    forall w, u | Holds(d', w, u) && w != src ensures Holds(d2, w, u) && (u == t || Holds(d, w, u)) {}
  }

  lemma WelcomePages(d: Desk, d2: Desk, d': Desk, src: WinId, dest: WinId, t: TabId)
    requires Homed(d, None) && Landed(d, d2, src, dest, t) && Welcomed(d2, d', src)
    ensures PagesMoved(d, d', src, dest, t)
  {
    forall u | u in d.pages && u in d'.pages ensures u in d2.pages {
      assert u < d.nextTab == d2.nextTab;
    }
    hide Homed, IsSettings, Holds;
    SameKindsTrans(d, d2, d');
  }

  lemma WelcomeWindows(d: Desk, d2: Desk, d': Desk, src: WinId, dest: WinId, t: TabId)
    requires Landed(d, d2, src, dest, t) && src != dest && Welcomed(d2, d', src)
    ensures WindowsMoved(d, d', src, t) && Shows(d', dest, t) && d'.windows[dest].selected == Some(t)
  {
    hide SameKinds, Holds, IsSettings, Remove;
  }

  lemma ClosedMoved(d: Desk, d2: Desk, src: WinId, dest: WinId, t: TabId)
    requires Homed(d, None) && Shows(d, src, t) && Landed(d, d2, src, dest, t) && src != dest
    requires !d2.windows[src].primary && d2.windows[src].strip == []
    ensures Moved(d, CloseWindow(d2, src), src, dest, t)
  {
    RemoveShown(d, src, t, None);
    ClosedTabs(d, d2, src, dest, t);
    ClosedPages(d, d2, src, dest, t);
    var d' := CloseWindow(d2, src);
    assert d'.windows.Keys + {src} == d.windows.Keys;
    hide Homed, SameKinds, Holds, TabsMoved, PagesMoved;
  }

  lemma ClosedTabs(d: Desk, d2: Desk, src: WinId, dest: WinId, t: TabId)
    requires Homed(d, None) && Landed(d, d2, src, dest, t)
    ensures TabsMoved(d, CloseWindow(d2, src), src, dest, t)
  {
    var d' := CloseWindow(d2, src);
    hide SameKinds, IsSettings;
    forall w, u | Holds(d', w, u) ensures if u == t then w == dest else u in d.pages && Holds(d, w, u) {
      assert Holds(d2, w, u);
    }
  }

  lemma ClosedPages(d: Desk, d2: Desk, src: WinId, dest: WinId, t: TabId)
    requires Landed(d, d2, src, dest, t) && d2.windows[src].strip == []
    ensures PagesMoved(d, CloseWindow(d2, src), src, dest, t)
  {
    assert SameFrame(d.windows[src], d2.windows[src]);
    hide SameKind, IsSettings, Holds;
  }

  // ---- tear-out --------------------------------------------------------------

  /** Only the tab changed hands: it waits, alone, in a new secondary window. */
  ghost predicate TornOut(d: Desk, d': Desk, src: WinId, t: TabId) {
    && src in d.windows && src in d'.windows && d.nextWin !in d.windows
    && d'.windows.Keys == d.windows.Keys + {d.nextWin} && d'.pages.Keys == d.pages.Keys
    && d'.windows[d.nextWin] == Window(false, [], None, Some(t), 0)
    && d'.windows[src].strip == Remove(d.windows[src].strip, t)
    && (forall w | w in d.windows && w != src :: d'.windows[w] == d.windows[w])
    && SameFrame(d.windows[src], d'.windows[src]) && SameKinds(d, d')
  }

  lemma TearOutInv(d: Desk, src: WinId, t: TabId, prefer: seq<TabId>, world: VmTab.World)
    requires Inv(d) && Shows(d, src, t) && |d.windows[src].strip| > 1
    ensures var d' := TearOut(d, src, t, prefer, world);
            Inv(d') && TornOut(d, d', src, t)
  {
    var d1 := Detach(d, src, t, prefer, world);
    assert d.nextWin !in d.windows;
    hide Homed, Tidy, OneSettings, Manned, Detach, SameKinds, TearOut, TornOut;
    DetachTidy(d, src, t, prefer, world);
    RemoveShown(d, src, t, None);
    SameKindsOneSettings(d, d1, None);
    TornShape(d, d1, src, t);
    NewWindow(d, d1, src, t);
    TearOutIsNewWindow(d, src, t, prefer, world);
  }

  lemma TearOutIsNewWindow(d: Desk, src: WinId, t: TabId, prefer: seq<TabId>, world: VmTab.World)
    requires Shows(d, src, t) && |d.windows[src].strip| > 1 && d.nextWin !in d.windows
    requires src in Detach(d, src, t, prefer, world).windows
             && Detach(d, src, t, prefer, world).windows[src].strip != []
    ensures var d1 := Detach(d, src, t, prefer, world);
            TearOut(d, src, t, prefer, world)
            == d1.(windows := d1.windows[d.nextWin := Window(false, [], None, Some(t), 0)], nextWin := d.nextWin + 1)
  {
    hide Detach, AddTab, CloseWindow;
  }

  lemma TornShape(d: Desk, d1: Desk, src: WinId, t: TabId)
    requires Homed(d, None) && SameElsewhere(d, d1, src) && SameKinds(d, d1) && d1.pages.Keys == d.pages.Keys
    requires Shows(d, src, t) && |d.windows[src].strip| > 1 && d1.windows[src].strip == Remove(d.windows[src].strip, t)
    ensures d1.windows[src].strip != []
    ensures TornOut(d, d1.(windows := d1.windows[d.nextWin := Window(false, [], None, Some(t), 0)],
                    nextWin := d.nextWin + 1), src, t)
  {
    var d' := d1.(windows := d1.windows[d.nextWin := Window(false, [], None, Some(t), 0)], nextWin := d.nextWin + 1);
    assert d.nextWin !in d.windows;
    assert d'.windows.Keys == d.windows.Keys + {d.nextWin};
    assert SameKinds(d, d');
    hide SameKinds, Homed;
  }

  lemma NewWindow(d: Desk, d1: Desk, src: WinId, t: TabId)
    requires Homed(d, None) && d.nextWin !in d.windows && Manned(d, None) && src in d.windows
    requires Homed(d1, Some(t)) && Tidy(d1) && OneSettings(d1, None) && SameElsewhere(d, d1, src)
             && d1.windows[src].strip != []
    ensures Inv(d1.(windows := d1.windows[d.nextWin := Window(false, [], None, Some(t), 0)], nextWin := d.nextWin + 1))
  {
    var d2 := d1.(windows := d1.windows[d.nextWin := Window(false, [], None, Some(t), 0)], nextWin := d.nextWin + 1);
    hide Homed, TabsValid, OneSettings, Tidy, Manned;
    NewWindowManned(d, d1, d2, src);
    hide SameElsewhere;
    NewWindowHomed(d, d1, src, t);
    NewWindowTidy(d1, d2, d.nextWin);
  }

  lemma NewWindowManned(d: Desk, d1: Desk, d2: Desk, src: WinId)
    requires Manned(d, None) && SameElsewhere(d, d1, src) && d1.windows[src].strip != []
    requires forall w | w in d2.windows ::
               (w in d1.windows && d2.windows[w] == d1.windows[w]) || d2.windows[w].pending.Some?
    ensures Manned(d2, None)
  {}

  lemma NewWindowTidy(d1: Desk, d2: Desk, win: WinId)
    requires Tidy(d1) && OneSettings(d1, None) && win !in d1.windows && d2.pages == d1.pages
    requires d2.windows.Keys == d1.windows.Keys + {win} && d2.windows[win].strip == []
             && d2.windows[win].selected == None
    requires forall w | w in d1.windows :: d2.windows[w] == d1.windows[w]
    ensures Tidy(d2) && OneSettings(d2, None)
  {
    assert TabsValid(d2);
    hide TabsValid;
    forall w | w in d2.windows ensures w == win || (w in d1.windows && d2.windows[w] == d1.windows[w]) {
      assert w in d1.windows.Keys + {win};
    }
    forall w, u | IsSettings(d2, w, u) ensures IsSettings(d1, w, u) {}
    assert OneSettings(d2, None);
    assert SelectionOk(d2, None);
    assert PopupsFit(d2, None);
  }

  lemma NewWindowHomed(d: Desk, d1: Desk, src: WinId, t: TabId)
    requires Homed(d, None) && src in d.windows && Homed(d1, Some(t)) && d1.nextWin == d.nextWin
             && d1.windows.Keys == d.windows.Keys
    ensures d.nextWin !in d.windows
    ensures Homed(d1.(windows := d1.windows[d.nextWin := Window(false, [], None, Some(t), 0)],
                  nextWin := d.nextWin + 1), None)
  {
    var d2 := d1.(windows := d1.windows[d.nextWin := Window(false, [], None, Some(t), 0)], nextWin := d.nextWin + 1);
    assert d.nextWin !in d1.windows;
    forall w, u ensures Holds(d2, w, u) <==> Holds(d1, w, u) || (w == d.nextWin && u == t) {}
    forall u | u in d2.pages ensures exists w :: Holds(d2, w, u) {
      if u == t {
        assert Holds(d2, d.nextWin, u);
      } else {
        var w: WinId :| Holds(d1, w, u);
        assert Holds(d2, w, u);
      }
    }
  }

  /** The new window's first activation: the tab handed over is the one now shown. */
  lemma ActivateInv(d: Desk, win: WinId, prefer: seq<TabId>, world: VmTab.World)
    requires Inv(d) && win in d.windows
    ensures var d' := Activate(d, win, prefer, world);
            && Inv(d') && d'.windows.Keys == d.windows.Keys
            && (d.windows[win].pending.Some? ==> ActivatedFrame(d, d', win, d.windows[win].pending.value))
  {
    var w := d.windows[win];
    if w.pending.Some? {
      var t := w.pending.value;
      var d0 := d.(windows := d.windows[win := w.(pending := None)]);
      PendingLoose(d, d0, win);
      hide Homed, Tidy, OneSettings, Manned, AdoptMovedTab, Attach;
      Land(d0, win, t, -1, prefer, world);
      ActivatedManned(d, d0, Attach(d0, win, t, -1), AdoptMovedTab(Attach(d0, win, t, -1), win, t, prefer, world),
                      win, t);
    }
  }

  ghost predicate ActivatedFrame(d: Desk, d': Desk, win: WinId, t: TabId) {
    && win in d.windows && d'.windows.Keys == d.windows.Keys && t in d.pages && d'.nextTab == d.nextTab
    && Shows(d', win, t) && SameKinds(d, d') && d'.pages.Keys <= d.pages.Keys
    && d'.windows[win].selected == Some(t) && d'.windows[win].pending.None?
    && (forall w | w in d.windows :: d'.windows[w].depth == d.windows[w].depth)
    && (forall w | w in d.windows && w != win ::
          SameFrame(d.windows[w], d'.windows[w]) && d'.windows[w].strip == d.windows[w].strip)
    && (forall u | u in d'.windows[win].strip :: u in d.windows[win].strip || u == t)
    && (forall u | u in d.pages && u !in d'.pages :: d.pages[t].SettingsPage? && IsSettings(d, win, u))
  }

  lemma ActivatedManned(d: Desk, d0: Desk, d1: Desk, d2: Desk, win: WinId, t: TabId)
    requires Manned(d, None) && win in d.windows && t in d.pages
    requires d0 == d.(windows := d.windows[win := d.windows[win].(pending := None)])
    requires AdoptFrame(d1, d2, win, t) && SameElsewhere(d0, d1, win) && d1.pages == d0.pages
    requires Gained(d0, d1, win, t)
    ensures Manned(d2, None) && ActivatedFrame(d, d2, win, t)
  {
    forall w | w in d.windows && w != win ensures SameFrame(d.windows[w], d2.windows[w])
                                                  && d2.windows[w].strip == d.windows[w].strip {
      assert d1.windows[w] == d0.windows[w];
    }
    forall u | u in d.pages && u !in d2.pages ensures d.pages[t].SettingsPage? && IsSettings(d, win, u) {
      assert IsSettings(d1, win, t) && IsSettings(d1, win, u) && u != t;
    }
  }

  lemma PendingLoose(d: Desk, d0: Desk, win: WinId)
    requires Homed(d, None) && Tidy(d) && OneSettings(d, None) && win in d.windows && d.windows[win].pending.Some?
    requires d0 == d.(windows := d.windows[win := d.windows[win].(pending := None)])
    ensures d.windows[win].pending.value in d.pages
    ensures Homed(d0, d.windows[win].pending) && Tidy(d0) && OneSettings(d0, None)
  {
    PendingLooseHomed(d, d0, win);
    PendingLooseTidy(d, d0, win);
  }

  lemma PendingLooseTidy(d: Desk, d0: Desk, win: WinId)
    requires Tidy(d) && OneSettings(d, None) && win in d.windows
    requires d0 == d.(windows := d.windows[win := d.windows[win].(pending := None)])
    ensures Tidy(d0) && OneSettings(d0, None)
  {
    assert Tidy(d0) by { hide PageValid, Fits; }
    hide Tidy;
    forall w, u ensures IsSettings(d0, w, u) == IsSettings(d, w, u) {}
  }

  lemma PendingLooseHomed(d: Desk, d0: Desk, win: WinId)
    requires Homed(d, None) && win in d.windows && d.windows[win].pending.Some?
    requires d0 == d.(windows := d.windows[win := d.windows[win].(pending := None)])
    ensures d.windows[win].pending.value in d.pages && Homed(d0, d.windows[win].pending)
  {
    var t := d.windows[win].pending.value;
    assert Holds(d, win, t);
    forall w, u ensures Holds(d0, w, u) <==> Holds(d, w, u) && u != t {
      if u == t && Holds(d, w, u) { assert w == win; }
    }
    forall u | u in d0.pages && u != t ensures exists w :: Holds(d0, w, u) {
      var w :| Holds(d, w, u);
      assert Holds(d0, w, u);
    }
  }

  // ---- drops carried out late --------------------------------------------------

  /** `src` is the window that shows the tab, if there is one. */
  ghost predicate ShownBy(d: Desk, src: Option<WinId>, t: TabId) {
    match src
    case Some(w) => Shows(d, w, t)
    case None => forall w :: !Shows(d, w, t)
  }

  /** A deferred move keeps every tab in exactly one place if and only if some window still
      shows the tab: of a tab closed in the meantime it puts back an item without a page. */
  lemma MoveDroppedInv(d: Desk, src: Option<WinId>, dest: WinId, t: TabId, index: int, prefer: seq<TabId>,
                       world: VmTab.World)
    requires Inv(d) && dest in d.windows && ShownBy(d, src, t)
    ensures Inv(MoveDropped(d, src, dest, t, index, prefer, world)) <==> src.Some?
  {
    if src.Some? {
      hide Inv, MoveTab;
      if src.value == dest {
        MoveToSelf(d, dest, t, index, prefer, world);
      } else {
        MoveInv(d, src.value, dest, t, index, prefer, world);
      }
    } else {
      var d' := MoveDropped(d, src, dest, t, index, prefer, world);
      StrayLands(d, dest, t, index, prefer, world);
      StrayHeld(d, t);
      hide Inv, AdoptMovedTab, Attach;
      StrayBreaks(d, d', dest, t);
    }
  }

  /** The same for a deferred tear-out: a closed tab's item would wait without a page. */
  lemma TearDroppedInv(d: Desk, src: Option<WinId>, t: TabId, prefer: seq<TabId>, world: VmTab.World)
    requires Inv(d) && ShownBy(d, src, t)
    ensures Inv(TearDropped(d, src, t, prefer, world)) <==> src.Some?
    ensures src.None? ==>
              var d' := TearDropped(d, src, t, prefer, world);
              && d'.windows == d.windows[d.nextWin := Window(false, [], None, Some(t), 0)] && d'.pages == d.pages
              && d'.nextWin == d.nextWin + 1
  {
    if src.Some? {
      hide Inv, Detach, HandleSourceAfterDetach;
      if |d.windows[src.value].strip| > 1 { TearOutInv(d, src.value, t, prefer, world); }
    } else {
      var d' := TearDropped(d, src, t, prefer, world);
      StrayHeld(d, t);
      assert Holds(d', d.nextWin, t);
      if t in d.pages {
        var w :| w in d.windows && d.windows[w].pending == Some(t);
        assert w != d.nextWin && Holds(d', w, t);
      }
    }
  }

  lemma MoveToSelf(d: Desk, win: WinId, t: TabId, index: int, prefer: seq<TabId>, world: VmTab.World)
    requires win in d.windows
    ensures MoveTab(d, win, win, t, index, prefer, world) == d
  {}

  /** A page no window shows waits to be adopted somewhere. */
  lemma StrayHeld(d: Desk, t: TabId)
    requires Homed(d, None) && forall w :: !Shows(d, w, t)
    ensures t in d.pages ==> exists w :: w in d.windows && d.windows[w].pending == Some(t)
  {
    if t in d.pages {
      var w :| Holds(d, w, t);
      assert !Shows(d, w, t);
    }
  }

  lemma StrayBreaks(d: Desk, d': Desk, dest: WinId, t: TabId)
    requires Shows(d', dest, t) && (t in d'.pages ==> t in d.pages)
    requires t in d.pages ==> exists w :: w in d.windows && d.windows[w].pending == Some(t)
    requires forall w | w in d.windows :: w in d'.windows && d'.windows[w].pending == d.windows[w].pending
    ensures !Homed(d', None)
  {
    assert Holds(d', dest, t);
    if t in d.pages {
      var w :| w in d.windows && d.windows[w].pending == Some(t);
      assert Holds(d', w, t);
    }
  }

  /** The item is shown at its destination, and no other window's pending item changes. */
  lemma StrayLands(d: Desk, dest: WinId, t: TabId, index: int, prefer: seq<TabId>, world: VmTab.World)
    requires Homed(d, None) && dest in d.windows
    ensures var d' := MoveDropped(d, None, dest, t, index, prefer, world);
            && Shows(d', dest, t) && (t in d'.pages ==> t in d.pages)
            && (forall w | w in d.windows :: w in d'.windows && d'.windows[w].pending == d.windows[w].pending)
  {
    var d1 := Attach(d, dest, t, index);
    assert t in d1.windows[dest].strip && d1.pages == d.pages;
    assert forall w | w in d.windows :: w in d1.windows && d1.windows[w].pending == d.windows[w].pending;
    hide Attach, Homed, AdoptMovedTab;
    AdoptBeside(d1, dest, t, prefer, world);
  }

  lemma AdoptBeside(d: Desk, win: WinId, t: TabId, prefer: seq<TabId>, world: VmTab.World)
    requires win in d.windows && t in d.windows[win].strip
    ensures var d' := AdoptMovedTab(d, win, t, prefer, world);
            && Shows(d', win, t) && (t in d'.pages ==> t in d.pages)
            && (forall w | w in d.windows :: w in d'.windows && d'.windows[w].pending == d.windows[w].pending)
  {
    var d1 := if t in d.pages then d.(pages := d.pages[t := Rehome(d.pages[t], win)]) else d;
    var other := Find(d.windows[win].strip, d.pages, ForSettings, Some(t));
    hide CloseTabItem, Select, Rehome, Find;
    if other.Some? { CloseBeside(d1, win, other.value, t, prefer, world); }
    var d2 := if t in d.pages && d.pages[t].SettingsPage? && other.Some?
    then CloseTabItem(d1, win, other.value, prefer, world) else d1;
    SelectBeside(d2, win, Some(t), world);
  }

  lemma SelectBeside(d: Desk, win: WinId, t: Option<TabId>, world: VmTab.World)
    requires win in d.windows
    ensures var d' := Select(d, win, t, world);
            && d'.pages.Keys == d.pages.Keys && win in d'.windows && d'.windows[win].strip == d.windows[win].strip
            && (forall w | w in d.windows :: w in d'.windows && d'.windows[w].pending == d.windows[w].pending)
  {}

  /** Closing a tab leaves the others of its strip, and every pending item, where they are. */
  lemma CloseBeside(d: Desk, win: WinId, t: TabId, u: TabId, prefer: seq<TabId>, world: VmTab.World)
    requires win in d.windows && u in d.windows[win].strip && u != t
    ensures var d' := CloseTabItem(d, win, t, prefer, world);
            && Shows(d', win, u) && d'.pages.Keys <= d.pages.Keys
            && (forall w | w in d.windows :: w in d'.windows && d'.windows[w].pending == d.windows[w].pending)
  {
    RemoveOther(d.windows[win].strip, t, u);
    DetachBeside(DropPage(d, t), win, t, u, prefer, world);
    hide Detach, Part;
  }

  lemma DetachBeside(d: Desk, win: WinId, t: TabId, u: TabId, prefer: seq<TabId>, world: VmTab.World)
    requires win in d.windows && u in Remove(d.windows[win].strip, t)
    ensures var d' := Detach(d, win, t, prefer, world);
            && Shows(d', win, u) && d'.pages.Keys == d.pages.Keys && d'.windows.Keys == d.windows.Keys
            && (forall w | w in d.windows :: d'.windows[w].pending == d.windows[w].pending)
  {}

  lemma {:induction false} RemoveOther(s: seq<TabId>, x: TabId, y: TabId)
    requires y in s && y != x
    ensures y in Remove(s, x)
  {
    if s[0] != x && s[0] != y { RemoveOther(s[1..], x, y); }
  }
}
