/** Opening, focusing and closing: what goes, what stays, what takes its place. */
module DesktopCloses {
  import opened Wrappers
  import opened Strips
  import opened Desktop
  import opened DesktopRuns
  import VmTab
  import Runs = VmTabRuns

  /** Windows only lose tabs, but for new ones that own no popup; pages and depths are kept. */
  ghost predicate Kept(d: Desk, d': Desk) {
    && d.nextTab <= d'.nextTab && SameKinds(d, d')
    && (forall u | u in d'.pages :: u in d.pages || (d.nextTab <= u && !IsSession(d'.pages[u])))
    && (forall w | w in d'.windows :: w in d.windows && d'.windows[w].depth == d.windows[w].depth)
    && (forall w, u | Holds(d', w, u) :: Holds(d, w, u) || d.nextTab <= u)
  }

  lemma KeptTrans(d: Desk, d1: Desk, d2: Desk)
    requires Kept(d, d1) && Kept(d1, d2) && Homed(d, None)
    ensures Kept(d, d2)
  {
    assert forall u | u in d.pages :: u < d.nextTab;
    hide Homed;
    forall u | u in d.pages && u in d2.pages ensures SameKind(d.pages[u], d2.pages[u]) {
      assert u in d1.pages;
    }
    forall u | u in d2.pages && u !in d.pages ensures d.nextTab <= u && !IsSession(d2.pages[u]) {
      if u in d1.pages { assert SameKind(d1.pages[u], d2.pages[u]); }
    }
    hide Holds;
  }

  lemma SelectKept(d: Desk, win: WinId, t: Option<TabId>, world: VmTab.World)
    requires win in d.windows && SameKinds(d, Select(d, win, t, world))
    ensures Kept(d, Select(d, win, t, world))
  {
    SelectSameStrips(d, win, t, world);
    var d' := Select(d, win, t, world);
    forall w, u ensures Holds(d', w, u) == Holds(d, w, u) {}
    hide Select, SameKinds;
  }

  lemma AddTabKept(d: Desk, win: WinId, page: Page, world: VmTab.World)
    requires Homed(d, None) && Tidy(d) && OneSettings(d, None) && Manned(d, Some(win)) && win in d.windows
             && !IsSession(page)
    requires PageFor(page, win)
    requires page.SettingsPage? ==> forall t :: !IsSettings(d, win, t)
    ensures Kept(d, AddTab(d, win, page, world))
  {
    AddTabNext(d, win, page, world);
    hide Homed, Tidy, OneSettings, Manned, AddTab, SameKinds, PageFor, IsSettings;
    AddTabInv(d, win, page, world);
    AddedKept(d, AddTab(d, win, page, world), win, page);
  }

  lemma AddTabNext(d: Desk, win: WinId, page: Page, world: VmTab.World)
    requires win in d.windows
    ensures AddTab(d, win, page, world).nextTab == d.nextTab + 1
  {}

  lemma AddedKept(d: Desk, d': Desk, win: WinId, page: Page)
    requires win in d.windows && !IsSession(page) && d'.nextTab == d.nextTab + 1
    requires d'.windows.Keys == d.windows.Keys && d'.pages.Keys == d.pages.Keys + {d.nextTab}
    requires d'.windows[win].strip == d.windows[win].strip + [d.nextTab] && SameFrame(d.windows[win], d'.windows[win])
    requires forall w | w in d.windows && w != win :: d'.windows[w] == d.windows[w]
    requires SameKinds(d, d') && SameKind(page, d'.pages[d.nextTab])
    ensures Kept(d, d')
  {
    SameKindMuted(page, d'.pages[d.nextTab]);
    hide SameKinds, SameKind, IsSession;
  }

  lemma CloseWindowKept(d: Desk, win: WinId)
    requires win in d.windows
    ensures Kept(d, CloseWindow(d, win))
  {
    var d' := CloseWindow(d, win);
    forall w, u | Holds(d', w, u) ensures Holds(d, w, u) {}
  }

  lemma StrippedKept(d: Desk, d': Desk, win: WinId, t: TabId)
    requires Homed(d, None) && SameElsewhere(d, d', win) && SameKinds(d, d') && d'.pages.Keys <= d.pages.Keys
    requires d'.windows[win].strip == Remove(d.windows[win].strip, t)
    ensures Kept(d, d')
  {
    RemoveShown(d, win, t, None);
    hide Homed, SameKinds;
    assert SameFrame(d.windows[win], d'.windows[win]);
    forall w, u | Holds(d', w, u) ensures Holds(d, w, u) {}
  }

  /** What closing tab `t` of `win` leaves: the other tabs; a welcome tab if `t` was the
      last and a session; no window at all if it was the last and no session. */
  ghost predicate Closed(d: Desk, d': Desk, win: WinId, t: TabId) {
    && win in d.windows && t in d.pages && t !in d'.pages && t < d.nextTab <= d'.nextTab
    && (forall w | w in d.windows && w != win :: w in d'.windows && d'.windows[w] == d.windows[w])
    && d'.windows.Keys <= d.windows.Keys
    && (win in d'.windows <==> |d.windows[win].strip| > 1 || IsSession(d.pages[t]))
    && (|d.windows[win].strip| > 1 ==> d'.windows[win].strip == Remove(d.windows[win].strip, t))
    && (win in d'.windows && |d.windows[win].strip| == 1 ==>
          d'.windows[win].strip == [d.nextTab] && d.nextTab in d'.pages && d'.pages[d.nextTab] == WelcomePage)
  }

  lemma CloseTabFrame(d: Desk, win: WinId, t: TabId, prefer: seq<TabId>, world: VmTab.World)
    requires Inv(d) && Shows(d, win, t)
    ensures var d' := CloseTabItem(d, win, t, prefer, world);
            Inv(d') && Closed(d, d', win, t) && Kept(d, d')
  {
    ShownOnce(d, win, t, None);
    CloseTabInv(d, win, t, prefer, world);
    hide Tidy, OneSettings, Manned, Detach;
    CloseStripped(d, win, t, prefer, world, None);
    var d1 := Detach(DropPage(d, t), win, t, prefer, world);
    StrippedKept(d, d1, win, t);
    ClosedSettles(d, d1, win, t, world);
  }

  lemma ClosedSettles(d: Desk, d1: Desk, win: WinId, t: TabId, world: VmTab.World)
    requires Inv(d) && Shows(d, win, t) && t in d.pages
    requires Homed(d1, None) && Tidy(d1) && OneSettings(d1, None) && SameElsewhere(d, d1, win) && Kept(d, d1)
    requires d1.windows[win].strip == Remove(d.windows[win].strip, t) && d1.pages.Keys == d.pages.Keys - {t}
    ensures var d' := if d1.windows[win].strip != [] then d1
                      else if IsSession(d.pages[t]) then OpenWelcomeTab(d1, win, world) else CloseWindow(d1, win);
            Closed(d, d', win, t) && Kept(d, d')
  {
    if d1.windows[win].strip == [] {
      assert Manned(d1, Some(win));
      if IsSession(d.pages[t]) {
        WelcomeSettles(d, d1, win, t, world);
      } else {
        WindowSettles(d, d1, win, t);
      }
    }
  }

  lemma WindowSettles(d: Desk, d1: Desk, win: WinId, t: TabId)
    requires Homed(d, None) && Shows(d, win, t) && t in d.pages && !IsSession(d.pages[t])
    requires SameElsewhere(d, d1, win) && Kept(d, d1)
    requires d1.windows[win].strip == [] == Remove(d.windows[win].strip, t) && d1.pages.Keys == d.pages.Keys - {t}
    ensures var d' := CloseWindow(d1, win); Closed(d, d', win, t) && Kept(d, d')
  {
    assert t < d.nextTab;
    hide Homed, Kept;
    CloseWindowKept(d1, win);
    KeptTrans(d, d1, CloseWindow(d1, win));
  }

  lemma WelcomeSettles(d: Desk, d1: Desk, win: WinId, t: TabId, world: VmTab.World)
    requires Homed(d, None) && Shows(d, win, t) && t in d.pages && IsSession(d.pages[t])
    requires Homed(d1, None) && Tidy(d1) && OneSettings(d1, None) && Manned(d1, Some(win))
    requires SameElsewhere(d, d1, win) && Kept(d, d1)
    requires d1.windows[win].strip == [] == Remove(d.windows[win].strip, t) && d1.pages.Keys == d.pages.Keys - {t}
    ensures var d' := OpenWelcomeTab(d1, win, world); Closed(d, d', win, t) && Kept(d, d')
  {
    assert t < d.nextTab;
    hide AddTab, Homed, Tidy, OneSettings, Manned, Kept, SameKinds, Closed;
    AddTabInv(d1, win, WelcomePage, world);
    AddTabKept(d1, win, WelcomePage, world);
    KeptTrans(d, d1, OpenWelcomeTab(d1, win, world));
    AddTabNext(d1, win, WelcomePage, world);
    WelcomeClosed(d, d1, OpenWelcomeTab(d1, win, world), win, t);
  }

  lemma WelcomeClosed(d: Desk, d1: Desk, d': Desk, win: WinId, t: TabId)
    requires Shows(d, win, t) && t in d.pages && IsSession(d.pages[t]) && t < d.nextTab
    requires SameElsewhere(d, d1, win) && d1.windows[win].strip == [] == Remove(d.windows[win].strip, t)
    requires d1.pages.Keys == d.pages.Keys - {t} && d'.nextTab == d.nextTab + 1
    requires d'.windows.Keys == d1.windows.Keys && d'.pages.Keys == d1.pages.Keys + {d1.nextTab}
    requires d'.windows[win].strip == d1.windows[win].strip + [d1.nextTab]
    requires forall w | w in d1.windows && w != win :: d'.windows[w] == d1.windows[w]
    requires SameKind(WelcomePage, d'.pages[d1.nextTab])
    ensures Closed(d, d', win, t)
  {
    assert [] + [d1.nextTab] == [d1.nextTab];
  }

  // ---- deleted VMs -----------------------------------------------------------

  lemma {:induction false} DeletedMembers(strip: seq<TabId>, pages: map<TabId, Page>, known: set<string>)
    requires NoDup(strip)
    ensures var gone := Deleted(strip, pages, known);
            && NoDup(gone)
            && forall t :: t in gone <==> t in strip && t in pages && pages[t].VmPage? && !Known(known, pages[t].guid)
  {
    if strip != [] {
      DeletedMembers(strip[1..], pages, known);
      assert strip == [strip[0]] + strip[1..];
      assert strip[0] !in strip[1..];
    }
  }

  ghost predicate AllClosed(d: Desk, d': Desk, win: WinId, items: seq<TabId>) {
    && win in d.windows && d'.windows.Keys == d.windows.Keys && d.nextTab <= d'.nextTab
    && (forall w | w in d.windows && w != win :: d'.windows[w] == d.windows[w])
    && (forall u | u in d.windows[win].strip :: u in d'.windows[win].strip <==> u !in items)
    && (forall u | u in d'.windows[win].strip :: u in d.windows[win].strip || d.nextTab <= u)
  }

  ghost predicate AllSessions(d: Desk, win: WinId, items: seq<TabId>) {
    && NoDup(items) && win in d.windows
    && forall u | u in items :: u in d.windows[win].strip && u in d.pages && d.pages[u].VmPage?
  }

  /** Closing session tabs one by one, as the poll does, never closes the window. */
  lemma {:induction false} CloseAllInv(d: Desk, win: WinId, items: seq<TabId>, prefer: seq<TabId>, world: VmTab.World)
    requires Inv(d) && AllSessions(d, win, items)
    ensures var d' := CloseAll(d, win, items, prefer, world);
            Inv(d') && Kept(d, d') && AllClosed(d, d', win, items)
    decreases |items|
  {
    if items == [] {
      hide Homed, Tidy, OneSettings, Manned;
    } else {
      var d1 := CloseTabItem(d, win, items[0], prefer, world);
      var d2 := CloseAll(d1, win, items[1..], prefer, world);
      assert win in d.windows;
      hide Inv, Homed, Kept, AllClosed, CloseTabItem, AllSessions;
      StillSessions(d, win, items, prefer, world);
      CloseAllInv(d1, win, items[1..], prefer, world);
      InvHomed(d);
      OneMoreClosed(d, d1, d2, win, items);
      KeptTrans(d, d1, d2);
    }
  }

  lemma InvHomed(d: Desk)
    requires Inv(d)
    ensures Homed(d, None) && forall w | w in d.windows :: NoDup(d.windows[w].strip)
  {}

  lemma StillSessions(d: Desk, win: WinId, items: seq<TabId>, prefer: seq<TabId>, world: VmTab.World)
    requires Inv(d) && AllSessions(d, win, items) && items != []
    ensures var d1 := CloseTabItem(d, win, items[0], prefer, world);
            Inv(d1) && Kept(d, d1) && Closed(d, d1, win, items[0]) && AllSessions(d1, win, items[1..])
  {
    var t := items[0];
    var d1 := CloseTabItem(d, win, t, prefer, world);
    CloseTabFrame(d, win, t, prefer, world);
    RemoveShown(d, win, t, None);
    assert t !in items[1..];
    forall u | u in items[1..] ensures u in d1.windows[win].strip && u in d1.pages && d1.pages[u].VmPage? {
      assert u in items;
      ShownOnce(d1, win, u, None);
    }
  }

  lemma OneMoreClosed(d: Desk, d1: Desk, d2: Desk, win: WinId, items: seq<TabId>)
    requires items != [] && AllSessions(d, win, items) && NoDup(d.windows[win].strip)
    requires Closed(d, d1, win, items[0]) && win in d1.windows && AllClosed(d1, d2, win, items[1..])
    ensures AllClosed(d, d2, win, items)
  {
    var t := items[0];
    assert items == [t] + items[1..];
    RemoveKeepsOthers(d.windows[win].strip, t);
    forall u | u in d.windows[win].strip ensures u in d2.windows[win].strip <==> u !in items {
      if u != t { assert u in d1.windows[win].strip; }
    }
    assert d1.windows.Keys == d.windows.Keys;
  }

  /** After a finished poll no tab of the window is for a VM that is gone, and every other
      tab is still there. */
  lemma CloseDeletedInv(d: Desk, win: WinId, known: set<string>, prefer: seq<TabId>, world: VmTab.World)
    requires Inv(d) && win in d.windows
    ensures var d' := CloseDeleted(d, win, known, prefer, world);
            && Inv(d') && Kept(d, d') && d'.windows.Keys == d.windows.Keys
            && (forall u | u in d'.windows[win].strip && u in d'.pages && d'.pages[u].VmPage? ::
                  Known(known, d'.pages[u].guid))
            && (forall u | u in d.windows[win].strip && u in d.pages ::
                  u in d'.windows[win].strip || (d.pages[u].VmPage? && !Known(known, d.pages[u].guid)))
  {
    var strip := d.windows[win].strip;
    var gone := Deleted(strip, d.pages, known);
    InvHomed(d);
    DeletedMembers(strip, d.pages, known);
    assert forall u | u in d.pages :: u < d.nextTab;
    CloseAllInv(d, win, gone, prefer, world);
    var d' := CloseDeleted(d, win, known, prefer, world);
    hide Inv, Homed, CloseAll, Deleted, NoDup;
    forall u | u in d'.windows[win].strip && u in d'.pages && d'.pages[u].VmPage?
      ensures Known(known, d'.pages[u].guid)
    {
      if u in d.pages { assert SameKind(d.pages[u], d'.pages[u]); }
    }
  }

  // ---- opening and replacing -------------------------------------------------

  /** Opening ends with a tab selected that shows what was asked for. */
  ghost predicate Answered(d: Desk, win: WinId, q: Query) {
    && win in d.windows && d.windows[win].selected.Some?
    && var t := d.windows[win].selected.value;
    t in d.windows[win].strip && t in d.pages && Matches(d.pages[t], q)
  }

  lemma OpenAnswers(d: Desk, win: WinId, q: Query, page: Page, world: VmTab.World)
    requires Inv(d) && win in d.windows && Matches(page, q)
    requires PageFor(page, win)
    ensures var d' := OpenOrFocus(d, win, q, page, world);
            && Inv(d') && Answered(d', win, q)
            && (forall t | t in d.windows[win].strip :: t in d'.windows[win].strip) && SameKinds(d, d')
            && (!IsSession(page) || Find(d.windows[win].strip, d.pages, q, None).Some? ==> Kept(d, d'))
  {
    OpenOrFocusInv(d, win, q, page, world);
    var found := Find(d.windows[win].strip, d.pages, q, None);
    var d' := OpenOrFocus(d, win, q, page, world);
    if found.Some? {
      SelectFits(d, win, found, world, None, None);
      hide Homed, Tidy, OneSettings, Manned, Select, Kept;
      SelectKept(d, win, found, world);
      Selected(d, win, found, world);
    } else {
      OpenFresh(d, win, q, page, world);
    }
  }

  lemma OpenFresh(d: Desk, win: WinId, q: Query, page: Page, world: VmTab.World)
    requires Inv(d) && win in d.windows && Matches(page, q)
    requires PageFor(page, win)
    requires Find(d.windows[win].strip, d.pages, q, None).None?
    ensures var d' := AddTab(d, win, page, world);
            Answered(d', win, q) && SameKinds(d, d') && (!IsSession(page) ==> Kept(d, d'))
  {
    assert Manned(d, Some(win));
    hide Homed, Tidy, OneSettings, Manned, Kept, Select, SameKinds;
    var d' := AddTab(d, win, page, world);
    AddTabInv(d, win, page, world);
    if !IsSession(page) { AddTabKept(d, win, page, world); }
    Selected(Attach(d.(pages := d.pages[d.nextTab := page], nextTab := d.nextTab + 1), win, d.nextTab, -1), win,
             Some(d.nextTab), world);
    assert d'.windows[win].selected == Some(d.nextTab);
    assert d.nextTab in d'.windows[win].strip;
  }

  lemma RefocusInv(d: Desk, win: WinId, target: Option<TabId>, world: VmTab.World)
    requires Inv(d)
    ensures var d' := Refocus(d, win, target, world);
            && Inv(d') && Kept(d, d') && d'.pages.Keys == d.pages.Keys
            && (win in d.windows ==> win in d'.windows && d'.windows[win].strip == d.windows[win].strip)
            && (win in d.windows && target.Some? && target.value in d.windows[win].strip ==>
                  d'.windows[win].selected == target)
  {
    if win in d.windows && target.Some? && target.value in d.windows[win].strip {
      hide Homed, Tidy, OneSettings, Kept, Select;
      SelectPresent(d, win, target.value, world, None);
      SelectKept(d, win, target, world);
      Selected(d, win, target, world);
    }
  }

  lemma ReplaceCloses(d1: Desk, win: WinId, t: TabId, q: Query, prefer: seq<TabId>, world: VmTab.World)
    requires Inv(d1) && Answered(d1, win, q) && Shows(d1, win, t)
    ensures var target := Find(d1.windows[win].strip, d1.pages, q, None);
            var d' := Refocus(CloseTabItem(d1, win, t, prefer, world), win, target, world);
            && Inv(d') && t !in d'.pages && Kept(d1, d')
            && (t in d1.pages && !Matches(d1.pages[t], q) ==> Answered(d', win, q))
  {
    var target := Find(d1.windows[win].strip, d1.pages, q, None);
    var d2 := CloseTabItem(d1, win, t, prefer, world);
    var d3 := Refocus(d2, win, target, world);
    InvHomed(d1);
    hide Inv, Homed, Select, CloseTabItem, Refocus, Kept;
    CloseTabFrame(d1, win, t, prefer, world);
    RefocusInv(d2, win, target, world);
    KeptTrans(d1, d2, d3);
    if t in d1.pages && !Matches(d1.pages[t], q) {
      assert target.Some? && target.value != t;
      StillAnswers(d1, d2, d3, win, t, target.value, q);
    }
  }

  lemma StillAnswers(d1: Desk, d2: Desk, d3: Desk, win: WinId, t: TabId, target: TabId, q: Query)
    requires Shows(d1, win, t) && NoDup(d1.windows[win].strip) && Closed(d1, d2, win, t)
    requires target in d1.windows[win].strip && target in d1.pages && Matches(d1.pages[target], q) && target != t
    requires win in d2.windows && target in d2.windows[win].strip ==>
               win in d3.windows && d3.windows[win].strip == d2.windows[win].strip
               && d3.windows[win].selected == Some(target)
    requires Kept(d1, d3) && Inv(d3)
    ensures Answered(d3, win, q)
  {
    RemoveKeepsOthers(d1.windows[win].strip, t);
    assert |d1.windows[win].strip| > 1;
    ShownOnce(d3, win, target, None);
    hide Inv, Closed, Homed;
    assert SameKind(d1.pages[target], d3.pages[target]);
  }

  lemma OpenMatches(d: Desk, win: WinId, t: TabId, q: Query, page: Page, world: VmTab.World)
    requires Inv(d) && Shows(d, win, t) && Matches(page, q)
    requires PageFor(page, win)
    ensures var d' := OpenOrFocus(d, win, q, page, world);
            && Inv(d') && Answered(d', win, q) && Shows(d', win, t)
            && (t in d.pages ==> t in d'.pages && Matches(d'.pages[t], q) == Matches(d.pages[t], q))
            && (Find(d.windows[win].strip, d.pages, q, None).Some? ==> Kept(d, d'))
  {
    OpenAnswers(d, win, q, page, world);
    var d' := OpenOrFocus(d, win, q, page, world);
    ShownOnce(d', win, t, None);
    hide Inv, Homed, OpenOrFocus, Kept;
  }

  /** ReplaceTabWith: the VM's tab is the selected one and the old tab is gone, unless the
      old tab was that VM's tab itself. */
  lemma ReplaceInv(d: Desk, win: WinId, t: TabId, guid: string, prefer: seq<TabId>, world: VmTab.World)
    requires Inv(d) && Shows(d, win, t)
    ensures var d' := ReplaceTabWith(d, win, t, guid, prefer, world);
            && Inv(d') && t !in d'.pages
            && (t in d.pages && !Matches(d.pages[t], ForVm(guid)) ==> Answered(d', win, ForVm(guid)))
            && (Find(d.windows[win].strip, d.pages, ForVm(guid), None).Some? ==> Kept(d, d'))
  {
    var q := ForVm(guid);
    var d1 := OpenVmTab(d, win, guid, world);
    NewPageFits(win, guid, "", false);
    InvHomed(d);
    hide Inv, Homed, Kept, CloseTabItem, NewVmPage, Closed, OpenOrFocus, Refocus, Answered, SameKinds, Find, Matches;
    OpenMatches(d, win, t, q, NewVmPage(win, guid), world);
    ReplaceCloses(d1, win, t, q, prefer, world);
    if Find(d.windows[win].strip, d.pages, q, None).Some? {
      KeptTrans(d, d1, ReplaceTabWith(d, win, t, guid, prefer, world));
    }
  }
}
