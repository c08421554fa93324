/** What every run of window and tab operations keeps. */
module DesktopRuns {
  import opened Wrappers
  import opened Strips
  import opened Desktop
  import VmTab
  import RemoteTab
  import Runs = VmTabRuns

  // ---- every tab is in exactly one place -------------------------------------

  predicate Holds(d: Desk, win: WinId, t: TabId) {
    win in d.windows && (t in d.windows[win].strip || d.windows[win].pending == Some(t))
  }

  /** Every tab with a page is in exactly one strip, once, or is the one pending item of one
      window; `loose` is the tab a step under way has in hand. */
  ghost predicate Homed(d: Desk, loose: Option<TabId>) {
    && (forall w | w in d.windows :: 0 < w < d.nextWin && NoDup(d.windows[w].strip)
                                     && (d.windows[w].pending.Some? ==> d.windows[w].pending.value !in d.windows[w].strip))
    && (forall w, t | Holds(d, w, t) :: t in d.pages && loose != Some(t))
    && (forall w1, w2, t | Holds(d, w1, t) && Holds(d, w2, t) :: w1 == w2)
    && (forall t | t in d.pages && loose != Some(t) :: exists w :: Holds(d, w, t))
    && (loose.Some? ==> loose.value in d.pages)
    && (forall t | t in d.pages :: t < d.nextTab)
  }

  predicate SameFrame(w: Window, v: Window) {
    v.primary == w.primary && v.pending == w.pending && v.depth == w.depth
  }

  /** The same windows with the same strips; the pages may differ. */
  ghost predicate SameStrips(d: Desk, d': Desk) {
    && d'.nextWin == d.nextWin && d'.nextTab == d.nextTab && d'.pages.Keys == d.pages.Keys
    && d'.windows.Keys == d.windows.Keys
    && forall w | w in d.windows ::
         d'.windows[w].strip == d.windows[w].strip && SameFrame(d.windows[w], d'.windows[w])
  }

  lemma SameStripsHomed(d: Desk, d': Desk, loose: Option<TabId>)
    requires SameStrips(d, d') && Homed(d, loose)
    ensures Homed(d', loose)
  {
    forall w, t ensures Holds(d, w, t) == Holds(d', w, t) {}
    forall t | t in d'.pages && loose != Some(t) ensures exists w :: Holds(d', w, t) {
      var w :| Holds(d, w, t);
      assert Holds(d', w, t);
    }
  }

  lemma SelectSameStrips(d: Desk, win: WinId, t: Option<TabId>, world: VmTab.World)
    requires win in d.windows
    ensures SameStrips(d, Select(d, win, t, world))
  {}

  lemma Selected(d: Desk, win: WinId, t: Option<TabId>, world: VmTab.World)
    requires win in d.windows
    ensures var d' := Select(d, win, t, world);
            win in d'.windows && d'.windows[win].selected == t && d'.windows[win].strip == d.windows[win].strip
  {}

  lemma StripHomed(d: Desk, d1: Desk, win: WinId, t: TabId)
    requires Homed(d, None) && win in d.windows && t in d.windows[win].strip
    requires d1 == d.(windows := d.windows[win := d.windows[win].(strip := Remove(d.windows[win].strip, t))])
    ensures Homed(d1, Some(t))
  {
    var w := d.windows[win];
    RemoveKeepsOthers(w.strip, t);
    assert Holds(d, win, t);
    forall v, u ensures Holds(d1, v, u) <==> Holds(d, v, u) && u != t {
      if u == t && Holds(d, v, u) { assert v == win; }
    }
    forall u | u in d1.pages && u != t ensures exists v :: Holds(d1, v, u) {
      var v :| Holds(d, v, u);
      assert Holds(d1, v, u);
    }
  }

  lemma AttachHomed(d: Desk, win: WinId, t: TabId, index: int)
    requires Homed(d, Some(t)) && win in d.windows
    ensures Homed(Attach(d, win, t, index), None)
  {
    var w := d.windows[win];
    var i := if index < 0 || index > |w.strip| then |w.strip| else index;
    var d' := Attach(d, win, t, index);
    assert t !in w.strip by { if t in w.strip { assert Holds(d, win, t); } }
    InsertMembers(w.strip, i, t);
    forall v, u ensures Holds(d', v, u) <==> Holds(d, v, u) || (v == win && u == t) {}
    forall u | u in d'.pages ensures exists v :: Holds(d', v, u) {
      if u == t { assert Holds(d', win, t); } else {
        var v :| Holds(d, v, u);
        assert Holds(d', v, u);
      }
    }
    if w.pending == Some(t) { assert Holds(d, win, t); }
  }

  // ---- selection, popups, Settings tabs, windows -----------------------------

  ghost predicate SelectionOk(d: Desk, except: Option<WinId>) {
    forall w | w in d.windows && except != Some(w) ::
      d.windows[w].selected.Some? ==> d.windows[w].selected.value in d.windows[w].strip
  }

  /** A page in a state its own runs can reach. */
  predicate PageValid(p: Page) {
    match p
    case VmPage(_, tab) => Runs.Valid(tab)
    case RemotePage(_, remote) => RemoteTab.Valid(remote)
    case _ => true
  }

  /** Such a page, made for this window. */
  predicate PageFor(p: Page, win: WinId) {
    PageValid(p) && (IsSession(p) ==> OwnerWindow(p) == win)
  }

  ghost predicate TabsValid(d: Desk) {
    forall t | t in d.pages :: PageValid(d.pages[t])
  }

  /** The page knows its window, and wants its popup up exactly when it is selected there. */
  predicate Fits(p: Page, win: WinId, active: bool) {
    IsSession(p) ==> OwnerWindow(p) == win && WantsVisible(p) == active
  }

  ghost predicate PopupsFit(d: Desk, except: Option<TabId>) {
    forall w, t | w in d.windows && t in d.windows[w].strip && t in d.pages && except != Some(t) ::
      Fits(d.pages[t], w, d.windows[w].selected == Some(t))
  }

  predicate IsSettings(d: Desk, w: WinId, t: TabId) {
    w in d.windows && t in d.windows[w].strip && t in d.pages && d.pages[t].SettingsPage?
  }

  ghost predicate OneSettings(d: Desk, except: Option<TabId>) {
    forall w: WinId, t1: TabId, t2: TabId | IsSettings(d, w, t1) && IsSettings(d, w, t2)
                                            && except != Some(t1) && except != Some(t2) ::
      t1 == t2
  }

  /** Every window shows a tab or has one handed to it. */
  ghost predicate Manned(d: Desk, except: Option<WinId>) {
    forall w | w in d.windows && except != Some(w) :: d.windows[w].strip != [] || d.windows[w].pending.Some?
  }

  ghost predicate Tidy(d: Desk) {
    SelectionOk(d, None) && TabsValid(d) && PopupsFit(d, None)
  }

  ghost predicate Inv(d: Desk) {
    Homed(d, None) && Tidy(d) && OneSettings(d, None) && Manned(d, None)
  }

  /** The same page, but for the state of its connection and popup. */
  predicate SameKind(p: Page, q: Page) {
    || q == p
    || (p.VmPage? && q.VmPage? && q.guid == p.guid && IsMuted(q) == IsMuted(p))
    || (p.RemotePage? && q.RemotePage? && q.address == p.address && IsMuted(q) == IsMuted(p))
  }

  lemma FocusFits(p: Page, win: WinId, active: bool, world: VmTab.World)
    requires PageValid(p)
    ensures var q := Focus(p, active, world);
            && SameKind(p, q) && PageValid(q)
            && (IsSession(p) ==> WantsVisible(q) == active && OwnerWindow(q) == OwnerWindow(p))
  {}

  /** What a selection change does to each page. */
  lemma SelectPages(d: Desk, win: WinId, t: Option<TabId>, world: VmTab.World)
    requires win in d.windows && d.windows[win].selected != t && TabsValid(d)
    ensures var d' := Select(d, win, t, world);
            forall u | u in d.pages ::
              && SameKind(d.pages[u], d'.pages[u])
              && (u !in d.windows[win].strip ==> d'.pages[u] == d.pages[u])
              && PageValid(d'.pages[u])
              && (u in d.windows[win].strip && IsSession(d.pages[u]) ==>
                    WantsVisible(d'.pages[u]) == (t == Some(u)) && OwnerWindow(d'.pages[u]) == OwnerWindow(d.pages[u]))
  {
    forall u | u in d.pages {
      FocusFits(d.pages[u], win, t == Some(u), world);
    }
  }

  ghost predicate SameKinds(d: Desk, d': Desk) {
    forall t | t in d.pages && t in d'.pages :: SameKind(d.pages[t], d'.pages[t])
  }

  lemma SameKindsTrans(d: Desk, d1: Desk, d2: Desk)
    requires SameKinds(d, d1) && SameKinds(d1, d2)
    requires forall t | t in d.pages && t in d2.pages :: t in d1.pages
    ensures SameKinds(d, d2)
  {}

  /** Pages of the same kind own popups alike and are suppressed alike. */
  lemma SameKindMuted(p: Page, q: Page)
    requires SameKind(p, q)
    ensures IsSession(q) == IsSession(p) && IsMuted(q) == IsMuted(p)
  {}

  lemma SameKindsOneSettings(d: Desk, d': Desk, except: Option<TabId>)
    requires SameKinds(d, d') && OneSettings(d, except) && d'.pages.Keys <= d.pages.Keys
    requires forall w, t | w in d'.windows && t in d'.windows[w].strip :: w in d.windows && t in d.windows[w].strip
    ensures OneSettings(d', except)
  {
    forall w, t | IsSettings(d', w, t) ensures IsSettings(d, w, t) {}
  }

  /** A selection change leaves every page of the strip fitting; `unfit` is a tab that need
      not fit before, other than in the window it knows. */
  lemma SelectFits(d: Desk, win: WinId, t: Option<TabId>, world: VmTab.World, loose: Option<TabId>,
                   unfit: Option<TabId>)
    requires Homed(d, loose) && win in d.windows && SelectionOk(d, Some(win)) && TabsValid(d) && PopupsFit(d, unfit)
    requires t.Some? ==> t.value in d.windows[win].strip
    requires unfit.Some? ==>
               && unfit.value in d.windows[win].strip && d.windows[win].selected != t
               && (unfit.value in d.pages ==> exists active :: Fits(d.pages[unfit.value], win, active))
    ensures var d' := Select(d, win, t, world);
            Homed(d', loose) && Tidy(d') && SameStrips(d, d') && SameKinds(d, d')
  {
    var d' := Select(d, win, t, world);
    SelectSameStrips(d, win, t, world);
    hide Homed, PopupsFit, TabsValid, Focus, SameStrips;
    SameStripsHomed(d, d', loose);
    if d.windows[win].selected != t {
      SelectPopups(d, win, t, world, loose, unfit);
      SelectValid(d, win, t, world);
      hide SameKinds;
    } else {
      SameKindsSelf(d);
    }
  }

  lemma SelectValid(d: Desk, win: WinId, t: Option<TabId>, world: VmTab.World)
    requires win in d.windows && d.windows[win].selected != t && TabsValid(d)
    ensures var d' := Select(d, win, t, world); TabsValid(d') && SameKinds(d, d')
  {
    SelectPages(d, win, t, world);
    hide PageValid, SameKind, Focus;
  }

  lemma SelectPopups(d: Desk, win: WinId, t: Option<TabId>, world: VmTab.World, loose: Option<TabId>,
                     unfit: Option<TabId>)
    requires Homed(d, loose) && win in d.windows && TabsValid(d) && PopupsFit(d, unfit) && d.windows[win].selected != t
    requires unfit.Some? ==>
               && unfit.value in d.windows[win].strip
               && (unfit.value in d.pages ==> exists active :: Fits(d.pages[unfit.value], win, active))
    ensures PopupsFit(Select(d, win, t, world), None)
  {
    var d' := Select(d, win, t, world);
    SelectPages(d, win, t, world);
    hide Focus;
    forall w, u | w in d'.windows && u in d'.windows[w].strip && u in d'.pages
      ensures Fits(d'.pages[u], w, d'.windows[w].selected == Some(u))
    {
      assert Holds(d, w, u);
      if w != win {
        assert !Holds(d, win, u);
      } else if unfit != Some(u) {
        assert Fits(d.pages[u], w, d.windows[w].selected == Some(u));
      }
    }
  }

  // ---- the operations --------------------------------------------------------

  /** Only the strip of `win` changed. */
  ghost predicate SameElsewhere(d: Desk, d': Desk, win: WinId) {
    && win in d.windows && d'.windows.Keys == d.windows.Keys
    && d'.nextTab == d.nextTab && d'.nextWin == d.nextWin
    && (forall w | w in d.windows && w != win :: d'.windows[w] == d.windows[w])
    && SameFrame(d.windows[win], d'.windows[win])
  }

  lemma SelectElsewhere(d: Desk, win: WinId, t: Option<TabId>, world: VmTab.World)
    requires win in d.windows
    ensures SameElsewhere(d, Select(d, win, t, world), win)
  {}

  /** The strip without the tab, before another one is selected. */
  lemma StrippedTidy(d: Desk, d1: Desk, win: WinId, t: TabId)
    requires Homed(d, None) && Tidy(d) && win in d.windows && t in d.windows[win].strip
    requires d1 == d.(windows := d.windows[win := d.windows[win].(strip := Remove(d.windows[win].strip, t))])
    ensures TabsValid(d1) && PopupsFit(d1, None) && SelectionOk(d1, Some(win))
    ensures d.windows[win].selected != Some(t) ==> Tidy(d1)
    ensures SameElsewhere(d, d1, win)
  {
    RemoveKeepsOthers(d.windows[win].strip, t);
    hide Homed, Fits, PageValid, Remove;
  }

  /** The tab is out of the strip, and nothing else has moved. */
  ghost predicate TakenOut(d: Desk, d': Desk, win: WinId, t: TabId) {
    && Homed(d', Some(t)) && Tidy(d') && SameElsewhere(d, d', win) && SameKinds(d, d')
    && d'.pages.Keys == d.pages.Keys
    && d'.windows[win].strip == Remove(d.windows[win].strip, t)
  }

  lemma SameElsewhereTrans(d: Desk, d1: Desk, d2: Desk, win: WinId)
    requires SameElsewhere(d, d1, win) && SameElsewhere(d1, d2, win)
    ensures SameElsewhere(d, d2, win)
  {}

  lemma SameKindsSelf(d: Desk)
    ensures SameKinds(d, d)
  {
    SameKindSelf(d);
    hide SameKind;
  }

  lemma SamePagesKinds(d: Desk, d1: Desk, d2: Desk)
    requires d1.pages == d.pages && SameKinds(d1, d2)
    ensures SameKinds(d, d2) && SameKinds(d, d1)
  {
    SameKindSelf(d);
    hide SameKind;
  }

  lemma SelectTidy(d: Desk, win: WinId, t: Option<TabId>, world: VmTab.World, loose: Option<TabId>)
    requires Homed(d, loose) && win in d.windows && SelectionOk(d, Some(win)) && TabsValid(d) && PopupsFit(d, None)
    requires t.Some? ==> t.value in d.windows[win].strip
    ensures var d' := Select(d, win, t, world);
            && Homed(d', loose) && Tidy(d') && SameElsewhere(d, d', win) && SameKinds(d, d')
            && d'.pages.Keys == d.pages.Keys && d'.windows[win].strip == d.windows[win].strip
  {
    SelectElsewhere(d, win, t, world);
    hide Homed, Tidy, PopupsFit, TabsValid, SelectionOk, Select, SameKinds, SameElsewhere;
    SelectFits(d, win, t, world, loose, None);
  }

  lemma DetachTakesOut(d: Desk, win: WinId, t: TabId, prefer: seq<TabId>, world: VmTab.World)
    requires Homed(d, None) && Tidy(d) && win in d.windows && t in d.windows[win].strip
    ensures TakenOut(d, Detach(d, win, t, prefer, world), win, t)
  {
    var w := d.windows[win];
    var d1 := d.(windows := d.windows[win := w.(strip := Remove(w.strip, t))]);
    hide Homed, Tidy, PopupsFit, TabsValid, SelectionOk, Select, Remove, SameKinds, SameElsewhere;
    StripHomed(d, d1, win, t);
    StrippedTidy(d, d1, win, t);
    if w.selected == Some(t) {
      var next := Pick(d1.windows[win].strip, prefer);
      SelectTidy(d1, win, next, world, Some(t));
      SameElsewhereTrans(d, d1, Select(d1, win, next, world), win);
      SamePagesKinds(d, d1, Select(d1, win, next, world));
    } else {
      SameKindsSelf(d1);
      SamePagesKinds(d, d1, d1);
    }
  }

  lemma DetachTidy(d: Desk, win: WinId, t: TabId, prefer: seq<TabId>, world: VmTab.World)
    requires Homed(d, None) && Tidy(d) && win in d.windows && t in d.windows[win].strip
    ensures var d' := Detach(d, win, t, prefer, world);
            && Homed(d', Some(t)) && Tidy(d') && SameElsewhere(d, d', win) && SameKinds(d, d')
            && d'.pages.Keys == d.pages.Keys
            && d'.windows[win].strip == Remove(d.windows[win].strip, t)
  {
    DetachTakesOut(d, win, t, prefer, world);
    hide Homed, Tidy, Detach, SameKinds;
  }

  lemma SameKindSelf(d: Desk)
    ensures forall u | u in d.pages :: SameKind(d.pages[u], d.pages[u])
  {}

  /** The tab in hand goes into a strip; only it need not fit there yet. */
  lemma AttachTidy(d: Desk, win: WinId, t: TabId, index: int)
    requires Homed(d, Some(t)) && Tidy(d) && win in d.windows
    ensures var d' := Attach(d, win, t, index);
            && Homed(d', None) && SelectionOk(d', None) && TabsValid(d') && PopupsFit(d', Some(t))
            && SameElsewhere(d, d', win) && d'.pages == d.pages && d'.windows[win].selected == d.windows[win].selected
            && d'.windows[win].selected != Some(t)
            && (forall u :: u in d'.windows[win].strip <==> u in d.windows[win].strip || u == t)
  {
    AttachHomed(d, win, t, index);
    var w := d.windows[win];
    var i := if index < 0 || index > |w.strip| then |w.strip| else index;
    assert t !in w.strip by { if t in w.strip { assert Holds(d, win, t); } }
    InsertMembers(w.strip, i, t);
  }

  /** The selection that follows makes it fit too. */
  lemma SelectAttached(d: Desk, win: WinId, t: TabId, world: VmTab.World)
    requires Homed(d, None) && win in d.windows && t in d.windows[win].strip && d.windows[win].selected != Some(t)
    requires t in d.pages && SelectionOk(d, None) && TabsValid(d) && PopupsFit(d, Some(t))
    requires IsSession(d.pages[t]) ==> OwnerWindow(d.pages[t]) == win
    ensures var d' := Select(d, win, Some(t), world);
            && Homed(d', None) && Tidy(d') && SameStrips(d, d') && SameKinds(d, d')
            && win in d'.windows && d'.windows[win].selected == Some(t)
  {
    Selected(d, win, Some(t), world);
    assert Fits(d.pages[t], win, WantsVisible(d.pages[t]));
    SelectFits(d, win, Some(t), world, None, Some(t));
  }

  lemma AddTabInv(d: Desk, win: WinId, page: Page, world: VmTab.World)
    requires Homed(d, None) && Tidy(d) && OneSettings(d, None) && Manned(d, Some(win)) && win in d.windows
    requires PageFor(page, win)
    requires page.SettingsPage? ==> forall t :: !IsSettings(d, win, t)
    ensures var d' := AddTab(d, win, page, world);
            && Inv(d') && d'.windows.Keys == d.windows.Keys && d'.pages.Keys == d.pages.Keys + {d.nextTab}
            && d'.windows[win].strip == d.windows[win].strip + [d.nextTab]
            && d'.windows[win].selected == Some(d.nextTab)
            && (forall w | w in d.windows && w != win :: d'.windows[w] == d.windows[w])
            && SameFrame(d.windows[win], d'.windows[win]) && SameKinds(d, d') && SameKind(page, d'.pages[d.nextTab])
  {
    AddTabShape(d, win, page, world);
    AddTabFits(d, win, page, world);
    AddTabKinds(d, page, AddTab(d, win, page, world));
    hide Homed, Tidy, OneSettings, SameKinds, AddTab;
  }

  lemma AddTabKinds(d: Desk, page: Page, d': Desk)
    requires Homed(d, None) && SameKinds(d.(pages := d.pages[d.nextTab := page]), d')
    ensures SameKinds(d, d') && (d.nextTab in d'.pages ==> SameKind(page, d'.pages[d.nextTab]))
  {}

  lemma AddTabFits(d: Desk, win: WinId, page: Page, world: VmTab.World)
    requires Homed(d, None) && Tidy(d) && OneSettings(d, None) && win in d.windows
    requires PageFor(page, win)
    requires page.SettingsPage? ==> forall t :: !IsSettings(d, win, t)
    ensures var d' := AddTab(d, win, page, world);
            && Homed(d', None) && Tidy(d') && OneSettings(d', None)
            && SameKinds(d.(pages := d.pages[d.nextTab := page]), d')
  {
    var t := d.nextTab;
    var d1 := d.(pages := d.pages[t := page], nextTab := t + 1);
    var d2 := Attach(d1, win, t, -1);
    assert AddTab(d, win, page, world) == Select(d2, win, Some(t), world) by { hide Attach, Select; }
    hide Homed, Tidy, OneSettings, SelectionOk, TabsValid, PopupsFit, Select, Attach, IsSettings, SameKinds, PageValid,
      AddTab;
    AttachFresh(d, d1, win, page);
    SelectAttached(d2, win, t, world);
    SameKindsOneSettings(d2, Select(d2, win, Some(t), world), None);
  }

  lemma AddTabShape(d: Desk, win: WinId, page: Page, world: VmTab.World)
    requires win in d.windows
    ensures var d' := AddTab(d, win, page, world);
            && d'.windows.Keys == d.windows.Keys && d'.pages.Keys == d.pages.Keys + {d.nextTab}
            && d'.windows[win].strip == d.windows[win].strip + [d.nextTab]
            && d'.windows[win].selected == Some(d.nextTab)
            && (forall w | w in d.windows && w != win :: d'.windows[w] == d.windows[w])
            && SameFrame(d.windows[win], d'.windows[win])
  {}

  lemma AttachFresh(d: Desk, d1: Desk, win: WinId, page: Page)
    requires Homed(d, None) && Tidy(d) && OneSettings(d, None) && win in d.windows
    requires d1 == d.(pages := d.pages[d.nextTab := page], nextTab := d.nextTab + 1)
    requires PageValid(page)
    requires page.SettingsPage? ==> forall t :: !IsSettings(d, win, t)
    ensures var d2 := Attach(d1, win, d.nextTab, -1);
            && Homed(d2, None) && SelectionOk(d2, None) && TabsValid(d2) && PopupsFit(d2, Some(d.nextTab))
            && d2.pages == d1.pages && d.nextTab in d2.windows[win].strip
            && d2.windows[win].selected != Some(d.nextTab) && OneSettings(d2, None)
  {
    FreshHomed(d, d1, page);
    FreshTidy(d, d1, page);
    AttachTidy(d1, win, d.nextTab, -1);
    AttachedSettings(d1, Attach(d1, win, d.nextTab, -1), win, d.nextTab);
  }

  lemma FreshTidy(d: Desk, d1: Desk, page: Page)
    requires Homed(d, None) && Tidy(d)
    requires d1 == d.(pages := d.pages[d.nextTab := page], nextTab := d.nextTab + 1)
    requires PageValid(page)
    ensures Tidy(d1)
    ensures forall w, t :: IsSettings(d1, w, t) == IsSettings(d, w, t)
  {
    FreshShown(d, d1, page);
    hide Homed, PageValid, Fits;
    assert PopupsFit(d1, None);
    hide PopupsFit;
  }

  /** No strip shows the new tab yet. */
  lemma FreshShown(d: Desk, d1: Desk, page: Page)
    requires Homed(d, None) && d1 == d.(pages := d.pages[d.nextTab := page], nextTab := d.nextTab + 1)
    ensures forall w, t | w in d.windows && t in d.windows[w].strip ::
              t in d.pages && t in d1.pages && d1.pages[t] == d.pages[t]
  {
    forall w, t | w in d.windows && t in d.windows[w].strip ensures t != d.nextTab && t in d.pages {
      assert Holds(d, w, t);
    }
  }

  /** A strip keeps one Settings tab if the new tab is none, or the only one. */
  lemma AttachedSettings(d: Desk, d': Desk, win: WinId, t: TabId)
    requires SameElsewhere(d, d', win) && d'.pages == d.pages && OneSettings(d, None) && t in d.pages
    requires forall u :: u in d'.windows[win].strip <==> u in d.windows[win].strip || u == t
    ensures OneSettings(d', Some(t))
    ensures (d.pages[t].SettingsPage? ==> forall u :: !IsSettings(d, win, u)) ==> OneSettings(d', None)
  {
    forall w, u | IsSettings(d', w, u) && !(w == win && u == t) ensures IsSettings(d, w, u) {}
    if d.pages[t].SettingsPage? ==> forall u :: !IsSettings(d, win, u) {
      forall w: WinId, t1: TabId, t2: TabId | IsSettings(d', w, t1) && IsSettings(d', w, t2) ensures t1 == t2 {
        assert t1 != t ==> IsSettings(d, w, t1);
        assert t2 != t ==> IsSettings(d, w, t2);
      }
    }
  }

  lemma FreshHomed(d: Desk, d1: Desk, page: Page)
    requires Homed(d, None)
    requires d1 == d.(pages := d.pages[d.nextTab := page], nextTab := d.nextTab + 1)
    ensures Homed(d1, Some(d.nextTab))
  {
    forall w, t ensures Holds(d1, w, t) == Holds(d, w, t) {}
    forall t | t in d1.pages && t != d.nextTab ensures exists w :: Holds(d1, w, t) {
      var w :| Holds(d, w, t);
      assert Holds(d1, w, t);
    }
  }

  lemma NewPageFits(win: WinId, guid: string, address: string, autoConnect: bool)
    ensures PageFor(NewVmPage(win, guid), win) && !IsMuted(NewVmPage(win, guid))
    ensures PageFor(NewRemotePage(win, address, autoConnect), win) && !IsMuted(NewRemotePage(win, address, autoConnect))
  {}

  lemma OpenOrFocusInv(d: Desk, win: WinId, q: Query, page: Page, world: VmTab.World)
    requires Inv(d) && win in d.windows && Matches(page, q)
    requires PageFor(page, win)
    ensures var d' := OpenOrFocus(d, win, q, page, world);
            && Inv(d') && win in d'.windows
            && (forall t | t in d.windows[win].strip :: t in d'.windows[win].strip)
  {
    var found := Find(d.windows[win].strip, d.pages, q, None);
    if found.Some? {
      SelectFits(d, win, found, world, None, None);
      SameKindsOneSettings(d, Select(d, win, found, world), None);
    } else {
      AddTabInv(d, win, page, world);
    }
  }

  lemma CloseWindowHomed(d: Desk, win: WinId)
    requires Homed(d, None) && win in d.windows
    ensures var d' := CloseWindow(d, win);
            && Homed(d', None)
            && forall w, t | w in d'.windows && t in d'.windows[w].strip :: t in d'.pages && d'.pages[t] == d.pages[t]
  {
    var d' := CloseWindow(d, win);
    CloseWindowHolds(d, d', win);
    forall t | t in d'.pages ensures exists w :: Holds(d', w, t) {
      var w :| Holds(d, w, t);
      assert Holds(d', w, t);
    }
    forall w, t | w in d'.windows && t in d'.windows[w].strip ensures t in d'.pages && d'.pages[t] == d.pages[t] {
      assert Holds(d', w, t);
    }
  }

  lemma CloseWindowHolds(d: Desk, d': Desk, win: WinId)
    requires Homed(d, None) && win in d.windows && d' == CloseWindow(d, win)
    ensures forall w, t :: Holds(d', w, t) <==> Holds(d, w, t) && w != win
    ensures forall w, t | Holds(d', w, t) :: t in d'.pages
    ensures forall t :: t in d'.pages <==> t in d.pages && !Holds(d, win, t)
  {
    assert forall t :: Has(d.windows[win], t) == Holds(d, win, t);
    forall w, t ensures Holds(d', w, t) <==> Holds(d, w, t) && w != win {}
    forall w, t | Holds(d', w, t) ensures t in d'.pages { assert !Holds(d, win, t); }
  }

  /** Gone are window `win` and what it held; a page stays, unchanged, exactly when another
      window holds it. */
  ghost predicate OnlyLost(d: Desk, d': Desk, win: WinId) {
    && d'.windows.Keys == d.windows.Keys - {win}
    && (forall w | w in d'.windows :: d'.windows[w] == d.windows[w])
    && (forall t :: t in d'.pages <==> exists w :: w != win && Holds(d, w, t))
    && (forall t | t in d'.pages :: t in d.pages && d'.pages[t] == d.pages[t])
  }

  lemma CloseWindowLoses(d: Desk, win: WinId)
    requires Homed(d, None) && win in d.windows
    ensures OnlyLost(d, CloseWindow(d, win), win)
  {
    forall t ensures t in CloseWindow(d, win).pages <==> exists w :: w != win && Holds(d, w, t) {
      assert Has(d.windows[win], t) == Holds(d, win, t);
      if t in d.pages && !Holds(d, win, t) {
        var w :| Holds(d, w, t);
        assert w != win;
      }
    }
  }

  lemma CloseWindowInv(d: Desk, win: WinId)
    requires Homed(d, None) && Tidy(d) && OneSettings(d, None) && Manned(d, Some(win)) && win in d.windows
    ensures Inv(CloseWindow(d, win)) && OnlyLost(d, CloseWindow(d, win), win)
  {
    CloseWindowLoses(d, win);
    hide Homed, Tidy, OneSettings, OnlyLost;
    CloseWindowHomed(d, win);
    CloseWindowTidy(d, win);
    SameKindsOneSettings(d, CloseWindow(d, win), None);
  }

  lemma CloseWindowTidy(d: Desk, win: WinId)
    requires Homed(d, None) && Tidy(d) && win in d.windows
    ensures Tidy(CloseWindow(d, win))
  {
    CloseWindowHomed(d, win);
    var d' := CloseWindow(d, win);
    forall w, t | w in d'.windows && t in d'.windows[w].strip && t in d'.pages
      ensures Fits(d'.pages[t], w, d'.windows[w].selected == Some(t))
    {
      assert Fits(d.pages[t], w, d.windows[w].selected == Some(t));
    }
  }

  lemma SelectDropCommute(d: Desk, win: WinId, u: Option<TabId>, t: TabId, world: VmTab.World)
    requires win in d.windows && t !in d.windows[win].strip
    ensures Select(DropPage(d, t), win, u, world) == DropPage(Select(d, win, u, world), t)
  {
    var d1, d2 := Select(DropPage(d, t), win, u, world), DropPage(Select(d, win, u, world), t);
    hide Part, Focus;
    assert d1.pages == d2.pages;
    assert d1.gone == d2.gone;
  }

  lemma DetachDropCommute(d: Desk, win: WinId, t: TabId, prefer: seq<TabId>, world: VmTab.World)
    requires Homed(d, None) && win in d.windows && t in d.windows[win].strip
    ensures Detach(DropPage(d, t), win, t, prefer, world) == DropPage(Detach(d, win, t, prefer, world), t)
  {
    RemoveKeepsOthers(d.windows[win].strip, t);
    var strip := Remove(d.windows[win].strip, t);
    var d1 := d.(windows := d.windows[win := d.windows[win].(strip := strip)]);
    hide Homed, Select, Pick, Part, Remove;
    SelectDropCommute(d1, win, Pick(strip, prefer), t, world);
  }

  /** The tab in hand is let go. */
  lemma DropLoose(d: Desk, t: TabId)
    requires Homed(d, Some(t)) && Tidy(d)
    ensures var d' := DropPage(d, t); Homed(d', None) && Tidy(d')
    ensures forall w, u :: IsSettings(DropPage(d, t), w, u) ==> IsSettings(d, w, u)
  {
    var d' := DropPage(d, t);
    forall w, u ensures Holds(d', w, u) == Holds(d, w, u) {}
    forall u | u in d'.pages ensures exists w :: Holds(d', w, u) {
      var w :| Holds(d, w, u);
      assert Holds(d', w, u);
    }
  }

  /** What closing has done when the tab is out of the strip. */
  lemma CloseStripped(d: Desk, win: WinId, t: TabId, prefer: seq<TabId>, world: VmTab.World, except: Option<TabId>)
    requires Homed(d, None) && Tidy(d) && OneSettings(d, except) && win in d.windows && t in d.windows[win].strip
    ensures var d' := Detach(DropPage(d, t), win, t, prefer, world);
            && Homed(d', None) && Tidy(d') && OneSettings(d', except) && SameElsewhere(d, d', win) && SameKinds(d, d')
            && d'.windows[win].strip == Remove(d.windows[win].strip, t)
            && d'.pages.Keys == d.pages.Keys - {t}
  {
    var d1 := Detach(d, win, t, prefer, world);
    DetachTidy(d, win, t, prefer, world);
    DetachDropCommute(d, win, t, prefer, world);
    DropLoose(d1, t);
    RemoveKeepsOthers(d.windows[win].strip, t);
    SameKindsOneSettings(d, DropPage(d1, t), except);
  }

  lemma WelcomeFits(win: WinId)
    ensures PageFor(WelcomePage, win) && PageFor(SettingsPage, win)
  {}

  /** Closing the last tab opens a welcome tab after a session and ends the window otherwise. */
  lemma CloseLast(d: Desk, win: WinId, t: TabId, prefer: seq<TabId>, world: VmTab.World)
    requires Inv(d) && win in d.windows && d.windows[win].strip == [t] && t in d.pages
    ensures var d' := CloseTabItem(d, win, t, prefer, world);
            && Inv(d')
            && (IsSession(d.pages[t]) ==> d'.windows.Keys == d.windows.Keys && d'.windows[win].strip == [d.nextTab]
                                          && d'.pages.Keys == d.pages.Keys - {t} + {d.nextTab})
            && (!IsSession(d.pages[t]) ==> d'.windows.Keys == d.windows.Keys - {win})
  {
    assert IsSession(WelcomePage) == false;
    hide Homed, Tidy, OneSettings, SameKinds, Detach, AddTab, CloseWindow, PageFor;
    CloseStripped(d, win, t, prefer, world, None);
    var d1 := Detach(DropPage(d, t), win, t, prefer, world);
    assert Manned(d1, Some(win));
    WelcomeFits(win);
    if IsSession(d.pages[t]) {
      AddTabInv(d1, win, WelcomePage, world);
    } else {
      CloseWindowInv(d1, win);
    }
  }

  lemma CloseTabInv(d: Desk, win: WinId, t: TabId, prefer: seq<TabId>, world: VmTab.World)
    requires Inv(d) && win in d.windows && t in d.windows[win].strip
    ensures Inv(CloseTabItem(d, win, t, prefer, world))
  {
    assert Holds(d, win, t);
    if |d.windows[win].strip| > 1 {
      CloseStripped(d, win, t, prefer, world, None);
    } else {
      assert d.windows[win].strip == [t];
      CloseLast(d, win, t, prefer, world);
    }
  }

  // ---- moving ----------------------------------------------------------------

  lemma RehomeFits(p: Page, win: WinId)
    requires PageValid(p)
    ensures var q := Rehome(p, win);
            && SameKind(p, q) && PageFor(q, win) && WantsVisible(q) == WantsVisible(p)
  {}

  /** Selecting a tab of the strip in a tidy desk. */
  lemma SelectPresent(d: Desk, win: WinId, t: TabId, world: VmTab.World, except: Option<TabId>)
    requires Homed(d, None) && Tidy(d) && OneSettings(d, except) && win in d.windows && t in d.windows[win].strip
    ensures var d' := Select(d, win, Some(t), world);
            && Homed(d', None) && Tidy(d') && OneSettings(d', except) && SameStrips(d, d') && SameKinds(d, d')
            && win in d'.windows && d'.windows[win].selected == Some(t)
  {
    Selected(d, win, Some(t), world);
    hide Homed, TabsValid, OneSettings, SameKinds, Select;
    SelectFits(d, win, Some(t), world, None, None);
    SameKindsOneSettings(d, Select(d, win, Some(t), world), except);
  }

  lemma ShownOnce(d: Desk, win: WinId, t: TabId, loose: Option<TabId>)
    requires Homed(d, loose) && win in d.windows && t in d.windows[win].strip
    ensures t in d.pages
    ensures forall w | w in d.windows && w != win :: t !in d.windows[w].strip
  {
    assert Holds(d, win, t);
    forall w | w in d.windows && w != win ensures t !in d.windows[w].strip {
      if t in d.windows[w].strip { assert Holds(d, w, t); }
    }
  }

  /** The older Settings tab gives way to the one just moved in. */
  lemma CloseOlderSettings(d: Desk, win: WinId, t: TabId, other: TabId, prefer: seq<TabId>, world: VmTab.World)
    requires Homed(d, None) && Tidy(d) && OneSettings(d, Some(t))
    requires IsSettings(d, win, t) && IsSettings(d, win, other) && t != other
    ensures var d' := CloseTabItem(d, win, other, prefer, world);
            && Homed(d', None) && Tidy(d') && OneSettings(d', None) && SameElsewhere(d, d', win) && SameKinds(d, d')
            && t in d'.windows[win].strip && d'.pages.Keys == d.pages.Keys - {other}
            && (forall u | u in d'.windows[win].strip :: u in d.windows[win].strip)
  {
    hide Homed, Tidy, Detach, SameKinds, OneSettings;
    CloseStripped(d, win, other, prefer, world, Some(t));
    ShownOnce(d, win, t, None);
    RemoveShown(d, win, other, None);
    var d' := Detach(DropPage(d, other), win, other, prefer, world);
    assert t in d'.windows[win].strip;
    OnlyMovedSettings(d, d', win, t, other);
  }

  lemma RemoveShown(d: Desk, win: WinId, t: TabId, loose: Option<TabId>)
    requires Homed(d, loose) && win in d.windows
    ensures forall u :: u in Remove(d.windows[win].strip, t) <==> u in d.windows[win].strip && u != t
  {
    RemoveKeepsOthers(d.windows[win].strip, t);
  }

  lemma OnlyMovedSettings(d: Desk, d': Desk, win: WinId, t: TabId, other: TabId)
    requires OneSettings(d, Some(t)) && OneSettings(d', Some(t)) && SameElsewhere(d, d', win) && SameKinds(d, d')
    requires IsSettings(d, win, other) && t != other && other !in d'.pages && d'.pages.Keys <= d.pages.Keys
    requires forall u | u in d'.windows[win].strip :: u in d.windows[win].strip
    requires forall w | w in d.windows && w != win :: t !in d.windows[w].strip
    ensures OneSettings(d', None)
  {
    forall w: WinId, u: TabId | IsSettings(d', w, u) ensures w == win ==> u == t {
      assert IsSettings(d, w, u);
    }
    forall w: WinId, t1: TabId, t2: TabId | IsSettings(d', w, t1) && IsSettings(d', w, t2) ensures t1 == t2 {
      if w != win { assert t1 != t && t2 != t; }
    }
  }

  /** What adopting leaves alone: other windows, other pages but an older Settings tab. */
  ghost predicate AdoptFrame(d: Desk, d': Desk, win: WinId, t: TabId) {
    && win in d.windows && d'.windows.Keys == d.windows.Keys && d'.nextTab == d.nextTab && d'.nextWin == d.nextWin
    && (forall w | w in d.windows :: SameFrame(d.windows[w], d'.windows[w])
                                     && (w != win ==> d'.windows[w].strip == d.windows[w].strip))
    && (forall u | u in d'.windows[win].strip :: u in d.windows[win].strip)
    && t in d'.windows[win].strip && d'.windows[win].selected == Some(t)
    && SameKinds(d, d') && d'.pages.Keys <= d.pages.Keys
    && (forall u | u in d.pages && u !in d'.pages :: IsSettings(d, win, t) && IsSettings(d, win, u) && u != t)
  }

  /** With no other Settings tab in its strip, the one moved in is the only one there. */
  lemma OnlySettings(d: Desk, win: WinId, t: TabId)
    requires Homed(d, None) && OneSettings(d, Some(t)) && IsSettings(d, win, t)
    requires Find(d.windows[win].strip, d.pages, ForSettings, Some(t)).None?
    ensures OneSettings(d, None)
  {
    ShownOnce(d, win, t, None);
    hide Homed;
    forall w: WinId, t1: TabId, t2: TabId | IsSettings(d, w, t1) && IsSettings(d, w, t2) ensures t1 == t2 {
      if w == win { assert t1 == t && t2 == t; }
    }
  }

  /** A Settings tab just put into a strip is adopted; an older one there is closed. */
  lemma AdoptSettings(d: Desk, win: WinId, t: TabId, prefer: seq<TabId>, world: VmTab.World)
    requires Homed(d, None) && Tidy(d) && OneSettings(d, Some(t)) && IsSettings(d, win, t)
    ensures var d' := AdoptMovedTab(d, win, t, prefer, world);
            && Homed(d', None) && Tidy(d') && OneSettings(d', None) && AdoptFrame(d, d', win, t)
  {
    hide Homed, Tidy, CloseTabItem, Select, OneSettings;
    var other := Find(d.windows[win].strip, d.pages, ForSettings, Some(t));
    assert d.(pages := d.pages[t := Rehome(d.pages[t], win)]) == d;
    if other.Some? {
      CloseOlderSettings(d, win, t, other.value, prefer, world);
      SelectPresent(CloseTabItem(d, win, other.value, prefer, world), win, t, world, None);
    } else {
      OnlySettings(d, win, t);
      SelectPresent(d, win, t, world, None);
    }
  }

  /** The page in the strip learns its new window. */
  lemma RehomeTidy(d: Desk, win: WinId, t: TabId)
    requires Homed(d, None) && win in d.windows && t in d.windows[win].strip && t in d.pages
    requires SelectionOk(d, None) && TabsValid(d) && PopupsFit(d, Some(t)) && OneSettings(d, None)
    ensures var d' := d.(pages := d.pages[t := Rehome(d.pages[t], win)]);
            && Homed(d', None) && SelectionOk(d', None) && TabsValid(d') && PopupsFit(d', Some(t))
            && OneSettings(d', None) && SameKinds(d, d')
            && (IsSession(d'.pages[t]) ==> OwnerWindow(d'.pages[t]) == win)
  {
    var d' := d.(pages := d.pages[t := Rehome(d.pages[t], win)]);
    RehomeFits(d.pages[t], win);
    assert d'.pages.Keys == d.pages.Keys;
    SameStripsHomed(d, d', None);
    hide Homed;
    SameKindsOneSettings(d, d', None);
  }

  lemma AdoptOther(d: Desk, win: WinId, t: TabId, prefer: seq<TabId>, world: VmTab.World)
    requires Homed(d, None) && win in d.windows && t in d.windows[win].strip && t in d.pages
    requires SelectionOk(d, None) && TabsValid(d) && PopupsFit(d, Some(t)) && OneSettings(d, None)
    requires d.windows[win].selected != Some(t) && !d.pages[t].SettingsPage?
    ensures var d' := AdoptMovedTab(d, win, t, prefer, world);
            && Homed(d', None) && Tidy(d') && OneSettings(d', None) && AdoptFrame(d, d', win, t)
  {
    hide Homed, Tidy, SelectionOk, TabsValid, PopupsFit, OneSettings, Select, Rehome;
    var d1 := d.(pages := d.pages[t := Rehome(d.pages[t], win)]);
    RehomeTidy(d, win, t);
    SelectAttached(d1, win, t, world);
    var d' := Select(d1, win, Some(t), world);
    SameKindsOneSettings(d1, d', None);
  }
}
