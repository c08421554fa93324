/** Which popups are on screen, over every run of windows, tabs, dialogs and connections. */
module PopupSafety {
  import opened Wrappers
  import opened Strips
  import opened Desktop
  import opened DesktopRuns
  import opened DesktopMoves
  import opened DesktopCloses
  import opened DesktopSafety
  import VmTab
  import RemoteTab
  import Runs = VmTabRuns

  // ---- every run keeps the invariant -----------------------------------------

  datatype Turn = Turn(action: Action, world: VmTab.World)

  /** A run; what is not possible any more (its window or tab is gone) does nothing. */
  function Play(d: Desk, turns: seq<Turn>): Desk
    decreases |turns|
  {
    if turns == [] then d
    else Play(if Possible(d, turns[0].action) then Do(d, turns[0].action, turns[0].world) else d, turns[1..])
  }

  predicate IsMove(a: Action) {
    a.Move? || a.Tear? || a.Activated?
  }

  predicate IsOpening(a: Action) {
    a.OpenVm? || a.OpenRemote? || a.OpenWelcome? || a.OpenSettings? || a.Replace?
  }

  lemma MoveActionInv(d: Desk, a: Action, world: VmTab.World)
    requires Inv(d) && Possible(d, a) && IsMove(a)
    ensures Inv(Do(d, a, world))
  {
    hide Inv, MoveTab, TearOut, Activate;
    match a
    case Move(src, dest, t, index, prefer) =>
      if src == dest { MoveNowhere(d, src, t, index, prefer, world); }
      else { MoveInv(d, src, dest, t, index, prefer, world); }
    case Tear(win, t, prefer) =>
      if |d.windows[win].strip| <= 1 { TearNothing(d, win, t, prefer, world); }
      else { TearOutInv(d, win, t, prefer, world); }
    case Activated(win, prefer) => ActivateInv(d, win, prefer, world);
    case _ =>
  }

  lemma MoveNowhere(d: Desk, src: WinId, t: TabId, index: int, prefer: seq<TabId>, world: VmTab.World)
    requires src in d.windows
    ensures MoveTab(d, src, src, t, index, prefer, world) == d
  {}

  lemma TearNothing(d: Desk, src: WinId, t: TabId, prefer: seq<TabId>, world: VmTab.World)
    requires src in d.windows && |d.windows[src].strip| <= 1
    ensures TearOut(d, src, t, prefer, world) == d
  {}

  lemma OpenWelcomeInv(d: Desk, win: WinId, world: VmTab.World)
    requires Inv(d) && win in d.windows
    ensures var d' := OpenWelcomeTab(d, win, world); Inv(d') && Kept(d, d')
  {
    assert Manned(d, Some(win)) && PageFor(WelcomePage, win);
    hide Homed, Tidy, OneSettings, Manned, Kept, AddTab, PageFor, SameKinds;
    AddTabInv(d, win, WelcomePage, world);
    AddTabKept(d, win, WelcomePage, world);
  }

  lemma OpenVmInv(d: Desk, win: WinId, guid: string, world: VmTab.World)
    requires Inv(d) && win in d.windows
    ensures Inv(OpenVmTab(d, win, guid, world))
  {
    NewPageFits(win, guid, "", false);
    assert Matches(NewVmPage(win, guid), ForVm(guid));
    hide Inv, OpenOrFocus, NewVmPage, PageFor, Kept, Find;
    OpenAnswers(d, win, ForVm(guid), NewVmPage(win, guid), world);
  }

  lemma OpenRemoteInv(d: Desk, win: WinId, address: string, autoConnect: bool, world: VmTab.World)
    requires Inv(d) && win in d.windows
    ensures Inv(OpenRemoteHostTab(d, win, address, autoConnect, world))
  {
    NewPageFits(win, "", address, autoConnect);
    assert Matches(NewRemotePage(win, address, autoConnect), ForRemote(address));
    hide Inv, OpenOrFocus, NewRemotePage, PageFor, Kept, Find;
    OpenAnswers(d, win, ForRemote(address), NewRemotePage(win, address, autoConnect), world);
  }

  lemma OpenSettingsInv(d: Desk, win: WinId, world: VmTab.World)
    requires Inv(d) && win in d.windows
    ensures var d' := OpenAppSettingsTab(d, win, world); Inv(d') && Kept(d, d')
  {
    assert PageFor(SettingsPage, win);
    hide Inv, OpenOrFocus, Kept, PageFor, Find;
    OpenAnswers(d, win, ForSettings, SettingsPage, world);
  }

  lemma OpenActionInv(d: Desk, a: Action, world: VmTab.World)
    requires Inv(d) && Possible(d, a) && IsOpening(a)
    ensures Inv(Do(d, a, world))
  {
    hide Inv, Kept, OpenOrFocus, OpenVmTab, OpenRemoteHostTab, OpenAppSettingsTab, AddTab, ReplaceTabWith, Answered, Find;
    match a
    case OpenVm(win, guid) => OpenVmInv(d, win, guid, world);
    case OpenRemote(win, address, autoConnect) => OpenRemoteInv(d, win, address, autoConnect, world);
    case OpenWelcome(win) => OpenWelcomeInv(d, win, world);
    case OpenSettings(win) => OpenSettingsInv(d, win, world);
    case Replace(win, t, guid, prefer) => ReplaceInv(d, win, t, guid, prefer, world);
    case _ =>
  }

  lemma SelectInv(d: Desk, win: WinId, t: TabId, world: VmTab.World)
    requires Inv(d) && Shows(d, win, t)
    ensures var d' := Select(d, win, Some(t), world); Inv(d') && Kept(d, d')
  {
    hide Homed, Tidy, OneSettings, Select, Kept;
    SelectPresent(d, win, t, world, None);
    SelectKept(d, win, Some(t), world);
  }

  lemma CloseWinInv(d: Desk, win: WinId)
    requires Inv(d) && win in d.windows
    ensures var d' := CloseWindow(d, win); Inv(d') && Kept(d, d')
  {
    assert Manned(d, Some(win));
    hide Kept, CloseWindow;
    CloseWindowInv(d, win);
    CloseWindowKept(d, win);
  }

  lemma OtherActionInv(d: Desk, a: Action, world: VmTab.World)
    requires Inv(d) && Possible(d, a)
    requires !IsMove(a) && !IsOpening(a)
    ensures Inv(Do(d, a, world))
    ensures !a.Push? && !a.Pop? ==> Kept(d, Do(d, a, world))
  {
    hide Inv, Kept, Select, CloseTabItem, CloseWindow, CloseDeleted, PushPopupSuppression, PopPopupSuppression,
      Reorder, PageEvent, RemoteEvent;
    match a
    case SelectTab(win, t) => SelectInv(d, win, t, world);
    case CloseTab(win, t, prefer) => CloseTabFrame(d, win, t, prefer, world);
    case CloseWin(win) => CloseWinInv(d, win);
    case Polled(win, known, prefer) => CloseDeletedInv(d, win, known, prefer, world);
    case Push(win) => PushInv(d, win, world);
    case Pop(win) => PopInv(d, win, world);
    case Reordered(win, strip) => ReorderInv(d, win, strip);
    case Session(t, ev) => PageEventInv(d, t, ev, world);
    case RemoteSession(t, rev) => RemoteEventInv(d, t, rev, world);
    case _ =>
  }

  lemma DoInv(d: Desk, a: Action, world: VmTab.World)
    requires Inv(d) && Possible(d, a)
    ensures Inv(Do(d, a, world))
  {
    hide Inv, Do;
    if IsMove(a) { MoveActionInv(d, a, world); }
    else if IsOpening(a) { OpenActionInv(d, a, world); }
    else { OtherActionInv(d, a, world); }
  }

  /** Over every run each tab is in one strip, each window shows or awaits a tab, no window
      has two Settings tabs, and every tab's page is in a reachable, gated state. */
  lemma {:induction false} PlayInv(d: Desk, turns: seq<Turn>)
    requires Inv(d)
    ensures Inv(Play(d, turns))
    decreases |turns|
  {
    hide Inv, Do, Possible;
    if turns != [] {
      if Possible(d, turns[0].action) {
        DoInv(d, turns[0].action, turns[0].world);
        PlayInv(Do(d, turns[0].action, turns[0].world), turns[1..]);
      } else {
        PlayInv(d, turns[1..]);
      }
    }
  }

  /** The app's first window before it has any tab. */
  function Launch(): Desk {
    Desk(map[1 := Window(true, [], None, None, 0)], map[], map[], 2, 0)
  }

  lemma LaunchInv(world: VmTab.World)
    ensures var d := OpenWelcomeTab(Launch(), 1, world); Inv(d) && Sync(d)
  {
    var d := Launch();
    assert Homed(d, None) && Tidy(d) && OneSettings(d, None) && Manned(d, Some(1)) && Sync(d);
    hide Homed, Tidy, OneSettings, Manned, Kept, AddTab;
    AddTabInv(d, 1, WelcomePage, world);
    AddTabKept(d, 1, WelcomePage, world);
    KeptSync(d, OpenWelcomeTab(d, 1, world));
  }

  // ---- suppression follows the window's depth --------------------------------

  predicate Agrees(p: Page, depth: nat) {
    IsSession(p) ==> IsMuted(p) == (depth > 0)
  }

  /** Every session tab a window holds is suppressed exactly while that window's count is above 0. */
  ghost predicate Sync(d: Desk) {
    forall w, t | Holds(d, w, t) && t in d.pages :: Agrees(d.pages[t], d.windows[w].depth)
  }

  lemma AgreesAlike(p: Page, q: Page, depth: nat)
    requires SameKind(p, q)
    ensures Agrees(p, depth) == Agrees(q, depth)
  {
    SameKindMuted(p, q);
  }

  lemma KeptSync(d: Desk, d': Desk)
    requires Homed(d, None) && Kept(d, d') && Sync(d)
    ensures Sync(d')
  {
    assert forall t | t in d.pages :: t < d.nextTab;
    assert forall w, t | Holds(d, w, t) :: t in d.pages;
    hide Homed;
    forall w, t | Holds(d', w, t) && t in d'.pages ensures Agrees(d'.pages[t], d'.windows[w].depth) {
      if t in d.pages {
        assert Holds(d, w, t) && Agrees(d.pages[t], d.windows[w].depth);
        AgreesAlike(d.pages[t], d'.pages[t], d.windows[w].depth);
      }
    }
  }

  predicate HoldsSession(d: Desk, t: Option<TabId>) {
    t.Some? && t.value in d.pages && IsSession(d.pages[t.value])
  }

  /** When an action keeps popups and suppression counts in step: a session tab is not created
      while its window's count is above 0, nor carried between windows of which only one is
      suppressed, nor waiting outside the strip while the count leaves or reaches 0. */
  predicate Calm(d: Desk, a: Action)
    requires Possible(d, a)
  {
    match a
    case OpenVm(win, guid) => Find(d.windows[win].strip, d.pages, ForVm(guid), None).Some? || d.windows[win].depth == 0
    case OpenRemote(win, address, _) =>
      address == "" || Find(d.windows[win].strip, d.pages, ForRemote(address), None).Some? || d.windows[win].depth == 0
    case Replace(win, _, guid, _) =>
      Find(d.windows[win].strip, d.pages, ForVm(guid), None).Some? || d.windows[win].depth == 0
    case Move(src, dest, t, _, _) =>
      src == dest || !HoldsSession(d, Some(t)) || (d.windows[src].depth == 0 <==> d.windows[dest].depth == 0)
    case Tear(win, t, _) => |d.windows[win].strip| <= 1 || !HoldsSession(d, Some(t)) || d.windows[win].depth == 0
    case Push(win) => d.windows[win].depth != 0 || !HoldsSession(d, d.windows[win].pending)
    case Pop(win) => d.windows[win].depth != 1 || !HoldsSession(d, d.windows[win].pending)
    case _ => true
  }

  lemma MovedSync(d: Desk, d': Desk, src: WinId, dest: WinId, t: TabId)
    requires Inv(d) && Sync(d) && Inv(d') && Shows(d, src, t) && dest in d.windows && Moved(d, d', src, dest, t)
    ensures Sync(d') <==> !HoldsSession(d, Some(t)) || (d.windows[src].depth == 0 <==> d.windows[dest].depth == 0)
  {
    assert Holds(d, src, t) && Holds(d', dest, t);
    assert t in d'.pages && SameKind(d.pages[t], d'.pages[t]);
    SameKindMuted(d.pages[t], d'.pages[t]);
    assert Agrees(d.pages[t], d.windows[src].depth);
    hide Inv, Homed, SameKind, IsSession, IsMuted, IsSettings;
    if !HoldsSession(d, Some(t)) || (d.windows[src].depth == 0 <==> d.windows[dest].depth == 0) {
      forall w, u | Holds(d', w, u) && u in d'.pages ensures Agrees(d'.pages[u], d'.windows[w].depth) {
        if u != t && u in d.pages {
          assert Agrees(d.pages[u], d.windows[w].depth);
          AgreesAlike(d.pages[u], d'.pages[u], d.windows[w].depth);
        }
      }
    } else {
      assert !Agrees(d'.pages[t], d'.windows[dest].depth);
    }
  }

  lemma TornSync(d: Desk, d': Desk, src: WinId, t: TabId)
    requires Inv(d) && Sync(d) && Inv(d') && Shows(d, src, t) && TornOut(d, d', src, t)
    ensures Sync(d') <==> !HoldsSession(d, Some(t)) || d.windows[src].depth == 0
  {
    assert Holds(d, src, t) && Holds(d', d.nextWin, t);
    assert t in d.pages && t in d'.pages;
    TornHolds(d, d', src, t);
    SameKindMuted(d.pages[t], d'.pages[t]);
    hide Inv, TornOut, SameKind, IsSession, IsMuted;
    assert Agrees(d.pages[t], d.windows[src].depth);
    if !HoldsSession(d, Some(t)) || d.windows[src].depth == 0 {
      forall w, u | Holds(d', w, u) && u in d'.pages ensures Agrees(d'.pages[u], d'.windows[w].depth) {
        if w != d.nextWin {
          assert Agrees(d.pages[u], d.windows[w].depth);
          AgreesAlike(d.pages[u], d'.pages[u], d.windows[w].depth);
        }
      }
    } else {
      assert !Agrees(d'.pages[t], d'.windows[d.nextWin].depth);
    }
  }

  lemma TornHolds(d: Desk, d': Desk, src: WinId, t: TabId)
    requires Homed(d, None) && Homed(d', None) && TornOut(d, d', src, t)
    ensures SameKinds(d, d') && d.nextWin in d'.windows && d'.windows[d.nextWin].depth == 0
    ensures forall w, u | Holds(d', w, u) ::
              && u in d.pages && (w == d.nextWin ==> u == t)
              && (w != d.nextWin ==> Holds(d, w, u) && d'.windows[w].depth == d.windows[w].depth)
  {
    RemoveShown(d, src, t, None);
    forall w, u | Holds(d', w, u)
      ensures u in d.pages && (w == d.nextWin ==> u == t)
      ensures w != d.nextWin ==> Holds(d, w, u) && d'.windows[w].depth == d.windows[w].depth
    {
      if w != d.nextWin { assert w in d.windows; }
    }
  }

  lemma ActivatedSync(d: Desk, d': Desk, win: WinId, t: TabId)
    requires Inv(d) && Sync(d) && win in d.windows && d.windows[win].pending == Some(t) && ActivatedFrame(d, d', win, t)
    ensures Sync(d')
  {
    InvHomed(d);
    hide Inv, Homed, Sync, Kept, ActivatedFrame;
    ActivatedKept(d, d', win, t);
    KeptSync(d, d');
  }

  lemma ActivatedKept(d: Desk, d': Desk, win: WinId, t: TabId)
    requires win in d.windows && d.windows[win].pending == Some(t) && ActivatedFrame(d, d', win, t)
    ensures Kept(d, d')
  {
    hide SameKinds, IsSettings;
    forall w, u | Holds(d', w, u) ensures Holds(d, w, u) {
      if w != win { assert SameFrame(d.windows[w], d'.windows[w]); }
    }
  }

  // ---- push and pop ----------------------------------------------------------

  /** The window's count crosses 0 and its strip is told; a tab it was handed is not. */
  lemma EdgeSync(d: Desk, d': Desk, win: WinId, depth: nat, on: bool)
    requires Inv(d) && Sync(d) && win in d.windows && on == (depth > 0) && (depth > 0) != (d.windows[win].depth > 0)
    requires Suppressed(SetDepth(d, win, depth), d', win, on)
    requires d'.windows == SetDepth(d, win, depth).windows
    requires forall t | t in d.pages :: IsSession(d'.pages[t]) == IsSession(d.pages[t])
    ensures Sync(d') <==> !HoldsSession(d, d.windows[win].pending)
  {
    var pending := d.windows[win].pending;
    forall w, t ensures Holds(d', w, t) == Holds(d, w, t) {}
    assert forall w, t | Holds(d, w, t) && Holds(d, win, t) :: w == win;
    assert pending.Some? ==> pending.value !in d.windows[win].strip;
    hide Inv, Homed;
    if HoldsSession(d, pending) {
      assert Holds(d', win, pending.value);
      assert Agrees(d.pages[pending.value], d.windows[win].depth);
      assert !Agrees(d'.pages[pending.value], depth);
    } else {
      forall w, t | Holds(d', w, t) && t in d'.pages ensures Agrees(d'.pages[t], d'.windows[w].depth) {
        assert Agrees(d.pages[t], d.windows[w].depth);
        if w == win && t !in d.windows[win].strip { assert pending == Some(t); }
        if w != win { assert !Holds(d, win, t); }
      }
    }
  }

  lemma SetDepthSync(d: Desk, win: WinId, depth: nat)
    requires Sync(d) && win in d.windows && (depth > 0) == (d.windows[win].depth > 0)
    ensures Sync(SetDepth(d, win, depth))
  {
    var d' := SetDepth(d, win, depth);
    forall w, t | Holds(d', w, t) && t in d'.pages ensures Agrees(d'.pages[t], d'.windows[w].depth) {
      assert Holds(d, w, t);
    }
  }

  /** The count crosses 0, and the strip hears of it. */
  lemma CrossingSync(d: Desk, win: WinId, depth: nat, world: VmTab.World)
    requires Inv(d) && Sync(d) && win in d.windows && (depth > 0) != (d.windows[win].depth > 0)
    ensures Sync(SuppressAll(SetDepth(d, win, depth), win, depth > 0, world)) <==> !HoldsSession(d, d.windows[win].pending)
  {
    SetDepthInv(d, win, depth);
    SuppressedSessions(SetDepth(d, win, depth), win, depth > 0, world);
    hide Inv, Sync, HoldsSession, SuppressAll, Suppressed;
    SuppressAllInv(SetDepth(d, win, depth), win, depth > 0, world);
    EdgeSync(d, SuppressAll(SetDepth(d, win, depth), win, depth > 0, world), win, depth, depth > 0);
  }

  lemma SuppressedSessions(d: Desk, win: WinId, on: bool, world: VmTab.World)
    requires win in d.windows
    ensures var d' := SuppressAll(d, win, on, world);
            && d'.windows == d.windows && d'.pages.Keys == d.pages.Keys
            && forall t | t in d.pages :: IsSession(d'.pages[t]) == IsSession(d.pages[t])
  {
    hide VmTab.SetPopupSuppressed, RemoteTab.SetPopupSuppressed;
  }

  lemma PushSync(d: Desk, win: WinId, world: VmTab.World)
    requires Inv(d) && Sync(d) && win in d.windows
    ensures Sync(PushPopupSuppression(d, win, world))
       <==> d.windows[win].depth != 0 || !HoldsSession(d, d.windows[win].pending)
  {
    var depth := d.windows[win].depth;
    hide Inv, Sync, HoldsSession, SuppressAll, SetDepth;
    if depth != 0 { SetDepthSync(d, win, depth + 1); } else { CrossingSync(d, win, 1, world); }
  }

  lemma PopSync(d: Desk, win: WinId, world: VmTab.World)
    requires Inv(d) && Sync(d) && win in d.windows
    ensures Sync(PopPopupSuppression(d, win, world))
       <==> d.windows[win].depth != 1 || !HoldsSession(d, d.windows[win].pending)
  {
    var depth := d.windows[win].depth;
    hide Inv, Sync, HoldsSession, SuppressAll, SetDepth;
    if depth == 1 { CrossingSync(d, win, 0, world); } else if depth > 1 { SetDepthSync(d, win, depth - 1); }
  }

  // ---- opening ---------------------------------------------------------------

  /** A session tab just created in `win`, and everything else as it was. */
  ghost predicate Created(d: Desk, d': Desk, win: WinId) {
    && win in d.windows && win in d'.windows && SameKinds(d, d') && d.nextTab in d'.windows[win].strip
    && d.nextTab in d'.pages && IsSession(d'.pages[d.nextTab]) && !IsMuted(d'.pages[d.nextTab])
    && (forall w | w in d'.windows :: w in d.windows && d'.windows[w].depth == d.windows[w].depth)
    && (forall w, t | Holds(d', w, t) :: if t == d.nextTab then w == win else t in d.pages && Holds(d, w, t))
  }

  lemma OpenCreates(d: Desk, win: WinId, q: Query, page: Page, world: VmTab.World)
    requires Inv(d) && win in d.windows && Find(d.windows[win].strip, d.pages, q, None).None?
    requires IsSession(page) && PageFor(page, win) && !IsMuted(page)
    ensures Created(d, OpenOrFocus(d, win, q, page, world), win)
  {
    var d' := AddTab(d, win, page, world);
    assert Manned(d, Some(win));
    assert OpenOrFocus(d, win, q, page, world) == d' by { hide AddTab, Find; }
    hide Homed, Tidy, OneSettings, Manned, AddTab, OpenOrFocus, PageFor, Find, SameKinds, SameKind, IsSettings, Created;
    AddTabInv(d, win, page, world);
    CreatedHolds(d, d', win);
    AddedCreates(d, d', win, page);
  }

  lemma AddedCreates(d: Desk, d': Desk, win: WinId, page: Page)
    requires win in d.windows && IsSession(page) && !IsMuted(page)
    requires d'.windows.Keys == d.windows.Keys && d'.pages.Keys == d.pages.Keys + {d.nextTab}
    requires d'.windows[win].strip == d.windows[win].strip + [d.nextTab]
    requires SameKinds(d, d') && SameKind(page, d'.pages[d.nextTab])
    requires forall w, t | Holds(d', w, t) :: if t == d.nextTab then w == win else t in d.pages && Holds(d, w, t)
    requires forall w | w in d.windows :: d'.windows[w].depth == d.windows[w].depth
    ensures Created(d, d', win)
  {
    SameKindMuted(page, d'.pages[d.nextTab]);
    hide SameKinds, SameKind, IsSession, IsMuted;
  }

  lemma CreatedHolds(d: Desk, d': Desk, win: WinId)
    requires Homed(d, None) && win in d.windows && d'.windows.Keys == d.windows.Keys
    requires d'.windows[win].strip == d.windows[win].strip + [d.nextTab] && SameFrame(d.windows[win], d'.windows[win])
    requires forall w | w in d.windows && w != win :: d'.windows[w] == d.windows[w]
    ensures forall w, t | Holds(d', w, t) :: if t == d.nextTab then w == win else t in d.pages && Holds(d, w, t)
    ensures forall w | w in d.windows :: d'.windows[w].depth == d.windows[w].depth
  {
    assert d.nextTab !in d.pages;
    forall w, t | Holds(d', w, t) ensures if t == d.nextTab then w == win else t in d.pages && Holds(d, w, t) {
      if t == d.nextTab && w != win { assert Holds(d, w, t); }
      if t != d.nextTab { assert Holds(d, w, t); }
    }
  }

  lemma CreatedSync(d: Desk, d': Desk, win: WinId)
    requires Sync(d) && Created(d, d', win)
    ensures Sync(d') <==> d.windows[win].depth == 0
  {
    assert Holds(d', win, d.nextTab);
    if d.windows[win].depth == 0 {
      forall w, t | Holds(d', w, t) && t in d'.pages ensures Agrees(d'.pages[t], d'.windows[w].depth) {
        if t != d.nextTab {
          assert Agrees(d.pages[t], d.windows[w].depth);
          AgreesAlike(d.pages[t], d'.pages[t], d.windows[w].depth);
        }
      }
    } else {
      assert !Agrees(d'.pages[d.nextTab], d'.windows[win].depth);
    }
  }

  /** Replacing a tab by a VM's: if that VM's tab had to be created, closing the old tab
      leaves the new one, suppressed or not. */
  lemma ReplaceSync(d: Desk, win: WinId, t: TabId, guid: string, prefer: seq<TabId>, world: VmTab.World)
    requires Inv(d) && Sync(d) && Shows(d, win, t)
    ensures Sync(ReplaceTabWith(d, win, t, guid, prefer, world))
       <==> Find(d.windows[win].strip, d.pages, ForVm(guid), None).Some? || d.windows[win].depth == 0
  {
    var d1 := OpenVmTab(d, win, guid, world);
    var d2 := CloseTabItem(d1, win, t, prefer, world);
    var target := Find(d1.windows[win].strip, d1.pages, ForVm(guid), None);
    var d3 := Refocus(d2, win, target, world);
    assert d3 == ReplaceTabWith(d, win, t, guid, prefer, world);
    InvHomed(d);
    assert t in d.windows[win].strip;
    hide Inv, Homed, OpenVmTab, CloseTabItem, Refocus, ReplaceTabWith, Sync, Kept, Created, Find, Closed;
    ReplaceInv(d, win, t, guid, prefer, world);
    if Find(d.windows[win].strip, d.pages, ForVm(guid), None).Some? {
      KeptSync(d, d3);
    } else {
      NewPageFits(win, guid, "", false);
      OpenMatches(d, win, t, ForVm(guid), NewVmPage(win, guid), world);
      OpenCreates(d, win, ForVm(guid), NewVmPage(win, guid), world);
      CreatedSync(d, d1, win);
      CreatedStays(d, d1, d2, win, t, prefer, world);
      RefocusInv(d2, win, target, world);
      InvHomed(d1);
      KeptTrans(d1, d2, d3);
      if d.windows[win].depth == 0 { KeptSync(d1, d3); } else { StillUnsuppressed(d, d1, d3, win); }
    }
  }

  lemma CreatedStays(d: Desk, d1: Desk, d2: Desk, win: WinId, t: TabId, prefer: seq<TabId>, world: VmTab.World)
    requires Inv(d1) && Homed(d, None) && Created(d, d1, win) && Shows(d, win, t) && Shows(d1, win, t)
    requires d2 == CloseTabItem(d1, win, t, prefer, world)
    ensures Inv(d2) && Kept(d1, d2) && Shows(d2, win, d.nextTab)
  {
    CloseTabFrame(d1, win, t, prefer, world);
    ShownOnce(d, win, t, None);
    assert t != d.nextTab && d.nextTab in d1.windows[win].strip && t in d1.windows[win].strip;
    RemoveShown(d1, win, t, None);
    hide Inv, CloseTabItem, Kept;
    assert |d1.windows[win].strip| > 1;
  }

  lemma StillUnsuppressed(d: Desk, d1: Desk, d3: Desk, win: WinId)
    requires Created(d, d1, win) && Kept(d1, d3) && Inv(d3) && Shows(d3, win, d.nextTab) && d.windows[win].depth > 0
    ensures !Sync(d3)
  {
    ShownOnce(d3, win, d.nextTab, None);
    hide Inv, Homed;
    assert SameKind(d1.pages[d.nextTab], d3.pages[d.nextTab]);
    assert Holds(d3, win, d.nextTab) && !Agrees(d3.pages[d.nextTab], d3.windows[win].depth);
  }

  // ---- the theorem -----------------------------------------------------------

  lemma MoveActionSync(d: Desk, a: Action, world: VmTab.World)
    requires Inv(d) && Sync(d) && Possible(d, a) && IsMove(a)
    ensures Sync(Do(d, a, world)) <==> Calm(d, a)
  {
    hide Inv, Sync, MoveTab, TearOut, Activate, HoldsSession;
    match a
    case Move(src, dest, t, index, prefer) =>
      if src == dest { MoveNowhere(d, src, t, index, prefer, world); } else {
        MoveInv(d, src, dest, t, index, prefer, world);
        MovedSync(d, MoveTab(d, src, dest, t, index, prefer, world), src, dest, t);
      }
    case Tear(win, t, prefer) =>
      if |d.windows[win].strip| <= 1 { TearNothing(d, win, t, prefer, world); } else {
        TearOutInv(d, win, t, prefer, world);
        TornSync(d, TearOut(d, win, t, prefer, world), win, t);
      }
    case Activated(win, prefer) =>
      if d.windows[win].pending.None? { ActivateNothing(d, win, prefer, world); } else {
        ActivateInv(d, win, prefer, world);
        ActivatedSync(d, Activate(d, win, prefer, world), win, d.windows[win].pending.value);
      }
    case _ =>
  }

  lemma ActivateNothing(d: Desk, win: WinId, prefer: seq<TabId>, world: VmTab.World)
    requires win in d.windows && d.windows[win].pending.None?
    ensures Activate(d, win, prefer, world) == d
  {}

  lemma OpenSessionSync(d: Desk, win: WinId, q: Query, page: Page, world: VmTab.World)
    requires Inv(d) && Sync(d) && win in d.windows && Matches(page, q)
    requires IsSession(page) && PageFor(page, win) && !IsMuted(page)
    ensures Sync(OpenOrFocus(d, win, q, page, world))
       <==> Find(d.windows[win].strip, d.pages, q, None).Some? || d.windows[win].depth == 0
  {
    InvHomed(d);
    hide Inv, Homed, Sync, Kept, Created, OpenOrFocus, Find, Matches, PageFor;
    if Find(d.windows[win].strip, d.pages, q, None).Some? {
      OpenAnswers(d, win, q, page, world);
      KeptSync(d, OpenOrFocus(d, win, q, page, world));
    } else {
      OpenCreates(d, win, q, page, world);
      CreatedSync(d, OpenOrFocus(d, win, q, page, world), win);
    }
  }

  lemma OpenVmSync(d: Desk, win: WinId, guid: string, world: VmTab.World)
    requires Inv(d) && Sync(d) && win in d.windows
    ensures Sync(OpenVmTab(d, win, guid, world))
       <==> Find(d.windows[win].strip, d.pages, ForVm(guid), None).Some? || d.windows[win].depth == 0
  {
    NewPageFits(win, guid, "", false);
    assert Matches(NewVmPage(win, guid), ForVm(guid)) && IsSession(NewVmPage(win, guid));
    hide Inv, Sync, OpenOrFocus, NewVmPage, PageFor, Find;
    OpenSessionSync(d, win, ForVm(guid), NewVmPage(win, guid), world);
  }

  lemma OpenRemoteSync(d: Desk, win: WinId, address: string, autoConnect: bool, world: VmTab.World)
    requires Inv(d) && Sync(d) && win in d.windows
    ensures Sync(OpenRemoteHostTab(d, win, address, autoConnect, world))
       <==> address == "" || Find(d.windows[win].strip, d.pages, ForRemote(address), None).Some?
            || d.windows[win].depth == 0
  {
    var page := NewRemotePage(win, address, autoConnect);
    NewPageFits(win, "", address, autoConnect);
    assert Matches(page, ForRemote(address)) && IsSession(page);
    hide Inv, Sync, OpenOrFocus, NewRemotePage, PageFor, Find;
    OpenSessionSync(d, win, ForRemote(address), page, world);
  }

  lemma OpenActionSync(d: Desk, a: Action, world: VmTab.World)
    requires Inv(d) && Sync(d) && Possible(d, a) && IsOpening(a)
    ensures Sync(Do(d, a, world)) <==> Calm(d, a)
  {
    InvHomed(d);
    hide Inv, Homed, Sync, Kept, OpenOrFocus, OpenVmTab, OpenRemoteHostTab, OpenAppSettingsTab, AddTab,
      ReplaceTabWith, Find;
    match a
    case OpenVm(win, guid) => OpenVmSync(d, win, guid, world);
    case OpenRemote(win, address, autoConnect) => OpenRemoteSync(d, win, address, autoConnect, world);
    case OpenWelcome(win) =>
      OpenWelcomeInv(d, win, world);
      KeptSync(d, OpenWelcomeTab(d, win, world));
    case OpenSettings(win) =>
      OpenSettingsInv(d, win, world);
      KeptSync(d, OpenAppSettingsTab(d, win, world));
    case Replace(win, t, guid, prefer) => ReplaceSync(d, win, t, guid, prefer, world);
    case _ =>
  }

  /** Exactly the calm actions keep suppression and counts in step. */
  lemma DoSync(d: Desk, a: Action, world: VmTab.World)
    requires Inv(d) && Sync(d) && Possible(d, a)
    ensures Sync(Do(d, a, world)) <==> Calm(d, a)
  {
    InvHomed(d);
    if IsMove(a) { hide Do, Calm; MoveActionSync(d, a, world); }
    else if IsOpening(a) { hide Do, Calm; OpenActionSync(d, a, world); }
    else if a.Push? { hide Inv, PushPopupSuppression, HoldsSession; PushSync(d, a.win, world); }
    else if a.Pop? { hide Inv, PopPopupSuppression, HoldsSession; PopSync(d, a.win, world); }
    else {
      hide Inv, Sync, Do, Kept, Homed;
      OtherActionInv(d, a, world);
      KeptSync(d, Do(d, a, world));
    }
  }

  /** Every turn of the run is calm when it is taken. */
  predicate CalmRun(d: Desk, turns: seq<Turn>)
    decreases |turns|
  {
    turns == [] ||
    if Possible(d, turns[0].action)
    then Calm(d, turns[0].action) && CalmRun(Do(d, turns[0].action, turns[0].world), turns[1..])
    else CalmRun(d, turns[1..])
  }

  /** A popup is on screen only for the selected tab of the window that shows it, over that
      window, with its session connected and no dialog open there. */
  ghost predicate PopupsObey(d: Desk) {
    forall w, t | w in d.windows && t in d.windows[w].strip && t in d.pages ::
      PopupObeys(d.windows[w], w, t, d.pages[t])
  }

  predicate PopupObeys(window: Window, w: WinId, t: TabId, p: Page) {
    match p
    case VmPage(_, tab) => ShownRightly(window, w, t, tab.child, tab.gate)
    case RemotePage(_, remote) => ShownRightly(window, w, t, remote.child, remote.gate)
    case _ => true
  }

  predicate ShownRightly(window: Window, w: WinId, t: TabId, child: VmTab.Child, gate: VmTab.Gate) {
    child.client.Some? && child.client.value.shown ==>
      && window.selected == Some(t) && window.depth == 0
      && gate.connected && child.client.value.owner == w
  }

  /** The same for the tabs in strips alone. */
  ghost predicate StripSync(d: Desk) {
    forall w, t | w in d.windows && t in d.windows[w].strip && t in d.pages :: Agrees(d.pages[t], d.windows[w].depth)
  }

  lemma SyncStrips(d: Desk)
    requires Sync(d)
    ensures StripSync(d)
  {
    forall w, t | w in d.windows && t in d.windows[w].strip && t in d.pages ensures Agrees(d.pages[t], d.windows[w].depth) {
      assert Holds(d, w, t);
    }
  }

  lemma InvObeys(d: Desk)
    requires Inv(d) && StripSync(d)
    ensures PopupsObey(d)
  {
    assert TabsValid(d) && PopupsFit(d, None);
    hide Homed, OneSettings, Manned, SelectionOk;
    forall w, t | w in d.windows && t in d.windows[w].strip && t in d.pages
      ensures PopupObeys(d.windows[w], w, t, d.pages[t])
    {
      assert PageValid(d.pages[t]) && Fits(d.pages[t], w, d.windows[w].selected == Some(t));
      assert Agrees(d.pages[t], d.windows[w].depth);
    }
  }

  /** Popup safety over every calm run, whatever order connects, tab switches, dialogs, moves
      and timers come in. */
  lemma {:induction false} PlayObeys(d: Desk, turns: seq<Turn>)
    requires Inv(d) && Sync(d) && CalmRun(d, turns)
    ensures Inv(Play(d, turns)) && Sync(Play(d, turns)) && PopupsObey(Play(d, turns))
    decreases |turns|
  {
    hide Inv, Sync, StripSync, Do, Possible, Calm, PopupsObey;
    if turns == [] {
      SyncStrips(d);
      InvObeys(d);
    } else if Possible(d, turns[0].action) {
      DoInv(d, turns[0].action, turns[0].world);
      DoSync(d, turns[0].action, turns[0].world);
      PlayObeys(Do(d, turns[0].action, turns[0].world), turns[1..]);
    } else {
      PlayObeys(d, turns[1..]);
    }
  }

  /** Why opening under a dialog is not calm: the tab's session connects and its popup covers
      the dialog. */
  lemma PopupOverDialog(d: Desk, win: WinId, guid: string, world: VmTab.World)
    requires Inv(d) && win in d.windows && d.windows[win].depth > 0
    requires Find(d.windows[win].strip, d.pages, ForVm(guid), None).None?
    requires VmTab.IsRunning(world) && world.exePresent && world.border
    ensures var u := d.nextTab;
            var d1 := OpenVmTab(d, win, guid, world);
            var d2 := PageEvent(d1, u, VmTab.Loaded, world);
            var d3 := PageEvent(d2, u, VmTab.Connected(0, false), world);
            !PopupsObey(d3)
  {
    var u := d.nextTab;
    var d1 := OpenVmTab(d, win, guid, world);
    FreshPage(d, win, guid, world);
    assert 0 < win by { assert Homed(d, None); }
    hide Inv, OpenVmTab;
    var d2 := PageEvent(d1, u, VmTab.Loaded, world);
    var d3 := PageEvent(d2, u, VmTab.Connected(0, false), world);
    FreshTabConnects(win, world);
    assert d3.windows == d1.windows;
    assert !PopupObeys(d3.windows[win], win, u, d3.pages[u]);
  }

  lemma FreshPage(d: Desk, win: WinId, guid: string, world: VmTab.World)
    requires Inv(d) && win in d.windows && Find(d.windows[win].strip, d.pages, ForVm(guid), None).None?
    ensures var d1 := OpenVmTab(d, win, guid, world);
            && win in d1.windows && d1.windows[win].depth == d.windows[win].depth
            && d.nextTab in d1.windows[win].strip && d.nextTab in d1.pages
            && d1.pages[d.nextTab] == VmPage(guid, VmTab.ShowPopup(VmTab.SetWindow(VmTab.Initial(), win), world))
  {
    assert d.windows[win].selected != Some(d.nextTab) by {
      assert SelectionOk(d, None);
      if d.windows[win].selected == Some(d.nextTab) { ShownOnce(d, win, d.nextTab, None); }
    }
    hide Inv;
  }

  lemma FreshTabConnects(win: WinId, world: VmTab.World)
    requires 0 < win && VmTab.IsRunning(world) && world.exePresent && world.border
    ensures var t := VmTab.ShowPopup(VmTab.SetWindow(VmTab.Initial(), win), world);
            var t' := VmTab.Step(VmTab.Step(t, world, VmTab.Loaded), world, VmTab.Connected(0, false));
            t'.child.client.Some? && t'.child.client.value.shown
  {}
}
