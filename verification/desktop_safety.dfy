/** Every run of the desktop: its invariant, and when popups obey their window. */
module DesktopSafety {
  import opened Wrappers
  import opened Strips
  import opened Desktop
  import opened DesktopRuns
  import opened DesktopMoves
  import opened DesktopCloses
  import VmTab
  import RemoteTab
  import Runs = VmTabRuns

  // ---- the remaining operations ----------------------------------------------

  /** The same kind of page, wanted by and belonging to the same window. */
  predicate SamePlace(p: Page, q: Page) {
    && q.SettingsPage? == p.SettingsPage? && q.VmPage? == p.VmPage? && q.RemotePage? == p.RemotePage?
    && WantsVisible(q) == WantsVisible(p) && OwnerWindow(q) == OwnerWindow(p)
  }

  lemma SuppressFits(p: Page, on: bool, world: VmTab.World)
    requires PageValid(p)
    ensures var q := Suppress(p, on, world);
            && PageValid(q) && SamePlace(p, q) && (IsSession(p) ==> IsMuted(q) == on)
  {}

  /** The strips stay; each session page of strip `win` is told `on`. */
  ghost predicate Suppressed(d: Desk, d': Desk, win: WinId, on: bool) {
    && win in d.windows && d'.pages.Keys == d.pages.Keys
    && (forall t | t in d.pages ::
          && (t !in d.windows[win].strip ==> d'.pages[t] == d.pages[t])
          && (t in d.windows[win].strip && IsSession(d'.pages[t]) ==> IsMuted(d'.pages[t]) == on))
  }

  lemma SuppressAllInv(d: Desk, win: WinId, on: bool, world: VmTab.World)
    requires Inv(d) && win in d.windows
    ensures var d' := SuppressAll(d, win, on, world); Inv(d') && Suppressed(d, d', win, on)
  {
    var d' := SuppressAll(d, win, on, world);
    SuppressAllPages(d, win, on, world);
    assert SameStrips(d, d');
    SameStripsHomed(d, d', None);
    hide Homed, SuppressAll, Suppress;
    assert Manned(d', None);
    hide Manned;
    SuppressedTidy(d, d');
  }

  ghost predicate StillFits(d: Desk, d': Desk) {
    && d'.windows == d.windows && d'.pages.Keys == d.pages.Keys
    && forall t | t in d.pages :: PageValid(d'.pages[t]) && SamePlace(d.pages[t], d'.pages[t])
  }

  lemma SuppressAllPages(d: Desk, win: WinId, on: bool, world: VmTab.World)
    requires TabsValid(d) && win in d.windows
    ensures var d' := SuppressAll(d, win, on, world); StillFits(d, d') && Suppressed(d, d', win, on)
  {
    forall t | t in d.pages {
      SuppressFits(d.pages[t], on, world);
    }
    hide Suppress;
  }

  lemma SuppressedTidy(d: Desk, d': Desk)
    requires Tidy(d) && OneSettings(d, None) && StillFits(d, d')
    ensures Tidy(d') && OneSettings(d', None)
  {
    forall w, t | w in d'.windows && t in d'.windows[w].strip && t in d'.pages
      ensures Fits(d'.pages[t], w, d'.windows[w].selected == Some(t))
    {
      assert Fits(d.pages[t], w, d.windows[w].selected == Some(t));
    }
    forall w, t ensures IsSettings(d', w, t) == IsSettings(d, w, t) {}
  }

  /** The same windows, looking the same; their counts may differ. */
  ghost predicate SameLook(d: Desk, d': Desk) {
    && d'.pages == d.pages && d'.windows.Keys == d.windows.Keys && d'.nextWin == d.nextWin && d'.nextTab == d.nextTab
    && forall w | w in d.windows ::
         && d'.windows[w].strip == d.windows[w].strip && d'.windows[w].selected == d.windows[w].selected
         && d'.windows[w].pending == d.windows[w].pending
  }

  lemma SameLookHomed(d: Desk, d': Desk)
    requires SameLook(d, d') && Homed(d, None)
    ensures Homed(d', None)
  {
    forall w, t ensures Holds(d', w, t) == Holds(d, w, t) {}
    forall t | t in d'.pages ensures exists w :: Holds(d', w, t) {
      var w :| Holds(d, w, t);
      assert Holds(d', w, t);
    }
  }

  lemma SameLookTidy(d: Desk, d': Desk)
    requires SameLook(d, d') && Tidy(d) && OneSettings(d, None) && Manned(d, None)
    ensures Tidy(d') && OneSettings(d', None) && Manned(d', None)
  {
    hide PageValid, Fits;
    assert Tidy(d') && Manned(d', None);
    hide Tidy, Manned;
    forall w, t ensures IsSettings(d', w, t) == IsSettings(d, w, t) {}
  }

  lemma SetDepthInv(d: Desk, win: WinId, depth: nat)
    requires Inv(d) && win in d.windows
    ensures Inv(SetDepth(d, win, depth))
  {
    var d' := SetDepth(d, win, depth);
    assert SameLook(d, d');
    hide Homed, Tidy, OneSettings, Manned, SameLook, SetDepth;
    SameLookHomed(d, d');
    SameLookTidy(d, d');
  }

  lemma PushInv(d: Desk, win: WinId, world: VmTab.World)
    requires Inv(d) && win in d.windows
    ensures Inv(PushPopupSuppression(d, win, world))
  {
    hide Inv, SuppressAll;
    var depth := d.windows[win].depth;
    SetDepthInv(d, win, depth + 1);
    if depth == 0 { SuppressAllInv(SetDepth(d, win, 1), win, true, world); }
  }

  lemma PopInv(d: Desk, win: WinId, world: VmTab.World)
    requires Inv(d) && win in d.windows
    ensures Inv(PopPopupSuppression(d, win, world))
  {
    hide Inv, SuppressAll;
    var depth := d.windows[win].depth;
    if depth != 0 { SetDepthInv(d, win, depth - 1); }
    if depth == 1 { SuppressAllInv(SetDepth(d, win, 0), win, false, world); }
  }

  predicate SameOrders(t: VmTab.Tab, t': VmTab.Tab) {
    Runs.SameOrders(VmTab.PopupOf(t), VmTab.PopupOf(t'))
  }

  lemma TearDownKeepsOrders(t: VmTab.Tab)
    ensures SameOrders(t, VmTab.TearDownClient(t))
  {}

  lemma WantClientKeepsOrders(t: VmTab.Tab, w: VmTab.World)
    ensures SameOrders(t, VmTab.WantClient(t, w))
  {}

  lemma UpdateKeepsOrders(t: VmTab.Tab, w: VmTab.World)
    ensures SameOrders(t, VmTab.UpdatePlaceholderAndClient(t, w))
  {
    hide VmTab.TearDownClient, VmTab.WantClient;
    var t' := VmTab.AgePending(t, w);
    TearDownKeepsOrders(t);
    TearDownKeepsOrders(t');
    TearDownKeepsOrders(VmTab.ClearError(t'));
    WantClientKeepsOrders(t', w);
  }

  lemma TimersKeepOrders(t: VmTab.Tab, w: VmTab.World)
    ensures SameOrders(t, VmTab.OnReconnectTimer(t, w)) && SameOrders(t, VmTab.OnFitTimer(t))
    ensures SameOrders(t, VmTab.ReapplyConnectionSettings(t, w)) && SameOrders(t, VmTab.OnPoll(t, w))
  {
    hide VmTab.UpdatePlaceholderAndClient;
    var t' := t.(timers := t.timers.(reconnectAt := None));
    UpdateKeepsOrders(t', w);
    UpdateKeepsOrders(VmTab.TearDownClient(t'), w);
    UpdateKeepsOrders(VmTab.TearDownClient(t), w);
    UpdateKeepsOrders(t, w);
    UpdateKeepsOrders(VmTab.ScheduleReconnect(t, w, VmTab.UPGRADE_DELAY), w);
  }

  lemma ClicksKeepOrders(t: VmTab.Tab, w: VmTab.World)
    ensures SameOrders(t, VmTab.OnStartClick(t, w)) && SameOrders(t, VmTab.OnRetryClick(t, w))
    ensures SameOrders(t, VmTab.OnLoaded(t, w))
  {
    hide VmTab.UpdatePlaceholderAndClient;
    UpdateKeepsOrders(t.(loaded := true), w);
    UpdateKeepsOrders(VmTab.ClearError(t), w);
    UpdateKeepsOrders(
      VmTab.ClearError(t).(start := VmTab.Start(true, w.now, true, w.now), placeholder := VmTab.Starting), w);
  }

  lemma ConnectedKeepsOrders(t: VmTab.Tab, w: VmTab.World, src: nat, enhanced: bool)
    ensures SameOrders(t, VmTab.OnConnected(t, w, src, enhanced))
  {
    hide VmTab.UpdatePlaceholderAndClient;
    UpdateKeepsOrders(t.(
                      gate := t.gate.(connected := true),
                      health := VmTab.Health(false, 0, true),
                      enhanced := t.enhanced.(ever := t.enhanced.ever || enhanced),
                                                      child := VmTab.MarkUp(t.child, src)), w);
  }

  lemma DisconnectedKeepsOrders(t: VmTab.Tab, w: VmTab.World, src: nat, fatal: bool)
    ensures SameOrders(t, VmTab.OnDisconnected(t, w, src, fatal))
  {
    var t' := VmTab.DropSession(t, w, src);
    assert SameOrders(t, t');
    hide VmTab.UpdatePlaceholderAndClient, VmTab.TearDownClient, VmTab.DropSession;
    UpdateKeepsOrders(t', w);
    TearDownKeepsOrders(t'.(health := VmTab.TallyFailure(t.health, t.gate.connected, fatal)));
  }

  /** What happens inside a page never changes what its window asked of it. */
  lemma OwnEventKeeps(t: VmTab.Tab, world: VmTab.World, ev: VmTab.Event)
    requires Runs.Valid(t) && OwnEvent(ev)
    ensures var t' := VmTab.Step(t, world, ev); Runs.Valid(t') && SameOrders(t, t')
  {
    Runs.StepValid(t, world, ev);
    TimersKeepOrders(t, world);
    ClicksKeepOrders(t, world);
    TearDownKeepsOrders(t);
    if ev.Connected? { ConnectedKeepsOrders(t, world, ev.src, ev.enhanced); }
    if ev.Disconnected? { DisconnectedKeepsOrders(t, world, ev.src, ev.fatal); }
    hide Runs.Valid, VmTab.OnLoaded, VmTab.OnReconnectTimer, VmTab.OnFitTimer, VmTab.ReapplyConnectionSettings,
      VmTab.OnPoll,
      VmTab.OnStartClick, VmTab.OnRetryClick, VmTab.OnConnected, VmTab.OnDisconnected, VmTab.TearDownClient;
  }

  lemma VmStepKeeps(p: Page, ev: VmTab.Event, world: VmTab.World)
    requires p.VmPage? && PageValid(p) && OwnEvent(ev)
    ensures var q := p.(tab := VmTab.Step(p.tab, world, ev)); PageValid(q) && SamePlace(p, q) && SameKind(p, q)
  {
    OwnEventKeeps(p.tab, world, ev);
    hide VmTab.Step, Runs.Valid;
  }

  lemma RemoteStepKeeps(p: Page, ev: RemoteTab.RemoteEvent, world: VmTab.World)
    requires p.RemotePage? && PageValid(p)
    ensures var q := p.(remote := RemoteTab.Step(p.remote, world, ev));
            PageValid(q) && SamePlace(p, q) && SameKind(p, q)
  {
    RemoteTab.StepValid(p.remote, world, ev);
    RemoteTab.OwnEventKeepsOrders(p.remote, world, ev);
    hide RemoteTab.Step, RemoteTab.Valid;
  }

  lemma PageEventInv(d: Desk, t: TabId, ev: VmTab.Event, world: VmTab.World)
    requires Inv(d)
    ensures var d' := PageEvent(d, t, ev, world); Inv(d') && Kept(d, d')
  {
    assert TabsValid(d);
    hide Inv, Kept, PageValid, SamePlace, SameKind, VmTab.Step;
    if t in d.pages && d.pages[t].VmPage? && OwnEvent(ev) {
      VmStepKeeps(d.pages[t], ev, world);
      PageChanged(d, t, d.pages[t].(tab := VmTab.Step(d.pages[t].tab, world, ev)));
    } else {
      KeptSelf(d);
    }
  }

  lemma KeptSelf(d: Desk)
    ensures Kept(d, d)
  {
    SameKindsSelf(d);
    hide SameKinds;
  }

  lemma RemoteEventInv(d: Desk, t: TabId, ev: RemoteTab.RemoteEvent, world: VmTab.World)
    requires Inv(d)
    ensures var d' := RemoteEvent(d, t, ev, world); Inv(d') && Kept(d, d')
  {
    assert TabsValid(d);
    hide Inv, Kept, PageValid, SamePlace, SameKind, RemoteTab.Step;
    if t in d.pages && d.pages[t].RemotePage? {
      RemoteStepKeeps(d.pages[t], ev, world);
      PageChanged(d, t, d.pages[t].(remote := RemoteTab.Step(d.pages[t].remote, world, ev)));
    } else {
      KeptSelf(d);
    }
  }

  /** One page goes on to another state of its own. */
  lemma PageChanged(d: Desk, t: TabId, p: Page)
    requires Inv(d) && t in d.pages && PageValid(p) && SamePlace(d.pages[t], p) && SameKind(d.pages[t], p)
    ensures var d' := d.(pages := d.pages[t := p]); Inv(d') && Kept(d, d')
  {
    var d' := d.(pages := d.pages[t := p]);
    PageChangedFits(d, t, p);
    hide Homed, Tidy, OneSettings, StillFits, SameStrips, SameKinds, Kept, PageValid, SamePlace, SameKind;
    SameStripsHomed(d, d', None);
    SuppressedTidy(d, d');
    SameStripsKept(d, d');
  }

  lemma PageChangedFits(d: Desk, t: TabId, p: Page)
    requires TabsValid(d) && t in d.pages && PageValid(p) && SamePlace(d.pages[t], p) && SameKind(d.pages[t], p)
    ensures var d' := d.(pages := d.pages[t := p]); StillFits(d, d') && SameStrips(d, d') && SameKinds(d, d')
  {
    hide PageValid, SameKind;
    SameKindSelf(d);
    assert d.pages[t := p].Keys == d.pages.Keys;
  }

  lemma SameStripsKept(d: Desk, d': Desk)
    requires SameStrips(d, d') && SameKinds(d, d')
    ensures Kept(d, d')
  {
    forall w, u ensures Holds(d', w, u) == Holds(d, w, u) {}
  }

  lemma {:induction false} SameMembers<T>(s: seq<T>, r: seq<T>)
    requires multiset(s) == multiset(r) && NoDup(s)
    ensures NoDup(r) && forall x :: x in r <==> x in s
  {
    forall x ensures x in r <==> x in s {
      assert x in multiset(s) <==> x in s;
      assert x in multiset(r) <==> x in r;
    }
    forall i, j | 0 <= i < j < |r| ensures r[i] != r[j] {
      if r[i] == r[j] {
        assert r == r[..j] + [r[j]] + r[j + 1..];
        assert r[i] in r[..j];
        assert multiset(r) == multiset(r[..j]) + multiset{r[j]} + multiset(r[j + 1..]);
        assert multiset(r)[r[j]] >= 2;
        AtMostOnce(s, r[j]);
      }
    }
  }

  lemma {:induction false} AtMostOnce<T>(s: seq<T>, x: T)
    requires NoDup(s)
    ensures multiset(s)[x] <= 1
  {
    if s != [] {
      AtMostOnce(s[1..], x);
      assert s == [s[0]] + s[1..];
      assert s[0] !in s[1..];
    }
  }

  lemma ReorderInv(d: Desk, win: WinId, strip: seq<TabId>)
    requires Inv(d) && win in d.windows
    ensures var d' := Reorder(d, win, strip); Inv(d') && Kept(d, d')
  {
    if multiset(strip) == multiset(d.windows[win].strip) {
      InvHomed(d);
      SameMembers(d.windows[win].strip, strip);
      hide NoDup, Homed, Tidy, OneSettings, Manned, Kept;
      ReorderHomed(d, win, strip);
      ReorderTidy(d, win, strip);
      ReorderKept(d, win, strip);
    } else {
      KeptSelf(d);
    }
  }

  lemma ReorderKept(d: Desk, win: WinId, strip: seq<TabId>)
    requires Manned(d, None) && win in d.windows && forall t :: t in strip <==> t in d.windows[win].strip
    ensures var d' := d.(windows := d.windows[win := d.windows[win].(strip := strip)]);
            Manned(d', None) && Kept(d, d')
  {
    var d' := d.(windows := d.windows[win := d.windows[win].(strip := strip)]);
    SameKindsSelf(d);
    hide SameKinds;
    assert d.windows[win].strip != [] ==> d.windows[win].strip[0] in d.windows[win].strip;
    forall w, t ensures Holds(d', w, t) == Holds(d, w, t) {}
  }

  lemma ReorderTidy(d: Desk, win: WinId, strip: seq<TabId>)
    requires Tidy(d) && OneSettings(d, None) && win in d.windows
    requires forall t :: t in strip <==> t in d.windows[win].strip
    ensures var d' := d.(windows := d.windows[win := d.windows[win].(strip := strip)]);
            Tidy(d') && OneSettings(d', None)
  {
    var d' := d.(windows := d.windows[win := d.windows[win].(strip := strip)]);
    forall w, t ensures IsSettings(d', w, t) == IsSettings(d, w, t) {}
    hide TabsValid;
  }

  lemma ReorderHomed(d: Desk, win: WinId, strip: seq<TabId>)
    requires Homed(d, None) && win in d.windows && NoDup(strip) && forall t :: t in strip <==> t in d.windows[win].strip
    ensures Homed(d.(windows := d.windows[win := d.windows[win].(strip := strip)]), None)
  {
    var d' := d.(windows := d.windows[win := d.windows[win].(strip := strip)]);
    forall w, t ensures Holds(d', w, t) == Holds(d, w, t) {}
    forall t | t in d'.pages ensures exists w :: Holds(d', w, t) {
      var w :| Holds(d, w, t);
      assert Holds(d', w, t);
    }
  }
}
