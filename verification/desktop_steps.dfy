/** What one action of the user or the system does to a desktop, without the functions that do it. */
module DesktopSteps {
  import opened Wrappers
  import opened Strips
  import opened Desktop
  import opened DesktopRuns
  import opened DesktopMoves
  import opened DesktopCloses
  import opened DesktopSafety
  import opened PopupSafety
  import opened DesktopPlaces
  import Text
  import VmTab
  import RemoteTab
  import VmFields = VmTabFields
  import RemoteFields

  /** The other windows stand as they were. */
  predicate Only(d: Desk, d': Desk, win: WinId) {
    && win in d.windows && d'.windows.Keys == d.windows.Keys
    && forall w | w in d.windows && w != win :: d'.windows[w] == d.windows[w]
  }

  /** A closed tab leaves its place; after the last tab comes a welcome tab, or the window goes. */
  ghost predicate CloseLaw(d: Desk, d': Desk, win: WinId, t: TabId, prefer: seq<TabId>)
    requires win in d.windows && t in d.pages
  {
    && t in d'.gone && Parted(d.pages[t], d'.gone[t])
    && (if |d.windows[win].strip| > 1 then
          && Only(d, d', win) && TakenFrom(d.windows[win].strip, t, d'.windows[win].strip)
          && Reselected(d.windows[win], t, prefer, d'.windows[win])
        else if d.pages[t].VmPage? || d.pages[t].RemotePage? then
          && d'.windows.Keys == d.windows.Keys && d'.windows[win].strip == [d.nextTab]
        else d'.windows.Keys == d.windows.Keys - {win})
  }

  /** The old tab is gone. Unless it was the VM's own, the first tab of that VM is selected, and
      a new one at the end if there was none; the others keep their order. */
  ghost predicate ReplaceLaw(d: Desk, d': Desk, win: WinId, t: TabId, guid: string)
    requires win in d.windows && t in d.pages
  {
    && t !in d'.pages
    && (!Answers(d.pages[t], ForVm(guid)) ==>
          && Only(d, d', win)
          && exists r ::
               && FirstAnswer(d.windows[win].strip, d.pages, ForVm(guid), r)
               && d'.windows[win].selected == (if r.Some? then r else Some(d.nextTab))
               && TakenFrom(d.windows[win].strip + (if r.Some? then [] else [d.nextTab]), t, d'.windows[win].strip))
  }

  ghost predicate TearLaw(d: Desk, d': Desk, win: WinId, t: TabId, prefer: seq<TabId>)
    requires win in d.windows
  {
    if |d.windows[win].strip| <= 1 then d' == d
    else
      && d'.windows.Keys == d.windows.Keys + {d.nextWin} && win in d'.windows && d'.nextWin == d.nextWin + 1
      && TakenFrom(d.windows[win].strip, t, d'.windows[win].strip)
      && Reselected(d.windows[win], t, prefer, d'.windows[win])
      && d'.windows[d.nextWin] == Window(false, [], None, Some(t), 0)
      && forall w | w in d.windows && w != win :: w in d'.windows && d'.windows[w] == d.windows[w]
  }

  /** One page changes, as its own laws say. */
  ghost predicate SessionLaw(d: Desk, d': Desk, t: TabId, ev: VmTab.Event, world: VmTab.World) {
    if t in d.pages && d.pages[t].VmPage? && !(ev.Show? || ev.Hide? || ev.Suppress? || ev.SetHwnd? || ev.Shutdown?)
    then
      && t in d'.pages && d'.pages[t].VmPage? && d'.pages[t].guid == d.pages[t].guid
      && d' == d.(pages := d.pages[t := d'.pages[t]])
      && VmFields.StepLaw(d.pages[t].tab, world, ev, d'.pages[t].tab)
    else d' == d
  }

  ghost predicate RemoteLaw(d: Desk, d': Desk, t: TabId, ev: RemoteTab.RemoteEvent, world: VmTab.World) {
    if t in d.pages && d.pages[t].RemotePage?
    then
      && t in d'.pages && d'.pages[t].RemotePage? && d'.pages[t].address == d.pages[t].address
      && d' == d.(pages := d.pages[t := d'.pages[t]])
      && RemoteFields.StepLaw(d.pages[t].remote, world, RemoteTab.Event(ev), d'.pages[t].remote)
    else d' == d
  }

  ghost predicate ActionLaw(d: Desk, a: Action, d': Desk, world: VmTab.World)
    requires Inv(d) && Possible(d, a)
  {
    match a
    case OpenVm(win, guid) => OpenLaw(d, d', win, ForVm(guid), false)
    case OpenRemote(win, address, autoConnect) =>
      if address == "" then d' == d else OpenLaw(d, d', win, ForRemote(address), autoConnect)
    case OpenWelcome(win) =>
      && Only(d, d', win) && d'.windows[win].strip == d.windows[win].strip + [d.nextTab]
      && d'.windows[win].selected == Some(d.nextTab) && d.nextTab in d'.pages && d'.pages[d.nextTab] == WelcomePage
    case OpenSettings(win) => OpenLaw(d, d', win, ForSettings, false)
    case SelectTab(win, t) => d'.windows == d.windows[win := d.windows[win].(selected := Some(t))]
    case CloseTab(win, t, prefer) => t in d.pages && CloseLaw(d, d', win, t, prefer)
    case Replace(win, t, guid, prefer) => t in d.pages && ReplaceLaw(d, d', win, t, guid)
    case CloseWin(win) => d'.windows == d.windows - {win}
    case Move(src, win, t, index, prefer) =>
      if src == win then d' == d else MovedTo(d, d', src, win, t, index, prefer)
    case Tear(win, t, prefer) => TearLaw(d, d', win, t, prefer)
    case Activated(win, prefer) =>
      (match d.windows[win].pending
       case None => d' == d
       case Some(t) => && Only(d, d', win) && d'.windows[win].selected == Some(t)
                       && Settled(d, win, t, d.windows[win].strip + [t], d'.windows[win].strip))
    case Polled(win, known, prefer) =>
      forall t | t in d.windows[win].strip ::
        && t in d.pages && win in d'.windows
        && (t in d'.windows[win].strip <==>
            !(d.pages[t].VmPage? && forall k | k in known :: !Text.SameFold(k, d.pages[t].guid)))
    case Push(win) => d'.windows == d.windows[win := d.windows[win].(depth := d.windows[win].depth + 1)]
    case Pop(win) =>
      var n := d.windows[win].depth;
      d'.windows == d.windows[win := d.windows[win].(depth := if n > 0 then n - 1 else 0)]
    case Reordered(win, strip) =>
      d' == if multiset(strip) != multiset(d.windows[win].strip) then d
      else d.(windows := d.windows[win := d.windows[win].(strip := strip)])
    case Session(t, ev) => SessionLaw(d, d', t, ev, world)
    case RemoteSession(t, ev) => RemoteLaw(d, d', t, ev, world)
  }

  /** Each action does to the windows, the strips and the page it is about what its law says. */
  lemma DoExactly(d: Desk, a: Action, world: VmTab.World)
    requires Inv(d) && Possible(d, a)
    ensures ActionLaw(d, a, Do(d, a, world), world)
  {
    hide Inv, OpenVmTab, OpenRemoteHostTab, OpenWelcomeTab, OpenAppSettingsTab, Select, CloseTabItem, ReplaceTabWith,
      CloseWindow, MoveTab, TearOut, Activate, CloseDeleted, PushPopupSuppression, PopPopupSuppression, Reorder,
      PageEvent, RemoteEvent, OpenLaw, CloseLaw, ReplaceLaw, MovedTo, SessionLaw, RemoteLaw, Settled, TakenFrom,
      Reselected;
    match a
    case OpenVm(_, _) => Opens(d, a, world);
    case OpenRemote(_, _, _) => Opens(d, a, world);
    case OpenSettings(_) => Opens(d, a, world);
    case OpenWelcome(win) => { AddTabPlaces(d, win, WelcomePage, world); WelcomeAdds(d, win, world); }
    case SelectTab(win, t) => SelectShape(d, win, Some(t), world);
    case CloseTab(win, t, prefer) => Closes(d, win, t, prefer, world);
    case Replace(win, t, guid, prefer) => Replaces(d, win, t, guid, prefer, world);
    case CloseWin(win) => { assert CloseWindow(d, win).windows == d.windows - {win} by { WindowGoes(d, win); } }
    case Move(src, win, t, index, prefer) =>
      if src == win { MoveNowhere(d, src, t, index, prefer, world); }
      else { MovePlaces(d, src, win, t, index, prefer, world); }
    case Tear(win, t, prefer) => TearPlaces(d, win, t, prefer, world);
    case Activated(win, prefer) => Activates(d, win, prefer, world);
    case Polled(win, known, prefer) => Polls(d, win, known, prefer, world);
    case Push(win) => PushPopPlaces(d, win, world);
    case Pop(win) => PushPopPlaces(d, win, world);
    case Reordered(win, strip) => ReorderPlaces(d, win, strip);
    case Session(t, ev) => PageSteps(d, t, ev, world);
    case RemoteSession(t, ev) => RemoteSteps(d, t, ev, world);
  }

  lemma WelcomeAdds(d: Desk, win: WinId, world: VmTab.World)
    requires win in d.windows
    ensures OpenWelcomeTab(d, win, world) == AddTab(d, win, WelcomePage, world)
  {}

  lemma SelectShape(d: Desk, win: WinId, t: Option<TabId>, world: VmTab.World)
    requires win in d.windows
    ensures Select(d, win, t, world).windows == d.windows[win := d.windows[win].(selected := t)]
  {
    assert d.windows[win := d.windows[win]] == d.windows;
    assert d.windows[win].selected == t ==> d.windows[win].(selected := t) == d.windows[win];
  }

  lemma WindowGoes(d: Desk, win: WinId)
    requires win in d.windows
    ensures CloseWindow(d, win).windows == d.windows - {win}
  {}

  lemma MoveNowhere(d: Desk, win: WinId, t: TabId, index: int, prefer: seq<TabId>, world: VmTab.World)
    requires win in d.windows
    ensures MoveTab(d, win, win, t, index, prefer, world) == d
  {}

  lemma Activates(d: Desk, win: WinId, prefer: seq<TabId>, world: VmTab.World)
    requires Inv(d) && win in d.windows
    ensures ActionLaw(d, Activated(win, prefer), Activate(d, win, prefer, world), world)
  {
    if d.windows[win].pending.Some? { ActivatePlaces(d, win, prefer, world); }
    hide Inv, Settled;
    if d.windows[win].pending.Some? { hide Activate; }
  }

  lemma Opens(d: Desk, a: Action, world: VmTab.World)
    requires Inv(d) && Possible(d, a) && (a.OpenVm? || a.OpenRemote? || a.OpenSettings?)
    ensures ActionLaw(d, a, Do(d, a, world), world)
  {
    hide Inv, OpenVmTab, OpenRemoteHostTab, OpenAppSettingsTab, OpenLaw;
    OpeningPlaces(d, a.win, if a.OpenVm? then a.guid else "", if a.OpenRemote? then a.address else "",
                  a.OpenRemote? && a.autoConnect, world);
  }

  lemma Closes(d: Desk, win: WinId, t: TabId, prefer: seq<TabId>, world: VmTab.World)
    requires Inv(d) && Shows(d, win, t)
    ensures t in d.pages && CloseLaw(d, CloseTabItem(d, win, t, prefer, world), win, t, prefer)
  {
    CloseTabPlaces(d, win, t, prefer, world);
    if |d.windows[win].strip| > 1 {
      ClosePlaces(d, win, t, prefer, world);
    } else {
      assert d.windows[win].strip == [t];
      CloseLast(d, win, t, prefer, world);
    }
    hide Inv, CloseTabItem, Parted, Reselected, TakenFrom;
  }

  lemma PageSteps(d: Desk, t: TabId, ev: VmTab.Event, world: VmTab.World)
    ensures SessionLaw(d, PageEvent(d, t, ev, world), t, ev, world)
  {
    hide VmTab.Step, VmFields.StepLaw;
    if t in d.pages && d.pages[t].VmPage? {
      var tab := d.pages[t].tab;
      VmFields.StepExactly(tab, world, ev, VmTab.Step(tab, world, ev));
    }
  }

  lemma RemoteSteps(d: Desk, t: TabId, ev: RemoteTab.RemoteEvent, world: VmTab.World)
    ensures RemoteLaw(d, RemoteEvent(d, t, ev, world), t, ev, world)
  {
    hide RemoteTab.Step, RemoteFields.StepLaw;
    if t in d.pages && d.pages[t].RemotePage? {
      var remote := d.pages[t].remote;
      RemoteFields.StepExactly(remote, world, RemoteTab.Event(ev), RemoteTab.Step(remote, world, ev));
    }
  }

  lemma Polls(d: Desk, win: WinId, known: set<string>, prefer: seq<TabId>, world: VmTab.World)
    requires Inv(d) && win in d.windows
    ensures ActionLaw(d, Polled(win, known, prefer), CloseDeleted(d, win, known, prefer, world), world)
  {
    forall t | t in d.windows[win].strip
      ensures var d' := CloseDeleted(d, win, known, prefer, world);
              && t in d.pages && win in d'.windows
              && (t in d'.windows[win].strip <==>
                  !(d.pages[t].VmPage? && forall k | k in known :: !Text.SameFold(k, d.pages[t].guid)))
    {
      PolledExactly(d, win, known, prefer, world, t);
    }
    hide Inv, CloseDeleted;
  }

  // ---- replacing -------------------------------------------------------------------

  /** A search of a longer strip finds the same tab as long as the pages answer alike. */
  lemma {:induction false} FindSame(strip: seq<TabId>, tail: seq<TabId>, pages: map<TabId, Page>,
                                    pages': map<TabId, Page>, q: Query)
    requires forall u | u in strip :: u in pages && u in pages' && Matches(pages'[u], q) == Matches(pages[u], q)
    ensures var r := Find(strip, pages, q, None);
            Find(strip + tail, pages', q, None) == if r.Some? then r else Find(tail, pages', q, None)
  {
    hide Matches;
    if strip == [] {
      assert strip + tail == tail;
    } else {
      assert (strip + tail)[1..] == strip[1..] + tail;
      FindSame(strip[1..], tail, pages, pages', q);
    }
  }

  /** Opening the VM's tab, closing the old one, and selecting what was opened. */
  lemma Replaces(d: Desk, win: WinId, t: TabId, guid: string, prefer: seq<TabId>, world: VmTab.World)
    requires Inv(d) && Shows(d, win, t)
    ensures t in d.pages && ReplaceLaw(d, ReplaceTabWith(d, win, t, guid, prefer, world), win, t, guid)
  {
    ReplaceInv(d, win, t, guid, prefer, world);
    InvHomed(d);
    ShownOnce(d, win, t, None);
    if !Answers(d.pages[t], ForVm(guid)) { ReplacePlaces(d, win, t, guid, prefer, world); }
    hide Inv, Homed, ReplaceTabWith, Answers, FirstAnswer, TakenFrom;
  }

  lemma ReplacePlaces(d: Desk, win: WinId, t: TabId, guid: string, prefer: seq<TabId>, world: VmTab.World)
    requires Inv(d) && Shows(d, win, t) && t in d.pages && !Answers(d.pages[t], ForVm(guid))
    ensures var d' := ReplaceTabWith(d, win, t, guid, prefer, world);
            && Only(d, d', win)
            && exists r ::
                 && FirstAnswer(d.windows[win].strip, d.pages, ForVm(guid), r)
                 && d'.windows[win].selected == (if r.Some? then r else Some(d.nextTab))
                 && TakenFrom(d.windows[win].strip + (if r.Some? then [] else [d.nextTab]), t, d'.windows[win].strip)
  {
    var d1 := OpenVmTab(d, win, guid, world);
    var target := Find(d1.windows[win].strip, d1.pages, ForVm(guid), None);
    hide Inv, OpenVmTab, CloseTabItem, Refocus, FirstAnswer, Answers, TakenFrom, Find;
    var r := Opened(d, win, guid, t, world);
    Refocused(d1, win, t, target.value, prefer, world);
    assert ReplaceTabWith(d, win, t, guid, prefer, world)
        == Refocus(CloseTabItem(d1, win, t, prefer, world), win, target, world);
    hide ReplaceTabWith;
  }

  /** Closing one tab and selecting another. */
  lemma Refocused(d: Desk, win: WinId, t: TabId, u: TabId, prefer: seq<TabId>, world: VmTab.World)
    requires Shows(d, win, t) && Shows(d, win, u) && t != u
    ensures var d' := Refocus(CloseTabItem(d, win, t, prefer, world), win, Some(u), world);
            && Only(d, d', win) && d'.windows[win].selected == Some(u)
            && TakenFrom(d.windows[win].strip, t, d'.windows[win].strip)
  {
    var d2 := CloseTabItem(d, win, t, prefer, world);
    hide CloseTabItem, Select, Reselected;
    BothThere(d.windows[win].strip, t, u);
    ClosePlaces(d, win, t, prefer, world);
    TakenKeeps(d.windows[win].strip, t, d2.windows[win].strip, u);
    SelectKeepsStrips(d2, win, Some(u), world);
    hide TakenFrom;
  }

  lemma TakenKeeps(strip: seq<TabId>, t: TabId, rest: seq<TabId>, u: TabId)
    requires TakenFrom(strip, t, rest) && u in strip && u != t
    ensures u in rest
  {
    var k :| 0 <= k < |strip| && strip[k] == t && rest == strip[..k] + strip[k + 1..];
    assert strip == strip[..k] + [t] + strip[k + 1..];
  }

  /** The desktop with the VM's tab open, and the tab that will be found again in it. */
  lemma Opened(d: Desk, win: WinId, guid: string, t: TabId, world: VmTab.World) returns (r: Option<TabId>)
    requires Inv(d) && Shows(d, win, t) && t in d.pages && !Answers(d.pages[t], ForVm(guid))
    ensures FirstAnswer(d.windows[win].strip, d.pages, ForVm(guid), r)
    ensures var d1 := OpenVmTab(d, win, guid, world);
            && Only(d, d1, win) && t in d1.windows[win].strip
            && d1.windows[win].strip == d.windows[win].strip + (if r.Some? then [] else [d.nextTab])
            && Find(d1.windows[win].strip, d1.pages, ForVm(guid), None) == (if r.Some? then r else Some(d.nextTab))
            && (r.Some? ==> r.value != t) && t != d.nextTab
  {
    var q := ForVm(guid);
    FindIsFirst(d.windows[win].strip, d.pages, q);
    r := Find(d.windows[win].strip, d.pages, q, None);
    NewPageFits(win, guid, "", false);
    assert Matches(NewVmPage(win, guid), q);
    assert !Matches(d.pages[t], q);
    hide Inv, PageFor, NewVmPage, Answers, FirstAnswer, OpenOrFocus, Find;
    OpenFound(d, win, q, NewVmPage(win, guid), t, world);
  }

  /** What was opened is found again. */
  lemma OpenFound(d: Desk, win: WinId, q: Query, page: Page, t: TabId, world: VmTab.World)
    requires Inv(d) && Shows(d, win, t) && t in d.pages && !Matches(d.pages[t], q)
    requires Matches(page, q) && PageFor(page, win)
    ensures var d', r := OpenOrFocus(d, win, q, page, world), Find(d.windows[win].strip, d.pages, q, None);
            && Only(d, d', win) && t != d.nextTab
            && d'.windows[win].strip == d.windows[win].strip + (if r.Some? then [] else [d.nextTab])
            && Find(d'.windows[win].strip, d'.pages, q, None) == (if r.Some? then r else Some(d.nextTab))
  {
    var strip, r := d.windows[win].strip, Find(d.windows[win].strip, d.pages, q, None);
    var d' := OpenOrFocus(d, win, q, page, world);
    var tail := if r.Some? then [] else [d.nextTab];
    hide Inv, PageFor, Matches, OpenOrFocus, Only, SameKinds;
    OpenKeepsAnswers(d, win, q, page, world);
    OpenShape(d, win, q, page, world);
    if r.None? { NewAnswers(d, win, q, page, world); }
    hide Find;
    FindSame(strip, tail, d.pages, d'.pages, q);
    if r.None? { FindOne(d.nextTab, d'.pages, q); }
  }

  lemma FindOne(t: TabId, pages: map<TabId, Page>, q: Query)
    requires t in pages && Matches(pages[t], q)
    ensures Find([t], pages, q, None) == Some(t)
  {}

  lemma NewAnswers(d: Desk, win: WinId, q: Query, page: Page, world: VmTab.World)
    requires Inv(d) && win in d.windows && Matches(page, q) && PageFor(page, win)
    requires Find(d.windows[win].strip, d.pages, q, None).None?
    ensures var d' := OpenOrFocus(d, win, q, page, world);
            d.nextTab in d'.pages && Matches(d'.pages[d.nextTab], q)
  {
    OpenAnswers(d, win, q, page, world);
    OpenShape(d, win, q, page, world);
    hide Inv, PageFor, Matches, OpenOrFocus, Find, SameKinds, Kept;
  }

  lemma OpenKeepsAnswers(d: Desk, win: WinId, q: Query, page: Page, world: VmTab.World)
    requires Inv(d) && win in d.windows && Matches(page, q) && PageFor(page, win)
    ensures var d' := OpenOrFocus(d, win, q, page, world);
            forall u | u in d.windows[win].strip ::
              u in d.pages && u in d'.pages && Matches(d'.pages[u], q) == Matches(d.pages[u], q)
  {
    var d' := OpenOrFocus(d, win, q, page, world);
    hide Inv, PageFor, Find, OpenOrFocus, Matches;
    forall u | u in d.windows[win].strip
      ensures u in d.pages && u in d'.pages && Matches(d'.pages[u], q) == Matches(d.pages[u], q)
    {
      InvHomed(d);
      ShownOnce(d, win, u, None);
      OpenMatches(d, win, u, q, page, world);
    }
  }

  lemma OpenShape(d: Desk, win: WinId, q: Query, page: Page, world: VmTab.World)
    requires win in d.windows
    ensures var d', r := OpenOrFocus(d, win, q, page, world), Find(d.windows[win].strip, d.pages, q, None);
            && Only(d, d', win)
            && d'.windows[win].selected == (if r.Some? then r else Some(d.nextTab))
            && d'.windows[win].strip == d.windows[win].strip + (if r.Some? then [] else [d.nextTab])
  {
    var r := Find(d.windows[win].strip, d.pages, q, None);
    SelectKeepsStrips(d, win, r, world);
    AddTabShape(d, win, page, world);
    hide Find, Select, AddTab;
  }
}
