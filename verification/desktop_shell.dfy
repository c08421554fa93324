/** The windows and tabs of the process as mutable state (src/app/MainWindow.xaml.cpp).

    `Shell` holds what the MainWindow objects and their TabViews hold: every window's strip,
    selection, pending item and suppression count, and the page in every item's Tag. Its
    methods work step by step, with the source's loops, and are proved to do what the
    functions of `Desktop` say. */
module DesktopShell {
  import opened Wrappers
  import opened Strips
  import opened Desktop
  import opened DesktopRuns
  import PopupSafety
  import Text
  import VmTab
  import RemoteTab

  class Shell {
    var windows: map<WinId, Window>
    var pages: map<TabId, Page>
    ghost var gone: map<TabId, Page>
    var nextWin: WinId
    var nextTab: TabId

    ghost function State(): Desk
      reads this
    {
      Desk(windows, pages, gone, nextWin, nextTab)
    }

    /** The first window, before its first tab. */
    constructor ()
      ensures State() == PopupSafety.Launch()
    {
      windows, pages, gone, nextWin, nextTab := map[1 := Window(true, [], None, None, 0)], map[], map[], 2, 0;
    }

    /** HidePopup on the page of one tab. */
    method HideItem(t: TabId, world: VmTab.World)
      requires t in pages
      modifies this`pages
      ensures pages == old(pages)[t := Focus(old(pages)[t], false, world)]
    {
      match pages[t]
      case VmPage(guid, tab) => pages := pages[t := VmPage(guid, VmTab.HidePopup(tab))];
      case RemotePage(address, remote) => pages := pages[t := RemotePage(address, RemoteTab.HidePopup(remote))];
      case _ =>
    }

    /** The first half of the selection handler: every popup of the strip but one goes. */
    method HideOtherPopups(win: WinId, world: VmTab.World)
      requires win in windows
      modifies this`pages
      ensures pages == AllHidden(old(pages), windows[win].strip, windows[win].selected, world)
    {
      hide Focus, AllHidden;
      var strip, selected := windows[win].strip, windows[win].selected;
      NoneHidden(pages, selected, world);
      var i := 0;
      while i < |strip|
        invariant 0 <= i <= |strip|
        invariant pages == AllHidden(old(pages), strip[..i], selected, world)
      {
        var t := strip[i];
        OneMoreHidden(old(pages), strip[..i], t, selected, world);
        assert strip[..i + 1] == strip[..i] + [t];
        if t in pages && selected != Some(t) {
          HideItem(t, world);
        }
        i := i + 1;
      }
      assert strip[..i] == strip;
    }

    method OnTabSelectionChanged(win: WinId, world: VmTab.World)
      requires win in windows
      modifies this
      ensures State() == SelectionChanged(old(State()), win, world)
    {
      hide VmTab.ShowPopup, VmTab.HidePopup, RemoteTab.ShowPopup, RemoteTab.HidePopup;
      HideOtherPopups(win, world);
      var selected := windows[win].selected;
      if selected.Some? && selected.value in pages && selected.value in windows[win].strip {
        var t := selected.value;
        match pages[t]
        case VmPage(guid, tab) => pages := pages[t := VmPage(guid, VmTab.ShowPopup(tab, world))];
        case RemotePage(address, remote) => pages := pages[t := RemotePage(address, RemoteTab.ShowPopup(remote, world))];
        case _ =>
      }
    }

    /** TabView.SelectedItem: the handler runs if the selection changes. */
    method SetSelectedItem(win: WinId, t: Option<TabId>, world: VmTab.World)
      requires win in windows
      modifies this
      ensures State() == Select(old(State()), win, t, world)
    {
      if windows[win].selected == t { return; }
      windows := windows[win := windows[win].(selected := t)];
      OnTabSelectionChanged(win, world);
    }

    /** TabItems().IndexOf and RemoveAt. */
    method RemoveItem(win: WinId, t: TabId, prefer: seq<TabId>, world: VmTab.World)
      requires win in windows
      modifies this
      ensures State() == Detach(old(State()), win, t, prefer, world)
    {
      var w := windows[win];
      var i := 0;
      while i < |w.strip| && w.strip[i] != t
        invariant 0 <= i <= |w.strip|
        invariant t !in w.strip[..i]
      {
        i := i + 1;
      }
      RemoveFirst(w.strip, t, i);
      if i < |w.strip| {
        windows := windows[win := w.(strip := w.strip[..i] + w.strip[i + 1..])];
      }
      if w.selected == Some(t) {
        SetSelectedItem(win, Pick(windows[win].strip, prefer), world);
      }
    }

    /** TabItems().InsertAt, or Append when the index is out of range. */
    method InsertItem(win: WinId, t: TabId, index: int)
      requires win in windows
      modifies this
      ensures State() == Attach(old(State()), win, t, index)
    {
      var w := windows[win];
      if index < 0 || index > |w.strip| {
        windows := windows[win := w.(strip := w.strip + [t])];
        assert w.strip + [t] == Insert(w.strip, |w.strip|, t);
      } else {
        windows := windows[win := w.(strip := w.strip[..index] + [t] + w.strip[index..])];
      }
    }

    /** The walk over a strip for the tab that already shows what is asked for. */
    method FindTab(win: WinId, q: Query, skip: Option<TabId>) returns (found: Option<TabId>)
      requires win in windows
      ensures found == Find(windows[win].strip, pages, q, skip)
    {
      var strip := windows[win].strip;
      var i := 0;
      while i < |strip|
        invariant 0 <= i <= |strip|
        invariant Find(strip, pages, q, skip) == Find(strip[i..], pages, q, skip)
      {
        if skip != Some(strip[i]) && strip[i] in pages && Matches(pages[strip[i]], q) {
          return Some(strip[i]);
        }
        i := i + 1;
      }
      return None;
    }

    method AddNewTab(win: WinId, page: Page, world: VmTab.World)
      requires win in windows
      modifies this
      ensures State() == AddTab(old(State()), win, page, world)
    {
      var t := nextTab;
      pages := pages[t := page];
      nextTab := nextTab + 1;
      InsertItem(win, t, -1);
      SetSelectedItem(win, Some(t), world);
    }

    method Open(win: WinId, q: Query, page: Page, world: VmTab.World)
      requires win in windows
      modifies this
      ensures State() == OpenOrFocus(old(State()), win, q, page, world)
    {
      var found := FindTab(win, q, None);
      if found.Some? {
        SetSelectedItem(win, found, world);
      } else {
        AddNewTab(win, page, world);
      }
    }

    /** ShutdownClient on the page of one tab. */
    method ShutItem(t: TabId)
      requires t in pages
      modifies this`pages
      ensures pages == old(pages)[t := Shut(old(pages)[t])]
    {
      match pages[t]
      case VmPage(guid, tab) => pages := pages[t := VmPage(guid, VmTab.ShutdownClient(tab))];
      case RemotePage(address, remote) => pages := pages[t := RemotePage(address, RemoteTab.ShutdownClient(remote))];
      case _ =>
    }

    /** The walk over the strip that stops every tab's child. */
    method ShutdownAllTabClients(win: WinId)
      requires win in windows
      modifies this`pages
      ensures pages == map t | t in old(pages) ::
                         if t in windows[win].strip then Shut(old(pages)[t]) else old(pages)[t]
    {
      hide Shut;
      var strip := windows[win].strip;
      var i := 0;
      while i < |strip|
        invariant 0 <= i <= |strip|
        invariant pages == map t | t in old(pages) :: if t in strip[..i] then Shut(old(pages)[t]) else old(pages)[t]
      {
        var t := strip[i];
        if t in pages {
          ShutTwice(old(pages)[t]);
          ShutItem(t);
        }
        i := i + 1;
      }
      assert strip[..i] == strip;
    }

    method Close(win: WinId)
      requires win in windows
      modifies this
      ensures State() == CloseWindow(old(State()), win)
    {
      hide Shut;
      ShutdownAllTabClients(win);
      var w := windows[win];
      WindowShuts(old(pages), pages, w);
      windows := windows - {win};
      gone := gone + map t | t in pages && Has(w, t) :: pages[t];
      pages := map t | t in pages && !Has(w, t) :: pages[t];
    }

    /** A closing tab's page: its popup hides, its child stops, the item lets go of it. */
    method PartFrom(t: TabId)
      modifies this`pages, this`gone
      ensures State() == DropPage(old(State()), t)
    {
      if t in pages {
        match pages[t] {
          case VmPage(guid, tab) => pages := pages[t := VmPage(guid, VmTab.ShutdownClient(VmTab.HidePopup(tab)))];
          case RemotePage(address, remote) =>
            pages := pages[t := RemotePage(address, RemoteTab.ShutdownClient(RemoteTab.HidePopup(remote)))];
          case _ =>
        }
        gone, pages := gone[t := pages[t]], pages - {t};
      }
    }

    method CloseItem(win: WinId, t: TabId, prefer: seq<TabId>, world: VmTab.World)
      requires win in windows
      modifies this
      ensures State() == CloseTabItem(old(State()), win, t, prefer, world)
    {
      var wasSession := t in pages && IsSession(pages[t]);
      PartFrom(t);
      RemoveItem(win, t, prefer, world);
      if |windows[win].strip| == 0 {
        if wasSession {
          AddNewTab(win, WelcomePage, world);
        } else {
          Close(win);
        }
      }
    }

    method ReplaceItem(win: WinId, t: TabId, guid: string, prefer: seq<TabId>, world: VmTab.World)
      requires win in windows
      modifies this
      ensures State() == ReplaceTabWith(old(State()), win, t, guid, prefer, world)
    {
      Open(win, ForVm(guid), NewVmPage(win, guid), world);
      var target := FindTab(win, ForVm(guid), None);
      CloseItem(win, t, prefer, world);
      if win in windows && target.Some? && target.value in windows[win].strip {
        SetSelectedItem(win, target, world);
      }
    }

    method AdoptItem(win: WinId, t: TabId, prefer: seq<TabId>, world: VmTab.World)
      requires win in windows
      modifies this
      ensures State() == AdoptMovedTab(old(State()), win, t, prefer, world)
    {
      if t in pages {
        if pages[t].SettingsPage? {
          var other := FindTab(win, ForSettings, Some(t));
          pages := pages[t := Rehome(pages[t], win)];
          if other.Some? {
            CloseItem(win, other.value, prefer, world);
          }
        } else {
          pages := pages[t := Rehome(pages[t], win)];
        }
      }
      if win in windows {
        SetSelectedItem(win, Some(t), world);
      }
    }

    method SettleSource(win: WinId, world: VmTab.World)
      requires win in windows
      modifies this
      ensures State() == HandleSourceAfterDetach(old(State()), win, world)
    {
      if |windows[win].strip| == 0 {
        if windows[win].primary {
          AddNewTab(win, WelcomePage, world);
        } else {
          Close(win);
        }
      }
    }

    method MoveItem(src: WinId, dest: WinId, t: TabId, index: int, prefer: seq<TabId>, world: VmTab.World)
      requires src in windows && dest in windows
      modifies this
      ensures State() == MoveTab(old(State()), src, dest, t, index, prefer, world)
    {
      if src == dest { return; }
      RemoveItem(src, t, prefer, world);
      InsertItem(dest, t, index);
      AdoptItem(dest, t, prefer, world);
      if src in windows {
        SettleSource(src, world);
      }
    }

    method SpawnWindowFor(src: WinId, t: TabId, prefer: seq<TabId>, world: VmTab.World)
      requires src in windows
      modifies this
      ensures State() == TearOut(old(State()), src, t, prefer, world)
    {
      if |windows[src].strip| <= 1 { return; }
      RemoveItem(src, t, prefer, world);
      windows := windows[nextWin := Window(false, [], None, Some(t), 0)];
      nextWin := nextWin + 1;
      SettleSource(src, world);
    }

    method OnActivated(win: WinId, prefer: seq<TabId>, world: VmTab.World)
      requires win in windows
      modifies this
      ensures State() == Activate(old(State()), win, prefer, world)
    {
      var w := windows[win];
      if w.pending.Some? {
        windows := windows[win := w.(pending := None)];
        InsertItem(win, w.pending.value, -1);
        AdoptItem(win, w.pending.value, prefer, world);
      }
    }

    /** Collects the tabs of deleted VMs, then closes them: closing changes the strip. */
    method OnVmManagerChanged(win: WinId, known: set<string>, prefer: seq<TabId>, world: VmTab.World)
      requires win in windows
      modifies this
      ensures State() == CloseDeleted(old(State()), win, known, prefer, world)
    {
      var strip := windows[win].strip;
      var gone: seq<TabId> := [];
      var i := 0;
      assert strip[i..] == strip;
      while i < |strip|
        invariant 0 <= i <= |strip|
        invariant Deleted(strip, pages, known) == gone + Deleted(strip[i..], pages, known)
      {
        if strip[i] in pages && pages[strip[i]].VmPage? && !Known(known, pages[strip[i]].guid) {
          gone := gone + [strip[i]];
        }
        i := i + 1;
      }
      assert gone == Deleted(strip, pages, known);
      i := 0;
      assert gone[i..] == gone;
      while i < |gone| && win in windows
        invariant 0 <= i <= |gone|
        invariant CloseAll(State(), win, gone[i..], prefer, world) == CloseDeleted(old(State()), win, known,
                                                                                   prefer, world)
      {
        CloseItem(win, gone[i], prefer, world);
        i := i + 1;
      }
    }

    /** SetPopupSuppressed on the page of one tab. */
    method SuppressItem(t: TabId, on: bool, world: VmTab.World)
      requires t in pages
      modifies this`pages
      ensures pages == old(pages)[t := Suppress(old(pages)[t], on, world)]
    {
      match pages[t]
      case VmPage(guid, tab) => pages := pages[t := VmPage(guid, VmTab.SetPopupSuppressed(tab, world, on))];
      case RemotePage(address, remote) =>
        pages := pages[t := RemotePage(address, RemoteTab.SetPopupSuppressed(remote, world, on))];
      case _ =>
    }

    method SuppressStrip(win: WinId, on: bool, world: VmTab.World)
      requires win in windows
      modifies this`pages
      ensures State() == SuppressAll(old(State()), win, on, world)
    {
      hide Suppress;
      var strip := windows[win].strip;
      var i := 0;
      while i < |strip|
        invariant 0 <= i <= |strip|
        invariant pages == map t | t in old(pages) ::
                             if t in strip[..i] then Suppress(old(pages)[t], on, world) else old(pages)[t]
      {
        var t := strip[i];
        if t in pages {
          SuppressTwice(old(pages)[t], on, world);
          SuppressItem(t, on, world);
        }
        i := i + 1;
      }
      assert strip[..i] == strip;
    }

    method PushSuppression(win: WinId, world: VmTab.World)
      requires win in windows
      modifies this
      ensures State() == PushPopupSuppression(old(State()), win, world)
    {
      var depth := windows[win].depth;
      windows := windows[win := windows[win].(depth := depth + 1)];
      if depth != 0 { return; }
      SuppressStrip(win, true, world);
    }

    method PopSuppression(win: WinId, world: VmTab.World)
      requires win in windows
      modifies this
      ensures State() == PopPopupSuppression(old(State()), win, world)
    {
      var depth := windows[win].depth;
      if depth == 0 { return; }
      windows := windows[win := windows[win].(depth := depth - 1)];
      if depth - 1 != 0 { return; }
      SuppressStrip(win, false, world);
    }

    /** The popup page of one tab gets an event of its own. */
    method OnPageEvent(t: TabId, ev: VmTab.Event, world: VmTab.World)
      modifies this
      ensures State() == PageEvent(old(State()), t, ev, world)
    {
      if t in pages && pages[t].VmPage? && OwnEvent(ev) {
        pages := pages[t := pages[t].(tab := VmTab.Step(pages[t].tab, world, ev))];
      }
    }

    method OnRemoteEvent(t: TabId, ev: RemoteTab.RemoteEvent, world: VmTab.World)
      modifies this
      ensures State() == RemoteEvent(old(State()), t, ev, world)
    {
      if t in pages && pages[t].RemotePage? {
        pages := pages[t := pages[t].(remote := RemoteTab.Step(pages[t].remote, world, ev))];
      }
    }

    method OnReordered(win: WinId, strip: seq<TabId>)
      requires win in windows
      modifies this
      ensures State() == Reorder(old(State()), win, strip)
    {
      if multiset(strip) == multiset(windows[win].strip) {
        windows := windows[win := windows[win].(strip := strip)];
      }
    }

    method HandleOpening(a: Action, world: VmTab.World)
      requires Possible(State(), a) && PopupSafety.IsOpening(a)
      modifies this
      ensures State() == Do(old(State()), a, world)
    {
      hide Select, AddTab, OpenOrFocus, ReplaceTabWith, NewVmPage, NewRemotePage;
      match a
      case OpenVm(win, guid) => Open(win, ForVm(guid), NewVmPage(win, guid), world);
      case OpenRemote(win, address, autoConnect) =>
        if address != "" { Open(win, ForRemote(address), NewRemotePage(win, address, autoConnect), world); }
      case OpenWelcome(win) => AddNewTab(win, WelcomePage, world);
      case OpenSettings(win) => Open(win, ForSettings, SettingsPage, world);
      case Replace(win, t, guid, prefer) => ReplaceItem(win, t, guid, prefer, world);
      case _ =>
    }

    method HandleOther(a: Action, world: VmTab.World)
      requires Possible(State(), a) && !PopupSafety.IsOpening(a)
      modifies this
      ensures State() == Do(old(State()), a, world)
    {
      hide Select, CloseWindow, CloseTabItem, MoveTab, TearOut, Activate, CloseDeleted, PushPopupSuppression,
        PopPopupSuppression, Reorder, PageEvent, RemoteEvent;
      match a
      case SelectTab(win, t) => SetSelectedItem(win, Some(t), world);
      case CloseTab(win, t, prefer) => CloseItem(win, t, prefer, world);
      case CloseWin(win) => Close(win);
      case Move(src, win, t, index, prefer) => MoveItem(src, win, t, index, prefer, world);
      case Tear(win, t, prefer) => SpawnWindowFor(win, t, prefer, world);
      case Activated(win, prefer) => OnActivated(win, prefer, world);
      case Polled(win, known, prefer) => OnVmManagerChanged(win, known, prefer, world);
      case Push(win) => PushSuppression(win, world);
      case Pop(win) => PopSuppression(win, world);
      case Reordered(win, strip) => OnReordered(win, strip);
      case Session(t, ev) => OnPageEvent(t, ev, world);
      case RemoteSession(t, rev) => OnRemoteEvent(t, rev, world);
      case _ =>
    }

    /** One user or system action, start to end. */
    method Handle(a: Action, world: VmTab.World)
      requires Possible(State(), a) && Inv(State())
      modifies this
      ensures State() == Do(old(State()), a, world) && Inv(State())
    {
      hide Inv, Do, Possible;
      PopupSafety.DoInv(State(), a, world);
      if PopupSafety.IsOpening(a) {
        HandleOpening(a, world);
      } else {
        HandleOther(a, world);
      }
    }
  }

  /** The pages with the popups of these tabs hidden, but for the selected one's. */
  ghost function AllHidden(pages: map<TabId, Page>, items: seq<TabId>, selected: Option<TabId>, world: VmTab.World):
    map<TabId, Page>
  {
    map t | t in pages :: if t in items && selected != Some(t) then Focus(pages[t], false, world) else pages[t]
  }

  lemma NoneHidden(pages: map<TabId, Page>, selected: Option<TabId>, world: VmTab.World)
    ensures AllHidden(pages, [], selected, world) == pages
  {}

  lemma OneMoreHidden(pages: map<TabId, Page>, items: seq<TabId>, t: TabId, selected: Option<TabId>,
                      world: VmTab.World)
    ensures var hid := AllHidden(pages, items, selected, world);
            && hid.Keys == pages.Keys
            && AllHidden(pages, items + [t], selected, world)
               == if t in pages && selected != Some(t) then hid[t := Focus(hid[t], false, world)] else hid
  {
    if t in pages { HideTwice(pages[t], world); }
    hide Focus;
  }

  /** What a closing window leaves, with its tabs' children stopped first. */
  lemma WindowShuts(was: map<TabId, Page>, now: map<TabId, Page>, w: Window)
    requires now == map t | t in was :: if t in w.strip then Shut(was[t]) else was[t]
    ensures (map t | t in now && Has(w, t) :: now[t])
         == map t | t in was && Has(w, t) :: if t in w.strip then Shut(was[t]) else was[t]
    ensures (map t | t in now && !Has(w, t) :: now[t]) == map t | t in was && !Has(w, t) :: was[t]
  {
    hide Shut;
  }

  lemma SuppressTwice(p: Page, on: bool, world: VmTab.World)
    ensures Suppress(Suppress(p, on, world), on, world) == Suppress(p, on, world)
  {}

  lemma ShutTwice(p: Page)
    ensures Shut(Shut(p)) == Shut(p)
  {}

  lemma HideTwice(p: Page, world: VmTab.World)
    ensures Focus(Focus(p, false, world), false, world) == Focus(p, false, world)
  {}
}
