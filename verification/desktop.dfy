/** Windows, tab strips, selection and popup suppression (src/app/MainWindow.xaml.cpp).

    A `Desk` is every window of the process with its strip. A tab is known by the identity of
    its TabViewItem; `pages` maps a tab to the page in its Tag and loses it when the tab
    closes; `gone` keeps the page as closing left it. A window's number is also its handle.
    Selection changes run their handler at once, and where the framework chooses the next
    selection after a removal, `prefer` (the tabs it would choose, best first) says which. */
module Desktop {
  import opened Wrappers
  import opened Strips
  import Text
  import VmTab
  import RemoteTab

  type TabId = nat
  type WinId = nat

  datatype Page =
    | VmPage(guid: string, tab: VmTab.Tab)
    | RemotePage(address: string, remote: RemoteTab.Remote)
    | WelcomePage
    | SettingsPage

  datatype Window = Window(
    primary: bool,
    strip: seq<TabId>,
    selected: Option<TabId>,
    pending: Option<TabId>,
    depth: nat)

  datatype Desk = Desk(
    windows: map<WinId, Window>,
    pages: map<TabId, Page>,
    gone: map<TabId, Page>,
    nextWin: WinId,
    nextTab: TabId)

  /** The pages that own a popup. */
  predicate IsSession(p: Page) {
    p.VmPage? || p.RemotePage?
  }

  function WantsVisible(p: Page): bool {
    match p
    case VmPage(_, tab) => tab.gate.wantsVisible
    case RemotePage(_, remote) => remote.gate.wantsVisible
    case _ => false
  }

  function IsMuted(p: Page): bool {
    match p
    case VmPage(_, tab) => tab.gate.suppressed
    case RemotePage(_, remote) => remote.gate.suppressed
    case _ => false
  }

  function OwnerWindow(p: Page): WinId {
    match p
    case VmPage(_, tab) => tab.child.window
    case RemotePage(_, remote) => remote.child.window
    case _ => 0
  }

  // ---- selection -----------------------------------------------------------

  function Focus(p: Page, active: bool, world: VmTab.World): Page {
    match p
    case VmPage(guid, tab) => VmPage(guid, if active then VmTab.ShowPopup(tab, world) else VmTab.HidePopup(tab))
    case RemotePage(address, remote) =>
      RemotePage(address, if active then RemoteTab.ShowPopup(remote, world) else RemoteTab.HidePopup(remote))
    case _ => p
  }

  /** OnTabSelectionChanged: every popup of the strip is hidden but the selected one's. */
  function SelectionChanged(d: Desk, win: WinId, world: VmTab.World): Desk
    requires win in d.windows
  {
    var strip, selected := d.windows[win].strip, d.windows[win].selected;
    d.(pages := map t | t in d.pages ::
      if t in strip then Focus(d.pages[t], selected == Some(t), world) else d.pages[t])
  }

  function SetSelected(d: Desk, win: WinId, t: Option<TabId>): Desk
    requires win in d.windows
  {
    d.(windows := d.windows[win := d.windows[win].(selected := t)])
  }

  function Select(d: Desk, win: WinId, t: Option<TabId>, world: VmTab.World): Desk
    requires win in d.windows
  {
    if d.windows[win].selected == t then d else SelectionChanged(SetSelected(d, win, t), win, world)
  }

  function Pick(strip: seq<TabId>, prefer: seq<TabId>): (r: Option<TabId>)
    ensures r.Some? ==> r.value in strip
  {
    if prefer == [] then None else if prefer[0] in strip then Some(prefer[0]) else Pick(strip, prefer[1..])
  }

  // ---- strips --------------------------------------------------------------

  /** Takes the tab out of the strip; if it was selected the framework selects another. */
  function Detach(d: Desk, win: WinId, t: TabId, prefer: seq<TabId>, world: VmTab.World): Desk
    requires win in d.windows
  {
    var w := d.windows[win];
    var strip := Remove(w.strip, t);
    var d' := d.(windows := d.windows[win := w.(strip := strip)]);
    if w.selected == Some(t) then Select(d', win, Pick(strip, prefer), world) else d'
  }

  function Attach(d: Desk, win: WinId, t: TabId, index: int): Desk
    requires win in d.windows
  {
    var w := d.windows[win];
    var i := if index < 0 || index > |w.strip| then |w.strip| else index;
    d.(windows := d.windows[win := w.(strip := Insert(w.strip, i, t))])
  }

  datatype Query = ForVm(guid: string) | ForRemote(address: string) | ForSettings

  predicate Matches(p: Page, q: Query) {
    match q
    case ForVm(guid) => p.VmPage? && Text.SameFold(p.guid, guid)
    case ForRemote(address) => p.RemotePage? && Text.SameFold(p.address, address)
    case ForSettings => p.SettingsPage?
  }

  /** The first tab of the strip, but for `skip`, whose page answers the query. */
  function Find(strip: seq<TabId>, pages: map<TabId, Page>, q: Query, skip: Option<TabId>): (r: Option<TabId>)
    ensures r.Some? ==> r.value in strip && r.value in pages && Matches(pages[r.value], q) && skip != r
    ensures r.None? ==> forall t :: t in strip && t in pages && skip != Some(t) ==> !Matches(pages[t], q)
  {
    if strip == [] then None
    else if skip != Some(strip[0]) && strip[0] in pages && Matches(pages[strip[0]], q) then Some(strip[0])
    else Find(strip[1..], pages, q, skip)
  }

  // ---- opening -------------------------------------------------------------

  function AddTab(d: Desk, win: WinId, page: Page, world: VmTab.World): Desk
    requires win in d.windows
  {
    var d' := d.(pages := d.pages[d.nextTab := page], nextTab := d.nextTab + 1);
    Select(Attach(d', win, d.nextTab, -1), win, Some(d.nextTab), world)
  }

  function OpenOrFocus(d: Desk, win: WinId, q: Query, page: Page, world: VmTab.World): Desk
    requires win in d.windows
  {
    var found := Find(d.windows[win].strip, d.pages, q, None);
    if found.Some? then Select(d, win, found, world) else AddTab(d, win, page, world)
  }

  function NewVmPage(win: WinId, guid: string): Page {
    VmPage(guid, VmTab.SetWindow(VmTab.Initial(), win))
  }

  function OpenVmTab(d: Desk, win: WinId, guid: string, world: VmTab.World): Desk
    requires win in d.windows
  {
    OpenOrFocus(d, win, ForVm(guid), NewVmPage(win, guid), world)
  }

  function NewRemotePage(win: WinId, address: string, autoConnect: bool): Page {
    RemotePage(address, RemoteTab.SetWindow(RemoteTab.Fresh(autoConnect), win))
  }

  function OpenRemoteHostTab(d: Desk, win: WinId, address: string, autoConnect: bool, world: VmTab.World): Desk
    requires win in d.windows
  {
    if address == "" then d else OpenOrFocus(d, win, ForRemote(address), NewRemotePage(win, address, autoConnect),
                                             world)
  }

  function OpenAppSettingsTab(d: Desk, win: WinId, world: VmTab.World): Desk
    requires win in d.windows
  {
    OpenOrFocus(d, win, ForSettings, SettingsPage, world)
  }

  function OpenWelcomeTab(d: Desk, win: WinId, world: VmTab.World): Desk
    requires win in d.windows
  {
    AddTab(d, win, WelcomePage, world)
  }

  // ---- closing -------------------------------------------------------------

  /** ShutdownClient: the page's child stops. */
  function Shut(p: Page): Page {
    match p
    case VmPage(guid, tab) => VmPage(guid, VmTab.ShutdownClient(tab))
    case RemotePage(address, remote) => RemotePage(address, RemoteTab.ShutdownClient(remote))
    case _ => p
  }

  /** HidePopup and ShutdownClient, as for a page whose tab closes. */
  function Part(p: Page): Page {
    match p
    case VmPage(guid, tab) => Shut(VmPage(guid, VmTab.HidePopup(tab)))
    case RemotePage(address, remote) => Shut(RemotePage(address, RemoteTab.HidePopup(remote)))
    case _ => p
  }

  predicate Has(w: Window, t: TabId) {
    t in w.strip || w.pending == Some(t)
  }

  /** Window.Close: the window goes, and with it the pages it still holds. The children of
      its tabs stop; the item that still waits to be adopted is no tab. */
  function CloseWindow(d: Desk, win: WinId): Desk
    requires win in d.windows
  {
    var w := d.windows[win];
    var kept := map t | t in d.pages && !Has(w, t) :: d.pages[t];
    var left := map t | t in d.pages && Has(w, t) :: if t in w.strip then Shut(d.pages[t]) else d.pages[t];
    d.(windows := d.windows - {win}, pages := kept, gone := d.gone + left)
  }

  function DropPage(d: Desk, t: TabId): Desk {
    if t in d.pages then d.(pages := d.pages - {t}, gone := d.gone[t := Part(d.pages[t])]) else d
  }

  function CloseTabItem(d: Desk, win: WinId, t: TabId, prefer: seq<TabId>, world: VmTab.World): Desk
    requires win in d.windows
  {
    var wasSession := t in d.pages && IsSession(d.pages[t]);
    var d' := Detach(DropPage(d, t), win, t, prefer, world);
    if d'.windows[win].strip != [] then d'
    else if wasSession then OpenWelcomeTab(d', win, world)
    else CloseWindow(d', win)
  }

  function Refocus(d: Desk, win: WinId, target: Option<TabId>, world: VmTab.World): Desk {
    if win in d.windows && target.Some?
       && target.value in d.windows[win].strip then Select(d, win, target, world) else d
  }

  /** ReplaceTabWith: the VM's tab is opened or found, the old tab closed, the selection forced. */
  function ReplaceTabWith(d: Desk, win: WinId, t: TabId, guid: string, prefer: seq<TabId>, world: VmTab.World): Desk
    requires win in d.windows
  {
    var d' := OpenVmTab(d, win, guid, world);
    var target := Find(d'.windows[win].strip, d'.pages, ForVm(guid), None);
    Refocus(CloseTabItem(d', win, t, prefer, world), win, target, world)
  }

  // ---- moving --------------------------------------------------------------

  function Rehome(p: Page, win: WinId): Page {
    match p
    case VmPage(guid, tab) => VmPage(guid, VmTab.SetWindow(tab, win))
    case RemotePage(address, remote) => RemotePage(address, RemoteTab.SetWindow(remote, win))
    case _ => p
  }

  /** AdoptMovedTab: the page is re-owned, an older Settings tab gives way, the tab is selected. */
  function AdoptMovedTab(d: Desk, win: WinId, t: TabId, prefer: seq<TabId>, world: VmTab.World): Desk
    requires win in d.windows
  {
    var d' := if t in d.pages then d.(pages := d.pages[t := Rehome(d.pages[t], win)]) else d;
    var other := if t in d.pages && d.pages[t].SettingsPage?
                 then Find(d.windows[win].strip, d.pages, ForSettings, Some(t)) else None;
    var d2 := if other.Some? then CloseTabItem(d', win, other.value, prefer, world) else d';
    if win in d2.windows then Select(d2, win, Some(t), world) else d2
  }

  function HandleSourceAfterDetach(d: Desk, win: WinId, world: VmTab.World): Desk
    requires win in d.windows
  {
    if d.windows[win].strip != [] then d
    else if d.windows[win].primary then OpenWelcomeTab(d, win, world)
    else CloseWindow(d, win)
  }

  /** The window whose strip shows the tab. */
  predicate Shows(d: Desk, win: WinId, t: TabId) {
    win in d.windows && t in d.windows[win].strip
  }

  /** MoveTabToThisWindow, for a tab shown by window `src`. */
  function MoveTab(d: Desk, src: WinId, dest: WinId, t: TabId, index: int, prefer: seq<TabId>, world: VmTab.World): Desk
    requires src in d.windows && dest in d.windows
  {
    if src == dest then d
    else
      var d1 := Attach(Detach(d, src, t, prefer, world), dest, t, index);
      var d2 := AdoptMovedTab(d1, dest, t, prefer, world);
      if src in d2.windows then HandleSourceAfterDetach(d2, src, world) else d2
  }

  /** SpawnWindowForTab: the only tab of a window is left where it is. */
  function TearOut(d: Desk, src: WinId, t: TabId, prefer: seq<TabId>, world: VmTab.World): Desk
    requires src in d.windows
  {
    if |d.windows[src].strip| <= 1 then d
    else
      var d' := Detach(d, src, t, prefer, world);
      HandleSourceAfterDetach(
        d'.(windows := d'.windows[d.nextWin := Window(false, [], None, Some(t), 0)], nextWin := d.nextWin + 1),
        src, world)
  }

  /** A drop is carried out on a later turn: `src` is the window that shows the item then, and
      there may be none left. */
  function MoveDropped(d: Desk, src: Option<WinId>, dest: WinId, t: TabId, index: int, prefer: seq<TabId>,
                       world: VmTab.World): Desk
    requires dest in d.windows && (src.Some? ==> src.value in d.windows)
  {
    if src.Some? then MoveTab(d, src.value, dest, t, index, prefer, world)
    else AdoptMovedTab(Attach(d, dest, t, index), dest, t, prefer, world)
  }

  function TearDropped(d: Desk, src: Option<WinId>, t: TabId, prefer: seq<TabId>, world: VmTab.World): Desk
    requires src.Some? ==> src.value in d.windows
  {
    if src.Some? then TearOut(d, src.value, t, prefer, world)
    else d.(windows := d.windows[d.nextWin := Window(false, [], None, Some(t), 0)], nextWin := d.nextWin + 1)
  }

  /** The first activation of a torn-out window adopts the tab handed to it. */
  function Activate(d: Desk, win: WinId, prefer: seq<TabId>, world: VmTab.World): Desk
    requires win in d.windows
  {
    var w := d.windows[win];
    if w.pending.None? then d
    else
      var d' := d.(windows := d.windows[win := w.(pending := None)]);
      AdoptMovedTab(Attach(d', win, w.pending.value, -1), win, w.pending.value, prefer, world)
  }

  // ---- deleted VMs ---------------------------------------------------------

  /** GetByGuid finds it in the last completed poll. */
  predicate Known(known: set<string>, guid: string) {
    exists k | k in known :: Text.SameFold(k, guid)
  }

  function Deleted(strip: seq<TabId>, pages: map<TabId, Page>, known: set<string>): seq<TabId> {
    if strip == [] then []
    else
      var rest := Deleted(strip[1..], pages, known);
      if strip[0] in pages && pages[strip[0]].VmPage? && !Known(known, pages[strip[0]].guid)
      then [strip[0]] + rest else rest
  }

  function CloseAll(d: Desk, win: WinId, items: seq<TabId>, prefer: seq<TabId>, world: VmTab.World): Desk
    decreases |items|
  {
    if items == [] || win !in d.windows then d
    else CloseAll(CloseTabItem(d, win, items[0], prefer, world), win, items[1..], prefer, world)
  }

  /** A finished poll closes the tabs of the VMs that are gone. */
  function CloseDeleted(d: Desk, win: WinId, known: set<string>, prefer: seq<TabId>, world: VmTab.World): Desk
    requires win in d.windows
  {
    CloseAll(d, win, Deleted(d.windows[win].strip, d.pages, known), prefer, world)
  }

  // ---- popup suppression ---------------------------------------------------

  function Suppress(p: Page, on: bool, world: VmTab.World): Page {
    match p
    case VmPage(guid, tab) => VmPage(guid, VmTab.SetPopupSuppressed(tab, world, on))
    case RemotePage(address, remote) => RemotePage(address, RemoteTab.SetPopupSuppressed(remote, world, on))
    case _ => p
  }

  function SuppressAll(d: Desk, win: WinId, on: bool, world: VmTab.World): Desk
    requires win in d.windows
  {
    var strip := d.windows[win].strip;
    d.(pages := map t | t in d.pages :: if t in strip then Suppress(d.pages[t], on, world) else d.pages[t])
  }

  function SetDepth(d: Desk, win: WinId, depth: nat): Desk
    requires win in d.windows
  {
    d.(windows := d.windows[win := d.windows[win].(depth := depth)])
  }

  function PushPopupSuppression(d: Desk, win: WinId, world: VmTab.World): Desk
    requires win in d.windows
  {
    var depth := d.windows[win].depth;
    var d' := SetDepth(d, win, depth + 1);
    if depth != 0 then d' else SuppressAll(d', win, true, world)
  }

  function PopPopupSuppression(d: Desk, win: WinId, world: VmTab.World): Desk
    requires win in d.windows
  {
    var depth := d.windows[win].depth;
    if depth == 0 then d
    else if depth > 1 then SetDepth(d, win, depth - 1)
    else SuppressAll(SetDepth(d, win, 0), win, false, world)
  }

  // ---- page events ---------------------------------------------------------

  /** The events a page receives on its own, not from its window. */
  predicate OwnEvent(ev: VmTab.Event) {
    !(ev.Show? || ev.Hide? || ev.Suppress? || ev.SetHwnd? || ev.Shutdown?)
  }

  function PageEvent(d: Desk, t: TabId, ev: VmTab.Event, world: VmTab.World): Desk {
    if t in d.pages && d.pages[t].VmPage? && OwnEvent(ev)
    then d.(pages := d.pages[t := d.pages[t].(tab := VmTab.Step(d.pages[t].tab, world, ev))])
    else d
  }

  function RemoteEvent(d: Desk, t: TabId, ev: RemoteTab.RemoteEvent, world: VmTab.World): Desk {
    if t in d.pages && d.pages[t].RemotePage?
    then d.(pages := d.pages[t := d.pages[t].(remote := RemoteTab.Step(d.pages[t].remote, world, ev))])
    else d
  }

  /** A drag within a strip: the same tabs in another order. */
  function Reorder(d: Desk, win: WinId, strip: seq<TabId>): Desk
    requires win in d.windows
  {
    if multiset(strip) == multiset(d.windows[win].strip)
    then d.(windows := d.windows[win := d.windows[win].(strip := strip)]) else d
  }

  datatype Action =
    | OpenVm(win: WinId, guid: string)
    | OpenRemote(win: WinId, address: string, autoConnect: bool)
    | OpenWelcome(win: WinId)
    | OpenSettings(win: WinId)
    | SelectTab(win: WinId, t: TabId)
    | CloseTab(win: WinId, t: TabId, prefer: seq<TabId>)
    | Replace(win: WinId, t: TabId, guid: string, prefer: seq<TabId>)
    | CloseWin(win: WinId)
    | Move(src: WinId, win: WinId, t: TabId, index: int, prefer: seq<TabId>)
    | Tear(win: WinId, t: TabId, prefer: seq<TabId>)
    | Activated(win: WinId, prefer: seq<TabId>)
    | Polled(win: WinId, known: set<string>, prefer: seq<TabId>)
    | Push(win: WinId)
    | Pop(win: WinId)
    | Reordered(win: WinId, strip: seq<TabId>)
    | Session(t: TabId, ev: VmTab.Event)
    | RemoteSession(t: TabId, rev: RemoteTab.RemoteEvent)

  /** The window exists, and shows the tab the action is about. */
  predicate Possible(d: Desk, a: Action) {
    && (!a.Session? && !a.RemoteSession? ==> a.win in d.windows)
    && (a.SelectTab? || a.CloseTab? || a.Replace? || a.Tear? ==> a.t in d.windows[a.win].strip)
    && (a.Move? ==> Shows(d, a.src, a.t))
  }

  function Do(d: Desk, a: Action, world: VmTab.World): Desk
    requires Possible(d, a)
  {
    match a
    case OpenVm(win, guid) => OpenVmTab(d, win, guid, world)
    case OpenRemote(win, address, autoConnect) => OpenRemoteHostTab(d, win, address, autoConnect, world)
    case OpenWelcome(win) => OpenWelcomeTab(d, win, world)
    case OpenSettings(win) => OpenAppSettingsTab(d, win, world)
    case SelectTab(win, t) => Select(d, win, Some(t), world)
    case CloseTab(win, t, prefer) => CloseTabItem(d, win, t, prefer, world)
    case Replace(win, t, guid, prefer) => ReplaceTabWith(d, win, t, guid, prefer, world)
    case CloseWin(win) => CloseWindow(d, win)
    case Move(src, dest, t, index, prefer) => MoveTab(d, src, dest, t, index, prefer, world)
    case Tear(win, t, prefer) => TearOut(d, win, t, prefer, world)
    case Activated(win, prefer) => Activate(d, win, prefer, world)
    case Polled(win, known, prefer) => CloseDeleted(d, win, known, prefer, world)
    case Push(win) => PushPopupSuppression(d, win, world)
    case Pop(win) => PopPopupSuppression(d, win, world)
    case Reordered(win, strip) => Reorder(d, win, strip)
    case Session(t, ev) => PageEvent(d, t, ev, world)
    case RemoteSession(t, rev) => RemoteEvent(d, t, rev, world)
  }
}
