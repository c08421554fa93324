/** Where tabs stand and which is selected: the strips themselves, not just their members. */
module DesktopPlaces {
  import opened Wrappers
  import opened Strips
  import opened Desktop
  import opened DesktopRuns
  import opened DesktopMoves
  import opened DesktopCloses
  import opened DesktopSafety
  import opened PopupSafety
  import Text
  import VmTab
  import RemoteTab

  // ---- taking out and choosing ---------------------------------------------------

  /** `rest` is the strip with the tab taken out of its place. */
  ghost predicate TakenFrom(strip: seq<TabId>, t: TabId, rest: seq<TabId>) {
    exists k | 0 <= k < |strip| :: strip[k] == t && rest == strip[..k] + strip[k + 1..]
  }

  lemma RemoveTakes(strip: seq<TabId>, t: TabId)
    requires t in strip
    ensures TakenFrom(strip, t, Remove(strip, t))
  {
    var k := FirstPlace(strip, t);
    RemoveFirst(strip, t, k);
    assert strip[k] == t && Remove(strip, t) == strip[..k] + strip[k + 1..];
  }

  function FirstPlace(strip: seq<TabId>, t: TabId): (k: nat)
    requires t in strip
    ensures k < |strip| && strip[k] == t && t !in strip[..k]
  {
    if strip[0] == t then 0
    else
      var k := FirstPlace(strip[1..], t);
      assert strip[..k + 1] == [strip[0]] + strip[1..][..k];
      k + 1
  }

  /** The framework's choice: the first of its candidates that is left in the strip. */
  ghost predicate FirstLeft(prefer: seq<TabId>, strip: seq<TabId>, r: Option<TabId>) {
    match r
    case None => forall p | p in prefer :: p !in strip
    case Some(t) =>
      t in strip && exists k | 0 <= k < |prefer| :: prefer[k] == t && forall j | 0 <= j < k :: prefer[j] !in strip
  }

  lemma {:induction false} PickIsFirst(strip: seq<TabId>, prefer: seq<TabId>)
    ensures FirstLeft(prefer, strip, Pick(strip, prefer))
  {
    if prefer != [] && prefer[0] !in strip {
      PickIsFirst(strip, prefer[1..]);
      var r := Pick(strip, prefer[1..]);
      if r.Some? {
        var k :| 0 <= k < |prefer| - 1 && prefer[1..][k] == r.value && forall j | 0 <= j < k :: prefer[1..][j] !in strip;
        assert prefer[k + 1] == r.value;
        forall j | 0 <= j < k + 1 ensures prefer[j] !in strip {
          assert j > 0 ==> prefer[j] == prefer[1..][j - 1];
        }
      }
    }
  }

  /** The selection of a window that has lost a tab. */
  ghost predicate Reselected(w: Window, t: TabId, prefer: seq<TabId>, w': Window) {
    if w.selected == Some(t) then FirstLeft(prefer, w'.strip, w'.selected) else w'.selected == w.selected
  }

  lemma DetachPlaces(d: Desk, win: WinId, t: TabId, prefer: seq<TabId>, world: VmTab.World)
    requires win in d.windows && t in d.windows[win].strip
    ensures var d' := Detach(d, win, t, prefer, world);
            && d'.windows.Keys == d.windows.Keys && d'.nextTab == d.nextTab
            && (forall w | w in d.windows && w != win :: d'.windows[w] == d.windows[w])
            && TakenFrom(d.windows[win].strip, t, d'.windows[win].strip)
            && Reselected(d.windows[win], t, prefer, d'.windows[win])
            && SameFrame(d.windows[win], d'.windows[win])
  {
    RemoveTakes(d.windows[win].strip, t);
    var strip := Remove(d.windows[win].strip, t);
    PickIsFirst(strip, prefer);
    hide Pick, Remove, FirstLeft, TakenFrom;
  }

  // ---- putting in ------------------------------------------------------------------

  /** The strip with the tab put in at the index, or at the end if the index is none of its. */
  function PutIn(strip: seq<TabId>, t: TabId, index: int): seq<TabId> {
    var i := if 0 <= index <= |strip| then index else |strip|;
    strip[..i] + [t] + strip[i..]
  }

  /** With at most one older tab taken out of it: the Settings tab that gives way. */
  ghost predicate Settled(d: Desk, win: WinId, t: TabId, placed: seq<TabId>, strip: seq<TabId>) {
    if t in d.pages && d.pages[t].SettingsPage? && (exists u :: IsSettings(d, win, u) && u != t)
    then exists u :: IsSettings(d, win, u) && u != t && TakenFrom(placed, u, strip)
    else strip == placed
  }

  lemma SelectKeepsStrips(d: Desk, win: WinId, t: Option<TabId>, world: VmTab.World)
    requires win in d.windows
    ensures var d' := Select(d, win, t, world);
            && d'.windows.Keys == d.windows.Keys && d'.nextTab == d.nextTab && d'.windows[win].selected == t
            && forall w | w in d.windows :: d'.windows[w].strip == d.windows[w].strip
                                            && (w != win ==> d'.windows[w] == d.windows[w])
  {}

  lemma AttachPlaces(d: Desk, win: WinId, t: TabId, index: int)
    requires win in d.windows
    ensures var d' := Attach(d, win, t, index);
            && d'.windows.Keys == d.windows.Keys && d'.nextTab == d.nextTab && d'.pages == d.pages
            && d'.windows[win] == d.windows[win].(strip := PutIn(d.windows[win].strip, t, index))
            && forall w | w in d.windows && w != win :: d'.windows[w] == d.windows[w]
  {}

  lemma PutInMembers(strip: seq<TabId>, t: TabId, index: int)
    ensures forall u :: u in PutIn(strip, t, index) <==> u in strip || u == t
  {
    var i := if 0 <= index <= |strip| then index else |strip|;
    assert strip == strip[..i] + strip[i..];
  }

  /** Closing one of several tabs takes just that one out. */
  lemma ClosePlaces(d: Desk, win: WinId, t: TabId, prefer: seq<TabId>, world: VmTab.World)
    requires win in d.windows && t in d.windows[win].strip && |d.windows[win].strip| > 1
    ensures var d' := CloseTabItem(d, win, t, prefer, world);
            && d'.windows.Keys == d.windows.Keys && d'.nextTab == d.nextTab
            && (forall w | w in d.windows && w != win :: d'.windows[w] == d.windows[w])
            && TakenFrom(d.windows[win].strip, t, d'.windows[win].strip)
            && Reselected(d.windows[win], t, prefer, d'.windows[win])
            && SameFrame(d.windows[win], d'.windows[win])
  {
    DetachPlaces(DropPage(d, t), win, t, prefer, world);
    hide Detach, Part, Reselected, AddTab, CloseWindow;
  }

  lemma AdoptPlaces(d: Desk, win: WinId, t: TabId, prefer: seq<TabId>, world: VmTab.World)
    requires win in d.windows && t in d.windows[win].strip
    ensures var d' := AdoptMovedTab(d, win, t, prefer, world);
            && d'.windows.Keys == d.windows.Keys && d'.nextTab == d.nextTab && d'.windows[win].selected == Some(t)
            && (forall w | w in d.windows && w != win :: d'.windows[w] == d.windows[w])
            && Settled(d, win, t, d.windows[win].strip, d'.windows[win].strip)
  {
    var d1 := if t in d.pages then d.(pages := d.pages[t := Rehome(d.pages[t], win)]) else d;
    var other := Find(d.windows[win].strip, d.pages, ForSettings, Some(t));
    var closes := t in d.pages && d.pages[t].SettingsPage? && other.Some?;
    assert closes ==> IsSettings(d, win, other.value) && other.value != t;
    assert other.None? ==> forall u :: !(IsSettings(d, win, u) && u != t);
    hide CloseTabItem, Select, Rehome, Find;
    if closes {
      assert |d.windows[win].strip| > 1 by { BothThere(d.windows[win].strip, t, other.value); }
      ClosePlaces(d1, win, other.value, prefer, world);
    }
    var d2 := if closes then CloseTabItem(d1, win, other.value, prefer, world) else d1;
    SelectKeepsStrips(d2, win, Some(t), world);
    hide TakenFrom, Reselected, IsSettings;
  }

  lemma BothThere(strip: seq<TabId>, t: TabId, u: TabId)
    requires t in strip && u in strip && t != u
    ensures |strip| > 1
  {}

  /** The window a tab has left: it keeps the others, opens a welcome tab, or goes. */
  ghost predicate SourceLaw(d: Desk, d': Desk, src: WinId, t: TabId, prefer: seq<TabId>)
    requires src in d.windows
  {
    if |d.windows[src].strip| > 1 then
      && src in d'.windows && TakenFrom(d.windows[src].strip, t, d'.windows[src].strip)
      && Reselected(d.windows[src], t, prefer, d'.windows[src])
    else if d.windows[src].primary then
      && src in d'.windows && d'.windows[src].strip == [d.nextTab] && d'.windows[src].selected == Some(d.nextTab)
      && d.nextTab in d'.pages && d'.pages[d.nextTab] == WelcomePage
    else src !in d'.windows
  }

  lemma AddTabPlaces(d: Desk, win: WinId, page: Page, world: VmTab.World)
    requires win in d.windows
    ensures var d' := AddTab(d, win, page, world);
            && d'.windows.Keys == d.windows.Keys && d'.windows[win].strip == d.windows[win].strip + [d.nextTab]
            && d'.windows[win].selected == Some(d.nextTab)
            && (forall w | w in d.windows && w != win :: d'.windows[w] == d.windows[w])
            && d.nextTab in d'.pages && (page == WelcomePage ==> d'.pages[d.nextTab] == WelcomePage)
  {
    AddTabShape(d, win, page, world);
  }

  lemma SourcePlaces(d: Desk, d2: Desk, src: WinId, t: TabId, prefer: seq<TabId>, world: VmTab.World)
    requires src in d.windows && src in d2.windows && d2.nextTab == d.nextTab && NoDup(d.windows[src].strip)
    requires TakenFrom(d.windows[src].strip, t, d2.windows[src].strip) && SameFrame(d.windows[src], d2.windows[src])
    requires Reselected(d.windows[src], t, prefer, d2.windows[src])
    ensures var d' := HandleSourceAfterDetach(d2, src, world);
            && SourceLaw(d, d', src, t, prefer)
            && forall w | w in d2.windows && w != src :: w in d'.windows && d'.windows[w] == d2.windows[w]
  {
    assert |d2.windows[src].strip| == |d.windows[src].strip| - 1;
    AddTabPlaces(d2, src, WelcomePage, world);
    assert d2.windows[src].strip == [] ==> d2.windows[src].strip + [d.nextTab] == [d.nextTab];
    hide AddTab, TakenFrom, Reselected;
  }

  /** Where a moved tab ends up and what becomes of both strips and selections. */
  ghost predicate MovedTo(d: Desk, d': Desk, src: WinId, dest: WinId, t: TabId, index: int, prefer: seq<TabId>) {
    && src in d.windows && dest in d.windows && dest in d'.windows
    && Settled(d, dest, t, PutIn(d.windows[dest].strip, t, index), d'.windows[dest].strip)
    && d'.windows[dest].selected == Some(t)
    && SourceLaw(d, d', src, t, prefer)
    && forall w | w in d.windows && w != src && w != dest :: w in d'.windows && d'.windows[w] == d.windows[w]
  }

  /** A tab moved to another window stands at the index it was dropped at, or at the end; the
      tabs that were there keep their order. */
  lemma MovePlaces(d: Desk, src: WinId, dest: WinId, t: TabId, index: int, prefer: seq<TabId>, world: VmTab.World)
    requires Inv(d) && src != dest && dest in d.windows && Shows(d, src, t)
    ensures MovedTo(d, MoveTab(d, src, dest, t, index, prefer, world), src, dest, t, index, prefer)
  {
    InvHomed(d);
    ShownOnce(d, src, t, None);
    var d0 := Detach(d, src, t, prefer, world);
    var d1 := Attach(d0, dest, t, index);
    var d2 := AdoptMovedTab(d1, dest, t, prefer, world);
    DetachTidy(d, src, t, prefer, world);
    hide Inv, Homed, Tidy, Detach, Attach, AdoptMovedTab, HandleSourceAfterDetach, SourceLaw, Reselected,
      TakenFrom, Settled;
    DetachPlaces(d, src, t, prefer, world);
    AttachPlaces(d0, dest, t, index);
    PutInMembers(d0.windows[dest].strip, t, index);
    AdoptPlaces(d1, dest, t, prefer, world);
    SourcePlaces(d, d2, src, t, prefer, world);
    SettledSame(d, d1, dest, t, PutIn(d.windows[dest].strip, t, index), d2.windows[dest].strip);
  }

  /** So does an item that no window shows any more. */
  lemma StrayPlaces(d: Desk, dest: WinId, t: TabId, index: int, prefer: seq<TabId>, world: VmTab.World)
    requires Inv(d) && dest in d.windows && forall w :: !Shows(d, w, t)
    ensures var d' := MoveDropped(d, None, dest, t, index, prefer, world);
            && d'.windows.Keys == d.windows.Keys && d'.windows[dest].selected == Some(t)
            && Settled(d, dest, t, PutIn(d.windows[dest].strip, t, index), d'.windows[dest].strip)
            && forall w | w in d.windows && w != dest :: d'.windows[w] == d.windows[w]
  {
    var d1 := Attach(d, dest, t, index);
    AttachPlaces(d, dest, t, index);
    PutInMembers(d.windows[dest].strip, t, index);
    SameKindsSelf(d);
    hide Inv, Attach, AdoptMovedTab, Settled;
    AdoptPlaces(d1, dest, t, prefer, world);
    SettledSame(d, d1, dest, t, PutIn(d.windows[dest].strip, t, index),
                AdoptMovedTab(d1, dest, t, prefer, world).windows[dest].strip);
  }

  /** Which tabs are Settings tabs is the same before the tab was in hand. */
  lemma SettledSame(d: Desk, d1: Desk, win: WinId, t: TabId, placed: seq<TabId>, strip: seq<TabId>)
    requires SameKinds(d, d1) && d1.pages.Keys == d.pages.Keys && win in d.windows && win in d1.windows
    requires forall u :: u in d1.windows[win].strip <==> u in d.windows[win].strip || u == t
    requires Settled(d1, win, t, placed, strip)
    ensures Settled(d, win, t, placed, strip)
  {
    hide TakenFrom;
    forall u | u != t ensures IsSettings(d1, win, u) == IsSettings(d, win, u) {}
    assert t in d.pages ==> SameKind(d.pages[t], d1.pages[t]);
  }

  /** The tab a new window was handed goes to the end of its strip. */
  lemma ActivatePlaces(d: Desk, win: WinId, prefer: seq<TabId>, world: VmTab.World)
    requires Inv(d) && win in d.windows && d.windows[win].pending.Some?
    ensures var d', t := Activate(d, win, prefer, world), d.windows[win].pending.value;
            && d'.windows.Keys == d.windows.Keys && d'.windows[win].selected == Some(t)
            && Settled(d, win, t, d.windows[win].strip + [t], d'.windows[win].strip)
            && forall w | w in d.windows && w != win :: d'.windows[w] == d.windows[w]
  {
    var w := d.windows[win];
    var t := w.pending.value;
    var d0 := d.(windows := d.windows[win := w.(pending := None)]);
    var d1 := Attach(d0, win, t, -1);
    AttachPlaces(d0, win, t, -1);
    PutInMembers(w.strip, t, -1);
    assert PutIn(w.strip, t, -1) == w.strip + [t];
    SameKindsSelf(d);
    hide Inv, Attach, AdoptMovedTab, Settled;
    AdoptPlaces(d1, win, t, prefer, world);
    SettledSame(d, d1, win, t, w.strip + [t], AdoptMovedTab(d1, win, t, prefer, world).windows[win].strip);
  }

  /** A tear-out takes the tab out of its place and leaves the other strips alone. */
  lemma TearPlaces(d: Desk, src: WinId, t: TabId, prefer: seq<TabId>, world: VmTab.World)
    requires Inv(d) && Shows(d, src, t)
    ensures var d' := TearOut(d, src, t, prefer, world);
            && (|d.windows[src].strip| <= 1 ==> d' == d)
            && (|d.windows[src].strip| > 1 ==>
                  && d'.windows.Keys == d.windows.Keys + {d.nextWin} && src in d'.windows && d'.nextWin == d.nextWin + 1
                  && TakenFrom(d.windows[src].strip, t, d'.windows[src].strip)
                  && Reselected(d.windows[src], t, prefer, d'.windows[src])
                  && d'.windows[d.nextWin] == Window(false, [], None, Some(t), 0)
                  && forall w | w in d.windows && w != src :: w in d'.windows && d'.windows[w] == d.windows[w])
  {
    if |d.windows[src].strip| > 1 {
      TearOutInv(d, src, t, prefer, world);
      DetachPlaces(d, src, t, prefer, world);
      assert d.nextWin !in d.windows by { assert Homed(d, None); }
      hide Inv, Detach, TakenFrom, Reselected, AddTab, CloseWindow;
    }
  }

  /** Closing a tab takes it out of its place; another one of the strip is selected only if it
      was the selected one. Its popup comes down, its child stops, and it wants neither again. */
  lemma CloseTabPlaces(d: Desk, win: WinId, t: TabId, prefer: seq<TabId>, world: VmTab.World)
    requires Inv(d) && Shows(d, win, t)
    ensures var d' := CloseTabItem(d, win, t, prefer, world);
            && (|d.windows[win].strip| > 1 ==>
                  && win in d'.windows && TakenFrom(d.windows[win].strip, t, d'.windows[win].strip)
                  && Reselected(d.windows[win], t, prefer, d'.windows[win]))
            && t in d.pages && t in d'.gone && Parted(d.pages[t], d'.gone[t])
  {
    ShownOnce(d, win, t, None);
    if |d.windows[win].strip| > 1 { ClosePlaces(d, win, t, prefer, world); }
    CloseGone(d, win, t, prefer, world);
    hide CloseTabItem;
  }

  /** A closed page: no client, no popup wanted or waiting, and else as it was. */
  predicate Parted(p: Page, q: Page) {
    match p
    case VmPage(guid, tab) =>
      && q.VmPage? && q.guid == guid && q.tab.child.client.None? && !q.tab.gate.wantsVisible && !q.tab.gate.deferredShow
      && q.tab.gate.suppressed == tab.gate.suppressed && q.tab.gate.connected == tab.gate.connected
      && q.tab.(child := tab.child, gate := tab.gate) == tab
    case RemotePage(address, remote) =>
      && q.RemotePage? && q.address == address
      && q.remote.child.client.None? && !q.remote.gate.wantsVisible && !q.remote.gate.deferredShow
      && q.remote.gate.suppressed == remote.gate.suppressed && q.remote.gate.connected == remote.gate.connected
      && q.remote.(child := remote.child, gate := remote.gate) == remote
    case _ => q == p
  }

  lemma PartParts(p: Page)
    ensures Parted(p, Part(p))
  {}

  lemma CloseGone(d: Desk, win: WinId, t: TabId, prefer: seq<TabId>, world: VmTab.World)
    requires Homed(d, None) && Shows(d, win, t) && t in d.pages
    ensures var d' := CloseTabItem(d, win, t, prefer, world); t in d'.gone && Parted(d.pages[t], d'.gone[t])
  {
    PartParts(d.pages[t]);
    var d1 := Detach(DropPage(d, t), win, t, prefer, world);
    assert t in d1.gone && d1.gone[t] == Part(d.pages[t]) && t !in d1.pages;
    hide Homed, Part, Parted, Detach, Select, Shut;
  }

  // ---- opening ---------------------------------------------------------------------

  /** The first tab of the strip whose page answers. */
  ghost predicate FirstAnswer(strip: seq<TabId>, pages: map<TabId, Page>, q: Query, r: Option<TabId>) {
    match r
    case None => forall t | t in strip && t in pages :: !Answers(pages[t], q)
    case Some(u) =>
      exists k | 0 <= k < |strip| ::
        && strip[k] == u && u in pages && Answers(pages[u], q)
        && forall j | 0 <= j < k && strip[j] in pages :: !Answers(pages[strip[j]], q)
  }

  /** A VM's page by its guid, a host's by its address, both without regard to case; or the
      Settings page. */
  predicate Answers(p: Page, q: Query) {
    match (p, q)
    case (VmPage(guid, _), ForVm(g)) => Text.SameFold(guid, g)
    case (RemotePage(address, _), ForRemote(a)) => Text.SameFold(address, a)
    case (SettingsPage, ForSettings) => true
    case _ => false
  }

  lemma {:induction false} FindIsFirst(strip: seq<TabId>, pages: map<TabId, Page>, q: Query)
    ensures FirstAnswer(strip, pages, q, Find(strip, pages, q, None))
  {
    if strip != [] && !(strip[0] in pages && Matches(pages[strip[0]], q)) {
      FindIsFirst(strip[1..], pages, q);
      var r := Find(strip[1..], pages, q, None);
      if r.Some? {
        var k :| 0 <= k < |strip| - 1 && strip[1..][k] == r.value
                 && forall j | 0 <= j < k && strip[1..][j] in pages :: !Answers(pages[strip[1..][j]], q);
        assert strip[k + 1] == r.value;
        forall j | 0 <= j < k + 1 && strip[j] in pages ensures !Answers(pages[strip[j]], q) {
          assert j > 0 ==> strip[j] == strip[1..][j - 1];
        }
      }
    }
  }

  /** What a tab opened for the query starts with: not loaded, no client, wanted, owned by the
      window; a host's page remembers whether to connect at once. */
  predicate OpenedPage(p: Page, q: Query, win: WinId, autoConnect: bool) {
    match q
    case ForVm(guid) =>
      && p.VmPage? && p.guid == guid
      && p.tab == VmTab.Tab(VmTab.Child(None, {}, 0, win), VmTab.Gate(false, true, false, false),
                            VmTab.Start(false, 0, false, 0), VmTab.Health(false, 0, false),
                            VmTab.Enhanced(false, false, false, 0), VmTab.Timers(None, false, 0), false, VmTab.Loading)
    case ForRemote(address) =>
      p.RemotePage? && p.address == address
      && p.remote == RemoteTab.Remote(VmTab.Child(None, {}, 0, win), VmTab.Gate(false, true, false, false), false,
                                      autoConnect, false, false)
    case ForSettings => p.SettingsPage?
  }

  /** Opening selects the first tab that answers, if the strip has one, and adds one at the
      end otherwise. */
  ghost predicate OpenLaw(d: Desk, d': Desk, win: WinId, q: Query, autoConnect: bool) {
    && win in d.windows && d'.windows.Keys == d.windows.Keys
    && (forall w | w in d.windows && w != win :: d'.windows[w] == d.windows[w])
    && exists r ::
         && FirstAnswer(d.windows[win].strip, d.pages, q, r)
         && (match r
             case Some(u) => d'.windows[win].strip == d.windows[win].strip && d'.windows[win].selected == Some(u)
                             && d'.pages.Keys == d.pages.Keys
             case None =>
               && d'.windows[win].strip == d.windows[win].strip + [d.nextTab]
               && d'.windows[win].selected == Some(d.nextTab)
               && d.nextTab in d'.pages && OpenedPage(d'.pages[d.nextTab], q, win, autoConnect))
  }

  lemma OpenPlaces(d: Desk, win: WinId, q: Query, page: Page, autoConnect: bool, world: VmTab.World)
    requires Inv(d) && win in d.windows
    requires page == match q case ForVm(guid) => NewVmPage(win, guid)
                             case ForRemote(address) => NewRemotePage(win, address, autoConnect)
                             case ForSettings => SettingsPage
    ensures OpenLaw(d, OpenOrFocus(d, win, q, page, world), win, q, autoConnect)
  {
    FindIsFirst(d.windows[win].strip, d.pages, q);
    var r := Find(d.windows[win].strip, d.pages, q, None);
    if r.Some? {
      SelectKeepsStrips(d, win, r, world);
      SelectSameStrips(d, win, r, world);
      hide Inv, Select, FirstAnswer;
    } else {
      AddTabShape(d, win, page, world);
      NewPageShown(d, win, page, world);
      hide Inv, AddTab, FirstAnswer;
    }
  }

  lemma NewPageShown(d: Desk, win: WinId, page: Page, world: VmTab.World)
    requires Inv(d) && win in d.windows
    ensures var d' := AddTab(d, win, page, world);
            d.nextTab in d'.pages && d'.pages[d.nextTab] == Focus(page, true, world)
  {
    assert d.windows[win].selected != Some(d.nextTab) by {
      assert SelectionOk(d, None);
      if d.windows[win].selected == Some(d.nextTab) { ShownOnce(d, win, d.nextTab, None); }
    }
    hide Inv, Focus;
  }

  /** Every way to open a tab. */
  lemma OpeningPlaces(d: Desk, win: WinId, guid: string, address: string, autoConnect: bool, world: VmTab.World)
    requires Inv(d) && win in d.windows
    ensures OpenLaw(d, OpenVmTab(d, win, guid, world), win, ForVm(guid), autoConnect)
    ensures address != "" ==>
              OpenLaw(d, OpenRemoteHostTab(d, win, address, autoConnect, world), win, ForRemote(address), autoConnect)
    ensures address == "" ==> OpenRemoteHostTab(d, win, address, autoConnect, world) == d
    ensures OpenLaw(d, OpenAppSettingsTab(d, win, world), win, ForSettings, autoConnect)
  {
    hide Inv, OpenOrFocus, OpenLaw, NewVmPage, NewRemotePage;
    OpenPlaces(d, win, ForVm(guid), NewVmPage(win, guid), autoConnect, world);
    OpenPlaces(d, win, ForRemote(address), NewRemotePage(win, address, autoConnect), autoConnect, world);
    OpenPlaces(d, win, ForSettings, SettingsPage, autoConnect, world);
  }

  // ---- the rest of the actions -----------------------------------------------------

  /** The count of open dialogs goes up and down by one and stops at 0; the strip is told at
      the steps from and to 0, and no other window or page is touched. */
  lemma PushPopPlaces(d: Desk, win: WinId, world: VmTab.World)
    requires win in d.windows
    ensures var d' := PushPopupSuppression(d, win, world);
            && d'.windows == d.windows[win := d.windows[win].(depth := d.windows[win].depth + 1)]
            && (d.windows[win].depth > 0 ==> d'.pages == d.pages)
    ensures var d', n := PopPopupSuppression(d, win, world), d.windows[win].depth;
            && d'.windows == d.windows[win := d.windows[win].(depth := if n > 0 then n - 1 else 0)]
            && (n != 1 ==> d'.pages == d.pages)
  {
    hide Suppress;
    assert d.windows[win := d.windows[win]] == d.windows;
    assert d.windows[win].depth == 0 ==> d.windows[win].(depth := 0) == d.windows[win];
  }

  /** A drag within the strip leaves it as the framework did, provided it holds the same tabs. */
  lemma ReorderPlaces(d: Desk, win: WinId, strip: seq<TabId>)
    requires win in d.windows
    ensures var d' := Reorder(d, win, strip);
            && (multiset(strip) == multiset(d.windows[win].strip) ==>
                  d' == d.(windows := d.windows[win := d.windows[win].(strip := strip)]))
            && (multiset(strip) != multiset(d.windows[win].strip) ==> d' == d)
  {}

  /** A finished poll closes exactly the tabs of VMs that are not in its list, guids compared
      without regard to case. */
  lemma PolledExactly(d: Desk, win: WinId, known: set<string>, prefer: seq<TabId>, world: VmTab.World, t: TabId)
    requires Inv(d) && Shows(d, win, t)
    ensures var d' := CloseDeleted(d, win, known, prefer, world);
            && t in d.pages && win in d'.windows
            && (t in d'.windows[win].strip <==>
                !(d.pages[t].VmPage? && forall k | k in known :: !Text.SameFold(k, d.pages[t].guid)))
  {
    var strip := d.windows[win].strip;
    InvHomed(d);
    ShownOnce(d, win, t, None);
    DeletedMembers(strip, d.pages, known);
    assert forall u | u in strip && u in d.pages :: u < d.nextTab;
    hide Inv, Homed, CloseAll, Deleted, NoDup;
    CloseAllInv(d, win, Deleted(strip, d.pages, known), prefer, world);
  }
}
