/** The primary window's tab strip across launches: what is persisted and what a restore makes
    of it (src/app/MainWindow.xaml.cpp). */
module Sessions {
  import opened Wrappers
  import Text

  datatype Tab = Vm(guid: string) | Remote(address: string) | Welcome | AppSettings

  /** One entry of settings.json. */
  datatype Saved = Saved(kind: string, id: string)

  /** A strip and the index of its selected tab. */
  datatype Strip = Strip(tabs: seq<Tab>, selected: Option<nat>)

  /** The persisted list and index, -1 for no selection. */
  datatype Store = Store(entries: seq<Saved>, selected: int)

  // ---- persisting ------------------------------------------------------------

  function Entry(t: Tab): Saved {
    match t
    case Vm(guid) => Saved("vm", guid)
    case Remote(address) => Saved("rdp", address)
    case Welcome => Saved("welcome", "local")
    case AppSettings => Saved("settings", "app")
  }

  function Entries(tabs: seq<Tab>): (r: seq<Saved>)
    ensures |r| == |tabs| && forall i | 0 <= i < |tabs| :: r[i] == Entry(tabs[i])
  {
    seq(|tabs|, i requires 0 <= i < |tabs| => Entry(tabs[i]))
  }

  function Persist(s: Strip): Store {
    Store(Entries(s.tabs), if s.selected.Some? then s.selected.value else -1)
  }

  // ---- restoring -------------------------------------------------------------

  predicate IsSaved(hosts: seq<string>, address: string) {
    address != "" && exists i | 0 <= i < |hosts| :: Text.SameFold(hosts[i], address)
  }

  /** The tab an entry asks for; none for an unknown kind or a host that is saved no more. */
  function Wanted(e: Saved, hosts: seq<string>): Option<Tab> {
    if Text.SameFold(e.kind, "welcome") then Some(Welcome)
    else if Text.SameFold(e.kind, "vm") then Some(Vm(e.id))
    else if Text.SameFold(e.kind, "settings") then Some(AppSettings)
    else if Text.SameFold(e.kind, "rdp") && IsSaved(hosts, e.id) then Some(Remote(e.id))
    else None
  }

  /** Opening `b` focuses `a` instead; a welcome tab is always new. */
  predicate Covers(a: Tab, b: Tab) {
    match b
    case Vm(guid) => a.Vm? && Text.SameFold(a.guid, guid)
    case Remote(address) => a.Remote? && Text.SameFold(a.address, address)
    case Welcome => false
    case AppSettings => a.AppSettings?
  }

  predicate Covered(tabs: seq<Tab>, t: Tab) {
    exists i | 0 <= i < |tabs| :: Covers(tabs[i], t)
  }

  function Opened(tabs: seq<Tab>, t: Tab): seq<Tab> {
    if Covered(tabs, t) then tabs else tabs + [t]
  }

  function RestoreTabs(tabs: seq<Tab>, entries: seq<Saved>, hosts: seq<string>): seq<Tab>
    decreases |entries|
  {
    if entries == [] then tabs
    else
      var w := Wanted(entries[0], hosts);
      RestoreTabs(if w.Some? then Opened(tabs, w.value) else tabs, entries[1..], hosts)
  }

  /** Launch: the persisted tabs, the persisted index if the strip has it, else the first. */
  function Restore(store: Store, hosts: seq<string>): Strip {
    var tabs := RestoreTabs([], store.entries, hosts);
    if tabs == [] then Strip([Welcome], Some(0))
    else Strip(tabs, Some(if 0 <= store.selected < |tabs| then store.selected else 0))
  }

  // ---- the window ------------------------------------------------------------

  class PrimaryWindow {
    var tabs: seq<Tab>
    var selected: Option<nat>
    var store: Store

    ghost predicate Valid()
      reads this
    {
      selected.Some? ==> selected.value < |tabs|
    }

    constructor (store: Store)
      ensures Valid() && tabs == [] && selected.None? && this.store == store
    {
      tabs, selected, this.store := [], None, store;
    }

    method PersistOpenTabs()
      requires Valid()
      modifies this`store
      ensures store == Persist(Strip(tabs, selected))
    {
      var snapshot: seq<Saved> := [];
      var selectedIdx := -1;
      var i := 0;
      while i < |tabs|
        invariant 0 <= i <= |tabs| && snapshot == Entries(tabs)[..i]
        invariant selectedIdx == if selected.Some? && selected.value < i then selected.value else -1
      {
        snapshot := snapshot + [Entry(tabs[i])];
        if selected == Some(i) { selectedIdx := |snapshot| - 1; }
        i := i + 1;
      }
      assert snapshot == Entries(tabs);
      store := Store(snapshot, selectedIdx);
    }

    method OpenTab(t: Tab)
      requires Valid()
      modifies this`tabs, this`selected
      ensures Valid() && tabs == Opened(old(tabs), t) && selected.Some?
      ensures if Covered(old(tabs), t) then Covers(tabs[selected.value], t) else selected.value == |old(tabs)|
    {
      var i := 0;
      while i < |tabs|
        invariant tabs == old(tabs) && Valid()
        invariant 0 <= i <= |tabs| && forall j | 0 <= j < i :: !Covers(tabs[j], t)
      {
        if Covers(tabs[i], t) {
          assert Covered(tabs, t);
          selected := Some(i);
          return;
        }
        i := i + 1;
      }
      assert !Covered(tabs, t);
      tabs := tabs + [t];
      selected := Some(|tabs| - 1);
    }

    /** The first activation: restore, fall back to a welcome tab, persist what came of it. */
    method RestoreOpenTabs(hosts: seq<string>)
      requires Valid() && tabs == []
      modifies this
      ensures Valid() && Strip(tabs, selected) == Restore(old(store), hosts)
      ensures store == Persist(Restore(old(store), hosts))
    {
      var entries, want := store.entries, store.selected;
      var i := 0;
      while i < |entries|
        invariant 0 <= i <= |entries| && Valid()
        invariant RestoreTabs(tabs, entries[i..], hosts) == RestoreTabs([], entries, hosts)
      {
        var w := Wanted(entries[i], hosts);
        if w.Some? { OpenTab(w.value); }
        i := i + 1;
      }
      if |tabs| == 0 {
        OpenTab(Welcome);
        assert tabs == [Welcome];
      } else {
        selected := Some(if 0 <= want < |tabs| then want else 0);
      }
      PersistOpenTabs();
    }
  }

  // ---- what a restore keeps --------------------------------------------------

  /** No tab would have been focused in place of a later one. */
  predicate Distinct(tabs: seq<Tab>) {
    forall i, j | 0 <= i < j < |tabs| :: !Covers(tabs[i], tabs[j])
  }

  predicate AllSaved(tabs: seq<Tab>, hosts: seq<string>) {
    forall i | 0 <= i < |tabs| :: tabs[i].Remote? ==> IsSaved(hosts, tabs[i].address)
  }

  /** What the entries ask for, in order, duplicates included. */
  function AllWanted(entries: seq<Saved>, hosts: seq<string>): seq<Tab> {
    if entries == [] then [] else OneWanted(entries[0], hosts) + AllWanted(entries[1..], hosts)
  }

  function OneWanted(e: Saved, hosts: seq<string>): seq<Tab> {
    var w := Wanted(e, hosts);
    if w.Some? then [w.value] else []
  }

  /** Every tab but those an earlier one covers. */
  function Deduplicated(tabs: seq<Tab>): seq<Tab> {
    if tabs == [] then []
    else
      var last := |tabs| - 1;
      Deduplicated(tabs[..last]) + if Covered(tabs[..last], tabs[last]) then [] else [tabs[last]]
  }

  lemma WantedEntry(t: Tab, hosts: seq<string>)
    ensures Wanted(Entry(t), hosts)
         == if t.Remote? && !IsSaved(hosts, t.address) then None else Some(t)
  {
    assert Text.Fold("vm")[0] == 'v' && Text.Fold("rdp")[0] == 'r' && Text.Fold("settings")[0] == 's'
           && Text.Fold("welcome")[0] == 'w';
  }

  lemma CoversTrans(a: Tab, b: Tab, c: Tab)
    requires Covers(a, b) && Covers(b, c)
    ensures Covers(a, c)
  {}

  lemma CoveredMore(tabs: seq<Tab>, last: Tab, t: Tab)
    ensures Covered(tabs + [last], t) <==> Covered(tabs, t) || Covers(last, t)
  {
    var more := tabs + [last];
    assert more[|tabs|] == last && forall i | 0 <= i < |tabs| :: more[i] == tabs[i];
    hide Covers;
  }

  lemma CoveredTrans(tabs: seq<Tab>, u: Tab, t: Tab)
    requires Covered(tabs, u) && Covers(u, t)
    ensures Covered(tabs, t)
  {
    var i :| 0 <= i < |tabs| && Covers(tabs[i], u);
    CoversTrans(tabs[i], u, t);
  }

  /** An earlier tab and the one kept in its place cover the same. */
  lemma {:induction false} CoveredDeduplicated(tabs: seq<Tab>, t: Tab)
    ensures Covered(Deduplicated(tabs), t) <==> Covered(tabs, t)
  {
    hide Covered, Covers;
    if tabs != [] {
      var front, last := tabs[..|tabs| - 1], tabs[|tabs| - 1];
      assert tabs == front + [last];
      CoveredDeduplicated(front, t);
      CoveredMore(front, last, t);
      CoveredMore(Deduplicated(front), last, t);
      assert Deduplicated(front) + [] == Deduplicated(front);
      if Covered(front, last) && Covers(last, t) { CoveredTrans(front, last, t); }
    }
  }

  lemma DeduplicatedMore(before: seq<Tab>, t: Tab)
    ensures Deduplicated(before + [t]) == Opened(Deduplicated(before), t)
  {
    var more := before + [t];
    assert more[..|before|] == before;
    CoveredDeduplicated(before, t);
  }

  /** The restored strip is the wanted list without what an earlier tab covers. */
  lemma {:induction false} RestoreIsDeduplicated(before: seq<Tab>, entries: seq<Saved>, hosts: seq<string>)
    ensures RestoreTabs(Deduplicated(before), entries, hosts) == Deduplicated(before + AllWanted(entries, hosts))
    decreases |entries|
  {
    hide Deduplicated, Opened, Wanted;
    if entries == [] {
      assert before + [] == before;
    } else {
      var w := Wanted(entries[0], hosts);
      var rest := AllWanted(entries[1..], hosts);
      if w.Some? {
        DeduplicatedMore(before, w.value);
        RestoreIsDeduplicated(before + [w.value], entries[1..], hosts);
        assert before + [w.value] + rest == before + ([w.value] + rest);
      } else {
        RestoreIsDeduplicated(before, entries[1..], hosts);
        assert [] + rest == rest;
      }
    }
  }

  lemma {:induction false} DeduplicatedDistinct(tabs: seq<Tab>)
    ensures Distinct(Deduplicated(tabs)) && |Deduplicated(tabs)| <= |tabs|
    ensures Deduplicated(tabs) == tabs <==> Distinct(tabs)
  {
    if tabs != [] {
      var last := |tabs| - 1;
      var kept := Deduplicated(tabs[..last]);
      DeduplicatedDistinct(tabs[..last]);
      CoveredDeduplicated(tabs[..last], tabs[last]);
      if Covered(tabs[..last], tabs[last]) {
        var i :| 0 <= i < last && Covers(tabs[..last][i], tabs[last]);
        assert Covers(tabs[i], tabs[last]);
      } else {
        assert Deduplicated(tabs) == kept + [tabs[last]];
        assert forall i | 0 <= i < |kept| :: !Covers(kept[i], tabs[last]);
        assert Deduplicated(tabs) == tabs <==> kept == tabs[..last] by {
          if Deduplicated(tabs) == tabs { assert Deduplicated(tabs)[..last] == kept; }
          assert tabs == tabs[..last] + [tabs[last]];
        }
        assert Distinct(tabs) <==> Distinct(tabs[..last]) by {
          forall i, j | 0 <= i < j < |tabs| && Distinct(tabs[..last]) ensures !Covers(tabs[i], tabs[j]) {
            if j < last { assert !Covers(tabs[..last][i],
                                         tabs[..last][j]); } else { assert !Covers(tabs[..last][i], tabs[last]); }
          }
        }
      }
    }
  }

  lemma {:induction false} AllWantedEntries(tabs: seq<Tab>, hosts: seq<string>)
    ensures |AllWanted(Entries(tabs), hosts)| <= |tabs|
    ensures AllWanted(Entries(tabs), hosts) == tabs <==> AllSaved(tabs, hosts)
  {
    if tabs != [] {
      WantedEntry(tabs[0], hosts);
      assert Entries(tabs)[1..] == Entries(tabs[1..]);
      AllWantedEntries(tabs[1..], hosts);
      var rest := AllWanted(Entries(tabs[1..]), hosts);
      assert tabs == [tabs[0]] + tabs[1..];
      if Wanted(Entry(tabs[0]), hosts).Some? {
        assert AllWanted(Entries(tabs), hosts) == [tabs[0]] + rest;
        assert AllWanted(Entries(tabs), hosts)[1..] == rest;
        assert AllSaved(tabs, hosts) <==> AllSaved(tabs[1..], hosts) by {
          if AllSaved(tabs, hosts) { forall i | 0 <= i < |tabs| - 1 ensures tabs[1..][i] == tabs[i + 1] {} }
          if AllSaved(tabs[1..], hosts) {
            forall i | 0 <= i < |tabs| ensures tabs[i].Remote? ==> IsSaved(hosts, tabs[i].address) {
              if i > 0 { assert tabs[1..][i - 1] == tabs[i]; }
            }
          }
        }
      }
    }
  }

  lemma RestoredTabs(store: Store, hosts: seq<string>)
    ensures var tabs := RestoreTabs([], store.entries, hosts);
            tabs == Deduplicated(AllWanted(store.entries, hosts)) && Distinct(tabs) && AllSaved(tabs, hosts)
  {
    var wanted := AllWanted(store.entries, hosts);
    assert Deduplicated([]) == [];
    assert [] + wanted == wanted;
    hide Deduplicated, AllWanted, RestoreTabs, Distinct, IsSaved;
    RestoreIsDeduplicated([], store.entries, hosts);
    DeduplicatedDistinct(wanted);
    RestoredSaved([], store.entries, hosts);
  }

  /** For any persisted list: the strip is its openable entries without repetitions. */
  lemma RestoreFilters(store: Store, hosts: seq<string>)
    ensures RestoreTabs([], store.entries, hosts) == Deduplicated(AllWanted(store.entries, hosts))
    ensures Distinct(Restore(store, hosts).tabs) && AllSaved(Restore(store, hosts).tabs, hosts)
    ensures Restore(store, hosts).selected.Some? && Restore(store, hosts).selected.value < |Restore(store, hosts).tabs|
  {
    OneDistinct(Welcome);
    assert AllSaved([Welcome], hosts);
    hide Deduplicated, AllWanted, RestoreTabs, Distinct, AllSaved;
    RestoredTabs(store, hosts);
  }

  lemma OneDistinct(t: Tab)
    ensures Distinct([t])
  {}

  lemma {:induction false} RestoredSaved(tabs: seq<Tab>, entries: seq<Saved>, hosts: seq<string>)
    requires AllSaved(tabs, hosts)
    ensures AllSaved(RestoreTabs(tabs, entries, hosts), hosts)
    decreases |entries|
  {
    if entries != [] {
      var w := Wanted(entries[0], hosts);
      RestoredSaved(if w.Some? then Opened(tabs, w.value) else tabs, entries[1..], hosts);
    }
  }

  /** A strip comes back as it was, selection included, if and only if no tab of it would
      focus another and every remote host in it is still saved. */
  lemma RestorePersisted(s: Strip, hosts: seq<string>)
    requires s.tabs != [] && s.selected.Some? && s.selected.value < |s.tabs|
    ensures Restore(Persist(s), hosts) == s <==> Distinct(s.tabs) && AllSaved(s.tabs, hosts)
  {
    var wanted := AllWanted(Entries(s.tabs), hosts);
    RestoreFilters(Persist(s), hosts);
    AllWantedEntries(s.tabs, hosts);
    DeduplicatedDistinct(wanted);
    DeduplicatedDistinct(s.tabs);
  }

  /** Restoring twice is restoring once. */
  lemma RestoreSettles(store: Store, hosts: seq<string>)
    ensures var s := Restore(store, hosts); Restore(Persist(s), hosts) == s
  {
    RestoreFilters(store, hosts);
    RestorePersisted(Restore(store, hosts), hosts);
  }

  // ---- which tab is selected -------------------------------------------------

  predicate Gone(t: Tab, hosts: seq<string>) {
    t.Remote? && !IsSaved(hosts, t.address)
  }

  function Survivors(tabs: seq<Tab>, hosts: seq<string>): (r: seq<Tab>)
    ensures |r| <= |tabs|
  {
    if tabs == [] then []
    else
      var last := |tabs| - 1;
      Survivors(tabs[..last], hosts) + if Gone(tabs[last], hosts) then [] else [tabs[last]]
  }

  lemma {:induction false} AllWantedMore(entries: seq<Saved>, e: Saved, hosts: seq<string>)
    ensures AllWanted(entries + [e], hosts) == AllWanted(entries, hosts) + OneWanted(e, hosts)
  {
    hide Wanted;
    if entries == [] {
      assert entries + [e] == [e];
    } else {
      assert (entries + [e])[1..] == entries[1..] + [e];
      AllWantedMore(entries[1..], e, hosts);
      var first, rest := OneWanted(entries[0], hosts), AllWanted(entries[1..], hosts);
      assert first + (rest + OneWanted(e, hosts)) == first + rest + OneWanted(e, hosts);
    }
  }

  lemma {:induction false} SurvivorsWanted(tabs: seq<Tab>, hosts: seq<string>)
    ensures AllWanted(Entries(tabs), hosts) == Survivors(tabs, hosts)
  {
    if tabs != [] {
      var last := |tabs| - 1;
      SurvivorsWanted(tabs[..last], hosts);
      assert Entries(tabs) == Entries(tabs[..last]) + [Entry(tabs[last])];
      AllWantedMore(Entries(tabs[..last]), Entry(tabs[last]), hosts);
      WantedEntry(tabs[last], hosts);
    }
  }

  lemma {:induction false} SurvivorsMembers(tabs: seq<Tab>, hosts: seq<string>)
    ensures forall t | t in Survivors(tabs, hosts) :: t in tabs
    ensures |Survivors(tabs, hosts)| == |tabs| <==> AllSaved(tabs, hosts)
  {
    if tabs != [] {
      var last := |tabs| - 1;
      SurvivorsMembers(tabs[..last], hosts);
      assert AllSaved(tabs, hosts) <==> AllSaved(tabs[..last], hosts) && !Gone(tabs[last], hosts) by {
        forall i | 0 <= i < last ensures tabs[..last][i] == tabs[i] {}
      }
    }
  }

  lemma {:induction false} SurvivorsDistinct(tabs: seq<Tab>, hosts: seq<string>)
    requires Distinct(tabs)
    ensures Distinct(Survivors(tabs, hosts))
  {
    if tabs != [] {
      var last := |tabs| - 1;
      var before := Survivors(tabs[..last], hosts);
      SurvivorsDistinct(tabs[..last], hosts);
      SurvivorsMembers(tabs[..last], hosts);
      forall i | 0 <= i < |before| ensures !Covers(before[i], tabs[last]) {
        assert before[i] in tabs[..last];
      }
    }
  }

  lemma {:induction false} SurvivorsPrefix(tabs: seq<Tab>, i: nat, hosts: seq<string>)
    requires i < |tabs| && !Gone(tabs[i], hosts)
    ensures var p := |Survivors(tabs[..i], hosts)|; p < |Survivors(tabs, hosts)| && Survivors(tabs, hosts)[p] == tabs[i]
    decreases |tabs|
  {
    var last := |tabs| - 1;
    if i < last {
      SurvivorsPrefix(tabs[..last], i, hosts);
      assert tabs[..last][..i] == tabs[..i];
    }
  }

  /** The tab that was selected is the selected one again exactly when no tab before it is
      gone, or when all before it are gone and the recorded index points past the strip. */
  lemma SelectionExactly(s: Strip, i: nat, hosts: seq<string>)
    requires Distinct(s.tabs) && s.selected == Some(i) && i < |s.tabs| && !Gone(s.tabs[i], hosts)
    ensures var back := Restore(Persist(s), hosts);
            var p := |Survivors(s.tabs[..i], hosts)|;
            && p < |back.tabs| && back.tabs[p] == s.tabs[i]
            && (back.selected == Some(p) <==> AllSaved(s.tabs[..i], hosts) || (p == 0 && |back.tabs| <= i))
  {
    RestoreFilters(Persist(s), hosts);
    SurvivorsWanted(s.tabs, hosts);
    SurvivorsDistinct(s.tabs, hosts);
    DeduplicatedDistinct(Survivors(s.tabs, hosts));
    SurvivorsPrefix(s.tabs, i, hosts);
    SurvivorsMembers(s.tabs[..i], hosts);
    hide Survivors, Deduplicated, AllWanted, RestoreTabs, AllSaved, Distinct;
  }

  /** The index is into the persisted list: with a host gone, another tab is selected. */
  lemma SelectionSlips()
    ensures var s := Strip([Remote("gone"), Vm("a"), Vm("b")], Some(1));
            Restore(Persist(s), []) == Strip([Vm("a"), Vm("b")], Some(1))
  {
    var tabs := [Remote("gone"), Vm("a"), Vm("b")];
    var entries := Entries(tabs);
    WantedEntry(tabs[0], []);
    WantedEntry(tabs[1], []);
    WantedEntry(tabs[2], []);
    assert entries[1..] == [Entry(Vm("a")), Entry(Vm("b"))];
    assert entries[1..][1..] == [Entry(Vm("b"))];
    assert entries[1..][1..][1..] == [];
    assert Text.Fold("a")[0] == 'a' && Text.Fold("b")[0] == 'b';
    assert !Covers(Vm("a"), Vm("b"));
    assert Opened([], Vm("a")) == [Vm("a")];
    assert Opened([Vm("a")], Vm("b")) == [Vm("a"), Vm("b")];
  }

  // ---- a restore, entry by entry ---------------------------------------------

  /** Two tabs a strip does not show side by side: of one VM, of one host, or Settings. */
  predicate Alike(a: Tab, b: Tab) {
    || (a.Vm? && b.Vm? && Text.SameFold(a.guid, b.guid))
    || (a.Remote? && b.Remote? && Text.SameFold(a.address, b.address))
    || (a.AppSettings? && b.AppSettings?)
  }

  /** The entry can be opened, as this tab. A host's must be among the saved hosts. */
  ghost predicate Opens(e: Saved, hosts: seq<string>, t: Tab) {
    || (Text.SameFold(e.kind, "vm") && t == Vm(e.id))
    || (Text.SameFold(e.kind, "settings") && t == AppSettings)
    || (Text.SameFold(e.kind, "welcome") && t == Welcome)
    || (Text.SameFold(e.kind, "rdp") && t == Remote(e.id) && e.id != "" && exists h :: h in hosts && Text.SameFold(h, e.id))
  }

  lemma WantedOpens(e: Saved, hosts: seq<string>, t: Tab)
    ensures Wanted(e, hosts) == Some(t) <==> Opens(e, hosts, t)
  {
    assert Text.Fold("vm")[0] == 'v' && Text.Fold("rdp")[0] == 'r' && Text.Fold("settings")[0] == 's'
           && Text.Fold("welcome")[0] == 'w';
  }

  lemma AlikeCovers(a: Tab, b: Tab)
    ensures Covers(a, b) <==> Alike(a, b)
  {}

  /** The entries at these places, in order, are those that open a tab no earlier entry opens
      an alike of; and these are the tabs. */
  ghost predicate KeptAt(entries: seq<Saved>, hosts: seq<string>, tabs: seq<Tab>, places: seq<nat>) {
    && |tabs| == |places|
    && (forall k | 0 <= k < |places| :: places[k] < |entries| && Opens(entries[places[k]], hosts, tabs[k]))
    && (forall j, k | 0 <= j < k < |places| :: places[j] < places[k])
    && (forall i, t | 0 <= i < |entries| && Opens(entries[i], hosts, t) ::
          i in places <==> !OpenedBefore(entries, hosts, i, t))
  }

  ghost predicate OpenedBefore(entries: seq<Saved>, hosts: seq<string>, i: nat, t: Tab)
    requires i <= |entries|
  {
    exists j, u :: 0 <= j < i && Opens(entries[j], hosts, u) && Alike(u, t)
  }

  ghost predicate Kept(entries: seq<Saved>, hosts: seq<string>, tabs: seq<Tab>) {
    exists places :: KeptAt(entries, hosts, tabs, places)
  }

  lemma {:induction false} RestoreMore(tabs: seq<Tab>, entries: seq<Saved>, e: Saved, hosts: seq<string>)
    ensures var r := RestoreTabs(tabs, entries, hosts);
            RestoreTabs(tabs, entries + [e], hosts)
            == if Wanted(e, hosts).Some? then Opened(r, Wanted(e, hosts).value) else r
    decreases |entries|
  {
    hide Wanted, Opened;
    if entries == [] {
      assert entries + [e] == [e];
      assert [e][1..] == [];
    } else {
      assert (entries + [e])[1..] == entries[1..] + [e];
      var w := Wanted(entries[0], hosts);
      RestoreMore(if w.Some? then Opened(tabs, w.value) else tabs, entries[1..], e, hosts);
    }
  }

  /** If an earlier entry opens an alike tab, one of the kept ones is alike. */
  lemma {:induction false} SomeKeptIsAlike(entries: seq<Saved>, hosts: seq<string>, tabs: seq<Tab>, places: seq<nat>,
                                           j: nat, u: Tab, t: Tab)
    requires KeptAt(entries, hosts, tabs, places) && j < |entries| && Opens(entries[j], hosts, u) && Alike(u, t)
    ensures Covered(tabs, t)
    decreases j
  {
    if j in places {
      var k :| 0 <= k < |places| && places[k] == j;
      WantedOpens(entries[j], hosts, u);
      WantedOpens(entries[j], hosts, tabs[k]);
      AlikeCovers(tabs[k], t);
    } else {
      var i, v :| 0 <= i < j && Opens(entries[i], hosts, v) && Alike(v, u);
      AlikeTrans(v, u, t);
      SomeKeptIsAlike(entries, hosts, tabs, places, i, v, t);
    }
  }

  lemma AlikeTrans(a: Tab, b: Tab, c: Tab)
    requires Alike(a, b) && Alike(b, c)
    ensures Alike(a, c)
  {}

  lemma CoveredExactly(entries: seq<Saved>, hosts: seq<string>, tabs: seq<Tab>, places: seq<nat>, t: Tab)
    requires KeptAt(entries, hosts, tabs, places)
    ensures Covered(tabs, t) <==> OpenedBefore(entries, hosts, |entries|, t)
  {
    if Covered(tabs, t) {
      var k :| 0 <= k < |tabs| && Covers(tabs[k], t);
      AlikeCovers(tabs[k], t);
      assert Opens(entries[places[k]], hosts, tabs[k]);
    }
    if OpenedBefore(entries, hosts, |entries|, t) {
      var j, u :| 0 <= j < |entries| && Opens(entries[j], hosts, u) && Alike(u, t);
      SomeKeptIsAlike(entries, hosts, tabs, places, j, u, t);
    }
  }

  lemma BeforeSame(front: seq<Saved>, e: Saved, hosts: seq<string>, i: nat, t: Tab)
    requires i <= |front|
    ensures OpenedBefore(front + [e], hosts, i, t) == OpenedBefore(front, hosts, i, t)
  {
    assert forall j | 0 <= j < i :: (front + [e])[j] == front[j];
    hide Opens, Alike;
  }

  lemma KeptSkips(front: seq<Saved>, e: Saved, hosts: seq<string>, tabs: seq<Tab>, places: seq<nat>)
    requires KeptAt(front, hosts, tabs, places)
    requires forall t | Opens(e, hosts, t) :: OpenedBefore(front, hosts, |front|, t)
    ensures KeptAt(front + [e], hosts, tabs, places)
  {
    var entries := front + [e];
    assert forall i | i in places :: i < |front|;
    forall i, t | 0 <= i < |entries| && Opens(entries[i], hosts, t)
      ensures i in places <==> !OpenedBefore(entries, hosts, i, t)
    {
      BeforeSame(front, e, hosts, i, t);
      assert i < |front| ==> entries[i] == front[i];
    }
    hide Opens, OpenedBefore;
  }

  lemma KeptAdds(front: seq<Saved>, e: Saved, hosts: seq<string>, tabs: seq<Tab>, places: seq<nat>, w: Tab)
    requires KeptAt(front, hosts, tabs, places) && Opens(e, hosts, w) && !OpenedBefore(front, hosts, |front|, w)
    ensures KeptAt(front + [e], hosts, tabs + [w], places + [|front|])
  {
    var entries, places' := front + [e], places + [|front|];
    assert forall i | i in places :: i < |front|;
    forall i, t | 0 <= i < |entries| && Opens(entries[i], hosts, t)
      ensures i in places' <==> !OpenedBefore(entries, hosts, i, t)
    {
      BeforeSame(front, e, hosts, i, t);
      if i < |front| {
        assert entries[i] == front[i];
      } else {
        WantedOpens(e, hosts, t);
        WantedOpens(e, hosts, w);
      }
    }
    hide Opens, OpenedBefore;
  }

  /** The strip a restore builds, for any persisted list. */
  lemma {:induction false} RestoredKept(entries: seq<Saved>, hosts: seq<string>)
    ensures Kept(entries, hosts, RestoreTabs([], entries, hosts))
    decreases |entries|
  {
    if entries == [] {
      assert KeptAt([], hosts, [], []);
    } else {
      var front, e := entries[..|entries| - 1], entries[|entries| - 1];
      var r := RestoreTabs([], front, hosts);
      assert entries == front + [e];
      RestoredKept(front, hosts);
      RestoreMore([], front, e, hosts);
      var p :| KeptAt(front, hosts, r, p);
      OneMoreKept(front, e, hosts, r, p);
    }
  }

  lemma OneMoreKept(front: seq<Saved>, e: Saved, hosts: seq<string>, tabs: seq<Tab>, places: seq<nat>)
    requires KeptAt(front, hosts, tabs, places)
    ensures Kept(front + [e], hosts, if Wanted(e, hosts).Some? then Opened(tabs, Wanted(e, hosts).value) else tabs)
  {
    var w := Wanted(e, hosts);
    forall t ensures Opens(e, hosts, t) <==> w == Some(t) { WantedOpens(e, hosts, t); }
    if w.Some? { CoveredExactly(front, hosts, tabs, places, w.value); }
    hide Opens, Wanted, OpenedBefore, KeptAt, Covered;
    if w.Some? && !Covered(tabs, w.value) {
      KeptAdds(front, e, hosts, tabs, places, w.value);
    } else {
      KeptSkips(front, e, hosts, tabs, places);
    }
  }

  /** The launch, for any persisted list: the tabs of the entries that can be opened, in order,
      the first of each alike, with the persisted index selected if the strip has it and the
      first tab otherwise; if no entry can be opened, a welcome tab. */
  lemma RestoreExactly(store: Store, hosts: seq<string>)
    ensures var s := Restore(store, hosts);
            var none := forall i, t | 0 <= i < |store.entries| :: !Opens(store.entries[i], hosts, t);
            && (none ==> s == Strip([Welcome], Some(0)))
            && (!none ==> Kept(store.entries, hosts, s.tabs)
                          && s.selected == Some(if 0 <= store.selected < |s.tabs| then store.selected else 0))
  {
    var tabs := RestoreTabs([], store.entries, hosts);
    RestoredKept(store.entries, hosts);
    var p :| KeptAt(store.entries, hosts, tabs, p);
    if i, t :| 0 <= i < |store.entries| && Opens(store.entries[i], hosts, t) {
      SomeOpened(store.entries, hosts, tabs, p, i, t);
    }
    hide Opens, RestoreTabs, Kept, OpenedBefore;
    assert tabs != [] ==> Opens(store.entries[p[0]], hosts, tabs[0]);
  }

  lemma {:induction false} SomeOpened(entries: seq<Saved>, hosts: seq<string>, tabs: seq<Tab>, places: seq<nat>, i: nat,
                                      t: Tab)
    requires KeptAt(entries, hosts, tabs, places) && i < |entries| && Opens(entries[i], hosts, t)
    ensures tabs != []
    decreases i
  {
    if i !in places {
      var j, u :| 0 <= j < i && Opens(entries[j], hosts, u) && Alike(u, t);
      SomeOpened(entries, hosts, tabs, places, j, u);
    }
  }
}
