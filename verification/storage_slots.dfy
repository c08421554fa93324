/** Placing queued storage devices on controller slots in the settings dialog
    (src/app/VmSettingsDialog.xaml.cpp).

    Each handler is a function on the dialog's state; `StorageDialog` in storage_dialog.dfy
    is the same dialog as an object. One flyout is open at a time and pressing a button
    outside it closes it; only its own button queues. */
module StorageSlots {
  import opened Wrappers
  import opened Strips

  datatype Controller = Controller(ref: string, scsi: bool, maxSlots: nat, usedSlots: set<int>)

  datatype Kind = Attach | Create | Dvd | Physical

  /** A queued device; slot -1 leaves the place to Hyper-V. */
  datatype Pending = Pending(what: string, ref: string, slot: int)

  /** A controller combo box and the slot combo box linked to it, with selected indices. */
  datatype Combos = Combos(refs: seq<string>, picked: int, slots: seq<int>, slotPicked: int)

  datatype Dialog = Dialog(
    controllers: seq<Controller>,
    queued: map<string, set<int>>,
    attaches: seq<Pending>,
    creates: seq<Pending>,
    dvds: seq<Pending>,
    physicals: seq<Pending>,
    flyout: Option<Kind>,
    combos: Combos,
    removable: set<string>,
    off: bool)

  function Queued(d: Dialog, ref: string): set<int> {
    if ref in d.queued then d.queued[ref] else {}
  }

  function FindController(cs: seq<Controller>, ref: string): (r: Option<Controller>)
    ensures r.Some? ==> r.value in cs && r.value.ref == ref
    ensures r.None? ==> forall c | c in cs :: c.ref != ref
  {
    if cs == [] then None else if cs[0].ref == ref then Some(cs[0]) else FindController(cs[1..], ref)
  }

  function FreeFrom(slot: nat, max: nat, taken: set<int>): seq<int>
    decreases max - slot
  {
    if slot >= max then [] else (if slot in taken then [] else [slot]) + FreeFrom(slot + 1, max, taken)
  }

  lemma {:induction false} FreeMembers(slot: nat, max: nat, taken: set<int>)
    ensures forall s :: s in FreeFrom(slot, max, taken) <==> slot <= s < max && s !in taken
    decreases max - slot
  {
    if slot < max { FreeMembers(slot + 1, max, taken); }
  }

  /** [0, maxSlots) minus what the VM uses minus what is queued. */
  function FreeSlots(d: Dialog, ref: string): seq<int> {
    match FindController(d.controllers, ref)
    case None => []
    case Some(c) => FreeFrom(0, c.maxSlots, c.usedSlots + Queued(d, ref))
  }

  lemma FreeSlotsVacant(d: Dialog, ref: string, s: int)
    ensures s in FreeSlots(d, ref) <==> Vacant(d.controllers, (ref, s)) && s !in Queued(d, ref)
  {
    var c := FindController(d.controllers, ref);
    if c.Some? { FreeMembers(0, c.value.maxSlots, c.value.usedSlots + Queued(d, ref)); }
  }

  function PickedRef(c: Combos): string {
    if 0 <= c.picked < |c.refs| then c.refs[c.picked] else ""
  }

  function PickedSlot(c: Combos): int {
    if 0 <= c.slotPicked < |c.slots| then c.slots[c.slotPicked] else -1
  }

  function Refs(cs: seq<Controller>): (r: seq<string>)
    ensures |r| == |cs| && forall i | 0 <= i < |cs| :: r[i] == cs[i].ref
  {
    seq(|cs|, i requires 0 <= i < |cs| => cs[i].ref)
  }

  function RefreshSlots(d: Dialog): Dialog {
    var slots := FreeSlots(d, PickedRef(d.combos));
    d.(combos := d.combos.(slots := slots, slotPicked := if slots == [] then -1 else 0))
  }

  function OpenFlyout(d: Dialog, kind: Kind): Dialog {
    var refs := Refs(d.controllers);
    RefreshSlots(d.(flyout := Some(kind), combos := Combos(refs, if refs == [] then -1 else 0, [], -1)))
  }

  function PickController(d: Dialog, i: int): Dialog {
    if d.flyout.None? || !(-1 <= i < |d.combos.refs|) then d
    else RefreshSlots(d.(combos := d.combos.(picked := i)))
  }

  function PickSlot(d: Dialog, i: int): Dialog {
    if d.flyout.None? || !(-1 <= i < |d.combos.slots|) then d
    else d.(combos := d.combos.(slotPicked := i))
  }

  function Dismiss(d: Dialog): Dialog {
    d.(flyout := None)
  }

  /** UpdateControllerRemoveButtons: only empty SCSI controllers of a VM that is off. */
  function Regate(d: Dialog): Dialog {
    d.(removable := set c | c in d.controllers && c.scsi && d.off && c.usedSlots == {}
                            && Queued(d, c.ref) == {} :: c.ref)
  }

  function Consume(d: Dialog, ref: string, slot: int): Dialog {
    if ref == "" || slot < 0 then d
    else Regate(d.(queued := d.queued[ref := Queued(d, ref) + {slot}]))
  }

  function Push(d: Dialog, kind: Kind, p: Pending): Dialog {
    match kind
    case Attach => d.(attaches := d.attaches + [p])
    case Create => d.(creates := d.creates + [p])
    case Dvd => d.(dvds := d.dvds + [p])
    case Physical => d.(physicals := d.physicals + [p])
  }

  /** The button in the open flyout. `what` is the picked file or disk, empty if none was
      picked; a DVD drive needs none. */
  function QueueDevice(d: Dialog, what: string): Dialog {
    if d.flyout.None? then d
    else
      var kind, p := d.flyout.value, Pending(what, PickedRef(d.combos), PickedSlot(d.combos));
      if what == "" && !kind.Dvd? then Dismiss(d)
      else Consume(Push(Dismiss(d), kind, p), p.ref, p.slot)
  }

  /** RebuildStorageCards: the controllers are read afresh. */
  function Rebuild(d: Dialog, controllers: seq<Controller>): Dialog {
    Regate(d.(controllers := controllers))
  }

  /** Add SCSI controller: the re-read list has one more, empty. */
  function AddController(d: Dialog, ref: string, maxSlots: nat): Dialog {
    Rebuild(Dismiss(d), d.controllers + [Controller(ref, true, maxSlots, {})])
  }

  function Dropped(cs: seq<Controller>, ref: string): seq<Controller> {
    if cs == [] then [] else (if cs[0].ref == ref then [] else [cs[0]]) + Dropped(cs[1..], ref)
  }

  /** A Remove button, if it is enabled; `ok` is what the VM manager answers. */
  function RemoveController(d: Dialog, ref: string, ok: bool): Dialog {
    if ref !in d.removable || !ok then Dismiss(d)
    else Rebuild(Dismiss(d).(queued := d.queued - {ref}), Dropped(d.controllers, ref))
  }

  function VmState(d: Dialog, off: bool): Dialog {
    Regate(d.(off := off))
  }

  /** The dialog as it opens. */
  function Opened(controllers: seq<Controller>, off: bool): Dialog {
    Rebuild(Dialog([], map[], [], [], [], [], None, Combos([], -1, [], -1), {}, off), controllers)
  }

  datatype Action =
    | Open(kind: Kind)
    | Pick(index: int)
    | Slot(index: int)
    | Close
    | Queue(what: string)
    | Add(ref: string, maxSlots: nat)
    | Remove(ref: string, ok: bool)
    | State(off: bool)

  function Do(d: Dialog, a: Action): Dialog {
    match a
    case Open(kind) => OpenFlyout(d, kind)
    case Pick(i) => PickController(d, i)
    case Slot(i) => PickSlot(d, i)
    case Close => Dismiss(d)
    case Queue(what) => QueueDevice(d, what)
    case Add(ref, maxSlots) => AddController(d, ref, maxSlots)
    case Remove(ref, ok) => RemoveController(d, ref, ok)
    case State(off) => VmState(d, off)
  }

  // ---- the invariant ---------------------------------------------------------

  type Place = (string, int)

  /** Where queued devices will go, of those that name a slot. */
  function Places(ps: seq<Pending>): seq<Place> {
    if ps == [] then [] else (if ps[0].slot >= 0 then [(ps[0].ref, ps[0].slot)] else []) + Places(ps[1..])
  }

  function AllPlaces(d: Dialog): seq<Place> {
    Places(d.attaches) + Places(d.creates) + Places(d.dvds) + Places(d.physicals)
  }

  ghost predicate RefsOk(cs: seq<Controller>) {
    NoDup(Refs(cs)) && forall c | c in cs :: c.ref != ""
  }

  /** The place is a real slot that the VM does not use. */
  predicate Vacant(cs: seq<Controller>, p: Place) {
    var c := FindController(cs, p.0);
    c.Some? && 0 <= p.1 < c.value.maxSlots && p.1 !in c.value.usedSlots
  }

  ghost predicate PlacesOk(d: Dialog) {
    && NoDup(AllPlaces(d))
    && (forall p | p in AllPlaces(d) :: Vacant(d.controllers, p))
    && (forall ref: string, s: int :: s in Queued(d, ref) <==> (ref, s) in AllPlaces(d))
  }

  /** While a flyout is open it offers the present controllers and only free slots. */
  ghost predicate FlyoutOk(d: Dialog) {
    d.flyout.Some? ==>
      && d.combos.refs == Refs(d.controllers)
      && forall s | s in d.combos.slots :: s in FreeSlots(d, PickedRef(d.combos))
  }

  ghost predicate ButtonsOk(d: Dialog) {
    forall ref | ref in d.removable :: Queued(d, ref) == {}
  }

  ghost predicate Inv(d: Dialog) {
    RefsOk(d.controllers) && PlacesOk(d) && FlyoutOk(d) && ButtonsOk(d)
  }

  lemma {:induction false} PlacesConcat(a: seq<Pending>, b: seq<Pending>)
    ensures Places(a + b) == Places(a) + Places(b)
  {
    if a == [] {
      assert a + b == b;
    } else {
      assert (a + b)[1..] == a[1..] + b;
      PlacesConcat(a[1..], b);
      var first := if a[0].slot >= 0 then [(a[0].ref, a[0].slot)] else [];
      assert first + (Places(a[1..]) + Places(b)) == first + Places(a[1..]) + Places(b);
    }
  }

  lemma Counted(d: Dialog)
    ensures multiset(AllPlaces(d))
         == multiset(Places(d.attaches)) + multiset(Places(d.creates)) + multiset(Places(d.dvds))
            + multiset(Places(d.physicals))
  {}

  /** One more queued device is one more place, if it names a slot. */
  lemma PushPlaces(d: Dialog, kind: Kind, p: Pending)
    ensures multiset(AllPlaces(Push(d, kind, p))) == multiset(AllPlaces(d)) + multiset(Places([p]))
  {
    hide Places, AllPlaces;
    Counted(d);
    Counted(Push(d, kind, p));
    match kind
    case Attach => PlacesConcat(d.attaches, [p]);
    case Create => PlacesConcat(d.creates, [p]);
    case Dvd => PlacesConcat(d.dvds, [p]);
    case Physical => PlacesConcat(d.physicals, [p]);
  }

  lemma OnePlace(p: Pending)
    ensures Places([p]) == if p.slot >= 0 then [(p.ref, p.slot)] else []
  {
    assert [p][1..] == [];
  }

  lemma {:induction false} NoDupCount<T>(s: seq<T>)
    ensures NoDup(s) <==> forall x | x in s :: multiset(s)[x] == 1
  {
    if s != [] {
      var t := s[1..];
      NoDupCount(t);
      assert s == [s[0]] + t;
      assert multiset(s) == multiset{s[0]} + multiset(t);
      if s[0] in t {
        assert multiset(t)[s[0]] >= 1;
        var j :| 0 <= j < |t| && t[j] == s[0];
        assert s[j + 1] == s[0];
        assert s[0] in s && multiset(s)[s[0]] >= 2;
      } else {
        assert NoDup(s) <==> NoDup(t);
        assert forall x | x in t :: multiset(s)[x] == multiset(t)[x];
        assert multiset(t)[s[0]] == 0;
      }
    }
  }

  lemma PlacesMore(s: seq<Place>, r: seq<Place>, p: Place)
    requires multiset(r) == multiset(s) + multiset{p} && NoDup(s) && p !in s
    ensures NoDup(r) && forall x :: x in r <==> x in s || x == p
  {
    NoDupCount(s);
    NoDupCount(r);
    assert forall x :: x in s <==> x in multiset(s);
    assert forall x :: x in r <==> x in multiset(r);
  }

  lemma SameMultiset(s: seq<Place>, r: seq<Place>)
    requires multiset(r) == multiset(s) && NoDup(s)
    ensures NoDup(r) && forall x :: x in r <==> x in s
  {
    NoDupCount(s);
    NoDupCount(r);
    assert forall x :: x in s <==> x in multiset(s);
    assert forall x :: x in r <==> x in multiset(r);
  }

  // ---- the actions keep it ---------------------------------------------------

  lemma RegateInv(d: Dialog)
    requires RefsOk(d.controllers) && PlacesOk(d) && FlyoutOk(d)
    ensures Inv(Regate(d))
  {
    var d' := Regate(d);
    assert AllPlaces(d') == AllPlaces(d);
    assert forall ref :: Queued(d', ref) == Queued(d, ref);
    assert forall ref :: FreeSlots(d', ref) == FreeSlots(d, ref);
  }

  /** The parts the flyout does not touch. */
  predicate SameCore(d: Dialog, d': Dialog) {
    && d'.controllers == d.controllers && d'.queued == d.queued && d'.removable == d.removable
    && d'.attaches == d.attaches && d'.creates == d.creates && d'.dvds == d.dvds && d'.physicals == d.physicals
  }

  lemma SameCoreInv(d: Dialog, d': Dialog)
    requires Inv(d) && SameCore(d, d') && FlyoutOk(d')
    ensures Inv(d')
  {
    hide FlyoutOk;
    assert AllPlaces(d') == AllPlaces(d);
    assert forall ref :: Queued(d', ref) == Queued(d, ref);
  }

  lemma OpenInv(d: Dialog, kind: Kind)
    requires Inv(d)
    ensures Inv(OpenFlyout(d, kind))
  {
    hide PlacesOk, ButtonsOk, RefsOk, FindController, FreeFrom;
    SameCoreInv(d, OpenFlyout(d, kind));
  }

  lemma PickInv(d: Dialog, i: int)
    requires Inv(d)
    ensures Inv(PickController(d, i)) && Inv(PickSlot(d, i))
  {
    hide PlacesOk, ButtonsOk, RefsOk, FindController, FreeFrom;
    SameCoreInv(d, PickController(d, i));
    SameCoreInv(d, PickSlot(d, i));
  }

  lemma DismissInv(d: Dialog)
    requires Inv(d)
    ensures Inv(Dismiss(d))
  {
    SameCoreInv(d, Dismiss(d));
  }

  lemma QueueInv(d: Dialog, what: string)
    requires Inv(d)
    ensures Inv(QueueDevice(d, what))
  {
    hide Inv, Push, Consume, PickedRef, PickedSlot;
    DismissInv(d);
    if d.flyout.Some? {
      PlaceInv(d, Pending(what, PickedRef(d.combos), PickedSlot(d.combos)));
    }
  }

  /** The queues after the push, and what else is as it was. */
  predicate Pushed(d: Dialog, d1: Dialog) {
    d1.controllers == d.controllers && d1.queued == d.queued && d1.removable == d.removable && d1.flyout.None?
  }

  lemma PushedCount(d: Dialog, kind: Kind, p: Pending)
    ensures var d1 := Push(Dismiss(d), kind, p);
            && Pushed(d, d1)
            && multiset(AllPlaces(d1)) == multiset(AllPlaces(d)) + if p.slot >= 0 then multiset{(p.ref,
                                                                                                 p.slot)} else multiset{}
  {
    assert AllPlaces(Dismiss(d)) == AllPlaces(d);
    PushPlaces(Dismiss(d), kind, p);
    OnePlace(p);
    hide AllPlaces, Places;
  }

  lemma PlaceInv(d: Dialog, p: Pending)
    requires Inv(d) && d.flyout.Some? && p.ref == PickedRef(d.combos) && p.slot == PickedSlot(d.combos)
    ensures Inv(Consume(Push(Dismiss(d), d.flyout.value, p), p.ref, p.slot))
  {
    hide AllPlaces, Inv, Places, PickedRef, PickedSlot, Push, Regate;
    PushedCount(d, d.flyout.value, p);
    if p.slot < 0 {
      UnplacedInv(d, Push(Dismiss(d), d.flyout.value, p));
    } else {
      QueuedPlace(d, Push(Dismiss(d), d.flyout.value, p), p);
    }
  }

  lemma UnplacedInv(d: Dialog, d1: Dialog)
    requires Inv(d) && d1.controllers == d.controllers && d1.queued == d.queued
             && d1.removable == d.removable && d1.flyout.None?
    requires multiset(AllPlaces(d1)) == multiset(AllPlaces(d))
    ensures Inv(d1)
  {
    SameMultiset(AllPlaces(d), AllPlaces(d1));
    assert forall ref :: Queued(d1, ref) == Queued(d, ref);
    hide AllPlaces;
  }

  /** A picked slot is on a real controller, vacant, and in no queued place. */
  lemma PickedIsFree(d: Dialog)
    requires Inv(d) && d.flyout.Some? && PickedSlot(d.combos) >= 0
    ensures var ref, slot := PickedRef(d.combos), PickedSlot(d.combos);
            ref != "" && Vacant(d.controllers, (ref, slot)) && (ref, slot) !in AllPlaces(d)
  {
    var ref, slot := PickedRef(d.combos), PickedSlot(d.combos);
    assert slot in d.combos.slots && slot in FreeSlots(d, ref);
    FreeSlotsVacant(d, ref, slot);
    assert slot !in Queued(d, ref);
  }

  lemma QueuedPlace(d: Dialog, d1: Dialog, p: Pending)
    requires Inv(d) && d.flyout.Some? && p.ref == PickedRef(d.combos) && p.slot == PickedSlot(d.combos) && p.slot >= 0
    requires d1.controllers == d.controllers && d1.queued == d.queued && d1.flyout.None?
    requires multiset(AllPlaces(d1)) == multiset(AllPlaces(d)) + multiset{(p.ref, p.slot)}
    ensures p.ref != "" && Inv(Consume(d1, p.ref, p.slot))
  {
    PickedIsFree(d);
    assert NoDup(AllPlaces(d));
    hide Inv, AllPlaces, PickedRef, PickedSlot, Consume, Vacant;
    PlacesMore(AllPlaces(d), AllPlaces(d1), (p.ref, p.slot));
    PlacedInv(d, d1, p);
  }

  lemma PlacedInv(d: Dialog, d1: Dialog, p: Pending)
    requires Inv(d) && p.slot >= 0 && p.ref != "" && Vacant(d.controllers, (p.ref, p.slot))
    requires d1.controllers == d.controllers && d1.queued == d.queued && d1.flyout.None?
    requires NoDup(AllPlaces(d1)) && forall x :: x in AllPlaces(d1) <==> x in AllPlaces(d) || x == (p.ref, p.slot)
    ensures Inv(Consume(d1, p.ref, p.slot))
  {
    var d2 := d1.(queued := d1.queued[p.ref := Queued(d1, p.ref) + {p.slot}]);
    assert AllPlaces(d2) == AllPlaces(d1);
    forall ref: string, s: int ensures s in Queued(d2, ref) <==> (ref, s) in AllPlaces(d2) {
      assert s in Queued(d2, ref) <==> s in Queued(d, ref) || (ref == p.ref && s == p.slot);
    }
    RegateInv(d2);
  }

  lemma {:induction false} FindAppend(cs: seq<Controller>, c: Controller, ref: string)
    ensures FindController(cs + [c], ref)
         == if FindController(cs, ref).Some? then FindController(cs, ref) else if c.ref == ref then Some(c) else None
  {
    if cs == [] {
      assert cs + [c] == [c];
    } else {
      assert (cs + [c])[1..] == cs[1..] + [c];
      FindAppend(cs[1..], c, ref);
    }
  }

  /** A new controller's ref is new. */
  lemma AddInv(d: Dialog, ref: string, maxSlots: nat)
    requires Inv(d) && ref != "" && ref !in Refs(d.controllers)
    ensures Inv(AddController(d, ref, maxSlots))
  {
    var c := Controller(ref, true, maxSlots, {});
    var d1 := Dismiss(d).(controllers := d.controllers + [c]);
    assert Refs(d1.controllers) == Refs(d.controllers) + [ref];
    assert AllPlaces(d1) == AllPlaces(d);
    forall p | p in AllPlaces(d1) ensures Vacant(d1.controllers, p) {
      FindAppend(d.controllers, c, p.0);
    }
    assert forall r :: Queued(d1, r) == Queued(d, r);
    RegateInv(d1);
  }

  lemma {:induction false} FindDropped(cs: seq<Controller>, ref: string, r: string)
    requires r != ref
    ensures FindController(Dropped(cs, ref), r) == FindController(cs, r)
  {
    if cs != [] {
      FindDropped(cs[1..], ref, r);
      var rest := Dropped(cs[1..], ref);
      assert Dropped(cs, ref) == if cs[0].ref == ref then rest else [cs[0]] + rest;
    }
  }

  lemma {:induction false} DroppedRefs(cs: seq<Controller>, ref: string)
    requires RefsOk(cs)
    ensures RefsOk(Dropped(cs, ref))
    ensures forall r :: r in Refs(Dropped(cs, ref)) <==> r in Refs(cs) && r != ref
  {
    if cs != [] {
      assert Refs(cs) == [cs[0].ref] + Refs(cs[1..]);
      assert cs[0].ref !in Refs(cs[1..]) by { assert Refs(cs)[0] == cs[0].ref; assert Refs(cs[1..]) == Refs(cs)[1..]; }
      assert NoDup(Refs(cs[1..])) by { assert Refs(cs[1..]) == Refs(cs)[1..]; }
      DroppedRefs(cs[1..], ref);
      var rest := Dropped(cs[1..], ref);
      assert Refs([cs[0]] + rest) == [cs[0].ref] + Refs(rest);
      assert Dropped(cs, ref) == if cs[0].ref == ref then rest else [cs[0]] + rest;
    }
  }

  /** An enabled Remove button means nothing queued there, so nothing is orphaned. */
  lemma RemoveInv(d: Dialog, ref: string, ok: bool)
    requires Inv(d)
    ensures Inv(RemoveController(d, ref, ok))
  {
    DismissInv(d);
    if ref in d.removable && ok {
      var d1 := Dismiss(d).(queued := d.queued - {ref}, controllers := Dropped(d.controllers, ref));
      DroppedRefs(d.controllers, ref);
      assert AllPlaces(d1) == AllPlaces(d);
      assert forall r :: Queued(d1, r) == Queued(d, r);
      forall p | p in AllPlaces(d1) ensures Vacant(d1.controllers, p) {
        assert p.1 in Queued(d, p.0);
        FindDropped(d.controllers, ref, p.0);
      }
      RegateInv(d1);
    }
  }

  lemma StateInv(d: Dialog, off: bool)
    requires Inv(d)
    ensures Inv(VmState(d, off))
  {
    var d1 := d.(off := off);
    assert AllPlaces(d1) == AllPlaces(d);
    assert forall r :: Queued(d1, r) == Queued(d, r) && FreeSlots(d1, r) == FreeSlots(d, r);
    RegateInv(d1);
  }

  lemma OpenedInv(controllers: seq<Controller>, off: bool)
    requires RefsOk(controllers)
    ensures Inv(Opened(controllers, off))
  {
    var d := Dialog(controllers, map[], [], [], [], [], None, Combos([], -1, [], -1), {}, off);
    assert AllPlaces(d) == [];
    RegateInv(d);
  }

  /** What the host guarantees: a new controller's ref is none of the old ones. */
  predicate Sane(d: Dialog, a: Action) {
    a.Add? ==> a.ref != "" && a.ref !in Refs(d.controllers)
  }

  lemma DoInv(d: Dialog, a: Action)
    requires Inv(d) && Sane(d, a)
    ensures Inv(Do(d, a))
  {
    hide Inv;
    match a
    case Open(kind) => OpenInv(d, kind);
    case Pick(i) => PickInv(d, i);
    case Slot(i) => PickInv(d, i);
    case Close => DismissInv(d);
    case Queue(what) => QueueInv(d, what);
    case Add(ref, maxSlots) => AddInv(d, ref, maxSlots);
    case Remove(ref, ok) => RemoveInv(d, ref, ok);
    case State(off) => StateInv(d, off);
  }

  function Run(d: Dialog, actions: seq<Action>): Dialog
    decreases |actions|
  {
    if actions == [] then d else Run(if Sane(d, actions[0]) then Do(d, actions[0]) else d, actions[1..])
  }

  /** Over every run: queued places are pairwise distinct, real, not used by the VM, exactly
      those the dialog counts as taken, and never on a removed controller. */
  lemma {:induction false} RunInv(d: Dialog, actions: seq<Action>)
    requires Inv(d)
    ensures Inv(Run(d, actions))
    decreases |actions|
  {
    hide Inv, Do, Sane;
    if actions != [] {
      if Sane(d, actions[0]) {
        DoInv(d, actions[0]);
        RunInv(Do(d, actions[0]), actions[1..]);
      } else {
        RunInv(d, actions[1..]);
      }
    }
  }

  /** A device can be queued on a slot if and only if the slot is free. */
  lemma OfferedExactly(d: Dialog, ref: string, s: int)
    requires Inv(d)
    ensures s in FreeSlots(d, ref) <==> Vacant(d.controllers, (ref, s)) && (ref, s) !in AllPlaces(d)
  {
    FreeSlotsVacant(d, ref, s);
    assert s in Queued(d, ref) <==> (ref, s) in AllPlaces(d);
  }

  /** Reading the controllers afresh is safe if and only if what is queued still fits. */
  lemma RebuildExactly(d: Dialog, controllers: seq<Controller>)
    requires Inv(d) && RefsOk(controllers) && d.flyout.None?
    ensures Inv(Rebuild(d, controllers)) <==> forall p | p in AllPlaces(d) :: Vacant(controllers, p)
  {
    var d1 := d.(controllers := controllers);
    assert AllPlaces(d1) == AllPlaces(d) == AllPlaces(Rebuild(d, controllers));
    assert forall r :: Queued(d1, r) == Queued(d, r);
    if forall p | p in AllPlaces(d) :: Vacant(controllers, p) { RegateInv(d1); }
  }

  // ---- what every action does, field by field --------------------------------------

  /** The device in hand when the button of the open flyout is pressed: what was picked, and
      what the two boxes show. A cancelled file or disk picker leaves none; a DVD drive needs
      no medium. */
  function InHand(d: Dialog, a: Action): Option<Pending> {
    if a.Queue? && d.flyout.Some? && (a.what != "" || d.flyout == Some(Dvd)) then
      Some(Pending(a.what,
                   if 0 <= d.combos.picked < |d.combos.refs| then d.combos.refs[d.combos.picked] else "",
                   if 0 <= d.combos.slotPicked < |d.combos.slots| then d.combos.slots[d.combos.slotPicked] else -1))
    else None
  }

  predicate Grows(before: seq<Pending>, after: seq<Pending>, p: Option<Pending>, mine: bool) {
    after == if p.Some? && mine then before + [p.value] else before
  }

  /** Each kind of flyout fills its own queue, at its end, and no other. */
  predicate QueueLaw(d: Dialog, a: Action, d': Dialog) {
    var p := InHand(d, a);
    && Grows(d.attaches, d'.attaches, p, d.flyout == Some(Attach))
    && Grows(d.creates, d'.creates, p, d.flyout == Some(Create))
    && Grows(d.dvds, d'.dvds, p, d.flyout == Some(Dvd))
    && Grows(d.physicals, d'.physicals, p, d.flyout == Some(Physical))
  }

  /** A queued device with a place takes its slot. */
  predicate Takes(d: Dialog, a: Action) {
    InHand(d, a).Some? && InHand(d, a).value.ref != "" && InHand(d, a).value.slot >= 0
  }

  predicate Removes(d: Dialog, a: Action) {
    a.Remove? && a.ok && a.ref in d.removable
  }

  ghost predicate TakenLaw(d: Dialog, a: Action, d': Dialog) {
    && (forall ref: string, s: int :: s in Queued(d', ref) <==>
                                      || (s in Queued(d, ref) && !(Removes(d, a) && a.ref == ref))
                                      || (Takes(d, a) && InHand(d, a).value.ref == ref && InHand(d, a).value.slot == s))
    && d'.off == (if a.State? then a.off else d.off)
  }

  predicate Keeps(cs: seq<Controller>, ref: string, left: seq<Controller>) {
    if cs == [] then left == []
    else if cs[0].ref == ref then Keeps(cs[1..], ref, left)
    else left != [] && left[0] == cs[0] && Keeps(cs[1..], ref, left[1..])
  }

  /** One more controller, empty and last; or all but the removed one, in order. */
  predicate ControllerLaw(d: Dialog, a: Action, d': Dialog) {
    if a.Add? then d'.controllers == d.controllers + [Controller(a.ref, true, a.maxSlots, {})]
    else if Removes(d, a) then Keeps(d.controllers, a.ref, d'.controllers)
    else d'.controllers == d.controllers
  }

  /** The Remove buttons: re-gated, after any change to what they depend on, to the empty SCSI
      controllers without a queued slot of a VM that is off. */
  ghost predicate ButtonLaw(d: Dialog, a: Action, d': Dialog) {
    if Takes(d, a) || a.Add? || Removes(d, a) || a.State? then
      forall ref :: ref in d'.removable <==>
                    exists c :: c in d'.controllers && c.ref == ref && c.scsi && c.usedSlots == {} && d'.off
                                && Queued(d', ref) == {}
    else d'.removable == d.removable
  }

  ghost predicate Rising(s: seq<int>) {
    forall i, j | 0 <= i < j < |s| :: s[i] < s[j]
  }

  /** The slot box lists the free slots of the controller shown, lowest first, and shows the
      first of them. */
  ghost predicate SlotBox(d: Dialog, c: Combos) {
    var ref := if 0 <= c.picked < |c.refs| then c.refs[c.picked] else "";
    && Rising(c.slots)
    && (forall s :: s in c.slots <==> Vacant(d.controllers, (ref, s)) && s !in Queued(d, ref))
    && c.slotPicked == (if c.slots == [] then -1 else 0)
  }

  /** The flyout and its two boxes. */
  ghost predicate FlyoutLaw(d: Dialog, a: Action, d': Dialog) {
    && d'.flyout == (if a.Open? then Some(a.kind)
                     else if a.Close? || a.Queue? || a.Add? || a.Remove? then None else d.flyout)
    && if a.Open? then
         && |d'.combos.refs| == |d.controllers|
         && (forall i | 0 <= i < |d.controllers| :: d'.combos.refs[i] == d.controllers[i].ref)
         && d'.combos.picked == (if d.controllers == [] then -1 else 0) && SlotBox(d, d'.combos)
       else if a.Pick? && d.flyout.Some? && -1 <= a.index < |d.combos.refs| then
         d'.combos.refs == d.combos.refs && d'.combos.picked == a.index && SlotBox(d, d'.combos)
       else if a.Slot? && d.flyout.Some? && -1 <= a.index < |d.combos.slots| then
         d'.combos == d.combos.(slotPicked := a.index)
       else d'.combos == d.combos
  }

  ghost predicate DoLaw(d: Dialog, a: Action, d': Dialog) {
    && QueueLaw(d, a, d') && TakenLaw(d, a, d') && ControllerLaw(d, a, d') && ButtonLaw(d, a, d')
    && FlyoutLaw(d, a, d')
  }

  lemma {:induction false} FreeRising(slot: nat, max: nat, taken: set<int>)
    ensures Rising(FreeFrom(slot, max, taken))
    decreases max - slot
  {
    if slot < max {
      FreeRising(slot + 1, max, taken);
      FreeMembers(slot + 1, max, taken);
      var rest := FreeFrom(slot + 1, max, taken);
      assert forall i | 0 <= i < |rest| :: rest[i] in rest;
    }
  }

  lemma RefreshedBox(d: Dialog)
    ensures SlotBox(d, RefreshSlots(d).combos)
  {
    var ref := PickedRef(d.combos);
    forall s ensures s in FreeSlots(d, ref) <==> Vacant(d.controllers, (ref, s)) && s !in Queued(d, ref) {
      FreeSlotsVacant(d, ref, s);
    }
    var c := FindController(d.controllers, ref);
    if c.Some? { FreeRising(0, c.value.maxSlots, c.value.usedSlots + Queued(d, ref)); }
    hide FreeSlots, Vacant, Queued;
  }

  lemma {:induction false} DroppedKeeps(cs: seq<Controller>, ref: string)
    ensures Keeps(cs, ref, Dropped(cs, ref))
  {
    if cs != [] {
      DroppedKeeps(cs[1..], ref);
      assert cs[0].ref != ref ==> Dropped(cs, ref)[1..] == Dropped(cs[1..], ref);
      assert cs[0].ref == ref ==> Dropped(cs, ref) == Dropped(cs[1..], ref);
    }
  }

  lemma OpenLaw(d: Dialog, kind: Kind)
    ensures DoLaw(d, Open(kind), OpenFlyout(d, kind))
  {
    var selected := if Refs(d.controllers) == [] then -1 else 0;
    RefreshedBox(d.(flyout := Some(kind), combos := Combos(Refs(d.controllers), selected, [], -1)));
    hide FreeSlots, Vacant;
  }

  lemma PickLaw(d: Dialog, i: int)
    ensures DoLaw(d, Pick(i), PickController(d, i)) && DoLaw(d, Slot(i), PickSlot(d, i)) && DoLaw(d, Close, Dismiss(d))
  {
    RefreshedBox(d.(combos := d.combos.(picked := i)));
    hide FreeSlots, Vacant;
  }

  lemma QueueQueues(d: Dialog, what: string)
    ensures QueueLaw(d, Queue(what), QueueDevice(d, what))
    ensures FlyoutLaw(d, Queue(what), QueueDevice(d, what))
  {
    hide SlotBox;
  }

  /** What the button's handler hands to the rest. */
  lemma QueueIs(d: Dialog, what: string)
    ensures var d', p := QueueDevice(d, what), InHand(d, Queue(what));
            d' == if p.None? then Dismiss(d)
            else Consume(Push(Dismiss(d), d.flyout.value, p.value), p.value.ref, p.value.slot)
  {
    hide Consume, Push;
  }

  lemma QueueTakes(d: Dialog, what: string)
    ensures TakenLaw(d, Queue(what), QueueDevice(d, what)) && ButtonLaw(d, Queue(what), QueueDevice(d, what))
    ensures ControllerLaw(d, Queue(what), QueueDevice(d, what))
  {
    QueueIs(d, what);
    var p := InHand(d, Queue(what));
    assert p.Some? ==> d.flyout.Some?;
    hide QueueDevice, InHand;
    if p.Some? { ConsumeTakes(d, Queue(what), Push(Dismiss(d), d.flyout.value, p.value)); }
  }

  lemma ConsumeTakes(d: Dialog, a: Action, d1: Dialog)
    requires a.Queue? && InHand(d, a).Some?
    requires d1.controllers == d.controllers && d1.queued == d.queued && d1.removable == d.removable && d1.off == d.off
    ensures var d' := Consume(d1, InHand(d, a).value.ref, InHand(d, a).value.slot);
            TakenLaw(d, a, d') && ButtonLaw(d, a, d') && ControllerLaw(d, a, d')
  {
    hide InHand;
  }

  lemma QueueActionLaw(d: Dialog, what: string)
    ensures DoLaw(d, Queue(what), QueueDevice(d, what))
  {
    hide QueueDevice, QueueLaw, TakenLaw, ButtonLaw, FlyoutLaw, ControllerLaw;
    QueueQueues(d, what);
    QueueTakes(d, what);
  }

  lemma ControllerActionLaw(d: Dialog, ref: string, maxSlots: nat, ok: bool)
    ensures DoLaw(d, Add(ref, maxSlots), AddController(d, ref, maxSlots))
    ensures DoLaw(d, Action.Remove(ref, ok), RemoveController(d, ref, ok))
  {
    DroppedKeeps(d.controllers, ref);
    hide Dropped, Keeps;
  }

  lemma StateLaw(d: Dialog, off: bool)
    ensures DoLaw(d, State(off), VmState(d, off))
  {}

  /** What every action leaves: queues, slots taken, controllers, buttons, flyout and boxes. */
  lemma DoExactly(d: Dialog, a: Action)
    ensures DoLaw(d, a, Do(d, a))
  {
    hide DoLaw, OpenFlyout, PickController, PickSlot, QueueDevice, AddController, RemoveController, VmState;
    match a
    case Open(kind) => OpenLaw(d, kind);
    case Pick(i) => PickLaw(d, i);
    case Slot(i) => PickLaw(d, i);
    case Close => PickLaw(d, 0);
    case Queue(what) => QueueActionLaw(d, what);
    case Add(ref, maxSlots) => ControllerActionLaw(d, ref, maxSlots, false);
    case Remove(ref, ok) => ControllerActionLaw(d, ref, 0, ok);
    case State(off) => StateLaw(d, off);
  }

  /** The dialog as it opens: nothing queued, no flyout, and the buttons gated. */
  lemma OpenedExactly(controllers: seq<Controller>, off: bool)
    ensures var d := Opened(controllers, off);
            && d.controllers == controllers && d.off == off && d.flyout.None? && d.queued == map[]
            && d.attaches == [] && d.creates == [] && d.dvds == [] && d.physicals == []
            && forall ref :: ref in d.removable <==>
                             exists c :: c in controllers && c.ref == ref && c.scsi && c.usedSlots == {} && off
  {}
}
