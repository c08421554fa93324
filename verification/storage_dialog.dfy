/** The storage part of the settings dialog as an object: its methods fill combo boxes, mark
    slots and gate buttons in loops, and do what the functions of `StorageSlots` say. */
module StorageDialogs {
  import opened Wrappers
  import opened StorageSlots

  class StorageDialog {
    var controllers: seq<Controller>
    var queued: map<string, set<int>>
    var attaches: seq<Pending>
    var creates: seq<Pending>
    var dvds: seq<Pending>
    var physicals: seq<Pending>
    var flyout: Option<Kind>
    var combos: Combos
    var removable: set<string>
    var off: bool

    ghost function Now(): Dialog
      reads this
    {
      Dialog(controllers, queued, attaches, creates, dvds, physicals, flyout, combos, removable, off)
    }

    constructor (controllers: seq<Controller>, off: bool)
      requires RefsOk(controllers)
      ensures Now() == Opened(controllers, off) && Inv(Now())
    {
      this.controllers, queued, this.off, flyout := controllers, map[], off, None;
      attaches, creates, dvds, physicals := [], [], [], [];
      combos, removable := Combos([], -1, [], -1), {};
      new;
      UpdateControllerRemoveButtons();
      OpenedInv(controllers, off);
    }

    method UpdateControllerRemoveButtons()
      modifies this`removable
      ensures Now() == Regate(old(Now()))
    {
      removable := {};
      var i := 0;
      while i < |controllers|
        invariant 0 <= i <= |controllers|
        invariant removable == set c | c in controllers[..i] && c.scsi && off && c.usedSlots == {}
                                       && Queued(old(Now()), c.ref) == {} :: c.ref
      {
        var c := controllers[i];
        var noQueued := c.ref !in queued || queued[c.ref] == {};
        if c.scsi && off && c.usedSlots == {} && noQueued {
          removable := removable + {c.ref};
        }
        assert controllers[..i + 1] == controllers[..i] + [c];
        i := i + 1;
      }
      assert controllers[..i] == controllers;
    }

    static method Untaken(maxSlots: nat, taken: set<int>) returns (slots: seq<int>)
      ensures slots == FreeFrom(0, maxSlots, taken)
    {
      slots := [];
      var s := 0;
      while s < maxSlots
        invariant 0 <= s <= maxSlots
        invariant FreeFrom(0, maxSlots, taken) == slots + FreeFrom(s, maxSlots, taken)
      {
        if s !in taken { slots := slots + [s]; }
        s := s + 1;
      }
    }

    method RefreshSlotFor()
      modifies this`combos
      ensures Now() == RefreshSlots(old(Now()))
    {
      hide FreeFrom;
      var ref := PickedRef(combos);
      var found := FindController(controllers, ref);
      var slots: seq<int> := [];
      if found.Some? {
        var c := found.value;
        slots := Untaken(c.maxSlots, c.usedSlots + if ref in queued then queued[ref] else {});
      }
      combos := combos.(slots := slots, slotPicked := if |slots| != 0 then 0 else -1);
    }

    method ControllerItems() returns (refs: seq<string>)
      ensures refs == Refs(controllers)
    {
      refs := [];
      var i := 0;
      while i < |controllers|
        invariant 0 <= i <= |controllers| && refs == Refs(controllers)[..i]
      {
        refs := refs + [controllers[i].ref];
        i := i + 1;
      }
      assert refs == Refs(controllers);
    }

    /** Fills the flyout that opens. */
    method PopulatePlacement(kind: Kind)
      requires Inv(Now())
      modifies this`flyout, this`combos
      ensures Now() == OpenFlyout(old(Now()), kind) && Inv(Now())
    {
      hide Inv, RefreshSlots;
      OpenInv(Now(), kind);
      var refs := ControllerItems();
      flyout := Some(kind);
      combos := Combos(refs, if |controllers| == 0 then -1 else 0, [], -1);
      RefreshSlotFor();
    }

    method OnPlacementControllerChanged(i: int)
      requires Inv(Now())
      modifies this`combos
      ensures Now() == PickController(old(Now()), i) && Inv(Now())
    {
      PickInv(Now(), i);
      if flyout.None? || !(-1 <= i < |combos.refs|) { return; }
      combos := combos.(picked := i);
      RefreshSlotFor();
    }

    method ConsumeQueuedSlot(ref: string, slot: int)
      modifies this`queued, this`removable
      ensures Now() == Consume(old(Now()), ref, slot)
    {
      if ref == "" || slot < 0 { return; }
      queued := queued[ref := (if ref in queued then queued[ref] else {}) + {slot}];
      UpdateControllerRemoveButtons();
    }

    /** The four queueing handlers: they differ in the list that grows. */
    method OnQueue(what: string)
      requires Inv(Now())
      modifies this
      ensures Now() == QueueDevice(old(Now()), what) && Inv(Now())
      ensures QueueLaw(old(Now()), Queue(what), Now())
    {
      DoExactly(Now(), Queue(what));
      hide QueueLaw;
      QueueInv(Now(), what);
      hide Inv, PickedRef, PickedSlot, Consume, Push;
      if flyout.None? { return; }
      var kind, p := flyout.value, Pending(what, PickedRef(combos), PickedSlot(combos));
      flyout := None;
      if what == "" && kind != Dvd { return; }
      Append(kind, p);
      ConsumeQueuedSlot(p.ref, p.slot);
    }

    /** The list of the flyout takes the device. */
    method Append(kind: Kind, p: Pending)
      modifies this
      ensures Now() == Push(old(Now()), kind, p)
    {
      match kind
      case Attach => attaches := attaches + [p];
      case Create => creates := creates + [p];
      case Dvd => dvds := dvds + [p];
      case Physical => physicals := physicals + [p];
    }

    /** The controller was added: the host now lists one more, with ref `ref`. */
    method OnStorageAddScsiController(ref: string, maxSlots: nat)
      requires Inv(Now()) && ref != "" && ref !in Refs(controllers)
      modifies this
      ensures Now() == AddController(old(Now()), ref, maxSlots) && Inv(Now())
    {
      AddInv(Now(), ref, maxSlots);
      hide Inv;
      flyout := None;
      controllers := controllers + [Controller(ref, true, maxSlots, {})];
      UpdateControllerRemoveButtons();
    }

    method RemoveScsiControllerByRef(ref: string, ok: bool)
      requires Inv(Now())
      modifies this
      ensures Now() == RemoveController(old(Now()), ref, ok) && Inv(Now())
    {
      ghost var d := Now();
      hide Inv, Regate, Dropped;
      RemoveInv(d, ref, ok);
      flyout := None;
      if ref !in removable || !ok { return; }
      queued := queued - {ref};
      controllers := Dropped(controllers, ref);
      assert Now() == Dismiss(d).(queued := d.queued - {ref}, controllers := Dropped(d.controllers, ref));
      UpdateControllerRemoveButtons();
    }
  }
}
