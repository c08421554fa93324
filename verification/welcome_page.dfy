/** The welcome page's table as objects: a row element lives as long as its row, so that an
    open menu and a blinking dot survive a poll (src/app/WelcomePage.xaml.cpp). */
module WelcomePages {
  import opened Strips
  import opened WelcomeTable
  import Text

  /** One rendered row: only its cells change. */
  class RowElement {
    const guid: string
    const name: string
    var cells: Cells

    constructor (v: Vm)
      ensures guid == v.guid && name == v.name && cells == CellsOf(v)
    {
      guid, name, cells := v.guid, v.name, CellsOf(v);
    }
  }

  class WelcomePage {
    var rows: seq<RowElement>
    var selectedGuid: string
    var filter: string
    var key: SortKey
    var ascending: bool

    ghost function RowsNow(): (r: seq<Row>)
      reads this, rows
      ensures |r| == |rows| && forall i | 0 <= i < |r| :: r[i] == Row(rows[i].guid, rows[i].name, rows[i].cells)
    {
      seq(|rows|, i requires 0 <= i < |rows| reads this, rows => Row(rows[i].guid, rows[i].name, rows[i].cells))
    }

    ghost function Now(): Table
      reads this, rows
    {
      Table(RowsNow(), selectedGuid, filter, key, ascending)
    }

    ghost predicate Valid()
      reads this, rows
    {
      NoDup(rows) && SelectionShown(Now())
    }

    constructor ()
      ensures Valid() && Now() == Table([], "", "", ByName, true)
    {
      rows, selectedGuid, filter, key, ascending := [], "", "", ByName, true;
    }

    method SameStructureAs(visible: seq<Vm>) returns (same: bool)
      ensures same == SameStructure(RowsNow(), visible)
    {
      if |rows| == 0 || |visible| != |rows| { return false; }
      var i := 0;
      while i < |rows|
        invariant 0 <= i <= |rows|
        invariant forall j | 0 <= j < i ::
                    Text.SameFold(visible[j].guid, rows[j].guid) && Text.SameFold(visible[j].name, rows[j].name)
      {
        if !Text.SameFold(visible[i].guid, rows[i].guid) || !Text.SameFold(visible[i].name, rows[i].name) {
          assert !(Text.SameFold(visible[i].guid, RowsNow()[i].guid)
                   && Text.SameFold(visible[i].name, RowsNow()[i].name));
          return false;
        }
        i := i + 1;
      }
      return true;
    }

    /** The fast path: every element stays and gets its new cells. */
    method UpdateRows(visible: seq<Vm>)
      requires NoDup(rows) && |visible| == |rows|
      modifies rows
      ensures RowsNow() == Refreshed(old(RowsNow()), visible)
    {
      var i := 0;
      while i < |rows|
        invariant 0 <= i <= |rows|
        invariant forall j | 0 <= j < i :: rows[j].cells == CellsOf(visible[j])
        invariant forall j | i <= j < |rows| :: rows[j].cells == old(rows[j].cells)
      {
        rows[i].cells := CellsOf(visible[i]);
        i := i + 1;
      }
    }

    static method BuildElements(visible: seq<Vm>) returns (built: seq<RowElement>)
      ensures |built| == |visible| && NoDup(built)
      ensures forall i | 0 <= i < |built| ::
                fresh(built[i]) && built[i].guid == visible[i].guid && built[i].name == visible[i].name
                && built[i].cells == CellsOf(visible[i])
    {
      built := [];
      var i := 0;
      while i < |visible|
        invariant 0 <= i <= |visible| && |built| == i && NoDup(built)
        invariant forall j | 0 <= j < i ::
                    fresh(built[j]) && built[j].guid == visible[j].guid && built[j].name == visible[j].name
                    && built[j].cells == CellsOf(visible[j])
      {
        var row := new RowElement(visible[i]);
        built := built + [row];
        i := i + 1;
      }
    }

    /** The slow path: new elements, in order, and a selection that shows. */
    method RebuildRows(visible: seq<Vm>)
      modifies this`rows, this`selectedGuid
      ensures Now() == Rebuild(old(Now()), visible) && NoDup(rows)
      ensures forall i | 0 <= i < |rows| :: fresh(rows[i])
    {
      ghost var before := Now();
      rows := BuildElements(visible);
      assert RowsNow() == BuiltAll(visible);
      hide IndexOf, NoDup;
      if selectedGuid != "" {
        var at := FindRow(selectedGuid);
        if at < 0 { selectedGuid := ""; }
      }
      assert RowsNow() == BuiltAll(visible);
      assert Now() == Rebuild(before, visible);
    }

    method FindRow(guid: string) returns (at: int)
      ensures at == IndexOf(RowsNow(), guid)
    {
      at := 0;
      while at < |rows|
        invariant 0 <= at <= |rows|
        invariant forall j | 0 <= j < at :: !Text.SameFold(rows[j].guid, guid)
      {
        if Text.SameFold(rows[at].guid, guid) {
          assert Text.SameFold(RowsNow()[at].guid, guid);
          return;
        }
        at := at + 1;
      }
      return -1;
    }

    /** An unchanged structure keeps every row element, whatever its cells became. */
    method RenderAllVms(connected: bool, visible: seq<Vm>)
      requires Valid()
      modifies this`rows, this`selectedGuid, rows
      ensures Now() == Render(old(Now()), connected, visible) && Valid()
      ensures !connected || SameStructure(old(RowsNow()), visible) ==> rows == old(rows)
    {
      RenderSelection(Now(), connected, visible);
      if !connected { return; }
      var same := SameStructureAs(visible);
      if same {
        UpdateRows(visible);
      } else {
        RebuildRows(visible);
      }
    }

    method OnRowClicked(row: nat)
      requires Valid() && row < |rows|
      modifies this`selectedGuid
      ensures Now() == Handle(old(Now()), Clicked(row)) && Valid()
    {
      HandleSelection(Now(), Clicked(row));
      selectedGuid := rows[row].guid;
    }

    method OnArrow(down: bool)
      requires Valid()
      modifies this`selectedGuid
      ensures Now() == Arrow(old(Now()), down) && Valid()
    {
      hide SelectionShown, IndexOf;
      ArrowSelection(Now(), down);
      if |rows| == 0 { return; }
      var cur := FindRow(selectedGuid);
      var next := if cur < 0 then 0 else if down then Min(cur + 1, |rows| - 1) else Max(cur - 1, 0);
      selectedGuid := rows[next].guid;
      assert RowsNow() == old(RowsNow());
    }

    method OnEscape(connected: bool, visible: seq<Vm>)
      requires Valid()
      modifies this`rows, this`selectedGuid, this`filter, rows
      ensures Now() == Handle(old(Now()), Escape(connected, visible)) && Valid()
    {
      hide Render, IndexOf;
      if |rows| == 0 { return; }
      selectedGuid := "";
      assert RowsNow() == old(RowsNow());
      if filter != "" {
        filter := "";
        assert RowsNow() == old(RowsNow());
        RenderAllVms(connected, visible);
      }
    }

    method OnFilterChanged(text: string, connected: bool, visible: seq<Vm>)
      requires Valid()
      modifies this`rows, this`selectedGuid, this`filter, rows
      ensures Now() == Handle(old(Now()), FilterTyped(text, connected, visible)) && Valid()
    {
      hide Render, IndexOf;
      filter := text;
      assert RowsNow() == old(RowsNow());
      assert SelectionShown(Now());
      hide SelectionShown;
      RenderAllVms(connected, visible);
    }
  }

  lemma ArrowSelection(t: Table, down: bool)
    requires SelectionShown(t)
    ensures SelectionShown(Arrow(t, down))
  {
    HandleSelection(t, if down then Down else Up);
    hide SelectionShown, IndexOf;
  }
}
