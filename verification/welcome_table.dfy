/** The welcome page's VM table: its sort order, its two ways of redrawing and its selection
    (src/app/WelcomePage.xaml.cpp). */
module WelcomeTable {
  import opened Wrappers
  import Text

  /** A VM as the poll lists it; `stateLabel` is what StateLabel makes of its state. */
  datatype Vm = Vm(
    guid: string,
    name: string,
    statusText: string,
    stateLabel: string,
    cpu: int,
    memory: int,
    uptime: int)

  datatype SortKey = ByName | ByStatus | ByCpu | ByMemory | ByUptime

  // ---- the order -------------------------------------------------------------

  /** Text order, -1, 0 or 1. */
  function Compare(s: string, t: string): (r: int)
    ensures -1 <= r <= 1
  {
    if s == "" && t == "" then 0
    else if s == "" then -1
    else if t == "" then 1
    else if s[0] < t[0] then -1
    else if s[0] > t[0] then 1
    else Compare(s[1..], t[1..])
  }

  /** _wcsicmp. */
  function CompareFold(s: string, t: string): int {
    Compare(Text.Fold(s), Text.Fold(t))
  }

  function CompareInt(a: int, b: int): int {
    if a < b then -1 else if a > b then 1 else 0
  }

  function Status(v: Vm): string {
    if v.statusText == "" then v.stateLabel else v.statusText
  }

  function ThenByName(cmp: int, a: Vm, b: Vm): int {
    if cmp == 0 then CompareFold(a.name, b.name) else cmp
  }

  function CompareVm(key: SortKey, a: Vm, b: Vm): int {
    match key
    case ByName => CompareFold(a.name, b.name)
    case ByStatus => ThenByName(CompareFold(Status(a), Status(b)), a, b)
    case ByCpu => ThenByName(CompareInt(a.cpu, b.cpu), a, b)
    case ByMemory => ThenByName(CompareInt(a.memory, b.memory), a, b)
    case ByUptime => ThenByName(CompareInt(a.uptime, b.uptime), a, b)
  }

  /** What std::sort is given. */
  predicate Before(key: SortKey, ascending: bool, a: Vm, b: Vm) {
    if ascending then CompareVm(key, a, b) < 0 else CompareVm(key, a, b) > 0
  }

  lemma {:induction false} CompareFlips(s: string, t: string)
    ensures Compare(t, s) == -Compare(s, t)
  {
    if s != "" && t != "" && s[0] == t[0] { CompareFlips(s[1..], t[1..]); }
  }

  lemma {:induction false} CompareTrans(s: string, t: string, u: string)
    ensures Compare(s, t) <= 0 && Compare(t, u) <= 0 ==> Compare(s, u) <= 0
    ensures Compare(s, t) <= 0 && Compare(t, u) <= 0 && Compare(s, t) + Compare(t, u) < 0 ==> Compare(s, u) < 0
  {
    if s != "" && t != "" && u != "" && s[0] == t[0] == u[0] { CompareTrans(s[1..], t[1..], u[1..]); }
  }

  /** What the three comparisons among a, b and c, and b with a, must satisfy: flipping
      negates, and equal-sided steps compose, strictly if either is strict. */
  predicate Laws(ab: int, ba: int, bc: int, ac: int) {
    && ba == -ab
    && (ab <= 0 && bc <= 0 ==> ac <= 0 && (ab + bc < 0 ==> ac < 0))
    && (ab >= 0 && bc >= 0 ==> ac >= 0 && (ab + bc > 0 ==> ac > 0))
  }

  lemma TextLaws(s: string, t: string, u: string)
    ensures Laws(CompareFold(s, t), CompareFold(t, s), CompareFold(t, u), CompareFold(s, u))
  {
    var a, b, c := Text.Fold(s), Text.Fold(t), Text.Fold(u);
    CompareFlips(a, b);
    CompareFlips(b, c);
    CompareFlips(a, c);
    CompareTrans(a, b, c);
    CompareTrans(c, b, a);
  }

  /** Ties broken by a lawful comparison leave a lawful one. */
  lemma ThenLaws(a: Vm, b: Vm, c: Vm, ab: int, ba: int, bc: int, ac: int)
    requires Laws(ab, ba, bc, ac)
    ensures Laws(ThenByName(ab, a, b), ThenByName(ba, b, a), ThenByName(bc, b, c), ThenByName(ac, a, c))
  {
    TextLaws(a.name, b.name, c.name);
    hide CompareFold;
  }

  lemma CompareVmLaws(key: SortKey, a: Vm, b: Vm, c: Vm)
    ensures Laws(CompareVm(key, a, b), CompareVm(key, b, a), CompareVm(key, b, c), CompareVm(key, a, c))
  {
    hide CompareFold;
    match key
    case ByName => TextLaws(a.name, b.name, c.name);
    case ByStatus =>
      TextLaws(Status(a), Status(b), Status(c));
      ThenLaws(a, b, c, CompareFold(Status(a), Status(b)), CompareFold(Status(b), Status(a)),
               CompareFold(Status(b), Status(c)), CompareFold(Status(a), Status(c)));
    case ByCpu =>
      ThenLaws(a, b, c, CompareInt(a.cpu, b.cpu), CompareInt(b.cpu, a.cpu), CompareInt(b.cpu, c.cpu),
               CompareInt(a.cpu, c.cpu));
    case ByMemory =>
      ThenLaws(a, b, c, CompareInt(a.memory, b.memory), CompareInt(b.memory, a.memory),
               CompareInt(b.memory, c.memory), CompareInt(a.memory, c.memory));
    case ByUptime =>
      ThenLaws(a, b, c, CompareInt(a.uptime, b.uptime), CompareInt(b.uptime, a.uptime),
               CompareInt(b.uptime, c.uptime), CompareInt(a.uptime, c.uptime));
  }

  /** Before is a strict weak order for every key, in both directions. */
  lemma BeforeIsStrictWeak(key: SortKey, ascending: bool, a: Vm, b: Vm, c: Vm)
    ensures !Before(key, ascending, a, a)
    ensures Before(key, ascending, a, b) ==> !Before(key, ascending, b, a)
    ensures Before(key, ascending, a, b) && Before(key, ascending, b, c) ==> Before(key, ascending, a, c)
    ensures !Before(key, ascending, a, b) && !Before(key, ascending, b, a)
            && !Before(key, ascending, b, c) && !Before(key, ascending, c, b)
            ==> !Before(key, ascending, a, c) && !Before(key, ascending, c, a)
  {
    hide CompareVm;
    CompareVmLaws(key, a, b, c);
    CompareVmLaws(key, c, b, a);
    CompareVmLaws(key, a, a, a);
    CompareVmLaws(key, b, a, c);
    CompareVmLaws(key, a, c, b);
  }

  // ---- the table -------------------------------------------------------------

  /** What a row shows besides its name: dot and status, CPU, memory, uptime. */
  datatype Cells = Cells(status: string, stateLabel: string, cpu: int, memory: int, uptime: int)

  function CellsOf(v: Vm): Cells {
    Cells(Status(v), v.stateLabel, v.cpu, v.memory, v.uptime)
  }

  datatype Row = Row(guid: string, name: string, cells: Cells)

  /** m_rows, m_selectedGuid (empty for none), m_filter and the sort. */
  datatype Table = Table(rows: seq<Row>, selected: string, filter: string, key: SortKey, ascending: bool)

  function Built(v: Vm): Row {
    Row(v.guid, v.name, CellsOf(v))
  }

  function BuiltAll(visible: seq<Vm>): (r: seq<Row>)
    ensures |r| == |visible| && forall i | 0 <= i < |r| :: r[i] == Built(visible[i])
  {
    seq(|visible|, i requires 0 <= i < |visible| => Built(visible[i]))
  }

  /** The same VMs in the same order, names included, up to case. */
  predicate SameStructure(rows: seq<Row>, visible: seq<Vm>) {
    && rows != [] && |visible| == |rows|
    && forall i | 0 <= i < |rows| :: Text.SameFold(visible[i].guid, rows[i].guid)
                                     && Text.SameFold(visible[i].name, rows[i].name)
  }

  /** The first row of this VM, or -1. */
  function IndexOf(rows: seq<Row>, guid: string): (r: int)
    ensures -1 <= r < |rows|
    ensures r >= 0 ==> Text.SameFold(rows[r].guid, guid) && forall i | 0 <= i < r :: !Text.SameFold(rows[i].guid, guid)
    ensures r < 0 ==> forall i | 0 <= i < |rows| :: !Text.SameFold(rows[i].guid, guid)
  {
    if rows == [] then -1
    else if Text.SameFold(rows[0].guid, guid) then 0
    else
      var i := IndexOf(rows[1..], guid);
      if i < 0 then -1 else i + 1
  }

  /** Clear and rebuild; a selection no row shows is dropped. */
  function Rebuild(t: Table, visible: seq<Vm>): Table {
    var rows := BuiltAll(visible);
    t.(rows := rows, selected := if t.selected != "" && IndexOf(rows, t.selected) < 0 then "" else t.selected)
  }

  function Refreshed(rows: seq<Row>, visible: seq<Vm>): (r: seq<Row>)
    requires |rows| == |visible|
    ensures |r| == |rows| && forall i | 0 <= i < |r| :: r[i] == rows[i].(cells := CellsOf(visible[i]))
  {
    seq(|rows|, i requires 0 <= i < |rows| => rows[i].(cells := CellsOf(visible[i])))
  }

  /** RenderAllVms, given the sorted and filtered list; nothing happens while Hyper-V cannot
      be reached. */
  function Render(t: Table, connected: bool, visible: seq<Vm>): Table {
    if !connected then t
    else if SameStructure(t.rows, visible) then t.(rows := Refreshed(t.rows, visible))
    else Rebuild(t, visible)
  }

  // ---- what is visible -------------------------------------------------------

  predicate StartsAt(s: string, sub: string, i: nat) {
    i + |sub| <= |s| && s[i..i + |sub|] == sub
  }

  predicate Contains(s: string, sub: string) {
    exists i | 0 <= i <= |s| :: StartsAt(s, sub, i)
  }

  function Visible(sorted: seq<Vm>, filter: string): seq<Vm> {
    if sorted == [] then []
    else
      (if Contains(Text.Fold(sorted[0].name), Text.Fold(filter)) then [sorted[0]] else []) + Visible(sorted[1..],
                                                                                                     filter)
  }

  ghost predicate InOrder(vms: seq<Vm>, key: SortKey, ascending: bool) {
    forall i, j | 0 <= i < j < |vms| :: !Before(key, ascending, vms[j], vms[i])
  }

  /** What std::sort may return: the VMs in some order that Before does not contradict. */
  ghost predicate Sorts(vms: seq<Vm>, sorted: seq<Vm>, key: SortKey, ascending: bool) {
    multiset(sorted) == multiset(vms) && InOrder(sorted, key, ascending)
  }

  // ---- selection -------------------------------------------------------------

  datatype Input =
    | Rendered(connected: bool, visible: seq<Vm>)
    | Clicked(row: nat)
    | RemoteClicked
    | Down
    | Up
    | Escape(connected: bool, visible: seq<Vm>)
    | FilterTyped(filter: string, connected: bool, visible: seq<Vm>)
    | SortClicked(key: SortKey, connected: bool, visible: seq<Vm>)

  function Max(a: int, b: int): int { if a > b then a else b }

  function Min(a: int, b: int): int { if a < b then a else b }

  function Arrow(t: Table, down: bool): Table {
    if t.rows == [] then t
    else
      var cur := IndexOf(t.rows, t.selected);
      var next := if cur < 0 then 0 else if down then Min(cur + 1, |t.rows| - 1) else Max(cur - 1, 0);
      t.(selected := t.rows[next].guid)
  }

  /** A click on the sorted column turns the direction round, on another sorts up by it. */
  function SortBy(t: Table, key: SortKey): Table {
    if t.key == key then t.(ascending := !t.ascending) else t.(key := key, ascending := true)
  }

  function Handle(t: Table, input: Input): Table {
    match input
    case Rendered(connected, visible) => Render(t, connected, visible)
    case Clicked(row) => if row < |t.rows| then t.(selected := t.rows[row].guid) else t
    case RemoteClicked => t.(selected := "")
    case Down => Arrow(t, true)
    case Up => Arrow(t, false)
    case Escape(connected, visible) =>
      if t.rows == [] then t
      else
        var t' := t.(selected := "");
        if t.filter != "" then Render(t'.(filter := ""), connected, visible) else t'
    case FilterTyped(filter, connected, visible) => Render(t.(filter := filter), connected, visible)
    case SortClicked(key, connected, visible) => Render(SortBy(t, key), connected, visible)
  }

  function Run(t: Table, inputs: seq<Input>): Table
    decreases |inputs|
  {
    if inputs == [] then t else Run(Handle(t, inputs[0]), inputs[1..])
  }

  /** The selection is nothing, or a row on screen. */
  predicate SelectionShown(t: Table) {
    t.selected == "" || IndexOf(t.rows, t.selected) >= 0
  }

  /** The same table but for the case of guids and names. */
  predicate SameTable(t: Table, u: Table) {
    && t.selected == u.selected && t.filter == u.filter && t.key == u.key && t.ascending == u.ascending
    && |t.rows| == |u.rows|
    && forall i | 0 <= i < |t.rows| ::
         Text.SameFold(t.rows[i].guid, u.rows[i].guid) && Text.SameFold(t.rows[i].name, u.rows[i].name)
         && t.rows[i].cells == u.rows[i].cells
  }

  lemma SameIndex(rows: seq<Row>, other: seq<Row>, guid: string)
    requires |rows| == |other| && forall i | 0 <= i < |rows| :: Text.SameFold(rows[i].guid, other[i].guid)
    ensures IndexOf(rows, guid) == IndexOf(other, guid)
  {}

  /** The in-place path leaves what a rebuild would, but for the case of guids and names; and
      exactly what it would if those are spelled as before. */
  lemma FastPathRefines(t: Table, visible: seq<Vm>)
    requires SelectionShown(t) && SameStructure(t.rows, visible)
    ensures SameTable(Render(t, true, visible), Rebuild(t, visible))
    ensures Render(t, true, visible) == Rebuild(t, visible)
       <==> forall i | 0 <= i < |visible| :: visible[i].guid == t.rows[i].guid && visible[i].name == t.rows[i].name
  {
    var fast, slow := Render(t, true, visible), Rebuild(t, visible);
    SameIndex(t.rows, slow.rows, t.selected);
    if fast == slow {
      forall i | 0 <= i < |visible| ensures visible[i].guid == t.rows[i].guid && visible[i].name == t.rows[i].name {
        assert fast.rows[i] == slow.rows[i];
      }
    }
  }

  /** However the table is drawn, it shows the visible VMs, in order, with their cells. */
  lemma RenderShows(t: Table, visible: seq<Vm>)
    requires SelectionShown(t)
    ensures SameTable(Render(t, true, visible), Rebuild(t, visible))
  {
    if SameStructure(t.rows, visible) { FastPathRefines(t, visible); }
  }

  lemma RenderSelection(t: Table, connected: bool, visible: seq<Vm>)
    requires SelectionShown(t)
    ensures SelectionShown(Render(t, connected, visible))
  {
    if connected && SameStructure(t.rows, visible) {
      SameIndex(t.rows, Refreshed(t.rows, visible), t.selected);
    }
  }

  lemma HandleSelection(t: Table, input: Input)
    requires SelectionShown(t)
    ensures SelectionShown(Handle(t, input))
  {
    hide Render;
    match input
    case Rendered(connected, visible) => RenderSelection(t, connected, visible);
    case Escape(connected, visible) => RenderSelection(t.(selected := "", filter := ""), connected, visible);
    case FilterTyped(filter, connected, visible) => RenderSelection(t.(filter := filter), connected, visible);
    case SortClicked(key, connected, visible) => RenderSelection(SortBy(t, key), connected, visible);
    case _ =>
  }

  lemma {:induction false} RunSelection(t: Table, inputs: seq<Input>)
    requires SelectionShown(t)
    ensures SelectionShown(Run(t, inputs))
    decreases |inputs|
  {
    hide Handle;
    if inputs != [] {
      HandleSelection(t, inputs[0]);
      RunSelection(Handle(t, inputs[0]), inputs[1..]);
    }
  }

  /** No two rows are the same VM. */
  predicate DistinctRows(rows: seq<Row>) {
    forall i, j | 0 <= i < j < |rows| :: !Text.SameFold(rows[i].guid, rows[j].guid)
  }

  /** An arrow key moves by one row and stops at the ends; down and up undo each other away
      from them. With nothing selected either key selects the first row. */
  lemma ArrowMoves(t: Table)
    requires DistinctRows(t.rows) && t.rows != []
    ensures var i, n := IndexOf(t.rows, t.selected), |t.rows|;
            && IndexOf(t.rows, Handle(t, Down).selected) == (if i < 0 then 0 else if i + 1 < n then i + 1 else i)
            && IndexOf(t.rows, Handle(t, Up).selected) == (if i < 0 then 0 else if i > 0 then i - 1 else i)
            && (0 <= i && i + 1 < n ==> IndexOf(t.rows, Handle(Handle(t, Down), Up).selected) == i)
  {
    forall i | 0 <= i < |t.rows| ensures IndexOf(t.rows, t.rows[i].guid) == i {
      RowFound(t.rows, i);
    }
    var down := Handle(t, Down);
    assert down == Arrow(t, true) && Handle(t, Up) == Arrow(t, false) && Handle(down, Up) == Arrow(down, false);
    hide IndexOf, DistinctRows, Handle, Text.SameFold;
  }

  lemma RowFound(rows: seq<Row>, i: nat)
    requires DistinctRows(rows) && i < |rows|
    ensures IndexOf(rows, rows[i].guid) == i
  {
    var k := IndexOf(rows, rows[i].guid);
    hide IndexOf, Text.SameFold;
  }

  lemma {:induction false} VisibleMembers(sorted: seq<Vm>, filter: string)
    ensures forall v :: v in Visible(sorted, filter)
                        <==> v in sorted && Contains(Text.Fold(v.name), Text.Fold(filter))
  {
    if sorted != [] { VisibleMembers(sorted[1..], filter); }
  }

  /** Filtering keeps as many of each. */
  lemma {:induction false} VisibleCounts(sorted: seq<Vm>, filter: string, v: Vm)
    ensures multiset(Visible(sorted, filter))[v]
         == if Contains(Text.Fold(v.name), Text.Fold(filter)) then multiset(sorted)[v] else 0
  {
    if sorted != [] {
      VisibleCounts(sorted[1..], filter, v);
      assert sorted == [sorted[0]] + sorted[1..];
    }
  }

  /** Filtering keeps the order. */
  lemma {:induction false} VisibleSorted(sorted: seq<Vm>, filter: string, key: SortKey, ascending: bool)
    requires InOrder(sorted, key, ascending)
    ensures InOrder(Visible(sorted, filter), key, ascending)
  {
    if sorted != [] {
      forall i, j | 0 <= i < j < |sorted| - 1 ensures !Before(key, ascending, sorted[1..][j], sorted[1..][i]) {
        assert !Before(key, ascending, sorted[j + 1], sorted[i + 1]);
      }
      VisibleSorted(sorted[1..], filter, key, ascending);
      VisibleMembers(sorted[1..], filter);
      hide Before, Contains;
      var rest := Visible(sorted[1..], filter);
      forall j | 0 <= j < |rest| ensures !Before(key, ascending, rest[j], sorted[0]) {
        assert rest[j] in sorted[1..];
        var k :| 0 <= k < |sorted| - 1 && sorted[1..][k] == rest[j];
        assert !Before(key, ascending, sorted[k + 1], sorted[0]);
      }
      InOrderCons(sorted[0], rest, key, ascending);
      assert [] + rest == rest;
    }
  }

  lemma InOrderCons(v: Vm, rest: seq<Vm>, key: SortKey, ascending: bool)
    requires InOrder(rest, key, ascending) && forall j | 0 <= j < |rest| :: !Before(key, ascending, rest[j], v)
    ensures InOrder([v] + rest, key, ascending)
  {
    hide Before;
    var all := [v] + rest;
    forall i, j | 0 <= i < j < |all| ensures !Before(key, ascending, all[j], all[i]) {
      assert all[j] == rest[j - 1];
      if i > 0 { assert all[i] == rest[i - 1]; }
    }
  }

  /** With the connection up, a redraw shows exactly the VMs whose name matches the filter,
      each as often as it is listed, in the order of the sort, whichever path it takes. */
  lemma RedrawIsRight(t: Table, vms: seq<Vm>, sorted: seq<Vm>)
    requires SelectionShown(t) && Sorts(vms, sorted, t.key, t.ascending)
    ensures var visible := Visible(sorted, t.filter);
            && SameTable(Render(t, true, visible), Rebuild(t, visible))
            && (forall v :: multiset(visible)[v]
                            == if Contains(Text.Fold(v.name), Text.Fold(t.filter)) then multiset(vms)[v] else 0)
            && InOrder(visible, t.key, t.ascending)
  {
    RenderShows(t, Visible(sorted, t.filter));
    VisibleSorted(sorted, t.filter, t.key, t.ascending);
    forall v ensures multiset(Visible(sorted, t.filter))[v]
                  == if Contains(Text.Fold(v.name), Text.Fold(t.filter)) then multiset(vms)[v] else 0
    {
      VisibleCounts(sorted, t.filter, v);
    }
  }

  // ---- what the columns sort by ----------------------------------------------------

  /** Text order: a prefix comes first, and otherwise the first difference decides. */
  ghost predicate AtMost(s: string, t: string) {
    || s <= t
    || exists k | 0 <= k < |s| && k < |t| :: FirstDiffers(s, t, k) && s[k] < t[k]
  }

  predicate FirstDiffers(s: string, t: string, k: nat)
    requires k < |s| && k < |t|
  {
    s[..k] == t[..k] && s[k] != t[k]
  }

  lemma {:induction false} CompareExactly(s: string, t: string)
    ensures Compare(s, t) == 0 <==> s == t
    ensures Compare(s, t) <= 0 <==> AtMost(s, t)
  {
    if s != "" && t != "" {
      if s[0] == t[0] {
        CompareExactly(s[1..], t[1..]);
        TailAtMost(s, t);
        assert s == [s[0]] + s[1..] && t == [t[0]] + t[1..];
      } else {
        assert FirstDiffers(s, t, 0);
        if AtMost(s, t) {
          var k :| 0 <= k < |s| && k < |t| && FirstDiffers(s, t, k) && s[k] < t[k];
          assert k > 0 ==> s[..k][0] == t[..k][0];
        }
      }
    }
  }

  lemma TailAtMost(s: string, t: string)
    requires s != "" && t != "" && s[0] == t[0]
    ensures AtMost(s, t) <==> AtMost(s[1..], t[1..])
  {
    var s', t' := s[1..], t[1..];
    assert s == [s[0]] + s' && t == [t[0]] + t';
    if AtMost(s, t) && !(s <= t) {
      var k :| 0 <= k < |s| && k < |t| && FirstDiffers(s, t, k) && s[k] < t[k];
      assert k > 0;
      assert s'[..k - 1] == s[..k][1..] && t'[..k - 1] == t[..k][1..];
      assert FirstDiffers(s', t', k - 1) && s'[k - 1] < t'[k - 1];
    }
    if AtMost(s', t') && !(s' <= t') {
      var k :| 0 <= k < |s'| && k < |t'| && FirstDiffers(s', t', k) && s'[k] < t'[k];
      assert s[..k + 1] == [s[0]] + s'[..k] && t[..k + 1] == [t[0]] + t'[..k];
      assert FirstDiffers(s, t, k + 1) && s[k + 1] < t[k + 1];
    }
  }

  /** The cell of the sorted column in one row is at most that in another: numbers as numbers,
      text without regard to case. */
  ghost predicate CellAtMost(key: SortKey, r: Row, q: Row) {
    match key
    case ByName => AtMost(Text.Fold(r.name), Text.Fold(q.name))
    case ByStatus => AtMost(Text.Fold(r.cells.status), Text.Fold(q.cells.status))
    case ByCpu => r.cells.cpu <= q.cells.cpu
    case ByMemory => r.cells.memory <= q.cells.memory
    case ByUptime => r.cells.uptime <= q.cells.uptime
  }

  /** The first row may stand above the second in an ascending sort: a smaller cell, or the
      same cell and a name that does not come later. */
  ghost predicate MayPrecede(key: SortKey, r: Row, q: Row) {
    CellAtMost(key, r, q) && (CellAtMost(key, q, r) ==> AtMost(Text.Fold(r.name), Text.Fold(q.name)))
  }

  lemma ComparedCells(key: SortKey, a: Vm, b: Vm)
    ensures CompareVm(key, a, b) <= 0 <==> MayPrecede(key, Built(a), Built(b))
  {
    CompareExactly(Text.Fold(a.name), Text.Fold(b.name));
    CompareExactly(Text.Fold(b.name), Text.Fold(a.name));
    CompareExactly(Text.Fold(Status(a)), Text.Fold(Status(b)));
    CompareExactly(Text.Fold(Status(b)), Text.Fold(Status(a)));
    CompareFlips(Text.Fold(a.name), Text.Fold(b.name));
    CompareFlips(Text.Fold(Status(a)), Text.Fold(Status(b)));
    hide Compare, AtMost;
  }

  /** Each row shows its VM: guid and name up to case, and its figures as they are. */
  predicate ShowsVm(r: Row, v: Vm) {
    && Text.SameFold(r.guid, v.guid) && Text.SameFold(r.name, v.name)
    && r.cells.status == (if v.statusText != "" then v.statusText else v.stateLabel)
    && r.cells.stateLabel == v.stateLabel
    && r.cells.cpu == v.cpu && r.cells.memory == v.memory && r.cells.uptime == v.uptime
  }

  /** A redraw shows the visible VMs row by row, by either path; without a connection it
      changes nothing. */
  lemma RedrawShowsVms(t: Table, visible: seq<Vm>)
    ensures Render(t, false, visible) == t
    ensures var t' := Render(t, true, visible);
            |t'.rows| == |visible| && forall i | 0 <= i < |visible| :: ShowsVm(t'.rows[i], visible[i])
  {}

  /** Rows are kept, with their spelling and new cells, exactly when there are some and they
      are the visible VMs one by one, up to case; otherwise they are built anew. */
  lemma RowsKeptExactly(t: Table, visible: seq<Vm>, i: nat)
    requires i < |visible|
    ensures var kept := |t.rows| == |visible| && forall j | 0 <= j < |visible| ::
                          Text.SameFold(t.rows[j].guid, visible[j].guid) && Text.SameFold(t.rows[j].name, visible[j].name);
            var row := Render(t, true, visible).rows[i];
            if kept then row.guid == t.rows[i].guid && row.name == t.rows[i].name
            else row.guid == visible[i].guid && row.name == visible[i].name
  {
    RedrawShowsVms(t, visible);
  }

  lemma SameCells(key: SortKey, r: Row, r': Row, q: Row, q': Row)
    requires Text.SameFold(r.name, r'.name) && r.cells == r'.cells
    requires Text.SameFold(q.name, q'.name) && q.cells == q'.cells
    ensures MayPrecede(key, r, q) == MayPrecede(key, r', q')
  {
    hide AtMost;
  }

  /** The rows of a redraw stand in the order of the chosen column, ties by name, and the
      other way round when descending. */
  lemma RedrawIsSorted(t: Table, vms: seq<Vm>, sorted: seq<Vm>, i: nat, j: nat)
    requires Sorts(vms, sorted, t.key, t.ascending) && i < j < |Render(t, true, Visible(sorted, t.filter)).rows|
    ensures var rows := Render(t, true, Visible(sorted, t.filter)).rows;
            if t.ascending then MayPrecede(t.key, rows[i], rows[j]) else MayPrecede(t.key, rows[j], rows[i])
  {
    var visible := Visible(sorted, t.filter);
    var rows := Render(t, true, visible).rows;
    RedrawShowsVms(t, visible);
    VisibleSorted(sorted, t.filter, t.key, t.ascending);
    var a, b := visible[i], visible[j];
    assert !Before(t.key, t.ascending, b, a);
    CompareVmLaws(t.key, a, b, b);
    ComparedCells(t.key, a, b);
    ComparedCells(t.key, b, a);
    assert rows[i].cells == Built(a).cells && rows[j].cells == Built(b).cells;
    hide Render, Visible, MayPrecede, CompareVm, Sorts, InOrder;
    SameCells(t.key, rows[i], Built(a), rows[j], Built(b));
    SameCells(t.key, rows[j], Built(b), rows[i], Built(a));
  }

  // ---- what every input does -------------------------------------------------------

  /** The list the input redraws the table with, if the connection is up. */
  function Drawn(t: Table, input: Input): Option<seq<Vm>> {
    match input
    case Rendered(connected, visible) => if connected then Some(visible) else None
    case Escape(connected, visible) => if connected && t.rows != [] && t.filter != "" then Some(visible) else None
    case FilterTyped(_, connected, visible) => if connected then Some(visible) else None
    case SortClicked(_, connected, visible) => if connected then Some(visible) else None
    case _ => None
  }

  /** The selection the input asks for. */
  function Asked(t: Table, input: Input): string {
    match input
    case Clicked(row) => if row < |t.rows| then t.rows[row].guid else t.selected
    case RemoteClicked => ""
    case Escape(_, _) => if t.rows == [] then t.selected else ""
    case _ => t.selected
  }

  ghost predicate Lists(visible: seq<Vm>, guid: string) {
    exists i | 0 <= i < |visible| :: Text.SameFold(visible[i].guid, guid)
  }

  /** Filter, sort and selection after an input, and whether the rows were drawn afresh. */
  ghost predicate InputLaw(t: Table, input: Input, t': Table) {
    && t'.filter == (if input.FilterTyped? then input.filter
                     else if input.Escape? && t.rows != [] then "" else t.filter)
    && t'.key == (if input.SortClicked? then input.key else t.key)
    && t'.ascending == (if input.SortClicked? then t.key != input.key || !t.ascending else t.ascending)
    && (!input.Down? && !input.Up? ==>
          t'.selected == match Drawn(t, input)
                         case None => Asked(t, input)
                         case Some(visible) => if Lists(visible, Asked(t, input)) then Asked(t, input) else "")
    && (match Drawn(t, input)
        case None => t'.rows == t.rows
        case Some(visible) =>
          |t'.rows| == |visible| && forall i | 0 <= i < |visible| :: ShowsVm(t'.rows[i], visible[i]))
  }

  lemma RenderLaw(t: Table, visible: seq<Vm>)
    requires SelectionShown(t)
    ensures var t' := Render(t, true, visible);
            && t'.filter == t.filter && t'.key == t.key && t'.ascending == t.ascending
            && t'.selected == if Lists(visible, t.selected) then t.selected else ""
  {
    var k := IndexOf(t.rows, t.selected);
    if SameStructure(t.rows, visible) && k >= 0 {
      assert Text.SameFold(visible[k].guid, t.selected);
    }
    hide IndexOf;
    var rows := BuiltAll(visible);
    var i := IndexOf(rows, t.selected);
    assert i >= 0 ==> Text.SameFold(visible[i].guid, t.selected);
    assert i < 0 ==> forall j | 0 <= j < |visible| :: !Text.SameFold(rows[j].guid, t.selected);
  }

  lemma HandleExactly(t: Table, input: Input)
    requires SelectionShown(t)
    ensures InputLaw(t, input, Handle(t, input))
  {
    hide ShowsVm, Lists, Render, IndexOf;
    match input
    case Rendered(connected, visible) =>
      RenderLaw(t, visible);
      RedrawShowsVms(t, visible);
    case Escape(connected, visible) =>
      RenderLaw(t.(selected := "", filter := ""), visible);
      RedrawShowsVms(t.(selected := "", filter := ""), visible);
    case FilterTyped(filter, connected, visible) =>
      RenderLaw(t.(filter := filter), visible);
      RedrawShowsVms(t.(filter := filter), visible);
    case SortClicked(key, connected, visible) =>
      RenderLaw(SortBy(t, key), visible);
      RedrawShowsVms(SortBy(t, key), visible);
    case _ =>
  }

  // ---- the filter --------------------------------------------------------------------

  ghost predicate Around(s: string, sub: string, before: string, after: string) {
    s == before + sub + after
  }

  /** A name matches exactly when the filter stands somewhere in it. */
  lemma ContainsExactly(s: string, sub: string)
    ensures Contains(s, sub) <==> exists before, after :: Around(s, sub, before, after)
  {
    if Contains(s, sub) {
      var i :| 0 <= i <= |s| && StartsAt(s, sub, i);
      assert Around(s, sub, s[..i], s[i + |sub|..]);
    }
    if exists before, after :: Around(s, sub, before, after) {
      var before, after :| Around(s, sub, before, after);
      assert StartsAt(s, sub, |before|);
    }
  }
}
