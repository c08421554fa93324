/** Keyed in-place reconciliation of a list control with a snapshot.

    The rail, the adapter cards, the disk cards and the snapshot list of
    src/app/MainWindow.xaml.cpp all redraw this way: items found by key are updated and moved
    into place, missing ones inserted, and a reverse pass removes what the snapshot no longer
    names. An item's key is the string in its Tag; `text` is all it displays. Nothing keeps
    a snapshot from using a key twice: adapters without an address go by their name, and two
    drives may hold one image. */
module Reconcile {
  import opened Wrappers
  import opened Strips

  datatype Row = Row(key: string, text: string)

  class Item {
    const key: string
    var text: string

    constructor (row: Row)
      ensures key == row.key && text == row.text
    {
      key, text := row.key, row.text;
    }
  }

  // ---- what the list should become -------------------------------------------

  /** The first item with this key. */
  function First(items: seq<Item>, key: string): (r: Option<Item>)
    ensures r.Some? ==> r.value in items && r.value.key == key
    ensures r.None? ==> forall it :: it in items ==> it.key != key
  {
    if items == [] then None else if items[0].key == key then Some(items[0]) else First(items[1..], key)
  }

  function Keys(rows: seq<Row>): (r: seq<string>)
    ensures |r| == |rows| && forall k :: 0 <= k < |r| ==> r[k] == rows[k].key
  {
    seq(|rows|, k requires 0 <= k < |rows| => rows[k].key)
  }

  function ItemKeys(items: seq<Item>): (r: seq<string>)
    ensures |r| == |items| && forall k :: 0 <= k < |r| ==> r[k] == items[k].key
  {
    seq(|items|, k requires 0 <= k < |items| => items[k].key)
  }

  /** The item of each row: the first of its key, or a new one where no item has the key. */
  ghost predicate Chosen(was: seq<Item>, rows: seq<Row>, its: seq<Item>) {
    && |its| == |rows|
    && (forall k | 0 <= k < |rows| ::
          && its[k].key == rows[k].key
          && match First(was, rows[k].key) { case Some(it) => its[k] == it case None => its[k] !in was })
    && (forall j, k | 0 <= j < k < |its| && its[k] !in was :: its[j] != its[k])
  }

  /** Row by row, the row's item is taken out, if it is there, and put in at the row's index;
      None when an index lies beyond the end of the list. */
  function Layout(was: seq<Item>, its: seq<Item>): Option<seq<Item>> {
    if its == [] then Some(was)
    else
      var n := |its| - 1;
      match Layout(was, its[..n])
      case None => None
      case Some(list) =>
        var rest := Remove(list, its[n]);
        if n <= |rest| then Some(Insert(rest, n, its[n])) else None
  }

  function Named(items: seq<Item>, seen: set<string>): seq<Item> {
    if items == [] then []
    else if items[0].key in seen then [items[0]] + Named(items[1..], seen)
    else Named(items[1..], seen)
  }

  function Seen(rows: seq<Row>): set<string> {
    set key | key in Keys(rows)
  }

  /** How many rows have a key that the old list shows. */
  function Shown(was: seq<Item>, rows: seq<Row>): (r: nat)
    ensures r <= |rows|
  {
    if rows == [] then 0
    else
      var n := |rows| - 1;
      Shown(was, rows[..n]) + if rows[n].key in ItemKeys(was) then 1 else 0
  }

  // ---- which indices are in range ---------------------------------------------

  lemma {:induction false} FirstByKeys(items: seq<Item>, key: string)
    ensures First(items, key).Some? <==> key in ItemKeys(items)
  {
    if items != [] {
      FirstByKeys(items[1..], key);
      assert ItemKeys(items) == [items[0].key] + ItemKeys(items[1..]);
    }
  }

  lemma ChosenPrefix(was: seq<Item>, rows: seq<Row>, its: seq<Item>, n: nat)
    requires Chosen(was, rows, its) && n <= |rows|
    ensures Chosen(was, rows[..n], its[..n])
  {}

  /** Nothing is lost and nothing doubled, whatever the snapshot. */
  lemma {:induction false} LayoutMembers(was: seq<Item>, its: seq<Item>)
    requires NoDup(was) && Layout(was, its).Some?
    ensures NoDup(Layout(was, its).value)
    ensures forall it :: it in Layout(was, its).value <==> it in was || it in its
  {
    if its != [] {
      var n := |its| - 1;
      LayoutMembers(was, its[..n]);
      var list := Layout(was, its[..n]).value;
      RemoveKeepsOthers(list, its[n]);
      InsertMembers(Remove(list, its[n]), n, its[n]);
      assert its == its[..n] + [its[n]];
    }
  }

  lemma {:induction false} ShownGrows(was: seq<Item>, rows: seq<Row>, n: nat)
    requires n <= |rows|
    ensures Shown(was, rows[..n]) <= Shown(was, rows)
  {
    if n < |rows| {
      ShownGrows(was, rows[..|rows| - 1], n);
      assert rows[..|rows| - 1][..n] == rows[..n];
    } else {
      assert rows[..n] == rows;
    }
  }

  /** The item of the next row is in the list exactly when the old list shows its key. */
  lemma NextIsThere(was: seq<Item>, rows: seq<Row>, its: seq<Item>)
    requires NoDup(was) && Chosen(was, rows, its) && its != []
    requires Layout(was, its[..|its| - 1]).Some?
    ensures its[|its| - 1] in Layout(was, its[..|its| - 1]).value <==> rows[|its| - 1].key in ItemKeys(was)
  {
    var n := |its| - 1;
    LayoutMembers(was, its[..n]);
    FirstByKeys(was, rows[n].key);
  }

  /** For any snapshot: every index is in range if and only if no more rows than the old list
      has items carry a key the old list shows. */
  lemma {:induction false} InRange(was: seq<Item>, rows: seq<Row>, its: seq<Item>)
    requires NoDup(was) && Chosen(was, rows, its)
    ensures Layout(was, its).Some? <==> Shown(was, rows) <= |was|
    ensures Layout(was, its).Some? ==> |Layout(was, its).value| == |was| + |rows| - Shown(was, rows)
  {
    if its != [] {
      var n := |its| - 1;
      ChosenPrefix(was, rows, its, n);
      InRange(was, rows[..n], its[..n]);
      if Layout(was, its[..n]).Some? {
        NextIsThere(was, rows, its);
      }
    }
  }

  /** The input that fails: one item, and a snapshot that names its key twice. */
  lemma RepeatedKeyFails(it: Item, a: Row, b: Row)
    requires a.key == it.key && b.key == it.key
    ensures Chosen([it], [a, b], [it, it]) && Shown([it], [a, b]) == 2
    ensures Layout([it], [it]) == Some([it]) && Layout([it], [it, it]) == None
  {
    assert [a, b][..1] == [a] && [it, it][..1] == [it] && [it][..0] == [];
    assert Remove([it], it) == [] && Insert([], 0, it) == [it];
    assert Layout([it], [it]) == Some([it]);
    assert ItemKeys([it])[0] == it.key;
    assert Shown([it], [a]) == 1;
  }

  /** Two items of one key trade places each time, and only the first of them is updated. */
  lemma TwinsTradePlaces(it: Item, twin: Item, a: Row, b: Row)
    requires it != twin && it.key == twin.key && a.key == it.key && b.key == it.key
    ensures Chosen([it, twin], [a, b], [it, it])
    ensures Layout([it, twin], [it, it]) == Some([twin, it])
  {
    assert [it, it][..1] == [it] && [it][..0] == [];
    assert Remove([it, twin], it) == [twin];
    assert Insert([twin], 0, it) == [it, twin] && Insert([twin], 1, it) == [twin, it];
    assert Layout([it, twin], [it]) == Some([it, twin]);
  }

  // ---- snapshots that repeat no shown key --------------------------------------

  /** The snapshot names no key twice that the old list shows. */
  predicate Unrepeated(was: seq<Item>, rows: seq<Row>) {
    forall j, k | 0 <= j < k < |rows| && rows[j].key == rows[k].key :: rows[k].key !in ItemKeys(was)
  }

  lemma ChosenOnce(was: seq<Item>, rows: seq<Row>, its: seq<Item>)
    requires Chosen(was, rows, its)
    ensures NoDup(its) <==> Unrepeated(was, rows)
  {
    forall j, k | 0 <= j < k < |rows| ensures its[j] == its[k] <==>
                                              rows[j].key == rows[k].key && rows[k].key in ItemKeys(was)
    {
      FirstByKeys(was, rows[k].key);
    }
  }

  function Without(items: seq<Item>, gone: seq<Item>): seq<Item> {
    if items == [] then []
    else if items[0] in gone then Without(items[1..], gone)
    else [items[0]] + Without(items[1..], gone)
  }

  lemma {:induction false} WithoutMembers(items: seq<Item>, gone: seq<Item>)
    requires NoDup(items)
    ensures NoDup(Without(items, gone))
    ensures forall it :: it in Without(items, gone) <==> it in items && it !in gone
  {
    if items != [] {
      WithoutMembers(items[1..], gone);
      assert items == [items[0]] + items[1..];
      assert items[0] !in items[1..];
    }
  }

  lemma {:induction false} WithoutMore(items: seq<Item>, gone: seq<Item>, it: Item)
    requires NoDup(items)
    ensures Without(items, gone + [it]) == Remove(Without(items, gone), it)
  {
    if items != [] {
      WithoutMore(items[1..], gone, it);
      assert items == [items[0]] + items[1..];
      assert items[0] !in items[1..];
      WithoutMembers(items[1..], gone);
      if items[0] == it && items[0] !in gone {
        assert it !in Without(items[1..], gone);
      }
    }
  }

  lemma {:induction false} NothingGone(items: seq<Item>)
    ensures Without(items, []) == items
  {
    if items != [] { NothingGone(items[1..]); }
  }

  lemma {:induction false} RemoveBehind(a: seq<Item>, b: seq<Item>, it: Item)
    requires it !in a
    ensures Remove(a + b, it) == a + Remove(b, it)
  {
    if a == [] {
      assert a + b == b;
    } else {
      assert (a + b)[1..] == a[1..] + b;
      RemoveBehind(a[1..], b, it);
    }
  }

  /** Every row has an item of its own: the rows' items in order, then what else there was. */
  lemma {:induction false} LayoutInOrder(was: seq<Item>, its: seq<Item>)
    requires NoDup(was) && NoDup(its)
    ensures Layout(was, its) == Some(its + Without(was, its))
  {
    if its == [] {
      NothingGone(was);
      assert its + was == was;
    } else {
      var n, it := |its| - 1, its[|its| - 1];
      var done := its[..n];
      LayoutInOrder(was, done);
      assert its == done + [it];
      assert it !in done;
      WithoutMore(was, done, it);
      RemoveBehind(done, Without(was, done), it);
      var rest := Without(was, its);
      assert Insert(done + rest, n, it) == its + rest;
    }
  }

  lemma HeadNoDup(s: seq<Item>, head: seq<Item>)
    requires NoDup(s) && head <= s
    ensures NoDup(head)
  {
    assert forall k | 0 <= k < |head| :: head[k] == s[k];
  }

  /** The rows end up in order at the head of the list if and only if each has its own item. */
  lemma InOrderExactly(was: seq<Item>, rows: seq<Row>, its: seq<Item>)
    requires NoDup(was) && Chosen(was, rows, its)
    ensures Layout(was, its).Some? && its <= Layout(was, its).value <==> Unrepeated(was, rows)
  {
    ChosenOnce(was, rows, its);
    if NoDup(its) {
      LayoutInOrder(was, its);
    } else if Layout(was, its).Some? {
      LayoutMembers(was, its);
      if its <= Layout(was, its).value { HeadNoDup(Layout(was, its).value, its); }
    }
  }

  /** Items that head the list already stay where they are. */
  lemma {:induction false} HeadStays(was: seq<Item>, its: seq<Item>)
    requires NoDup(was) && its <= was
    ensures Layout(was, its) == Some(was)
  {
    if its != [] {
      var n := |its| - 1;
      HeadStays(was, its[..n]);
      BringStays(was, was[n], n);
    }
  }

  lemma BringStays(list: seq<Item>, it: Item, cur: nat)
    requires NoDup(list) && cur < |list| && list[cur] == it
    ensures Remove(list, it) == list[..cur] + list[cur + 1..]
    ensures Insert(Remove(list, it), cur, it) == list
  {
    RemoveFirst(list, it, cur);
  }

  // ---- filters ------------------------------------------------------------------

  lemma {:induction false} NamedConcat(a: seq<Item>, b: seq<Item>, seen: set<string>)
    ensures Named(a + b, seen) == Named(a, seen) + Named(b, seen)
  {
    if a == [] {
      assert a + b == b;
    } else {
      assert (a + b)[1..] == a[1..] + b;
      NamedConcat(a[1..], b, seen);
    }
  }

  lemma {:induction false} NamedMembers(items: seq<Item>, seen: set<string>)
    requires NoDup(items)
    ensures NoDup(Named(items, seen))
    ensures forall it :: it in Named(items, seen) <==> it in items && it.key in seen
  {
    if items != [] {
      NamedMembers(items[1..], seen);
      assert items == [items[0]] + items[1..];
      assert items[0] !in items[1..];
    }
  }

  lemma {:induction false} NamedAll(items: seq<Item>, seen: set<string>)
    ensures |Named(items, seen)| <= |items|
    ensures Named(items, seen) == items <==> forall it | it in items :: it.key in seen
  {
    if items != [] {
      NamedAll(items[1..], seen);
      assert items == [items[0]] + items[1..];
    }
  }

  lemma ChosenSeen(was: seq<Item>, rows: seq<Row>, its: seq<Item>)
    requires Chosen(was, rows, its)
    ensures forall it | it in its :: it.key in Seen(rows)
    ensures forall it | it in was && it.key in Seen(rows) :: First(was, it.key).Some? && First(was, it.key).value in its
  {
    forall it | it in its ensures it.key in Seen(rows) {
      var k :| 0 <= k < |its| && its[k] == it;
      assert Keys(rows)[k] == it.key;
    }
    forall it | it in was && it.key in Seen(rows) ensures First(was, it.key).Some? && First(was, it.key).value in its {
      var k :| 0 <= k < |rows| && Keys(rows)[k] == it.key;
      assert its[k] in its;
    }
  }

  // ---- the redrawn list ---------------------------------------------------------

  /** The redraw of `was` with the rows' items `its`. */
  function Redrawn(was: seq<Item>, rows: seq<Row>, its: seq<Item>): seq<Item>
    requires Layout(was, its).Some?
  {
    Named(Layout(was, its).value, Seen(rows))
  }

  /** Whatever the snapshot: it keeps every item whose key is named, adds one item for each
      row whose key was not shown, and holds each of them once. */
  lemma RedrawnMembers(was: seq<Item>, rows: seq<Row>, its: seq<Item>)
    requires NoDup(was) && Chosen(was, rows, its) && Layout(was, its).Some?
    ensures NoDup(Redrawn(was, rows, its))
    ensures forall it :: it in Redrawn(was, rows, its) <==> it in its || (it in was && it.key in Seen(rows))
  {
    LayoutMembers(was, its);
    NamedMembers(Layout(was, its).value, Seen(rows));
    ChosenSeen(was, rows, its);
  }

  /** The old list shows no key of the snapshot twice. */
  ghost predicate ShownOnce(items: seq<Item>, rows: seq<Row>) {
    forall i, j | 0 <= i < j < |items| && items[i].key == items[j].key :: items[i].key !in Seen(rows)
  }

  /** The redrawn list is the snapshot, row by row, if and only if no key that both show is
      repeated in either. */
  lemma RedrawnIsSnapshot(was: seq<Item>, rows: seq<Row>, its: seq<Item>)
    requires NoDup(was) && Chosen(was, rows, its) && Layout(was, its).Some?
    ensures Redrawn(was, rows, its) == its <==> Unrepeated(was, rows) && ShownOnce(was, rows)
  {
    var now := Redrawn(was, rows, its);
    RedrawnMembers(was, rows, its);
    ChosenOnce(was, rows, its);
    ChosenSeen(was, rows, its);
    ChosenAreFirst(was, rows, its);
    if now == its {
      forall i, j | 0 <= i < j < |was| && was[i].key == was[j].key ensures was[i].key !in Seen(rows) {
        OnlyOneChosen(was, rows, its, i, j);
      }
    }
    if NoDup(its) && ShownOnce(was, rows) {
      OnlyChosenAreNamed(was, rows, its);
    }
  }

  lemma ChosenAreFirst(was: seq<Item>, rows: seq<Row>, its: seq<Item>)
    requires Chosen(was, rows, its)
    ensures forall it | it in its && it in was :: First(was, it.key) == Some(it)
  {
    forall it | it in its && it in was ensures First(was, it.key) == Some(it) {
      var k :| 0 <= k < |its| && its[k] == it;
    }
  }

  lemma OnlyOneChosen(was: seq<Item>, rows: seq<Row>, its: seq<Item>, i: nat, j: nat)
    requires NoDup(was) && Chosen(was, rows, its) && i < j < |was| && was[i].key == was[j].key
    ensures !(was[i] in its && was[j] in its)
  {
    ChosenAreFirst(was, rows, its);
  }

  lemma ShownOnceAreChosen(was: seq<Item>, rows: seq<Row>, its: seq<Item>)
    requires Chosen(was, rows, its) && ShownOnce(was, rows)
    ensures forall it | it in was && it.key in Seen(rows) :: it in its
  {
    ChosenSeen(was, rows, its);
    forall i | 0 <= i < |was| && was[i].key in Seen(rows) ensures was[i] in its {
      FirstAt(was, i);
      assert was[i] in was;
    }
  }

  lemma {:induction false} NothingElseNamed(items: seq<Item>, gone: seq<Item>, seen: set<string>)
    requires forall it | it in items && it.key in seen :: it in gone
    ensures Named(Without(items, gone), seen) == []
  {
    if items != [] {
      NothingElseNamed(items[1..], gone, seen);
    }
  }

  lemma OnlyChosenAreNamed(was: seq<Item>, rows: seq<Row>, its: seq<Item>)
    requires NoDup(was) && Chosen(was, rows, its) && NoDup(its) && ShownOnce(was, rows) && Layout(was, its).Some?
    ensures Redrawn(was, rows, its) == its
  {
    RedrawnInOrder(was, rows, its);
    ShownOnceAreChosen(was, rows, its);
    NothingElseNamed(was, its, Seen(rows));
  }

  // ---- when nothing moves ---------------------------------------------------------

  /** The old list starts with the snapshot's keys, each named once, and only repeats them. */
  predicate InPlace(was: seq<string>, keys: seq<string>) {
    NoDup(keys) && keys <= was && forall k | |keys| <= k < |was| :: was[k] in keys
  }

  lemma {:induction false} FirstAt(items: seq<Item>, k: nat)
    requires k < |items| && forall j | 0 <= j < k :: items[j].key != items[k].key
    ensures First(items, items[k].key) == Some(items[k])
  {
    if k > 0 {
      assert items[0].key != items[k].key;
      FirstAt(items[1..], k - 1);
    }
  }

  /** The rows' items already head the old list exactly when its keys say so. */
  lemma ChosenHeadsList(was: seq<Item>, rows: seq<Row>, its: seq<Item>)
    requires NoDup(was) && Chosen(was, rows, its)
    ensures its <= was <==> NoDup(Keys(rows)) && Keys(rows) <= ItemKeys(was)
  {
    if its <= was {
      forall j, k | 0 <= j < k < |rows| ensures Keys(rows)[j] != Keys(rows)[k] {
        assert its[j] == was[j] && its[k] == was[k];
      }
    }
    if NoDup(Keys(rows)) && Keys(rows) <= ItemKeys(was) {
      forall k | 0 <= k < |rows| ensures its[k] == was[k] {
        assert ItemKeys(was)[k] == Keys(rows)[k];
        forall j | 0 <= j < k ensures was[j].key != was[k].key {
          assert ItemKeys(was)[j] == Keys(rows)[j];
        }
        FirstAt(was, k);
      }
    }
  }

  lemma InPlaceExactly(was: seq<Item>, rows: seq<Row>, its: seq<Item>)
    requires NoDup(was) && Chosen(was, rows, its)
    ensures its <= was && Named(was, Seen(rows)) == was <==> InPlace(ItemKeys(was), Keys(rows))
  {
    ChosenHeadsList(was, rows, its);
    NamedAll(was, Seen(rows));
    if InPlace(ItemKeys(was), Keys(rows)) {
      forall it | it in was ensures it.key in Seen(rows) {
        var k :| 0 <= k < |was| && was[k] == it;
        assert ItemKeys(was)[k] == it.key;
        assert k < |rows| ==> Keys(rows)[k] == ItemKeys(was)[k];
      }
    }
    if its <= was && Named(was, Seen(rows)) == was {
      forall k | |rows| <= k < |was| ensures ItemKeys(was)[k] in Keys(rows) {
        assert was[k] in was;
      }
    }
  }

  /** The rows' items, and behind them what is named besides. */
  lemma RedrawnInOrder(was: seq<Item>, rows: seq<Row>, its: seq<Item>)
    requires NoDup(was) && Chosen(was, rows, its) && NoDup(its)
    ensures Layout(was, its).Some?
    ensures Redrawn(was, rows, its) == its + Named(Without(was, its), Seen(rows))
  {
    LayoutInOrder(was, its);
    NamedConcat(its, Without(was, its), Seen(rows));
    ChosenSeen(was, rows, its);
    NamedAll(its, Seen(rows));
  }

  lemma DistinctKeys(was: seq<Item>, rows: seq<Row>)
    requires NoDup(Keys(rows))
    ensures Unrepeated(was, rows)
  {
    forall j, k | 0 <= j < k < |rows| ensures rows[j].key != rows[k].key {
      assert Keys(rows)[j] != Keys(rows)[k];
    }
  }

  /** Another redraw with the same snapshot changes nothing if and only if it names no key twice. */
  lemma RedrawnSettles(was: seq<Item>, rows: seq<Row>, its: seq<Item>)
    requires NoDup(was) && Chosen(was, rows, its) && Layout(was, its).Some?
    ensures InPlace(ItemKeys(Redrawn(was, rows, its)), Keys(rows)) <==> NoDup(Keys(rows))
  {
    if NoDup(Keys(rows)) {
      var now := Redrawn(was, rows, its);
      DistinctKeys(was, rows);
      ChosenOnce(was, rows, its);
      RedrawnInOrder(was, rows, its);
      WithoutMembers(was, its);
      HeadsKeys(now, its, Without(was, its), rows);
    }
  }

  lemma HeadsKeys(now: seq<Item>, its: seq<Item>, rest: seq<Item>, rows: seq<Row>)
    requires NoDup(rest) && now == its + Named(rest, Seen(rows))
    requires |its| == |rows| && (forall k | 0 <= k < |rows| :: its[k].key == rows[k].key)
    ensures Keys(rows) <= ItemKeys(now)
    ensures forall k | |rows| <= k < |now| :: ItemKeys(now)[k] in Keys(rows)
  {
    NamedMembers(rest, Seen(rows));
    forall k | |rows| <= k < |now| ensures ItemKeys(now)[k] in Keys(rows) {
      assert now[k] == Named(rest, Seen(rows))[k - |rows|];
      assert now[k] in Named(rest, Seen(rows));
    }
  }

  // ---- for the pass over the rows --------------------------------------------------

  /** No later row has the item of row `k`. */
  predicate Last(its: seq<Item>, k: nat)
    requires k < |its|
  {
    forall j | k < j < |its| :: its[j] != its[k]
  }

  lemma LastBefore(its: seq<Item>, it: Item)
    ensures forall k | 0 <= k < |its| && Last(its + [it], k) :: Last(its, k) && its[k] == (its + [it])[k] != it
  {
    forall k | 0 <= k < |its| && Last(its + [it], k) ensures Last(its, k) && its[k] != it {
      assert (its + [it])[|its|] != its[k];
      assert forall j | k < j < |its| :: (its + [it])[j] == its[j];
    }
  }

  /** The pass over the first rows decides for all of them. */
  lemma Ranges(was: seq<Item>, rows: seq<Row>, its: seq<Item>, ok: bool)
    requires NoDup(was) && |its| <= |rows| && Chosen(was, rows[..|its|], its)
    requires if ok then |its| == |rows| && Layout(was, its).Some? else Layout(was, its).None?
    ensures ok <==> Shown(was, rows) <= |was|
  {
    hide Layout, Shown, Chosen, NoDup;
    InRange(was, rows[..|its|], its);
    ShownGrows(was, rows, |its|);
    if ok { assert rows[..|its|] == rows; }
  }

  lemma NothingChosen(was: seq<Item>, rows: seq<Row>)
    ensures Chosen(was, rows[..0], []) && Layout(was, []) == Some(was)
  {}

  lemma ChosenMore(was: seq<Item>, rows: seq<Row>, its: seq<Item>, it: Item)
    requires |its| < |rows| && Chosen(was, rows[..|its|], its) && it.key == rows[|its|].key
    requires match First(was, rows[|its|].key) { case Some(first) => it == first case None => it !in was && it !in its }
    ensures Chosen(was, rows[..|its| + 1], its + [it])
  {
    forall k | 0 <= k < |its| ensures (its + [it])[k].key == rows[..|its| + 1][k].key {
      assert rows[..|its|][k] == rows[..|its| + 1][k];
    }
  }

  lemma {:induction false} FirstAppend(items: seq<Item>, it: Item)
    ensures forall key :: First(items + [it], key) ==
                          if First(items, key).Some? then First(items, key) else if it.key == key then Some(it) else None
  {
    if items == [] {
      assert items + [it] == [it];
    } else {
      assert (items + [it])[1..] == items[1..] + [it];
      FirstAppend(items[1..], it);
    }
  }
}
