/** The list control as an object, whose redraw works item by item and does what the
    functions of `Reconcile` say (src/app/MainWindow.xaml.cpp). */
module ItemLists {
  import opened Wrappers
  import opened Strips
  import opened Reconcile

  /** A ListView's Items(): `edits` counts every insertion and removal. */
  class ItemList {
    var items: seq<Item>
    ghost var edits: nat

    constructor ()
      ensures items == [] && edits == 0
    {
      items, edits := [], 0;
    }

    method IndexOf(it: Item) returns (found: bool, index: nat)
      ensures found <==> it in items
      ensures found ==> index < |items| && items[index] == it && it !in items[..index]
    {
      index := 0;
      while index < |items|
        invariant index <= |items| && it !in items[..index]
      {
        if items[index] == it { return true, index; }
        index := index + 1;
      }
      return false, 0;
    }

    method RemoveAt(index: nat)
      requires index < |items|
      modifies this
      ensures items == old(items)[..index] + old(items)[index + 1..] && edits == old(edits) + 1
    {
      items, edits := items[..index] + items[index + 1..], edits + 1;
    }

    /** An index beyond the end is refused, as the list view refuses it with an exception. */
    method InsertAt(index: nat, it: Item) returns (ok: bool)
      modifies this
      ensures ok <==> index <= |old(items)|
      ensures ok ==> items == Insert(old(items), index, it) && edits == old(edits) + 1
      ensures !ok ==> items == old(items) && edits == old(edits)
    {
      ok := index <= |items|;
      if ok { items, edits := items[..index] + [it] + items[index..], edits + 1; }
    }

    /** `existing`: emplace keeps the first item of a key. */
    method FirstByKey() returns (existing: map<string, Item>)
      ensures forall key :: First(items, key) == if key in existing then Some(existing[key]) else None
    {
      existing := map[];
      var i := 0;
      while i < |items|
        invariant 0 <= i <= |items|
        invariant forall key :: First(items[..i], key) == if key in existing then Some(existing[key]) else None
      {
        FirstAppend(items[..i], items[i]);
        assert items[..i + 1] == items[..i] + [items[i]];
        if items[i].key !in existing {
          existing := existing[items[i].key := items[i]];
        }
        i := i + 1;
      }
      assert items[..i] == items;
    }

    /** An item of the list is moved to `idx`, unless it is there already. */
    method Bring(it: Item, idx: nat) returns (ok: bool)
      requires NoDup(items) && it in items
      modifies this
      ensures var rest := Remove(old(items), it);
              && (ok <==> idx <= |rest|)
              && items == if ok then Insert(rest, idx, it) else rest
      ensures old(edits) <= edits && (edits == old(edits) <==> idx < |old(items)| && old(items)[idx] == it)
    {
      hide Remove;
      var found, cur := IndexOf(it);
      BringStays(items, it, cur);
      ok := true;
      if found && cur != idx {
        RemoveAt(cur);
        ok := InsertAt(idx, it);
      }
    }

    /** One row: its item is updated and brought, or created, at the row's index. */
    method PlaceRow(row: Row, existing: map<string, Item>, idx: nat, ghost was: seq<Item>, ghost its: seq<Item>)
      returns (ok: bool, it: Item)
      requires NoDup(was) && idx == |its| && Layout(was, its) == Some(items)
      requires First(was, row.key) == if row.key in existing then Some(existing[row.key]) else None
      modifies this, was
      ensures it.key == row.key && it.text == row.text
      ensures First(was, row.key).Some? ==> it == First(was, row.key).value
      ensures First(was, row.key).None? ==> fresh(it)
      ensures forall x | x in was && x != it :: x.text == old(x.text)
      ensures Layout(was, its + [it]) == if ok then Some(items) else None
      ensures !ok ==> items == Remove(old(items), it) && edits > old(edits)
      ensures old(edits) <= edits && (its <= was ==> (edits == old(edits) <==> its + [it] <= was))
    {
      LayoutMembers(was, its);
      if its <= was { HeadStays(was, its); }
      hide Remove, First;
      if row.key in existing {
        it := existing[row.key];
        it.text := row.text;
        ok := Bring(it, idx);
      } else {
        it := new Item(row);
        assert it !in items;
        ok := InsertAt(idx, it);
      }
      assert (its + [it])[..idx] == its;
    }

    /** The forward pass: row by row, the row's item is brought to the row's index. An index
        out of range ends it, with the item of that row taken out. */
    method Place(rows: seq<Row>) returns (ok: bool, seen: set<string>, ghost its: seq<Item>)
      requires NoDup(items)
      modifies this, items
      ensures |its| <= |rows| && Chosen(old(items), rows[..|its|], its)
      ensures ok ==> |its| == |rows| && Layout(old(items), its) == Some(items) && seen == Seen(rows)
      ensures !ok ==> its != [] && Layout(old(items), its).None?
      ensures !ok ==> Layout(old(items), its[..|its| - 1]).Some?
                      && items == Remove(Layout(old(items), its[..|its| - 1]).value, its[|its| - 1])
      ensures forall k | 0 <= k < |its| && Last(its, k) :: its[k].text == rows[k].text
      ensures forall it | it in old(items) && it !in its :: it.text == old(it.text)
      ensures forall it | it in its && it !in old(items) :: fresh(it)
      ensures old(edits) <= edits && (edits == old(edits) <==> ok && its <= old(items))
    {
      hide First, Chosen, Layout, Last;
      var existing := FirstByKey();
      ghost var was := items;
      its, seen := [], {};
      NothingChosen(was, rows);
      var idx := 0;
      while idx < |rows|
        invariant idx == |its| <= |rows|
        invariant seen == set key | key in Keys(rows)[..idx]
        invariant Chosen(was, rows[..idx], its) && Layout(was, its) == Some(items)
        invariant forall k | 0 <= k < idx && Last(its, k) :: its[k].text == rows[k].text
        invariant forall it | it in was && it !in its :: it.text == old(it.text)
        invariant forall it | it in its && it !in was :: fresh(it)
        invariant old(edits) <= edits && (edits == old(edits) <==> its <= was)
      {
        var it;
        ghost var before := its;
        ok, it := PlaceRow(rows[idx], existing, idx, was, its);
        its := its + [it];
        ChosenMore(was, rows, before, it);
        LastBefore(before, it);
        if !ok {
          assert its[..idx] == before;
          return;
        }
        seen := seen + {rows[idx].key};
        idx := idx + 1;
      }
      ok := true;
      assert rows[..idx] == rows && Keys(rows)[..idx] == Keys(rows);
    }

    /** The reverse pass: what the snapshot does not name goes. */
    method Sweep(seen: set<string>)
      modifies this
      ensures items == Named(old(items), seen)
      ensures old(edits) <= edits && (edits == old(edits) <==> items == old(items))
    {
      ghost var was := items;
      var i := |items|;
      assert was[..i] == was && was[i..] == [];
      while i > 0
        invariant 0 <= i <= |was| && items == was[..i] + Named(was[i..], seen)
        invariant old(edits) <= edits && |items| <= |was| && (edits == old(edits) <==> |items| == |was|)
        invariant edits == old(edits) ==> items == was
      {
        i := i - 1;
        assert was[i..] == [was[i]] + was[i + 1..];
        if items[i].key !in seen {
          RemoveAt(i);
        }
      }
    }

    /** The whole redraw, for any snapshot. It fails if and only if more rows than the list has
        items carry a key that the list shows; otherwise the list becomes `Redrawn`, an item
        shows the last row that named it, and nothing was moved, put in or taken out if and
        only if all was in place. */
    method Render(rows: seq<Row>) returns (ok: bool, ghost its: seq<Item>)
      requires NoDup(items)
      modifies this, items
      ensures ok <==> Shown(old(items), rows) <= |old(items)|
      ensures ok ==> Chosen(old(items), rows, its) && Layout(old(items), its).Some?
      ensures ok ==> items == Redrawn(old(items), rows, its)
      ensures ok ==> forall k | 0 <= k < |rows| && Last(its, k) :: its[k].text == rows[k].text
      ensures ok ==> forall it | it in old(items) && it !in its :: it.text == old(it.text)
      ensures ok ==> forall it | it in its && it !in old(items) :: fresh(it)
      ensures edits == old(edits) <==> InPlace(ItemKeys(old(items)), Keys(rows))
      ensures edits == old(edits) ==> ok && items == old(items)
    {
      ghost var was := items;
      var seen;
      ok, seen, its := Place(rows);
      Ranges(was, rows, its, ok);
      if ok {
        InPlaceExactly(was, rows, its);
        if its <= was { HeadStays(was, its); }
        hide Layout, Chosen, First, Shown, InPlace;
        Sweep(seen);
      }
    }
  }
}
