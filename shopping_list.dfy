/** The dashboard shopping list: a fixed list of items and the ids the user has ticked. */
module ShoppingList {

  import Seqs

  datatype ShoppingItem = ShoppingItem(id: int, name: string, category: string, quantity: string, priority: string)

  /** `getPriorityClass`: a colour per known priority, the empty class for anything else. */
  function PriorityClass(priority: string): (c: string)
    ensures priority == "high" <==> c == "text-red-500"
    ensures priority == "medium" <==> c == "text-amber-500"
    ensures priority == "low" <==> c == "text-emerald-500"
    ensures priority !in {"high", "medium", "low"} <==> c == ""
  {
    match priority
    case "high" => "text-red-500"
    case "medium" => "text-amber-500"
    case "low" => "text-emerald-500"
    case _ => ""
  }

  predicate NoDuplicates(ids: seq<int>)
  {
    forall i, j :: 0 <= i < j < |ids| ==> ids[i] != ids[j]
  }

  /** The list after `toggleItem(id)`: drop every copy of `id` if ticked, else append it. */
  function Toggled(checked: seq<int>, id: int): (r: seq<int>)
    ensures id in r <==> id !in checked
    ensures forall x :: x != id ==> (x in r <==> x in checked)
    ensures NoDuplicates(checked) ==> NoDuplicates(r)
  {
    if id in checked then
      var kept := Seqs.Filter(checked, (x: int) => x != id);
      assert NoDuplicates(checked) ==> NoDuplicates(kept) by {
        if NoDuplicates(checked) {
          FilterKeepsDistinct(checked, id);
        }
      }
      kept
    else checked + [id]
  }

  lemma {:induction false} FilterKeepsDistinct(checked: seq<int>, id: int)
    requires NoDuplicates(checked)
    ensures NoDuplicates(Seqs.Filter(checked, (x: int) => x != id))
    decreases |checked|
  {
    if checked != [] {
      FilterKeepsDistinct(checked[1..], id);
      var rest := Seqs.Filter(checked[1..], (x: int) => x != id);
      assert checked[0] !in rest by {
        assert checked[0] !in checked[1..];
      }
      assert Seqs.Filter(checked, (x: int) => x != id) == if checked[0] != id then [checked[0]] + rest else rest;
    }
  }

  /** Toggling an id twice restores the set of ticked ids; an id that was not ticked leaves the list exactly as it was. */
  lemma ToggleTwice(checked: seq<int>, id: int)
    ensures forall x :: x in Toggled(Toggled(checked, id), id) <==> x in checked
    ensures id !in checked ==> Toggled(Toggled(checked, id), id) == checked
  {
    if id !in checked {
      Seqs.FilterKeepsAll(checked, (x: int) => x != id);
      assert (checked + [id])[..|checked|] == checked;
      FilterDropsLast(checked, id);
    }
  }

  lemma {:induction false} FilterDropsLast(checked: seq<int>, id: int)
    requires id !in checked
    ensures Seqs.Filter(checked + [id], (x: int) => x != id) == checked
    decreases |checked|
  {
    if checked == [] {
      assert [id][1..] == [];
    } else {
      assert (checked + [id])[1..] == checked[1..] + [id];
      FilterDropsLast(checked[1..], id);
    }
  }

  class List {
    var items: seq<ShoppingItem>
    var checkedItems: seq<int>

    ghost predicate Valid()
      reads this
    {
      NoDuplicates(checkedItems)
    }

    constructor(initialItems: seq<ShoppingItem>)
      ensures items == initialItems && checkedItems == []
      ensures Valid()
    {
      items := initialItems;
      checkedItems := [];
    }

    /** `toggleItem`: the checkbox of one item; the shopping items themselves are never touched. */
    method ToggleItem(id: int)
      requires Valid()
      modifies this
      ensures checkedItems == Toggled(old(checkedItems), id)
      ensures items == old(items)
      ensures Valid()
    {
      if id in checkedItems {
        checkedItems := Seqs.Filter(checkedItems, (itemId: int) => itemId != id);
      } else {
        checkedItems := checkedItems + [id];
      }
    }
  }
}
