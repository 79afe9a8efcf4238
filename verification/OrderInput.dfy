/** Generation of the input of a New-Order.  Draws that are repeated until they satisfy a condition come from
    a tape, so that the loops end when the tape does. */
module OrderInput {
  import opened Aggregates
  import opened Schema
  import opened NewOrders
  import opened Database

  class Tape {
    var draws: seq<int>

    constructor (draws: seq<int>)
      ensures this.draws == draws
    {
      this.draws := draws;
    }

    /** Draw until the value is not excluded. */
    method DrawUnused(excluded: set<int>) returns (r: Option<int>)
      modifies this
      ensures r.Some? ==> r.value !in excluded && r.value in old(draws)
      ensures r.None? <==> forall x <- old(draws) :: x in excluded
      ensures forall x <- draws :: x in old(draws)
    {
      ghost var n := 0;
      while draws != []
        invariant 0 <= n <= |old(draws)| && draws == old(draws)[n..]
        invariant forall x <- old(draws)[..n] :: x in excluded
      {
        var x := draws[0];
        draws := draws[1..];
        n := n + 1;
        if x !in excluded {
          return Some(x);
        }
      }
      return None;
    }
  }

  /** An item of an order for warehouse w and the ids used so far. */
  ghost predicate GeneratedItems(items: seq<Item>, used: set<int>, w: int, W: int, allLocal: bool) {
    && DistinctItems(items)
    && (forall i :: 0 <= i < |items| ==> GeneratedItem(items[i], W) && items[i].id in used)
    && (allLocal <==> forall i :: 0 <= i < |items| ==> items[i].supplyW == w)
  }

  lemma GeneratedItemsExtended(items: seq<Item>, used: set<int>, w: int, W: int, allLocal: bool, x: Item)
    requires GeneratedItems(items, used, w, W, allLocal) && GeneratedItem(x, W) && x.id !in used
    ensures GeneratedItems(items + [x], used + {x.id}, w, W, allLocal && x.supplyW == w)
  {
    var all := items + [x];
    assert forall i | 0 <= i < |items| :: all[i] == items[i];
    if allLocal && x.supplyW == w {
      assert forall i | 0 <= i < |all| :: all[i].supplyW == w;
    } else if x.supplyW == w {
      var i :| 0 <= i < |items| && items[i].supplyW != w;
      assert all[i].supplyW != w;
    } else {
      assert all[|items|].supplyW != w;
    }
  }

  /** The item loop: ids are unique, and the last item may be the unknown one that forces a rollback.
      The result is None when a tape ran out before a loop that repeats a draw was satisfied. */
  method GenerateItems(w: int, W: int, count: nat, rollback: bool, ids: Tape, others: Tape)
    returns (r: Option<(seq<Item>, bool)>)
    requires ids != others && 5 <= count <= 15 && 1 <= w <= W
    requires (forall x <- ids.draws :: 1 <= x <= ITEMS) && (forall x <- others.draws :: 1 <= x <= W)
    modifies ids, others
    ensures r.Some? ==>
      var (items, allLocal) := r.value;
      && |items| == count
      && (forall d, c :: 1 <= d <= DISTRICTS && 1 <= c <= CUSTOMERS ==> Generated(Input(w, d, c, items, allLocal), W))
      && (rollback <==> items[count - 1].id == UNUSED_ITEM)
  {
    var items, used, allLocal := [], {}, true;
    for i := 0 to count
      invariant |items| == i && GeneratedItems(items, used, w, W, allLocal)
      invariant forall x <- ids.draws :: 1 <= x <= ITEMS
      invariant forall x <- others.draws :: 1 <= x <= W
      invariant forall id <- used :: id != UNUSED_ITEM || (i == count && rollback)
      invariant forall j :: 0 <= j < i ==> (items[j].id == UNUSED_ITEM <==> rollback && j == count - 1)
    {
      var id := UNUSED_ITEM;
      if !(i == count - 1 && rollback) {
        var drawn := ids.DrawUnused(used);
        if drawn.None? {
          return None;
        }
        id := drawn.value;
      }
      var supplyW := w;
      var percent := RandInt(1, 100);
      if !(W == 1 || percent != 1) {
        var other := others.DrawUnused({w});
        if other.None? {
          return None;
        }
        supplyW := other.value;
      }
      var quantity := RandInt(1, 10);
      var x := Item(id, supplyW, quantity);
      GeneratedItemsExtended(items, used, w, W, allLocal, x);
      items, used, allLocal := items + [x], used + {id}, allLocal && supplyW == w;
    }
    return Some((items, allLocal));
  }
}
