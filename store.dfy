/**
 The order store: the newest-first list of order records and the operations the
 order form, the tracking page and the admin page perform on it.
 */
module Store {
  import opened Text
  import opened JsArray
  import opened Pricing
  import opened Orders

  /** Whether the stored code `id` is the one the customer typed: the query is trimmed and
      both sides are lowered before the exact comparison. */
  predicate CodeMatches(id: string, code: string)
  {
    Lower(id) == Lower(Trim(code))
  }

  /** The tracking lookup: the first record whose code matches the query, if any. */
  function FindByCode(orders: seq<Order>, code: string): (r: Option<Order>)
    ensures r.None? <==> forall j :: 0 <= j < |orders| ==> !CodeMatches(orders[j].id, code)
    ensures r.Some? ==> exists i :: 0 <= i < |orders| && orders[i] == r.value &&
                                    CodeMatches(orders[i].id, code) &&
                                    forall j :: 0 <= j < i ==> !CodeMatches(orders[j].id, code)
  {
    var q := Lower(Trim(code));
    Find(orders, (o: Order) => Lower(o.id) == q)
  }

  /** The position `updateStatus` works on: the first record with exactly this code. */
  function IndexOfId(orders: seq<Order>, id: string): (r: Option<nat>)
    ensures r.Some? ==> r.value < |orders| && orders[r.value].id == id &&
                        forall j :: 0 <= j < r.value ==> orders[j].id != id
    ensures r.None? <==> forall j :: 0 <= j < |orders| ==> orders[j].id != id
  {
    FindIndex(orders, (o: Order) => o.id == id)
  }

  /** The list after `updateStatus(id, dir)`: the first record with the code is advanced,
      everything else is kept; an unknown code leaves the list as it is. */
  function UpdatedOrders(orders: seq<Order>, id: string, dir: int, at: Timestamp): (r: seq<Order>)
    ensures |r| == |orders|
    ensures IndexOfId(orders, id).None? ==> r == orders
    ensures IndexOfId(orders, id).Some? ==>
              var i := IndexOfId(orders, id).value;
              r[i] == Advance(orders[i], dir, at) &&
              forall j :: 0 <= j < |orders| && j != i ==> r[j] == orders[j]
  {
    match IndexOfId(orders, id)
    case None => orders
    case Some(i) => orders[i := Advance(orders[i], dir, at)]
  }

  /** The list after `remove(id)`: every record whose code differs, in the same order. */
  function WithoutId(orders: seq<Order>, id: string): (r: seq<Order>)
    ensures forall j :: 0 <= j < |r| ==> r[j].id != id && r[j] in orders
    ensures forall j :: 0 <= j < |orders| && orders[j].id != id ==> orders[j] in r
    ensures (forall j :: 0 <= j < |orders| ==> orders[j].id != id) ==> r == orders
  {
    Filter(orders, (o: Order) => o.id != id)
  }

  /** Every record in the list is well formed. */
  ghost predicate AllWellFormed(orders: seq<Order>)
  {
    forall i :: 0 <= i < |orders| ==> WellFormed(orders[i])
  }

  class OrderStore {
    /** The stored records, newest first. */
    var orders: seq<Order>

    ghost predicate Valid()
      reads this
    {
      AllWellFormed(orders)
    }

    /** A store with nothing saved in it yet. */
    constructor ()
      ensures orders == [] && Valid()
    {
      orders := [];
    }

    /** `createOrder`: build the record for the form and put it in front of the others. */
    method Create(id: string, at: Timestamp, form: OrderForm) returns (o: Order)
      modifies this
      ensures o == NewOrder(id, at, form)
      ensures orders == [o] + old(orders)
      ensures old(Valid()) ==> Valid()
    {
      o := NewOrder(id, at, form);
      orders := [o] + orders;
    }

    /** `updateStatus(id, dir)`: find the first record with the code, clamp its stage moved
        by `dir` into the pipeline and, only if that changes the stage, store the new stage
        with a history entry in front. */
    method UpdateStatus(id: string, dir: int, at: Timestamp)
      modifies this
      ensures orders == UpdatedOrders(old(orders), id, dir, at)
      ensures old(Valid()) ==> Valid()
    {
      if Valid() {
        UpdatePreservesWellFormed(orders, id, dir, at);
      }
      var idx := IndexOfId(orders, id);
      if idx.None? {
        return;
      }
      var cur := orders[idx.value];
      var next := Clamp(cur.statusIndex + dir, 0, LastStage);
      if next != cur.statusIndex {
        var entry := HistoryEntry(at, StatusFlow[next], MoveNote(dir));
        cur := cur.(statusIndex := next, history := [entry] + cur.history);
        orders := orders[idx.value := cur];
      }
    }

    /** `remove(id)`: drop every record with exactly this code. */
    method Remove(id: string)
      modifies this
      ensures orders == WithoutId(old(orders), id)
      ensures old(Valid()) ==> Valid()
    {
      orders := WithoutId(orders, id);
    }

    /** "Reset Semua": forget every record. */
    method ResetAll()
      modifies this
      ensures orders == [] && Valid()
    {
      orders := [];
    }

    /** The tracking page's lookup on the current list: the first matching record, if any;
        reading it changes nothing. */
    function Find(code: string): (r: Option<Order>)
      reads this
      ensures r == FindByCode(orders, code)
    {
      FindByCode(orders, code)
    }
  }

  /** A status update keeps every record well formed. */
  lemma UpdatePreservesWellFormed(orders: seq<Order>, id: string, dir: int, at: Timestamp)
    requires AllWellFormed(orders)
    ensures AllWellFormed(UpdatedOrders(orders, id, dir, at))
  {
    if IndexOfId(orders, id).Some? {
      AdvancePreservesWellFormed(orders[IndexOfId(orders, id).value], dir, at);
    }
  }

  /** Only the first record with the code can change; a later record with the same code,
      and every other record, is left as it was. */
  lemma UpdateTouchesOnlyFirstMatch(orders: seq<Order>, id: string, dir: int, at: Timestamp, j: nat)
    requires j < |orders|
    requires orders[j].id != id || exists k :: 0 <= k < j && orders[k].id == id
    ensures UpdatedOrders(orders, id, dir, at)[j] == orders[j]
  {
  }

  /** Asking the last stage to move forward, or stage 0 to move back, changes nothing in the store. */
  lemma UpdateAtBoundaryIsNoOp(orders: seq<Order>, id: string, at: Timestamp, i: nat)
    requires i < |orders| && orders[i].id == id
    requires forall j :: 0 <= j < i ==> orders[j].id != id
    ensures orders[i].statusIndex == LastStage ==> UpdatedOrders(orders, id, 1, at) == orders
    ensures orders[i].statusIndex == 0 ==> UpdatedOrders(orders, id, -1, at) == orders
  {
    assert IndexOfId(orders, id) == Some(i);
    BoundaryMovesAreNoOps(orders[i], at);
    if orders[i].statusIndex == LastStage {
      assert orders[i := orders[i]] == orders;
    }
    if orders[i].statusIndex == 0 {
      assert orders[i := orders[i]] == orders;
    }
  }

  /** Removing drops every record with the code and keeps the others in their order:
      removing from a list is removing from each of its parts. */
  lemma RemoveKeepsOrder(orders: seq<Order>, more: seq<Order>, id: string)
    ensures WithoutId(orders + more, id) == WithoutId(orders, id) + WithoutId(more, id)
  {
    FilterAppend(orders, more, (o: Order) => o.id != id);
  }

  /** Removing a record in front keeps it exactly when its code differs. */
  lemma RemoveFront(o: Order, orders: seq<Order>, id: string)
    ensures WithoutId([o] + orders, id) ==
            if o.id != id then [o] + WithoutId(orders, id) else WithoutId(orders, id)
  {
    FilterCons(o, orders, (o: Order) => o.id != id);
  }

  /** Removing twice is removing once. */
  lemma RemoveIdempotent(orders: seq<Order>, id: string)
    ensures WithoutId(WithoutId(orders, id), id) == WithoutId(orders, id)
  {
  }

  /** After removal no update can find the code any more. */
  lemma RemovedCodeIsUnknown(orders: seq<Order>, id: string, dir: int, at: Timestamp)
    ensures IndexOfId(WithoutId(orders, id), id).None?
    ensures UpdatedOrders(WithoutId(orders, id), id, dir, at) == WithoutId(orders, id)
  {
  }

  /** A code typed in any letter case and with blanks around it matches the stored code,
      as long as the stored code itself has no blanks at its ends. */
  lemma TypedCodeMatches(id: string, b1: string, typed: string, b2: string)
    requires id != [] && !IsTrimmable(id[0]) && !IsTrimmable(id[|id| - 1])
    requires forall i :: 0 <= i < |b1| ==> IsTrimmable(b1[i])
    requires forall i :: 0 <= i < |b2| ==> IsTrimmable(b2[i])
    requires |typed| == |id| && forall i :: 0 <= i < |id| ==> LowerChar(typed[i]) == LowerChar(id[i])
    ensures CodeMatches(id, b1 + typed + b2)
  {
    assert !IsTrimmable(typed[0]) by {
      assert LowerChar(typed[0]) == LowerChar(id[0]);
    }
    assert !IsTrimmable(typed[|typed| - 1]) by {
      assert LowerChar(typed[|id| - 1]) == LowerChar(id[|id| - 1]);
    }
    TrimRemovesBlankEnds(b1, typed, b2);
    LowerIgnoresCase(typed, id);
  }

  /** A newly created order is found by its own code, typed in any letter case and with
      blanks around it, whatever orders were stored before it. */
  lemma CreatedOrderIsFound(id: string, at: Timestamp, form: OrderForm, orders: seq<Order>,
                            b1: string, typed: string, b2: string)
    requires id != [] && !IsTrimmable(id[0]) && !IsTrimmable(id[|id| - 1])
    requires forall i :: 0 <= i < |b1| ==> IsTrimmable(b1[i])
    requires forall i :: 0 <= i < |b2| ==> IsTrimmable(b2[i])
    requires |typed| == |id| && forall i :: 0 <= i < |id| ==> LowerChar(typed[i]) == LowerChar(id[i])
    ensures FindByCode([NewOrder(id, at, form)] + orders, b1 + typed + b2) == Some(NewOrder(id, at, form))
  {
    var code := b1 + typed + b2;
    TypedCodeMatches(id, b1, typed, b2);
    var q := Lower(Trim(code));
    assert Find([NewOrder(id, at, form)] + orders, (o: Order) => Lower(o.id) == q).Some?;
  }

  /** The stored code "CR250101-AB12" is found from the query "cr250101-ab12". */
  lemma LookupIgnoresCase(o: Order, orders: seq<Order>)
    requires o.id == "CR250101-AB12"
    ensures FindByCode([o] + orders, "cr250101-ab12") == Some(o)
  {
    var code := "cr250101-ab12";
    forall i | 0 <= i < |code|
      ensures LowerChar(code[i]) == LowerChar(o.id[i])
    {
      if i < 2 || 10 <= i {
        assert 'A' <= o.id[i] <= 'Z' ==> code[i] as int == o.id[i] as int + 32;
      }
    }
    TypedCodeMatches(o.id, [], code, []);
    assert [] + code + [] == code;
    assert CodeMatches(([o] + orders)[0].id, code);
  }
}
