/** Listing stock, and the units that an order's line items hold. */
module Stock {

  datatype Item = Item(product: nat, quantity: nat)

  function Units(items: seq<Item>, product: nat): nat {
    if items == [] then 0
    else
      var last := items[|items| - 1];
      Units(items[..|items| - 1], product) + if last.product == product then last.quantity else 0
  }

  function TotalUnits(items: seq<Item>): nat {
    if items == [] then 0 else TotalUnits(items[..|items| - 1]) + items[|items| - 1].quantity
  }

  /** Every line item names a listing that exists. */
  predicate AllListed(items: seq<Item>, stock: seq<int>) {
    forall i :: 0 <= i < |items| ==> items[i].product < |stock|
  }

  lemma OneMoreItem(items: seq<Item>, done: nat, stock: seq<int>)
    requires done < |items|
    ensures TotalUnits(items[..done + 1]) == TotalUnits(items[..done]) + items[done].quantity
    ensures AllListed(items[..done + 1], stock) <==> AllListed(items[..done], stock) && items[done].product < |stock|
  {
    assert items[..done + 1][..done] == items[..done];
    assert items[..done + 1] == items[..done] + [items[done]];
  }

  /** What checkout does: take the items out of stock. */
  function Reserve(stock: seq<int>, items: seq<Item>): (r: seq<int>)
    ensures |r| == |stock|
  {
    seq(|stock|, k requires 0 <= k < |stock| => stock[k] - Units(items, k))
  }

  /** What the restore loop has done after all the items: one increment per line item, in order. */
  function Restock(stock: seq<int>, items: seq<Item>): (r: seq<int>)
    requires AllListed(items, stock)
    ensures |r| == |stock|
    decreases |items|
  {
    if items == [] then stock
    else
      var before := Restock(stock, items[..|items| - 1]);
      var last := items[|items| - 1];
      before[last.product := before[last.product] + last.quantity]
  }

  lemma {:induction false} RestockAddsUnits(stock: seq<int>, items: seq<Item>, k: nat)
    requires AllListed(items, stock) && k < |stock|
    ensures Restock(stock, items)[k] == stock[k] + Units(items, k)
    decreases |items|
  {
    if items != [] {
      RestockAddsUnits(stock, items[..|items| - 1], k);
    }
  }

  /** Checkout and cancellation undo each other, listing by listing. */
  lemma RestockUndoesReserve(stock: seq<int>, items: seq<Item>)
    requires AllListed(items, stock)
    ensures Restock(Reserve(stock, items), items) == stock
  {
    forall k | 0 <= k < |stock|
      ensures Restock(Reserve(stock, items), items)[k] == stock[k]
    {
      RestockAddsUnits(Reserve(stock, items), items, k);
    }
  }
}
