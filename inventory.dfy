/** The inventory page: adding an item (app.py:853-872) and adding or removing stock
    (app.py:874-907), with the "low stock" count (quantity below 100) that the page
    (app.py:849) and the query router (app.py:347) report. */
module Inventory {
  import opened Tables
  import opened Tally

  const LowStockThreshold := 100

  predicate IsLow(i: Item) { i.quantity < LowStockThreshold }

  /** `COUNT(*) FROM inventory WHERE quantity < 100` */
  function LowStockCount(items: seq<Item>): nat { CountIf(items, IsLow) }

  /** `INSERT INTO inventory ... VALUES (name, category, quantity, price, supplier, today)` */
  function AddItem(items: seq<Item>, name: string, category: string, quantity: nat,
                   unitPrice: nat, supplier: string, today: Date): seq<Item>
  {
    items + [Item(name, category, quantity, unitPrice, supplier, today)]
  }

  /** `UPDATE inventory SET quantity = quantity + ?, last_updated = ? WHERE item_id = ?` */
  function Restock(items: seq<Item>, id: Id, amount: nat, today: Date): seq<Item> {
    if Exists(id, |items|)
    then items[id - 1 := items[id - 1].(quantity := items[id - 1].quantity + amount,
                                        lastUpdated := today)]
    else items
  }

  /** `UPDATE inventory SET quantity = quantity - ?, last_updated = ? WHERE item_id = ?`;
      nothing stops the quantity from going below zero. */
  function Withdraw(items: seq<Item>, id: Id, amount: nat, today: Date): seq<Item> {
    if Exists(id, |items|)
    then items[id - 1 := items[id - 1].(quantity := items[id - 1].quantity - amount,
                                        lastUpdated := today)]
    else items
  }

  /** Adding then removing the same amount restores every quantity; the only trace is
      the chosen item's last-updated date. */
  lemma WithdrawUndoesRestock(items: seq<Item>, id: Id, amount: nat, d1: Date, d2: Date)
    ensures var r := Withdraw(Restock(items, id, amount, d1), id, amount, d2);
      && |r| == |items|
      && (forall k :: 0 <= k < |items| ==> r[k].quantity == items[k].quantity)
      && (forall k :: 0 <= k < |items| && k != id - 1 ==> r[k] == items[k])
      && (Exists(id, |items|) ==> r[id - 1] == items[id - 1].(lastUpdated := d2))
  {
  }

  /** Restocking and withdrawing change the chosen item's quantity by exactly the amount
      and touch no other item; a withdrawal may leave a negative quantity. */
  lemma StockChangesOnlyThatItem(items: seq<Item>, id: Id, amount: nat, today: Date)
    ensures var up := Restock(items, id, amount, today);
            var down := Withdraw(items, id, amount, today);
      && |up| == |items| && |down| == |items|
      && (forall k :: 0 <= k < |items| && k != id - 1 ==> up[k] == items[k] && down[k] == items[k])
      && (Exists(id, |items|) ==>
            up[id - 1].quantity == items[id - 1].quantity + amount &&
            down[id - 1].quantity == items[id - 1].quantity - amount &&
            up[id - 1].name == items[id - 1].name && down[id - 1].name == items[id - 1].name)
      && (Exists(id, |items|) && items[id - 1].quantity < amount ==> down[id - 1].quantity < 0)
  {
  }

  /** The low-stock count is the number of items with quantity below 100. */
  lemma LowStockIsItemsBelowThreshold(items: seq<Item>)
    ensures LowStockCount(items) == |set i | 0 <= i < |items| && items[i].quantity < 100|
  {
    CountIsMatchingPositions(items, IsLow);
    assert Matching(items, IsLow) == set i | 0 <= i < |items| && items[i].quantity < 100;
  }

  /** Withdrawing stock never lowers the low-stock count and restocking never raises it. */
  lemma LowStockMonotone(items: seq<Item>, id: Id, amount: nat, today: Date)
    ensures LowStockCount(Withdraw(items, id, amount, today)) >= LowStockCount(items)
    ensures LowStockCount(Restock(items, id, amount, today)) <= LowStockCount(items)
  {
    if Exists(id, |items|) {
      var it := items[id - 1];
      CountUpdate(items, id - 1, it.(quantity := it.quantity - amount, lastUpdated := today), IsLow);
      CountUpdate(items, id - 1, it.(quantity := it.quantity + amount, lastUpdated := today), IsLow);
    }
  }
}
