/**
 * The orphan-order cleanup script (scripts/cleanup-orders.ts): pharmacy
 * orders whose patient is not registered are deleted, their items first so
 * that no item is ever left pointing at a deleted order.
 */
module CleanupOrders {
  import opened Store

  /** The ids of the orders whose patient is not a registered patient. */
  function InvalidOrders(orders: map<int, Order>, patients: map<string, Patient>): (r: set<int>)
    ensures forall id :: id in r <==> id in orders && orders[id].patientId !in patients
  {
    set id | id in orders && orders[id].patientId !in patients
  }

  /** `deleteMany({ where: { id: { in: bad } } })` on the orders. */
  function OrdersOutside(orders: map<int, Order>, bad: set<int>): (r: map<int, Order>)
    ensures forall id :: id in r <==> id in orders && id !in bad
    ensures forall id :: id in r ==> r[id] == orders[id]
  {
    map id | id in orders && id !in bad :: orders[id]
  }

  /** `deleteMany({ where: { order_id: { in: bad } } })` on the items. */
  function ItemsOutside(items: map<int, OrderItem>, bad: set<int>): (r: map<int, OrderItem>)
    ensures forall id :: id in r <==> id in items && items[id].orderId !in bad
    ensures forall id :: id in r ==> r[id] == items[id]
  {
    map id | id in items && items[id].orderId !in bad :: items[id]
  }

  /** The two tables the script writes. */
  datatype PharmacyTables = PharmacyTables(orders: map<int, Order>, items: map<int, OrderItem>)

  /** The tables after the script: the invalid orders and their items are gone. */
  function Cleaned(t: PharmacyTables, patients: map<string, Patient>): PharmacyTables {
    var bad := InvalidOrders(t.orders, patients);
    PharmacyTables(OrdersOutside(t.orders, bad), ItemsOutside(t.items, bad))
  }

  /** Afterwards every order references a registered patient. */
  lemma CleanedOrdersRegistered(t: PharmacyTables, patients: map<string, Patient>)
    ensures var c := Cleaned(t, patients);
            forall id :: id in c.orders ==> c.orders[id].patientId in patients
  {
  }

  /** Orders of registered patients, and their items, are left exactly as they were. */
  lemma CleanedKeepsValid(t: PharmacyTables, patients: map<string, Patient>, nextItemId: int)
    requires ItemsValid(t.items, t.orders, nextItemId)
    ensures var c := Cleaned(t, patients);
            && (forall id :: id in t.orders && t.orders[id].patientId in patients ==> id in c.orders && c.orders[id] == t.orders[id])
            && (forall id :: id in t.items && t.orders[t.items[id].orderId].patientId in patients ==> id in c.items && c.items[id] == t.items[id])
  {
  }

  /** No item is left pointing at a deleted order: the foreign key of the items still holds. */
  lemma CleanedKeepsForeignKey(t: PharmacyTables, patients: map<string, Patient>, nextOrderId: int, nextItemId: int)
    requires OrdersValid(t.orders, nextOrderId) && ItemsValid(t.items, t.orders, nextItemId)
    ensures var c := Cleaned(t, patients);
            OrdersValid(c.orders, nextOrderId) && ItemsValid(c.items, c.orders, nextItemId)
  {
  }

  /**
   * Deleting the items first keeps the foreign key between the two steps;
   * deleting the orders first would break it whenever an invalid order has
   * an item.
   */
  lemma ItemsFirst(t: PharmacyTables, patients: map<string, Patient>, nextItemId: int, item: int)
    requires ItemsValid(t.items, t.orders, nextItemId)
    requires item in t.items && t.items[item].orderId in InvalidOrders(t.orders, patients)
    ensures var bad := InvalidOrders(t.orders, patients);
            && ItemsValid(ItemsOutside(t.items, bad), t.orders, nextItemId)
            && !ItemsValid(t.items, OrdersOutside(t.orders, bad), nextItemId)
  {
  }

  /** With no invalid order, nothing is deleted. */
  lemma NothingInvalidNothingDeleted(t: PharmacyTables, patients: map<string, Patient>)
    requires InvalidOrders(t.orders, patients) == {}
    ensures Cleaned(t, patients) == t
  {
    var c := Cleaned(t, patients);
    assert c.orders == t.orders;
    assert c.items == t.items;
  }

  /** Running the script twice deletes nothing the second time. */
  lemma CleanedIdempotent(t: PharmacyTables, patients: map<string, Patient>)
    ensures Cleaned(Cleaned(t, patients), patients) == Cleaned(t, patients)
  {
    NothingInvalidNothingDeleted(Cleaned(t, patients), patients);
  }

  /**
   * `main()`: collect the ids of the orders of unregistered patients; with
   * none, stop; otherwise delete their items, then the orders.
   */
  method CleanupOrders(book: OrderBook, reg: Registry) returns (invalidOrderIds: seq<int>)
    requires book.Valid()
    modifies book`orders, book`items
    ensures book.Valid()
    ensures forall id :: id in invalidOrderIds <==> id in InvalidOrders(old(book.orders), reg.patients)
    ensures PharmacyTables(book.orders, book.items) == Cleaned(PharmacyTables(old(book.orders), old(book.items)), reg.patients)
  {
    // 1. The registered patients, and 2. the invalid orders, visited by id.
    var validPatientIds := reg.patients.Keys;
    var allOrders := book.orders;
    assert forall k :: k in allOrders ==> 1 <= k < book.nextOrderId;
    invalidOrderIds := [];
    for id := 1 to book.nextOrderId
      invariant forall k :: k in invalidOrderIds <==> 1 <= k < id && k in allOrders && allOrders[k].patientId !in validPatientIds
    {
      if id in allOrders && allOrders[id].patientId !in validPatientIds {
        invalidOrderIds := invalidOrderIds + [id];
      }
    }
    var bad := set id | id in invalidOrderIds;
    assert bad == InvalidOrders(allOrders, reg.patients) by {
      forall k
        ensures k in bad <==> k in InvalidOrders(allOrders, reg.patients)
      {
        assert k in bad <==> k in invalidOrderIds;
        assert k in allOrders ==> 1 <= k < book.nextOrderId;
        assert k in allOrders ==> (allOrders[k].patientId in validPatientIds <==> allOrders[k].patientId in reg.patients);
      }
    }

    if |invalidOrderIds| == 0 {
      NothingInvalidNothingDeleted(PharmacyTables(book.orders, book.items), reg.patients);
      return;
    }

    // 3. The items first, 4. then the orders.
    book.items := ItemsOutside(book.items, bad);
    book.orders := OrdersOutside(book.orders, bad);
  }
}
