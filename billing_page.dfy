/**
 * The pharmacy billing page (app/pharmacy/billing/page.tsx): the counter's
 * cart, its total, the inventory search and the checkout. Each handler
 * computes the next cart from the previous one, so each is a function.
 */
module BillingPage {
  import opened Wrappers
  import opened Text
  import opened Lists
  import opened Keyed
  import opened Store
  import opened PharmacyActions

  /** A row of the inventory list as the page shows it. */
  datatype InventoryItem = InventoryItem(batchId: string, medicineName: string, expiryDate: int, stockCount: int, unitPrice: int)

  /** A cart line: the inventory row it was added from and the quantity. */
  datatype CartItem = CartItem(item: InventoryItem, quantity: int)

  // ---------------------------------------------------------------------
  // The cart
  // ---------------------------------------------------------------------

  /** The key the cart is kept by. */
  function BatchOf(l: CartItem): string {
    l.item.batchId
  }

  /** The first line of the batch (`prev.find(i => i.batch_id === id)`). */
  function LineFor(cart: seq<CartItem>, batchId: string): Option<CartItem> {
    Lookup(cart, BatchOf, batchId)
  }

  /** No two lines share a batch. */
  predicate UniqueBatches(cart: seq<CartItem>) {
    UniqueKeys(cart, BatchOf)
  }

  /** Every line asks for at least one unit and no more than its batch holds. */
  predicate InStockQuantities(cart: seq<CartItem>) {
    forall l :: l in cart ==> 1 <= l.quantity <= l.item.stockCount
  }

  /** The cart the handlers keep. */
  predicate WellFormed(cart: seq<CartItem>) {
    UniqueBatches(cart) && InStockQuantities(cart)
  }

  function OneMore(l: CartItem): CartItem {
    l.(quantity := l.quantity + 1)
  }

  /** One more unit on every line of the batch. */
  function Bump(cart: seq<CartItem>, batchId: string): seq<CartItem> {
    Remap(cart, BatchOf, batchId, OneMore)
  }

  /**
   * `addToCart(item)`: a batch not in the cart is appended with quantity 1;
   * a batch in the cart gains a unit while its line's quantity is below the
   * stock of the row being added, and is left as it is otherwise.
   */
  function AddToCart(cart: seq<CartItem>, item: InventoryItem): seq<CartItem> {
    match LineFor(cart, item.batchId)
    case Some(existing) => if existing.quantity < item.stockCount then Bump(cart, item.batchId) else cart
    case None => cart + [CartItem(item, 1)]
  }

  /**
   * The `prev.map` callback of `updateQty` on the batch's line: `null` (to
   * be filtered out) at zero or below, the line itself above its stock, the
   * line with the new quantity otherwise.
   */
  function Stepped(l: CartItem, delta: int): Option<CartItem> {
    var newQty := l.quantity + delta;
    if newQty <= 0 then None
    else if newQty > l.item.stockCount then Some(l)
    else Some(l.(quantity := newQty))
  }

  /** The callback on any line, followed by `filter(Boolean)`: a dropped line is `[]`. */
  function UpdateLine(l: CartItem, batchId: string, delta: int): seq<CartItem> {
    if l.item.batchId != batchId then [l]
    else
      match Stepped(l, delta)
      case None => []
      case Some(n) => [n]
  }

  /**
   * `updateQty(batchId, delta)`: the batch's line moves by `delta`, is
   * dropped at zero or below, and stays as it is above its stock.
   */
  function UpdateQty(cart: seq<CartItem>, batchId: string, delta: int): (r: seq<CartItem>)
    ensures |r| <= |cart|
  {
    if cart == [] then [] else UpdateLine(cart[0], batchId, delta) + UpdateQty(cart[1..], batchId, delta)
  }

  /** `removeFromCart(batchId)` */
  function RemoveFromCart(cart: seq<CartItem>, batchId: string): seq<CartItem> {
    WithoutKey(cart, BatchOf, batchId)
  }

  function LineTotal(l: CartItem): int {
    l.item.unitPrice * l.quantity
  }

  /** `cart.reduce((sum, item) => sum + item.unit_price * item.quantity, 0)` */
  function TotalAmount(cart: seq<CartItem>): int {
    if cart == [] then 0 else LineTotal(cart[0]) + TotalAmount(cart[1..])
  }

  // ---------------------------------------------------------------------
  // Removing
  // ---------------------------------------------------------------------

  /** A line for batch `x` comes out of a removal only if it went in. */
  lemma RemoveNoNew(cart: seq<CartItem>, batchId: string, x: string)
    requires LineFor(cart, x).None?
    ensures LineFor(RemoveFromCart(cart, batchId), x).None?
  {
    WithoutKeyContents(cart, BatchOf, batchId);
  }

  /** Removing keeps the cart well formed. */
  lemma RemoveFromCartWellFormed(cart: seq<CartItem>, batchId: string)
    requires WellFormed(cart)
    ensures WellFormed(RemoveFromCart(cart, batchId))
  {
    WithoutKeyContents(cart, BatchOf, batchId);
    WithoutKeyUnique(cart, BatchOf, batchId);
  }

  /** The value of a batch's line, 0 when there is none. */
  function LineValue(o: Option<CartItem>): int {
    match o
    case None => 0
    case Some(l) => LineTotal(l)
  }

  /**
   * With one line per batch, the total is the total of the other batches'
   * lines plus the batch's own line.
   */
  lemma {:induction false} TotalSplit(cart: seq<CartItem>, batchId: string)
    requires UniqueBatches(cart)
    ensures TotalAmount(cart) == TotalAmount(RemoveFromCart(cart, batchId)) + LineValue(LineFor(cart, batchId))
  {
    if cart != [] {
      TotalSplit(cart[1..], batchId);
    }
  }

  /** Two carts that differ only in one batch's line differ in total by that line's values. */
  lemma ChangeTotal(cart: seq<CartItem>, r: seq<CartItem>, batchId: string)
    requires UniqueBatches(cart) && UniqueBatches(r)
    requires RemoveFromCart(r, batchId) == RemoveFromCart(cart, batchId)
    ensures TotalAmount(r) == TotalAmount(cart) - LineValue(LineFor(cart, batchId)) + LineValue(LineFor(r, batchId))
  {
    TotalSplit(cart, batchId);
    TotalSplit(r, batchId);
  }

  // ---------------------------------------------------------------------
  // Adding
  // ---------------------------------------------------------------------

  lemma {:induction false} BumpInStock(cart: seq<CartItem>, batchId: string, stock: int)
    requires InStockQuantities(cart)
    requires forall l :: l in cart && l.item.batchId == batchId ==> l.quantity < stock == l.item.stockCount
    ensures InStockQuantities(Bump(cart, batchId))
  {
    if cart != [] {
      BumpInStock(cart[1..], batchId, stock);
      assert forall l :: l in Bump(cart, batchId) ==> l == Bump(cart, batchId)[0] || l in Bump(cart[1..], batchId);
    }
  }

  /** The batch's line after an add: a new line of quantity 1, one more unit while below the stock, or the line as it was. */
  function AddedLine(existing: Option<CartItem>, item: InventoryItem): CartItem {
    match existing
    case None => CartItem(item, 1)
    case Some(l) => if l.quantity < item.stockCount then OneMore(l) else l
  }

  /**
   * What adding does to the batch's line: a new line of quantity 1, one
   * more unit while below the stock, or nothing.
   */
  lemma AddToCartLine(cart: seq<CartItem>, item: InventoryItem)
    ensures LineFor(AddToCart(cart, item), item.batchId) == Some(AddedLine(LineFor(cart, item.batchId), item))
  {
    var e := LineFor(cart, item.batchId);
    if e.None? {
      assert AddToCart(cart, item) == cart + [CartItem(item, 1)];
      AppendLookup(cart, BatchOf, CartItem(item, 1), item.batchId);
    } else if e.value.quantity < item.stockCount {
      assert AddToCart(cart, item) == Bump(cart, item.batchId);
      RemapLookup(cart, BatchOf, item.batchId, OneMore, item.batchId);
    } else {
      assert AddToCart(cart, item) == cart;
    }
  }

  /** Adding never touches the lines of other batches. */
  lemma AddToCartOthers(cart: seq<CartItem>, item: InventoryItem)
    ensures RemoveFromCart(AddToCart(cart, item), item.batchId) == RemoveFromCart(cart, item.batchId)
  {
    RemapOthers(cart, BatchOf, item.batchId, OneMore);
    AppendOthers(cart, BatchOf, CartItem(item, 1));
  }

  /**
   * Adding keeps the cart well formed, provided the row being added has
   * stock and carries the same stock as the cart's line of its batch (it
   * is the same inventory row).
   */
  lemma AddToCartWellFormed(cart: seq<CartItem>, item: InventoryItem)
    requires WellFormed(cart) && 1 <= item.stockCount
    requires forall l :: l in cart && l.item.batchId == item.batchId ==> l.item.stockCount == item.stockCount
    ensures WellFormed(AddToCart(cart, item))
  {
    match LineFor(cart, item.batchId)
    case None =>
      AppendUnique(cart, BatchOf, CartItem(item, 1));
    case Some(existing) =>
      if existing.quantity < item.stockCount {
        RemapUnique(cart, BatchOf, item.batchId, OneMore);
        forall l | l in cart && l.item.batchId == item.batchId
          ensures l.quantity < item.stockCount == l.item.stockCount
        {
          UniqueLookup(cart, BatchOf, l);
        }
        BumpInStock(cart, item.batchId, item.stockCount);
      }
  }

  /**
   * Adding changes the total by the change of the batch's line alone: a
   * new line's value, or one more unit of the existing line.
   */
  lemma AddToCartTotal(cart: seq<CartItem>, item: InventoryItem)
    requires UniqueBatches(cart)
    ensures TotalAmount(AddToCart(cart, item))
            == TotalAmount(cart) - LineValue(LineFor(cart, item.batchId)) + LineTotal(AddedLine(LineFor(cart, item.batchId), item))
  {
    var r := AddToCart(cart, item);
    var e := LineFor(cart, item.batchId);
    if e.None? {
      assert r == cart + [CartItem(item, 1)];
      AppendUnique(cart, BatchOf, CartItem(item, 1));
    } else if e.value.quantity < item.stockCount {
      assert r == Bump(cart, item.batchId);
      RemapUnique(cart, BatchOf, item.batchId, OneMore);
    } else {
      assert r == cart;
    }
    AddToCartOthers(cart, item);
    AddToCartLine(cart, item);
    ChangeTotal(cart, r, item.batchId);
  }


  /** One more unit on a line costs one unit price more. */
  lemma OneMoreUnit(l: CartItem)
    ensures LineTotal(l.(quantity := l.quantity + 1)) == LineTotal(l) + l.item.unitPrice
  {
  }

  // ---------------------------------------------------------------------
  // Changing a quantity
  // ---------------------------------------------------------------------

  lemma {:induction false} UpdateQtyNoNew(cart: seq<CartItem>, batchId: string, delta: int, x: string)
    requires LineFor(cart, x).None?
    ensures LineFor(UpdateQty(cart, batchId, delta), x).None?
  {
    if cart != [] {
      UpdateQtyNoNew(cart[1..], batchId, delta, x);
      UpdateLineFor(cart[0], UpdateQty(cart[1..], batchId, delta), batchId, delta, x);
    }
  }

  /** Looking a batch up in one updated line followed by the rest. */
  lemma UpdateLineFor(l: CartItem, rest: seq<CartItem>, batchId: string, delta: int, x: string)
    ensures LineFor(UpdateLine(l, batchId, delta) + rest, x)
            == if UpdateLine(l, batchId, delta) != [] && l.item.batchId == x then Some(UpdateLine(l, batchId, delta)[0]) else LineFor(rest, x)
  {
    if UpdateLine(l, batchId, delta) == [] {
      assert [] + rest == rest;
    } else {
      assert (UpdateLine(l, batchId, delta) + rest)[1..] == rest;
    }
  }

  lemma {:induction false} UpdateQtyUnique(cart: seq<CartItem>, batchId: string, delta: int)
    requires UniqueBatches(cart)
    ensures UniqueBatches(UpdateQty(cart, batchId, delta))
  {
    if cart != [] {
      var rest := UpdateQty(cart[1..], batchId, delta);
      UpdateQtyUnique(cart[1..], batchId, delta);
      UpdateQtyNoNew(cart[1..], batchId, delta, cart[0].item.batchId);
      if UpdateLine(cart[0], batchId, delta) == [] {
        assert [] + rest == rest;
      } else {
        assert (UpdateLine(cart[0], batchId, delta) + rest)[1..] == rest;
      }
    }
  }

  lemma {:induction false} UpdateQtyInStock(cart: seq<CartItem>, batchId: string, delta: int)
    requires InStockQuantities(cart)
    ensures InStockQuantities(UpdateQty(cart, batchId, delta))
  {
    if cart != [] {
      UpdateQtyInStock(cart[1..], batchId, delta);
      assert cart[0] in cart;
    }
  }

  /** Changing a quantity keeps the cart well formed, whatever the step. */
  lemma UpdateQtyWellFormed(cart: seq<CartItem>, batchId: string, delta: int)
    requires WellFormed(cart)
    ensures WellFormed(UpdateQty(cart, batchId, delta))
  {
    UpdateQtyUnique(cart, batchId, delta);
    UpdateQtyInStock(cart, batchId, delta);
  }

  /**
   * What a quantity change does to the batch's line: dropped at zero or
   * below, kept above its stock, moved to the new quantity otherwise.
   */
  lemma {:induction false} UpdateQtyLine(cart: seq<CartItem>, batchId: string, delta: int)
    requires UniqueBatches(cart)
    ensures LineFor(UpdateQty(cart, batchId, delta), batchId)
            == match LineFor(cart, batchId)
               case None => None
               case Some(l) => Stepped(l, delta)
  {
    if cart != [] {
      var rest := UpdateQty(cart[1..], batchId, delta);
      UpdateLineFor(cart[0], rest, batchId, delta, batchId);
      if cart[0].item.batchId == batchId {
        UpdateQtyNoNew(cart[1..], batchId, delta, batchId);
      } else {
        UpdateQtyLine(cart[1..], batchId, delta);
      }
    }
  }

  lemma UpdateLineOthers(l: CartItem, batchId: string, delta: int)
    ensures Filter(UpdateLine(l, batchId, delta), OtherKey(BatchOf, batchId)) == Filter([l], OtherKey(BatchOf, batchId))
  {
    if l.item.batchId == batchId {
      assert Filter([l], OtherKey(BatchOf, batchId)) == [];
      if Stepped(l, delta).Some? {
        assert Filter([Stepped(l, delta).value], OtherKey(BatchOf, batchId)) == [];
      }
    }
  }

  /** A quantity change never touches the lines of other batches. */
  lemma {:induction false} UpdateQtyOthers(cart: seq<CartItem>, batchId: string, delta: int)
    ensures RemoveFromCart(UpdateQty(cart, batchId, delta), batchId) == RemoveFromCart(cart, batchId)
  {
    if cart != [] {
      UpdateQtyOthers(cart[1..], batchId, delta);
      FilterAppend(UpdateLine(cart[0], batchId, delta), UpdateQty(cart[1..], batchId, delta), OtherKey(BatchOf, batchId));
      UpdateLineOthers(cart[0], batchId, delta);
      assert cart == [cart[0]] + cart[1..];
      FilterAppend([cart[0]], cart[1..], OtherKey(BatchOf, batchId));
    }
  }

  /**
   * The total moves by the batch's line alone: its new value (nothing when
   * dropped, itself when kept) less its old value.
   */
  lemma UpdateQtyTotal(cart: seq<CartItem>, batchId: string, delta: int)
    requires UniqueBatches(cart)
    ensures TotalAmount(UpdateQty(cart, batchId, delta))
            == TotalAmount(cart) + match LineFor(cart, batchId)
                                   case None => 0
                                   case Some(l) => LineValue(Stepped(l, delta)) - LineTotal(l)
  {
    UpdateQtyUnique(cart, batchId, delta);
    UpdateQtyOthers(cart, batchId, delta);
    ChangeTotal(cart, UpdateQty(cart, batchId, delta), batchId);
    UpdateQtyLine(cart, batchId, delta);
  }

  // ---------------------------------------------------------------------
  // The inventory list and its search
  // ---------------------------------------------------------------------

  /** The mapping of a `getInventory` row to a list row, with its fallbacks for a missing medicine. */
  function ToInventoryItem(row: StockRow): (r: InventoryItem)
    ensures r.batchId == row.batch.batchNo && r.stockCount == row.batch.currentStock && r.expiryDate == row.batch.expiryDate
    ensures r.medicineName != ""
    ensures r.medicineName == (if row.medicine.Some? && row.medicine.value.brandName != "" then row.medicine.value.brandName else "Unknown Medicine")
    ensures r.unitPrice == (if row.medicine.Some? then row.medicine.value.pricePerUnit else 0)
  {
    var name := if row.medicine.Some? && row.medicine.value.brandName != "" then row.medicine.value.brandName else "Unknown Medicine";
    var price := if row.medicine.Some? then row.medicine.value.pricePerUnit else 0;
    InventoryItem(row.batch.batchNo, name, row.batch.expiryDate, row.batch.currentStock, price)
  }

  /** The list after the page loads. */
  function LoadedInventory(rows: seq<StockRow>): (r: seq<InventoryItem>)
    ensures |r| == |rows|
    ensures forall k :: 0 <= k < |rows| ==> r[k] == ToInventoryItem(rows[k])
  {
    seq(|rows|, k requires 0 <= k < |rows| => ToInventoryItem(rows[k]))
  }

  /** The search predicate: an empty field never matches, both sides are lower-cased. */
  predicate Matches(i: InventoryItem, search: string) {
    || (i.medicineName != "" && Contains(Lower(i.medicineName), Lower(search)))
    || (i.batchId != "" && Contains(Lower(i.batchId), Lower(search)))
  }

  function MatchesSearch(search: string): InventoryItem -> bool {
    (i: InventoryItem) => Matches(i, search)
  }

  /** `filteredInventory` */
  function FilteredInventory(inventory: seq<InventoryItem>, search: string): (r: seq<InventoryItem>)
    ensures |r| <= |inventory|
  {
    Filter(inventory, MatchesSearch(search))
  }

  /** A row is listed exactly when its name or batch id contains the search, ignoring case. */
  lemma FilteredInventoryMember(inventory: seq<InventoryItem>, search: string, i: InventoryItem)
    ensures i in FilteredInventory(inventory, search)
            <==> i in inventory
                 && ((i.medicineName != "" && Contains(Lower(i.medicineName), Lower(search)))
                     || (i.batchId != "" && Contains(Lower(i.batchId), Lower(search))))
  {
    FilterMember(inventory, MatchesSearch(search), i);
  }

  /** The search ignores the case of the search text. */
  lemma FilteredInventoryCase(inventory: seq<InventoryItem>, search: string)
    ensures FilteredInventory(inventory, Lower(search)) == FilteredInventory(inventory, search)
  {
    LowerIdempotent(search);
    FilterAgree(inventory, MatchesSearch(Lower(search)), MatchesSearch(search));
  }

  /** An empty search lists every row with a name or a batch id, and so the whole loaded list. */
  lemma EmptySearchListsAll(inventory: seq<InventoryItem>)
    requires forall i :: i in inventory ==> i.medicineName != "" || i.batchId != ""
    ensures FilteredInventory(inventory, "") == inventory
  {
    forall k | 0 <= k < |inventory|
      ensures Matches(inventory[k], "")
    {
      assert inventory[k] in inventory;
      ContainsEmpty(Lower(inventory[k].medicineName));
      ContainsEmpty(Lower(inventory[k].batchId));
    }
    FilterAll(inventory, MatchesSearch(""));
  }

  lemma LoadedInventoryListed(rows: seq<StockRow>)
    ensures FilteredInventory(LoadedInventory(rows), "") == LoadedInventory(rows)
  {
    EmptySearchListsAll(LoadedInventory(rows));
  }

  // ---------------------------------------------------------------------
  // Checkout
  // ---------------------------------------------------------------------

  datatype Checkout = Refused(message: string) | Submit(patientId: string, lines: seq<BillLine>)

  const NoPatientMessage := "Please enter Patient ID"
  const EmptyCartMessage := "Cart is empty"

  /** The cart mapped to billing lines, `batch_id` copied into `batch_no`. */
  function Payload(cart: seq<CartItem>): (r: seq<BillLine>)
    ensures |r| == |cart|
    ensures forall k :: 0 <= k < |cart| ==> r[k].batchNo == cart[k].item.batchId && r[k].quantity == cart[k].quantity
  {
    seq(|cart|, k requires 0 <= k < |cart| => BillLine(cart[k].item.batchId, cart[k].quantity))
  }

  /** `handleCheckout()` up to the call of `generateInvoice`. */
  function HandleCheckout(patientId: string, cart: seq<CartItem>): (r: Checkout)
    ensures r.Refused? <==> patientId == "" || cart == []
    ensures patientId == "" ==> r == Refused(NoPatientMessage)
    ensures patientId != "" && cart == [] ==> r == Refused(EmptyCartMessage)
    ensures r.Submit? ==> r.patientId == patientId && r.lines == Payload(cart)
  {
    if patientId == "" then Refused(NoPatientMessage)
    else if cart == [] then Refused(EmptyCartMessage)
    else Submit(patientId, Payload(cart))
  }

  /**
   * A well-formed cart is billed as lines on pairwise distinct batches,
   * each asking for between one unit and its batch's stock as listed.
   */
  lemma {:induction false} PayloadWellFormed(cart: seq<CartItem>)
    requires WellFormed(cart)
    ensures var p := Payload(cart);
            && (forall i, j :: 0 <= i < j < |p| ==> p[i].batchNo != p[j].batchNo)
            && (forall k :: 0 <= k < |p| ==> 1 <= p[k].quantity <= cart[k].item.stockCount)
  {
    forall i, j | 0 <= i < j < |cart|
      ensures cart[i].item.batchId != cart[j].item.batchId
    {
      UniqueApart(cart, BatchOf, i, j);
    }
    forall k | 0 <= k < |cart|
      ensures 1 <= cart[k].quantity <= cart[k].item.stockCount
    {
      assert cart[k] in cart;
    }
  }

  /** The page state the checkout touches. */
  datatype Counter = Counter(cart: seq<CartItem>, patientId: string, inventory: seq<InventoryItem>)

  /**
   * After `generateInvoice` answers: on success the cart and the patient
   * id are cleared and a non-empty refreshed inventory replaces the list,
   * mapped like the initial load (the corrected refresh); an empty refresh
   * keeps the list; on failure nothing changes.
   */
  function AfterCheckout(c: Counter, succeeded: bool, refreshed: seq<StockRow>): (r: Counter)
    ensures succeeded ==> r.cart == [] && r.patientId == ""
    ensures succeeded && refreshed == [] ==> r.inventory == c.inventory
    ensures succeeded && refreshed != [] ==>
              && r.inventory == LoadedInventory(refreshed)
              && FilteredInventory(r.inventory, "") == r.inventory
              && forall k :: 0 <= k < |refreshed| ==> r.inventory[k].batchId == refreshed[k].batch.batchNo
    ensures !succeeded ==> r == c
  {
    if !succeeded then c
    else if refreshed == [] then Counter([], "", c.inventory)
    else
      RefreshShowsStock(c.inventory, refreshed);
      Counter([], "", Refreshed(c.inventory, refreshed))
  }

  // ---------------------------------------------------------------------
  // The inventory refresh after checkout
  // ---------------------------------------------------------------------

  /**
   * The refresh as written: the raw query rows replace the list. A raw row
   * has `batch_no`, `current_stock` and a nested `medicine`, but none of
   * `batch_id`, `medicine_name`, `stock_count` or `unit_price`; those read
   * as `undefined`, here the empty string and 0.
   */
  function RawAsItem(row: StockRow): InventoryItem {
    InventoryItem("", "", row.batch.expiryDate, 0, 0)
  }

  function RefreshedAsWritten(current: seq<InventoryItem>, rows: seq<StockRow>): (r: seq<InventoryItem>)
    ensures rows == [] ==> r == current
    ensures rows != [] ==> |r| == |rows|
  {
    if rows == [] then current else seq(|rows|, k requires 0 <= k < |rows| => RawAsItem(rows[k]))
  }

  /** As written, a successful checkout with stock left empties the list for every search. */
  lemma RefreshAsWrittenHidesStock(current: seq<InventoryItem>, rows: seq<StockRow>, search: string)
    requires rows != []
    ensures FilteredInventory(RefreshedAsWritten(current, rows), search) == []
  {
    var r := RefreshedAsWritten(current, rows);
    assert forall k :: 0 <= k < |r| ==> !Matches(r[k], search);
    if FilteredInventory(r, search) != [] {
      FilteredInventoryMember(r, search, FilteredInventory(r, search)[0]);
    }
  }

  /** The refresh mapped like the initial load. */
  function Refreshed(current: seq<InventoryItem>, rows: seq<StockRow>): (r: seq<InventoryItem>)
    ensures rows == [] ==> r == current
  {
    if rows == [] then current else LoadedInventory(rows)
  }

  /** Mapped, the refreshed list shows every row again, under its own batch number. */
  lemma RefreshShowsStock(current: seq<InventoryItem>, rows: seq<StockRow>)
    requires rows != []
    ensures FilteredInventory(Refreshed(current, rows), "") == Refreshed(current, rows)
    ensures forall k :: 0 <= k < |rows| ==> Refreshed(current, rows)[k].batchId == rows[k].batch.batchNo
  {
    LoadedInventoryListed(rows);
  }
}
