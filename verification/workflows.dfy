/**
 * The register's multi-step operations, each a sequence of requests to the
 * store: checkout (record the sale, take each line out of stock, empty the
 * cart), settling a credit sale, returning part of a line or a whole bill,
 * and saving the product form.  The user's answers to the confirmation and
 * quantity dialogs, the clock, and the form's field values are inputs.
 */
module Workflows {
  import opened Base
  import opened Entities
  import opened Pricing
  import opened Carts
  import opened Stores
  import Ids

  /** The snapshot of a cart line kept in the sale: price and cost as they were at checkout. */
  function SaleItemOf(l: CartLine): (it: SaleItem)
    ensures it.id == l.item.id && it.code == l.item.code && it.name == l.item.name && it.qty == l.qty
    ensures it.price == l.item.retailPrice && it.cost == l.item.costPrice
    ensures it.discountType == l.discountType
    ensures it.discountRate == (if l.discountType == Percent then l.discountRate else 0.0)
    ensures it.discountValue == (if l.discountType == Fixed then l.discountValue else 0.0)
  {
    SaleItem(
      l.item.id, l.item.code, l.item.name, l.qty, l.item.retailPrice, l.item.costPrice,
      if l.discountType == Percent then l.discountRate else 0.0,
      if l.discountType == Fixed then l.discountValue else 0.0,
      l.discountType)
  }

  function SnapshotItems(lines: seq<CartLine>): (items: seq<SaleItem>)
    ensures |items| == |lines|
    ensures forall j :: 0 <= j < |lines| ==> items[j] == SaleItemOf(lines[j])
  {
    seq(|lines|, j requires 0 <= j < |lines| => SaleItemOf(lines[j]))
  }

  /** What the payment dialog holds at the moment of checkout. */
  datatype Checkout = Checkout(
    bill: BillDiscount,
    paymentMethod: PaymentMethod,
    cash: real,
    customerName: string,
    customerPhone: string)

  /** The sale record built from the cart and the payment dialog (before it has an id). */
  function BuildSale(lines: seq<CartLine>, co: Checkout, now: int): (s: Sale)
    ensures s.items == SnapshotItems(lines) && s.timestamp == now
    ensures s.subtotal == Subtotal(lines)
    ensures s.totalAmount == TotalAmount(lines, co.bill) && s.totalAmount >= 0.0
    ensures s.totalProfit == TotalProfit(lines, co.bill) && s.totalProfit >= 0.0
    ensures s.paymentMethod == co.paymentMethod && s.payment.Some?
    ensures co.paymentMethod == Credit ==> s.payment.value == Payment(0.0, 0.0) && s.paymentStatus == StatusCredit
    ensures co.paymentMethod == Cash ==>
      s.payment.value == Payment(co.cash, co.cash - s.totalAmount) && s.paymentStatus == StatusPaid
    ensures s.billDiscountType == co.bill.kind
    ensures s.billDiscountRate == (if co.bill.kind == Percent then co.bill.input else 0.0)
    ensures s.billDiscountValue == (if co.bill.kind == Fixed then co.bill.input else 0.0)
    ensures s.customerName == (if co.customerName == "" then "Anonymous" else co.customerName)
    ensures s.customerPhone == co.customerPhone
  {
    var total := TotalAmount(lines, co.bill);
    var credit := co.paymentMethod == Credit;
    Sale(
      0,
      now,
      SnapshotItems(lines),
      Subtotal(lines),
      total,
      TotalProfit(lines, co.bill),
      if co.bill.kind == Percent then co.bill.input else 0.0,
      if co.bill.kind == Fixed then co.bill.input else 0.0,
      co.bill.kind,
      Some(Payment(if credit then 0.0 else co.cash, if credit then 0.0 else co.cash - total)),
      co.paymentMethod,
      if credit then StatusCredit else StatusPaid,
      if co.customerName == "" then "Anonymous" else co.customerName,
      co.customerPhone)
  }

  /** A cash sale that gets past the cash check never records a negative balance. */
  lemma {:induction false} CashBalanceNonNegative(lines: seq<CartLine>, co: Checkout, now: int)
    requires co.paymentMethod == Cash && co.cash >= TotalAmount(lines, co.bill)
    ensures BuildSale(lines, co, now).payment.value.balance >= 0.0
  {
  }

  /** One stock decrease per cart line, in cart order. */
  function Decreases(lines: seq<CartLine>): (changes: seq<StockChange>)
    ensures |changes| == |lines|
    ensures forall j :: 0 <= j < |lines| ==> changes[j] == StockChange(lines[j].item.id, -lines[j].qty)
  {
    seq(|lines|, j requires 0 <= j < |lines| => StockChange(lines[j].item.id, -lines[j].qty))
  }

  /**
   * With one line per product, the net stock change checkout sends to a
   * product is minus the quantity of its line, or nothing when it has none.
   */
  lemma {:induction false} DecreasesNet(lines: seq<CartLine>, k: int)
    requires DistinctIds(lines)
    ensures NetChange(Decreases(lines), k) ==
      match IndexOf(lines, LineKey, k)
      case None => 0
      case Some(i) => -lines[i].qty
  {
    var n := |lines|;
    if n > 0 {
      var init := lines[..n - 1];
      assert Decreases(lines)[..n - 1] == Decreases(init);
      assert Decreases(lines)[n - 1].id == lines[n - 1].item.id;
      DecreasesNet(init, k);
      IndexOfSnoc(lines, LineKey, k);
      var a := IndexOf(init, LineKey, k);
      if a.Some? {
        assert lines[a.value] == init[a.value];
      }
    }
  }

  /** The register's loop of stock PATCH requests, one per change, in order. */
  method SendStockChanges(store: Store, changes: seq<StockChange>)
    modifies store
    ensures store.products == ApplyStockChanges(old(store.products), changes)
    ensures store.sales == old(store.sales) && store.categories == old(store.categories)
  {
    var i := 0;
    while i < |changes|
      invariant 0 <= i <= |changes|
      invariant store.products == ApplyStockChanges(old(store.products), changes[..i])
      invariant store.sales == old(store.sales) && store.categories == old(store.categories)
    {
      assert changes[..i + 1][..i] == changes[..i];
      store.PatchStock(changes[i].id, changes[i].change);
      i := i + 1;
    }
    assert changes[..i] == changes;
  }

  /** Posting a whole sale without an id appends it under the next incremental id. */
  lemma {:induction false} PostNewSale(sales: seq<Sale>, s: Sale)
    ensures PostSaleTo(sales, SaleBody(s, None)) ==
      Posted(sales + [s.(id := MaxIncrementalId(sales) + 1)], MaxIncrementalId(sales) + 1, false)
  {
    assert NewSale(SaleBody(s, None), MaxIncrementalId(sales) + 1) == s.(id := MaxIncrementalId(sales) + 1);
  }

  /** The three ends of a checkout attempt. */
  datatype CheckoutOutcome = EmptyCart | InsufficientCash | Recorded(id: int)

  /**
   * `finalizeSale`: an empty cart, or a cash payment short of the total,
   * changes nothing; otherwise the sale is posted (it receives the next
   * incremental id), each line's quantity is taken out of stock, and the
   * cart is emptied.
   */
  method FinalizeSale(cart: Cart, store: Store, co: Checkout, now: int) returns (outcome: CheckoutOutcome)
    requires cart.Valid()
    modifies cart, store
    ensures cart.Valid()
    ensures |old(cart.lines)| == 0 ==> outcome == EmptyCart
    ensures |old(cart.lines)| > 0 && co.paymentMethod == Cash && co.cash < TotalAmount(old(cart.lines), co.bill) ==>
      outcome == InsufficientCash
    ensures outcome.Recorded? <==>
      |old(cart.lines)| > 0 && !(co.paymentMethod == Cash && co.cash < TotalAmount(old(cart.lines), co.bill))
    ensures !outcome.Recorded? ==>
      && cart.lines == old(cart.lines)
      && store.sales == old(store.sales) && store.products == old(store.products)
    ensures outcome.Recorded? ==>
      && outcome.id == MaxIncrementalId(old(store.sales)) + 1
      && store.sales == old(store.sales) + [BuildSale(old(cart.lines), co, now).(id := outcome.id)]
      && store.products == ApplyStockChanges(old(store.products), Decreases(old(cart.lines)))
      && cart.lines == []
    ensures store.categories == old(store.categories)
  {
    if |cart.lines| == 0 {
      return EmptyCart;
    }
    var lines := cart.lines;
    var sale := BuildSale(lines, co, now);
    if co.paymentMethod == Cash && co.cash < sale.totalAmount {
      return InsufficientCash;
    }
    PostNewSale(store.sales, sale);
    var saleId, updated := store.PostSale(SaleBody(sale, None));
    SendStockChanges(store, Decreases(lines));
    cart.ClearCart();
    outcome := Recorded(saleId);
  }

  /**
   * After a successful checkout, a product whose id first occurs at its
   * index has lost exactly the quantity of its cart line, if it had one.
   */
  lemma {:induction false} CheckoutStock(products: seq<Product>, lines: seq<CartLine>, j: nat)
    requires DistinctIds(lines) && j < |products|
    requires IndexOf(products, ProductKey, products[j].id) == Some(j)
    ensures var r := ApplyStockChanges(products, Decreases(lines));
      |r| == |products| &&
      r[j].stock == products[j].stock -
        (match IndexOf(lines, LineKey, products[j].id)
         case None => 0
         case Some(i) => lines[i].qty)
  {
    ApplyStockChangesNet(products, Decreases(lines));
    DecreasesNet(lines, products[j].id);
  }

  /**
   * When a sale with a non-zero id is found at index `i`, posting the whole
   * amended record under its id replaces exactly that record.
   */
  lemma {:induction false} AmendInPlace(sales: seq<Sale>, i: nat, amended: Sale)
    requires amended.id != 0 && amended.payment.Some?
    requires IndexOf(sales, SaleKey, amended.id) == Some(i)
    ensures PostSaleTo(sales, SaleBody(amended, Some(amended.id))) == Posted(sales[i := amended], amended.id, true)
  {
    assert sales[i].id == amended.id;
  }

  /** The settled form of a credit sale: paid in cash, the full total received, no balance. */
  function PaidSale(s: Sale): (r: Sale)
    ensures r.paymentStatus == StatusPaid && r.paymentMethod == Cash
    ensures r.payment == Some(Payment(s.totalAmount, 0.0))
    ensures r.(paymentStatus := s.paymentStatus, paymentMethod := s.paymentMethod, payment := s.payment) == s
  {
    s.(paymentStatus := StatusPaid, paymentMethod := Cash, payment := Some(Payment(s.totalAmount, 0.0)))
  }

  /** The ends of an amendment to a recorded sale. */
  datatype AmendOutcome = Cancelled | NotFound | NoSuchItem | TooMany | InvalidQuantity | Amended

  /**
   * `markSaleAsPaid`: once confirmed, the sale is looked up and posted back
   * settled; nothing changes when the user declines or the sale is gone.
   */
  method MarkSaleAsPaid(store: Store, id: int, confirmed: bool) returns (outcome: AmendOutcome)
    modifies store
    ensures !confirmed ==> outcome == Cancelled
    ensures confirmed && SaleById(old(store.sales), id).None? ==> outcome == NotFound
    ensures outcome != Amended ==> store.sales == old(store.sales)
    ensures outcome == Amended <==> confirmed && SaleById(old(store.sales), id).Some?
    ensures outcome == Amended ==>
      var s := SaleById(old(store.sales), id).value;
      store.sales == PostSaleTo(old(store.sales), SaleBody(PaidSale(s), Some(s.id))).sales
    ensures store.products == old(store.products) && store.categories == old(store.categories)
  {
    if !confirmed {
      return Cancelled;
    }
    var found := SaleById(store.sales, id);
    if found.None? {
      return NotFound;
    }
    var sale := PaidSale(found.value);
    var postedId1, postedUpdate1 := store.PostSale(SaleBody(sale, Some(sale.id)));
    outcome := Amended;
  }

  /** For a sale with a non-zero id, settling rewrites that record and no other. */
  lemma {:induction false} SettleInPlace(sales: seq<Sale>, id: int)
    requires id != 0 && SaleById(sales, id).Some?
    ensures var s := SaleById(sales, id).value;
      var i := IndexOf(sales, SaleKey, id).value;
      PostSaleTo(sales, SaleBody(PaidSale(s), Some(s.id))).sales == sales[i := PaidSale(s)]
  {
    var i := IndexOf(sales, SaleKey, id).value;
    AmendInPlace(sales, i, PaidSale(sales[i]));
  }

  /** `qty * price` of a sale line, with no discount. */
  function ItemAmount(it: SaleItem): real { it.qty as real * it.price }

  /** `(price - cost) * qty` of a sale line. */
  function ItemProfit(it: SaleItem): real { (it.price - it.cost) * it.qty as real }

  /** The items of a sale after `q` units of item `k` come back; a line that reaches 0 is spliced out. */
  function ReturnedItems(items: seq<SaleItem>, k: nat, q: int): seq<SaleItem>
    requires k < |items|
  {
    if items[k].qty - q == 0 then items[..k] + items[k + 1..]
    else items[k := items[k].(qty := items[k].qty - q)]
  }

  /**
   * The sale after a partial return: the new item list, totals recomputed
   * over it without discounts (the subtotal is left as it was), and the
   * balance re-derived from the cash received.
   */
  function ReturnedSale(s: Sale, k: nat, q: int): (r: Sale)
    requires k < |s.items|
    ensures r.items == ReturnedItems(s.items, k, q)
    ensures r.totalAmount == SumOf(r.items, ItemAmount)
    ensures r.totalProfit == SumOf(r.items, ItemProfit)
    ensures r.payment.Some? <==> s.payment.Some?
    ensures r.payment.Some? ==> r.payment.value == Payment(s.payment.value.cash, s.payment.value.cash - r.totalAmount)
    ensures r.(items := s.items, totalAmount := s.totalAmount, totalProfit := s.totalProfit, payment := s.payment) == s
  {
    var items := ReturnedItems(s.items, k, q);
    var total := SumOf(items, ItemAmount);
    s.(items := items,
       totalAmount := total,
       totalProfit := SumOf(items, ItemProfit),
       payment := match s.payment
         case None => None
         case Some(p) => Some(p.(balance := p.cash - total)))
  }

  /** Lowering one item's quantity by `q` lowers its amount by `q` times its price. */
  lemma {:induction false} LoweredAmount(it: SaleItem, q: int)
    ensures ItemAmount(it.(qty := it.qty - q)) == ItemAmount(it) - q as real * it.price
    ensures it.qty - q == 0 ==> ItemAmount(it) == q as real * it.price
  {
    var a, b, p := it.qty as real, q as real, it.price;
    assert (it.qty - q) as real == a - b;
    assert (a - b) * p == a * p - b * p;
  }

  /**
   * Returning `q` units of item `k` takes exactly `q` times its price off
   * the undiscounted item total.
   */
  lemma {:induction false} ReturnedItemsAmount(items: seq<SaleItem>, k: nat, q: int)
    requires k < |items|
    ensures SumOf(ReturnedItems(items, k, q), ItemAmount) == SumOf(items, ItemAmount) - q as real * items[k].price
  {
    if items[k].qty - q == 0 {
      SplicedItemsAmount(items, k, q);
    } else {
      LoweredItemsAmount(items, k, q);
    }
  }

  /** A line returned in full is spliced out and its whole amount leaves the total. */
  lemma {:induction false} SplicedItemsAmount(items: seq<SaleItem>, k: nat, q: int)
    requires k < |items| && items[k].qty - q == 0
    ensures SumOf(ReturnedItems(items, k, q), ItemAmount) == SumOf(items, ItemAmount) - q as real * items[k].price
  {
    var it := items[k];
    assert ReturnedItems(items, k, q) == items[..k] + items[k + 1..];
    calc {
      SumOf(ReturnedItems(items, k, q), ItemAmount);
      { SumOfRemove(items, k, ItemAmount); }
      SumOf(items, ItemAmount) - ItemAmount(it);
      { assert it.qty as real == q as real; }
      SumOf(items, ItemAmount) - q as real * it.price;
    }
  }

  /** A line returned in part stays, with its amount lowered by the returned units. */
  lemma {:induction false} LoweredItemsAmount(items: seq<SaleItem>, k: nat, q: int)
    requires k < |items| && items[k].qty - q != 0
    ensures SumOf(ReturnedItems(items, k, q), ItemAmount) == SumOf(items, ItemAmount) - q as real * items[k].price
  {
    var lowered := items[k].(qty := items[k].qty - q);
    assert ReturnedItems(items, k, q) == items[k := lowered];
    SumOfUpdate(items, k, lowered, ItemAmount);
    LoweredAmount(items[k], q);
  }

  /**
   * Every other item survives a partial return unchanged and in order; the
   * returned item is spliced out when none of it is left.
   */
  lemma {:induction false} ReturnedItemsShape(items: seq<SaleItem>, k: nat, q: int)
    requires k < |items|
    ensures items[k].qty - q == 0 ==> ReturnedItems(items, k, q) == items[..k] + items[k + 1..]
    ensures items[k].qty - q != 0 ==>
      var r := ReturnedItems(items, k, q);
      && |r| == |items| && r[k].qty == items[k].qty - q && r[k].(qty := items[k].qty) == items[k]
      && forall j :: 0 <= j < |items| && j != k ==> r[j] == items[j]
  {
  }

  /**
   * `processReturn`: the sale must exist and have item `itemIndex`, at most
   * the purchased quantity can come back, and the user must confirm; then
   * the product's stock rises by `returnQty` and the amended sale is posted.
   */
  method ProcessReturn(store: Store, saleId: int, itemIndex: int, returnQty: int, confirmed: bool)
    returns (outcome: AmendOutcome)
    modifies store
    ensures SaleById(old(store.sales), saleId).None? ==> outcome == NotFound
    ensures SaleById(old(store.sales), saleId).Some? ==>
      var items := SaleById(old(store.sales), saleId).value.items;
      && (!(0 <= itemIndex < |items|) ==> outcome == NoSuchItem)
      && (0 <= itemIndex < |items| && returnQty > items[itemIndex].qty ==> outcome == TooMany)
      && (0 <= itemIndex < |items| && returnQty <= items[itemIndex].qty && !confirmed ==> outcome == Cancelled)
    ensures outcome != Amended ==> store.sales == old(store.sales) && store.products == old(store.products)
    ensures outcome == Amended <==>
      && SaleById(old(store.sales), saleId).Some?
      && 0 <= itemIndex < |SaleById(old(store.sales), saleId).value.items|
      && returnQty <= SaleById(old(store.sales), saleId).value.items[itemIndex].qty
      && confirmed
    ensures outcome == Amended ==>
      var s := SaleById(old(store.sales), saleId).value;
      && store.products == PatchedStock(old(store.products), s.items[itemIndex].id, returnQty)
      && store.sales == PostSaleTo(old(store.sales), SaleBody(ReturnedSale(s, itemIndex, returnQty), Some(s.id))).sales
    ensures store.categories == old(store.categories)
  {
    var found := SaleById(store.sales, saleId);
    if found.None? {
      return NotFound;
    }
    var sale := found.value;
    if !(0 <= itemIndex < |sale.items|) {
      return NoSuchItem;
    }
    var item := sale.items[itemIndex];
    if returnQty > item.qty {
      return TooMany;
    }
    if !confirmed {
      return Cancelled;
    }
    store.PatchStock(item.id, returnQty);
    var amended := ReturnedSale(sale, itemIndex, returnQty);
    var postedId2, postedUpdate2 := store.PostSale(SaleBody(amended, Some(sale.id)));
    outcome := Amended;
  }

  /**
   * `initiateReturn`: an empty (or dismissed) entry does nothing, an entry
   * that does not parse to a positive integer is refused, anything else
   * goes on to `processReturn`.
   */
  method InitiateReturn(store: Store, saleId: int, itemIndex: int, entry: string, confirmed: bool)
    returns (outcome: AmendOutcome)
    modifies store
    ensures entry == [] ==> outcome == Cancelled
    ensures entry != [] && (Ids.ParseInt(entry).None? || Ids.ParseInt(entry).value <= 0) ==> outcome == InvalidQuantity
    ensures outcome == Amended ==> Ids.ParseInt(entry).Some? && SaleById(old(store.sales), saleId).Some?
    ensures entry != [] && Ids.ParseInt(entry).Some? && Ids.ParseInt(entry).value >= 1 ==>
      (outcome == Amended <==>
        && SaleById(old(store.sales), saleId).Some?
        && 0 <= itemIndex < |SaleById(old(store.sales), saleId).value.items|
        && Ids.ParseInt(entry).value <= SaleById(old(store.sales), saleId).value.items[itemIndex].qty
        && confirmed)
    ensures outcome == Cancelled || outcome == InvalidQuantity || outcome == NotFound || outcome == NoSuchItem || outcome == TooMany ==>
      store.sales == old(store.sales) && store.products == old(store.products)
    ensures outcome == Amended ==>
      var q := Ids.ParseInt(entry).value;
      var s := SaleById(old(store.sales), saleId).value;
      && q >= 1
      && 0 <= itemIndex < |s.items| && q <= s.items[itemIndex].qty
      && store.products == PatchedStock(old(store.products), s.items[itemIndex].id, q)
      && store.sales == PostSaleTo(old(store.sales), SaleBody(ReturnedSale(s, itemIndex, q), Some(s.id))).sales
    ensures store.categories == old(store.categories)
  {
    if entry == [] {
      return Cancelled;
    }
    var qty := Ids.ParseInt(entry);
    if qty.None? || qty.value <= 0 {
      return InvalidQuantity;
    }
    outcome := ProcessReturn(store, saleId, itemIndex, qty.value, confirmed);
  }

  /** One stock increase per sale item, in item order. */
  function Increases(items: seq<SaleItem>): (changes: seq<StockChange>)
    ensures |changes| == |items|
    ensures forall j :: 0 <= j < |items| ==> changes[j] == StockChange(items[j].id, items[j].qty)
  {
    seq(|items|, j requires 0 <= j < |items| => StockChange(items[j].id, items[j].qty))
  }

  /** One item per product, as a sale snapshotted from a valid cart has. */
  ghost predicate DistinctItemIds(items: seq<SaleItem>)
  {
    forall i, j :: 0 <= i < j < |items| ==> items[i].id != items[j].id
  }

  /**
   * With one item per product, the net stock change a full return sends to
   * a product is the quantity of its item, or nothing when it has none.
   */
  lemma {:induction false} IncreasesNet(items: seq<SaleItem>, k: int)
    requires DistinctItemIds(items)
    ensures NetChange(Increases(items), k) ==
      match IndexOf(items, ItemKey, k)
      case None => 0
      case Some(i) => items[i].qty
  {
    var n := |items|;
    if n > 0 {
      var init := items[..n - 1];
      assert Increases(items)[..n - 1] == Increases(init);
      assert Increases(items)[n - 1].id == items[n - 1].id;
      IncreasesNet(init, k);
      IndexOfSnoc(items, ItemKey, k);
      var a := IndexOf(init, ItemKey, k);
      if a.Some? {
        assert items[a.value] == init[a.value];
      }
    }
  }

  /**
   * After a full return, a product whose id first occurs at its index has
   * regained exactly the quantity of its sale item, if it had one.
   */
  lemma {:induction false} FullReturnStock(products: seq<Product>, items: seq<SaleItem>, j: nat)
    requires DistinctItemIds(items) && j < |products|
    requires IndexOf(products, ProductKey, products[j].id) == Some(j)
    ensures var r := ApplyStockChanges(products, Increases(items));
      |r| == |products| &&
      r[j].stock == products[j].stock +
        (match IndexOf(items, ItemKey, products[j].id)
         case None => 0
         case Some(i) => items[i].qty)
  {
    ApplyStockChangesNet(products, Increases(items));
    IncreasesNet(items, products[j].id);
  }

  /** The sale after a full return: no items, zero totals, the whole cash due back. */
  function FullyReturned(s: Sale): (r: Sale)
    ensures r.items == [] && r.subtotal == 0.0 && r.totalAmount == 0.0 && r.totalProfit == 0.0
    ensures r.payment.Some? <==> s.payment.Some?
    ensures r.payment.Some? ==> r.payment.value == Payment(s.payment.value.cash, s.payment.value.cash)
    ensures r.(items := s.items, subtotal := s.subtotal, totalAmount := s.totalAmount,
               totalProfit := s.totalProfit, payment := s.payment) == s
  {
    s.(items := [], subtotal := 0.0, totalAmount := 0.0, totalProfit := 0.0,
       payment := match s.payment
         case None => None
         case Some(p) => Some(p.(balance := p.cash)))
  }

  /**
   * `returnFullBill`: once confirmed and found, every item's quantity goes
   * back into stock, then the zeroed sale is posted.
   */
  method ReturnFullBill(store: Store, saleId: int, confirmed: bool) returns (outcome: AmendOutcome)
    modifies store
    ensures !confirmed ==> outcome == Cancelled
    ensures outcome != Amended ==> store.sales == old(store.sales) && store.products == old(store.products)
    ensures outcome == Amended <==> confirmed && SaleById(old(store.sales), saleId).Some?
    ensures outcome == Amended ==>
      var s := SaleById(old(store.sales), saleId).value;
      && store.products == ApplyStockChanges(old(store.products), Increases(s.items))
      && store.sales == PostSaleTo(old(store.sales), SaleBody(FullyReturned(s), Some(s.id))).sales
    ensures store.categories == old(store.categories)
  {
    if !confirmed {
      return Cancelled;
    }
    var found := SaleById(store.sales, saleId);
    if found.None? {
      return NotFound;
    }
    var sale := found.value;
    SendStockChanges(store, Increases(sale.items));
    var postedId3, postedUpdate3 := store.PostSale(SaleBody(FullyReturned(sale), Some(sale.id)));
    outcome := Amended;
  }

  /** The fields of the product form, already parsed. */
  datatype ProductForm = ProductForm(
    code: string,
    name: string,
    category: string,
    costPrice: real,
    retailPrice: real,
    discountRate: real,
    discountType: DiscountKind,
    stock: int,
    lowStockThreshold: int)

  /** The image saved with the form: on an edit without a new image, the stored one is kept. */
  function ImageToSave(products: seq<Product>, editId: Option<int>, image: string): string
  {
    if editId.Some? && image == [] then
      match ProductById(products, editId.value)
      case Some(p) => p.image
      case None => image
    else image
  }

  /**
   * The body the form posts; an unset low-stock threshold (0) becomes 3.
   * Merged over the edited product, or stored as a new one, it yields
   * exactly the typed fields under the record's id.
   */
  function FormBody(form: ProductForm, editId: Option<int>, image: string): (b: ProductPatch)
    ensures b.id == editId && b.code == Some(form.code) && b.image == Some(image)
    ensures b.lowStockThreshold == Some(if form.lowStockThreshold == 0 then 3 else form.lowStockThreshold)
    ensures forall stored: Product :: editId == Some(stored.id) ==>
      MergeProduct(stored, b) == Product(stored.id, form.code, form.name, form.category, form.costPrice,
        form.retailPrice, form.discountRate, Some(form.discountType), form.stock,
        if form.lowStockThreshold == 0 then 3 else form.lowStockThreshold, image)
    ensures forall k: int :: editId == None ==>
      NewProduct(b, k) == Product(k, form.code, form.name, form.category, form.costPrice,
        form.retailPrice, form.discountRate, Some(form.discountType), form.stock,
        if form.lowStockThreshold == 0 then 3 else form.lowStockThreshold, image)
  {
    ProductPatch(
      editId, Some(form.code), Some(form.name), Some(form.category), Some(form.costPrice),
      Some(form.retailPrice), Some(form.discountRate), Some(form.discountType), Some(form.stock),
      Some(if form.lowStockThreshold == 0 then 3 else form.lowStockThreshold), Some(image))
  }

  datatype SubmitOutcome = DuplicateCode | Saved(id: int)

  /**
   * `handleProductSubmit`: a code that another product already carries is
   * refused with nothing stored; otherwise the form is upserted, under the
   * edited id when there is one.
   */
  method SubmitProduct(store: Store, editId: Option<int>, form: ProductForm, image: string, now: int)
    returns (outcome: SubmitOutcome)
    modifies store
    ensures outcome == DuplicateCode <==> Ids.CodeTaken(old(store.products), form.code, editId)
    ensures outcome == DuplicateCode ==> store.products == old(store.products)
    ensures outcome.Saved? ==>
      var body := FormBody(form, editId, ImageToSave(old(store.products), editId, image));
      store.products == UpsertProducts(old(store.products), body, now) && outcome.id == UpsertedId(body, now)
    ensures store.sales == old(store.sales) && store.categories == old(store.categories)
  {
    var img := image;
    if editId.Some? && img == [] {
      var stored := ProductById(store.products, editId.value);
      if stored.Some? {
        img := stored.value.image;
      }
    }
    if Ids.CodeTaken(store.products, form.code, editId) {
      return DuplicateCode;
    }
    var id := store.UpsertProduct(FormBody(form, editId, img), now);
    outcome := Saved(id);
  }

  ghost predicate DistinctProductIds(products: seq<Product>)
  {
    forall i, j :: 0 <= i < j < |products| ==> products[i].id != products[j].id
  }

  ghost predicate DistinctCodes(products: seq<Product>)
  {
    forall i, j :: 0 <= i < j < |products| ==> products[i].code != products[j].code
  }

  /**
   * The uniqueness check keeps product codes distinct: a form that passes
   * it and is saved (as a new product, or as an edit of a product with a
   * non-zero id) leaves no two products sharing a code.
   */
  lemma {:induction false} SubmitKeepsCodesDistinct(products: seq<Product>, editId: Option<int>, form: ProductForm, image: string, now: int)
    requires DistinctProductIds(products) && DistinctCodes(products)
    requires !Ids.CodeTaken(products, form.code, editId)
    requires editId.None? || editId.value != 0
    ensures DistinctCodes(UpsertProducts(products, FormBody(form, editId, image), now))
  {
    var body := FormBody(form, editId, image);
    var r := UpsertProducts(products, body, now);
    if editId.None? {
      assert r == products + [NewProduct(body, now)];
      assert forall j :: 0 <= j < |products| ==> products[j].code != form.code;
      assert r[|products|].code == form.code;
    } else {
      var idx := IndexOf(products, ProductKey, editId.value);
      if idx.Some? {
        var i := idx.value;
        assert r == products[i := MergeProduct(products[i], body)];
        forall a, b | 0 <= a < b < |r|
          ensures r[a].code != r[b].code
        {
          if a == i {
            assert products[b].id != editId.value;
          } else if b == i {
            assert products[a].id != editId.value;
          }
        }
      }
    }
  }

  /**
   * Editing a product whose id is 0 duplicates its code: the uniqueness
   * check skips the edited product, and the server, finding the id falsy,
   * appends the body as a second product with the same code.
   */
  lemma {:induction false} ZeroIdEditDuplicatesCode(now: int)
    ensures var products := [Product(0, "A", "", "", 0.0, 0.0, 0.0, None, 0, 0, "")];
      var form := ProductForm("A", "", "", 0.0, 0.0, 0.0, Percent, 0, 0);
      var r := UpsertProducts(products, FormBody(form, Some(0), ""), now);
      && DistinctProductIds(products) && DistinctCodes(products)
      && !Ids.CodeTaken(products, form.code, Some(0))
      && |r| == 2 && r[0].code == r[1].code
  {
    var products := [Product(0, "A", "", "", 0.0, 0.0, 0.0, None, 0, 0, "")];
    var form := ProductForm("A", "", "", 0.0, 0.0, 0.0, Percent, 0, 0);
    var body := FormBody(form, Some(0), "");
    assert !Truthy(body.id);
    assert UpsertProducts(products, body, now) == products + [NewProduct(body, now)];
  }

  /**
   * With the intended upsert, the uniqueness check keeps product codes
   * distinct for every submission, an edit of id 0 included.
   */
  lemma {:induction false} SubmitKeepsCodesDistinctIdPresent(products: seq<Product>, editId: Option<int>, form: ProductForm, image: string, now: int)
    requires DistinctProductIds(products) && DistinctCodes(products)
    requires !Ids.CodeTaken(products, form.code, editId)
    ensures DistinctCodes(UpsertProductsIdPresent(products, FormBody(form, editId, image), now))
  {
    var body := FormBody(form, editId, image);
    var r := UpsertProductsIdPresent(products, body, now);
    if editId.None? {
      assert r == products + [NewProduct(body, now)];
      assert forall j :: 0 <= j < |products| ==> products[j].code != form.code;
      assert r[|products|].code == form.code;
    } else {
      var idx := IndexOf(products, ProductKey, editId.value);
      if idx.Some? {
        var i := idx.value;
        assert r == products[i := MergeProduct(products[i], body)];
        forall a, b | 0 <= a < b < |r|
          ensures r[a].code != r[b].code
        {
          if a == i {
            assert products[b].id != editId.value;
          } else if b == i {
            assert products[a].id != editId.value;
          }
        }
      }
    }
  }
}
