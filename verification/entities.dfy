/**
 * The records of the point-of-sale application: catalogue products and
 * categories, cart lines (a product snapshot plus quantity and discount),
 * and recorded sales with their snapshotted items and payment.
 *
 * Money is exact (`real`); quantities, stock and ids are integers;
 * timestamps are integers supplied by the caller.  A request body that the
 * server shallow-merges into a stored record (`{...old, ...body}`) is a
 * patch with one optional field per record field: a present field
 * overwrites, an absent one keeps the stored value.
 */
module Entities {
  import opened Base

  /** `'percent'` or `'fixed'`. */
  datatype DiscountKind = Percent | Fixed

  /** A catalogue product; `discountType` is None for records that lack the field. */
  datatype Product = Product(
    id: int,
    code: string,
    name: string,
    category: string,
    costPrice: real,
    retailPrice: real,
    discountRate: real,
    discountType: Option<DiscountKind>,
    stock: int,
    lowStockThreshold: int,
    image: string)

  datatype Category = Category(id: int, name: string)

  /** A cart line: the cloned product plus the line's own quantity and discount fields. */
  datatype CartLine = CartLine(
    item: Product,
    qty: int,
    discountType: DiscountKind,
    discountRate: real,
    discountValue: real)

  /** A sale line: product identity, quantity and the price and cost at sale time. */
  datatype SaleItem = SaleItem(
    id: int,
    code: string,
    name: string,
    qty: int,
    price: real,
    cost: real,
    discountRate: real,
    discountValue: real,
    discountType: DiscountKind)

  datatype Payment = Payment(cash: real, balance: real)

  /** `'Cash'` or `'Credit'`. */
  datatype PaymentMethod = Cash | Credit

  /** `'Paid'` or `'Credit'`. */
  datatype PaymentStatus = StatusPaid | StatusCredit

  /** A recorded sale; `payment` is None for records that lack the field. */
  datatype Sale = Sale(
    id: int,
    timestamp: int,
    items: seq<SaleItem>,
    subtotal: real,
    totalAmount: real,
    totalProfit: real,
    billDiscountRate: real,
    billDiscountValue: real,
    billDiscountType: DiscountKind,
    payment: Option<Payment>,
    paymentMethod: PaymentMethod,
    paymentStatus: PaymentStatus,
    customerName: string,
    customerPhone: string)

  function ProductKey(p: Product): int { p.id }
  function CategoryKey(c: Category): int { c.id }
  function LineKey(l: CartLine): int { l.item.id }
  function SaleKey(s: Sale): int { s.id }
  function ItemKey(it: SaleItem): int { it.id }

  /** JavaScript truthiness of an optional numeric id: present and not 0. */
  predicate Truthy(id: Option<int>) { id.Some? && id.value != 0 }

  function Pick<T>(o: Option<T>, default: T): T
  {
    match o
    case Some(v) => v
    case None => default
  }

  /** A product request body. */
  datatype ProductPatch = ProductPatch(
    id: Option<int>,
    code: Option<string>,
    name: Option<string>,
    category: Option<string>,
    costPrice: Option<real>,
    retailPrice: Option<real>,
    discountRate: Option<real>,
    discountType: Option<DiscountKind>,
    stock: Option<int>,
    lowStockThreshold: Option<int>,
    image: Option<string>)

  /** `{ ...stored, ...body }` for products. */
  function MergeProduct(stored: Product, body: ProductPatch): Product
  {
    Product(
      Pick(body.id, stored.id),
      Pick(body.code, stored.code),
      Pick(body.name, stored.name),
      Pick(body.category, stored.category),
      Pick(body.costPrice, stored.costPrice),
      Pick(body.retailPrice, stored.retailPrice),
      Pick(body.discountRate, stored.discountRate),
      if body.discountType.Some? then body.discountType else stored.discountType,
      Pick(body.stock, stored.stock),
      Pick(body.lowStockThreshold, stored.lowStockThreshold),
      Pick(body.image, stored.image))
  }

  /** The record stored when a body is pushed as a new product with the given id. */
  function NewProduct(body: ProductPatch, id: int): (r: Product)
    ensures r.id == id
    ensures body.code.Some? ==> r.code == body.code.value
    ensures body.stock.Some? ==> r.stock == body.stock.value
    ensures body.stock.None? ==> r.stock == 0
  {
    MergeProduct(Product(0, "", "", "", 0.0, 0.0, 0.0, None, 0, 0, ""), body.(id := Some(id)))
  }

  /** A sale request body. */
  datatype SalePatch = SalePatch(
    id: Option<int>,
    timestamp: Option<int>,
    items: Option<seq<SaleItem>>,
    subtotal: Option<real>,
    totalAmount: Option<real>,
    totalProfit: Option<real>,
    billDiscountRate: Option<real>,
    billDiscountValue: Option<real>,
    billDiscountType: Option<DiscountKind>,
    payment: Option<Payment>,
    paymentMethod: Option<PaymentMethod>,
    paymentStatus: Option<PaymentStatus>,
    customerName: Option<string>,
    customerPhone: Option<string>)

  /** `{ ...stored, ...body }` for sales. */
  function MergeSale(stored: Sale, body: SalePatch): Sale
  {
    Sale(
      Pick(body.id, stored.id),
      Pick(body.timestamp, stored.timestamp),
      Pick(body.items, stored.items),
      Pick(body.subtotal, stored.subtotal),
      Pick(body.totalAmount, stored.totalAmount),
      Pick(body.totalProfit, stored.totalProfit),
      Pick(body.billDiscountRate, stored.billDiscountRate),
      Pick(body.billDiscountValue, stored.billDiscountValue),
      Pick(body.billDiscountType, stored.billDiscountType),
      if body.payment.Some? then body.payment else stored.payment,
      Pick(body.paymentMethod, stored.paymentMethod),
      Pick(body.paymentStatus, stored.paymentStatus),
      Pick(body.customerName, stored.customerName),
      Pick(body.customerPhone, stored.customerPhone))
  }

  /** The record stored when a body is pushed as a new sale with the given id. */
  function NewSale(body: SalePatch, id: int): (r: Sale)
    ensures r.id == id
    ensures body.items.Some? ==> r.items == body.items.value
    ensures body.items.None? ==> r.items == []
  {
    MergeSale(Sale(0, 0, [], 0.0, 0.0, 0.0, 0.0, 0.0, Percent, None, Cash, StatusPaid, "", ""), body.(id := Some(id)))
  }

  /** The body the application posts for a whole sale object, optionally carrying an id. */
  function SaleBody(s: Sale, id: Option<int>): (b: SalePatch)
    ensures b.id == id
    ensures forall stored: Sale :: id == Some(stored.id) ==>
      MergeSale(stored, b) == s.(id := stored.id, payment := if s.payment.Some? then s.payment else stored.payment)
    ensures forall k: int :: id == None ==> NewSale(b, k) == s.(id := k)
  {
    SalePatch(id, Some(s.timestamp), Some(s.items), Some(s.subtotal), Some(s.totalAmount),
      Some(s.totalProfit), Some(s.billDiscountRate), Some(s.billDiscountValue),
      Some(s.billDiscountType), s.payment, Some(s.paymentMethod), Some(s.paymentStatus),
      Some(s.customerName), Some(s.customerPhone))
  }
}
