/**
 * The server's data file `{ categories, products, sales }` and the effect of
 * each mutating route handler on it.  Every handler reads the whole object,
 * changes it in place (push, indexed assignment, reassignment of a filtered
 * array) and writes it back; here the object is a class whose three fields
 * the handler methods update.  The pure functions beside the class state
 * what each handler leaves behind, and the lemmas what that means.
 */
module Stores {
  import opened Base
  import opened Entities

  /** Sale ids below 10^12 count as incremental; larger ones are taken to be timestamps. */
  const IncrementalBound: int := 1_000_000_000_000

  /** A sale's id when it counts as incremental. */
  function IncrementalId(s: Sale): Option<int>
  {
    if s.id < IncrementalBound then Some(s.id) else None
  }

  /** The largest incremental sale id, or 0 (the `forEach` over the sales). */
  function MaxIncrementalId(sales: seq<Sale>): nat
  {
    MaxOf(sales, IncrementalId)
  }

  /** The maximum is itself below the bound, and no incremental id exceeds it. */
  lemma {:induction false} MaxIncrementalIdBounds(sales: seq<Sale>)
    ensures MaxIncrementalId(sales) < IncrementalBound
    ensures forall j :: 0 <= j < |sales| && sales[j].id < IncrementalBound ==> sales[j].id <= MaxIncrementalId(sales)
  {
    MaxOfAttained(sales, IncrementalId);
    forall j | 0 <= j < |sales| && sales[j].id < IncrementalBound
      ensures sales[j].id <= MaxIncrementalId(sales)
    {
      MaxOfBounds(sales, IncrementalId, j);
    }
  }

  /** The loop of the sale-creation handler that finds the largest incremental id. */
  method MaxIncrementalIdOf(sales: seq<Sale>) returns (maxId: nat)
    ensures maxId == MaxIncrementalId(sales)
  {
    maxId := 0;
    var i := 0;
    while i < |sales|
      invariant 0 <= i <= |sales|
      invariant maxId == MaxOf(sales[..i], IncrementalId)
    {
      assert sales[..i + 1][..i] == sales[..i];
      var id := sales[i].id;
      if id < IncrementalBound {
        if id > maxId {
          maxId := id;
        }
      }
      i := i + 1;
    }
    assert sales[..i] == sales;
  }

  /** First product with the given id (`products.find(p => p.id == id)`). */
  function ProductById(products: seq<Product>, id: int): (r: Option<Product>)
    ensures r.None? <==> forall j :: 0 <= j < |products| ==> products[j].id != id
    ensures r.Some? ==> r.value.id == id && r.value in products
    ensures r.Some? ==> exists i :: 0 <= i < |products| && products[i] == r.value &&
                                    forall j :: 0 <= j < i ==> products[j].id != id
  {
    match IndexOf(products, ProductKey, id)
    case None => None
    case Some(i) => Some(products[i])
  }

  /** First sale with the given id (`sales.find(s => s.id == id)`). */
  function SaleById(sales: seq<Sale>, id: int): (r: Option<Sale>)
    ensures r.None? <==> forall j :: 0 <= j < |sales| ==> sales[j].id != id
    ensures r.Some? ==> r.value.id == id && r.value in sales
    ensures r.Some? ==> exists i :: 0 <= i < |sales| && sales[i] == r.value &&
                                    forall j :: 0 <= j < i ==> sales[j].id != id
  {
    match IndexOf(sales, SaleKey, id)
    case None => None
    case Some(i) => Some(sales[i])
  }

  /** The products after the upsert handler. */
  function UpsertProducts(products: seq<Product>, body: ProductPatch, now: int): seq<Product>
  {
    if Truthy(body.id) then
      match IndexOf(products, ProductKey, body.id.value)
      case None => products
      case Some(i) => products[i := MergeProduct(products[i], body)]
    else products + [NewProduct(body, now)]
  }

  /**
   * The upsert as evidently intended: a body that carries an id, 0
   * included, names an existing record and never adds one; only a body
   * without an id is appended under the timestamp.
   */
  function UpsertProductsIdPresent(products: seq<Product>, body: ProductPatch, now: int): (r: seq<Product>)
    ensures body.id.Some? ==> |r| == |products|
    ensures body.id.None? ==> |r| == |products| + 1 && r[..|products|] == products && r[|products|].id == now
  {
    if body.id.Some? then
      match IndexOf(products, ProductKey, body.id.value)
      case None => products
      case Some(i) => products[i := MergeProduct(products[i], body)]
    else products + [NewProduct(body, now)]
  }

  /** The id the upsert handler answers with. */
  function UpsertedId(body: ProductPatch, now: int): int
  {
    if Truthy(body.id) then body.id.value else now
  }

  /**
   * The three outcomes of a product upsert: a known id is merged in place
   * (keeping its id and every other product), an unknown truthy id stores
   * nothing, and a body without a truthy id is appended under the timestamp.
   */
  lemma {:induction false} UpsertProductCases(products: seq<Product>, body: ProductPatch, now: int)
    ensures var r := UpsertProducts(products, body, now);
      Truthy(body.id) && IndexOf(products, ProductKey, body.id.value).None? ==> r == products
    ensures var r := UpsertProducts(products, body, now);
      Truthy(body.id) && IndexOf(products, ProductKey, body.id.value).Some? ==>
        var i := IndexOf(products, ProductKey, body.id.value).value;
        && |r| == |products|
        && r[i] == MergeProduct(products[i], body)
        && r[i].id == products[i].id == UpsertedId(body, now)
        && forall j :: 0 <= j < |r| && j != i ==> r[j] == products[j]
    ensures var r := UpsertProducts(products, body, now);
      !Truthy(body.id) ==>
        && |r| == |products| + 1
        && r[..|products|] == products
        && r[|products|].id == now == UpsertedId(body, now)
  {
    if !Truthy(body.id) {
      assert (products + [NewProduct(body, now)])[..|products|] == products;
    }
  }

  /** The products after the stock-patch handler: the first match's stock moves by `change`. */
  function PatchedStock(products: seq<Product>, id: int, change: int): seq<Product>
  {
    match IndexOf(products, ProductKey, id)
    case None => products
    case Some(i) => products[i := products[i].(stock := products[i].stock + change)]
  }

  /**
   * Only the stock of the first product with the id changes, by exactly
   * `change`; an unknown id changes nothing.
   */
  lemma {:induction false} PatchedStockEffect(products: seq<Product>, id: int, change: int)
    ensures var r := PatchedStock(products, id, change);
      && |r| == |products|
      && (forall j :: 0 <= j < |r| ==> r[j].(stock := products[j].stock) == products[j])
      && (forall j :: 0 <= j < |r| ==>
            r[j].stock == products[j].stock + (if IndexOf(products, ProductKey, id) == Some(j) then change else 0))
    ensures (forall j :: 0 <= j < |products| ==> products[j].id != id) ==> PatchedStock(products, id, change) == products
  {
  }

  /** One stock PATCH request: product id and signed change. */
  datatype StockChange = StockChange(id: int, change: int)

  /** The products after a series of stock patches, in order. */
  function ApplyStockChanges(products: seq<Product>, changes: seq<StockChange>): seq<Product>
  {
    if |changes| == 0 then products
    else
      var last := changes[|changes| - 1];
      PatchedStock(ApplyStockChanges(products, changes[..|changes| - 1]), last.id, last.change)
  }

  /** The sum of the changes addressed to id `k`. */
  function NetChange(changes: seq<StockChange>, k: int): int
  {
    if |changes| == 0 then 0
    else
      var last := changes[|changes| - 1];
      NetChange(changes[..|changes| - 1], k) + (if last.id == k then last.change else 0)
  }

  /** Two sequences with the same keys in the same places have the same first match. */
  lemma {:induction false} SameKeysSameIndex<T>(s: seq<T>, t: seq<T>, key: T -> int, k: int)
    requires |s| == |t| && forall j :: 0 <= j < |s| ==> key(s[j]) == key(t[j])
    ensures IndexOf(s, key, k) == IndexOf(t, key, k)
  {
    var a, b := IndexOf(s, key, k), IndexOf(t, key, k);
    if a.Some? {
      assert key(t[a.value]) == k;
      assert b.Some? && b.value <= a.value;
      assert key(s[b.value]) == key(t[b.value]);
      assert !(b.value < a.value);
    } else {
      assert forall j :: 0 <= j < |t| ==> key(t[j]) == key(s[j]) != k;
    }
  }

  /**
   * After a series of stock patches every product whose id first occurs at
   * its own index has moved by the net change addressed to that id; the
   * other products, and every field but the stock, are untouched.
   */
  lemma {:induction false} ApplyStockChangesNet(products: seq<Product>, changes: seq<StockChange>)
    ensures var r := ApplyStockChanges(products, changes);
      && |r| == |products|
      && (forall j :: 0 <= j < |r| ==> r[j].(stock := products[j].stock) == products[j])
      && (forall j :: 0 <= j < |r| ==>
            r[j].stock == products[j].stock +
              (if IndexOf(products, ProductKey, products[j].id) == Some(j) then NetChange(changes, products[j].id) else 0))
  {
    if |changes| > 0 {
      var init := changes[..|changes| - 1];
      var last := changes[|changes| - 1];
      var mid := ApplyStockChanges(products, init);
      ApplyStockChangesNet(products, init);
      PatchedStockEffect(mid, last.id, last.change);
      var r := PatchedStock(mid, last.id, last.change);
      assert r == ApplyStockChanges(products, changes);
      forall j | 0 <= j < |r|
        ensures r[j].stock == products[j].stock +
          (if IndexOf(products, ProductKey, products[j].id) == Some(j) then NetChange(changes, products[j].id) else 0)
      {
        SameKeysSameIndex(mid, products, ProductKey, last.id);
        if IndexOf(products, ProductKey, last.id) == Some(j) {
          assert last.id == products[j].id;
        } else if products[j].id == last.id {
          assert IndexOf(products, ProductKey, products[j].id) != Some(j);
        }
      }
    }
  }

  /** The answer of the sale-posting handler and the sales it leaves behind. */
  datatype Posted = Posted(sales: seq<Sale>, id: int, updated: bool)

  /**
   * A sale body with a truthy id that is found is merged into that record;
   * any other body is appended under the next incremental id.
   */
  function PostSaleTo(sales: seq<Sale>, body: SalePatch): Posted
  {
    var found := if Truthy(body.id) then IndexOf(sales, SaleKey, body.id.value) else None;
    match found
    case Some(i) => Posted(sales[i := MergeSale(sales[i], body)], body.id.value, true)
    case None =>
      var id := MaxIncrementalId(sales) + 1;
      Posted(sales + [NewSale(body, id)], id, false)
  }

  /** An update keeps the number of sales, the record's id and every other record. */
  lemma {:induction false} PostSaleUpdates(sales: seq<Sale>, body: SalePatch, i: nat)
    requires Truthy(body.id) && IndexOf(sales, SaleKey, body.id.value) == Some(i)
    ensures var p := PostSaleTo(sales, body);
      && p.updated && p.id == body.id.value
      && |p.sales| == |sales|
      && p.sales[i] == MergeSale(sales[i], body) && p.sales[i].id == sales[i].id
      && forall j :: 0 <= j < |sales| && j != i ==> p.sales[j] == sales[j]
  {
  }

  /**
   * A creation appends exactly one record, at the end, whose id is one more
   * than the largest incremental id and so exceeds every one of them.
   */
  lemma {:induction false} PostSaleCreates(sales: seq<Sale>, body: SalePatch)
    requires !Truthy(body.id) || IndexOf(sales, SaleKey, body.id.value).None?
    ensures var p := PostSaleTo(sales, body);
      && !p.updated && p.id >= 1
      && |p.sales| == |sales| + 1 && p.sales[..|sales|] == sales
      && p.sales[|sales|] == NewSale(body, p.id) && p.sales[|sales|].id == p.id
      && p.id <= IncrementalBound
      && forall j :: 0 <= j < |sales| && sales[j].id < IncrementalBound ==> sales[j].id < p.id
  {
    MaxIncrementalIdBounds(sales);
    assert (sales + [NewSale(body, MaxIncrementalId(sales) + 1)])[..|sales|] == sales;
  }

  /** While the next id stays below the bound it collides with no stored sale. */
  lemma {:induction false} NewSaleIdFresh(sales: seq<Sale>)
    requires MaxIncrementalId(sales) + 1 < IncrementalBound
    ensures forall j :: 0 <= j < |sales| ==> sales[j].id != MaxIncrementalId(sales) + 1
  {
    MaxIncrementalIdBounds(sales);
  }

  /** Two sales created one after the other receive consecutive ids. */
  lemma {:induction false} ConsecutiveSaleIds(sales: seq<Sale>, first: SalePatch, second: SalePatch)
    requires !Truthy(first.id) && !Truthy(second.id)
    requires MaxIncrementalId(sales) + 1 < IncrementalBound
    ensures PostSaleTo(PostSaleTo(sales, first).sales, second).id == PostSaleTo(sales, first).id + 1
  {
    var id := MaxIncrementalId(sales) + 1;
    var grown := sales + [NewSale(first, id)];
    assert grown[..|sales|] == sales;
    assert MaxIncrementalId(grown) == id;
  }

  class Store {
    var categories: seq<Category>
    var products: seq<Product>
    var sales: seq<Sale>

    /** The data file as first created: three empty arrays. */
    constructor ()
      ensures categories == [] && products == [] && sales == []
    {
      categories, products, sales := [], [], [];
    }

    /** POST /api/categories: a category stamped with the current time is pushed. */
    method AddCategory(name: string, now: int) returns (c: Category)
      modifies this
      ensures c == Category(now, name)
      ensures categories == old(categories) + [c]
      ensures products == old(products) && sales == old(sales)
    {
      c := Category(now, name);
      categories := categories + [c];
    }

    /** DELETE /api/categories/:id. */
    method DeleteCategory(id: int)
      modifies this
      ensures categories == Without(old(categories), CategoryKey, id)
      ensures products == old(products) && sales == old(sales)
    {
      categories := Without(categories, CategoryKey, id);
    }

    /** POST /api/products: merge into a known product, or push a new one. */
    method UpsertProduct(body: ProductPatch, now: int) returns (id: int)
      modifies this
      ensures products == UpsertProducts(old(products), body, now)
      ensures id == UpsertedId(body, now)
      ensures categories == old(categories) && sales == old(sales)
    {
      if Truthy(body.id) {
        var index := IndexOf(products, ProductKey, body.id.value);
        if index.Some? {
          products := products[index.value := MergeProduct(products[index.value], body)];
        }
        id := body.id.value;
      } else {
        id := now;
        products := products + [NewProduct(body, id)];
      }
    }

    /** PATCH /api/products/:id/stock. */
    method PatchStock(id: int, change: int)
      modifies this
      ensures products == PatchedStock(old(products), id, change)
      ensures categories == old(categories) && sales == old(sales)
    {
      var index := IndexOf(products, ProductKey, id);
      if index.Some? {
        var i := index.value;
        products := products[i := products[i].(stock := products[i].stock + change)];
      }
    }

    /** DELETE /api/products/:id. */
    method DeleteProduct(id: int)
      modifies this
      ensures products == Without(old(products), ProductKey, id)
      ensures categories == old(categories) && sales == old(sales)
    {
      products := Without(products, ProductKey, id);
    }

    /** POST /api/sales: update a known sale in place, or create one with the next incremental id. */
    method PostSale(body: SalePatch) returns (id: int, updated: bool)
      modifies this
      ensures Posted(sales, id, updated) == PostSaleTo(old(sales), body)
      ensures categories == old(categories) && products == old(products)
    {
      if Truthy(body.id) {
        var index := IndexOf(sales, SaleKey, body.id.value);
        if index.Some? {
          sales := sales[index.value := MergeSale(sales[index.value], body)];
          return body.id.value, true;
        }
      }
      var maxId := MaxIncrementalIdOf(sales);
      id := maxId + 1;
      updated := false;
      sales := sales + [NewSale(body, id)];
    }

    /** DELETE /api/sales: the whole history is dropped. */
    method ClearSales()
      modifies this
      ensures sales == []
      ensures categories == old(categories) && products == old(products)
    {
      sales := [];
    }

    /** POST /api/restore: whichever arrays the body carries replace the stored ones. */
    method Restore(newProducts: Option<seq<Product>>, newSales: Option<seq<Sale>>)
      modifies this
      ensures products == if newProducts.Some? then newProducts.value else old(products)
      ensures sales == if newSales.Some? then newSales.value else old(sales)
      ensures categories == old(categories)
    {
      if newProducts.Some? {
        products := newProducts.value;
      }
      if newSales.Some? {
        sales := newSales.value;
      }
    }
  }
}
