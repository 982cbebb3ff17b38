/**
 * The register's cart: the application keeps it in one module-level array
 * that the cart handlers update in place (bump a quantity, push a line,
 * reassign the filtered array, reset it to empty).  Lines are keyed by
 * product id and each id occurs at most once.
 */
module Carts {
  import opened Base
  import opened Entities
  import opened Pricing
  import Ids

  ghost predicate DistinctIds(lines: seq<CartLine>)
  {
    forall i, j :: 0 <= i < j < |lines| ==> lines[i].item.id != lines[j].item.id
  }

  /**
   * The line pushed for a product that is not in the cart yet: quantity 1,
   * and the product's own discount carried into the field its type selects.
   */
  function NewLine(p: Product): (l: CartLine)
    ensures l.item == p && l.qty == 1
    ensures l.discountType == Fixed <==> p.discountType == Some(Fixed)
    ensures l.discountType == Fixed ==> l.discountValue == p.discountRate && l.discountRate == 0.0
    ensures l.discountType == Percent ==> l.discountRate == p.discountRate && l.discountValue == 0.0
  {
    var fixed := p.discountType == Some(Fixed);
    CartLine(
      p,
      1,
      Pick(p.discountType, Percent),
      if fixed then 0.0 else p.discountRate,
      if fixed then p.discountRate else 0.0)
  }

  /** One line per product id, and no line with a quantity below one. */
  ghost predicate ValidLines(lines: seq<CartLine>)
  {
    DistinctIds(lines) && forall j :: 0 <= j < |lines| ==> lines[j].qty >= 1
  }

  /** Taking one line out of a cart keeps it valid. */
  lemma {:induction false} RemoveAtKeepsValid(lines: seq<CartLine>, k: nat)
    requires k < |lines| && ValidLines(lines)
    ensures ValidLines(lines[..k] + lines[k + 1..])
  {
    var rest := lines[..k] + lines[k + 1..];
    assert forall j :: 0 <= j < |rest| ==> rest[j] == lines[if j < k then j else j + 1];
  }

  /** Changing one line's quantity, to one or more, keeps the cart valid. */
  lemma {:induction false} SetQtyKeepsValid(lines: seq<CartLine>, k: nat, qty: int)
    requires k < |lines| && ValidLines(lines) && qty >= 1
    ensures ValidLines(lines[k := lines[k].(qty := qty)])
  {
  }

  /** Appending a line for a product not yet in the cart keeps it valid. */
  lemma {:induction false} AppendKeepsValid(lines: seq<CartLine>, line: CartLine)
    requires ValidLines(lines) && line.qty >= 1
    requires forall j :: 0 <= j < |lines| ==> lines[j].item.id != line.item.id
    ensures ValidLines(lines + [line])
  {
  }

  /** One more unit on line `k` adds one unit price to the subtotal. */
  lemma {:induction false} BumpedSubtotal(lines: seq<CartLine>, k: nat)
    requires k < |lines|
    ensures Subtotal(lines[k := lines[k].(qty := lines[k].qty + 1)]) == Subtotal(lines) + lines[k].item.retailPrice
  {
    var l := lines[k];
    var bumped := l.(qty := l.qty + 1);
    SumOfUpdate(lines, k, bumped, LineTotal);
    var n, p := l.qty as real, l.item.retailPrice;
    assert (n + 1.0) * p == n * p + p;
    assert LineTotal(bumped) == LineTotal(l) + p;
  }

  /** A new line adds its own total to the subtotal. */
  lemma {:induction false} AppendedSubtotal(lines: seq<CartLine>, line: CartLine)
    ensures Subtotal(lines + [line]) == Subtotal(lines) + LineTotal(line)
  {
    SumOfAppend(lines, [line], LineTotal);
    SumOfSingle(line, LineTotal);
  }

  /**
   * Filtering a product's line out of a valid cart: nothing changes when it
   * has no line; otherwise exactly that line goes, and its total leaves the
   * subtotal.
   */
  lemma {:induction false} RemovedLine(lines: seq<CartLine>, id: int)
    requires ValidLines(lines)
    ensures ValidLines(Without(lines, LineKey, id))
    ensures var i := IndexOf(lines, LineKey, id);
      if i.None? then Without(lines, LineKey, id) == lines
      else
        && Without(lines, LineKey, id) == lines[..i.value] + lines[i.value + 1..]
        && Subtotal(Without(lines, LineKey, id)) == Subtotal(lines) - LineTotal(lines[i.value])
  {
    var i := IndexOf(lines, LineKey, id);
    if i.None? {
      WithoutAbsent(lines, LineKey, id);
    } else {
      WithoutUnique(lines, LineKey, i.value);
      SumOfRemove(lines, i.value, LineTotal);
      RemoveAtKeepsValid(lines, i.value);
    }
  }

  /** Bumping the product's line, or appending one for it, leaves the product with a line. */
  lemma {:induction false} AddedHasLine(before: seq<CartLine>, after: seq<CartLine>, product: Product)
    requires var i := IndexOf(before, LineKey, product.id);
      if i.Some? then after == before[i.value := before[i.value].(qty := before[i.value].qty + 1)]
      else after == before + [NewLine(product)]
    ensures IndexOf(after, LineKey, product.id).Some?
  {
    var i := IndexOf(before, LineKey, product.id);
    if i.Some? {
      assert after[i.value].item.id == product.id;
    } else {
      assert after[|after| - 1].item.id == product.id;
    }
  }

  class Cart {
    var lines: seq<CartLine>

    /** One line per product id, and no line with a quantity below one. */
    ghost predicate Valid()
      reads this
    {
      ValidLines(lines)
    }

    constructor ()
      ensures Valid() && lines == []
    {
      lines := [];
    }

    /** Bump the product's line, or push a fresh one; the subtotal grows by one unit price. */
    method AddToCart(product: Product)
      requires Valid()
      modifies this
      ensures Valid()
      ensures var i := IndexOf(old(lines), LineKey, product.id);
        if i.Some? then
          lines == old(lines)[i.value := old(lines)[i.value].(qty := old(lines)[i.value].qty + 1)]
        else
          lines == old(lines) + [NewLine(product)]
      ensures var i := IndexOf(old(lines), LineKey, product.id);
        Subtotal(lines) == Subtotal(old(lines)) +
          (if i.Some? then old(lines)[i.value].item.retailPrice else product.retailPrice)
    {
      var i := IndexOf(lines, LineKey, product.id);
      if i.Some? {
        var k := i.value;
        var bumped := lines[k].(qty := lines[k].qty + 1);
        BumpedSubtotal(lines, k);
        SetQtyKeepsValid(lines, k, bumped.qty);
        lines := lines[k := bumped];
      } else {
        var line := NewLine(product);
        AppendedSubtotal(lines, line);
        assert LineTotal(line) == product.retailPrice;
        AppendKeepsValid(lines, line);
        lines := lines + [line];
      }
    }

    /** Set the active discount field (value for a fixed discount, rate otherwise) of the product's line. */
    method UpdateItemDiscount(id: int, val: real)
      requires Valid()
      modifies this
      ensures Valid()
      ensures var i := IndexOf(old(lines), LineKey, id);
        if i.None? then lines == old(lines)
        else
          var l := old(lines)[i.value];
          lines == old(lines)[i.value := if l.discountType == Fixed then l.(discountValue := val) else l.(discountRate := val)]
    {
      var i := IndexOf(lines, LineKey, id);
      if i.Some? {
        var l := lines[i.value];
        if l.discountType == Fixed {
          lines := lines[i.value := l.(discountValue := val)];
        } else {
          lines := lines[i.value := l.(discountRate := val)];
        }
      }
    }

    /** Switch the product's line between a percentage and a fixed discount. */
    method UpdateItemDiscountType(id: int, kind: DiscountKind)
      requires Valid()
      modifies this
      ensures Valid()
      ensures var i := IndexOf(old(lines), LineKey, id);
        if i.None? then lines == old(lines)
        else lines == old(lines)[i.value := old(lines)[i.value].(discountType := kind)]
    {
      var i := IndexOf(lines, LineKey, id);
      if i.Some? {
        lines := lines[i.value := lines[i.value].(discountType := kind)];
      }
    }

    /** Drop the product's line; the others keep their order and quantities. */
    method RemoveFromCart(id: int)
      requires Valid()
      modifies this
      ensures Valid()
      ensures lines == Without(old(lines), LineKey, id)
      ensures var i := IndexOf(old(lines), LineKey, id);
        if i.None? then lines == old(lines)
        else
          && lines == old(lines)[..i.value] + old(lines)[i.value + 1..]
          && Subtotal(lines) == Subtotal(old(lines)) - LineTotal(old(lines)[i.value])
    {
      RemovedLine(lines, id);
      lines := Without(lines, LineKey, id);
    }

    /**
     * The +/- buttons: a positive change adds one, anything else takes one
     * away, and a line that falls to zero is removed.
     */
    method UpdateCartItemQty(id: int, change: int)
      requires Valid()
      modifies this
      ensures Valid()
      ensures var i := IndexOf(old(lines), LineKey, id);
        if i.None? then lines == old(lines)
        else
          var l := old(lines)[i.value];
          if change > 0 then lines == old(lines)[i.value := l.(qty := l.qty + 1)]
          else if l.qty == 1 then lines == old(lines)[..i.value] + old(lines)[i.value + 1..]
          else lines == old(lines)[i.value := l.(qty := l.qty - 1)]
    {
      var i := IndexOf(lines, LineKey, id);
      if i.None? {
        return;
      }
      var k := i.value;
      if change > 0 {
        SetQtyKeepsValid(lines, k, lines[k].qty + 1);
        lines := lines[k := lines[k].(qty := lines[k].qty + 1)];
      } else {
        ghost var before := lines;
        lines := lines[k := lines[k].(qty := lines[k].qty - 1)];
        if lines[k].qty <= 0 {
          WithoutUnique(lines, LineKey, k);
          RemoveAtKeepsValid(before, k);
          assert lines[..k] == before[..k] && lines[k + 1..] == before[k + 1..];
          lines := Without(lines, LineKey, id);
        } else {
          SetQtyKeepsValid(before, k, lines[k].qty);
        }
      }
    }

    method ClearCart()
      modifies this
      ensures Valid() && lines == []
    {
      lines := [];
    }

    /**
     * The quick-add terminal: add the product the typed code names, if any,
     * exactly as `AddToCart` does; the cart is unchanged when no product
     * matches.
     */
    method AddByCode(products: seq<Product>, code: string) returns (found: bool)
      requires Valid()
      modifies this
      ensures Valid()
      ensures found == Ids.TerminalLookup(products, code).Some?
      ensures !found ==> lines == old(lines)
      ensures found ==> IndexOf(lines, LineKey, Ids.TerminalLookup(products, code).value.id).Some?
      ensures found ==>
        var p := Ids.TerminalLookup(products, code).value;
        var i := IndexOf(old(lines), LineKey, p.id);
        if i.Some? then
          lines == old(lines)[i.value := old(lines)[i.value].(qty := old(lines)[i.value].qty + 1)]
        else
          lines == old(lines) + [NewLine(p)]
    {
      var p := Ids.TerminalLookup(products, code);
      found := p.Some?;
      if found {
        AddToCart(p.value);
        AddedHasLine(old(lines), lines, p.value);
      }
    }
  }
}
