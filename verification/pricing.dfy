/**
 * The pricing engine of the register: per-line totals and discounts, the
 * bill-level discount, the grand total and the (approximate) profit that a
 * sale records.  The application computes these with the same expressions
 * in the cart panel, the payment dialog and at checkout; here they are
 * defined once.
 */
module Pricing {
  import opened Base
  import opened Entities

  function Max0(x: real): real { if x < 0.0 then 0.0 else x }

  /** `qty * retailPrice`. */
  function LineTotal(l: CartLine): real { l.qty as real * l.item.retailPrice }

  /** A fixed amount, or a percentage of the line total. */
  function LineDiscount(l: CartLine): real
  {
    if l.discountType == Fixed then l.discountValue else LineTotal(l) * (l.discountRate / 100.0)
  }

  /** The "Net" shown on each cart row. */
  function NetLineTotal(l: CartLine): real { Max0(LineTotal(l) - LineDiscount(l)) }

  function Subtotal(lines: seq<CartLine>): real { SumOf(lines, LineTotal) }

  function ItemDiscounts(lines: seq<CartLine>): real { SumOf(lines, LineDiscount) }

  function AfterItemDiscount(lines: seq<CartLine>): real { Subtotal(lines) - ItemDiscounts(lines) }

  /** The bill discount selector and the number typed next to it. */
  datatype BillDiscount = BillDiscount(kind: DiscountKind, input: real)

  /** A fixed amount, or a percentage of what is left after the item discounts. */
  function BillDiscountAmount(afterItem: real, bill: BillDiscount): real
  {
    if bill.kind == Fixed then bill.input else afterItem * (bill.input / 100.0)
  }

  function BillAmount(lines: seq<CartLine>, bill: BillDiscount): real
  {
    BillDiscountAmount(AfterItemDiscount(lines), bill)
  }

  /** The amount due: never negative, and otherwise what is left after both discounts. */
  function TotalAmount(lines: seq<CartLine>, bill: BillDiscount): (r: real)
    ensures r >= 0.0
    ensures r >= Subtotal(lines) - ItemDiscounts(lines) - BillAmount(lines, bill)
    ensures r == 0.0 || r == Subtotal(lines) - ItemDiscounts(lines) - BillAmount(lines, bill)
  {
    Max0(AfterItemDiscount(lines) - BillAmount(lines, bill))
  }

  /** The "Discount" figure of the cart panel. */
  function TotalDiscount(lines: seq<CartLine>, bill: BillDiscount): real
  {
    ItemDiscounts(lines) + BillAmount(lines, bill)
  }

  /**
   * Revenue of one line for the profit figure: a fixed discount is floored
   * at zero, a percentage one is not.
   */
  function LineRevenue(l: CartLine): real
  {
    if l.discountType == Fixed then Max0(LineTotal(l) - l.discountValue)
    else LineTotal(l) * (1.0 - l.discountRate / 100.0)
  }

  /**
   * The row's "Net" and the line's revenue in the profit figure agree for a
   * fixed discount, and for a percentage of at most 100 on a non-negative
   * line total.
   */
  lemma {:induction false} NetIsRevenue(l: CartLine)
    requires l.discountType == Fixed || (l.discountRate <= 100.0 && LineTotal(l) >= 0.0)
    ensures NetLineTotal(l) == LineRevenue(l)
  {
    if l.discountType != Fixed {
      var t, d := LineTotal(l), l.discountRate / 100.0;
      assert t * (1.0 - d) == t - t * d;
      assert t * (1.0 - d) >= 0.0;
    }
  }

  function LineCost(l: CartLine): real { l.item.costPrice * l.qty as real }

  function LineProfit(l: CartLine): real { LineRevenue(l) - LineCost(l) }

  /** Summed line profit less the whole bill discount, floored at zero. */
  function TotalProfit(lines: seq<CartLine>, bill: BillDiscount): (r: real)
    ensures r >= 0.0
    ensures r >= SumOf(lines, LineProfit) - BillAmount(lines, bill)
    ensures r == 0.0 || r == SumOf(lines, LineProfit) - BillAmount(lines, bill)
  {
    Max0(SumOf(lines, LineProfit) - BillAmount(lines, bill))
  }

  /** Quantities, prices and discounts as the register's inputs allow them. */
  ghost predicate SaneLines(lines: seq<CartLine>)
  {
    forall j :: 0 <= j < |lines| ==>
      && lines[j].qty >= 0
      && lines[j].item.retailPrice >= 0.0
      && 0.0 <= lines[j].discountRate <= 100.0
      && lines[j].discountValue >= 0.0
  }

  ghost predicate SaneBill(bill: BillDiscount)
  {
    bill.input >= 0.0 && (bill.kind == Percent ==> bill.input <= 100.0)
  }

  lemma {:induction false} LineBounds(l: CartLine)
    requires l.qty >= 0 && l.item.retailPrice >= 0.0
    requires 0.0 <= l.discountRate <= 100.0 && l.discountValue >= 0.0
    ensures LineTotal(l) >= 0.0 && LineDiscount(l) >= 0.0
  {
    var t := LineTotal(l);
    assert t >= 0.0;
    assert t * (l.discountRate / 100.0) >= 0.0;
  }

  /** With sane inputs the amount due lies between zero and the subtotal. */
  lemma {:induction false} TotalAtMostSubtotal(lines: seq<CartLine>, bill: BillDiscount)
    requires SaneLines(lines) && SaneBill(bill)
    ensures 0.0 <= TotalAmount(lines, bill) <= Subtotal(lines)
  {
    forall j | 0 <= j < |lines| ensures LineTotal(lines[j]) >= 0.0 && LineDiscount(lines[j]) >= 0.0 {
      LineBounds(lines[j]);
    }
    SumOfNonNegative(lines, LineTotal);
    SumOfNonNegative(lines, LineDiscount);
    var after := AfterItemDiscount(lines);
    var b := BillAmount(lines, bill);
    assert after <= Subtotal(lines);
    if bill.kind == Percent {
      var rate := bill.input / 100.0;
      assert 0.0 <= rate <= 1.0;
      assert b == after * rate;
      if after >= 0.0 {
        assert after * rate >= 0.0;
      } else {
        var keep := 1.0 - rate;
        assert keep >= 0.0;
        assert (-after) * keep >= 0.0;
        assert after - after * rate == -((-after) * keep);
      }
    }
  }

  /** Without any discount the amount due is the subtotal. */
  lemma {:induction false} NoDiscountTotal(lines: seq<CartLine>, bill: BillDiscount)
    requires forall j :: 0 <= j < |lines| ==> LineDiscount(lines[j]) == 0.0
    requires forall j :: 0 <= j < |lines| ==> lines[j].qty >= 0 && lines[j].item.retailPrice >= 0.0
    requires bill.input == 0.0
    ensures ItemDiscounts(lines) == 0.0
    ensures TotalAmount(lines, bill) == Subtotal(lines)
  {
    if |lines| > 0 {
      NoDiscountTotal(lines[..|lines| - 1], bill);
      assert lines[|lines| - 1].qty as real * lines[|lines| - 1].item.retailPrice >= 0.0;
    }
  }

  /**
   * When no fixed discount exceeds its line and costs are non-negative, the
   * recorded profit never exceeds the amount due.
   */
  lemma {:induction false} ProfitAtMostTotal(lines: seq<CartLine>, bill: BillDiscount)
    requires forall j :: 0 <= j < |lines| ==> lines[j].qty >= 0 && lines[j].item.costPrice >= 0.0
    requires forall j :: 0 <= j < |lines| ==>
      lines[j].discountType == Fixed ==> lines[j].discountValue <= LineTotal(lines[j])
    ensures SumOf(lines, LineProfit) == Subtotal(lines) - ItemDiscounts(lines) - SumOf(lines, LineCost)
    ensures TotalProfit(lines, bill) <= TotalAmount(lines, bill)
  {
    forall j | 0 <= j < |lines|
      ensures LineRevenue(lines[j]) == LineTotal(lines[j]) - LineDiscount(lines[j])
      ensures LineCost(lines[j]) >= 0.0
    {
      var l := lines[j];
      assert l.item.costPrice * l.qty as real >= 0.0;
      if l.discountType == Percent {
        assert LineTotal(l) * (1.0 - l.discountRate / 100.0) == LineTotal(l) - LineTotal(l) * (l.discountRate / 100.0);
      }
    }
    SumOfDifference(lines, LineRevenue, LineTotal, LineDiscount);
    SumOfDifference(lines, LineProfit, LineRevenue, LineCost);
    SumOfNonNegative(lines, LineCost);
  }

  /**
   * The cart panel's running totals (one pass accumulating the subtotal and
   * the item discounts, then the bill discount).
   */
  method CartSummary(lines: seq<CartLine>, bill: BillDiscount)
    returns (subtotal: real, totalDiscount: real, finalTotal: real)
    ensures subtotal == Subtotal(lines)
    ensures totalDiscount == TotalDiscount(lines, bill)
    ensures finalTotal == TotalAmount(lines, bill)
  {
    subtotal := 0.0;
    var totalItemDiscount := 0.0;
    var i := 0;
    while i < |lines|
      invariant 0 <= i <= |lines|
      invariant subtotal == Subtotal(lines[..i])
      invariant totalItemDiscount == ItemDiscounts(lines[..i])
    {
      assert lines[..i + 1][..i] == lines[..i];
      var lineTotal := lines[i].qty as real * lines[i].item.retailPrice;
      var lineDiscount := 0.0;
      if lines[i].discountType == Fixed {
        lineDiscount := lines[i].discountValue;
      } else {
        lineDiscount := lineTotal * (lines[i].discountRate / 100.0);
      }
      subtotal := subtotal + lineTotal;
      totalItemDiscount := totalItemDiscount + lineDiscount;
      i := i + 1;
    }
    assert lines[..i] == lines;
    var afterItemDiscount := subtotal - totalItemDiscount;
    var billDiscountAmount := 0.0;
    if bill.kind == Fixed {
      billDiscountAmount := bill.input;
    } else {
      billDiscountAmount := afterItemDiscount * (bill.input / 100.0);
    }
    finalTotal := if afterItemDiscount - billDiscountAmount < 0.0 then 0.0 else afterItemDiscount - billDiscountAmount;
    totalDiscount := totalItemDiscount + billDiscountAmount;
  }
}
