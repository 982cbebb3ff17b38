/**
 * Human-readable identifiers and the small helpers around them: the
 * `PREFIX-00000123` display form, the product-code parser and generator,
 * the quick-add terminal's lookup of numeric codes, the product-code
 * uniqueness check, and the sales-history page window.
 */
module Ids {
  import opened Base
  import opened Entities

  predicate IsDigit(c: char) { '0' <= c <= '9' }

  predicate AllDigits(s: string) { forall j :: 0 <= j < |s| ==> IsDigit(s[j]) }

  function DigitChar(d: nat): (c: char)
    requires d < 10
    ensures IsDigit(c)
  {
    ('0' as int + d) as char
  }

  function DigitValue(c: char): (d: nat)
    requires IsDigit(c)
    ensures d < 10 && DigitChar(d) == c
  {
    c as int - '0' as int
  }

  /** `n.toString()` for a non-negative integer. */
  function DecimalString(n: nat): (s: string)
    ensures |s| >= 1 && AllDigits(s)
    decreases n
  {
    if n < 10 then [DigitChar(n)] else DecimalString(n / 10) + [DigitChar(n % 10)]
  }

  /** The number a string of decimal digits denotes. */
  function DigitsValue(s: string): nat
    requires AllDigits(s)
  {
    if |s| == 0 then 0 else DigitsValue(s[..|s| - 1]) * 10 + DigitValue(s[|s| - 1])
  }

  lemma {:induction false} DecimalStringValue(n: nat)
    ensures DigitsValue(DecimalString(n)) == n
    decreases n
  {
    var s := DecimalString(n);
    if n >= 10 {
      DecimalStringValue(n / 10);
      assert s[..|s| - 1] == DecimalString(n / 10);
    } else {
      assert s[..0] == [];
    }
  }

  function Zeros(k: nat): (s: string)
    ensures |s| == k && AllDigits(s)
    ensures forall j :: 0 <= j < k ==> s[j] == '0'
  {
    if k == 0 then [] else ['0'] + Zeros(k - 1)
  }

  lemma {:induction false} ZerosAdd(a: nat, b: nat)
    ensures Zeros(a) + Zeros(b) == Zeros(a + b)
  {
  }

  /** A run of zeros denotes 0. */
  lemma {:induction false} ZerosValue(k: nat)
    ensures DigitsValue(Zeros(k)) == 0
  {
    if k > 0 {
      assert Zeros(k)[..k - 1] == Zeros(k - 1);
      ZerosValue(k - 1);
    }
  }

  /** Leading zeros do not change the value of a digit string. */
  lemma {:induction false} LeadingZerosValue(k: nat, s: string)
    requires AllDigits(s)
    ensures DigitsValue(Zeros(k) + s) == DigitsValue(s)
    decreases |s|
  {
    if |s| == 0 {
      assert Zeros(k) + s == Zeros(k);
      ZerosValue(k);
    } else {
      var t, init := Zeros(k) + s, s[..|s| - 1];
      assert t[..|t| - 1] == Zeros(k) + init;
      assert t[|t| - 1] == s[|s| - 1];
      LeadingZerosValue(k, init);
    }
  }

  /** `s.padStart(width, '0')`. */
  function PadStart(s: string, width: nat): (r: string)
    ensures |r| == if |s| >= width then |s| else width
    ensures AllDigits(s) ==> AllDigits(r)
  {
    if |s| >= width then s else Zeros(width - |s|) + s
  }

  /** The padded string is exactly the added zeros followed by the original string. */
  lemma {:induction false} PadStartContents(s: string, width: nat)
    ensures |s| >= width ==> PadStart(s, width) == s
    ensures PadStart(s, width) == Zeros(|PadStart(s, width)| - |s|) + s
  {
    if |s| >= width {
      assert Zeros(0) + s == s;
    }
  }

  /** `id.toString()`: a minus sign, if any, and the digits. */
  function IntString(n: int): string
  {
    if n < 0 then "-" + DecimalString(-n) else DecimalString(n)
  }

  /** `formatID(id, prefix)`: the prefix, a dash and the number padded with zeros to eight characters. */
  function FormatId(n: int, prefix: string): string
  {
    prefix + "-" + PadStart(IntString(n), 8)
  }

  /** The longest leading run of digits. */
  function DigitPrefix(s: string): (r: string)
    ensures AllDigits(r) && r <= s
    ensures |r| < |s| ==> !IsDigit(s[|r|])
  {
    if |s| == 0 || !IsDigit(s[0]) then [] else [s[0]] + DigitPrefix(s[1..])
  }

  lemma {:induction false} DigitPrefixOfDigits(s: string)
    requires AllDigits(s)
    ensures DigitPrefix(s) == s
  {
    if |s| > 0 {
      DigitPrefixOfDigits(s[1..]);
    }
  }

  /**
   * `parseInt(s)` in base ten: an optional sign, then the leading digits;
   * None (NaN) when there are none.
   */
  function ParseInt(s: string): (r: Option<int>)
    ensures r.None? <==> DigitPrefix(if |s| > 0 && (s[0] == '-' || s[0] == '+') then s[1..] else s) == []
  {
    var negative := |s| > 0 && s[0] == '-';
    var rest := if |s| > 0 && (s[0] == '-' || s[0] == '+') then s[1..] else s;
    var digits := DigitPrefix(rest);
    var magnitude: int := DigitsValue(digits);
    if |digits| == 0 then None
    else if negative then Some(-magnitude)
    else Some(magnitude)
  }

  /** A non-empty run of digits parses to the number it denotes. */
  lemma {:induction false} DigitsParse(s: string)
    requires |s| > 0 && AllDigits(s)
    ensures ParseInt(s) == Some(DigitsValue(s))
  {
    assert IsDigit(s[0]);
    DigitPrefixOfDigits(s);
  }

  /** The characters before the first dash. */
  function UpToDash(s: string): (r: string)
    ensures r <= s
    ensures forall j :: 0 <= j < |r| ==> r[j] != '-'
    ensures |r| < |s| ==> s[|r|] == '-'
  {
    if |s| == 0 || s[0] == '-' then [] else [s[0]] + UpToDash(s[1..])
  }

  lemma {:induction false} UpToDashOfDigits(s: string)
    requires AllDigits(s)
    ensures UpToDash(s) == s
  {
    if |s| > 0 {
      UpToDashOfDigits(s[1..]);
    }
  }

  const ProductPrefix: string := "PRD"

  /**
   * The number of a `PRD-` code: `parseInt(code.split('-')[1])`.  The code
   * starts with `PRD-`, so the second dash-separated piece is what follows
   * those four characters up to the next dash.
   */
  function CodeNumber(code: string): Option<int>
  {
    if ProductPrefix + "-" <= code then ParseInt(UpToDash(code[4..])) else None
  }

  /** The eight padded digits of a non-negative id parse back to it. */
  lemma {:induction false} PaddedParses(n: nat)
    ensures AllDigits(PadStart(DecimalString(n), 8))
    ensures ParseInt(PadStart(DecimalString(n), 8)) == Some(n)
  {
    var digits := DecimalString(n);
    var padded := PadStart(digits, 8);
    var k: nat := |padded| - |digits|;
    assert DigitsValue(padded) == n by {
      PadStartContents(digits, 8);
      assert padded == Zeros(k) + digits;
      LeadingZerosValue(k, digits);
      DecimalStringValue(n);
    }
    DigitsParse(padded);
  }

  /** Parsing recovers the number a formatted product code was made from. */
  lemma {:induction false} FormatIdRoundTrip(n: nat)
    ensures CodeNumber(FormatId(n, ProductPrefix)) == Some(n)
  {
    var padded := PadStart(DecimalString(n), 8);
    PaddedParses(n);
    assert FormatId(n, ProductPrefix)[4..] == padded;
    UpToDashOfDigits(padded);
  }

  /** The invoice number of a sale: `INV-` and the padded id, from which the id parses back. */
  lemma {:induction false} InvoiceRoundTrip(n: nat)
    ensures "INV-" <= FormatId(n, "INV")
    ensures ParseInt(FormatId(n, "INV")[4..]) == Some(n)
  {
    var padded := PadStart(DecimalString(n), 8);
    PaddedParses(n);
    assert FormatId(n, "INV") == "INV-" + padded;
    assert FormatId(n, "INV")[4..] == padded;
  }

  /** The number a `PRD-` code carries, read as the loop over codes reads it. */
  lemma {:induction false} CodeNumberOfPrefixed(c: string)
    ensures |c| > 0 && ProductPrefix + "-" <= c ==> CodeNumber(c) == ParseInt(UpToDash(c[4..]))
    ensures !(|c| > 0 && ProductPrefix + "-" <= c) ==> CodeNumber(c).None?
  {
  }

  /** The `PRD-` number of a product's code, if it has one. */
  function ProductCodeNumber(p: Product): Option<int> { CodeNumber(p.code) }

  /** The largest parseable `PRD-` number among the products' codes, or 0. */
  function MaxCodeNumber(products: seq<Product>): nat
  {
    MaxOf(products, ProductCodeNumber)
  }

  /** The loop over the catalogue that finds the largest `PRD-` number. */
  method MaxCodeNumberOf(products: seq<Product>) returns (maxId: nat)
    ensures maxId == MaxCodeNumber(products)
  {
    maxId := 0;
    var i := 0;
    while i < |products|
      invariant 0 <= i <= |products|
      invariant maxId == MaxOf(products[..i], ProductCodeNumber)
    {
      assert products[..i + 1][..i] == products[..i];
      var c := products[i].code;
      CodeNumberOfPrefixed(c);
      if |c| > 0 && ProductPrefix + "-" <= c {
        var num := ParseInt(UpToDash(c[4..]));
        if num.Some? && num.value > maxId {
          maxId := num.value;
        }
      }
      i := i + 1;
    }
    assert products[..i] == products;
  }

  /** The code offered for a new product: one more than the largest `PRD-` number. */
  method NextProductCode(products: seq<Product>) returns (code: string)
    ensures code == FormatId(MaxCodeNumber(products) + 1, ProductPrefix)
  {
    var maxId := MaxCodeNumberOf(products);
    var next := maxId + 1;
    code := FormatId(next, ProductPrefix);
    assert next == MaxCodeNumber(products) + 1;
  }

  /** The offered code collides with no existing product code. */
  lemma {:induction false} NextCodeIsFresh(products: seq<Product>)
    ensures forall j :: 0 <= j < |products| ==>
      products[j].code != FormatId(MaxCodeNumber(products) + 1, ProductPrefix)
  {
    var n := MaxCodeNumber(products) + 1;
    FormatIdRoundTrip(n);
    forall j | 0 <= j < |products|
      ensures products[j].code != FormatId(n, ProductPrefix)
    {
      if products[j].code == FormatId(n, ProductPrefix) {
        MaxOfBounds(products, ProductCodeNumber, j);
      }
    }
  }

  /** First product whose code is `code` (`products.find(p => p.code === code)`). */
  function FindByCode(products: seq<Product>, code: string): (r: Option<Product>)
    ensures r.Some? ==> r.value in products && r.value.code == code
    ensures r.None? <==> forall j :: 0 <= j < |products| ==> products[j].code != code
    ensures r.Some? ==> exists i :: 0 <= i < |products| && products[i] == r.value &&
                                    forall j :: 0 <= j < i ==> products[j].code != code
  {
    if |products| == 0 then None
    else if products[0].code == code then Some(products[0])
    else FindByCode(products[1..], code)
  }

  /**
   * The quick-add terminal: an all-digit entry is first tried as a padded
   * `PRD-` code; otherwise, or when that finds nothing, the entry is
   * matched as typed.  An empty entry looks nothing up.
   */
  function TerminalLookup(products: seq<Product>, code: string): (r: Option<Product>)
    ensures r.Some? ==> r.value in products
    ensures r.Some? ==> exists i :: 0 <= i < |products| && products[i] == r.value &&
                                    forall j :: 0 <= j < i ==> products[j].code != r.value.code
    ensures (&& |code| > 0 && AllDigits(code)
             && exists j :: 0 <= j < |products| && products[j].code == ProductPrefix + "-" + PadStart(code, 8))
            ==> r.Some? && r.value.code == ProductPrefix + "-" + PadStart(code, 8)
    ensures r.Some? ==> r.value.code == code || (AllDigits(code) && r.value.code == ProductPrefix + "-" + PadStart(code, 8))
    ensures r.None? <==> (|code| == 0 ||
      forall j :: 0 <= j < |products| ==>
        (products[j].code != code &&
         (AllDigits(code) ==> products[j].code != ProductPrefix + "-" + PadStart(code, 8))))
  {
    if |code| == 0 then None
    else if AllDigits(code) && FindByCode(products, ProductPrefix + "-" + PadStart(code, 8)).Some? then
      FindByCode(products, ProductPrefix + "-" + PadStart(code, 8))
    else FindByCode(products, code)
  }

  /**
   * Typing a product's number, with or without leading zeros (up to eight
   * characters), finds the product whose code is the formatted number.
   */
  lemma {:induction false} TerminalFindsNumber(products: seq<Product>, k: nat, n: nat)
    requires k + |DecimalString(n)| <= 8
    requires exists j :: 0 <= j < |products| && products[j].code == FormatId(n, ProductPrefix)
    ensures TerminalLookup(products, Zeros(k) + DecimalString(n)) == FindByCode(products, FormatId(n, ProductPrefix))
    ensures TerminalLookup(products, Zeros(k) + DecimalString(n)).Some?
  {
    var d := DecimalString(n);
    var typed := Zeros(k) + d;
    var pad := PadStart(typed, 8);
    calc {
      pad;
      Zeros(8 - |typed|) + (Zeros(k) + d);
      (Zeros(8 - |typed|) + Zeros(k)) + d;
      { ZerosAdd(8 - |typed|, k); }
      Zeros(8 - |d|) + d;
      PadStart(d, 8);
    }
    assert FormatId(n, ProductPrefix) == ProductPrefix + "-" + pad;
    assert AllDigits(typed);
  }

  /**
   * The product form's uniqueness check: another product (any product, for
   * a new one) already has this code.
   */
  function CodeTaken(products: seq<Product>, code: string, editingId: Option<int>): (r: bool)
    ensures editingId.None? ==> (r <==> FindByCode(products, code).Some?)
  {
    exists j :: 0 <= j < |products| && products[j].code == code &&
      (editingId.None? || products[j].id != editingId.value)
  }

  const SalesPerPage: nat := 10

  /** `Math.ceil(total / perPage)`: the fewest pages that hold every entry. */
  function TotalPages(total: nat): (r: nat)
    ensures r * SalesPerPage >= total
    ensures r == 0 || (r - 1) * SalesPerPage < total
  {
    (total + SalesPerPage - 1) / SalesPerPage
  }

  datatype Window = Window(page: nat, start: nat, end: nat)

  /**
   * The sales-history page: an out-of-range current page is pulled back to
   * the last page (or page 1 when there are none), then the slice bounds
   * follow from it.
   */
  function PageWindow(total: nat, current: int): (w: Window)
    requires current >= 1
    ensures 1 <= w.page && w.start <= w.end <= total && w.end - w.start <= SalesPerPage
    ensures w.page == if current > TotalPages(total) then (if TotalPages(total) > 1 then TotalPages(total) else 1) else current
    ensures w.start == (w.page - 1) * SalesPerPage
    ensures total > 0 ==> w.start < w.end
  {
    var totalPages := TotalPages(total);
    var page: nat := if current > totalPages then (if totalPages > 1 then totalPages else 1) else current;
    var start: nat := (page - 1) * SalesPerPage;
    var end := if start + SalesPerPage < total then start + SalesPerPage else total;
    Window(page, start, end)
  }

  /** Every entry is shown on exactly one page: the one its index falls in. */
  lemma {:induction false} EntryOnItsPage(total: nat, i: nat, current: int)
    requires i < total && current >= 1
    ensures var w := PageWindow(total, current); (w.start <= i < w.end) <==> w.page == i / SalesPerPage + 1
  {
    var w := PageWindow(total, current);
    var q, r := i / SalesPerPage, i % SalesPerPage;
    assert i == q * SalesPerPage + r && 0 <= r < SalesPerPage;
    var p: int := w.page - 1;
    assert w.start == p * SalesPerPage;
    if p == q {
      assert w.start <= i;
      assert i < w.start + SalesPerPage;
    } else if p < q {
      assert p * SalesPerPage + SalesPerPage <= q * SalesPerPage;
    } else {
      assert q * SalesPerPage + SalesPerPage <= p * SalesPerPage;
    }
  }
}
