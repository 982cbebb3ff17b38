# AK Mart point of sale — a Dafny model of its bookkeeping

The system is a browser-based point-of-sale register (`app.js`) talking to
a small JSON-file server (`server.js`). The server keeps one object,
`{ categories, products, sales }`. This project models the register's
in-memory bookkeeping and the server handlers that change that object.
Their properties are proved in Dafny.

- `base.dfy` (module `Base`): `Option`, plus the four sequence idioms the
  code uses everywhere. These are first index by id (`find`/`findIndex`),
  filter by id, a left-fold sum (`reduce`), and the running maximum from 0
  that both id generators compute with `forEach`.
- `entities.dfy` (module `Entities`): products, categories, cart lines,
  sale items, sales and payments. Request bodies are patches with one
  optional field per record field. `{ ...stored, ...body }` is written out
  as a merge.
- `pricing.dfy` (module `Pricing`): the cart arithmetic. It covers line
  totals, item and bill discounts, the amount due (floored at 0), and the
  recorded profit (floored at 0). It also has the cart panel's
  accumulating loop.
- `cart.dfy` (module `Carts`): the module-level cart array, as a class whose
  methods update it in place. It also holds the quick-add terminal.
- `ids.dfy` (module `Ids`): several helpers:
  - `formatID` and the subset of `parseInt` the code relies on.
  - Next-product-code generation, as a loop.
  - The terminal's numeric-code lookup.
  - The product-code uniqueness check.
  - The sales-history page window.
- `store.dfy` (module `Stores`): the server's data object, as a class with
  one method per mutating route. Pure functions beside it state what each
  handler leaves behind.
- `workflows.dfy` (module `Workflows`): the register's multi-request
  operations. These are checkout, settling a credit sale, partial and full
  returns, and saving the product form.

Modelling choices:

- Money is exact (`real`). Quantities, stock and ids are integers.
- `Date.now()` and the sale timestamp are integer parameters.
- The user's answers to `confirm` and `prompt` are method inputs.
- A JavaScript `if (x.id)` is true for a present, non-zero id (`Truthy`).
- Every request goes straight to the in-memory store; HTTP and JSON are
  not modelled.

The server's lookups by id, and the register's lookups in the lists it
fetches, take the first matching record in list order (`IndexOf`, `find`).
The register looks sales up in the list the server sorts by timestamp; the
model looks them up in store order (see `Stores.SaleById` under "Left
out"). The two pick the same record whenever sale ids are unique.

## Model

| member | source | states |
|---|---|---|
| Base.IndexOf | server.js:82 | the index found holds the key and no earlier element does; None exactly when no element has the key |
| Base.IndexOfSnoc | server.js:82 | the first match in a list is the first match in all but its last element, else that last element when it matches, else none |
| Base.Without | server.js:61 | `filter(x => x.id != k)`: never longer than the input; exactly which elements survive is stated by WithoutContents |
| Base.WithoutContents | server.js:61 | every survivor was in the input and lacks the key; every input element lacking the key survives |
| Base.WithoutAppend | server.js:105-110 | filtering distributes over concatenation, so the survivors keep their relative order |
| Base.WithoutAbsent | server.js:59-64 | deleting an id no record has changes nothing |
| Base.WithoutUnique | app.js:597-600 | when exactly one element carries the key, filtering removes exactly that element and keeps the rest in order |
| Base.SumOf | app.js:738 | `reduce((sum, x) => sum + f(x), 0)` as a left fold; its lemmas give sums over concatenations, single elements, an updated or removed element, termwise differences, and the sign of a sum of non-negative terms |
| Base.MaxOf | server.js:134-140 | `let max = 0; forEach(x => { if (num(x) > max) max = num(x) })`, skipping elements with no number; its lemmas bound and attain it |
| Base.MaxOfBounds | server.js:134-140 | no number found in the records exceeds the running maximum |
| Base.MaxOfAttained | app.js:1236-1242 | the running maximum is 0 or a number found in one of the records |
| Entities.NewProduct | server.js:86-88 | a product body without a truthy id is pushed under the given id (the timestamp), whatever falsy id it brought, with its own code and stock (the model default 0 when it sends none) |
| Entities.NewSale | server.js:142-143 | a sale body is pushed carrying the given id whatever id it brought, with its own items (the model default, no items, when it sends none) |
| Entities.SaleBody | db.js:90-92 | posting a whole sale under a stored id, merged over that record, yields the sale with the stored id; posting it with no id creates exactly that sale under the new id |
| Pricing.Subtotal | app.js:847 | the sum of `qty * retailPrice` over the cart, as the `reduce` computes it |
| Pricing.ItemDiscounts | app.js:848-852 | the sum of the lines' discounts, fixed or percentage, as the `reduce` computes it |
| Pricing.TotalAmount | app.js:855-862 | the amount due is never negative, and it is either 0 or subtotal minus item discounts minus bill discount |
| Pricing.TotalProfit | app.js:864-876 | the recorded profit is exactly max(0, summed line profit minus the bill discount): never negative, at least that difference, and either 0 or that difference |
| Pricing.LineTotal | app.js:640 | a line's total, `qty * retailPrice` |
| Pricing.LineDiscount | app.js:641-646 | a fixed discount is the line's discount value; a percentage one is that share of the line total |
| Pricing.NetLineTotal | app.js:647 | the "Net" on a cart row: the line total less its discount, floored at 0 |
| Pricing.AfterItemDiscount | app.js:854 | the subtotal less the item discounts |
| Pricing.BillAmount | app.js:855-860 | the bill discount worked out on what is left after the item discounts |
| Pricing.BillDiscountAmount | app.js:855-860 | a fixed bill discount is the typed amount; a percentage one is that share of what is left after the item discounts |
| Pricing.LineCost | app.js:871 | a line's cost, `costPrice * qty` |
| Pricing.LineRevenue | app.js:866-871 | a fixed discount is taken off the line total and floored at 0; a percentage one scales the line total and is not floored |
| Pricing.NetIsRevenue | app.js:647 | the row's "Net" equals the line revenue used for profit for a fixed discount, and for a percentage of at most 100 on a non-negative line total |
| Pricing.TotalDiscount | app.js:704 | the cart panel's discount figure: item discounts plus the bill discount |
| Pricing.LineProfit | app.js:866-872 | a line's contribution to profit: its revenue less `costPrice * qty` |
| Pricing.LineBounds | app.js:640-647 | with non-negative inputs, a line's total and discount are non-negative |
| Pricing.TotalAtMostSubtotal | app.js:738-753 | with quantities, prices and rates in their ranges, the amount due lies between 0 and the subtotal |
| Pricing.NoDiscountTotal | app.js:738-753 | with non-negative quantities and prices and no item or bill discount, the amount due equals the subtotal |
| Pricing.ProfitAtMostTotal | app.js:864-876 | summed line profit is subtotal minus item discounts minus cost; with non-negative costs and no fixed discount above its line, the recorded profit never exceeds the amount due |
| Pricing.CartSummary | app.js:623-704 | the cart panel's loop yields exactly the subtotal, the total discount and the amount due |
| Carts.NewLine | app.js:565-572 | a new line has quantity 1 and carries the product's discount in the field its discount type selects (percent by default) |
| Carts.Cart.constructor | app.js:4 | the cart starts empty |
| Carts.Cart.AddToCart | app.js:560-575 | an existing line's quantity rises by 1 (length unchanged), otherwise one new line is appended; the subtotal grows by one unit price; ids stay distinct |
| Carts.Cart.UpdateItemDiscount | app.js:577-587 | only the matching line's active discount field changes; an unknown id changes nothing |
| Carts.Cart.UpdateItemDiscountType | app.js:589-595 | only the matching line's discount type changes |
| Carts.Cart.RemoveFromCart | app.js:597-600 | the cart becomes the filter of the id; the other lines keep their order; the subtotal drops by the removed line's total |
| Carts.RemoveAtKeepsValid | app.js:597-616 | taking one line out keeps ids distinct and quantities positive |
| Carts.SetQtyKeepsValid | app.js:562-563 | setting one line's quantity to one or more keeps ids distinct and quantities positive |
| Carts.AppendKeepsValid | app.js:564-573 | appending a line for a product not yet in the cart keeps ids distinct |
| Carts.BumpedSubtotal | app.js:562-563 | one more unit on a line adds exactly one unit price to the subtotal |
| Carts.AppendedSubtotal | app.js:564-573 | a new line adds exactly its own total to the subtotal |
| Carts.RemovedLine | app.js:597-600 | filtering out an absent product leaves the cart as it was; otherwise exactly its one line goes, the rest keep their order, the cart stays valid and the subtotal drops by that line's total |
| Carts.Cart.UpdateCartItemQty | app.js:602-616 | + adds one; - takes one away, and a line at quantity 1 is removed; other lines are untouched |
| Carts.Cart.ClearCart | app.js:618-621 | the cart becomes empty |
| Carts.AddedHasLine | app.js:560-573 | after `addToCart`'s bump or push, the product has a line in the cart |
| Carts.Cart.AddByCode | app.js:129-154 | the cart becomes `addToCart`'s result for the product the terminal finds: that product's line gains one unit, or one new line is appended, and the other lines are unchanged; when none is found the cart is unchanged |
| Ids.DecimalString | app.js:963 | `toString` of a non-negative id: at least one character, all digits; DecimalStringValue gives its value |
| Ids.DecimalStringValue | app.js:962-964 | the decimal digits of n denote n |
| Ids.LeadingZerosValue | app.js:962-964 | zero padding does not change the value of a digit string |
| Ids.PadStart | app.js:963 | padding yields max(length, `width`) characters and keeps the string all digits |
| Ids.PadStartContents | app.js:963 | the padded string is exactly the added zeros followed by the original, and a string already `width` long is unchanged |
| Ids.UpToDash | app.js:1239 | `split('-')[1]` once the first dash is dropped: a prefix of the text with no dash in it, ending at the next dash or at the end |
| Ids.DigitPrefix | app.js:1240 | the leading digit run is a prefix of the input, is all digits, and is followed by a non-digit or the end |
| Ids.ParseInt | app.js:1240 | parsing fails (NaN) exactly when no digit follows the optional sign |
| Ids.DigitsParse | app.js:1240 | a non-empty digit string parses to the number it denotes |
| Ids.PaddedParses | app.js:962-964 | the eight padded digits of a non-negative id are all digits and parse back to the id |
| Ids.CodeNumber | app.js:1239-1240 | the number of a code starting with `PRD-`: `parseInt` of the text between the first and second dash, or none |
| Ids.FormatIdRoundTrip | app.js:1238-1241 | the number parsed back from `formatID(n, 'PRD')` is n |
| Ids.InvoiceRoundTrip | app.js:962-964 | an invoice number starts with `INV-` and its digits parse back to the sale id |
| Ids.MaxCodeNumber | app.js:1237-1243 | the largest parseable `PRD-` number among the products' codes, or 0; MaxOfBounds and MaxOfAttained bound and attain it |
| Ids.MaxCodeNumberOf | app.js:1237-1243 | the `forEach` loop over the catalogue computes exactly that maximum |
| Ids.NextProductCode | app.js:1234-1248 | the loop offers `formatID(max + 1, 'PRD')` over all parseable `PRD-` codes |
| Ids.NextCodeIsFresh | app.js:1234-1248 | the offered code equals no existing product's code |
| Ids.FormatId | app.js:962-964 | the prefix, a dash and the decimal id padded with zeros to eight characters (its meaning is pinned by the two round-trip lemmas) |
| Ids.FindByCode | app.js:146 | the match is the first product with the code; None exactly when no product has the code |
| Ids.TerminalLookup | app.js:133-147 | an empty entry finds nothing; an all-digit entry whose padded `PRD-` code exists finds that code, whatever the entry's length; any match is the first product carrying its code and carries the typed code or the padded one; None exactly when neither code occurs |
| Ids.CodeTaken | app.js:1313-1314 | another product (for a new one, any product) carries the code; for a new product this is exactly a `find` by code succeeding |
| Ids.TerminalFindsNumber | app.js:133-143 | for entries of at most eight characters, typing a product's number, with or without leading zeros, finds the product whose code is that number formatted |
| Ids.TotalPages | app.js:1419 | `Math.ceil(total / 10)`: the fewest pages of ten that hold every entry |
| Ids.PageWindow | app.js:1417-1427 | an out-of-range page is pulled back to the last page (or 1); the window lies within the list, holds at most 10 entries, and is non-empty when the list is |
| Ids.EntryOnItsPage | app.js:1417-1427 | an entry lies in the window exactly when the window's page is the one its index falls on |
| Stores.IncrementalId | server.js:135-137 | a sale id counts toward the maximum only below 10^12 |
| Stores.MaxIncrementalId | server.js:134-140 | the largest sale id below 10^12, or 0 |
| Stores.MaxIncrementalIdBounds | server.js:133-141 | the maximum is below 10^12 and no id below 10^12 exceeds it |
| Stores.MaxIncrementalIdOf | server.js:134-140 | the `forEach` loop computes that maximum |
| Stores.ProductById | server.js:72-76 | the answer is the first product with the id; None exactly when no product has the id |
| Stores.SaleById | db.js:73-76 | the answer is the first stored sale with the id; None exactly when no sale has the id |
| Entities.MergeProduct | server.js:84 | `{ ...stored, ...body }`: every field the body supplies wins, every other field keeps its stored value |
| Entities.MergeSale | server.js:126 | `{ ...stored, ...body }` for sales, field by field as for products |
| Stores.UpsertedId | server.js:91 | the answered id: the body's truthy id, else the timestamp it was stored under |
| Stores.UpsertProductsIdPresent | server.js:81-88 | the intended upsert: a body carrying any id, 0 included, never adds a product; one without an id is appended under the timestamp |
| Stores.UpsertProducts | server.js:78-92 | the catalogue after a product POST: merge in place, ignore, or append under the timestamp |
| Stores.UpsertProductCases | server.js:78-92 | a known id is merged in place, keeping its id and every other product; a supplied unknown id stores nothing; no id appends one product stamped with the time |
| Stores.PatchedStock | server.js:94-103 | the catalogue after a stock PATCH: the first product with the id gains `change` |
| Stores.PatchedStockEffect | server.js:94-103 | only the first matching product's stock changes, by exactly `change`; an unknown id changes nothing |
| Stores.SameKeysSameIndex | server.js:96 | records whose ids sit in the same places give the same first match, so a stock patch does not move later lookups |
| Stores.ApplyStockChanges | server.js:94-103 | the stock PATCH applied once per change, in order; ApplyStockChangesNet gives its effect |
| Stores.ApplyStockChangesNet | server.js:94-103 | after a series of patches, each product moves by the net change sent to its id and nothing else changes |
| Stores.PostSaleTo | server.js:118-146 | the sales, answered id and `updated` flag after a sale POST: merge into the found truthy id, or append under the next incremental id |
| Stores.PostSaleUpdates | server.js:122-130 | a known id merges into that record, keeping its id; the length and every other record are unchanged |
| Stores.PostSaleCreates | server.js:132-145 | any other body is appended at the end under `max + 1`, which exceeds every incremental id; the length grows by 1 |
| Stores.NewSaleIdFresh | server.js:133-142 | while `max + 1` stays below 10^12, the new id collides with no stored sale |
| Stores.ConsecutiveSaleIds | server.js:133-145 | two sales created in a row receive consecutive ids |
| Stores.Store.constructor | server.js:15-22 | the data file starts with three empty arrays |
| Stores.Store.AddCategory | server.js:50-57 | one category stamped with the time is appended; products and sales are unchanged |
| Stores.Store.DeleteCategory | server.js:59-64 | categories become the filter of the id; products and sales are unchanged |
| Stores.Store.UpsertProduct | server.js:78-92 | products become the upsert result; the answer is the body's id or the timestamp |
| Stores.Store.PatchStock | server.js:94-103 | products become the stock-patch result; nothing else changes |
| Stores.Store.DeleteProduct | server.js:105-110 | products become the filter of the id; nothing else changes |
| Stores.Store.PostSale | server.js:118-146 | sales, the answered id and the `updated` flag are the update-or-create result |
| Stores.Store.ClearSales | server.js:148-153 | sales become empty; categories and products are unchanged |
| Stores.Store.Restore | server.js:156-167 | products and sales are replaced only when supplied; categories are always kept |
| Workflows.SaleItemOf | app.js:892-902 | a sale item snapshots id, code, name, quantity, price and cost, and keeps only the discount field its type uses |
| Workflows.SnapshotItems | app.js:892 | one snapshot per cart line, in cart order |
| Workflows.BuildSale | app.js:889-915 | the record holds the snapshots and the cart's subtotal, total and profit; Credit records cash 0, balance 0 and status Credit; Cash records balance = cash - total and status Paid; an empty name becomes `Anonymous` |
| Workflows.CashBalanceNonNegative | app.js:884-887 | a cash sale that passes the cash check records a non-negative balance |
| Workflows.Decreases | app.js:921-923 | one stock decrease of the line's quantity per cart line, in order |
| Workflows.DecreasesNet | app.js:921-923 | with one line per product, the net change sent to a product is minus its line's quantity, or 0 |
| Workflows.SendStockChanges | app.js:920-922 | the loop of stock patches leaves the catalogue exactly as the patches applied in order would; sales and categories are unchanged |
| Workflows.PostNewSale | server.js:132-145 | a whole sale posted without an id is appended as that sale under `max + 1`, and the response is not an update |
| Workflows.FinalizeSale | app.js:841-923 | an empty cart or short cash changes nothing; otherwise exactly one sale is appended under the next incremental id, each line's quantity leaves stock, and the cart is emptied |
| Workflows.CheckoutStock | app.js:921-923 | after checkout, each product has lost exactly the quantity of its cart line |
| Workflows.AmendInPlace | db.js:90-92 | posting an amended sale under its non-zero id replaces exactly that record |
| Workflows.PaidSale | app.js:1676-1681 | settling sets status Paid, method Cash and payment (total, 0), and changes nothing else |
| Workflows.MarkSaleAsPaid | app.js:1669-1692 | a declined or missing sale changes nothing; otherwise the settled sale is posted back |
| Workflows.SettleInPlace | app.js:1669-1692 | for a non-zero id, settling rewrites that one record |
| Workflows.LoweredAmount | app.js:1730 | lowering a quantity by q lowers the item's amount by q times its price |
| Workflows.ReturnedItems | app.js:1730-1736 | the returned line's quantity drops by `q`, and a line that reaches 0 is spliced out |
| Workflows.SplicedItemsAmount | app.js:1729-1733 | a line returned in full is spliced out and its whole amount leaves the item total |
| Workflows.LoweredItemsAmount | app.js:1729-1735 | a line returned in part stays, and the item total drops by the returned units times the price |
| Workflows.ReturnedItemsAmount | app.js:1729-1739 | returning q units takes exactly q times the item's price off the undiscounted item total |
| Workflows.ReturnedItemsShape | app.js:1729-1736 | a line that reaches 0 is spliced out; otherwise only its quantity drops, and every other item is kept in order |
| Workflows.ReturnedSale | app.js:1729-1755 | items, totals without discounts and balance = cash - new total are recomputed; every other field, the subtotal included, is kept |
| Workflows.ProcessReturn | app.js:1712-1767 | a missing sale reports NotFound, a missing item NoSuchItem (the thrown error), more units than bought TooMany, and a declined confirmation Cancelled, each changing nothing; otherwise stock rises by the returned quantity and the amended sale is posted |
| Workflows.InitiateReturn | app.js:1699-1710 | an empty entry does nothing, and an entry that is not a positive integer is refused; a positive entry performs the return exactly when the sale and item exist, the entry is within the purchased quantity and the user confirms |
| Workflows.ItemAmount | app.js:1739 | a sale item's undiscounted amount, `qty * price` |
| Workflows.ItemProfit | app.js:1740 | a sale item's profit, `(price - cost) * qty` |
| Workflows.Increases | app.js:1780-1782 | one stock increase of the item's quantity per sale item |
| Workflows.IncreasesNet | app.js:1780-1782 | with one item per product, the net change a full return sends to a product is its item's quantity, or 0 |
| Workflows.FullReturnStock | app.js:1780-1782 | after a full return, each product has regained exactly the quantity of its sale item, and every other product's stock is unchanged |
| Workflows.FullyReturned | app.js:1784-1791 | a full return has no items, zero subtotal, total and profit, and balance = cash; nothing else changes |
| Workflows.ReturnFullBill | app.js:1772-1793 | once confirmed and found, every item's quantity goes back into stock and the zeroed sale is posted |
| Workflows.ImageToSave | app.js:1293-1297 | an edit without a new image keeps the stored product's image; otherwise the given image is saved |
| Workflows.FormBody | app.js:1299-1310 | merged over the edited product, or stored as a new one, the body yields exactly the typed fields and image under the record's id; a threshold of 0 becomes 3 |
| Workflows.SubmitProduct | app.js:1285-1327 | a code carried by another product is refused and nothing is stored; otherwise the form is upserted |
| Workflows.SubmitKeepsCodesDistinct | app.js:1313-1319 | with unique ids and codes, a form for a new product, or for an edit of a product whose id is not 0, that passes the check keeps every code distinct |
| Workflows.ZeroIdEditDuplicatesCode | server.js:81-88 | editing a product whose id is 0 passes the check yet appends a second product with the same code |
| Workflows.SubmitKeepsCodesDistinctIdPresent | app.js:1313-1325 | with the intended upsert, a form that passes the check keeps every code distinct, an edit of id 0 included |

## Left out

- DOM rendering, modals, navigation, receipts and printing: these are user interface.
- The lock timer, image reading and pasting, and other browser timers: these are browser plumbing.
- Report aggregation (`updateReports`): it is neither a cart operation nor a store handler.
- The sales-history date filter, text search and footer totals: these depend on locale dates and display strings.
- Previous/next page buttons: only the page window is modelled.
- CSV export and the client side of backup and restore: these are file I/O. The server's restore handler is modelled.
- `db.js` fetch wrappers: requests are direct calls on the store. A request that fails halfway through a workflow is not modelled, nor is `try/catch` abandoning the remaining requests.
- `migrate_to_mysql.js` and `sw.js`: a foreign database client and service-worker caching.
- Reading and writing the data file on every request, and interleaving of concurrent requests.
- Floating point: money is exact, and `toFixed`/`parseFloat` rounding is not modelled.
- Stores.SaleById: the sales GET handler sorts by timestamp before the register's `find`; the model takes the first match in store order. The two differ only when ids repeat.
- Entities.NewProduct: fields a creation body lacks get model defaults. In JavaScript they stay absent.
- Entities.NewSale: fields a creation body lacks get model defaults. In JavaScript they stay absent.
- Ids.ParseInt: leading whitespace, `0x` prefixes and numbers beyond the digit run are not modelled; only the optional sign and the leading digits are.
- Carts.Cart.UpdateItemDiscount: takes the already-parsed number; `parseFloat(val) || 0` on the raw text is not modelled.
- Carts.Cart.AddByCode: the entry arrives already trimmed; the terminal's `trim()` is not modelled.
- Workflows.SubmitProduct: trimming of the code and NaN form values are not modelled; fields arrive parsed.
- Workflows.BuildSale: the timestamp is an integer rather than an ISO string; trimming of the customer name is not modelled.
- Workflows.ReturnedSale: `cost || 0` for legacy items without a cost is not modelled, because every item carries a cost.
- Pricing: the `|| 0` defaults for missing discount fields are not modelled, because every line carries both fields.
- Mobile cart badge count, `lastSale`, and the success dialog: these are display state.

## Findings

| source | as written | input that shows it | evidently intended | confidence | as-written member | corrected member |
|---|---|---|---|---|---|---|
| server.js:81 | The upsert tests `if (p.id)`, so an id of 0 counts as absent. The form's uniqueness check (app.js:1314) skips the edited product, and `if (id)` (app.js:1321) is true for the string "0", so an edit posts `{id: 0, ...}`, which the server appends as a new product. | catalogue `[{id: 0, code: "A"}]`, an edit of product 0 that keeps code "A" | an edit updates the record it names, so codes stay distinct | not executed; follows from the cited lines | Workflows.ZeroIdEditDuplicatesCode | Workflows.SubmitKeepsCodesDistinctIdPresent |

Stores.Store.UpsertProduct and Workflows.SubmitProduct keep the server's test as written, so the model reproduces the duplicate; Stores.UpsertProductsIdPresent is the repaired upsert, and the corrected lemma is proved about it.
