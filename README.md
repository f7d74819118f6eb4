# Invoice form state, modelled in Dafny

This project models the state held by the invoice page's `InvoiceComponent`:
the invoice record with its line items, the staging buffer `itemContainer` for
the row being composed or edited, the snapshot `currentUpdatedItem` kept for
cancelling an edit, and the edit-mode flag `update`. It also models the
arithmetic the component runs on that state: the line total, the subtotal loop
and the balance routine `calculateBalancePaid`.

Files:

- `wrappers.dfy`: `Option`, where `None` is a field that is `null` or a key
  that is missing.
- `line_items.dfy` (module `LineItems`): the `Item` value and the empty item `{}`,
  the line total, `splice(start, 1)` on a list, and the recursive `Sum` of the
  rows' totals with its lemmas.
- `balance.dfy` (module `Balance`): the discount actually applied, the
  discounted subtotal and the tax term. It also holds the seven-branch table that
  assembles `balancePaid`, the function `BalanceAfter` that gives the balance
  after the routine, and a reference formula `Accumulate` (subtract the discount,
  add the tax, add shipping, each only when present) that the table is proved
  against.
- `invoice_component.dfy` (module `InvoiceView`): the classes `Invoice` (the
  record, whose fields the component assigns in place) and `InvoiceComponent`
  (the operations). Every operation is a method with a `modifies` frame that
  names exactly the fields it assigns. Its `ensures` give the new state in terms
  of the old state and of `Sum` and `BalanceAfter`.
  Three module-level client methods, `EditThenCancel`, `CommitThenCancel` and
  `EditTwiceThenCancel`, take a component and run a sequence of its operations.
  Their contracts state the combined effect.

Amounts are exact `real`s. Rows are values. Every money field is an
`Option<real>`. The code tests `discount`, `taxRate` and `shipping` against
`null` to decide which terms enter the balance. `subTotal`,
`subTotalLessDiscount`, `totalTax` and `balancePaid` start as `null` and are
only ever assigned, some of them back to `null`.

Quirks of the code that the model keeps, and proves:

- A discount equal to the subtotal is not applied: the code replaces it by 0
  (`Balance.FullDiscountIgnored`).
- With only a tax rate set (no discount, no shipping), none of the seven
  branches fires, so `balancePaid` keeps its previous value
  (`Balance.BalanceFormula`, `Balance.ScenarioTaxOnly`). One would expect
  110 for subtotal 100 and tax rate 10. The model follows the code.
- With no tax rate, the stored `totalTax` is left as it was, even though the
  balance leaves tax out.
- Cancelling an edit puts the row back at the end of the list, and it does not
  recompute any total (`EditThenCancel`).
- Starting an edit while another is under way is not refused. The first row
  then disappears when the second edit is cancelled (`EditTwiceThenCancel`).
- Committing an edit does not clear the snapshot. A cancel after a committed
  edit therefore appends the row as it was before the edit, next to the edited
  row, so the list holds a duplicate (`CommitThenCancel`).
- A delete that was not confirmed still clears the options when the list is
  empty. After a confirmed delete that empties the list, `subTotal` and
  `balancePaid` keep the values computed with the options that are then cleared
  (`DeleteItem`).
- `deleteItem` removes by `splice(index, 1)`. A negative index counts from the
  end, and an index past the end removes nothing (`SpliceOne`). No out-of-range error
  is raised. The model follows the code.

## Model

| member | source | states |
|---|---|---|
| `LineItems.LineTotal` | src/app/views/invoice/invoice.component.ts:112-118 | the line total is quantity times unit price whenever both are present, and 0 when either is 0, so the zero branch agrees with the product |
| `LineItems.SpliceOne` | src/app/views/invoice/invoice.component.ts:101 | `splice(start, 1)` removes exactly the row at `start` when it is in range, counts a negative start from the end (clamped to the first row), removes nothing past the end, and shortens the list by one exactly when it removes |
| `LineItems.SumAppend` | src/app/views/invoice/invoice.component.ts:155-160 | the subtotal of a concatenation is the sum of the two subtotals, so appending a row adds its total |
| `LineItems.SumRemoveAt` | src/app/views/invoice/invoice.component.ts:151 | taking row `i` out lowers the subtotal by exactly that row's total |
| `LineItems.SumSplice` | src/app/views/invoice/invoice.component.ts:101 | a splice keeps every row priced, lowers the sum by the removed row's total (the row at the index, the row counted from the end for a negative index, the first row below `-length`), and leaves the sum alone past the end |
| `LineItems.MoveToEndPermutes` | src/app/views/invoice/invoice.component.ts:135-152 | moving row `i` to the end keeps the same multiset of rows and the same subtotal |
| `Balance.BranchTableMatchesAccumulator` | src/app/views/invoice/invoice.component.ts:197-220 | the seven branches give subtotal - discount + tax + shipping (terms present only when set) on every combination but one, and give nothing exactly when the discount is absent, the tax present and shipping absent |
| `Balance.BalanceFormula` | src/app/views/invoice/invoice.component.ts:163-221 | after the routine the balance is subtotal - effective discount + tax + shipping over the set fields; when only the tax rate is set it keeps its previous value |
| `Balance.FullDiscountIgnored` | src/app/views/invoice/invoice.component.ts:170-182 | a discount equal to the subtotal leaves the discounted subtotal at the full subtotal and gives the same balance as a zero discount; any other discount is deducted in full |
| `Balance.ScenarioAllSet` | src/app/views/invoice/invoice.component.ts:170-200 | subtotal 100, discount 10, tax rate 10, shipping 5 give discounted subtotal 90, tax 9 and balance 104 |
| `Balance.ScenarioTaxOnly` | src/app/views/invoice/invoice.component.ts:187-220 | subtotal 100 with only tax rate 10 gives tax 10 and leaves the balance at its previous value |
| `InvoiceView.Invoice.constructor` | src/app/views/invoice/invoice.component.ts:56-84 | the form starts with no rows and every money field `null` |
| `InvoiceView.InvoiceComponent.constructor` | src/app/views/invoice/invoice.component.ts:53-90 | the component starts outside edit mode, with an empty buffer and snapshot and a fresh empty invoice |
| `InvoiceView.InvoiceComponent.DeleteItem` | src/app/views/invoice/invoice.component.ts:99-109 | a confirmed delete splices the row out and recomputes, lowering the subtotal by the removed row's total (for a negative index the row counted from the end), or leaving it at the old sum when the index is past the end; an unconfirmed one leaves rows, subtotal and balance alone; whenever the list ends up empty the five option fields become `null`, while subtotal and balance keep their last values |
| `InvoiceView.InvoiceComponent.GetTotal` | src/app/views/invoice/invoice.component.ts:112-118 | the buffer's total becomes the line total of its quantity and unit price; its other keys are unchanged |
| `InvoiceView.InvoiceComponent.AddItem` | src/app/views/invoice/invoice.component.ts:121-125 | the rows become the old rows with the buffer appended, the buffer is emptied, the subtotal grows by the appended row's total and the derived fields are recomputed |
| `InvoiceView.InvoiceComponent.UpdateItem` | src/app/views/invoice/invoice.component.ts:129-132 | leaves edit mode and otherwise does what adding does |
| `InvoiceView.InvoiceComponent.Cancel` | src/app/views/invoice/invoice.component.ts:135-140 | the snapshot is appended at the end of the rows, edit mode ends, buffer and snapshot are emptied, no total changes |
| `InvoiceView.InvoiceComponent.FillContainer` | src/app/views/invoice/invoice.component.ts:143-152 | for an index in range: the row leaves the list, the buffer and the snapshot both hold it, edit mode is on, no total changes |
| `InvoiceView.InvoiceComponent.GetSubTotal` | src/app/views/invoice/invoice.component.ts:155-160 | the subtotal becomes the sum of the rows' totals (0 for no rows); the rows are not changed |
| `InvoiceView.InvoiceComponent.CalculateBalancePaid` | src/app/views/invoice/invoice.component.ts:163-221 | subtotal, discounted subtotal, tax (only when a rate is set, otherwise kept) and balance (previous value when no branch fires) become what the balance functions give; when a rate is set the stored tax is that rate percent of the stored discounted subtotal; rows and options are only read |
| `InvoiceView.InvoiceComponent.ResetContainer` | src/app/views/invoice/invoice.component.ts:254-256 | the buffer becomes the empty item |
| `InvoiceView.InvoiceComponent.ResetItemOptions` | src/app/views/invoice/invoice.component.ts:260-266 | discounted subtotal, shipping, discount, tax and tax rate become `null`; nothing else changes |
| `InvoiceView.EditThenCancel` | src/app/views/invoice/invoice.component.ts:135-152 | editing row `i` and cancelling moves it to the end: same multiset of rows and same subtotal, so a subtotal that matched the rows still matches |
| `InvoiceView.CommitThenCancel` | src/app/views/invoice/invoice.component.ts:129-152 | editing row `i`, committing it unchanged and then cancelling leaves the other rows in order followed by two copies of the row: the snapshot is still held after the commit |
| `InvoiceView.EditTwiceThenCancel` | src/app/views/invoice/invoice.component.ts:135-152 | a second edit started before the first ends, then cancelled, loses the first row: one row fewer, exactly that row missing |

## Left out

- File import and export (`fileSelected`, `readFile`, `export`, `exportAsJSON`, src/app/views/invoice/invoice.component.ts:224-251) are not modelled. They go through the browser's file reader, `JSON.parse`/`JSON.stringify`, `prompt` and a DOM anchor, so the import/export round trip is not stated. The export always appends `.json` to the entered name.
- The `confirm` dialog in `deleteItem` is not modelled. It becomes the `confirmed` parameter.
- The Angular decorator, the empty constructor, `ngOnInit` and the `console.log` call are not modelled. The component's own fields start as the constructor shows.
- The contact and company fields (company name and address, zip code, date, receipt number, `billTo`, `shipTo`, notes) and an item's description carry no logic. The first group is not modelled. The description is carried along as an opaque string.
- Edits that the form makes by two-way binding are not operations of the model. These include typing into the buffer's quantity or unit price and setting the discount, tax rate or shipping. They appear as plain assignments to the public fields.
- Floating point is not modelled. Amounts are exact reals, so `subTotal - (subTotal - discount)` equals the discount exactly and `taxRate * (1 / 100)` has no rounding.
- JavaScript coercions are not modelled: `undefined` fields, `NaN`, and string amounts (`Number(shipping)` is applied in only one branch). `null` (`None`) is the only absent marker.
- The component assigns the spliced row object to the buffer, so the two are aliased. Rows are values in the model, which is sound because the row leaves the list at once.
- GetTotal: requires the quantity and unit price to give a number (both present, or one of them 0). For the buffer, `None` stands for a key the object does not have yet, since it starts as `{}`. A missing factor is `undefined`, and `undefined * x` is `NaN`, which the model cannot express. A number field the user cleared holds `null` instead, and `null * x` is 0. The model does not tell `null` from a missing key in the buffer, so that case is excluded too.
- AddItem: requires the buffer to carry a numeric total. Otherwise the code appends a row whose total makes every later subtotal `NaN`.
- UpdateItem: requires the buffer to carry a numeric total, for the same reason as AddItem.
- Cancel: requires the snapshot to carry a numeric total. That holds during an edit and after a committed edit, when the snapshot still holds the row as it was (a duplicate is then appended, see `CommitThenCancel`). Only before the first edit, or right after a cancel, is the snapshot the empty row `{}`. Cancelling then would append it and make later subtotals `NaN`.
- FillContainer: requires an index in range. For any other index the code throws when it destructures `undefined`. Before that it has already set the buffer to `undefined` and `update` to true, and that partial state is not modelled.
