# KhataBook core: bill composer, ledger summary, history search, transaction form

A Dafny model of the logic inside the KhataBook front end's screens. The
source keeps this logic in React component state. Here every handler is a
pure function from the old state to a new state, or to a rejection.

- **Billing** (`src/components/Billing.jsx`). The bill composer keeps an
  ordered list of bill lines `{product, quantity, price, isCustomPrice,
  maxQuantity}` in step with a stock catalogue snapshot.
  - Choosing a product loads the catalogue price and clears any override.
  - A quantity above the live stock of the line's product is rejected, and
    nothing changes.
  - A price edit is a sticky override.
  - Lines can be added and removed.
  - The displayed total is a stored value. The invariant `Consistent`
    (total = Σ quantity × price) holds after every action.
  - Saving is validated, produces the order payload and resets the form.
- **Ledger** (`src/pages/Dashboard.jsx`). It folds the transaction list
  into the dashboard figures:
  - the paid and unpaid sums, with the type matched case-insensitively;
  - their total;
  - the transaction count;
  - the five most recent transactions, by a stable sort on date, latest
    first.
- **History** (`src/components/BillingHistory.jsx`). A case-insensitive
  substring search on the customer name that keeps the input order.
- **TransactionForm** (`src/pages/Transactions.jsx`). It covers:
  - unvalidated add, update and remove of item lines;
  - loading a transaction for editing;
  - the request built on submit, with items mapped to the store's shape
    and names looked up in the catalogue;
  - the reset after a save;
  - the item rows shown under a transaction.
- **Catalog**: the stock record, the first-match lookup `find(s => s._id === id)`,
  and the normalisation of list responses that several screens repeat.
- Helpers:
  - **Seqs**: sums, removal by index and the sub-list relation.
  - **Text**: ASCII lower-casing and substring containment.
  - **Wrappers**: `Option` and `Result`.

Numbers are exact. Money, prices and amounts are `real`. Bill quantities
are `int`; transaction item quantities and the form's numeric entries are
`real`. Dates are `int` timestamps. Text-to-number coercion is abstract:
- A bill edit carries the outcome of `parseInt`/`parseFloat` as an
  `Option` (`None` for `NaN`). The handler applies the source's `|| 0`.
- The transaction form keeps typed text verbatim. The browser's `Number`
  conversion is a parameter, `number`, of the submit functions.

The store's answer to a save is a boolean parameter, `storeAccepts`.

Behaviour the model keeps from the code that a reader may not expect:
- A quantity edit accepts 0 and negative numbers. Only the upper bound
  against stock is checked.
- The stock ceiling is checked only when the quantity is edited. Choosing
  another product keeps the quantity, and saving does not check it again.
  `Billing.QuantityNotRechecked` shows a bill that saves 8 of a product
  with 5 in stock.
- Choosing an unknown product sets the price to 0 and the ceiling to 0.
- The price source is the boolean `isCustomPrice`.
- The saved `finalTotal` is the stored total. `Billing.SavedTotals` proves
  that it equals the sum of the item totals on every consistent bill.
- The detail-row name tries the stored `name` first.

## Model

| member | source | states |
|---|---|---|
| Catalog.Find | src/components/Billing.jsx:78 | the result is absent exactly when no stock has the id; otherwise it is the stock at the first index carrying that id |
| Catalog.Normalise | src/pages/Transactions.jsx:47-49 | a bare array is kept; else `data` when `success` is set and `data` is an array; else the named list (`transactions`/`stocks`) when it is an array; else [] |
| Catalog.NormaliseFromBody | src/pages/Transactions.jsx:77-79 | whatever the body's shape, the list kept is one the body carried, or the empty list |
| Seqs.RemoveAt | src/components/Billing.jsx:121 | `filter((_, i) => i !== index)` drops exactly position `index` and keeps the rest in order; an index with no element removes nothing |
| Text.Lower | src/components/BillingHistory.jsx:89 | lower-casing keeps the length and folds each character on its own (ASCII A–Z only) |
| Text.ContainsAt | src/components/BillingHistory.jsx:89 | `includes` holds exactly when the needle occurs at some position of the haystack |
| Billing.Ceiling | src/components/Billing.jsx:88-89 | the ceiling is the first matching stock's quantity, and 0 for an id not in the catalogue |
| Billing.ChooseProduct | src/components/Billing.jsx:77-85 | choosing a product sets the catalogue price and stock as ceiling, or 0 and 0 when not found; it clears the override and keeps the quantity |
| Billing.ChangeLine | src/components/Billing.jsx:75-114 | a quantity edit is rejected exactly when it exceeds the live ceiling, and the error reports the ceiling; an accepted edit changes only line `index`, keeps the customer and makes the total Σ quantity × price; an accepted quantity is within the ceiling, with unparseable text taken as 0; a price edit sets the price (0 if unparseable) and marks it custom; any other field is stored under its name and nothing else on the line changes |
| Billing.AddLine | src/components/Billing.jsx:116-118 | exactly one blank line is appended; existing lines and the total are unchanged, and the total still matches the lines |
| Billing.RemoveLine | src/components/Billing.jsx:120-124 | only that index is dropped and the order is kept; the total falls by that line's total and matches the remaining lines |
| Billing.ChangeCustomer | src/components/Billing.jsx:67-73 | sets the customer name or phone verbatim; lines and total are untouched |
| Billing.PayloadItems | src/components/Billing.jsx:151-159 | one payload item per line, in order, with the catalogue name ('' if not found), quantity, price and total = quantity × price |
| Billing.PayloadItemsTotal | src/components/Billing.jsx:148-161 | the payload item totals add up to Σ quantity × price over the lines |
| Billing.SaveBill | src/components/Billing.jsx:135-184 | empty name or phone gives `MissingCustomerInfo`; otherwise no lines or a line with no product gives `EmptyOrder`; when both checks pass, a refusal by the store gives `StoreRejected` and success holds exactly when the store accepts; the payload carries the customer, the items in order and the running total; the form resets |
| Billing.SavedTotals | src/components/Billing.jsx:148-184 | on a consistent bill, `finalTotal` equals Σ item totals, there is one item per line, and the reset form is one blank line with total 0 |
| Billing.TotalReorder | src/components/Billing.jsx:126-129 | the total does not depend on the order of the lines |
| Billing.RunKeepsConsistent | src/components/Billing.jsx:112-129 | after any sequence of customer edits, line edits (accepted or rejected), additions and removals, the displayed total still equals Σ quantity × price |
| Billing.OverrideSticky | src/components/Billing.jsx:100-105 | a price override survives quantity edits, other-field edits, edits of other lines, additions and removals after it |
| Billing.ChoosingClearsOverride | src/components/Billing.jsx:77-85 | choosing a product clears an override and restores the catalogue price and ceiling |
| Billing.Step | src/components/Billing.jsx:75-124 | one screen action: a line edit the handler rejects leaves the bill unchanged, an accepted one yields the edited bill; an edit of a line that does not exist changes nothing; customer edits, additions and removals go to their handlers |
| Billing.QuantityNotRechecked | src/components/Billing.jsx:77-98 | asking for 8 of a product with 10 in stock and then switching the line to one with 5 in stock keeps quantity 8, and the bill saves with 8 items |
| Billing.PenBill | src/components/Billing.jsx:75-161 | a worked bill: choose the pen, set quantity 3 (total 30), try 9 (rejected with ceiling 5, bill unchanged), price 12 (total 36), save for Jane |
| Ledger.OfType | src/pages/Dashboard.jsx:133 | a transaction is kept exactly when its lower-cased type equals the tag, in input order, with every copy of a kept transaction kept and no other |
| Ledger.Summarize | src/pages/Dashboard.jsx:131-147 | the count is the input length and totalAmount = totalPaid + totalUnpaid for every input |
| Ledger.TotalOfTypeByShare | src/pages/Dashboard.jsx:132-138 | the filtered sum of one type equals the per-transaction sum of that type's share |
| Ledger.SummaryByShare | src/pages/Dashboard.jsx:132-138 | totalPaid is Σ amount over transactions whose lower-cased type is "paid", and totalUnpaid likewise for "unpaid", counted per transaction |
| Ledger.Partition | src/pages/Dashboard.jsx:132-140 | totalAmount plus the amounts of transactions of any other type is the sum of all amounts: other types contribute to neither sum |
| Ledger.SortByDate | src/pages/Dashboard.jsx:149-150 | the sort is a permutation of its input and its dates are non-increasing |
| Ledger.SortStable | src/pages/Dashboard.jsx:150 | for every date, the transactions of that date keep their input order |
| Ledger.Recent | src/pages/Dashboard.jsx:149-151 | the recent list has length min(5, n), is sorted latest first, is drawn from the input, is dated no earlier than every transaction left out, and is the first five of the stable sort |
| Ledger.EmptyLedger | src/pages/Dashboard.jsx:131-153 | an empty ledger gives all-zero figures and no recent transactions |
| Ledger.MixedCaseSummary | src/pages/Dashboard.jsx:131-147 | "Paid" 100, "UNPAID" 50, "other" 999 give count 3, paid 100, unpaid 50, total 150 |
| Ledger.MixedCaseRecent | src/pages/Dashboard.jsx:149-151 | the same ledger's recent list is latest first |
| History.Search | src/components/BillingHistory.jsx:88-90 | an order is in the result exactly when its lower-cased name contains the lower-cased term; the result is a sub-list of the input, no longer than it, and keeps every copy of a matching order and none of the others |
| History.SearchEmpty | src/components/BillingHistory.jsx:88-90 | the empty term returns the input unchanged |
| History.SearchIgnoresCase | src/components/BillingHistory.jsx:89 | terms differing only in letter case give identical results |
| History.SearchNarrows | src/components/BillingHistory.jsx:89 | if term t contains term s, the result for t is a sub-list of the result for s, and no longer |
| TransactionForm.AddItem | src/pages/Transactions.jsx:190-195 | exactly one `{product:'', quantity:1, price:0}` line is appended; existing lines and every other form field are unchanged |
| TransactionForm.SetItemField | src/pages/Transactions.jsx:200 | the chosen field takes the value verbatim; every other field of the line is unchanged |
| TransactionForm.UpdateItem | src/pages/Transactions.jsx:197-203 | only line `index` changes, and only in the chosen field; the list length and every other form field are unchanged |
| TransactionForm.RemoveItem | src/pages/Transactions.jsx:205-210 | line `index` is dropped and the order kept; an index with no line leaves the list unchanged |
| TransactionForm.RemoveUndoesAdd | src/pages/Transactions.jsx:190-210 | removing the line just added gives back the original form |
| TransactionForm.FromStoredAll | src/pages/Transactions.jsx:185 | stored items load one form line each, in order |
| TransactionForm.LoadForEdit | src/pages/Transactions.jsx:177-188 | type and amount are loaded; a missing description, category or customer name becomes '' and missing items become []; stored items are loaded one by one, in order |
| TransactionForm.StartEdit | src/pages/Transactions.jsx:177-188 | editing records the transaction, shows the form and loads it |
| TransactionForm.CatalogName | src/pages/Transactions.jsx:102 | the first match's product name when it is non-empty, otherwise 'Unknown Product'; never empty |
| TransactionForm.SendItem | src/pages/Transactions.jsx:98-106 | a line is sent with `product` copied from its `productName` (as written), the catalogue name, and its quantity and price converted by `Number` |
| TransactionForm.SendItems | src/pages/Transactions.jsx:98-106 | `transformedItems` has the form's length and order, each entry mapped as above |
| TransactionForm.ProductIdDropped | src/pages/Transactions.jsx:101 | as written, a line whose product was chosen as "p1" is sent with no product id |
| TransactionForm.SendItemKeepingId | src/pages/Transactions.jsx:101 | the corrected mapping sends the line's own product id, with the same name, quantity and price |
| TransactionForm.KeepingIdSurvivesReload | src/pages/Transactions.jsx:98-106 | with the corrected mapping, a chosen product id survives a save and a reload into the form |
| TransactionForm.Submit | src/pages/Transactions.jsx:88-120 | the request replaces the transaction being edited (by its id), or creates one; the body is the form with the amount converted and the items mapped |
| TransactionForm.EditThenSubmit | src/pages/Transactions.jsx:98-119 | re-saving a loaded transaction sends back its type, amount, description, category and customer name, and its item quantities and prices; as written it drops every item's product id |
| TransactionForm.AfterSubmit | src/pages/Transactions.jsx:129-140 | after the store accepts, the form is type 'paid' with empty amount, description, category and customer name and no items, editing is cleared and the form hidden; otherwise nothing changes |
| TransactionForm.DetailRow | src/pages/Transactions.jsx:430-433 | the row total is quantity × price; the name falls back from the item's name to the catalogue name to 'Unknown Product', and is never empty |
| TransactionForm.RowShowsSentName | src/pages/Transactions.jsx:430-433 | a stored item shows the name it was sent with, whatever the catalogue holds when it is displayed |

## Findings

| source | as written | input that shows it | evidently intended | confidence | as-written member | corrected member |
|---|---|---|---|---|---|---|
| src/pages/Transactions.jsx:101 | `product: item.productName` (beside the comment "Keep the product ID") | a form line whose product was chosen as "p1": no line has a `productName`, so the request carries no product id | `product: item.product` | medium, not executed | TransactionForm.ProductIdDropped | TransactionForm.SendItemKeepingId |

The request model (`TransactionForm.Submit`, `SendItems`) keeps the mapping
as written, so that it describes what is sent today.
`TransactionForm.SendItemKeepingId` is the corrected mapping.
`TransactionForm.KeepingIdSurvivesReload` proves the property that was
meant: a chosen product id survives a save and a reload.

## Left out

- Network I/O: `fetch` calls, headers, response status handling, toasts,
  `console` logging and loading/saving flags. The store's verdict on a save
  is the `storeAccepts` parameter.
- Billing.ChangeLine: requires an index of an existing line. Out of range,
  the JavaScript handler either throws (quantity) or writes past the end of
  the array (other fields). The screen only calls it with the index of a
  rendered row. `Billing.Step` therefore treats such an action as a no-op.
- Billing.ChangeLine: the generic `[field]: value` branch stores the value
  in `extras`. A field named like a typed field (`isCustomPrice`,
  `maxQuantity`) would be overwritten with a string in JavaScript. The typed
  model cannot represent that, and the screen never issues it.
- Billing.ChangeLine: a `SetField` edit whose field is `product`,
  `quantity` or `price` is stored in `extras` like any other name. In the
  source those three names never reach the generic branch
  (`src/components/Billing.jsx` 77, 86, 100); they arrive as
  `SelectProduct`, `EnterQuantity` and `EnterPrice`. So the model promises
  nothing about a `SetField` on those names. For example, it does not check
  the ceiling for `SetField("quantity", …)`.
- TransactionForm.Stored: the store is outside the model. `Stored`
  assumes the store keeps each sent item's `product`, `name`, `quantity`
  and `price` exactly as sent and adds no `productName`. `FromStored`
  relies on the same assumption.
  `TransactionForm.KeepingIdSurvivesReload` and
  `TransactionForm.RowShowsSentName` hold only under it. The source states
  nothing about what the store returns.
- Missing fields in server data are not modelled. The records assume every
  field the source reads is present. These error paths are left out:
  - A `null` response body throws at `data.success`
    (`src/pages/Transactions.jsx` 48 and 78, `src/components/Billing.jsx` 46,
    `src/pages/Dashboard.jsx` 128). `Catalog.Response` has no `null` case.
    Every catch keeps the old list and logs the error to the console. Only
    the bill screen shows it, as a toast (`src/components/Billing.jsx`
    50-52). The transactions screen (52-54, 82-84) and the dashboard
    (155-157) store it with `setError`, but neither screen renders that
    state.
  - A transaction without `type` throws at `src/pages/Dashboard.jsx` 133.
    The summary keeps its all-zero initial state. The error is logged and
    stored but not shown, so the user sees an empty dashboard and no
    message.
  - An order without `customerName` throws during rendering at
    `src/components/BillingHistory.jsx` 89.
- TransactionForm.UpdateItem: requires an index of an existing line, for
  the same reason. It models only the three fields the form edits
  (product, quantity, price).
- The form's top-level field bindings in `src/pages/Transactions.jsx`
  (253-293) are not modelled. They are single-field record updates.
- The `parseInt`, `parseFloat` and `Number` conversions themselves, and
  JavaScript floating point, are not modelled. Conversions are abstract
  (see above), and arithmetic is exact.
- `Number(t.amount)` on the dashboard is not modelled: amounts are already
  numbers.
- Dates are timestamps. An invalid date, which makes the JavaScript
  comparator return `NaN`, is not modelled.
- `toLowerCase` is modelled on ASCII letters only. Unicode case mapping is
  not modelled.
- The orders list in `src/components/BillingHistory.jsx` (39, `data.data || []`)
  is not modelled: the search takes the list as given.
- PDF, print and Excel export, date and currency formatting: these are
  DOM and foreign-library work.
- `src/context/AuthContext.jsx`, `src/pages/Profile.jsx`,
  `src/components/Navbar.jsx`, `src/config/api.js` and `src/pages/Stocks.jsx`
  are not part of this model. They hold authentication, routing, URL
  building and HTTP CRUD.
