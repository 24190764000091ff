/** The transaction form: unvalidated editing of item lines, loading a
    transaction for editing, the request built on submit (items mapped to
    the store's shape, product names looked up in the catalogue), the reset
    after a successful save, and the item rows shown under a transaction. */
module TransactionForm {
  import opened Wrappers
  import opened Seqs
  import opened Catalog
  import opened Ledger

  /** A form value: a number (as loaded or as a default) or the text the
      user typed, kept verbatim. */
  datatype Entry = Num(n: real) | Typed(text: string)

  /** An item line of the form. Lines loaded from a stored transaction carry
      its `product` and `name`; no line ever gets a `productName`. */
  datatype FormItem = FormItem(
    product: Option<string>,
    name: Option<string>,
    productName: Option<string>,
    quantity: Entry,
    price: Entry)

  /** The line `addItem` appends. */
  const NewItem: FormItem := FormItem(Some(""), None, None, Num(1.0), Num(0.0))

  /** The form; `kind` is the `type` field. */
  datatype Form = Form(
    kind: string,
    amount: Entry,
    description: string,
    category: string,
    customerName: string,
    items: seq<FormItem>)

  /** The form after a successful save and when adding a new transaction. */
  const BlankForm: Form := Form("paid", Typed(""), "", "", "", [])

  /** `addItem`: appends one new line; nothing else changes. */
  function AddItem(f: Form): (r: Form)
    ensures |r.items| == |f.items| + 1
    ensures forall k :: 0 <= k < |f.items| ==> r.items[k] == f.items[k]
    ensures r.items[|f.items|] == NewItem
    ensures r == f.(items := r.items)
  {
    f.(items := f.items + [NewItem])
  }

  /** The three item fields the form edits. */
  datatype ItemField = ProductField | QuantityField | PriceField

  /** `{ ...item, [field]: value }` for one of the edited fields. */
  function SetItemField(item: FormItem, field: ItemField, value: string): (r: FormItem)
    ensures field.ProductField? ==> r.product == Some(value) && r.quantity == item.quantity && r.price == item.price
    ensures field.QuantityField? ==> r.quantity == Typed(value) && r.product == item.product && r.price == item.price
    ensures field.PriceField? ==> r.price == Typed(value) && r.product == item.product && r.quantity == item.quantity
    ensures r.name == item.name && r.productName == item.productName
  {
    match field
    case ProductField => item.(product := Some(value))
    case QuantityField => item.(quantity := Typed(value))
    case PriceField => item.(price := Typed(value))
  }

  /** `updateItem(index, field, value)`: stores `value` verbatim in one field
      of one line, without any validation. */
  function UpdateItem(f: Form, index: nat, field: ItemField, value: string): (r: Form)
    requires index < |f.items|
    ensures |r.items| == |f.items|
    ensures forall k :: 0 <= k < |f.items| && k != index ==> r.items[k] == f.items[k]
    ensures r.items[index] == SetItemField(f.items[index], field, value)
    ensures r == f.(items := r.items)
  {
    f.(items := f.items[index := SetItemField(f.items[index], field, value)])
  }

  /** `removeItem(index)`: drops that line and keeps the order of the rest;
      an index with no line leaves the list as it was. */
  function RemoveItem(f: Form, index: int): (r: Form)
    ensures r.items == RemoveAt(f.items, index)
    ensures r == f.(items := r.items)
  {
    f.(items := RemoveAt(f.items, index))
  }

  /** Removing the line just added restores the form. */
  lemma RemoveUndoesAdd(f: Form)
    ensures RemoveItem(AddItem(f), |f.items|) == f
  {
    assert (f.items + [NewItem])[..|f.items|] == f.items;
  }

  /** A stored item as the form holds it after `items: transaction.items`. */
  function FromStored(i: TxItem): FormItem
  {
    FormItem(i.product, i.name, None, Num(i.quantity), Num(i.price))
  }

  function FromStoredAll(items: seq<TxItem>): (r: seq<FormItem>)
    ensures |r| == |items|
    ensures forall k :: 0 <= k < |items| ==> r[k] == FromStored(items[k])
  {
    if |items| == 0 then [] else [FromStored(items[0])] + FromStoredAll(items[1..])
  }

  /** `handleEdit(transaction)`: loads type and amount; a missing
      description, category or customer name becomes '' and missing items
      become []. */
  function LoadForEdit(t: Transaction): (f: Form)
    ensures f.kind == t.kind && f.amount == Num(t.amount)
    ensures f.description == (if t.description.Some? then t.description.value else "")
    ensures f.category == (if t.category.Some? then t.category.value else "")
    ensures f.customerName == (if t.customerName.Some? then t.customerName.value else "")
    ensures t.items.None? ==> f.items == []
    ensures t.items.Some? ==> f.items == FromStoredAll(t.items.value)
  {
    Form(
      t.kind,
      Num(t.amount),
      t.description.GetOr(""),
      t.category.GetOr(""),
      t.customerName.GetOr(""),
      match t.items case Some(items) => FromStoredAll(items) case None => [])
  }

  /** `stock?.productName || 'Unknown Product'`. */
  function CatalogName(stocks: seq<Stock>, product: Option<string>): (r: string)
    ensures r != ""
    ensures FindOpt(stocks, product).Some? && FindOpt(stocks, product).value.productName != "" ==>
      r == FindOpt(stocks, product).value.productName
    ensures FindOpt(stocks, product).None? ==> r == "Unknown Product"
    ensures FindOpt(stocks, product).Some? && FindOpt(stocks, product).value.productName == "" ==>
      r == "Unknown Product"
  {
    match FindOpt(stocks, product)
    case Some(s) => if s.productName != "" then s.productName else "Unknown Product"
    case None => "Unknown Product"
  }

  /** `Number(value)`: a number stays itself; typed text goes through the
      browser's conversion `number` (`None` for `NaN`). */
  function NumberOf(e: Entry, number: string -> Option<real>): Option<real>
  {
    match e
    case Num(n) => Some(n)
    case Typed(s) => number(s)
  }

  /** One item as sent to the store. */
  datatype SentItem = SentItem(product: Option<string>, name: string, quantity: Option<real>, price: Option<real>)

  /** The `transformedItems` mapping of one line, as written: `product` is
      copied from the line's `productName`, not from its `product`. */
  function SendItem(item: FormItem, stocks: seq<Stock>, number: string -> Option<real>): (r: SentItem)
    ensures r.product == item.productName
    ensures r.name == CatalogName(stocks, item.product)
    ensures r.quantity == NumberOf(item.quantity, number) && r.price == NumberOf(item.price, number)
  {
    SentItem(item.productName, CatalogName(stocks, item.product), NumberOf(item.quantity, number), NumberOf(item.price, number))
  }

  /** `transformedItems`: one sent item per line, in order. */
  function SendItems(items: seq<FormItem>, stocks: seq<Stock>, number: string -> Option<real>): (r: seq<SentItem>)
    ensures |r| == |items|
    ensures forall k :: 0 <= k < |items| ==>
      && r[k].product == items[k].productName
      && r[k].name == CatalogName(stocks, items[k].product)
      && r[k].quantity == NumberOf(items[k].quantity, number)
      && r[k].price == NumberOf(items[k].price, number)
  {
    if |items| == 0 then [] else [SendItem(items[0], stocks, number)] + SendItems(items[1..], stocks, number)
  }

  /** As written, no line produced by the form carries `productName`, so the
      product id of every line is dropped from the request. */
  lemma ProductIdDropped(stocks: seq<Stock>, number: string -> Option<real>)
    ensures var line := SetItemField(NewItem, ProductField, "p1");
      line.product == Some("p1") && SendItem(line, stocks, number).product == None
  {
  }

  /** The mapping with the product id kept, as the comment beside it says
      was meant. */
  function SendItemKeepingId(item: FormItem, stocks: seq<Stock>, number: string -> Option<real>): (r: SentItem)
    ensures r.product == item.product
    ensures r.name == CatalogName(stocks, item.product)
    ensures r.quantity == NumberOf(item.quantity, number) && r.price == NumberOf(item.price, number)
  {
    SentItem(item.product, CatalogName(stocks, item.product), NumberOf(item.quantity, number), NumberOf(item.price, number))
  }

  /** With the id kept, a chosen product survives a save and a reload. */
  lemma KeepingIdSurvivesReload(item: FormItem, stocks: seq<Stock>, number: string -> Option<real>)
    requires NumberOf(item.quantity, number).Some? && NumberOf(item.price, number).Some?
    ensures var sent := SendItemKeepingId(item, stocks, number);
      FromStored(Stored(sent)).product == item.product
  {
  }

  /** The request body: the form with the amount converted and the items
      mapped. */
  datatype TxBody = TxBody(
    kind: string,
    amount: Option<real>,
    description: string,
    category: string,
    customerName: string,
    items: seq<SentItem>)

  /** The request `handleSubmit` sends: a replacement of the transaction
      being edited, or a new one. */
  datatype Request = Create(body: TxBody) | Replace(id: string, body: TxBody)

  /** The transactions screen: the form, the transaction being edited, and
      whether the form is shown. */
  datatype Screen = Screen(form: Form, editing: Option<Transaction>, showForm: bool)

  function Submit(sc: Screen, stocks: seq<Stock>, number: string -> Option<real>): (req: Request)
    ensures sc.editing.Some? <==> req.Replace?
    ensures req.Replace? ==> req.id == sc.editing.value.id
    ensures req.body.kind == sc.form.kind && req.body.customerName == sc.form.customerName
    ensures req.body.description == sc.form.description && req.body.category == sc.form.category
    ensures req.body.amount == NumberOf(sc.form.amount, number)
    ensures req.body.items == SendItems(sc.form.items, stocks, number)
  {
    var f := sc.form;
    var body := TxBody(f.kind, NumberOf(f.amount, number), f.description, f.category, f.customerName,
                       SendItems(f.items, stocks, number));
    match sc.editing
    case Some(t) => Replace(t.id, body)
    case None => Create(body)
  }

  /** The screen after the store answered a submit: reset and hidden on
      success, untouched otherwise. */
  function AfterSubmit(sc: Screen, storeAccepts: bool): (r: Screen)
    ensures storeAccepts ==> r.form.kind == "paid" && r.form.amount == Typed("") && r.form.items == []
    ensures storeAccepts ==> r.form.description == "" && r.form.category == "" && r.form.customerName == ""
    ensures storeAccepts ==> r.editing.None? && !r.showForm
    ensures !storeAccepts ==> r == sc
  {
    if storeAccepts then Screen(BlankForm, None, false) else sc
  }

  /** `handleEdit(transaction)` on the screen. */
  function StartEdit(sc: Screen, t: Transaction): (r: Screen)
    ensures r.editing == Some(t) && r.showForm && r.form == LoadForEdit(t)
  {
    Screen(LoadForEdit(t), Some(t), true)
  }

  /** Saving an edited transaction without touching the form sends back its
      type, amount, description, category and customer name, replaces it by id, and sends its items
      with quantities and prices intact. */
  lemma EditThenSubmit(sc: Screen, t: Transaction, stocks: seq<Stock>, number: string -> Option<real>)
    ensures var req := Submit(StartEdit(sc, t), stocks, number);
      && req == Replace(t.id, req.body)
      && req.body.kind == t.kind
      && req.body.amount == Some(t.amount)
      && req.body.description == t.description.GetOr("")
      && req.body.category == t.category.GetOr("")
      && req.body.customerName == t.customerName.GetOr("")
      && (t.items.Some? ==>
            && |req.body.items| == |t.items.value|
            && forall k :: 0 <= k < |t.items.value| ==>
                 req.body.items[k].quantity == Some(t.items.value[k].quantity)
                 && req.body.items[k].price == Some(t.items.value[k].price)
                 && req.body.items[k].product == None)
  {
  }

  /** A sent item as the store keeps it (its converted numbers present). */
  function Stored(s: SentItem): TxItem
    requires s.quantity.Some? && s.price.Some?
  {
    TxItem(s.product, Some(s.name), s.quantity.value, s.price.value)
  }

  /** One row of the items table under a transaction. */
  datatype Row = Row(name: string, quantity: real, price: real, total: real)

  /** The name falls back from the item's own name to the catalogue name
      to 'Unknown Product'; the total is quantity × price. */
  function DetailRow(item: TxItem, stocks: seq<Stock>): (r: Row)
    ensures r.total == item.quantity * item.price
    ensures r.quantity == item.quantity && r.price == item.price
    ensures r.name != ""
    ensures item.name.Some? && item.name.value != "" ==> r.name == item.name.value
    ensures !(item.name.Some? && item.name.value != "") ==> r.name == CatalogName(stocks, item.product)
  {
    var name := if item.name.Some? && item.name.value != "" then item.name.value else CatalogName(stocks, item.product);
    Row(name, item.quantity, item.price, item.quantity * item.price)
  }

  /** A row shows the name the item was sent with, whatever the catalogue
      holds when it is displayed. */
  lemma RowShowsSentName(item: FormItem, stocksAtSave: seq<Stock>, stocksNow: seq<Stock>, number: string -> Option<real>)
    requires NumberOf(item.quantity, number).Some? && NumberOf(item.price, number).Some?
    ensures var sent := SendItem(item, stocksAtSave, number);
      DetailRow(Stored(sent), stocksNow).name == sent.name
      && DetailRow(Stored(sent), stocksNow).total == sent.quantity.value * sent.price.value
  {
  }
}
