/** The bill composer: an ordered list of bill lines kept in step with a
    stock catalogue snapshot, a running total, and the validated save that
    produces the order payload. Each handler is a pure function from the old
    bill to a new bill or a rejection. */
module Billing {
  import opened Wrappers
  import opened Seqs
  import opened Catalog

  /** One bill line. `maxQuantity` is absent on a line that never had a
      product chosen; `extras` holds fields set through the generic branch
      of the change handler. */
  datatype Line = Line(
    product: string,
    quantity: int,
    price: real,
    isCustomPrice: bool,
    maxQuantity: Option<int>,
    extras: map<string, string>)

  /** The line `addStockItem` appends and the form starts with. */
  const BlankLine: Line := Line("", 1, 0.0, false, None, map[])

  datatype Customer = Customer(name: string, phone: string)

  /** The bill screen's state: customer details, lines and the displayed
      total (a stored value, not recomputed on every change). */
  datatype Bill = Bill(customer: Customer, lines: seq<Line>, total: real)

  /** The empty form, both at start and after a successful save. */
  const FreshBill: Bill := Bill(Customer("", ""), [BlankLine], 0.0)

  function LineTotal(l: Line): real
  {
    l.quantity as real * l.price
  }

  /** Σ quantity × price over the lines. */
  function Total(lines: seq<Line>): real
  {
    Sum(lines, LineTotal)
  }

  /** The displayed total matches the lines. */
  predicate Consistent(b: Bill)
  {
    b.total == Total(b.lines)
  }

  /** A change to one line. Numeric text arrives as the outcome of the
      browser's parse: `None` stands for `NaN`. */
  datatype Edit =
    | SelectProduct(id: string)
    | EnterQuantity(count: Option<int>)
    | EnterPrice(amount: Option<real>)
    | SetField(field: string, value: string)

  datatype BillError =
    | QuantityExceedsStock(ceiling: int)
    | MissingCustomerInfo
    | EmptyOrder
    | StoreRejected

  /** The live stock ceiling for a product id: the first matching stock's
      quantity, or 0 when the id is not in the catalogue. */
  function Ceiling(stocks: seq<Stock>, id: string): (c: int)
    ensures (forall k :: 0 <= k < |stocks| ==> stocks[k].id != id) ==> c == 0
    ensures Find(stocks, id).Some? ==> c == Find(stocks, id).value.quantity
  {
    match Find(stocks, id)
    case Some(s) => s.quantity
    case None => 0
  }

  /** Choosing a product: price and ceiling come from the catalogue (0 when
      the id is unknown) and any price override is dropped. */
  function ChooseProduct(l: Line, stocks: seq<Stock>, id: string): (r: Line)
    ensures r.product == id && !r.isCustomPrice
    ensures Find(stocks, id).Some? ==> r.price == Find(stocks, id).value.price
    ensures Find(stocks, id).Some? ==> r.maxQuantity == Some(Find(stocks, id).value.quantity)
    ensures Find(stocks, id).None? ==> r.price == 0.0 && r.maxQuantity == Some(0)
    ensures r.quantity == l.quantity && r.extras == l.extras
  {
    var s := Find(stocks, id);
    l.(product := id,
       price := if s.Some? then s.value.price else 0.0,
       isCustomPrice := false,
       maxQuantity := Some(if s.Some? then s.value.quantity else 0))
  }

  /** The line after an accepted edit. */
  function Revise(l: Line, stocks: seq<Stock>, e: Edit): Line
  {
    match e
    case SelectProduct(id) => ChooseProduct(l, stocks, id)
    case EnterQuantity(count) => l.(quantity := count.GetOr(0))
    case EnterPrice(amount) => l.(price := amount.GetOr(0.0), isCustomPrice := true)
    case SetField(field, value) => l.(extras := l.extras[field := value])
  }

  /** `handleStockChange(index, field, value)`. A quantity above the live
      ceiling of the line's current product is rejected; every other edit
      replaces line `index` and recomputes the total. */
  function ChangeLine(b: Bill, stocks: seq<Stock>, index: nat, e: Edit): (r: Result<Bill, BillError>)
    requires index < |b.lines|
    ensures r.Failure? <==>
      e.EnterQuantity? && e.count.GetOr(0) > Ceiling(stocks, b.lines[index].product)
    ensures r.Failure? ==> r.error == QuantityExceedsStock(Ceiling(stocks, b.lines[index].product))
    ensures r.Success? ==>
      && r.value.customer == b.customer
      && |r.value.lines| == |b.lines|
      && (forall j :: 0 <= j < |b.lines| && j != index ==> r.value.lines[j] == b.lines[j])
      && Consistent(r.value)
    ensures r.Success? && e.EnterQuantity? ==>
      && r.value.lines[index] == b.lines[index].(quantity := e.count.GetOr(0))
      && r.value.lines[index].quantity <= Ceiling(stocks, b.lines[index].product)
    ensures r.Success? && e.EnterPrice? ==>
      && r.value.lines[index] == b.lines[index].(price := e.amount.GetOr(0.0), isCustomPrice := true)
    ensures r.Success? && e.SelectProduct? ==>
      r.value.lines[index] == ChooseProduct(b.lines[index], stocks, e.id)
    ensures r.Success? && e.SetField? ==>
      r.value.lines[index] == b.lines[index].(extras := b.lines[index].extras[e.field := e.value])
  {
    if e.EnterQuantity? && e.count.GetOr(0) > Ceiling(stocks, b.lines[index].product) then
      Failure(QuantityExceedsStock(Ceiling(stocks, b.lines[index].product)))
    else
      var lines := b.lines[index := Revise(b.lines[index], stocks, e)];
      Success(b.(lines := lines, total := Total(lines)))
  }

  /** `addStockItem`: appends one blank line; the total is not recomputed,
      and stays right because the blank line contributes 0. */
  function AddLine(b: Bill): (r: Bill)
    ensures r.lines == b.lines + [BlankLine]
    ensures r.customer == b.customer && r.total == b.total
    ensures Consistent(b) ==> Consistent(r)
  {
    var r := b.(lines := b.lines + [BlankLine]);
    SumAppend(b.lines, [BlankLine], LineTotal);
    SumSingle(BlankLine, LineTotal);
    r
  }

  /** `removeStockItem(index)`: drops that line, keeps the order of the rest
      and recomputes the total. Removing the only line is allowed. */
  function RemoveLine(b: Bill, index: int): (r: Bill)
    ensures r.lines == RemoveAt(b.lines, index)
    ensures r.customer == b.customer
    ensures 0 <= index < |b.lines| ==> r.total == Total(b.lines) - LineTotal(b.lines[index])
    ensures Consistent(r)
  {
    var lines := RemoveAt(b.lines, index);
    var r := b.(lines := lines, total := Total(lines));
    if 0 <= index < |b.lines| then SumRemoveAt(b.lines, index, LineTotal); r else r
  }

  datatype CustomerField = NameField | PhoneField

  /** `handleCustomerChange`: sets one customer field verbatim. */
  function ChangeCustomer(b: Bill, field: CustomerField, value: string): (r: Bill)
    ensures r.lines == b.lines && r.total == b.total
    ensures field.NameField? ==> r.customer == b.customer.(name := value)
    ensures field.PhoneField? ==> r.customer == b.customer.(phone := value)
  {
    match field
    case NameField => b.(customer := b.customer.(name := value))
    case PhoneField => b.(customer := b.customer.(phone := value))
  }

  /** One item of the order payload. */
  datatype PayloadItem = PayloadItem(itemName: string, quantity: int, price: real, total: real)

  /** The order sent to the store. */
  datatype Payload = Payload(customerName: string, phoneNumber: string, items: seq<PayloadItem>, finalTotal: real)

  function ItemTotal(i: PayloadItem): real
  {
    i.total
  }

  /** The catalogue name of a product id, or '' when it is not there. */
  function ItemName(stocks: seq<Stock>, id: string): string
  {
    match Find(stocks, id)
    case Some(s) => s.productName
    case None => ""
  }

  /** `stockItems.map(...)`: one payload item per line, in order. */
  function PayloadItems(lines: seq<Line>, stocks: seq<Stock>): (r: seq<PayloadItem>)
    ensures |r| == |lines|
    ensures forall k :: 0 <= k < |lines| ==>
      && r[k].itemName == ItemName(stocks, lines[k].product)
      && r[k].quantity == lines[k].quantity
      && r[k].price == lines[k].price
      && r[k].total == LineTotal(lines[k])
  {
    if |lines| == 0 then []
    else PayloadItems(lines[..|lines| - 1], stocks) + [PayloadItem(
      ItemName(stocks, lines[|lines| - 1].product),
      lines[|lines| - 1].quantity,
      lines[|lines| - 1].price,
      LineTotal(lines[|lines| - 1]))]
  }

  /** The payload items add up to the lines' total. */
  lemma {:induction false} PayloadItemsTotal(lines: seq<Line>, stocks: seq<Stock>)
    ensures Sum(PayloadItems(lines, stocks), ItemTotal) == Total(lines)
    decreases |lines|
  {
    if |lines| > 0 {
      var items := PayloadItems(lines, stocks);
      assert items[..|items| - 1] == PayloadItems(lines[..|lines| - 1], stocks);
      PayloadItemsTotal(lines[..|lines| - 1], stocks);
    }
  }

  /** A line without a chosen product (`!item.product`). */
  predicate Unselected(l: Line)
  {
    l.product == ""
  }

  datatype Saved = Saved(payload: Payload, next: Bill)

  /** `handleSaveBill`. Customer details are checked first, then the lines;
      `storeAccepts` is the store's answer to the POST. On success the form
      is reset. On any failure the bill is left as it was. */
  function SaveBill(b: Bill, stocks: seq<Stock>, storeAccepts: bool): (r: Result<Saved, BillError>)
    ensures (b.customer.name == "" || b.customer.phone == "") <==> r == Failure(MissingCustomerInfo)
    ensures r == Failure(EmptyOrder) <==>
      && b.customer.name != "" && b.customer.phone != ""
      && (|b.lines| == 0 || exists k :: 0 <= k < |b.lines| && Unselected(b.lines[k]))
    ensures r.Success? <==>
      && b.customer.name != "" && b.customer.phone != ""
      && |b.lines| > 0 && (forall k :: 0 <= k < |b.lines| ==> !Unselected(b.lines[k]))
      && storeAccepts
    ensures r == Failure(StoreRejected) <==>
      && b.customer.name != "" && b.customer.phone != ""
      && |b.lines| > 0 && (forall k :: 0 <= k < |b.lines| ==> !Unselected(b.lines[k]))
      && !storeAccepts
    ensures r.Success? ==>
      && r.value.payload.customerName == b.customer.name
      && r.value.payload.phoneNumber == b.customer.phone
      && r.value.payload.items == PayloadItems(b.lines, stocks)
      && r.value.payload.finalTotal == b.total
      && r.value.next == FreshBill
  {
    if b.customer.name == "" || b.customer.phone == "" then Failure(MissingCustomerInfo)
    else if |b.lines| == 0 || exists k :: 0 <= k < |b.lines| && Unselected(b.lines[k]) then Failure(EmptyOrder)
    else if !storeAccepts then Failure(StoreRejected)
    else
      Success(Saved(
        Payload(b.customer.name, b.customer.phone, PayloadItems(b.lines, stocks), b.total),
        FreshBill))
  }

  /** On a consistent bill the payload's final total is the sum of its item
      totals, and the form it leaves behind is consistent again. */
  lemma SavedTotals(b: Bill, stocks: seq<Stock>, storeAccepts: bool)
    requires Consistent(b)
    requires SaveBill(b, stocks, storeAccepts).Success?
    ensures var s := SaveBill(b, stocks, storeAccepts).value;
      && s.payload.finalTotal == Sum(s.payload.items, ItemTotal)
      && |s.payload.items| == |b.lines|
      && Consistent(s.next) && s.next.total == 0.0 && s.next.lines == [BlankLine]
  {
    PayloadItemsTotal(b.lines, stocks);
    SumSingle(BlankLine, LineTotal);
  }

  /** The total does not depend on the order of the lines. */
  lemma TotalReorder(a: seq<Line>, b: seq<Line>)
    requires multiset(a) == multiset(b)
    ensures Total(a) == Total(b)
  {
    SumPermutation(a, b, LineTotal);
  }

  /** A user action on the bill screen. */
  datatype Action =
    | EditCustomer(field: CustomerField, value: string)
    | EditLine(index: nat, edit: Edit)
    | AddItem
    | RemoveItem(position: int)

  /** The bill after one action; a rejected edit leaves it as it was. An
      edit of a line that does not exist cannot be issued from the screen
      (each row carries its own index) and also leaves it as it was. */
  function Step(b: Bill, stocks: seq<Stock>, a: Action): (r: Bill)
    ensures a.EditLine? && a.index < |b.lines| && ChangeLine(b, stocks, a.index, a.edit).Failure? ==> r == b
    ensures a.EditLine? && a.index < |b.lines| && ChangeLine(b, stocks, a.index, a.edit).Success? ==>
      r == ChangeLine(b, stocks, a.index, a.edit).value
    ensures a.EditLine? && a.index >= |b.lines| ==> r == b
    ensures a.EditCustomer? ==> r == ChangeCustomer(b, a.field, a.value)
    ensures a.AddItem? ==> r == AddLine(b)
    ensures a.RemoveItem? ==> r == RemoveLine(b, a.position)
  {
    match a
    case EditCustomer(field, value) => ChangeCustomer(b, field, value)
    case EditLine(index, e) =>
      if index < |b.lines| then
        match ChangeLine(b, stocks, index, e)
        case Success(next) => next
        case Failure(_) => b
      else b
    case AddItem => AddLine(b)
    case RemoveItem(index) => RemoveLine(b, index)
  }

  /** The bill after a sequence of actions against one catalogue snapshot. */
  function Run(b: Bill, stocks: seq<Stock>, actions: seq<Action>): Bill
    decreases |actions|
  {
    if |actions| == 0 then b else Run(Step(b, stocks, actions[0]), stocks, actions[1..])
  }

  /** The displayed total matches the lines after any sequence of actions
      started from a consistent bill (in particular from the fresh form). */
  lemma {:induction false} RunKeepsConsistent(b: Bill, stocks: seq<Stock>, actions: seq<Action>)
    requires Consistent(b)
    ensures Consistent(Run(b, stocks, actions))
    decreases |actions|
  {
    if |actions| > 0 {
      RunKeepsConsistent(Step(b, stocks, actions[0]), stocks, actions[1..]);
    }
  }

  /** An action that neither touches line `i`'s product or price nor
      removes a line at or before it. */
  predicate KeepsPriceOf(a: Action, i: nat)
  {
    match a
    case EditCustomer(_, _) => true
    case EditLine(j, e) => j != i || e.EnterQuantity? || e.SetField?
    case AddItem => true
    case RemoveItem(j) => !(0 <= j <= i)
  }

  /** A price override is sticky: it survives quantity edits, edits of
      other lines, additions and later removals, until the product of that
      line is chosen again. */
  lemma {:induction false} OverrideSticky(b: Bill, stocks: seq<Stock>, actions: seq<Action>, i: nat)
    requires i < |b.lines| && b.lines[i].isCustomPrice
    requires forall k :: 0 <= k < |actions| ==> KeepsPriceOf(actions[k], i)
    ensures i < |Run(b, stocks, actions).lines|
    ensures Run(b, stocks, actions).lines[i].isCustomPrice
    ensures Run(b, stocks, actions).lines[i].price == b.lines[i].price
    decreases |actions|
  {
    if |actions| > 0 {
      var next := Step(b, stocks, actions[0]);
      assert KeepsPriceOf(actions[0], i);
      assert i < |next.lines| && next.lines[i].isCustomPrice && next.lines[i].price == b.lines[i].price;
      assert forall k :: 0 <= k < |actions[1..]| ==> KeepsPriceOf(actions[1..][k], i) by {
        forall k | 0 <= k < |actions[1..]| ensures KeepsPriceOf(actions[1..][k], i) {
          assert actions[1..][k] == actions[k + 1];
        }
      }
      OverrideSticky(next, stocks, actions[1..], i);
    }
  }

  /** Choosing a product again clears an override and restores the
      catalogue price. */
  lemma ChoosingClearsOverride(b: Bill, stocks: seq<Stock>, i: nat, s: Stock)
    requires i < |b.lines|
    requires Find(stocks, s.id) == Some(s)
    ensures var r := Step(b, stocks, EditLine(i, SelectProduct(s.id)));
      !r.lines[i].isCustomPrice && r.lines[i].price == s.price
      && r.lines[i].maxQuantity == Some(s.quantity)
  {
  }

  /** Two products: A with 10 in stock, B with 5. */
  const TwoProducts: seq<Stock> := [Stock("A", "Pen", 10.0, 10, None), Stock("B", "Ink", 20.0, 5, None)]

  /** The stock ceiling is checked only when the quantity is edited:
      choosing another product keeps the quantity, and saving does not check
      it again. Asking for 8 of A and then switching the line to B saves 8
      of B although only 5 are in stock. */
  lemma QuantityNotRechecked()
    ensures var b0 := Bill(Customer("Jane", "555"), [BlankLine], 0.0);
      var b1 := Step(b0, TwoProducts, EditLine(0, SelectProduct("A")));
      var b2 := Step(b1, TwoProducts, EditLine(0, EnterQuantity(Some(8))));
      var b3 := Step(b2, TwoProducts, EditLine(0, SelectProduct("B")));
      && b3.lines[0].product == "B" && b3.lines[0].quantity == 8
      && b3.lines[0].quantity > Ceiling(TwoProducts, "B")
      && SaveBill(b3, TwoProducts, true).Success?
      && SaveBill(b3, TwoProducts, true).value.payload.items[0].quantity == 8
  {
    var b0 := Bill(Customer("Jane", "555"), [BlankLine], 0.0);
    assert Find(TwoProducts, "A") == Some(TwoProducts[0]);
    assert Find(TwoProducts, "B") == Some(TwoProducts[1]);
    var b1 := Step(b0, TwoProducts, EditLine(0, SelectProduct("A")));
    var b2 := Step(b1, TwoProducts, EditLine(0, EnterQuantity(Some(8))));
    assert b2.lines[0].quantity == 8;
    var b3 := Step(b2, TwoProducts, EditLine(0, SelectProduct("B")));
    assert b3.lines[0].product == "B" && b3.lines[0].quantity == 8;
    assert !Unselected(b3.lines[0]);
  }

  /** One pen in stock at 10, five available. */
  const PenCatalog: seq<Stock> := [Stock("A", "Pen", 10.0, 5, None)]

  /** Choose the pen, ask for 3, then 9 (rejected: 5 available), override
      the price to 12, and save for Jane. */
  lemma PenBill()
    ensures var b0 := Bill(Customer("Jane", "555"), [BlankLine], 0.0);
      var b1 := Step(b0, PenCatalog, EditLine(0, SelectProduct("A")));
      var b2 := Step(b1, PenCatalog, EditLine(0, EnterQuantity(Some(3))));
      var b3 := Step(b2, PenCatalog, EditLine(0, EnterPrice(Some(12.0))));
      && b1.lines == [Line("A", 1, 10.0, false, Some(5), map[])]
      && b2.total == 30.0
      && ChangeLine(b2, PenCatalog, 0, EnterQuantity(Some(9))) == Failure(QuantityExceedsStock(5))
      && Step(b2, PenCatalog, EditLine(0, EnterQuantity(Some(9)))) == b2
      && b3.lines[0].isCustomPrice && b3.total == 36.0
      && SaveBill(b3, PenCatalog, true)
           == Success(Saved(Payload("Jane", "555", [PayloadItem("Pen", 3, 12.0, 36.0)], 36.0), FreshBill))
  {
    var b0 := Bill(Customer("Jane", "555"), [BlankLine], 0.0);
    var b1 := Step(b0, PenCatalog, EditLine(0, SelectProduct("A")));
    assert Find(PenCatalog, "A") == Some(PenCatalog[0]);
    var b2 := Step(b1, PenCatalog, EditLine(0, EnterQuantity(Some(3))));
    assert Ceiling(PenCatalog, "A") == 5;
    SumSingle(b2.lines[0], LineTotal);
    var b3 := Step(b2, PenCatalog, EditLine(0, EnterPrice(Some(12.0))));
    SumSingle(b3.lines[0], LineTotal);
    assert b3.lines == [Line("A", 3, 12.0, true, Some(5), map[])];
    assert PayloadItems(b3.lines, PenCatalog) == [PayloadItem("Pen", 3, 12.0, 36.0)];
  }
}
