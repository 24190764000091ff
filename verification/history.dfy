/** The billing-history search: a case-insensitive substring filter on the
    customer name that keeps the orders in their input order. */
module History {
  import opened Seqs
  import opened Text

  datatype OrderItem = OrderItem(itemName: string, quantity: int, price: real, total: real)

  /** A settled order as the store returns it. */
  datatype Order = Order(
    id: string,
    customerName: string,
    phoneNumber: string,
    createdAt: int,
    finalTotal: real,
    items: seq<OrderItem>)

  /** `order.customerName.toLowerCase().includes(searchTerm.toLowerCase())`. */
  predicate Matches(o: Order, term: string)
  {
    Contains(Lower(o.customerName), Lower(term))
  }

  /** `filteredOrders`: the orders whose customer name matches `term`. */
  function Search(orders: seq<Order>, term: string): (r: seq<Order>)
    ensures forall o :: o in r <==> o in orders && Matches(o, term)
    ensures forall o {:trigger multiset(r)[o]} :: multiset(r)[o] == if Matches(o, term) then multiset(orders)[o] else 0
    ensures IsSubseq(r, orders)
    ensures |r| <= |orders|
    decreases |orders|
  {
    if |orders| == 0 then []
    else
      var rest := Search(orders[1..], term);
      assert orders == [orders[0]] + orders[1..];
      assert forall o :: o in orders <==> o == orders[0] || o in orders[1..];
      if Matches(orders[0], term) then
        [orders[0]] + rest
      else rest
  }

  /** The empty search term keeps every order, in order. */
  lemma {:induction false} SearchEmpty(orders: seq<Order>)
    ensures Search(orders, "") == orders
    decreases |orders|
  {
    if |orders| > 0 {
      ContainsEmpty(Lower(orders[0].customerName));
      SearchEmpty(orders[1..]);
    }
  }

  /** Terms that differ only in letter case find the same orders. */
  lemma {:induction false} SearchIgnoresCase(orders: seq<Order>, s: string, t: string)
    requires |s| == |t|
    requires forall i :: 0 <= i < |s| ==> LowerChar(s[i]) == LowerChar(t[i])
    ensures Search(orders, s) == Search(orders, t)
    decreases |orders|
  {
    assert Lower(s) == Lower(t);
    if |orders| > 0 {
      SearchIgnoresCase(orders[1..], s, t);
    }
  }

  /** A longer term narrows the search: if `t` contains `s`, every order
      found for `t` is found for `s`, in the same relative order, so `t`
      finds no more orders than `s`. */
  lemma {:induction false} SearchNarrows(orders: seq<Order>, s: string, t: string)
    requires Contains(t, s)
    ensures IsSubseq(Search(orders, t), Search(orders, s))
    ensures |Search(orders, t)| <= |Search(orders, s)|
    decreases |orders|
  {
    if |orders| > 0 {
      SearchNarrows(orders[1..], s, t);
      var o := orders[0];
      var rt := Search(orders[1..], t);
      var rs := Search(orders[1..], s);
      if Matches(o, t) {
        LowerKeepsContains(t, s);
        ContainsTransitive(Lower(o.customerName), Lower(t), Lower(s));
        assert Search(orders, t) == [o] + rt;
        assert Search(orders, s) == [o] + rs;
        assert ([o] + rt)[1..] == rt && ([o] + rs)[1..] == rs;
      } else if Matches(o, s) {
        assert Search(orders, s) == [o] + rs;
        assert ([o] + rs)[1..] == rs;
        assert IsSubseq(rt, [o] + rs);
      }
    }
    SubseqLength(Search(orders, t), Search(orders, s));
  }
}
