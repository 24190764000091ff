/** The stock catalogue snapshot the screens fetch once, the first-match
    lookup every screen performs on it, and the normalisation of the list
    responses the store returns. */
module Catalog {
  import opened Wrappers

  /** One stock document: `_id`, `productName`, `price`, `quantity`. */
  datatype Stock = Stock(id: string, productName: string, price: real, quantity: int, description: Option<string>)

  /** `stocks.find(s => s._id === id)`: the first stock carrying `id`. */
  function Find(stocks: seq<Stock>, id: string): (r: Option<Stock>)
    ensures r.None? <==> forall k :: 0 <= k < |stocks| ==> stocks[k].id != id
    ensures r.Some? ==> exists k :: 0 <= k < |stocks| && stocks[k] == r.value
                          && forall m :: 0 <= m < k ==> stocks[m].id != id
    ensures r.Some? ==> r.value.id == id
  {
    if |stocks| == 0 then None
    else if stocks[0].id == id then Some(stocks[0])
    else
      var r := Find(stocks[1..], id);
      assert r.Some? ==> exists k :: 0 <= k < |stocks[1..]| && stocks[1..][k] == r.value
                           && forall m :: 0 <= m < k ==> stocks[1..][m].id != id;
      if r.Some? then
        var k :| 0 <= k < |stocks[1..]| && stocks[1..][k] == r.value
                 && forall m :: 0 <= m < k ==> stocks[1..][m].id != id;
        assert stocks[k + 1] == r.value;
        assert forall m :: 0 <= m < k + 1 ==> stocks[m].id != id by {
          forall m | 0 <= m < k + 1 ensures stocks[m].id != id {
            if m > 0 { assert stocks[m] == stocks[1..][m - 1]; }
          }
        }
        r
      else r
  }

  /** `Find` on an optional id (`item.product` may be undefined, and no
      stock has an undefined id). */
  function FindOpt(stocks: seq<Stock>, id: Option<string>): (r: Option<Stock>)
    ensures id.None? ==> r.None?
    ensures id.Some? ==> r == Find(stocks, id.value)
  {
    match id
    case None => None
    case Some(v) => Find(stocks, v)
  }

  /** A property of a response body that may or may not hold an array:
      `Some(list)` when `Array.isArray` holds of it, `None` otherwise
      (absent, `null`, or any other value). */
  type ListField<T> = Option<seq<T>>

  /** A list response body: either a bare array, or an object with a
      `success` flag (its truthiness), a `data` property and a named list
      property (`transactions` or `stocks`, depending on the endpoint). */
  datatype Response<T> =
    | Bare(items: seq<T>)
    | Envelope(success: bool, data: ListField<T>, named: ListField<T>)

  /** The list a screen keeps from a response body. */
  function Normalise<T>(resp: Response<T>): (r: seq<T>)
    ensures resp.Bare? ==> r == resp.items
    ensures resp.Envelope? && resp.success && resp.data.Some? ==> r == resp.data.value
    ensures resp.Envelope? && !(resp.success && resp.data.Some?) && resp.named.Some? ==> r == resp.named.value
    ensures resp.Envelope? && !(resp.success && resp.data.Some?) && resp.named.None? ==> r == []
  {
    match resp
    case Bare(items) => items
    case Envelope(success, data, named) =>
      if success && data.Some? then data.value
      else if named.Some? then named.value
      else []
  }

  /** Whatever the shape, the list kept is one the body actually carried,
      or the empty list. */
  lemma NormaliseFromBody<T>(resp: Response<T>)
    ensures var r := Normalise(resp);
      || (resp.Bare? && r == resp.items)
      || (resp.Envelope? && resp.data == Some(r))
      || (resp.Envelope? && resp.named == Some(r))
      || r == []
  {
  }
}
