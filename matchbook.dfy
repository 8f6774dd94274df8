/** The order book the adapter drives. It lives in an external crate whose
    source is not part of this model, so this module states what the adapter
    assumes of it: resting orders form a map from id to order, trade history
    is a separate list, and each entry point behaves as the functions
    `AfterAdd`, `AfterCancel` and `AfterModify` say. The class's method bodies
    only make those assumptions executable; the adapter's proofs see nothing
    but the contracts.

    Besides `IdExists`, the only error variant the adapter names, the book may
    refuse a fresh order for reasons of its own. That choice is an abstract
    `admits` policy fixed when the book is built, so every behaviour of a
    deterministic book is covered. */
module Matchbook {
  import opened Wrappers

  datatype OrderId = OrderId(value: string)

  datatype OrderType = GoodTillCancelled | GoodForDay

  datatype Side = Buy | Sell

  /** Fixed-point price, in cents. */
  datatype Price = Price(cents: U64)

  /** Fixed-point quantity, in units of 10^-8. */
  datatype Quantity = Quantity(units: U64)

  datatype Order = Order(id: OrderId, orderType: OrderType, side: Side, price: Price, quantity: Quantity)

  datatype OrderError = IdExists | NotFound | Rejected

  datatype Trade = Trade(buyer: OrderId, seller: OrderId, price: Price, quantity: Quantity)

  type Orders = map<OrderId, Order>

  /** Whether the book takes a fresh order, given the resting orders. */
  type Admission = (Orders, Order) -> bool

  /** The whole state of the book. */
  datatype Book = Book(orders: Orders, trades: seq<Trade>)

  /** What one call into the book reports and the resting orders after it. */
  datatype Applied = Applied(outcome: Outcome<OrderError>, orders: Orders)

  /** `add_order`: refuses a present id with `IdExists`; otherwise the order
      rests under its id, unless the book's policy refuses it. */
  function AfterAdd(m: Orders, o: Order, admits: Admission): (r: Applied)
    ensures r.outcome == Fail(IdExists) <==> o.id in m
    ensures r.outcome.Pass? <==> o.id !in m && admits(m, o)
    ensures r.outcome.Pass? ==> r.orders == m[o.id := o]
    ensures r.outcome.Fail? ==> r.orders == m
  {
    if o.id in m then Applied(Fail(IdExists), m)
    else if admits(m, o) then Applied(Pass, m[o.id := o])
    else Applied(Fail(Rejected), m)
  }

  /** `cancel_order`: removes a present id; an unknown id is an error. */
  function AfterCancel(m: Orders, id: OrderId): (r: Applied)
    ensures r.outcome.Pass? <==> id in m
    ensures r.outcome.Pass? ==> r.orders == m - {id} && id !in r.orders
    ensures r.outcome.Fail? ==> r.orders == m
  {
    if id in m then Applied(Pass, m - {id}) else Applied(Fail(NotFound), m)
  }

  /** `modify_order`: sets the quantity of a present order; an unknown id is
      an error. */
  function AfterModify(m: Orders, id: OrderId, q: Quantity): (r: Applied)
    ensures r.outcome.Pass? <==> id in m
    ensures r.outcome.Pass? ==> r.orders.Keys == m.Keys && r.orders == m[id := m[id].(quantity := q)]
    ensures r.outcome.Fail? ==> r.orders == m
  {
    if id in m then Applied(Pass, m[id := m[id].(quantity := q)]) else Applied(Fail(NotFound), m)
  }

  class Orderbook {
    var orders: Orders
    var trades: seq<Trade>
    const admits: Admission

    function State(): Book
      reads this
    {
      Book(orders, trades)
    }

    constructor (admits: Admission)
      ensures orders == map[] && trades == [] && this.admits == admits
    {
      orders := map[];
      trades := [];
      this.admits := admits;
    }

    method AddOrder(o: Order) returns (r: Outcome<OrderError>)
      modifies this
      ensures Applied(r, orders) == AfterAdd(old(orders), o, admits)
      ensures trades == old(trades)
    {
      var next := AfterAdd(orders, o, admits);
      r, orders := next.outcome, next.orders;
    }

    method CancelOrder(id: OrderId) returns (r: Outcome<OrderError>)
      modifies this
      ensures Applied(r, orders) == AfterCancel(old(orders), id)
      ensures trades == old(trades)
    {
      var next := AfterCancel(orders, id);
      r, orders := next.outcome, next.orders;
    }

    method ModifyOrder(id: OrderId, q: Quantity) returns (r: Outcome<OrderError>)
      modifies this
      ensures Applied(r, orders) == AfterModify(old(orders), id, q)
      ensures trades == old(trades)
    {
      var next := AfterModify(orders, id, q);
      r, orders := next.outcome, next.orders;
    }

    /** `clear_trades`: forgets the trade history; resting orders stay. */
    method ClearTrades()
      modifies this
      ensures trades == [] && orders == old(orders)
    {
      trades := [];
    }
  }
}
