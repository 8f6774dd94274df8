/** The reconciler of src/kraken/adapter.rs: it checks a decoded envelope,
    clears trade history on a snapshot, and turns every event into a call on
    the order book, bids as Buy before asks as Sell, item by item, stopping
    at the first event the book refuses.

    `Reconcile` is the specification: the envelope checks, then one fold
    (`ApplyAll`) over the events of the envelope in the order `Flatten` lists
    them. `ProcessMessage` and `ProcessEvent` are the imperative code, proved
    against it. */
module Adapter {
  import opened Wrappers
  import opened Messages
  import opened Matchbook

  datatype ParseError = InvalidChannel | InvalidType | Empty | OrderErr(cause: OrderError)

  // ---------------------------------------------------------------------
  // Conversions
  // ---------------------------------------------------------------------

  function ToOrderId(krakenId: string): (r: OrderId)
    ensures r.value == krakenId
  {
    OrderId(krakenId)
  }

  /** Rust's `as u64` on a product: truncation toward zero, with everything
      below 1 (negatives included) saturating to 0 and everything at or above
      2^64 saturating to the largest u64. */
  function TruncateToU64(x: real): (r: U64)
    ensures x < 1.0 ==> r == 0
    ensures 0.0 <= x < U64_LIMIT as real ==> r as real <= x < r as real + 1.0
    ensures x >= U64_LIMIT as real ==> r as int == U64_LIMIT - 1
  {
    if x < 1.0 then 0
    else if x >= U64_LIMIT as real then (U64_LIMIT - 1) as U64
    else x.Floor as U64
  }

  /** Cents: the wire price times 100, truncated. */
  function ToPrice(krakenPrice: real): (r: Price)
    ensures 0.0 <= krakenPrice * 100.0 < U64_LIMIT as real ==>
              r.cents as real <= krakenPrice * 100.0 < r.cents as real + 1.0
    ensures krakenPrice * 100.0 < 1.0 ==> r.cents == 0
  {
    Price(TruncateToU64(krakenPrice * 100.0))
  }

  /** Units of 10^-8: the wire quantity times 10^8, truncated. */
  function ToQuantity(krakenQty: real): (r: Quantity)
    ensures 0.0 <= krakenQty * 100000000.0 < U64_LIMIT as real ==>
              r.units as real <= krakenQty * 100000000.0 < r.units as real + 1.0
    ensures krakenQty * 100000000.0 < 1.0 ==> r.units == 0
  {
    Quantity(TruncateToU64(krakenQty * 100000000.0))
  }

  function ToSide(isBid: bool): (r: Side)
    ensures r == Buy <==> isBid
  {
    if isBid then Buy else Sell
  }

  function ToOrder(e: OrderEvent, isBid: bool): (r: Order)
    ensures r.id.value == e.orderId
    ensures r.orderType == GoodTillCancelled
    ensures r.side == Buy <==> isBid
    ensures r.price == ToPrice(e.limitPrice) && r.quantity == ToQuantity(e.orderQty)
  {
    Order(ToOrderId(e.orderId), GoodTillCancelled, ToSide(isBid), ToPrice(e.limitPrice), ToQuantity(e.orderQty))
  }

  lemma PriceTruncates()
    ensures ToPrice(10.5).cents == 1050
    ensures ToPrice(10.999).cents == 1099
    ensures ToPrice(-3.25).cents == 0
  {
  }

  lemma QuantityTruncates()
    ensures ToQuantity(0.00000001).units == 1
    ensures ToQuantity(0.000000019).units == 1
    ensures ToQuantity(1.5).units == 150000000
  {
  }

  // ---------------------------------------------------------------------
  // Specification: one event, then all events of an envelope
  // ---------------------------------------------------------------------

  /** The outcome of reconciling events so far and the resting orders after. */
  datatype Step = Step(outcome: Outcome<ParseError>, orders: Orders)

  function Wrap(o: Outcome<OrderError>): (r: Outcome<ParseError>)
    ensures r.Pass? <==> o.Pass?
    ensures o.Fail? ==> r == Fail(OrderErr(o.error))
  {
    match o
    case Pass => Pass
    case Fail(e) => Fail(OrderErr(e))
  }

  /** `process_event`: Add rests the converted order and, when the id is
      already present, replaces it by a cancel and a second add whose results
      are both dropped; Modify and Delete forward to the book and wrap its
      error. */
  function ApplyEvent(m: Orders, e: OrderEvent, isBid: bool, admits: Admission): (r: Step)
    ensures r.outcome.Fail? ==> r.orders == m && r.outcome.error.OrderErr?
  {
    match e.event
    case Add =>
      var o := ToOrder(e, isBid);
      var added := AfterAdd(m, o, admits);
      if added.outcome == Fail(IdExists) then
        var cancelled := AfterCancel(added.orders, o.id);
        var readded := AfterAdd(cancelled.orders, o, admits);
        Step(Pass, readded.orders)
      else
        Step(Wrap(added.outcome), added.orders)
    case Modify =>
      var modified := AfterModify(m, ToOrderId(e.orderId), ToQuantity(e.orderQty));
      Step(Wrap(modified.outcome), modified.orders)
    case Delete =>
      var cancelled := AfterCancel(m, ToOrderId(e.orderId));
      Step(Wrap(cancelled.outcome), cancelled.orders)
  }

  /** An event together with the side of the list it came from. */
  datatype Tagged = Tagged(event: OrderEvent, isBid: bool)

  function Sided(es: seq<OrderEvent>, isBid: bool): (r: seq<Tagged>)
    ensures |r| == |es|
    ensures forall k :: 0 <= k < |es| ==> r[k] == Tagged(es[k], isBid)
  {
    seq(|es|, k requires 0 <= k < |es| => Tagged(es[k], isBid))
  }

  /** The events of one data item in the order they are applied. */
  function ItemEvents(d: Data): seq<Tagged> {
    Sided(d.bids, true) + Sided(d.asks, false)
  }

  /** The events of an envelope in the order they are applied. */
  function Flatten(items: seq<Data>): seq<Tagged> {
    if items == [] then [] else ItemEvents(items[0]) + Flatten(items[1..])
  }

  /** Apply events in order; the first failure stops the fold. */
  function ApplyAll(m: Orders, ts: seq<Tagged>, admits: Admission): (r: Step)
    ensures r.outcome.Fail? ==> r.outcome.error.OrderErr?
    decreases |ts|
  {
    if ts == [] then Step(Pass, m)
    else
      var first := ApplyEvent(m, ts[0].event, ts[0].isBid, admits);
      if first.outcome.Fail? then first else ApplyAll(first.orders, ts[1..], admits)
  }

  /** `process_message`: channel first, then emptiness, both before any
      change; any message type is accepted and only "snapshot" clears the
      trade history. */
  function Reconcile(b: Book, message: Response, admits: Admission): (r: (Outcome<ParseError>, Book))
    ensures message.channel != "level3" ==> r == (Fail(InvalidChannel), b)
    ensures message.channel == "level3" && message.data == [] ==> r == (Fail(Empty), b)
    ensures r.0 != Fail(InvalidType)
    ensures r.1.trades == b.trades || (r.1.trades == [] && message.messageType == "snapshot")
  {
    if message.channel != "level3" then (Fail(InvalidChannel), b)
    else if message.data == [] then (Fail(Empty), b)
    else
      var trades := if message.messageType == "snapshot" then [] else b.trades;
      var applied := ApplyAll(b.orders, Flatten(message.data), admits);
      (applied.outcome, Book(applied.orders, trades))
  }

  // ---------------------------------------------------------------------
  // Properties of the specification
  // ---------------------------------------------------------------------

  /** Applying two runs of events is applying the first, then, unless it
      failed, the second from where the first left the book. */
  lemma {:induction false} ApplyAllAppend(m: Orders, xs: seq<Tagged>, ys: seq<Tagged>, admits: Admission)
    ensures ApplyAll(m, xs + ys, admits)
            == var s := ApplyAll(m, xs, admits);
               if s.outcome.Fail? then s else ApplyAll(s.orders, ys, admits)
    decreases |xs|
  {
    if xs == [] {
      assert xs + ys == ys;
    } else {
      assert (xs + ys)[0] == xs[0] && (xs + ys)[1..] == xs[1..] + ys;
      var first := ApplyEvent(m, xs[0].event, xs[0].isBid, admits);
      if first.outcome.Pass? {
        ApplyAllAppend(first.orders, xs[1..], ys, admits);
      }
    }
  }

  lemma {:induction false} FlattenAppend(xs: seq<Data>, ys: seq<Data>)
    ensures Flatten(xs + ys) == Flatten(xs) + Flatten(ys)
  {
    if xs == [] {
      assert xs + ys == ys;
    } else {
      assert (xs + ys)[0] == xs[0] && (xs + ys)[1..] == xs[1..] + ys;
      FlattenAppend(xs[1..], ys);
    }
  }

  /** When the fold succeeds, every event succeeded from the state the
      events before it left. */
  lemma {:induction false} PassMeansEveryEventPassed(m: Orders, ts: seq<Tagged>, admits: Admission, k: nat)
    requires ApplyAll(m, ts, admits).outcome.Pass?
    requires k < |ts|
    ensures ApplyAll(m, ts[..k], admits).outcome.Pass?
    ensures ApplyEvent(ApplyAll(m, ts[..k], admits).orders, ts[k].event, ts[k].isBid, admits).outcome.Pass?
    decreases k
  {
    var first := ApplyEvent(m, ts[0].event, ts[0].isBid, admits);
    if k == 0 {
      assert ts[..0] == [];
    } else {
      assert ts[1..][..k - 1] == ts[1..k] && ts[1..][k - 1] == ts[k];
      PassMeansEveryEventPassed(first.orders, ts[1..], admits, k - 1);
      assert ts[..k] == [ts[0]] + ts[1..k];
      assert ts[..k][0] == ts[0] && ts[..k][1..] == ts[1..k];
    }
  }

  /** When the fold fails, there is an event `k` such that all events before
      it were applied, it failed with the reported error without changing the
      book, and no event after it was applied. */
  lemma {:induction false} FirstFailureAborts(m: Orders, ts: seq<Tagged>, admits: Admission) returns (k: nat)
    requires ApplyAll(m, ts, admits).outcome.Fail?
    ensures k < |ts|
    ensures ApplyAll(m, ts[..k], admits) == Step(Pass, ApplyAll(m, ts, admits).orders)
    ensures ApplyEvent(ApplyAll(m, ts, admits).orders, ts[k].event, ts[k].isBid, admits) == ApplyAll(m, ts, admits)
    decreases |ts|
  {
    var first := ApplyEvent(m, ts[0].event, ts[0].isBid, admits);
    if first.outcome.Fail? {
      k := 0;
      assert ts[..0] == [];
    } else {
      var j := FirstFailureAborts(first.orders, ts[1..], admits);
      k := j + 1;
      assert ts[..k] == [ts[0]] + ts[1..][..j];
      assert ts[..k][0] == ts[0] && ts[..k][1..] == ts[1..][..j];
    }
  }

  /** An Add for a fresh id rests exactly the converted order when the book
      admits it. */
  lemma AddFresh(m: Orders, e: OrderEvent, isBid: bool, admits: Admission)
    requires e.event == Add && ToOrderId(e.orderId) !in m
    ensures var r := ApplyEvent(m, e, isBid, admits);
      && (r.outcome.Pass? <==> admits(m, ToOrder(e, isBid)))
      && (r.outcome.Pass? ==> r.orders == m[ToOrderId(e.orderId) := ToOrder(e, isBid)])
      && (r.outcome.Fail? ==> r == Step(Fail(OrderErr(Rejected)), m))
  {
  }

  /** An Add for an id already resting is a replace: it reports success,
      leaves every other order alone, and the id ends up holding the newly
      converted order, or nothing when the book refuses the second add. */
  lemma AddDuplicateReplaces(m: Orders, e: OrderEvent, isBid: bool, admits: Admission)
    requires e.event == Add && ToOrderId(e.orderId) in m
    ensures var id, o, r := ToOrderId(e.orderId), ToOrder(e, isBid), ApplyEvent(m, e, isBid, admits);
      && r.outcome == Pass
      && r.orders == if admits(m - {id}, o) then m[id := o] else m - {id}
  {
    var id, o := ToOrderId(e.orderId), ToOrder(e, isBid);
    if admits(m - {id}, o) {
      assert (m - {id})[id := o] == m[id := o];
    }
  }

  /** With a book that takes every fresh order, an Add on a present id leaves
      exactly one entry for it, equal to the converted order. */
  lemma AddDuplicateKeepsNewest(m: Orders, e: OrderEvent, isBid: bool)
    requires e.event == Add && ToOrderId(e.orderId) in m
    ensures var r := ApplyEvent(m, e, isBid, (_, _) => true);
      && r.outcome == Pass
      && r.orders.Keys == m.Keys
      && r.orders[ToOrderId(e.orderId)] == ToOrder(e, isBid)
      && forall id :: id in m && id != ToOrderId(e.orderId) ==> r.orders[id] == m[id]
  {
    AddDuplicateReplaces(m, e, isBid, (_, _) => true);
  }

  /** Modify and Delete succeed exactly on a resting id; on an unknown id they
      report the book's error and change nothing. */
  lemma ModifyAndDelete(m: Orders, e: OrderEvent, isBid: bool, admits: Admission)
    requires e.event != Add
    ensures var id, r := ToOrderId(e.orderId), ApplyEvent(m, e, isBid, admits);
      && (id !in m ==> r == Step(Fail(OrderErr(NotFound)), m))
      && (id in m && e.event == Modify ==> r == Step(Pass, m[id := m[id].(quantity := ToQuantity(e.orderQty))]))
      && (id in m && e.event == Delete ==> r == Step(Pass, m - {id}))
  {
  }

  /** The message type never causes a rejection and does not influence the
      orders; it only decides whether trade history is cleared. */
  lemma MessageTypeOnlyClearsTrades(b: Book, message: Response, messageType: string, admits: Admission)
    ensures var r, r' := Reconcile(b, message, admits), Reconcile(b, message.(messageType := messageType), admits);
      && r.0 == r'.0
      && r.1.orders == r'.1.orders
      && (message.channel == "level3" && message.data != [] ==>
            r.1.trades == if message.messageType == "snapshot" then [] else b.trades)
  {
  }

  /** Events are applied item after item, and within an item every bid, as
      Buy, before every ask, as Sell. */
  lemma {:induction false} ItemsInOrder(m: Orders, d: Data, rest: seq<Data>, admits: Admission)
    ensures ApplyAll(m, Flatten([d] + rest), admits)
            == var bids := ApplyAll(m, Sided(d.bids, true), admits);
               if bids.outcome.Fail? then bids
               else
                 var asks := ApplyAll(bids.orders, Sided(d.asks, false), admits);
                 if asks.outcome.Fail? then asks else ApplyAll(asks.orders, Flatten(rest), admits)
  {
    assert ([d] + rest)[0] == d && ([d] + rest)[1..] == rest;
    ApplyAllAppend(m, ItemEvents(d), Flatten(rest), admits);
    ApplyAllAppend(m, Sided(d.bids, true), Sided(d.asks, false), admits);
  }

  // ---------------------------------------------------------------------
  // The imperative reconciler
  // ---------------------------------------------------------------------

  method ProcessEvent(book: Orderbook, e: OrderEvent, isBid: bool) returns (r: Outcome<ParseError>)
    modifies book
    ensures Step(r, book.orders) == ApplyEvent(old(book.orders), e, isBid, book.admits)
    ensures book.trades == old(book.trades)
  {
    match e.event {
      case Add =>
        var order := ToOrder(e, isBid);
        var added := book.AddOrder(order);
        match added {
          case Pass =>
          case Fail(IdExists) =>
            var _ := book.CancelOrder(order.id);
            var _ := book.AddOrder(order);
          case Fail(err) =>
            return Fail(OrderErr(err));
        }
      case Modify =>
        var id := ToOrderId(e.orderId);
        var qty := ToQuantity(e.orderQty);
        var modified := book.ModifyOrder(id, qty);
        if modified.Fail? {
          return Fail(OrderErr(modified.error));
        }
      case Delete =>
        var id := ToOrderId(e.orderId);
        var cancelled := book.CancelOrder(id);
        if cancelled.Fail? {
          return Fail(OrderErr(cancelled.error));
        }
    }
    return Pass;
  }

  lemma FlattenSplit(items: seq<Data>, i: nat)
    requires i < |items|
    ensures Flatten(items) == Flatten(items[..i]) + ItemEvents(items[i]) + Flatten(items[i + 1..])
  {
    assert items == items[..i] + items[i..];
    FlattenAppend(items[..i], items[i..]);
    assert items[i..][0] == items[i] && items[i..][1..] == items[i + 1..];
  }

  lemma SidedSplit(es: seq<OrderEvent>, j: nat, isBid: bool)
    requires j < |es|
    ensures Sided(es, isBid) == Sided(es[..j], isBid) + [Tagged(es[j], isBid)] + Sided(es[j + 1..], isBid)
    ensures Sided(es[..j + 1], isBid) == Sided(es[..j], isBid) + [Tagged(es[j], isBid)]
  {
  }

  /** One of the inner loops of `process_message`: the events of one list,
      all with the side of that list, each through `ProcessEvent`, stopping at
      the first error. */
  method ProcessSide(book: Orderbook, events: seq<OrderEvent>, isBid: bool) returns (r: Outcome<ParseError>)
    modifies book
    ensures Step(r, book.orders) == ApplyAll(old(book.orders), Sided(events, isBid), book.admits)
    ensures book.trades == old(book.trades)
  {
    ghost var start := book.orders;
    var j := 0;
    assert events[..0] == [];
    while j < |events|
      invariant j <= |events|
      invariant book.trades == old(book.trades)
      invariant ApplyAll(start, Sided(events[..j], isBid), book.admits) == Step(Pass, book.orders)
    {
      r := ProcessEvent(book, events[j], isBid);
      ApplyAllAppend(start, Sided(events[..j], isBid), [Tagged(events[j], isBid)], book.admits);
      SidedSplit(events, j, isBid);
      if r.Fail? {
        ApplyAllAppend(start, Sided(events[..j + 1], isBid), Sided(events[j + 1..], isBid), book.admits);
        return;
      }
      j := j + 1;
    }
    assert events[..j] == events;
    r := Pass;
  }

  /** After the items before `i` all passed, item `i` is applied from where
      they left the book; if it fails, so does the whole envelope, with the
      book as item `i` left it. */
  lemma ItemStep(start: Orders, items: seq<Data>, i: nat, orders: Orders, admits: Admission)
    requires i < |items|
    requires ApplyAll(start, Flatten(items[..i]), admits) == Step(Pass, orders)
    ensures ApplyAll(start, Flatten(items[..i + 1]), admits) == ApplyAll(orders, ItemEvents(items[i]), admits)
    ensures ApplyAll(orders, ItemEvents(items[i]), admits).outcome.Fail? ==>
              ApplyAll(start, Flatten(items), admits) == ApplyAll(orders, ItemEvents(items[i]), admits)
  {
    assert items[..i + 1] == items[..i] + [items[i]];
    FlattenAppend(items[..i], [items[i]]);
    assert Flatten([items[i]]) == ItemEvents(items[i]);
    ApplyAllAppend(start, Flatten(items[..i]), ItemEvents(items[i]), admits);
    FlattenSplit(items, i);
    ApplyAllAppend(start, Flatten(items[..i]) + ItemEvents(items[i]), Flatten(items[i + 1..]), admits);
  }

  /** The outer loop of `process_message`: every data item in turn, its bids
      as Buy, then its asks as Sell, stopping at the first error. */
  method ProcessItems(book: Orderbook, items: seq<Data>) returns (r: Outcome<ParseError>)
    modifies book
    ensures Step(r, book.orders) == ApplyAll(old(book.orders), Flatten(items), book.admits)
    ensures book.trades == old(book.trades)
  {
    ghost var start := book.orders;
    var i := 0;
    assert items[..0] == [];
    while i < |items|
      invariant i <= |items|
      invariant book.trades == old(book.trades)
      invariant ApplyAll(start, Flatten(items[..i]), book.admits) == Step(Pass, book.orders)
    {
      var data := items[i];
      ItemStep(start, items, i, book.orders, book.admits);
      ApplyAllAppend(book.orders, Sided(data.bids, true), Sided(data.asks, false), book.admits);
      r := ProcessSide(book, data.bids, true);
      if r.Fail? {
        return;
      }
      r := ProcessSide(book, data.asks, false);
      if r.Fail? {
        return;
      }
      i := i + 1;
    }
    assert items[..i] == items;
    r := Pass;
  }

  method ProcessMessage(book: Orderbook, message: Response) returns (r: Outcome<ParseError>)
    modifies book
    ensures (r, book.State()) == Reconcile(old(book.State()), message, book.admits)
  {
    if message.channel != "level3" {
      return Fail(InvalidChannel);
    }
    if |message.data| == 0 {
      return Fail(Empty);
    }
    if message.messageType == "snapshot" {
      book.ClearTrades();
    }
    r := ProcessItems(book, message.data);
  }
}
