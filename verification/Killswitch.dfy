/**
 The kill switch (gateway/Killswitch.h): the requests that `cancel_all` and `flatten`
 send, and what is left of orders and positions once the exchange has answered them.
 */
module Killswitches {
  import opened Arithmetic
  import opened Books
  import opened FIXGateways
  import opened FlatTable
  import opened GatewayRuns
  import opened OrderEvents
  import opened OrderIds
  import opened OrderManagers
  import opened Orders
  import opened Positions
  import opened PositionLedger
  import opened PositionTrackers
  import opened RiskCheckers
  import opened Wrappers

  datatype CancelRequest = CancelRequest(origClOrdId: Name, clOrdId: string, symbol: Name, side: Side)

  /** A market order: it has no price. */
  datatype MarketOrder = MarketOrder(clOrdId: Name, symbol: Name, side: Side, qty: int)

  /** The n-th request sent, for this order. */
  function RequestFor(slot: Slot<Order>, prefix: string, n: nat): (request: CancelRequest) {
    CancelRequest(slot.key, prefix + Decimal(n), slot.body.symbol, slot.body.side)
  }

  function CancelRequests(t: Table<Order>, prefix: string): (sent: seq<CancelRequest>) {
    if t == [] then []
    else
      var sent, slot := CancelRequests(t[..|t| - 1], prefix), t[|t| - 1];
      if slot.body.IsOpen() then sent + [RequestFor(slot, prefix, |sent| + 1)] else sent
  }

  /** `static_cast<int32_t>`. */
  function ToInt32(x: int): (y: int) {
    (x + 0x8000_0000) % 0x1_0000_0000 - 0x8000_0000
  }

  function CloseSide(p: Position): (side: Side) {
    if p.netQty > 0 then Side.Sell else Side.Buy
  }

  /** The n-th order sent, for this position. */
  function OrderFor(slot: Slot<Position>, prefix: string, n: nat): (order: MarketOrder) {
    var qty := ToInt32(if slot.body.netQty > 0 then slot.body.netQty else -slot.body.netQty);
    MarketOrder(NameOf(prefix + Decimal(n)), slot.key, CloseSide(slot.body), qty)
  }

  function FlattenOrders(t: Table<Position>, prefix: string): (sent: seq<MarketOrder>) {
    if t == [] then []
    else
      var sent, slot := FlattenOrders(t[..|t| - 1], prefix), t[|t| - 1];
      if slot.body.IsFlat() then sent else sent + [OrderFor(slot, prefix, |sent| + 1)]
  }

  // ---- cancel_all ----

  /** Indices of the open orders, in table order. */
  function OpenSlots(t: Table<Order>): (at: seq<nat>)
    ensures forall j :: 0 <= j < |at| ==> at[j] < |t| && t[at[j]].body.IsOpen()
    ensures forall i :: 0 <= i < |t| && t[i].body.IsOpen() ==> i in at
    ensures forall j, k :: 0 <= j < k < |at| ==> at[j] < at[k]
  {
    if t == [] then []
    else
      var at := OpenSlots(t[..|t| - 1]);
      if t[|t| - 1].body.IsOpen() then at + [|t| - 1] else at
  }

  lemma {:induction false} RequestAt(t: Table<Order>, prefix: string, j: nat)
    ensures |CancelRequests(t, prefix)| == |OpenSlots(t)|
    ensures j < |OpenSlots(t)| ==> CancelRequests(t, prefix)[j] == RequestFor(t[OpenSlots(t)[j]], prefix, j + 1)
  {
    if t != [] {
      hide RequestFor;
      RequestAt(t[..|t| - 1], prefix, j);
    }
  }

  /** The n-th request is for the n-th open order: one for each, none for any other. */
  lemma OneRequestPerOpenOrder(t: Table<Order>, prefix: string)
    ensures var sent, at := CancelRequests(t, prefix), OpenSlots(t);
            && |sent| == |at|
            && forall j :: 0 <= j < |sent| ==> sent[j] == RequestFor(t[at[j]], prefix, j + 1)
  {
    hide CancelRequests, OpenSlots, RequestFor;
    forall j: nat
      ensures |CancelRequests(t, prefix)| == |OpenSlots(t)|
      ensures j < |OpenSlots(t)| ==> CancelRequests(t, prefix)[j] == RequestFor(t[OpenSlots(t)[j]], prefix, j + 1)
    {
      RequestAt(t, prefix, j);
    }
    RequestAt(t, prefix, 0);
  }

  /** This request cancels this order: its id, symbol and side. */
  predicate Cancels(r: CancelRequest, slot: Slot<Order>) {
    r.origClOrdId == slot.key && r.symbol == slot.body.symbol && r.side == slot.body.side
  }

  ghost predicate HasRequest(rs: seq<CancelRequest>, slot: Slot<Order>) {
    exists j :: 0 <= j < |rs| && Cancels(rs[j], slot)
  }

  ghost predicate CancelsOpen(r: CancelRequest, t: Table<Order>) {
    exists i :: 0 <= i < |t| && t[i].body.IsOpen() && Cancels(r, t[i])
  }

  /** Every open order is cancelled by a request with its own symbol and side, by no two,
      and every request cancels an open order. */
  lemma CancelRequestsFit(t: Table<Order>, prefix: string)
    requires Distinct(t)
    ensures forall i :: 0 <= i < |t| && t[i].body.IsOpen() ==> HasRequest(CancelRequests(t, prefix), t[i])
    ensures forall r :: r in CancelRequests(t, prefix) ==> CancelsOpen(r, t)
    ensures var rs := CancelRequests(t, prefix);
            forall j, k :: 0 <= j < k < |rs| ==> rs[j].origClOrdId != rs[k].origClOrdId
  {
    hide CancelRequests, OpenSlots, Decimal;
    var rs, at := CancelRequests(t, prefix), OpenSlots(t);
    OneRequestPerOpenOrder(t, prefix);
    forall i | 0 <= i < |t| && t[i].body.IsOpen()
      ensures HasRequest(rs, t[i])
    {
      var j :| 0 <= j < |at| && at[j] == i;
      assert Cancels(rs[j], t[i]);
    }
    forall r | r in rs
      ensures CancelsOpen(r, t)
    {
      var j :| 0 <= j < |rs| && rs[j] == r;
      assert Cancels(r, t[at[j]]);
    }
  }

  /** No two requests share their own id, and with a foreign prefix none has an order's. */
  lemma CancelIdsDiffer(t: Table<Order>, prefix: string, j: nat, k: nat, counter: nat)
    requires j < k < |CancelRequests(t, prefix)|
    ensures CancelRequests(t, prefix)[j].clOrdId != CancelRequests(t, prefix)[k].clOrdId
    ensures ForeignPrefix(prefix) ==> CancelRequests(t, prefix)[j].clOrdId != OrderIdText(counter)
    ensures ForeignPrefix(prefix) ==> CancelRequests(t, prefix)[k].clOrdId != OrderIdText(counter)
  {
    hide CancelRequests, OpenSlots, Decimal, OrderIdText;
    OneRequestPerOpenOrder(t, prefix);
    NumberedDiffer(prefix, j + 1, k + 1);
    if ForeignPrefix(prefix) {
      ForeignTextDiffers(prefix, j + 1, counter);
      ForeignTextDiffers(prefix, k + 1, counter);
    }
  }

  /** Some request is for this order. */
  ghost predicate Requested(rs: seq<CancelRequest>, id: Name) {
    exists j :: 0 <= j < |rs| && rs[j].origClOrdId == id
  }

  /** Cancel confirmations that answer the requests: each carries the id of a requested
      order, and every request is answered; order and repetition do not matter. */
  ghost predicate Confirm(es: seq<OrderEvent>, rs: seq<CancelRequest>) {
    && (forall i :: 0 <= i < |es| ==> es[i].kind == Cancel && Requested(rs, es[i].orderId))
    && (forall j :: 0 <= j < |rs| ==> Names(es, rs[j].origClOrdId))
  }

  lemma ConfirmedIffOpen(t: Table<Order>, prefix: string, es: seq<OrderEvent>, i: nat)
    requires Distinct(t) && Confirm(es, CancelRequests(t, prefix)) && i < |t|
    ensures Names(es, t[i].key) <==> t[i].body.IsOpen()
  {
    var rs, at := CancelRequests(t, prefix), OpenSlots(t);
    OneRequestPerOpenOrder(t, prefix);
    hide CancelRequests, OpenSlots;
    if t[i].body.IsOpen() {
      var j :| 0 <= j < |at| && at[j] == i;
      assert Names(es, rs[j].origClOrdId);
    }
    if Names(es, t[i].key) {
      var n :| 0 <= n < |es| && es[n].orderId == t[i].key;
      assert Requested(rs, es[n].orderId);
      var j :| 0 <= j < |rs| && rs[j].origClOrdId == es[n].orderId;
      assert t[at[j]].key == t[i].key;
    }
  }

  /** Some event is about this order. */
  ghost predicate Names(es: seq<OrderEvent>, id: Name) {
    exists i :: 0 <= i < |es| && es[i].orderId == id
  }

  /** Cancels replayed on a table cancel the orders they name and touch nothing else. */
  lemma {:induction false} ReplayCancels(t: Table<Order>, es: seq<OrderEvent>)
    requires Distinct(t) && forall i :: 0 <= i < |es| ==> es[i].kind == Cancel
    ensures var u := ReplayOrders(t, es);
            && |u| == |t|
            && Distinct(u)
            && forall i :: 0 <= i < |t| ==>
                 && u[i].key == t[i].key
                 && if Names(es, t[i].key) then u[i].body == t[i].body.(state := Cancelled, lastSeq := u[i].body.lastSeq)
                    else u[i] == t[i]
  {
    if es != [] {
      hide ApplyOrder;
      var init, e := es[..|es| - 1], es[|es| - 1];
      ReplayCancels(t, init);
      var v := ReplayOrders(t, init);
      if Has(v, e.orderId) {
        ApplyKnown(v, e);
      } else {
        ApplyUnknown(v, e);
      }
      forall i | 0 <= i < |t|
        ensures Names(es, t[i].key) <==> Names(init, t[i].key) || e.orderId == t[i].key
      {
        NamesSnoc(es, t[i].key);
      }
      forall i | 0 <= i < |t| && e.orderId == t[i].key
        ensures Find(v, e.orderId) == i
      {
        FindAt(v, i);
      }
    }
  }

  lemma NamesSnoc(es: seq<OrderEvent>, id: Name)
    requires es != []
    ensures Names(es, id) <==> Names(es[..|es| - 1], id) || es[|es| - 1].orderId == id
  {
    var init := es[..|es| - 1];
    if Names(init, id) {
      var i :| 0 <= i < |init| && init[i].orderId == id;
      assert es[i].orderId == id;
    }
    if Names(es, id) {
      var i :| 0 <= i < |es| && es[i].orderId == id;
      assert i < |init| ==> init[i].orderId == id;
    }
  }

  lemma {:induction false} NoOpenNoExposure(t: Table<Order>, symbol: Name)
    requires forall i :: 0 <= i < |t| ==> !t[i].body.IsOpen()
    ensures Total(OpenExposure, t, symbol) == 0
  {
    if t != [] {
      NoOpenNoExposure(t[..|t| - 1], symbol);
    }
  }

  /** Once the cancels are confirmed no order is open, no symbol has open exposure, and the
      orders that were finished before are as they were. */
  lemma CancelAllClears(t: Table<Order>, prefix: string, es: seq<OrderEvent>)
    requires Distinct(t) && Confirm(es, CancelRequests(t, prefix))
    ensures var u := ReplayOrders(t, es);
            && |u| == |t|
            && Distinct(u)
            && (forall i :: 0 <= i < |u| ==> !u[i].body.IsOpen())
            && (forall i :: 0 <= i < |t| && !t[i].body.IsOpen() ==> u[i] == t[i])
            && (forall symbol: Name :: Total(OpenExposure, u, symbol) == 0)
  {
    hide ReplayOrders, CancelRequests, Total, Confirm, Names;
    var u := ReplayOrders(t, es);
    ConfirmIsCancels(es, CancelRequests(t, prefix));
    ReplayCancels(t, es);
    forall i | 0 <= i < |t|
      ensures Names(es, t[i].key) <==> t[i].body.IsOpen()
    {
      ConfirmedIffOpen(t, prefix, es, i);
    }
    forall symbol: Name
      ensures Total(OpenExposure, u, symbol) == 0
    {
      NoOpenNoExposure(u, symbol);
    }
  }

  // ---- flatten ----

  /** The cast keeps a quantity exactly when it fits in 32 bits. */
  lemma CastExactIff(x: nat)
    ensures ToInt32(x) == x <==> x < 0x8000_0000
  {
  }

  /** Indices of the positions that are not flat, in table order. */
  function HeldSlots(t: Table<Position>): (at: seq<nat>)
    ensures forall j :: 0 <= j < |at| ==> at[j] < |t| && !t[at[j]].body.IsFlat()
    ensures forall i :: 0 <= i < |t| && !t[i].body.IsFlat() ==> i in at
    ensures forall j, k :: 0 <= j < k < |at| ==> at[j] < at[k]
  {
    if t == [] then []
    else
      var at := HeldSlots(t[..|t| - 1]);
      if t[|t| - 1].body.IsFlat() then at else at + [|t| - 1]
  }

  lemma {:induction false} OrderAt(t: Table<Position>, prefix: string, j: nat)
    ensures |FlattenOrders(t, prefix)| == |HeldSlots(t)|
    ensures j < |HeldSlots(t)| ==> FlattenOrders(t, prefix)[j] == OrderFor(t[HeldSlots(t)[j]], prefix, j + 1)
  {
    if t != [] {
      hide OrderFor;
      OrderAt(t[..|t| - 1], prefix, j);
    }
  }

  /** The n-th order is for the n-th position that is held: one for each, none for any
      other. */
  lemma OneOrderPerOpenPosition(t: Table<Position>, prefix: string)
    ensures var sent, at := FlattenOrders(t, prefix), HeldSlots(t);
            && |sent| == |at|
            && forall j :: 0 <= j < |sent| ==> sent[j] == OrderFor(t[at[j]], prefix, j + 1)
  {
    hide FlattenOrders, HeldSlots, OrderFor;
    forall j: nat
      ensures |FlattenOrders(t, prefix)| == |HeldSlots(t)|
      ensures j < |HeldSlots(t)| ==> FlattenOrders(t, prefix)[j] == OrderFor(t[HeldSlots(t)[j]], prefix, j + 1)
    {
      OrderAt(t, prefix, j);
    }
    OrderAt(t, prefix, 0);
  }

  /** This order closes this position: its symbol, the other side, and its quantity in 32
      bits. */
  predicate Closes(m: MarketOrder, slot: Slot<Position>) {
    && m.symbol == slot.key
    && (m.side == Side.Sell <==> slot.body.netQty > 0)
    && -0x8000_0000 <= m.qty < 0x8000_0000
    && (m.qty - Abs(slot.body.netQty)) % 0x1_0000_0000 == 0
  }

  lemma CastWraps(x: int)
    ensures -0x8000_0000 <= ToInt32(x) < 0x8000_0000
    ensures (ToInt32(x) - x) % 0x1_0000_0000 == 0
  {
    var w := 0x1_0000_0000;
    var q := (x + 0x8000_0000) / w;
    assert ToInt32(x) - x == -q * w;
    Multiple(-q * w, w, -q);
  }

  ghost predicate HasOrder(ms: seq<MarketOrder>, slot: Slot<Position>) {
    exists j :: 0 <= j < |ms| && Closes(ms[j], slot)
  }

  ghost predicate ClosesHeld(m: MarketOrder, t: Table<Position>) {
    exists i :: 0 <= i < |t| && !t[i].body.IsFlat() && Closes(m, t[i])
  }

  lemma HeldHasOrder(t: Table<Position>, prefix: string, i: nat)
    requires i < |t| && !t[i].body.IsFlat()
    ensures HasOrder(FlattenOrders(t, prefix), t[i])
  {
    hide FlattenOrders, HeldSlots, OrderFor, Closes;
    var ms, at := FlattenOrders(t, prefix), HeldSlots(t);
    OneOrderPerOpenPosition(t, prefix);
    var j :| 0 <= j < |at| && at[j] == i;
    OrderCloses(t[i], prefix, j + 1);
    assert Closes(ms[j], t[i]);
  }

  lemma OrderHasHeld(t: Table<Position>, prefix: string, j: nat)
    requires j < |FlattenOrders(t, prefix)|
    ensures ClosesHeld(FlattenOrders(t, prefix)[j], t)
  {
    hide FlattenOrders, HeldSlots, OrderFor, Closes;
    OneOrderPerOpenPosition(t, prefix);
    OrderCloses(t[HeldSlots(t)[j]], prefix, j + 1);
  }

  lemma OneOrderPerSymbol(t: Table<Position>, prefix: string, j: nat, k: nat)
    requires Distinct(t) && j < k < |FlattenOrders(t, prefix)|
    ensures FlattenOrders(t, prefix)[j].symbol != FlattenOrders(t, prefix)[k].symbol
  {
    hide FlattenOrders, HeldSlots, OrderFor;
    OneOrderPerOpenPosition(t, prefix);
    OrderSymbol(t[HeldSlots(t)[j]], prefix, j + 1);
    OrderSymbol(t[HeldSlots(t)[k]], prefix, k + 1);
  }

  /** Every position that is not flat is closed by an order, no symbol by two, and every
      order closes one. */
  lemma FlattenOrdersFit(t: Table<Position>, prefix: string)
    requires Distinct(t)
    ensures forall i :: 0 <= i < |t| && !t[i].body.IsFlat() ==> HasOrder(FlattenOrders(t, prefix), t[i])
    ensures forall j :: 0 <= j < |FlattenOrders(t, prefix)| ==> ClosesHeld(FlattenOrders(t, prefix)[j], t)
    ensures var ms := FlattenOrders(t, prefix);
            forall j, k :: 0 <= j < k < |ms| ==> ms[j].symbol != ms[k].symbol
  {
    hide FlattenOrders, HasOrder, ClosesHeld, Distinct;
    var ms := FlattenOrders(t, prefix);
    forall i | 0 <= i < |t| && !t[i].body.IsFlat()
      ensures HasOrder(ms, t[i])
    {
      HeldHasOrder(t, prefix, i);
    }
    forall j | 0 <= j < |ms|
      ensures ClosesHeld(ms[j], t)
    {
      OrderHasHeld(t, prefix, j);
    }
    forall j, k | 0 <= j < k < |ms|
      ensures ms[j].symbol != ms[k].symbol
    {
      OneOrderPerSymbol(t, prefix, j, k);
    }
  }

  lemma OrderSymbol(slot: Slot<Position>, prefix: string, n: nat)
    ensures OrderFor(slot, prefix, n).symbol == slot.key
  {
    hide NameOf, Decimal, ToInt32;
  }

  lemma OrderCloses(slot: Slot<Position>, prefix: string, n: nat)
    requires !slot.body.IsFlat()
    ensures Closes(OrderFor(slot, prefix, n), slot)
  {
    hide NameOf, Decimal, ToInt32;
    CastWraps(Abs(slot.body.netQty));
  }

  /** While prefix and number fit in eight characters no two orders share an id. */
  lemma FlattenIdsDiffer(t: Table<Position>, prefix: string, j: nat, k: nat)
    requires j < k < |FlattenOrders(t, prefix)| && |t| <= MAX_SYMBOLS
    requires |prefix| <= 4 && forall i :: 0 <= i < |prefix| ==> prefix[i] != '\0'
    ensures FlattenOrders(t, prefix)[j].clOrdId != FlattenOrders(t, prefix)[k].clOrdId
  {
    hide FlattenOrders, HeldSlots, Decimal, NameOf;
    OneOrderPerOpenPosition(t, prefix);
    AscendingBelow(HeldSlots(t), |t|, k);
    StoredNumberedDiffer(prefix, j + 1, k + 1);
  }

  /** Ascending indices are no more than there are. */
  lemma {:induction false} AscendingBelow(at: seq<nat>, n: nat, k: nat)
    requires k < |at| && forall j :: 0 <= j < |at| ==> at[j] < n
    requires forall i, j :: 0 <= i < j < |at| ==> at[i] < at[j]
    ensures k <= at[k] < n
  {
    if k > 0 {
      AscendingBelow(at, n, k - 1);
    }
  }

  /** The fills of one symbol among the events, in order. */
  function FillsOf(es: seq<OrderEvent>, symbol: Name): (fills: seq<Op>) {
    if es == [] then []
    else
      var e := es[|es| - 1];
      FillsOf(es[..|es| - 1], symbol) + (if e.IsFill() && e.symbol == symbol then [FillOp(e)] else [])
  }

  function Quantity(ops: seq<Op>): (total: int) {
    if ops == [] then 0
    else Quantity(ops[..|ops| - 1]) + (if ops[|ops| - 1].Fill? then ops[|ops| - 1].qty else 0)
  }

  /** A fill of this order. */
  predicate Answers(e: OrderEvent, m: MarketOrder) {
    && e.IsFill() && e.fillQty >= 0
    && e.orderId == m.clOrdId && e.symbol == m.symbol && e.side == m.side
  }

  ghost predicate AnswersOne(e: OrderEvent, ms: seq<MarketOrder>) {
    exists j :: 0 <= j < |ms| && Answers(e, ms[j])
  }

  /** Fills that answer the orders: each is of one of them, and per symbol they add up to
      the order, cut and interleaved in any way and at any prices. An order whose quantity
      the cast made zero or negative gets none. */
  ghost predicate Answer(es: seq<OrderEvent>, ms: seq<MarketOrder>) {
    && (forall i :: 0 <= i < |es| ==> AnswersOne(es[i], ms))
    && (forall j :: 0 <= j < |ms| ==> Quantity(FillsOf(es, ms[j].symbol)) == Max(0, ms[j].qty))
  }

  /** Fills on the closing side. */
  ghost predicate ClosingFills(p: Position, ops: seq<Op>) {
    forall i :: 0 <= i < |ops| ==> ops[i].Fill? && ops[i].side == CloseSide(p) && ops[i].qty >= 0
  }

  lemma {:induction false} QuantityNonNegative(ops: seq<Op>)
    requires forall i :: 0 <= i < |ops| ==> ops[i].Fill? && ops[i].qty >= 0
    ensures Quantity(ops) >= 0
  {
    if ops != [] {
      QuantityNonNegative(ops[..|ops| - 1]);
    }
  }

  /** Closing step by step: the net quantity shrinks by what is filled, the average stays
      until the position is flat, and nothing is averaged, so nothing drifts. */
  lemma {:induction false} CloseStepwise(history: seq<Op>, ops: seq<Op>)
    requires var p := Run(history); !p.IsFlat() && ClosingFills(p, ops) && Quantity(ops) <= Abs(p.netQty)
    ensures var p, q := Run(history), Run(history + ops);
            && Quantity(ops) >= 0
            && q.netQty == p.netQty + (if p.netQty > 0 then -Quantity(ops) else Quantity(ops))
            && q.avgEntryPrice == (if q.IsFlat() then 0 else p.avgEntryPrice)
            && Drift(history + ops, Side.Buy) == Drift(history, Side.Buy)
            && Drift(history + ops, Side.Sell) == Drift(history, Side.Sell)
  {
    if ops == [] {
      assert history + ops == history;
    } else {
      var p, init, op := Run(history), ops[..|ops| - 1], ops[|ops| - 1];
      QuantityNonNegative(init);
      CloseStepwise(history, init);
      assert history + ops == (history + init) + [op];
      RunSnoc(history + init, op);
      DriftSnoc(history + init, op, Side.Buy);
      DriftSnoc(history + init, op, Side.Sell);
      hide Run, Drift;
      CloseOne(Run(history + init), op);
    }
  }

  lemma CloseOne(p: Position, op: Op)
    requires op.Fill? && op.qty >= 0
    requires (op.qty <= p.netQty && op.side == Side.Sell) || (op.qty <= -p.netQty && op.side == Side.Buy)
    requires p.IsFlat() ==> p.avgEntryPrice == 0
    ensures var q := Step(p, op);
            && q.netQty == p.netQty + Signed(op.side, op.qty)
            && q.avgEntryPrice == (if q.IsFlat() then 0 else p.avgEntryPrice)
            && Remainder(p, op) == 0
  {
  }

  lemma DriftSnoc(ops: seq<Op>, op: Op, side: Side)
    ensures Drift(ops + [op], side)
            == Drift(ops, side) + (if Adds(Run(ops), op) && op.side == side then Remainder(Run(ops), op) else 0)
  {
    hide Remainder, Step;
    assert (ops + [op])[..|ops|] == ops;
  }

  /** Fills of tracked symbols move each tracked symbol by its own fills. */
  lemma {:induction false} ReplayFills(t: Table<Position>, history: seq<Op>, es: seq<OrderEvent>, symbol: Name)
    requires Get(t, symbol) == Some(Run(history))
    requires forall i :: 0 <= i < |es| ==> es[i].IsFill() && Has(t, es[i].symbol)
    ensures var u := ReplayPositions(t, es);
            && Get(u, symbol) == Some(Run(history + FillsOf(es, symbol)))
            && Keys(u) == Keys(t)
  {
    if es == [] {
      assert history + FillsOf(es, symbol) == history;
    } else {
      hide ApplyFill, Run, Get;
      var init, e := es[..|es| - 1], es[|es| - 1];
      ReplayFills(t, history, init, symbol);
      var v := ReplayPositions(t, init);
      SameKeysHas(t, v, e.symbol);
      SameKeysHas(t, v, symbol);
      ApplyFillGet(v, e, symbol);
      KnownFillKeys(v, e);
      SomeHas(t, symbol, Run(history));
      if e.symbol == symbol {
        RunSnoc(history + FillsOf(init, symbol), FillOp(e));
        assert history + FillsOf(es, symbol) == (history + FillsOf(init, symbol)) + [FillOp(e)];
      } else {
        assert history + FillsOf(es, symbol) == history + FillsOf(init, symbol);
      }
    }
  }

  lemma SomeHas(t: Table<Position>, symbol: Name, p: Position)
    requires Get(t, symbol) == Some(p)
    ensures Has(t, symbol)
  {
  }

  lemma SameKeysHas(t: Table<Position>, u: Table<Position>, symbol: Name)
    requires Keys(t) == Keys(u)
    ensures Has(t, symbol) == Has(u, symbol)
  {
    HasIsMember(t, symbol);
    HasIsMember(u, symbol);
  }

  lemma KnownFillKeys(t: Table<Position>, e: OrderEvent)
    requires e.IsFill() && Has(t, e.symbol)
    ensures Keys(ApplyFill(t, e)) == Keys(t)
  {
    hide Step;
  }

  /** Nothing held, no book value and no open profit. */
  predicate IsZeroed(p: Position) {
    p.netQty == 0 && p.avgEntryPrice == 0 && p.unrealizedPnl == 0
  }

  /** What is left of a net quantity once the order for it, cast to 32 bits, is filled. */
  function LeftAfter(net: int): (left: int) {
    var closed := Max(0, ToInt32(Abs(net)));
    if net > 0 then net - closed else net + closed
  }

  /** Nothing is left exactly of quantities that the cast keeps; of others something is,
      up to all when the cast quantity is not positive. The position never turns around. */
  lemma LeftAfterIff(net: int)
    ensures LeftAfter(net) == 0 <==> Abs(net) < 0x8000_0000
    ensures LeftAfter(net) == net <==> ToInt32(Abs(net)) <= 0
    ensures Max(0, ToInt32(Abs(net))) <= Abs(net)
    ensures net >= 0 ==> 0 <= LeftAfter(net) <= net
    ensures net <= 0 ==> net <= LeftAfter(net) <= 0
  {
    CastExactIff(Abs(net));
    CastNoLarger(Abs(net));
  }

  lemma CastNoLarger(x: nat)
    ensures ToInt32(x) <= x
  {
  }

  /** What flattening makes of a position: it is reduced at its average, zeroed exactly when
      its quantity fits in 32 bits, and its rounding drift is what it was. */
  ghost predicate Flattened(q: Option<Position>, before: seq<Op>, after: seq<Op>) {
    var p := Run(before);
    && q == Some(Run(after))
    && q.value.netQty == LeftAfter(p.netQty)
    && q.value.avgEntryPrice == (if q.value.IsFlat() then 0 else p.avgEntryPrice)
    && (IsZeroed(q.value) <==> Abs(p.netQty) < 0x8000_0000)
    && Drift(after, Side.Buy) == Drift(before, Side.Buy)
    && Drift(after, Side.Sell) == Drift(before, Side.Sell)
  }

  /** From any state the tracker can be in: once the flatten orders are filled, in any split
      and interleaving, every position is flattened. */
  lemma FlattenCloses(ops: seq<TrackerOp>, prefix: string, es: seq<OrderEvent>, symbol: Name)
    requires Answer(es, FlattenOrders(Track(ops), prefix))
    requires Has(Track(ops), symbol)
    ensures var history := OpsFor(ops, symbol);
            Flattened(Get(ReplayPositions(Track(ops), es), symbol), history, history + FillsOf(es, symbol))
    ensures Get(Track(ops), symbol) == Some(Run(OpsFor(ops, symbol)))
    ensures Keys(ReplayPositions(Track(ops), es)) == Keys(Track(ops))
  {
    hide Track, OpsFor, FlattenOrders, Run, Drift, FillsOf, Quantity, ReplayPositions, Answer, Find, LeftAfter, ToInt32;
    var t, history := Track(ops), OpsFor(ops, symbol);
    TrackedSymbols(ops);
    TrackerLookup(ops, symbol);
    AnswerShape(t, prefix, es);
    ReplayFills(t, history, es, symbol);
    FillsAreClosing(t, prefix, es, Find(t, symbol));
    FillsFlatten(history, FillsOf(es, symbol));
  }

  lemma FillsFlatten(history: seq<Op>, fills: seq<Op>)
    requires ClosingFills(Run(history), fills)
    requires Run(history).IsFlat() ==> fills == []
    requires Quantity(fills) == Max(0, ToInt32(Abs(Run(history).netQty)))
    ensures Flattened(Some(Run(history + fills)), history, history + fills)
  {
    hide Run, Drift, Quantity, ToInt32;
    var p := Run(history);
    LeftAfterIff(p.netQty);
    AverageNonNegative(history);
    FlatShowsNoProfit(history + fills);
    if p.IsFlat() {
      assert history + fills == history;
    } else {
      CloseStepwise(history, fills);
    }
  }

  lemma AnswersAreFills(es: seq<OrderEvent>, ms: seq<MarketOrder>)
    requires Answer(es, ms)
    ensures forall n :: 0 <= n < |es| ==> es[n].IsFill() && es[n].fillQty >= 0
  {
    hide FillsOf, Quantity;
    forall n | 0 <= n < |es|
      ensures es[n].IsFill() && es[n].fillQty >= 0
    {
      assert AnswersOne(es[n], ms);
    }
  }

  lemma AnswerShape(t: Table<Position>, prefix: string, es: seq<OrderEvent>)
    requires Answer(es, FlattenOrders(t, prefix))
    ensures forall n :: 0 <= n < |es| ==> es[n].IsFill() && Has(t, es[n].symbol)
  {
    hide FlattenOrders, HeldSlots, Find, FillsOf;
    AnswersAreFills(es, FlattenOrders(t, prefix));
    forall n | 0 <= n < |es|
      ensures Has(t, es[n].symbol)
    {
      var i := OrderedSlot(t, prefix, es, n);
    }
  }

  /** The slot that a fill of the answer closes. */
  lemma OrderedSlot(t: Table<Position>, prefix: string, es: seq<OrderEvent>, n: nat) returns (i: nat)
    requires Answer(es, FlattenOrders(t, prefix)) && n < |es|
    ensures i < |t| && t[i].key == es[n].symbol && !t[i].body.IsFlat() && es[n].side == CloseSide(t[i].body)
    ensures Has(t, es[n].symbol)
  {
    hide FlattenOrders, HeldSlots, FillsOf;
    var ms, at := FlattenOrders(t, prefix), HeldSlots(t);
    OneOrderPerOpenPosition(t, prefix);
    assert AnswersOne(es[n], ms);
    var j :| 0 <= j < |ms| && Answers(es[n], ms[j]);
    i := at[j];
  }

  /** The fills of a held slot's symbol are on its closing side and add up to its order; a
      flat slot gets none. */
  lemma FillsAreClosing(t: Table<Position>, prefix: string, es: seq<OrderEvent>, i: nat)
    requires Distinct(t) && i < |t| && Answer(es, FlattenOrders(t, prefix))
    ensures ClosingFills(t[i].body, FillsOf(es, t[i].key))
    ensures t[i].body.IsFlat() ==> FillsOf(es, t[i].key) == []
    ensures Quantity(FillsOf(es, t[i].key)) == Max(0, ToInt32(Abs(t[i].body.netQty)))
  {
    hide FlattenOrders, HeldSlots, FillsOf, Quantity;
    AnswersAreFills(es, FlattenOrders(t, prefix));
    forall n | 0 <= n < |es| && es[n].symbol == t[i].key
      ensures !t[i].body.IsFlat() && es[n].side == CloseSide(t[i].body)
    {
      var k := OrderedSlot(t, prefix, es, n);
    }
    FillsInherit(t[i].body, es, t[i].key);
    if !t[i].body.IsFlat() {
      var ms, at := FlattenOrders(t, prefix), HeldSlots(t);
      OneOrderPerOpenPosition(t, prefix);
      var j :| 0 <= j < |at| && at[j] == i;
      assert ms[j] == OrderFor(t[i], prefix, j + 1);
    } else {
      NoQuantity();
    }
  }

  lemma NoQuantity()
    ensures Quantity([]) == 0 && ToInt32(0) == 0
  {
  }

  lemma {:induction false} FillsInherit(p: Position, es: seq<OrderEvent>, symbol: Name)
    requires forall n :: 0 <= n < |es| ==> es[n].IsFill() && es[n].fillQty >= 0
    requires forall n :: 0 <= n < |es| && es[n].symbol == symbol ==> !p.IsFlat() && es[n].side == CloseSide(p)
    ensures ClosingFills(p, FillsOf(es, symbol))
    ensures p.IsFlat() ==> FillsOf(es, symbol) == []
  {
    if es != [] {
      FillsInherit(p, es[..|es| - 1], symbol);
    }
  }

  lemma ConfirmIsCancels(es: seq<OrderEvent>, rs: seq<CancelRequest>)
    requires Confirm(es, rs)
    ensures forall i :: 0 <= i < |es| ==> es[i].kind == Cancel
  {
  }

  lemma {:induction false} CancelsMoveNoPosition(t: Table<Position>, es: seq<OrderEvent>)
    requires forall i :: 0 <= i < |es| ==> es[i].kind == Cancel
    ensures ReplayPositions(t, es) == t
  {
    if es != [] {
      CancelsMoveNoPosition(t, es[..|es| - 1]);
    }
  }

  lemma SameOrderKeys(t: Table<Order>, es: seq<OrderEvent>)
    requires Distinct(t) && forall i :: 0 <= i < |es| ==> es[i].kind == Cancel
    ensures forall id: Name :: Has(ReplayOrders(t, es), id) == Has(t, id)
  {
    hide ReplayOrders, Has;
    var u := ReplayOrders(t, es);
    ReplayCancels(t, es);
    assert Keys(u) == Keys(t);
    forall id: Name
      ensures Has(u, id) == Has(t, id)
    {
      HasIsMember(t, id);
      HasIsMember(u, id);
    }
  }

  lemma {:induction false} StrangersIgnored(t: Table<Order>, es: seq<OrderEvent>)
    requires forall i :: 0 <= i < |es| ==> es[i].IsFill() && !Has(t, es[i].orderId)
    ensures ReplayOrders(t, es) == t
  {
    if es != [] {
      hide ApplyOrder, Has;
      StrangersIgnored(t, es[..|es| - 1]);
      ApplyUnknown(t, es[|es| - 1]);
    }
  }

  /** Flatten orders are never entered among the orders of the gateway, so the order table
      does not know whose the fill is. */
  lemma FlattenIdUnknown(l: RiskLimits, steps: seq<GatewayStep>, t: Table<Position>, prefix: string, e: OrderEvent)
    requires ForeignPrefix(prefix) && AnswersOne(e, FlattenOrders(t, prefix))
    ensures !Has(GatewayRun(l, steps).book.orders, e.orderId)
    ensures Has(t, e.symbol)
  {
    hide GatewayRun, FlattenOrders, HeldSlots, NameOf, OrderId, Decimal, Find;
    var j := AnsweredOrder(t, prefix, e);
    if Has(GatewayRun(l, steps).book.orders, e.orderId) {
      KnownIsOrderId(l, steps, e.orderId);
      var c: nat :| e.orderId == OrderId(c);
      ForeignIdDiffers(prefix, j + 1, c);
    }
  }

  /** The flatten order that the fill is of, and the slot it closes. */
  lemma AnsweredOrder(t: Table<Position>, prefix: string, e: OrderEvent) returns (j: nat)
    requires AnswersOne(e, FlattenOrders(t, prefix))
    ensures e.orderId == NameOf(prefix + Decimal(j + 1)) && Has(t, e.symbol)
  {
    hide FlattenOrders, HeldSlots, NameOf, Decimal;
    var ms, at := FlattenOrders(t, prefix), HeldSlots(t);
    OneOrderPerOpenPosition(t, prefix);
    j :| 0 <= j < |ms| && Answers(e, ms[j]);
    assert ms[j] == OrderFor(t[at[j]], prefix, j + 1);
    assert t[at[j]].key == e.symbol;
  }

  /** Every slot of the table after flattening, in terms of the slot before. */
  ghost predicate SlotsFlattened(t: Table<Position>, u: Table<Position>) {
    && Keys(u) == Keys(t)
    && forall i :: 0 <= i < |t| ==>
         && u[i].body.netQty == LeftAfter(t[i].body.netQty)
         && (IsZeroed(u[i].body) <==> Abs(t[i].body.netQty) < 0x8000_0000)
  }

  lemma FlattenedAfter(ops: seq<TrackerOp>, prefix: string, es: seq<OrderEvent>)
    requires Answer(es, FlattenOrders(Track(ops), prefix))
    ensures SlotsFlattened(Track(ops), ReplayPositions(Track(ops), es))
  {
    hide Track, FlattenOrders, ReplayPositions, Answer, OpsFor, Run, Drift, IsZeroed, LeftAfter;
    var t, u := Track(ops), ReplayPositions(Track(ops), es);
    if t == [] {
      AnswerShape(t, prefix, es);
      NothingToFill(t, es);
    } else {
      assert Has(t, t[0].key);
      FlattenCloses(ops, prefix, es, t[0].key);
      TrackedSymbols(ops);
      SameKeysDistinct(t, u);
      forall i | 0 <= i < |t|
        ensures u[i].body.netQty == LeftAfter(t[i].body.netQty)
        ensures IsZeroed(u[i].body) <==> Abs(t[i].body.netQty) < 0x8000_0000
      {
        assert Keys(u)[i] == Keys(t)[i];
        FindAt(t, i);
        FindAt(u, i);
        FlattenCloses(ops, prefix, es, t[i].key);
      }
    }
  }

  lemma SameKeysDistinct(t: Table<Position>, u: Table<Position>)
    requires Keys(t) == Keys(u) && Distinct(t)
    ensures Distinct(u)
  {
    forall i, j | 0 <= i < j < |u|
      ensures u[i].key != u[j].key
    {
      assert Keys(t)[i] != Keys(t)[j];
    }
  }

  lemma NothingToFill(t: Table<Position>, es: seq<OrderEvent>)
    requires t == [] && forall n :: 0 <= n < |es| ==> Has(t, es[n].symbol)
    ensures ReplayPositions(t, es) == []
  {
    assert es == [] || !Has(t, es[0].symbol);
  }

  lemma FlattenedNet(t: Table<Position>, u: Table<Position>, symbol: Name)
    requires SlotsFlattened(t, u)
    ensures NetQty(u, symbol) == LeftAfter(NetQty(t, symbol))
  {
    hide LeftAfter, IsZeroed;
    SameKeysFind(t, u, symbol);
    LeftAfterIff(0);
  }

  lemma SameKeysFind(t: Table<Position>, u: Table<Position>, symbol: Name)
    requires Keys(t) == Keys(u)
    ensures Find(t, symbol) == Find(u, symbol)
  {
    assert |t| == |Keys(t)| == |u|;
    assert forall i :: 0 <= i < |t| ==> t[i].key == Keys(t)[i] == u[i].key;
  }

  /** The book after the cancels are confirmed and the flatten orders filled. */
  function Shutdown(b: Book, cancels: seq<OrderEvent>, fills: seq<OrderEvent>): (after: Book) {
    ReplayBook(ReplayBook(b, cancels), fills)
  }

  /** The exchange has answered everything the kill switch sent: first the cancels, then the
      orders that flatten what is held when they are confirmed. */
  ghost predicate Answered(b: Book, prefixes: (string, string), cancels: seq<OrderEvent>, fills: seq<OrderEvent>) {
    && Confirm(cancels, CancelRequests(b.orders, prefixes.0))
    && Answer(fills, FlattenOrders(ReplayBook(b, cancels).positions, prefixes.1))
  }

  /** What the two answers do to the two tables: the cancels touch orders alone, the fills
      positions alone. */
  lemma ShutdownParts(l: RiskLimits, steps: seq<GatewayStep>, prefixes: (string, string),
                      cancels: seq<OrderEvent>, fills: seq<OrderEvent>)
    requires ForeignPrefix(prefixes.1) && Answered(GatewayRun(l, steps).book, prefixes, cancels, fills)
    ensures var b := GatewayRun(l, steps).book;
            && ReplayBook(b, cancels) == Book(b.positions, ReplayOrders(b.orders, cancels))
            && Shutdown(b, cancels, fills) == Book(ReplayPositions(b.positions, fills), ReplayOrders(b.orders, cancels))
  {
    hide GatewayRun, ReplayBook, ReplayOrders, ReplayPositions, CancelRequests, FlattenOrders, ForeignPrefix,
         Confirm, Distinct, Has;
    var b := GatewayRun(l, steps).book;
    var b1 := ReplayBook(b, cancels);
    ReplayBookIsBothReplays(b, cancels);
    ReplayBookIsBothReplays(b1, fills);
    ConfirmIsCancels(cancels, CancelRequests(b.orders, prefixes.0));
    CancelsMoveNoPosition(b.positions, cancels);
    OrdersDistinct(l, steps);
    SameOrderKeys(b.orders, cancels);
    AnswersAreFills(fills, FlattenOrders(b.positions, prefixes.1));
    forall i | 0 <= i < |fills|
      ensures !Has(b1.orders, fills[i].orderId)
    {
      FlattenIdUnknown(l, steps, b.positions, prefixes.1, fills[i]);
    }
    StrangersIgnored(b1.orders, fills);
  }

  /** From every state the gateway can be in, conforming or not: cancel everything, wait for
      the confirmations, flatten, wait for the fills. Then no order is open, finished orders
      are as they were, and exactly the positions below 2^31 shares are zeroed; the true
      exposure of a symbol is what the 32-bit cast left of its position. */
  lemma KillSwitchLeavesNothing(l: RiskLimits, steps: seq<GatewayStep>, prefixes: (string, string),
                                cancels: seq<OrderEvent>, fills: seq<OrderEvent>)
    requires ForeignPrefix(prefixes.1) && Answered(GatewayRun(l, steps).book, prefixes, cancels, fills)
    ensures var b := GatewayRun(l, steps).book;
            var after := Shutdown(b, cancels, fills);
            && |after.orders| == |b.orders|
            && (forall i :: 0 <= i < |after.orders| ==> !after.orders[i].body.IsOpen())
            && (forall i :: 0 <= i < |b.orders| && !b.orders[i].body.IsOpen() ==> after.orders[i] == b.orders[i])
            && SlotsFlattened(b.positions, after.positions)
            && forall symbol: Name ::
                 && TrueExposure(after, symbol) == LeftAfter(NetQty(b.positions, symbol))
                 && (TrueExposure(after, symbol) == 0 <==> Abs(NetQty(b.positions, symbol)) < 0x8000_0000)
  {
    hide GatewayRun, Track, CancelRequests, FlattenOrders, ReplayBook, ReplayOrders, ReplayPositions, Total,
         Confirm, Answer, Distinct, ForeignPrefix, Shutdown, NetQty, SlotsFlattened, LeftAfter;
    var b := GatewayRun(l, steps).book;
    var after := Shutdown(b, cancels, fills);
    ShutdownParts(l, steps, prefixes, cancels, fills);
    OrdersDistinct(l, steps);
    CancelAllClears(b.orders, prefixes.0, cancels);
    RunTracked(l, steps);
    var ops :| b.positions == Track(ops);
    FlattenedAfter(ops, prefixes.1, fills);
    forall symbol: Name
      ensures TrueExposure(after, symbol) == LeftAfter(NetQty(b.positions, symbol))
      ensures TrueExposure(after, symbol) == 0 <==> Abs(NetQty(b.positions, symbol)) < 0x8000_0000
    {
      FlattenedNet(b.positions, after.positions, symbol);
      LeftAfterIff(NetQty(b.positions, symbol));
    }
  }

  // ---- The kill switch and the two projections ----

  lemma {:induction false} CancelsKeepAgreement(b: Book, es: seq<OrderEvent>)
    requires Agrees(b) && forall i :: 0 <= i < |es| ==> es[i].kind == Cancel
    ensures Agrees(ReplayBook(b, es))
  {
    if es != [] {
      hide ApplyToBook, Agrees;
      CancelsKeepAgreement(b, es[..|es| - 1]);
      AgreementIff(ReplayBook(b, es[..|es| - 1]), es[|es| - 1]);
    }
  }

  /** The flatten fills reach the positions and no order: each symbol is apart afterwards by
      the quantity that was flattened, and the projections agree exactly when no flatten
      order asked for anything. */
  lemma KillSwitchAgreementIff(l: RiskLimits, steps: seq<GatewayStep>, prefixes: (string, string),
                               cancels: seq<OrderEvent>, fills: seq<OrderEvent>)
    requires ForeignPrefix(prefixes.1) && Answered(GatewayRun(l, steps).book, prefixes, cancels, fills)
    requires Agrees(GatewayRun(l, steps).book)
    ensures var b := GatewayRun(l, steps).book;
            var after := Shutdown(b, cancels, fills);
            && (forall symbol: Name ::
                  Gap(after, symbol) == LeftAfter(NetQty(b.positions, symbol)) - NetQty(b.positions, symbol))
            && (Agrees(after) <==> forall symbol: Name :: ToInt32(Abs(NetQty(b.positions, symbol))) <= 0)
  {
    hide GatewayRun, CancelRequests, FlattenOrders, ReplayBook, ReplayOrders, ReplayPositions, Total,
         Confirm, Answer, ForeignPrefix, Shutdown, NetQty, SlotsFlattened, LeftAfter, ToInt32;
    var b := GatewayRun(l, steps).book;
    var after := Shutdown(b, cancels, fills);
    ShutdownParts(l, steps, prefixes, cancels, fills);
    KillSwitchLeavesNothing(l, steps, prefixes, cancels, fills);
    ConfirmIsCancels(cancels, CancelRequests(b.orders, prefixes.0));
    CancelsKeepAgreement(b, cancels);
    forall symbol: Name
      ensures Gap(after, symbol) == LeftAfter(NetQty(b.positions, symbol)) - NetQty(b.positions, symbol)
      ensures Gap(after, symbol) == 0 <==> ToInt32(Abs(NetQty(b.positions, symbol))) <= 0
    {
      FlattenedNet(b.positions, after.positions, symbol);
      LeftAfterIff(NetQty(b.positions, symbol));
      assert Gap(ReplayBook(b, cancels), symbol) == 0;
    }
  }

  /** Already the first fill of a flatten order takes them apart. */
  lemma FlattenBreaksAgreement(l: RiskLimits, steps: seq<GatewayStep>, prefix: string, e: OrderEvent)
    requires ForeignPrefix(prefix) && AnswersOne(e, FlattenOrders(GatewayRun(l, steps).book.positions, prefix))
    requires Agrees(GatewayRun(l, steps).book) && e.fillQty != 0
    ensures !Agrees(ApplyToBook(GatewayRun(l, steps).book, e))
  {
    hide GatewayRun, Agrees, ApplyToBook, FlattenOrders, Has, ForeignPrefix;
    var b := GatewayRun(l, steps).book;
    FlattenIdUnknown(l, steps, b.positions, prefix, e);
    AgreementIff(b, e);
  }

  // ---- The class ----

  class Killswitch {
    const orders: OrderManager
    const tracker: PositionTracker
    var armed: bool

    constructor (orders: OrderManager, tracker: PositionTracker)
      ensures this.orders == orders && this.tracker == tracker && !armed
    {
      this.orders, this.tracker, armed := orders, tracker, false;
    }

    method Arm()
      modifies this
      ensures armed
    {
      armed := true;
    }

    /** `execute` cancels; flattening is left to its caller. */
    method Execute(prefix: string) returns (sent: seq<CancelRequest>)
      requires orders.Valid()
      ensures sent == CancelRequests(orders.Contents(), prefix)
    {
      sent := CancelAll(prefix);
    }

    method CancelAll(prefix: string) returns (sent: seq<CancelRequest>)
      requires orders.Valid()
      ensures sent == CancelRequests(orders.Contents(), prefix)
    {
      hide Decimal;
      sent := [];
      var n := 0;
      for i := 0 to orders.count
        invariant n == |sent|
        invariant sent == CancelRequests(orders.Contents()[..i], prefix)
      {
        assert orders.Contents()[..i + 1][..i] == orders.Contents()[..i];
        var slot := orders.slots[i];
        if slot.body.IsOpen() {
          n := n + 1;
          sent := sent + [CancelRequest(slot.key, prefix + Decimal(n), slot.body.symbol, slot.body.side)];
        }
      }
      assert orders.Contents()[..orders.count] == orders.Contents();
    }

    method Flatten(prefix: string) returns (sent: seq<MarketOrder>)
      requires tracker.Valid()
      ensures sent == FlattenOrders(tracker.Contents(), prefix)
    {
      hide Decimal, NameOf, ToInt32;
      sent := [];
      var n := 0;
      for i := 0 to tracker.count
        invariant n == |sent|
        invariant sent == FlattenOrders(tracker.Contents()[..i], prefix)
      {
        assert tracker.Contents()[..i + 1][..i] == tracker.Contents()[..i];
        var slot := tracker.slots[i];
        if slot.body.IsFlat() {
          continue;
        }
        n := n + 1;
        var side := if slot.body.netQty > 0 then Side.Sell else Side.Buy;
        var qty := ToInt32(if slot.body.netQty > 0 then slot.body.netQty else -slot.body.netQty);
        sent := sent + [MarketOrder(NameOf(prefix + Decimal(n)), slot.key, side, qty)];
      }
      assert tracker.Contents()[..tracker.count] == tracker.Contents();
    }
  }
}
