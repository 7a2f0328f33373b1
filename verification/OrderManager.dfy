/**
 The order projection (include/OrderManager.h): the table of orders as a function of
 the events applied to it, the sums over its slots, and the class that keeps it in a
 flat array.
 */
module OrderManagers {
  import opened Arithmetic
  import opened EventLogs
  import opened FlatTable
  import opened OrderEvents
  import opened Orders
  import opened Positions
  import opened PositionSymmetry
  import opened Wrappers

  const MAX_ORDERS: nat := 512

  const ZERO_ORDER_SLOT: Slot<Order> := Slot(BLANK_NAME, BLANK_ORDER)

  /** `apply_event`: a new order takes or resets its slot if there is one; anything else
      concerns a known order or nobody. */
  function ApplyOrder(t: Table<Order>, e: OrderEvent): (u: Table<Order>) {
    var u := if e.kind == NewOrder then Ensure(t, e.orderId, MAX_ORDERS, BLANK_ORDER) else t;
    if Has(u, e.orderId) then Put(u, e.orderId, OrderStep(u[Find(u, e.orderId)].body, e)) else u
  }

  /** The table after replaying events into t. */
  function ReplayOrders(t: Table<Order>, es: seq<OrderEvent>): (u: Table<Order>) {
    if es == [] then t else ApplyOrder(ReplayOrders(t, es[..|es| - 1]), es[|es| - 1])
  }

  lemma ApplyOrderGet(t: Table<Order>, e: OrderEvent, id: Name)
    ensures Get(ApplyOrder(t, e), id)
            == if e.orderId != id then Get(t, id)
               else if Has(t, id) then Some(OrderStep(Get(t, id).value, e))
               else if e.kind == NewOrder && |t| < MAX_ORDERS then Some(Opened(e))
               else None
    ensures Distinct(t) ==> Distinct(ApplyOrder(t, e))
    ensures |t| <= MAX_ORDERS ==> |ApplyOrder(t, e)| <= MAX_ORDERS
  {
    var u := if e.kind == NewOrder then Ensure(t, e.orderId, MAX_ORDERS, BLANK_ORDER) else t;
    EnsureGet(t, e.orderId, MAX_ORDERS, BLANK_ORDER, id);
    EnsureGet(t, e.orderId, MAX_ORDERS, BLANK_ORDER, e.orderId);
    if Has(u, e.orderId) {
      PutGet(u, e.orderId, OrderStep(u[Find(u, e.orderId)].body, e), id);
      hide AfterFill;
    }
  }

  // ---- The flat table refines a map from ids to orders ----

  /** What the events say about one order id: nothing until its first new-order event. */
  function OrderView(es: seq<OrderEvent>, id: Name): (o: Option<Order>) {
    if es == [] then None
    else
      var before, e := OrderView(es[..|es| - 1], id), es[|es| - 1];
      if e.orderId != id then before
      else if e.kind == NewOrder then Some(Opened(e))
      else if before.Some? then Some(OrderStep(before.value, e))
      else None
  }

  function NewId(e: OrderEvent): (ids: seq<Name>) {
    if e.kind == NewOrder then [e.orderId] else []
  }

  /** The ids of the new-order events, in order. */
  function NewIds(es: seq<OrderEvent>): (ids: seq<Name>) {
    if es == [] then [] else NewIds(es[..|es| - 1]) + NewId(es[|es| - 1])
  }

  lemma OrderKeysStep(t: Table<Order>, xs: seq<Name>, e: OrderEvent)
    requires Keys(t) == Admitted(xs, MAX_ORDERS)
    ensures Keys(ApplyOrder(t, e)) == Admitted(xs + NewId(e), MAX_ORDERS)
  {
    hide OrderStep, Admitted;
    if e.kind == NewOrder {
      EnsureKeys(t, xs, e.orderId, MAX_ORDERS, BLANK_ORDER);
    } else {
      assert xs + NewId(e) == xs;
    }
  }

  /** The slots belong to the first 512 distinct new order ids, in the order they came. */
  lemma {:induction false} TrackedOrders(es: seq<OrderEvent>)
    ensures Keys(ReplayOrders([], es)) == Admitted(NewIds(es), MAX_ORDERS)
    ensures Distinct(ReplayOrders([], es)) && |ReplayOrders([], es)| <= MAX_ORDERS
  {
    if es != [] {
      hide ApplyOrder, Admitted, NewId, Keys;
      TrackedOrders(es[..|es| - 1]);
      OrderKeysStep(ReplayOrders([], es[..|es| - 1]), NewIds(es[..|es| - 1]), es[|es| - 1]);
    } else {
      assert Keys(ReplayOrders([], es)) == [];
    }
    DistinctKeys(ReplayOrders([], es), NewIds(es), MAX_ORDERS);
  }

  /** `get` after any stream of events: an order with a slot stands where its own events
      have put it, and the ids that came too late are unknown. */
  lemma {:induction false} OrdersRefineMap(es: seq<OrderEvent>, id: Name)
    ensures Get(ReplayOrders([], es), id) == if id in Admitted(NewIds(es), MAX_ORDERS) then OrderView(es, id) else None
    ensures id in Admitted(NewIds(es), MAX_ORDERS) ==> OrderView(es, id).Some?
  {
    TrackedOrders(es);
    HasIsMember(ReplayOrders([], es), id);
    if es != [] {
      hide Admitted, Keys, ApplyOrder, NewIds, OrderStep, Opened;
      var init, e := es[..|es| - 1], es[|es| - 1];
      OrdersRefineMap(init, id);
      ApplyOrderGet(ReplayOrders([], init), e, id);
    }
  }

  // ---- What a slot says about the log ----

  /** Quantity of the fills of an id after event n. */
  function FilledSince(es: seq<OrderEvent>, id: Name, n: nat): (total: int) {
    if |es| <= n + 1 then 0
    else
      var e := es[|es| - 1];
      FilledSince(es[..|es| - 1], id, n) + (if e.IsFill() && e.orderId == id then e.fillQty else 0)
  }

  /** The fills of an id since its last new order. */
  function FillsSince(es: seq<OrderEvent>, id: Name): (fills: seq<OrderEvent>) {
    if es == [] then []
    else
      var rest, e := FillsSince(es[..|es| - 1], id), es[|es| - 1];
      if e.orderId != id then rest
      else if e.kind == NewOrder then []
      else if e.IsFill() then rest + [e]
      else rest
  }

  /** The quantity the id asks for: its last new order's, or a positive one it was amended to. */
  function QtyOf(es: seq<OrderEvent>, id: Name): (qty: int) {
    if es == [] then 0
    else
      var e := es[|es| - 1];
      if e.orderId == id && (e.kind == NewOrder || (e.kind == Amend && e.qty > 0)) then e.qty
      else QtyOf(es[..|es| - 1], id)
  }

  /** Its limit price, in the same way. */
  function LimitOf(es: seq<OrderEvent>, id: Name): (price: int) {
    if es == [] then 0
    else
      var e := es[|es| - 1];
      if e.orderId == id && (e.kind == NewOrder || (e.kind == Amend && e.price > 0)) then e.price
      else LimitOf(es[..|es| - 1], id)
  }

  /** Its state: the last event of the id other than an amend decides. */
  function StateOf(es: seq<OrderEvent>, id: Name): (state: OrderState) {
    if es == [] then Zeroed
    else
      var e := es[|es| - 1];
      if e.orderId != id || e.kind == Amend then StateOf(es[..|es| - 1], id)
      else if e.kind == NewOrder then Pending
      else if e.kind == Cancel then Cancelled
      else if e.kind == Reject then Rejected
      else if QtyOf(es, id) <= FilledTotal(FillsSince(es, id)) then Filled
      else PartiallyFilled
  }

  /** The stored average of these fills: 0 for none; otherwise the floor of the exact one or
      at most n - 2 ticks below, between the cheapest fill and the dearest. */
  ghost predicate AverageOf(avg: int, fills: seq<OrderEvent>) {
    var n := |FillPrices(fills)|;
    if n == 0 then avg == 0
    else
      && FilledTotal(fills) > 0
      && TruncDiv(FillCost(fills), FilledTotal(fills)) - Max(0, n - 2) <= avg
      && avg <= TruncDiv(FillCost(fills), FilledTotal(fills))
      && Within(FillPrices(fills), avg)
  }

  /** The order is the record of the log's events for its id: opened by the last new-order
      event, with that event's terms unless amended, filled by what came since, and last
      touched by the last event of all. */
  ghost predicate Records(o: Order, es: seq<OrderEvent>, id: Name) {
    && o.openedSeq <= o.lastSeq < |es|
    && es[o.openedSeq].kind == NewOrder && es[o.openedSeq].orderId == id && es[o.lastSeq].orderId == id
    && (forall m :: o.openedSeq < m < |es| && es[m].orderId == id ==> es[m].kind != NewOrder)
    && (forall m :: o.lastSeq < m < |es| ==> es[m].orderId != id)
    && o.symbol == es[o.openedSeq].symbol && o.side == es[o.openedSeq].side
    && o.filledQty == FilledSince(es, id, o.openedSeq)
    && ((forall m :: o.openedSeq < m < |es| && es[m].orderId == id ==> es[m].kind != Amend) ==>
          o.originalQty == es[o.openedSeq].qty && o.limitPrice == es[o.openedSeq].price)
    && Accounts(o, es, id)
  }

  /** The rest of the record, which needs no sequence numbers. */
  ghost predicate Accounts(o: Order, es: seq<OrderEvent>, id: Name) {
    && o.originalQty == QtyOf(es, id) && o.limitPrice == LimitOf(es, id)
    && o.state == StateOf(es, id)
    && o.filledQty == FilledTotal(FillsSince(es, id))
    && (Priced(FillsSince(es, id)) ==> AverageOf(o.avgFillPrice, FillsSince(es, id)))
  }

  /** Quantity and average are the fold of the fills from nothing; amends, cancels and
      rejects leave them. */
  lemma {:induction false} FilledByFills(es: seq<OrderEvent>, id: Name)
    requires OrderView(es, id).Some?
    ensures var o, f := OrderView(es, id).value, Fills(BLANK_ORDER, FillsSince(es, id));
            && o.filledQty == f.filledQty == FilledTotal(FillsSince(es, id))
            && o.avgFillPrice == f.avgFillPrice
            && o.originalQty == QtyOf(es, id) && o.limitPrice == LimitOf(es, id)
  {
    hide Averaged;
    var init, e := es[..|es| - 1], es[|es| - 1];
    if e.orderId != id {
      FilledByFills(init, id);
    } else if e.kind == NewOrder {
      assert FillsSince(es, id) == [];
    } else {
      FilledByFills(init, id);
      if e.IsFill() {
        var fills := FillsSince(init, id);
        assert FillsSince(es, id) == fills + [e];
        assert (fills + [e])[..|fills|] == fills;
      }
    }
  }

  lemma {:induction false} StateByEvents(es: seq<OrderEvent>, id: Name)
    requires OrderView(es, id).Some?
    ensures OrderView(es, id).value.state == StateOf(es, id)
  {
    hide Averaged;
    var init, e := es[..|es| - 1], es[|es| - 1];
    if e.orderId != id || e.kind != NewOrder {
      StateByEvents(init, id);
    }
    if e.orderId == id && e.IsFill() {
      FilledByFills(init, id);
      FilledByFills(es, id);
      hide FillsSince, FilledTotal, Fills;
    }
  }

  lemma AverageByFills(fills: seq<OrderEvent>)
    requires Priced(fills)
    ensures AverageOf(Fills(BLANK_ORDER, fills).avgFillPrice, fills)
  {
    hide Fills, FillCost, FilledTotal, Within, TruncDiv, AfterFill;
    FillShortfall(BLANK_ORDER, fills);
    if FillPrices(fills) != [] {
      AverageFillDrift(BLANK_ORDER, fills);
      AverageFillWithin(BLANK_ORDER, fills);
    }
  }

  /** Every order of the table, after any events: what it asks for, its state, what it has
      filled and at which average, in terms of the events of its id alone. */
  lemma OrderAccounts(es: seq<OrderEvent>, id: Name)
    requires OrderView(es, id).Some?
    ensures Accounts(OrderView(es, id).value, es, id)
  {
    hide OrderView, FillsSince, QtyOf, LimitOf, StateOf, Fills, AverageOf, FilledTotal;
    FilledByFills(es, id);
    StateByEvents(es, id);
    if Priced(FillsSince(es, id)) {
      AverageByFills(FillsSince(es, id));
    }
  }

  lemma OrderRecord(es: seq<OrderEvent>, id: Name)
    requires Sequenced(es) && OrderView(es, id).Some?
    ensures Records(OrderView(es, id).value, es, id)
  {
    hide OrderView, Accounts, FilledSince;
    OrderAccounts(es, id);
    OrderTerms(es, id);
  }

  ghost predicate RecordsTerms(o: Order, es: seq<OrderEvent>, id: Name) {
    Accounts(o, es, id) ==> Records(o, es, id)
  }

  lemma {:induction false} OrderTerms(es: seq<OrderEvent>, id: Name)
    requires Sequenced(es) && OrderView(es, id).Some?
    ensures RecordsTerms(OrderView(es, id).value, es, id)
  {
    if es != [] {
      hide OrderStep, Opened, RecordsTerms;
      var init, e := es[..|es| - 1], es[|es| - 1];
      if e.orderId == id && e.kind == NewOrder {
        OpenedRecords(es, id);
      } else {
        OrderTerms(init, id);
        OrderAccounts(init, id);
        if e.orderId == id {
          StepRecords(OrderView(init, id).value, es, id);
        } else {
          OtherRecords(OrderView(init, id).value, es, id);
        }
      }
    }
  }

  lemma OpenedRecords(es: seq<OrderEvent>, id: Name)
    requires Sequenced(es) && es != [] && es[|es| - 1].kind == NewOrder && es[|es| - 1].orderId == id
    ensures RecordsTerms(Opened(es[|es| - 1]), es, id)
  {
    hide Accounts;
  }

  lemma OtherRecords(o: Order, es: seq<OrderEvent>, id: Name)
    requires es != [] && es[|es| - 1].orderId != id
    requires RecordsTerms(o, es[..|es| - 1], id) && Accounts(o, es[..|es| - 1], id)
    ensures RecordsTerms(o, es, id)
  {
    hide Accounts;
    var init := es[..|es| - 1];
    assert forall m :: 0 <= m < |init| ==> init[m] == es[m];
  }

  lemma StepRecords(o: Order, es: seq<OrderEvent>, id: Name)
    requires Sequenced(es) && es != [] && es[|es| - 1].orderId == id && es[|es| - 1].kind != NewOrder
    requires RecordsTerms(o, es[..|es| - 1], id) && Accounts(o, es[..|es| - 1], id)
    ensures RecordsTerms(OrderStep(o, es[|es| - 1]), es, id)
  {
    hide Averaged, Accounts;
    var init, e := es[..|es| - 1], es[|es| - 1];
    assert forall m :: 0 <= m < |init| ==> init[m] == es[m];
    assert OrderStep(o, e).lastSeq == |es| - 1;
  }

  // ---- Sums over the slots of one symbol ----

  /** `OpenExposure` is the source's; the others are what it is compared with. `LostBuys`
      and `LostSells` count what cancelled and rejected orders left unfilled. */
  datatype Metric = OpenExposure | FilledNet | OpenBuys | OpenSells | LostBuys | LostSells

  function Signed(side: Side, qty: int): (signed: int) {
    if side == Side.Buy then qty else -qty
  }

  function Weight(m: Metric, o: Order, symbol: Name): (w: int) {
    if o.symbol != symbol then 0
    else
      var lost := o.state == Cancelled || o.state == Rejected;
      match m
      case OpenExposure => if o.IsOpen() then Signed(o.side, o.Remaining()) else 0
      case FilledNet => Signed(o.side, o.filledQty)
      case OpenBuys => if o.IsOpen() && o.side == Side.Buy then o.Remaining() else 0
      case OpenSells => if o.IsOpen() && o.side == Side.Sell then o.Remaining() else 0
      case LostBuys => if lost && o.side == Side.Buy then o.Remaining() else 0
      case LostSells => if lost && o.side == Side.Sell then o.Remaining() else 0
  }

  function Total(m: Metric, t: Table<Order>, symbol: Name): (total: int) {
    if t == [] then 0 else Total(m, t[..|t| - 1], symbol) + Weight(m, t[|t| - 1].body, symbol)
  }

  /** Rewriting one slot moves a sum by the change of that slot's own weight. */
  lemma {:induction false} TotalUpdate(m: Metric, t: Table<Order>, i: nat, slot: Slot<Order>, symbol: Name)
    requires i < |t|
    ensures Total(m, t[i := slot], symbol)
            == Total(m, t, symbol) - Weight(m, t[i].body, symbol) + Weight(m, slot.body, symbol)
  {
    hide Weight;
    var u := t[i := slot];
    if i == |t| - 1 {
      assert u[..|u| - 1] == t[..|t| - 1];
    } else {
      assert u[..|u| - 1] == t[..|t| - 1][i := slot];
      TotalUpdate(m, t[..|t| - 1], i, slot, symbol);
    }
  }

  lemma TotalAppend(m: Metric, t: Table<Order>, slot: Slot<Order>, symbol: Name)
    ensures Total(m, t + [slot], symbol) == Total(m, t, symbol) + Weight(m, slot.body, symbol)
  {
    assert (t + [slot])[..|t|] == t;
  }

  /** An event moves a sum by what it does to the order it names. */
  lemma TotalStep(m: Metric, t: Table<Order>, e: OrderEvent, symbol: Name)
    ensures Total(m, ApplyOrder(t, e), symbol)
            == Total(m, t, symbol)
               + (if Has(t, e.orderId) then
                    var o := Get(t, e.orderId).value;
                    Weight(m, OrderStep(o, e), symbol) - Weight(m, o, symbol)
                  else if e.kind == NewOrder && |t| < MAX_ORDERS then Weight(m, Opened(e), symbol)
                  else 0)
  {
    hide ApplyOrder, OrderStep, Weight, Opened;
    if Has(t, e.orderId) {
      ApplyKnown(t, e);
      TotalUpdate(m, t, Find(t, e.orderId), Slot(e.orderId, OrderStep(Get(t, e.orderId).value, e)), symbol);
    } else {
      ApplyUnknown(t, e);
      TotalAppend(m, t, Slot(e.orderId, Opened(e)), symbol);
    }
  }

  /** The slot of a known order is rewritten in place. */
  lemma ApplyKnown(t: Table<Order>, e: OrderEvent)
    requires Has(t, e.orderId)
    ensures ApplyOrder(t, e) == t[Find(t, e.orderId) := Slot(e.orderId, OrderStep(Get(t, e.orderId).value, e))]
  {
    hide OrderStep;
  }

  /** An unknown order gets a slot at the end if the event opens it and there is room. */
  lemma ApplyUnknown(t: Table<Order>, e: OrderEvent)
    requires !Has(t, e.orderId)
    ensures ApplyOrder(t, e)
            == if e.kind == NewOrder && |t| < MAX_ORDERS then t + [Slot(e.orderId, Opened(e))] else t
  {
    if e.kind == NewOrder && |t| < MAX_ORDERS {
      var u := t + [Slot(e.orderId, BLANK_ORDER)];
      assert u[|t|].key == e.orderId;
      assert forall j :: 0 <= j < |t| ==> u[j] == t[j];
      assert Find(u, e.orderId) == |t|;
      assert OrderStep(BLANK_ORDER, e) == Opened(e);
      hide OrderStep;
    }
  }

  // ---- Replay ----

  /** An order without its sequence numbers. */
  function OrderCore(o: Order): (core: Order) {
    o.(openedSeq := 0, lastSeq := 0)
  }

  function OrderCoreTable(t: Table<Order>): (u: Table<Order>)
    ensures |u| == |t|
    ensures forall i :: 0 <= i < |t| ==> u[i] == Slot(t[i].key, OrderCore(t[i].body))
  {
    seq(|t|, i requires 0 <= i < |t| => Slot(t[i].key, OrderCore(t[i].body)))
  }

  lemma FindOrderCore(t: Table<Order>, k: Name)
    ensures Find(OrderCoreTable(t), k) == Find(t, k)
  {
    var u := OrderCoreTable(t);
    assert Has(t, k) ==> u[Find(t, k)].key == k;
  }

  lemma OrderCoreStep(o: Order, p: Order, e: OrderEvent, f: OrderEvent)
    requires OrderCore(o) == OrderCore(p) && Unstamped(e) == Unstamped(f)
    ensures OrderCore(OrderStep(o, e)) == OrderCore(OrderStep(p, f))
    ensures OrderCore(Opened(e)) == OrderCore(Opened(f))
  {
    hide Averaged;
  }

  lemma OrderCoreApply(t: Table<Order>, u: Table<Order>, e: OrderEvent, f: OrderEvent)
    requires OrderCoreTable(t) == OrderCoreTable(u) && Unstamped(e) == Unstamped(f)
    ensures OrderCoreTable(ApplyOrder(t, e)) == OrderCoreTable(ApplyOrder(u, f))
  {
    hide ApplyOrder, OrderStep, Opened;
    FindOrderCore(t, e.orderId);
    FindOrderCore(u, e.orderId);
    assert e.orderId == f.orderId && e.kind == f.kind;
    if Has(t, e.orderId) {
      var i := Find(t, e.orderId);
      assert OrderCoreTable(t)[i] == OrderCoreTable(u)[i];
      OrderCoreStep(t[i].body, u[i].body, e, f);
      ApplyKnown(t, e);
      ApplyKnown(u, f);
      assert OrderCoreTable(t[i := Slot(e.orderId, OrderStep(t[i].body, e))])
          == OrderCoreTable(t)[i := Slot(e.orderId, OrderCore(OrderStep(t[i].body, e)))];
      assert OrderCoreTable(u[i := Slot(e.orderId, OrderStep(u[i].body, f))])
          == OrderCoreTable(u)[i := Slot(e.orderId, OrderCore(OrderStep(u[i].body, f)))];
    } else {
      OrderCoreStep(BLANK_ORDER, BLANK_ORDER, e, f);
      ApplyUnknown(t, e);
      ApplyUnknown(u, f);
      assert OrderCoreTable(t + [Slot(e.orderId, Opened(e))]) == OrderCoreTable(t) + [Slot(e.orderId, OrderCore(Opened(e)))];
      assert OrderCoreTable(u + [Slot(f.orderId, Opened(f))]) == OrderCoreTable(u) + [Slot(f.orderId, OrderCore(Opened(f)))];
    }
  }

  /** Sequence numbers do not enter any sum. */
  lemma {:induction false} TotalOfCore(m: Metric, t: Table<Order>, symbol: Name)
    ensures Total(m, OrderCoreTable(t), symbol) == Total(m, t, symbol)
  {
    if t != [] {
      var init := t[..|t| - 1];
      assert OrderCoreTable(t)[..|t| - 1] == OrderCoreTable(init);
      TotalOfCore(m, init, symbol);
    }
  }

  lemma ReplayNext(es: seq<OrderEvent>, i: nat)
    requires i < |es|
    ensures ReplayOrders([], es[..i + 1]) == ApplyOrder(ReplayOrders([], es[..i]), es[i])
  {
    assert es[..i + 1][..i] == es[..i];
  }

  // ---- The class ----

  class OrderManager {
    const slots: array<Slot<Order>>
    var count: nat

    ghost predicate Valid()
      reads this, slots
    {
      && slots.Length == MAX_ORDERS
      && count <= MAX_ORDERS
      && Distinct(slots[..count])
      && forall i :: count <= i < MAX_ORDERS ==> slots[i] == ZERO_ORDER_SLOT
    }

    ghost function Contents(): (contents: Table<Order>)
      reads this, slots
      requires Valid()
    {
      slots[..count]
    }

    constructor ()
      ensures Valid() && Contents() == [] && fresh(slots)
    {
      slots := new Slot<Order>[MAX_ORDERS](i => ZERO_ORDER_SLOT);
      count := 0;
    }

    /** Index of the order's slot; `count` stands for the null pointer. */
    method FindIndex(id: string) returns (i: nat)
      requires Valid()
      ensures i == Find(Contents(), NameOf(id))
    {
      hide NameOf, StrncmpEqual, Padded;
      i := 0;
      while i < count
        invariant i <= count
        invariant forall j :: 0 <= j < i ==> slots[j].key != NameOf(id)
      {
        StrncmpIsNameEquality(slots[i].key, id);
        if StrncmpEqual(slots[i].key.bytes, id) {
          return;
        }
        i := i + 1;
      }
    }

    method GetOrder(id: string) returns (r: Option<Order>)
      requires Valid()
      ensures r == Get(Contents(), NameOf(id))
    {
      var i := FindIndex(id);
      if i < count {
        return Some(slots[i].body);
      }
      return None;
    }

    method GetOrCreate(id: string) returns (i: nat)
      requires Valid()
      modifies this, slots
      ensures Valid()
      ensures Contents() == Ensure(old(Contents()), NameOf(id), MAX_ORDERS, BLANK_ORDER)
      ensures i == Find(Contents(), NameOf(id))
    {
      ghost var t, k := Contents(), NameOf(id);
      i := FindIndex(id);
      if i < count {
        return;
      }
      if count >= MAX_ORDERS {
        return;
      }
      slots[count] := Slot(NameOf(id), BLANK_ORDER);
      count := count + 1;
      assert slots[..count] == t + [Slot(k, BLANK_ORDER)];
      EnsureGet(t, k, MAX_ORDERS, BLANK_ORDER, k);
      FindAt(Contents(), i);
    }

    /** The stores through the slot's reference. */
    method WriteBody(i: nat, o: Order)
      requires Valid() && i < count
      modifies slots
      ensures Valid()
      ensures Contents() == old(Contents())[i := Slot(old(slots[i].key), o)]
    {
      slots[i] := Slot(slots[i].key, o);
    }

    method HandleNew(e: OrderEvent)
      requires Valid() && e.kind == NewOrder
      modifies this, slots
      ensures Valid()
      ensures Contents() == ApplyOrder(old(Contents()), e)
    {
      NameOfBytes(e.orderId);
      var i := GetOrCreate(e.orderId.bytes);
      if i == count {
        return;
      }
      var o := slots[i].body;
      o := o.(symbol := e.symbol);
      o := o.(state := Pending);
      o := o.(side := e.side);
      o := o.(limitPrice := e.price);
      o := o.(originalQty := e.qty);
      o := o.(filledQty := 0);
      o := o.(avgFillPrice := 0);
      o := o.(openedSeq := e.sequence);
      o := o.(lastSeq := e.sequence);
      WriteBody(i, o);
    }

    method HandleFill(e: OrderEvent)
      requires Valid() && e.IsFill()
      modifies slots
      ensures Valid()
      ensures Contents() == ApplyOrder(old(Contents()), e)
    {
      NameOfBytes(e.orderId);
      var i := FindIndex(e.orderId.bytes);
      if i == count {
        return;
      }
      var o := slots[i].body;
      var prevCost := o.avgFillPrice * o.filledQty;
      var fillCost := e.fillPrice * e.fillQty;
      var newFilled := o.filledQty + e.fillQty;
      o := o.(avgFillPrice := if newFilled > 0 then TruncDiv(prevCost + fillCost, newFilled) else 0);
      o := o.(filledQty := newFilled);
      o := o.(lastSeq := e.sequence);
      o := o.(state := if o.Remaining() <= 0 then Filled else PartiallyFilled);
      WriteBody(i, o);
    }

    method HandleCancel(e: OrderEvent)
      requires Valid() && e.kind == Cancel
      modifies slots
      ensures Valid()
      ensures Contents() == ApplyOrder(old(Contents()), e)
    {
      NameOfBytes(e.orderId);
      var i := FindIndex(e.orderId.bytes);
      if i == count {
        return;
      }
      var o := slots[i].body;
      o := o.(state := Cancelled);
      o := o.(lastSeq := e.sequence);
      WriteBody(i, o);
    }

    method HandleReject(e: OrderEvent)
      requires Valid() && e.kind == Reject
      modifies slots
      ensures Valid()
      ensures Contents() == ApplyOrder(old(Contents()), e)
    {
      NameOfBytes(e.orderId);
      var i := FindIndex(e.orderId.bytes);
      if i == count {
        return;
      }
      var o := slots[i].body;
      o := o.(state := Rejected);
      o := o.(lastSeq := e.sequence);
      WriteBody(i, o);
    }

    method HandleAmend(e: OrderEvent)
      requires Valid() && e.kind == Amend
      modifies slots
      ensures Valid()
      ensures Contents() == ApplyOrder(old(Contents()), e)
    {
      NameOfBytes(e.orderId);
      var i := FindIndex(e.orderId.bytes);
      if i == count {
        return;
      }
      var o := slots[i].body;
      if e.qty > 0 {
        o := o.(originalQty := e.qty);
      }
      if e.price > 0 {
        o := o.(limitPrice := e.price);
      }
      o := o.(lastSeq := e.sequence);
      WriteBody(i, o);
    }

    method ApplyEvent(e: OrderEvent)
      requires Valid()
      modifies this, slots
      ensures Valid()
      ensures Contents() == ApplyOrder(old(Contents()), e)
    {
      match e.kind {
        case NewOrder => HandleNew(e);
        case PartialFill => HandleFill(e);
        case FullFill => HandleFill(e);
        case Cancel => HandleCancel(e);
        case Reject => HandleReject(e);
        case Amend => HandleAmend(e);
      }
    }

    /** The loop of `open_exposure`. */
    method SumOpenExposure(symbol: string) returns (exposure: int)
      requires Valid()
      ensures exposure == Total(OpenExposure, Contents(), NameOf(symbol))
    {
      hide NameOf, StrncmpEqual, Padded;
      exposure := 0;
      var i := 0;
      while i < count
        invariant i <= count
        invariant exposure == Total(OpenExposure, Contents()[..i], NameOf(symbol))
      {
        assert Contents()[..i + 1][..i] == Contents()[..i];
        var o := slots[i].body;
        i := i + 1;
        if !o.IsOpen() {
          continue;
        }
        StrncmpIsNameEquality(o.symbol, symbol);
        if !StrncmpEqual(o.symbol.bytes, symbol) {
          continue;
        }
        exposure := exposure + (if o.side == Side.Buy then o.Remaining() else -o.Remaining());
      }
      assert Contents()[..count] == Contents();
    }

    /** Rebuilds the table from the log alone, whatever it held before. */
    method ReplayFrom(log: EventLog)
      requires Valid() && log.Valid()
      requires slots as object != log.file.events
      modifies this, slots
      ensures Valid()
      ensures Contents() == ReplayOrders([], log.Contents())
    {
      hide ApplyOrder;
      Clear();
      var head := log.nextSeq;
      for i := 0 to head
        invariant Valid()
        invariant Contents() == ReplayOrders([], log.Contents()[..i])
      {
        hide *;
        ReplayNext(log.Contents(), i);
        ApplyEvent(log.file.events[i]);
      }
      assert log.Contents()[..head] == log.Contents();
    }

    /** `memset` of the slots and the count. */
    method Clear()
      requires slots.Length == MAX_ORDERS
      modifies this, slots
      ensures Valid() && Contents() == []
    {
      for i := 0 to MAX_ORDERS
        invariant forall j :: 0 <= j < i ==> slots[j] == ZERO_ORDER_SLOT
      {
        slots[i] := ZERO_ORDER_SLOT;
      }
      count := 0;
    }
  }
}
