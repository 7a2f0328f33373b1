/**
 The pre-trade checks (include/RiskChecker.h) and what the full check guarantees over
 whole runs of orders, fills, cancels and rejects.
 */
module RiskCheckers {
  import opened Arithmetic
  import opened Books
  import opened EventLogs
  import opened FlatTable
  import opened OrderEvents
  import opened OrderManagers
  import opened Orders
  import opened Positions
  import opened PositionTrackers
  import opened Wrappers

  datatype RiskResult =
    Pass | FailMaxQty | FailMaxNotional | FailPositionLimit | FailMaxLoss | FailPositionCross

  datatype RiskLimits = RiskLimits(
    maxOrderQty: int,
    maxOrderNotional: int,
    maxNetPosition: int,
    maxLoss: int,
    allowPositionCross: bool)

  /** Ticks per unit of currency. */
  const PRICE_SCALE := 1_000_000

  /** The limits a checker gets that is given none, as the one of `main` is. */
  const DEFAULT_LIMITS: RiskLimits :=
    RiskLimits(10_000, 5_000_000 * PRICE_SCALE, 50_000, 100_000 * PRICE_SCALE, false)

  /** Does an order that takes the quantity from one value to another cross zero? */
  predicate Crosses(from: int, to: int) {
    (from > 0 && to < 0) || (from < 0 && to > 0)
  }

  /** The check against filled and open quantity together. */
  function CheckTrueExposure(l: RiskLimits, pos: Option<Position>, pending: int,
                             side: Side, qty: int, price: int): (r: RiskResult) {
    if qty > l.maxOrderQty then FailMaxQty
    else if qty * price > l.maxOrderNotional then FailMaxNotional
    else
      var filled := if pos.Some? then pos.value.netQty else 0;
      var trueQty := filled + pending;
      var projected := trueQty + (if side == Side.Buy then qty else -qty);
      if projected > l.maxNetPosition || projected < -l.maxNetPosition then FailPositionLimit
      else if !l.allowPositionCross && Crosses(trueQty, projected) then FailPositionCross
      else if pos.Some? && pos.value.realizedPnl < -l.maxLoss then FailMaxLoss
      else Pass
  }

  /** The check against the filled position alone; without a position it checks only the
      order's own size. */
  function CheckPosition(l: RiskLimits, pos: Option<Position>, side: Side, qty: int, price: int): (r: RiskResult) {
    if qty > l.maxOrderQty then FailMaxQty
    else if qty * price > l.maxOrderNotional then FailMaxNotional
    else if pos.None? then Pass
    else
      var projected := pos.value.netQty + (if side == Side.Buy then qty else -qty);
      if projected > l.maxNetPosition || projected < -l.maxNetPosition then FailPositionLimit
      else if !l.allowPositionCross && Crosses(pos.value.netQty, projected) then FailPositionCross
      else if pos.value.realizedPnl < -l.maxLoss then FailMaxLoss
      else Pass
  }

  lemma CrossesIff(from: int, to: int)
    ensures Crosses(from, to) <==> from * to < 0
  {
    if from == 0 || to == 0 {
      assert from * to == 0;
    } else {
      SignOfProduct(from, to);
    }
  }

  lemma SignOfProduct(x: int, y: int)
    requires x != 0 && y != 0
    ensures (x > 0 <==> y > 0) <==> x * y > 0
  {
    if x < 0 {
      Negate(x, y);
    }
    if y < 0 {
      Negate(x, y);
    }
    NonNegativeProduct(Abs(x) - 1, Abs(y) - 1);
    assert (Abs(x) - 1) * (Abs(y) - 1) == Abs(x) * Abs(y) - Abs(x) - Abs(y) + 1;
  }

  /** Which test speaks, of several that an order fails: size, value, position limit, cross,
      loss, in this order. */
  ghost predicate Explained(l: RiskLimits, r: RiskResult, qty: int, price: int, from: int, to: int, realized: int) {
    var size, notional := qty > l.maxOrderQty, qty * price > l.maxOrderNotional;
    var limit := Abs(to) > l.maxNetPosition;
    var cross := !l.allowPositionCross && from * to < 0;
    var loss := realized < -l.maxLoss;
    && (r == FailMaxQty <==> size)
    && (r == FailMaxNotional <==> !size && notional)
    && (r == FailPositionLimit <==> !size && !notional && limit)
    && (r == FailPositionCross <==> !size && !notional && !limit && cross)
    && (r == FailMaxLoss <==> !size && !notional && !limit && !cross && loss)
    && (r == Pass <==> !size && !notional && !limit && !cross && !loss)
  }

  /** The full check, on filled and open quantity; a symbol without position has lost
      nothing. */
  lemma CheckExplained(l: RiskLimits, pos: Option<Position>, pending: int, side: Side, qty: int, price: int)
    ensures var from := (if pos.Some? then pos.value.netQty else 0) + pending;
            var realized := if pos.Some? then pos.value.realizedPnl else -l.maxLoss;
            Explained(l, CheckTrueExposure(l, pos, pending, side, qty, price), qty, price,
                      from, from + Signed(side, qty), realized)
  {
    var from := (if pos.Some? then pos.value.netQty else 0) + pending;
    CrossesIff(from, from + Signed(side, qty));
    hide Crosses;
  }

  /** The position-only check: the same on the position alone, and without a position only
      the size and value of the order. */
  lemma CheckPositionExplained(l: RiskLimits, pos: Option<Position>, side: Side, qty: int, price: int)
    ensures var r := CheckPosition(l, pos, side, qty, price);
            if pos.Some? then
              Explained(l, r, qty, price, pos.value.netQty, pos.value.netQty + Signed(side, qty), pos.value.realizedPnl)
            else
              && (r == FailMaxQty <==> qty > l.maxOrderQty)
              && (r == FailMaxNotional <==> qty <= l.maxOrderQty && qty * price > l.maxOrderNotional)
              && (r == Pass <==> qty <= l.maxOrderQty && qty * price <= l.maxOrderNotional)
  {
    if pos.Some? {
      CrossesIff(pos.value.netQty, pos.value.netQty + Signed(side, qty));
    }
    hide Crosses;
  }

  /** Would `send_order` let this order through in this state? */
  predicate Approved(l: RiskLimits, b: Book, symbol: Name, side: Side, qty: int, price: int) {
    CheckTrueExposure(l, Get(b.positions, symbol), Total(OpenExposure, b.orders, symbol), side, qty, price) == Pass
  }

  /** Loss beyond the limit has been booked in the symbol. */
  predicate StoppedOut(l: RiskLimits, b: Book, symbol: Name) {
    Has(b.positions, symbol) && Get(b.positions, symbol).value.realizedPnl < -l.maxLoss
  }

  /** What an approved order keeps to, limit by limit. */
  predicate WithinLimits(l: RiskLimits, b: Book, symbol: Name, side: Side, qty: int, price: int) {
    var from := TrueExposure(b, symbol);
    var to := from + Signed(side, qty);
    && qty <= l.maxOrderQty
    && qty * price <= l.maxOrderNotional
    && -l.maxNetPosition <= to <= l.maxNetPosition
    && (l.allowPositionCross || from * to >= 0)
    && !StoppedOut(l, b, symbol)
  }

  lemma ApprovedIff(l: RiskLimits, b: Book, symbol: Name, side: Side, qty: int, price: int)
    ensures Approved(l, b, symbol, side, qty, price) <==> WithinLimits(l, b, symbol, side, qty, price)
  {
    hide Total, CheckTrueExposure, Find;
    CheckExplained(l, Get(b.positions, symbol), Total(OpenExposure, b.orders, symbol), side, qty, price);
  }

  /** The limits the program ships, in shares and in millionths of a dollar. */
  lemma DefaultLimitsIff(b: Book, symbol: Name, side: Side, qty: int, price: int)
    ensures var from := TrueExposure(b, symbol);
            var to := from + Signed(side, qty);
            Approved(DEFAULT_LIMITS, b, symbol, side, qty, price) <==>
              && qty <= 10_000 && qty * price <= 5_000_000_000_000
              && -50_000 <= to <= 50_000 && from * to >= 0
              && (Has(b.positions, symbol) ==> Get(b.positions, symbol).value.realizedPnl >= -100_000_000_000)
  {
    hide Approved, TrueExposure, Find;
    ApprovedIff(DEFAULT_LIMITS, b, symbol, side, qty, price);
  }

  /** An event of a run in which orders go through the full check and everything else
      conforms. Reports never amend. */
  predicate LegalEvent(l: RiskLimits, b: Book, e: OrderEvent, rule: IdRule := FreshIds) {
    && ConformsTo(b, e, rule)
    && e.kind != Amend
    && (e.kind == NewOrder ==> Approved(l, b, e.symbol, e.side, e.qty, e.price))
  }

  /** Every event of the run is legal in the state it arrives in. */
  ghost predicate LegalRun(l: RiskLimits, b: Book, es: seq<OrderEvent>, rule: IdRule := FreshIds) {
    forall k :: 0 <= k < |es| ==> LegalEvent(l, ReplayBook(b, es[..k]), es[k], rule)
  }

  /** A negative limit lets no order through, like zero. */
  function Limit(l: RiskLimits): (bound: int) {
    Max(0, l.maxNetPosition)
  }

  // ---- What the check guarantees about exposure ----

  /** True exposure is inside the limit, but for what cancels and rejects gave back on the
      other side. */
  ghost predicate ExposureBounded(l: RiskLimits, b: Book, symbol: Name) {
    && TrueExposure(b, symbol) <= Limit(l) + Total(LostSells, b.orders, symbol)
    && TrueExposure(b, symbol) >= -Limit(l) - Total(LostBuys, b.orders, symbol)
  }

  lemma {:induction false} TotalNonNegative(m: Metric, t: Table<Order>, symbol: Name)
    requires AllConsistent(t)
    requires m in {OpenBuys, OpenSells, LostBuys, LostSells}
    ensures Total(m, t, symbol) >= 0
  {
    if t != [] {
      assert AllConsistent(t[..|t| - 1]);
      TotalNonNegative(m, t[..|t| - 1], symbol);
    }
  }

  /** What a conforming report does to the open and lost quantities of a symbol. */
  function OrderChange(m: Metric, o: Order, e: OrderEvent, symbol: Name): (delta: int) {
    var open := (m == OpenBuys && o.side == Side.Buy) || (m == OpenSells && o.side == Side.Sell);
    var lost := (m == LostBuys && o.side == Side.Buy) || (m == LostSells && o.side == Side.Sell);
    if o.symbol != symbol then 0
    else if e.IsFill() then (if open then -e.fillQty else 0)
    else if open then -o.Remaining()
    else if lost then o.Remaining()
    else 0
  }

  lemma OrderChangeStep(m: Metric, o: Order, e: OrderEvent, symbol: Name)
    requires Consistent(o) && Conforms(o, e) && e.kind != Amend
    requires m in {OpenBuys, OpenSells, LostBuys, LostSells}
    ensures Weight(m, OrderStep(o, e), symbol) - Weight(m, o, symbol) == OrderChange(m, o, e, symbol)
  {
    hide Averaged;
  }

  lemma ReportStep(m: Metric, b: Book, e: OrderEvent, symbol: Name)
    requires AllConsistent(b.orders) && ConformsTo(b, e) && e.kind !in {NewOrder, Amend}
    requires m in {OpenBuys, OpenSells, LostBuys, LostSells}
    ensures Total(m, ApplyToBook(b, e).orders, symbol)
            == Total(m, b.orders, symbol) + OrderChange(m, Get(b.orders, e.orderId).value, e, symbol)
  {
    hide ApplyFill, ApplyOrder, OrderStep, OrderChange, Conforms, Total, AllConsistent, Find, Weight;
    TotalStep(m, b.orders, e, symbol);
    FindConsistent(b.orders, e.orderId);
    OrderChangeStep(m, Get(b.orders, e.orderId).value, e, symbol);
  }

  /** A counted order adds to the open quantity on its side, whosever slot it takes. */
  lemma OpenStep(m: Metric, b: Book, e: OrderEvent, symbol: Name)
    requires e.kind == NewOrder && ConformsTo(b, e, CountedIds)
    requires m in {OpenBuys, OpenSells}
    ensures Total(m, ApplyToBook(b, e).orders, symbol)
            == Total(m, b.orders, symbol)
               + (if e.symbol == symbol && (m == OpenBuys <==> e.side == Side.Buy) then e.qty else 0)
  {
    hide ApplyFill, ApplyOrder, Total, Find;
    TotalStep(m, b.orders, e, symbol);
  }

  /** It forgets nothing that another symbol's cancelled order left unfilled. */
  lemma LostKept(m: Metric, b: Book, e: OrderEvent, symbol: Name)
    requires e.kind == NewOrder && ConformsTo(b, e, SettledIds) && e.symbol != symbol
    requires m in {LostBuys, LostSells}
    ensures Total(m, ApplyToBook(b, e).orders, symbol) == Total(m, b.orders, symbol)
  {
    hide ApplyFill, ApplyOrder, Total, Find;
    TotalStep(m, b.orders, e, symbol);
  }

  lemma ExposureBoundStep(l: RiskLimits, b: Book, e: OrderEvent, symbol: Name, rule: IdRule)
    requires AllConsistent(b.orders) && LegalEvent(l, b, e, rule) && rule != CountedIds
    requires ExposureBounded(l, b, symbol)
    ensures ExposureBounded(l, ApplyToBook(b, e), symbol)
  {
    hide ApplyToBook, Approved, TrueExposure, Total, AllConsistent, Find, Has, Get;
    ExposureConserved(b, e, symbol);
    if e.kind != NewOrder {
      ReportStep(LostSells, b, e, symbol);
      ReportStep(LostBuys, b, e, symbol);
      FindConsistent(b.orders, e.orderId);
    } else if e.symbol == symbol {
      ApprovedBound(l, b, symbol, e.side, e.qty, e.price);
      ConsistentStep(l, b, e, rule);
      TotalNonNegative(LostSells, ApplyToBook(b, e).orders, symbol);
      TotalNonNegative(LostBuys, ApplyToBook(b, e).orders, symbol);
    } else {
      LostKept(LostSells, b, e, symbol);
      LostKept(LostBuys, b, e, symbol);
    }
  }

  lemma ApprovedBound(l: RiskLimits, b: Book, symbol: Name, side: Side, qty: int, price: int)
    requires Approved(l, b, symbol, side, qty, price)
    ensures Abs(TrueExposure(b, symbol) + Signed(side, qty)) <= Limit(l)
  {
    hide Total;
  }

  lemma FindConsistent(t: Table<Order>, id: Name)
    requires AllConsistent(t) && Has(t, id)
    ensures Consistent(Get(t, id).value)
  {
  }

  /** Over every run, in every interleaving, from any state within the bound: exposure
      stays within the limit up to the unfilled remainders of cancelled and rejected orders
      on the other side. */
  lemma {:induction false} LimitSafety(l: RiskLimits, b: Book, es: seq<OrderEvent>, symbol: Name, rule: IdRule)
    requires AllConsistent(b.orders) && ExposureBounded(l, b, symbol)
    requires LegalRun(l, b, es, rule) && rule != CountedIds
    ensures AllConsistent(ReplayBook(b, es).orders)
    ensures ExposureBounded(l, ReplayBook(b, es), symbol)
  {
    if es != [] {
      hide ApplyToBook, LegalEvent, ExposureBounded, AllConsistent;
      var init, e := es[..|es| - 1], es[|es| - 1];
      LegalPrefix(l, b, es, rule);
      LimitSafety(l, b, init, symbol, rule);
      ConsistentStep(l, ReplayBook(b, init), e, rule);
      ExposureBoundStep(l, ReplayBook(b, init), e, symbol, rule);
    }
  }

  lemma {:induction false} RunConsistent(l: RiskLimits, b: Book, es: seq<OrderEvent>, rule: IdRule)
    requires AllConsistent(b.orders) && LegalRun(l, b, es, rule)
    ensures AllConsistent(ReplayBook(b, es).orders)
  {
    if es != [] {
      hide ApplyToBook, LegalEvent, AllConsistent;
      LegalPrefix(l, b, es, rule);
      RunConsistent(l, b, es[..|es| - 1], rule);
      ConsistentStep(l, ReplayBook(b, es[..|es| - 1]), es[|es| - 1], rule);
    }
  }

  /** What a cancel or reject takes out of the open quantity of a side. */
  function GivenBackBy(b: Book, e: OrderEvent, symbol: Name, side: Side): (qty: int) {
    if e.kind in {Cancel, Reject} && Has(b.orders, e.orderId) then
      var o := Get(b.orders, e.orderId).value;
      if o.symbol == symbol && o.side == side then o.Remaining() else 0
    else 0
  }

  /** What cancels and rejects took out of it since the last order sent in the symbol. */
  function GivenBack(b: Book, es: seq<OrderEvent>, symbol: Name, side: Side): (qty: int) {
    if es == [] then 0
    else
      var init, e := es[..|es| - 1], es[|es| - 1];
      if e.kind == NewOrder && e.symbol == symbol then 0
      else GivenBack(b, init, symbol, side) + GivenBackBy(ReplayBook(b, init), e, symbol, side)
  }

  /** Exposure is inside the limit, but for what was given back on the other side since the
      last order of the symbol. */
  ghost predicate BoundedSinceLastOrder(l: RiskLimits, b: Book, es: seq<OrderEvent>, symbol: Name) {
    && TrueExposure(ReplayBook(b, es), symbol) <= Limit(l) + GivenBack(b, es, symbol, Side.Sell)
    && TrueExposure(ReplayBook(b, es), symbol) >= -Limit(l) - GivenBack(b, es, symbol, Side.Buy)
  }

  lemma GivenBackStep(l: RiskLimits, b: Book, e: OrderEvent, symbol: Name, rule: IdRule)
    requires LegalEvent(l, b, e, rule)
    ensures var x, y := TrueExposure(b, symbol), TrueExposure(ApplyToBook(b, e), symbol);
            if e.kind == NewOrder && e.symbol == symbol then Abs(y) <= Limit(l)
            else y == x + GivenBackBy(b, e, symbol, Side.Sell) - GivenBackBy(b, e, symbol, Side.Buy)
  {
    hide ApplyToBook, Approved, TrueExposure, Find, Conforms;
    ExposureConserved(b, e, symbol);
    if e.kind == NewOrder && e.symbol == symbol {
      ApprovedBound(l, b, symbol, e.side, e.qty, e.price);
    }
  }

  lemma GivenBackNonNegative(b: Book, e: OrderEvent, symbol: Name, side: Side)
    requires AllConsistent(b.orders)
    ensures GivenBackBy(b, e, symbol, side) >= 0
  {
    if Has(b.orders, e.orderId) {
      FindConsistent(b.orders, e.orderId);
    }
  }

  /** Every approved order brings the symbol back inside the limit, whatever was cancelled
      before: only what was given back since then counts. Also for runs that take over the
      slots of closed orders, as those with a restart in them do. */
  lemma {:induction false} LimitSinceLastOrder(l: RiskLimits, b: Book, es: seq<OrderEvent>, symbol: Name, rule: IdRule)
    requires AllConsistent(b.orders) && Abs(TrueExposure(b, symbol)) <= Limit(l)
    requires LegalRun(l, b, es, rule)
    ensures BoundedSinceLastOrder(l, b, es, symbol)
    ensures GivenBack(b, es, symbol, Side.Buy) >= 0 && GivenBack(b, es, symbol, Side.Sell) >= 0
  {
    if es != [] {
      hide ApplyToBook, LegalEvent, AllConsistent, TrueExposure, GivenBackBy;
      var init, e := es[..|es| - 1], es[|es| - 1];
      LegalPrefix(l, b, es, rule);
      LimitSinceLastOrder(l, b, init, symbol, rule);
      RunConsistent(l, b, init, rule);
      GivenBackStep(l, ReplayBook(b, init), e, symbol, rule);
      GivenBackNonNegative(ReplayBook(b, init), e, symbol, Side.Buy);
      GivenBackNonNegative(ReplayBook(b, init), e, symbol, Side.Sell);
    }
  }

  lemma EmptyBounded(l: RiskLimits, symbol: Name)
    ensures AllConsistent(EMPTY_BOOK.orders)
    ensures ExposureBounded(l, EMPTY_BOOK, symbol) && WorstBounded(l, EMPTY_BOOK, symbol)
  {
  }

  lemma LegalPrefix(l: RiskLimits, b: Book, es: seq<OrderEvent>, rule: IdRule)
    requires LegalRun(l, b, es, rule) && es != []
    ensures LegalRun(l, b, es[..|es| - 1], rule)
    ensures LegalEvent(l, ReplayBook(b, es[..|es| - 1]), es[|es| - 1], rule)
  {
    hide ReplayBook, LegalEvent;
    var init := es[..|es| - 1];
    forall k | 0 <= k < |init|
      ensures LegalEvent(l, ReplayBook(b, init[..k]), init[k], rule)
    {
      assert init[..k] == es[..k];
    }
  }

  lemma LegalSnoc(l: RiskLimits, es: seq<OrderEvent>, e: OrderEvent, rule: IdRule := FreshIds)
    requires LegalRun(l, EMPTY_BOOK, es, rule) && LegalEvent(l, ReplayBook(EMPTY_BOOK, es), e, rule)
    ensures LegalRun(l, EMPTY_BOOK, es + [e], rule)
    ensures ReplayBook(EMPTY_BOOK, es + [e]) == ApplyToBook(ReplayBook(EMPTY_BOOK, es), e)
  {
    hide ReplayBook, LegalEvent, ApplyToBook;
    ReplaySnoc(EMPTY_BOOK, es, e);
    var all := es + [e];
    assert forall k :: 0 <= k <= |es| ==> all[..k] == es[..k];
    assert es[..|es|] == es;
  }

  lemma ConsistentStep(l: RiskLimits, b: Book, e: OrderEvent, rule: IdRule)
    requires AllConsistent(b.orders) && LegalEvent(l, b, e, rule)
    ensures AllConsistent(ApplyToBook(b, e).orders)
  {
    hide ApplyFill, ApplyOrder, OrderStep, Consistent, Approved;
    if Has(b.orders, e.orderId) {
      ApplyKnown(b.orders, e);
      if e.kind == NewOrder {
        OpeningStep(Get(b.orders, e.orderId).value, e);
      } else {
        ConformingStep(Get(b.orders, e.orderId).value, e);
      }
    } else {
      ApplyUnknown(b.orders, e);
      OpenedConsistent(e);
    }
  }

  lemma OpeningStep(o: Order, e: OrderEvent)
    requires e.kind == NewOrder && e.qty > 0
    ensures Consistent(OrderStep(o, e))
  {
  }

  /** Over every legal run: from any moment on, orders keep their slots, ids, symbols and
      sides, and their states only move forward; what was filled, cancelled or rejected
      stays so. */
  lemma {:induction false} LifecycleThroughout(l: RiskLimits, es: seq<OrderEvent>, m: nat)
    requires LegalRun(l, EMPTY_BOOK, es) && m <= |es|
    ensures var t, u := ReplayBook(EMPTY_BOOK, es[..m]).orders, ReplayBook(EMPTY_BOOK, es).orders;
            && AllConsistent(u)
            && |t| <= |u|
            && forall i :: 0 <= i < |t| ==>
                 && u[i].key == t[i].key
                 && u[i].body.symbol == t[i].body.symbol && u[i].body.side == t[i].body.side
                 && Forward(t[i].body.state, u[i].body.state)
  {
    hide ApplyToBook, LegalEvent, AllConsistent, Forward;
    EmptyBounded(l, BLANK_NAME);
    RunConsistent(l, EMPTY_BOOK, es, FreshIds);
    if m == |es| {
      assert es[..m] == es;
      ForwardReflexive();
    } else {
      var init, e := es[..|es| - 1], es[|es| - 1];
      LegalPrefix(l, EMPTY_BOOK, es, FreshIds);
      RunConsistent(l, EMPTY_BOOK, init, FreshIds);
      assert init[..m] == es[..m];
      LifecycleThroughout(l, init, m);
      var b := ReplayBook(EMPTY_BOOK, init);
      LegalLifecycle(l, b, e);
      var t, v, u := ReplayBook(EMPTY_BOOK, es[..m]).orders, b.orders, ReplayBook(EMPTY_BOOK, es).orders;
      forall i | 0 <= i < |t|
        ensures Forward(t[i].body.state, u[i].body.state)
      {
        ForwardTransitive(t[i].body.state, v[i].body.state, u[i].body.state);
      }
    }
  }

  lemma LegalLifecycle(l: RiskLimits, b: Book, e: OrderEvent)
    requires AllConsistent(b.orders) && LegalEvent(l, b, e)
    ensures var t, u := b.orders, ApplyToBook(b, e).orders;
            && |t| <= |u|
            && forall i :: 0 <= i < |t| ==>
                 && u[i].key == t[i].key
                 && u[i].body.symbol == t[i].body.symbol && u[i].body.side == t[i].body.side
                 && Forward(t[i].body.state, u[i].body.state)
  {
    hide ConformsTo, Approved, ApplyOrder, ApplyFill, Forward, AllConsistent;
    LifecycleStep(b, e);
  }

  /** If no order of the symbol was cancelled or rejected, the limit holds outright. */
  lemma LimitHoldsWithoutCancels(l: RiskLimits, es: seq<OrderEvent>, symbol: Name, rule: IdRule)
    requires LegalRun(l, EMPTY_BOOK, es, rule) && rule != CountedIds
    requires var t := ReplayBook(EMPTY_BOOK, es).orders;
             forall i :: 0 <= i < |t| && t[i].body.symbol == symbol ==> t[i].body.state !in {Cancelled, Rejected}
    ensures Abs(TrueExposure(ReplayBook(EMPTY_BOOK, es), symbol)) <= Limit(l)
  {
    hide TrueExposure;
    EmptyBounded(l, symbol);
    LimitSafety(l, EMPTY_BOOK, es, symbol, rule);
    NothingLost(ReplayBook(EMPTY_BOOK, es).orders, symbol);
  }

  lemma {:induction false} NothingLost(t: Table<Order>, symbol: Name)
    requires forall i :: 0 <= i < |t| && t[i].body.symbol == symbol ==> t[i].body.state !in {Cancelled, Rejected}
    ensures Total(LostBuys, t, symbol) == 0 && Total(LostSells, t, symbol) == 0
  {
    if t != [] {
      NothingLost(t[..|t| - 1], symbol);
    }
  }

  // ---- What it guarantees about positions ----

  /** The furthest the position can go if every open buy, or every open sell, fills. */
  function WorstLong(b: Book, symbol: Name): (net: int) {
    NetQty(b.positions, symbol) + Total(OpenBuys, b.orders, symbol)
  }

  function WorstShort(b: Book, symbol: Name): (net: int) {
    NetQty(b.positions, symbol) - Total(OpenSells, b.orders, symbol)
  }

  /** The symbol's open orders are all on one side. */
  predicate OneSided(b: Book, symbol: Name) {
    Total(OpenBuys, b.orders, symbol) == 0 || Total(OpenSells, b.orders, symbol) == 0
  }

  ghost predicate WorstBounded(l: RiskLimits, b: Book, symbol: Name) {
    -Limit(l) <= WorstShort(b, symbol) && WorstLong(b, symbol) <= Limit(l)
  }

  lemma {:induction false} ExposureSplits(t: Table<Order>, symbol: Name)
    ensures Total(OpenExposure, t, symbol) == Total(OpenBuys, t, symbol) - Total(OpenSells, t, symbol)
  {
    if t != [] {
      ExposureSplits(t[..|t| - 1], symbol);
    }
  }

  /** Fills, cancels and rejects never extend the reach of a position. */
  lemma WorstNeverGrows(b: Book, e: OrderEvent, symbol: Name)
    requires ConformsTo(b, e) && AllConsistent(b.orders) && e.kind !in {NewOrder, Amend}
    ensures WorstLong(ApplyToBook(b, e), symbol) <= WorstLong(b, symbol)
    ensures WorstShort(ApplyToBook(b, e), symbol) >= WorstShort(b, symbol)
  {
    NetStep(b.positions, e, symbol);
    ReportStep(OpenBuys, b, e, symbol);
    ReportStep(OpenSells, b, e, symbol);
    FindConsistent(b.orders, e.orderId);
    hide ApplyFill, ApplyOrder, Total, NetQty;
  }

  lemma WorstBoundStep(l: RiskLimits, b: Book, e: OrderEvent, symbol: Name, rule: IdRule)
    requires AllConsistent(b.orders) && LegalEvent(l, b, e, rule)
    requires WorstBounded(l, b, symbol) && OneSided(ApplyToBook(b, e), symbol)
    ensures WorstBounded(l, ApplyToBook(b, e), symbol)
  {
    if e.kind == NewOrder {
      NetStep(b.positions, e, symbol);
      OpenStep(OpenBuys, b, e, symbol);
      OpenStep(OpenSells, b, e, symbol);
      TotalNonNegative(OpenBuys, b.orders, symbol);
      TotalNonNegative(OpenSells, b.orders, symbol);
      ExposureSplits(b.orders, symbol);
      if e.symbol == symbol {
        ApprovedBound(l, b, symbol, e.side, e.qty, e.price);
      }
      hide ApplyFill, ApplyOrder, Total, NetQty, Approved, AllConsistent, Find;
    } else {
      hide ApplyToBook, Approved, WorstLong, WorstShort;
      WorstNeverGrows(b, e, symbol);
    }
  }

  /** When a symbol's open orders are never on both sides at once, the position itself and
      everything it can still become stay within the limit, cancels or not. */
  lemma {:induction false} OneSidedPositionSafety(l: RiskLimits, b: Book, es: seq<OrderEvent>, symbol: Name,
                                                  rule: IdRule)
    requires AllConsistent(b.orders) && WorstBounded(l, b, symbol)
    requires LegalRun(l, b, es, rule)
    requires forall k :: 0 <= k <= |es| ==> OneSided(ReplayBook(b, es[..k]), symbol)
    ensures AllConsistent(ReplayBook(b, es).orders)
    ensures WorstBounded(l, ReplayBook(b, es), symbol)
    ensures Abs(NetQty(ReplayBook(b, es).positions, symbol)) <= Limit(l)
  {
    hide ApplyToBook, LegalEvent, OneSided, WorstBounded, AllConsistent, NetQty;
    if es != [] {
      var init, e := es[..|es| - 1], es[|es| - 1];
      LegalPrefix(l, b, es, rule);
      assert forall k :: 0 <= k <= |init| ==> init[..k] == es[..k];
      OneSidedPositionSafety(l, b, init, symbol, rule);
      assert es[..|es|] == es;
      ConsistentStep(l, ReplayBook(b, init), e, rule);
      WorstBoundStep(l, ReplayBook(b, init), e, symbol, rule);
    }
    WorstBoundsNet(l, ReplayBook(b, es), symbol);
  }

  lemma WorstBoundsNet(l: RiskLimits, b: Book, symbol: Name)
    requires AllConsistent(b.orders) && WorstBounded(l, b, symbol)
    ensures Abs(NetQty(b.positions, symbol)) <= Limit(l)
  {
    hide NetQty;
    TotalNonNegative(OpenBuys, b.orders, symbol);
    TotalNonNegative(OpenSells, b.orders, symbol);
  }

  // ---- The class ----

  class RiskChecker {
    var limits: RiskLimits

    constructor (limits: RiskLimits)
      ensures this.limits == limits
    {
      this.limits := limits;
    }

    method SetLimits(l: RiskLimits)
      modifies this
      ensures limits == l
    {
      limits := l;
    }

    method Check(symbol: string, side: Side, qty: int, price: int, tracker: PositionTracker, orders: OrderManager)
      returns (r: RiskResult)
      requires tracker.Valid() && orders.Valid()
      ensures r == CheckTrueExposure(limits, Get(tracker.Contents(), NameOf(symbol)),
                                     Total(OpenExposure, orders.Contents(), NameOf(symbol)), side, qty, price)
    {
      var pos := tracker.GetPosition(symbol);
      var pending := orders.SumOpenExposure(symbol);
      return CheckTrueExposure(limits, pos, pending, side, qty, price);
    }

    method CheckPositionOnly(symbol: string, side: Side, qty: int, price: int, tracker: PositionTracker)
      returns (r: RiskResult)
      requires tracker.Valid()
      ensures r == CheckPosition(limits, Get(tracker.Contents(), NameOf(symbol)), side, qty, price)
    {
      var pos := tracker.GetPosition(symbol);
      return CheckPosition(limits, pos, side, qty, price);
    }
  }
}
