/**
 The gateway's bookkeeping (gateway/FIXGateway.cpp): sending an order and booking an
 execution report as steps on one state, and the class that performs them on the log,
 the two projections and the risk checker. Sessions, sockets and clocks are inputs: a
 step is given the time that `append` stamps.
 */
module FIXGateways {
  import opened Books
  import opened EventLogs
  import opened FlatTable
  import opened OrderEvents
  import opened OrderIds
  import opened OrderManagers
  import opened PositionTrackers
  import opened RiskCheckers
  import opened Wrappers

  // ---- Inbound reports ----

  /** The fields of an ExecutionReport that are read; LastPx is already fixed point. */
  datatype ExecutionReport = ExecutionReport(
    execType: char,
    symbol: string,
    clOrdId: string,
    side: char,
    lastShares: Option<int>,
    lastPx: Option<int>)

  /** `from_execution_report` (gateway/MessageTranslator.h): only fills, cancels and
      rejects are booked; a fill without both fill fields is a fill of nothing. */
  function FromExecutionReport(r: ExecutionReport): (event: Option<OrderEvent>) {
    var kind :-
      if r.execType == '1' then Some(PartialFill)
      else if r.execType == '2' then Some(FullFill)
      else if r.execType == '4' then Some(Cancel)
      else if r.execType == '8' then Some(Reject)
      else None;
    var filled := (kind == PartialFill || kind == FullFill) && r.lastShares.Some? && r.lastPx.Some?;
    Some(OrderEvent(0, 0, 0, if filled then r.lastPx.value else 0, 0, if filled then r.lastShares.value else 0,
                    NameOf(r.symbol), NameOf(r.clOrdId), kind, if r.side == '1' then Side.Buy else Side.Sell))
  }

  // ---- Steps ----

  datatype GatewayState = GatewayState(connected: bool, counter: nat, log: seq<OrderEvent>, book: Book)

  const INITIAL: GatewayState := GatewayState(false, 0, [], EMPTY_BOOK)

  datatype SendResult = NotConnected | RiskBlocked(result: RiskResult) | LogFull | Sent(id: string)

  function SendOutcome(l: RiskLimits, g: GatewayState, symbol: string, side: Side, qty: int, price: int)
    : (outcome: SendResult)
  {
    if !g.connected then NotConnected
    else
      var name := NameOf(symbol);
      var pending := Total(OpenExposure, g.book.orders, name);
      var r := CheckTrueExposure(l, Get(g.book.positions, name), pending, side, qty, price);
      if r != Pass then RiskBlocked(r)
      else if |g.log| >= MAX_EVENTS then LogFull
      else Sent(OrderIdText(g.counter))
  }

  /** An approved order is logged and entered among the orders; a full log throws after the
      id was drawn. */
  function AfterSend(l: RiskLimits, g: GatewayState, symbol: string, side: Side, qty: int, price: int, now: nat)
    : (h: GatewayState)
  {
    var e := MakeNewOrder(symbol, side, qty, price, OrderIdText(g.counter));
    match SendOutcome(l, g, symbol, side, qty, price)
    case NotConnected => g
    case RiskBlocked(_) => g
    case LogFull => g.(counter := g.counter + 1)
    case Sent(_) =>
      g.(counter := g.counter + 1,
         log := g.log + [Stamped(e, |g.log|, now)],
         book := g.book.(orders := ApplyOrder(g.book.orders, e)))
  }

  /** A booked report is logged and applied to both projections. With a full log the
      process dies before either sees it. */
  function AfterReport(g: GatewayState, r: ExecutionReport, now: nat): (h: GatewayState) {
    var event := FromExecutionReport(r);
    if event.None? || |g.log| >= MAX_EVENTS then g
    else g.(log := g.log + [Stamped(event.value, |g.log|, now)], book := ApplyToBook(g.book, event.value))
  }

  datatype GatewayStep =
    | Logon
    | Logout
    | Send(symbol: string, side: Side, qty: int, price: int, now: nat)
    | Deliver(report: ExecutionReport, now: nat)
    | MarkPrice(symbol: string, price: int)
    | Restart

  function GatewayNext(l: RiskLimits, g: GatewayState, step: GatewayStep): (h: GatewayState) {
    match step
    case Logon => g.(connected := true)
    case Logout => g.(connected := false)
    case Send(symbol, side, qty, price, now) => AfterSend(l, g, symbol, side, qty, price, now)
    case Deliver(report, now) => AfterReport(g, report, now)
    case MarkPrice(symbol, price) =>
      g.(book := g.book.(positions := MarkSymbol(g.book.positions, NameOf(symbol), price)))
    case Restart => GatewayState(false, 0, g.log, ReplayBook(EMPTY_BOOK, g.log))
  }

  function GatewayRun(l: RiskLimits, steps: seq<GatewayStep>): (g: GatewayState) {
    if steps == [] then INITIAL else GatewayNext(l, GatewayRun(l, steps[..|steps| - 1]), steps[|steps| - 1])
  }

  // ---- The class ----

  class FIXGateway {
    const log: EventLog
    const tracker: PositionTracker
    const orders: OrderManager
    const risk: RiskChecker
    var connected: bool
    var orderCounter: nat

    ghost predicate Valid()
      reads this, log, log.file, tracker, tracker.slots, orders, orders.slots
    {
      && log.Valid() && tracker.Valid() && orders.Valid()
      && log.file.events as object != tracker.slots
      && log.file.events as object != orders.slots
      && tracker.slots as object != orders.slots
    }

    ghost function State(): (state: GatewayState)
      reads this, log, log.file, log.file.events, tracker, tracker.slots, orders, orders.slots
      requires Valid()
    {
      GatewayState(connected, orderCounter, log.Contents(), Book(tracker.Contents(), orders.Contents()))
    }

    constructor (log: EventLog, tracker: PositionTracker, orders: OrderManager, risk: RiskChecker)
      requires log.Valid() && tracker.Valid() && orders.Valid()
      requires log.file.events as object != tracker.slots
      requires log.file.events as object != orders.slots
      requires tracker.slots as object != orders.slots
      ensures Valid() && this.log == log && this.tracker == tracker && this.orders == orders && this.risk == risk
      ensures State() == GatewayState(false, 0, log.Contents(), Book(tracker.Contents(), orders.Contents()))
    {
      this.log, this.tracker, this.orders, this.risk := log, tracker, orders, risk;
      connected, orderCounter := false, 0;
    }

    method OnLogon()
      requires Valid()
      modifies this
      ensures Valid() && State() == old(State()).(connected := true)
    {
      connected := true;
    }

    method OnLogout()
      requires Valid()
      modifies this
      ensures Valid() && State() == old(State()).(connected := false)
    {
      connected := false;
    }

    method NextOrderId() returns (id: string)
      modifies this`orderCounter
      ensures orderCounter == old(orderCounter) + 1
      ensures id == OrderIdText(old(orderCounter))
    {
      id := OrderIdText(orderCounter);
      orderCounter := orderCounter + 1;
    }

    method SendOrder(symbol: string, side: Side, qty: int, price: int, now: nat) returns (r: SendResult)
      requires Valid()
      modifies this, log, log.file, log.file.events, orders, orders.slots
      ensures Valid()
      ensures r == SendOutcome(risk.limits, old(State()), symbol, side, qty, price)
      ensures State() == AfterSend(risk.limits, old(State()), symbol, side, qty, price, now)
    {
      hide NameOf, OrderIdText, CheckTrueExposure, Total, ApplyOrder;
      if !connected {
        return NotConnected;
      }
      var result := risk.Check(symbol, side, qty, price, tracker, orders);
      if result != Pass {
        return RiskBlocked(result);
      }
      var id := NextOrderId();
      var e := MakeNewOrder(symbol, side, qty, price, id);
      var sequence := log.Append(e, now);
      if sequence.None? {
        return LogFull;
      }
      orders.ApplyEvent(e);
      return Sent(id);
    }

    /** False when the full log's exception ends the process (the handler is noexcept). */
    method OnMessage(report: ExecutionReport, now: nat) returns (alive: bool)
      requires Valid()
      modifies log, log.file, log.file.events, tracker, tracker.slots, orders, orders.slots
      ensures Valid()
      ensures State() == AfterReport(old(State()), report, now)
      ensures !alive <==> FromExecutionReport(report).Some? && |old(State()).log| >= MAX_EVENTS
    {
      hide NameOf, ApplyFill, ApplyOrder;
      var event := FromExecutionReport(report);
      if event.None? {
        return true;
      }
      var e := event.value;
      var sequence := log.Append(e, now);
      if sequence.None? {
        return false;
      }
      tracker.ApplyEvent(e);
      orders.ApplyEvent(e);
      return true;
    }
  }

  /** Startup (src/main.cpp): open the log, rebuild both projections from it, and start a
      gateway on them. Null when the file is not a log. */
  method Startup(existing: LogFile?, limits: RiskLimits) returns (gateway: FIXGateway?)
    requires existing != null && existing.magic == LOG_MAGIC ==> existing.Intact()
    ensures gateway == null <==> existing != null && existing.magic != LOG_MAGIC
    ensures gateway != null ==>
              var log := if existing == null then [] else existing.Durable();
              gateway.Valid() && gateway.State() == GatewayState(false, 0, log, ReplayBook(EMPTY_BOOK, log))
  {
    hide ReplayBook, ReplayPositions, ReplayOrders;
    var log := EventLog.Open(existing);
    if log == null {
      return null;
    }
    var tracker := new PositionTracker();
    var orders := new OrderManager();
    tracker.ReplayFrom(log);
    orders.ReplayFrom(log);
    ReplayBookIsBothReplays(EMPTY_BOOK, log.Contents());
    var risk := new RiskChecker(limits);
    gateway := new FIXGateway(log, tracker, orders, risk);
  }
}
