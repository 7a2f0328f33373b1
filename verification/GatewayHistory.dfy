/**
 A run of the gateway told from its steps alone: when it is logged on, which sends get
 through, what each entry of the log records, and where positions and orders stand in terms
 of the fields of the delivered ExecutionReports.
 */
module GatewayHistory {
  import opened Books
  import opened EventLogs
  import opened FIXGateways
  import opened FlatTable
  import opened GatewayRuns
  import opened OrderEvents
  import opened OrderIds
  import opened OrderManagers
  import opened Orders
  import opened PositionLedger
  import opened Positions
  import opened PositionTrackers
  import opened RiskCheckers
  import opened Wrappers

  // ---- The connection ----

  /** The last of logons, logouts and restarts is a logon. */
  predicate LoggedOn(steps: seq<GatewayStep>) {
    if steps == [] then false
    else
      match steps[|steps| - 1]
      case Logon => true
      case Logout => false
      case Restart => false
      case _ => LoggedOn(steps[..|steps| - 1])
  }

  lemma KeepsConnection(l: RiskLimits, g: GatewayState, step: GatewayStep)
    requires !step.Logon? && !step.Logout? && !step.Restart?
    ensures GatewayNext(l, g, step).connected == g.connected
  {
    hide SendOutcome, FromExecutionReport, ApplyToBook, ApplyOrder, MarkSymbol, NameOf, OrderIdText;
  }

  lemma {:induction false} ConnectedIffLoggedOn(l: RiskLimits, steps: seq<GatewayStep>)
    ensures GatewayRun(l, steps).connected <==> LoggedOn(steps)
  {
    if steps != [] {
      hide AfterSend, AfterReport, ReplayBook, MarkSymbol;
      var init, step := steps[..|steps| - 1], steps[|steps| - 1];
      ConnectedIffLoggedOn(l, init);
      match step {
        case Logon =>
        case Logout =>
        case Restart =>
        case _ =>
          KeepsConnection(l, GatewayRun(l, init), step);
          hide GatewayNext;
      }
    }
  }

  // ---- Sends ----

  /** The order as it stands in the log. */
  predicate IsOrder(e: OrderEvent, step: GatewayStep, counter: nat, sequence: nat)
    requires step.Send?
  {
    && e.kind == NewOrder && e.sequence == sequence && e.timestampNs == step.now
    && e.symbol == NameOf(step.symbol) && e.side == step.side && e.qty == step.qty && e.price == step.price
    && e.fillQty == 0 && e.fillPrice == 0
    && e.orderId == NameOf(ID_PREFIX + Decimal(counter))
  }

  /** What a send does, by the connection, the limits and the room in the log. */
  lemma SendSteps(l: RiskLimits, g: GatewayState, step: GatewayStep)
    requires step.Send?
    ensures var h := GatewayNext(l, g, step);
            var within := WithinLimits(l, g.book, NameOf(step.symbol), step.side, step.qty, step.price);
            if !g.connected || !within then h == g
            else if |g.log| >= MAX_EVENTS then h == g.(counter := g.counter + 1)
            else
              && h.connected && h.counter == g.counter + 1
              && |h.log| == |g.log| + 1 && h.log[..|g.log|] == g.log
              && IsOrder(h.log[|g.log|], step, g.counter, |g.log|)
              && h.book.positions == g.book.positions
              && h.book.orders == ApplyOrder(g.book.orders, Unstamped(h.log[|g.log|]))
  {
    hide NameOf, Decimal, ApplyOrder, CheckTrueExposure, WithinLimits;
    ApprovedIff(l, g.book, NameOf(step.symbol), step.side, step.qty, step.price);
  }

  /** Over every run: a send leaves the whole state, counter included, as it was exactly when
      the gateway is not logged on or the order breaks a limit. */
  lemma SendIgnoredIff(l: RiskLimits, steps: seq<GatewayStep>, step: GatewayStep)
    requires step.Send?
    ensures var g := GatewayRun(l, steps);
            GatewayRun(l, steps + [step]) == g
            <==> !LoggedOn(steps) || !WithinLimits(l, g.book, NameOf(step.symbol), step.side, step.qty, step.price)
  {
    hide GatewayRun, GatewayNext, WithinLimits, NameOf, LoggedOn, ApplyOrder;
    ConnectedIffLoggedOn(l, steps);
    StepSnoc(l, steps, step);
    SendSteps(l, GatewayRun(l, steps), step);
  }

  /** And what it answers. */
  lemma SendAnswers(l: RiskLimits, steps: seq<GatewayStep>, symbol: string, side: Side, qty: int, price: int)
    ensures var g := GatewayRun(l, steps);
            var outcome := SendOutcome(l, g, symbol, side, qty, price);
            var within := WithinLimits(l, g.book, NameOf(symbol), side, qty, price);
            && (outcome.NotConnected? <==> !LoggedOn(steps))
            && (outcome.RiskBlocked? <==> LoggedOn(steps) && !within)
            && (outcome.LogFull? <==> LoggedOn(steps) && within && |g.log| >= MAX_EVENTS)
            && (outcome.Sent? ==> outcome.id == ID_PREFIX + Decimal(g.counter))
  {
    hide GatewayRun, WithinLimits, NameOf, LoggedOn, Decimal, CheckTrueExposure, Total;
    ConnectedIffLoggedOn(l, steps);
    ApprovedIff(l, GatewayRun(l, steps).book, NameOf(symbol), side, qty, price);
  }

  /** The stop loss: while the loss booked in a symbol exceeds the limit, no send of it does
      anything at all. */
  lemma StopLoss(l: RiskLimits, steps: seq<GatewayStep>, step: GatewayStep)
    requires step.Send? && StoppedOut(l, GatewayRun(l, steps).book, NameOf(step.symbol))
    ensures GatewayRun(l, steps + [step]) == GatewayRun(l, steps)
  {
    hide GatewayRun, GatewayNext, NameOf, LoggedOn, ApplyOrder, StoppedOut, TrueExposure;
    SendIgnoredIff(l, steps, step);
  }

  // ---- What an entry of the log records ----

  lemma {:induction false} EntryStep(l: RiskLimits, steps: seq<GatewayStep>, i: nat) returns (k: nat)
    requires i < |GatewayRun(l, steps).log|
    ensures k < |steps|
    ensures var g := GatewayRun(l, steps[..k]);
            && BookedEvent(l, g, steps[k]).Some?
            && (steps[k].Send? || steps[k].Deliver?)
            && |g.log| == i
            && GatewayRun(l, steps).log[i] == Stamped(BookedEvent(l, g, steps[k]).value, i, steps[k].now)
  {
    hide GatewayNext, BookedEvent, Recoverable, SameBook, ApplyToBook, Approved, OrderId;
    var n := |steps| - 1;
    var init, step := steps[..n], steps[n];
    var g := GatewayRun(l, init);
    RunIsRecoverable(l, init);
    if BookedEvent(l, g, step).Some? {
      NextBooked(l, g, step);
    } else {
      NextQuiet(l, g, step);
    }
    if i < |g.log| {
      k := EntryStep(l, init, i);
      assert init[..k] == steps[..k];
    } else {
      k := n;
    }
  }

  /** Every new order of a run's log was sent while the gateway was logged on, with the terms,
      time and id of that send, and in the state it was sent in it kept to every limit. */
  lemma LoggedOrdersKeptLimits(l: RiskLimits, steps: seq<GatewayStep>, i: nat) returns (k: nat)
    requires i < |GatewayRun(l, steps).log| && GatewayRun(l, steps).log[i].kind == NewOrder
    ensures k < |steps| && steps[k].Send? && LoggedOn(steps[..k])
    ensures var g, e := GatewayRun(l, steps[..k]), GatewayRun(l, steps).log[i];
            && IsOrder(e, steps[k], g.counter, i)
            && e.qty <= l.maxOrderQty
            && e.qty * e.price <= l.maxOrderNotional
            && WithinLimits(l, g.book, e.symbol, e.side, e.qty, e.price)
  {
    hide GatewayRun, LoggedOn, NameOf, Decimal, StoppedOut, TrueExposure, ApplyToBook;
    k := EntryStep(l, steps, i);
    ConnectedIffLoggedOn(l, steps[..k]);
    SentEntry(l, GatewayRun(l, steps[..k]), steps[k], i);
  }

  lemma SentEntry(l: RiskLimits, g: GatewayState, step: GatewayStep, i: nat)
    requires BookedEvent(l, g, step).Some? && (step.Send? || step.Deliver?)
    requires BookedEvent(l, g, step).value.kind == NewOrder
    ensures step.Send? && g.connected
    ensures var e := Stamped(BookedEvent(l, g, step).value, i, step.now);
            IsOrder(e, step, g.counter, i) && WithinLimits(l, g.book, e.symbol, e.side, e.qty, e.price)
  {
    hide NameOf, Decimal, CheckTrueExposure, WithinLimits, FromExecutionReport;
    if step.Send? {
      ApprovedIff(l, g.book, NameOf(step.symbol), step.side, step.qty, step.price);
    } else {
      NeverNew(step.report);
    }
  }

  lemma NeverNew(r: ExecutionReport)
    ensures FromExecutionReport(r).Some? ==> FromExecutionReport(r).value.kind != NewOrder
  {
    hide NameOf;
  }

  /** LastShares and LastPx of a fill; both 0 if one is missing. */
  function Shares(r: ExecutionReport): (qty: int) {
    if r.lastShares.Some? && r.lastPx.Some? then r.lastShares.value else 0
  }

  function Px(r: ExecutionReport): (price: int) {
    if r.lastShares.Some? && r.lastPx.Some? then r.lastPx.value else 0
  }

  predicate ReportsFill(r: ExecutionReport) {
    r.execType == '1' || r.execType == '2'
  }

  /** The event says what the report says. */
  predicate Transcribes(e: OrderEvent, r: ExecutionReport) {
    && e.symbol == NameOf(r.symbol) && e.orderId == NameOf(r.clOrdId)
    && (e.side == Side.Buy <==> r.side == '1')
    && (e.kind == PartialFill <==> r.execType == '1')
    && (e.kind == FullFill <==> r.execType == '2')
    && (e.kind == Cancel <==> r.execType == '4')
    && (e.kind == Reject <==> r.execType == '8')
    && e.kind !in {NewOrder, Amend}
    && e.fillQty == (if ReportsFill(r) then Shares(r) else 0)
    && e.fillPrice == (if ReportsFill(r) then Px(r) else 0)
    && e.qty == 0 && e.price == 0
  }

  /** A report is booked exactly for four of the execution types, and then as it is. */
  lemma ReportTranscribed(r: ExecutionReport)
    ensures FromExecutionReport(r).Some? <==> r.execType in {'1', '2', '4', '8'}
    ensures FromExecutionReport(r).Some? ==> Transcribes(FromExecutionReport(r).value, r)
    ensures FromExecutionReport(r).Some? ==> Unstamped(FromExecutionReport(r).value) == FromExecutionReport(r).value
  {
    hide NameOf;
  }

  /** Every other entry of the log is a delivered report. */
  lemma LoggedReports(l: RiskLimits, steps: seq<GatewayStep>, i: nat) returns (k: nat)
    requires i < |GatewayRun(l, steps).log| && GatewayRun(l, steps).log[i].kind != NewOrder
    ensures k < |steps| && steps[k].Deliver?
    ensures var e := GatewayRun(l, steps).log[i];
            Transcribes(e, steps[k].report) && e.sequence == i && e.timestampNs == steps[k].now
  {
    hide GatewayRun, NameOf, FromExecutionReport, SendOutcome, OrderIdText;
    k := EntryStep(l, steps, i);
    if steps[k].Deliver? {
      ReportTranscribed(steps[k].report);
    }
  }

  // ---- What a delivered report does ----

  /** Cancels and rejects end the order they name, fills add to it, and everything else, and
      every other order, stays; other execution types, and reports that find the log full,
      change nothing. */
  lemma DeliverSteps(l: RiskLimits, g: GatewayState, r: ExecutionReport, now: nat, id: Name)
    ensures var h := GatewayNext(l, g, Deliver(r, now));
            var before, after := Get(g.book.orders, id), Get(h.book.orders, id);
            && (r.execType !in {'1', '2', '4', '8'} || |g.log| >= MAX_EVENTS ==> h == g)
            && (id != NameOf(r.clOrdId) || before.None? ==> after == before)
            && (id == NameOf(r.clOrdId) && before.Some? && |g.log| < MAX_EVENTS ==>
                  && after.Some?
                  && (r.execType == '4' ==> after.value == before.value.(state := Cancelled, lastSeq := 0))
                  && (r.execType == '8' ==> after.value == before.value.(state := Rejected, lastSeq := 0))
                  && (ReportsFill(r) ==>
                        && after.value.filledQty == before.value.filledQty + Shares(r)
                        && after.value.originalQty == before.value.originalQty
                        && (after.value.state == Filled <==> after.value.Remaining() <= 0)
                        && (after.value.state == PartiallyFilled <==> after.value.Remaining() > 0)))
  {
    hide NameOf, FromExecutionReport, ApplyFill, ApplyOrder, Averaged, Find;
    ReportTranscribed(r);
    if FromExecutionReport(r).Some? && |g.log| < MAX_EVENTS {
      ApplyOrderGet(g.book.orders, FromExecutionReport(r).value, id);
    }
  }

  /** Marks reach an open position and nothing else. */
  lemma MarkSteps(l: RiskLimits, g: GatewayState, symbol: string, price: int, other: Name)
    ensures var h := GatewayNext(l, g, MarkPrice(symbol, price));
            var before, after := Get(g.book.positions, other), Get(h.book.positions, other);
            && h.connected == g.connected && h.counter == g.counter && h.log == g.log && h.book.orders == g.book.orders
            && (other != NameOf(symbol) || before.None? || before.value.IsFlat() ==> after == before)
            && (other == NameOf(symbol) && before.Some? && !before.value.IsFlat() ==>
                  after == Some(before.value.(lastPrice := price,
                                              unrealizedPnl := (price - before.value.avgEntryPrice) * before.value.netQty)))
  {
    hide NameOf, MarkSymbol, Find;
    MarkSymbolGet(g.book.positions, NameOf(symbol), price, other);
  }

  // ---- Positions, from the reports ----

  /** Will the report find room in the log and, for its symbol, among the positions? */
  predicate Received(g: GatewayState, r: ExecutionReport) {
    |g.log| < MAX_EVENTS && PositionRoom(g.book, NameOf(r.symbol))
  }

  /** Shares of the symbol that the delivered fills bought, less those they sold. */
  function ReportedNet(l: RiskLimits, steps: seq<GatewayStep>, symbol: Name): (net: int) {
    if steps == [] then 0
    else
      var init, step := steps[..|steps| - 1], steps[|steps| - 1];
      var rest := ReportedNet(l, init, symbol);
      if step.Deliver? && ReportsFill(step.report) && NameOf(step.report.symbol) == symbol
         && Received(GatewayRun(l, init), step.report)
      then (if step.report.side == '1' then rest + Shares(step.report) else rest - Shares(step.report))
      else rest
  }

  lemma DeliveredNet(l: RiskLimits, g: GatewayState, r: ExecutionReport, now: nat, symbol: Name)
    ensures NetQty(GatewayNext(l, g, Deliver(r, now)).book.positions, symbol) - NetQty(g.book.positions, symbol)
            == (if ReportsFill(r) && NameOf(r.symbol) == symbol && Received(g, r)
                then (if r.side == '1' then Shares(r) else -Shares(r)) else 0)
  {
    hide NameOf, FromExecutionReport, ApplyFill, ApplyOrder, NetQty;
    ReportTranscribed(r);
    if FromExecutionReport(r).Some? && |g.log| < MAX_EVENTS {
      NetStep(g.book.positions, FromExecutionReport(r).value, symbol);
    }
  }

  /** Sends, marks, logons and restarts leave positions as they are but for the mark. */
  lemma OthersKeepPositions(l: RiskLimits, g: GatewayState, step: GatewayStep, symbol: Name)
    requires Recoverable(g) && !step.Deliver?
    ensures var h := GatewayNext(l, g, step);
            && Has(h.book.positions, symbol) == Has(g.book.positions, symbol)
            && NetQty(h.book.positions, symbol) == NetQty(g.book.positions, symbol)
            && (Has(g.book.positions, symbol) ==>
                  Core(Get(h.book.positions, symbol).value) == Core(Get(g.book.positions, symbol).value))
  {
    hide GatewayNext, BookedEvent, Recoverable, SameBook, NetQty, Approved, OrderId;
    var h := GatewayNext(l, g, step);
    if BookedEvent(l, g, step).Some? {
      NextBooked(l, g, step);
      OrderOnly(g.book, BookedEvent(l, g, step).value);
    } else {
      NextQuiet(l, g, step);
      SamePosition(g.book, h.book, symbol);
    }
  }

  /** The position of every symbol, after every run and across restarts, is what the delivered
      fills say. */
  lemma {:induction false} NetIsReported(l: RiskLimits, steps: seq<GatewayStep>, symbol: Name)
    ensures NetQty(GatewayRun(l, steps).book.positions, symbol) == ReportedNet(l, steps, symbol)
  {
    if steps != [] {
      hide GatewayNext, NetQty, Received, Recoverable, ReportsFill, Shares;
      var init, step := steps[..|steps| - 1], steps[|steps| - 1];
      NetIsReported(l, init, symbol);
      if step.Deliver? {
        DeliveredNet(l, GatewayRun(l, init), step.report, step.now, symbol);
      } else {
        RunIsRecoverable(l, init);
        OthersKeepPositions(l, GatewayRun(l, init), step, symbol);
      }
    }
  }

  function ReportOp(r: ExecutionReport): (op: Op) {
    Fill(if r.side == '1' then Side.Buy else Side.Sell, Shares(r), Px(r), 0)
  }

  /** The fills of a symbol as the reports have them. */
  function ReportedFills(l: RiskLimits, steps: seq<GatewayStep>, symbol: Name): (ops: seq<Op>) {
    if steps == [] then []
    else
      var init, step := steps[..|steps| - 1], steps[|steps| - 1];
      var rest := ReportedFills(l, init, symbol);
      if step.Deliver? && ReportsFill(step.report) && NameOf(step.report.symbol) == symbol
         && Received(GatewayRun(l, init), step.report)
      then rest + [ReportOp(step.report)]
      else rest
  }

  /** A symbol without a slot stands at a zeroed position. */
  function PositionOf(b: Book, symbol: Name): (p: Position) {
    if Has(b.positions, symbol) then Get(b.positions, symbol).value else FLAT
  }

  lemma DeliveredPosition(l: RiskLimits, g: GatewayState, r: ExecutionReport, now: nat, symbol: Name)
    ensures var p, q := PositionOf(g.book, symbol), PositionOf(GatewayNext(l, g, Deliver(r, now)).book, symbol);
            q == (if ReportsFill(r) && NameOf(r.symbol) == symbol && Received(g, r) then Step(p, ReportOp(r)) else p)
  {
    hide NameOf, FromExecutionReport, ApplyFill, ApplyOrder, Step, Find;
    ReportTranscribed(r);
    if FromExecutionReport(r).Some? && |g.log| < MAX_EVENTS {
      ApplyFillGet(g.book.positions, FromExecutionReport(r).value, symbol);
    }
  }

  lemma KeptPosition(l: RiskLimits, g: GatewayState, step: GatewayStep, symbol: Name)
    requires Recoverable(g) && !step.Deliver?
    ensures Core(PositionOf(GatewayNext(l, g, step).book, symbol)) == Core(PositionOf(g.book, symbol))
  {
    hide GatewayNext, Recoverable, Find;
    OthersKeepPositions(l, g, step, symbol);
  }

  /** Quantity, average, realized profit and totals of every symbol are those of the delivered
      fills: side, shares and price as the reports have them, in the order they came. */
  lemma {:induction false} PositionIsReported(l: RiskLimits, steps: seq<GatewayStep>, symbol: Name)
    ensures Core(PositionOf(GatewayRun(l, steps).book, symbol)) == Core(Run(ReportedFills(l, steps, symbol)))
  {
    if steps != [] {
      hide GatewayNext, PositionOf, Received, Recoverable, ReportsFill, Core, Step, ReportOp;
      var init, step := steps[..|steps| - 1], steps[|steps| - 1];
      var g, own := GatewayRun(l, init), ReportedFills(l, init, symbol);
      PositionIsReported(l, init, symbol);
      if step.Deliver? {
        DeliveredPosition(l, g, step.report, step.now, symbol);
        RunSnoc(own, ReportOp(step.report));
        ReportOpIsFill(step.report);
        CoreOfFill(PositionOf(g.book, symbol), Run(own), ReportOp(step.report), ReportOp(step.report));
      } else {
        RunIsRecoverable(l, init);
        KeptPosition(l, g, step, symbol);
      }
    }
  }

  lemma ReportOpIsFill(r: ExecutionReport)
    ensures ReportOp(r).Fill?
  {
  }

  /** The ledger on the gateway: realized profit of a symbol is the cash of the delivered
      fills, the book value of what is held, and the drift of averaging them. */
  lemma GatewayLedger(l: RiskLimits, steps: seq<GatewayStep>, symbol: Name)
    ensures var p, own := PositionOf(GatewayRun(l, steps).book, symbol), ReportedFills(l, steps, symbol);
            p.realizedPnl
            == Proceeds(own) + p.avgEntryPrice * p.netQty + Drift(own, Side.Buy) - Drift(own, Side.Sell)
  {
    hide GatewayRun, ReportedFills, Run, Proceeds, Drift, PositionOf;
    PositionIsReported(l, steps, symbol);
    LedgerIdentity(ReportedFills(l, steps, symbol));
  }

  // ---- Orders, from the log ----

  /** Every live order accounts for the log's events of its id: terms, state, quantity filled
      and average price. */
  lemma GatewayOrderAccounts(l: RiskLimits, steps: seq<GatewayStep>, id: Name)
    requires Has(GatewayRun(l, steps).book.orders, id)
    ensures Accounts(Get(GatewayRun(l, steps).book.orders, id).value, GatewayRun(l, steps).log, id)
  {
    hide GatewayRun, ReplayOrders, ReplayPositions, OrderCoreTable, CoreTable, OrderView, Admitted, NewIds,
         FillsSince, QtyOf, LimitOf, StateOf, AverageOf, Sequenced, Find;
    var g := GatewayRun(l, steps);
    var t := ReplayOrders([], g.log);
    LiveEqualsReplay(l, steps);
    SameOrder(g.book, Book(ReplayPositions([], g.log), t), id);
    OrdersRefineMap(g.log, id);
    OrderAccounts(g.log, id);
  }
}
