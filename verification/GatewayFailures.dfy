/**
 Runs of the gateway that pass every check and break what the checks are for: two-sided
 flow, a full order table, and the order ids that start over with every process.
 `GatewayRuns` has the guards under which none of this happens.
 */
module GatewayFailures {
  import opened Arithmetic
  import opened Books
  import opened EventLogs
  import opened FIXGateways
  import opened FlatTable
  import opened GatewayRuns
  import opened LimitReach
  import opened OrderEvents
  import opened OrderIds
  import opened OrderManagers
  import opened Orders
  import opened Positions
  import opened PositionTrackers
  import opened RiskCheckers
  import opened Wrappers

  // ---- Two-sided flow, with the limits the program ships ----

  function FirstIds(n: nat): (ids: seq<Name>)
    ensures |ids| == n && forall i :: 0 <= i < n ==> ids[i] == OrderId(i)
  {
    seq(n, i requires 0 <= i < n => OrderId(i))
  }

  /** Log on, then send a buy, a sell, a buy, and so on. */
  function AlternatingSends(symbol: string, qty: int, price: int, n: nat): (steps: seq<GatewayStep>) {
    if n == 0 then [Logon]
    else AlternatingSends(symbol, qty, price, n - 1) + [Send(symbol, AlternateSide(n - 1), qty, price, 0)]
  }

  /** The gateway has sent the first n of the alternating orders, and nothing else. */
  ghost predicate HasSent(g: GatewayState, symbol: string, qty: int, price: int, n: nat) {
    && g.connected && g.counter == n && |g.log| == n
    && g.book == ReplayBook(EMPTY_BOOK, Alternating(NameOf(symbol), qty, price, FirstIds(n)))
  }

  lemma FirstIdsDistinct(n: nat)
    requires n <= COUNTER_LIMIT
    ensures DistinctIds(FirstIds(n))
  {
    hide OrderId;
    IdsDistinctIff(n);
  }

  /** The gateway lets all of them through. */
  lemma {:induction false} AlternatingSent(l: RiskLimits, symbol: string, qty: int, price: int, n: nat)
    requires SmallEnough(l, qty, price) && n <= MAX_ORDERS
    ensures HasSent(GatewayRun(l, AlternatingSends(symbol, qty, price, n)), symbol, qty, price, n)
  {
    if n == 0 {
      assert GatewayRun(l, [Logon][..0]) == INITIAL;
      assert FirstIds(0) == [];
    } else {
      hide GatewayNext, HasSent, AlternateSide, SmallEnough;
      AlternatingSent(l, symbol, qty, price, n - 1);
      var steps := AlternatingSends(symbol, qty, price, n);
      assert steps[..|steps| - 1] == AlternatingSends(symbol, qty, price, n - 1);
      SentNext(l, GatewayRun(l, steps[..|steps| - 1]), symbol, qty, price, n - 1);
    }
  }

  lemma SentNext(l: RiskLimits, g: GatewayState, symbol: string, qty: int, price: int, n: nat)
    requires SmallEnough(l, qty, price) && n < MAX_ORDERS && HasSent(g, symbol, qty, price, n)
    ensures HasSent(GatewayNext(l, g, Send(symbol, AlternateSide(n), qty, price, 0)), symbol, qty, price, n + 1)
  {
    hide GatewayNext, ReplayBook, Alternating, AlternateSide, OrderId, NameOf, LegalRun, AllQuoted, Approved,
         ApplyToBook, SmallEnough;
    var name, ids, id := NameOf(symbol), FirstIds(n), OrderId(n);
    var e := Quote(name, AlternateSide(n), qty, price, id);
    FirstIdsDistinct(n + 1);
    assert FirstIds(n + 1)[n] == id;
    assert FirstIds(n + 1) == ids + [id];
    AlternatingPasses(l, name, qty, price, ids);
    NextQuoteApproved(l, g.book, name, qty, price, ids);
    SendBooks(l, g, symbol, AlternateSide(n), qty, price);
    AlternatingSnoc(name, qty, price, ids, id);
    ReplaySnoc(EMPTY_BOOK, Alternating(name, qty, price, ids), e);
  }

  /** A connected gateway with room in its log sends what the check approves. */
  lemma SendBooks(l: RiskLimits, g: GatewayState, symbol: string, side: Side, qty: int, price: int)
    requires g.connected && |g.log| < MAX_EVENTS && Approved(l, g.book, NameOf(symbol), side, qty, price)
    ensures var e := Quote(NameOf(symbol), side, qty, price, OrderId(g.counter));
            && BookedEvent(l, g, Send(symbol, side, qty, price, 0)) == Some(e)
            && GatewayNext(l, g, Send(symbol, side, qty, price, 0))
               == GatewayState(true, g.counter + 1, g.log + [Stamped(e, |g.log|, 0)], ApplyToBook(g.book, e))
  {
    hide NameOf, OrderIdText, CheckTrueExposure, ApplyToBook, GatewayNext;
    NextBooked(l, g, Send(symbol, side, qty, price, 0));
  }

  /** What the exchange can then make of it. */
  lemma SentReach(l: RiskLimits, symbol: string, qty: int, price: int, n: nat)
    requires SmallEnough(l, qty, price) && n <= MAX_ORDERS
    ensures var b, name := GatewayRun(l, AlternatingSends(symbol, qty, price, n)).book, NameOf(symbol);
            && CanReach(b, name, ((n + 1) / 2) * qty) && CanReach(b, name, -((n / 2) * qty))
            && CanExpose(b, name, ((n + 1) / 2) * qty) && CanExpose(b, name, -((n / 2) * qty))
  {
    hide GatewayRun, NameOf, CanReach, CanExpose, AlternatingSends, DistinctIds, SmallEnough, Alternating,
         ReplayBook, LegalRun, OrderId;
    FirstIdsDistinct(n);
    AlternatingSent(l, symbol, qty, price, n);
    TwoSidedFlowBreaksLimit(l, NameOf(symbol), qty, price, FirstIds(n));
  }

  /** The gateway as `main` starts it lets 512 orders for 10,000 shares at any price up to
      500.00 through, buy and sell in turn. The position limit is 50,000; the exchange can
      fill 2,560,000 either way, and a cancel of one side leaves that as the true exposure. */
  lemma DefaultLimitsExceeded(symbol: string, price: int)
    requires price <= 500 * PRICE_SCALE
    ensures var steps := AlternatingSends(symbol, 10_000, price, MAX_ORDERS);
            var b, name := GatewayRun(DEFAULT_LIMITS, steps).book, NameOf(symbol);
            && Limit(DEFAULT_LIMITS) == 50_000
            && CanReach(b, name, 2_560_000) && CanReach(b, name, -2_560_000)
            && CanExpose(b, name, 2_560_000) && CanExpose(b, name, -2_560_000)
  {
    hide GatewayRun, NameOf, CanReach, CanExpose, AlternatingSends;
    SentReach(DEFAULT_LIMITS, symbol, 10_000, price, MAX_ORDERS);
    assert ((MAX_ORDERS + 1) / 2) * 10_000 == 2_560_000 && (MAX_ORDERS / 2) * 10_000 == 2_560_000;
  }

  // ---- A full order table ----

  /** The same order sent n times. */
  function Repeated(symbol: string, side: Side, qty: int, price: int, n: nat): (steps: seq<GatewayStep>) {
    if n == 0 then [] else Repeated(symbol, side, qty, price, n - 1) + [Send(symbol, side, qty, price, 0)]
  }

  lemma {:induction false} OnlyRepeated(symbol: string, side: Side, qty: int, price: int, n: nat)
    ensures forall i :: 0 <= i < |Repeated(symbol, side, qty, price, n)| ==>
              Repeated(symbol, side, qty, price, n)[i].Send?
  {
    if n > 0 {
      OnlyRepeated(symbol, side, qty, price, n - 1);
    }
  }

  /** Nothing of what h has logged since g has reached its book. */
  ghost predicate SentUncounted(g: GatewayState, h: GatewayState, symbol: Name, side: Side, qty: int, n: nat) {
    && h.connected && h.book == g.book
    && h.counter == g.counter + n && |h.log| == |g.log| + n
    && forall i :: |g.log| <= i < |h.log| ==>
         var e := h.log[i]; e.kind == NewOrder && e.symbol == symbol && e.side == side && e.qty == qty
  }

  /** Once a process has filled the order table, an order that passes the check passes it
      again and again: each is sent, none is counted. */
  lemma {:induction false} FullTableSends(l: RiskLimits, steps: seq<GatewayStep>, symbol: string, side: Side,
                                          qty: int, price: int, n: nat)
    requires forall i :: 0 <= i < |steps| ==> !steps[i].Restart?
    requires var g := GatewayRun(l, steps);
             && g.connected && |g.book.orders| >= MAX_ORDERS
             && Approved(l, g.book, NameOf(symbol), side, qty, price)
             && g.counter + n <= COUNTER_LIMIT && |g.log| + n <= MAX_EVENTS
    ensures SentUncounted(GatewayRun(l, steps), GatewayRun(l, steps + Repeated(symbol, side, qty, price, n)),
                          NameOf(symbol), side, qty, n)
  {
    hide GatewayRun, GatewayNext, Approved, NameOf, OrderId, ApplyToBook, BookedEvent;
    if n == 0 {
      assert steps + Repeated(symbol, side, qty, price, n) == steps;
    } else {
      FullTableSends(l, steps, symbol, side, qty, price, n - 1);
      OnlyRepeated(symbol, side, qty, price, n - 1);
      var more, step := steps + Repeated(symbol, side, qty, price, n - 1), Send(symbol, side, qty, price, 0);
      assert steps + Repeated(symbol, side, qty, price, n) == more + [step];
      var h := GatewayRun(l, more);
      IdsFreshInOneLifetime(l, more);
      SendBooks(l, h, symbol, side, qty, price);
      QuoteFields(NameOf(symbol), side, qty, price, OrderId(h.counter));
      FullTableStep(h.book, Quote(NameOf(symbol), side, qty, price, OrderId(h.counter)));
      StepSnoc(l, more, step);
    }
  }

  /** With the shipped limits: after the 512 alternating orders, tens of thousands of buys of
      10,000 shares all pass, and the true exposure the check sees stays 0. */
  lemma DefaultTableOverrun(symbol: string, price: int, n: nat)
    requires price <= 500 * PRICE_SCALE && MAX_ORDERS + n <= COUNTER_LIMIT
    ensures var steps := AlternatingSends(symbol, 10_000, price, MAX_ORDERS);
            var g, h := GatewayRun(DEFAULT_LIMITS, steps),
                        GatewayRun(DEFAULT_LIMITS, steps + Repeated(symbol, Side.Buy, 10_000, price, n));
            && SentUncounted(g, h, NameOf(symbol), Side.Buy, 10_000, n)
            && TrueExposure(h.book, NameOf(symbol)) == 0
  {
    hide GatewayRun, NameOf, OrderId, Approved, ReplayBook, Alternating, LegalRun, TrueExposure, SentUncounted;
    var ids := FirstIds(MAX_ORDERS);
    FirstIdsDistinct(MAX_ORDERS);
    AlternatingSent(DEFAULT_LIMITS, symbol, 10_000, price, MAX_ORDERS);
    AlternatingPasses(DEFAULT_LIMITS, NameOf(symbol), 10_000, price, ids);
    var steps, more := AlternatingSends(symbol, 10_000, price, MAX_ORDERS), Repeated(symbol, Side.Buy, 10_000, price, n);
    var g := GatewayRun(DEFAULT_LIMITS, steps);
    NextQuoteApproved(DEFAULT_LIMITS, g.book, NameOf(symbol), 10_000, price, ids);
    QuotedSize(g.book, NameOf(symbol), 10_000, ids);
    OnlySends(symbol, 10_000, price, MAX_ORDERS);
    FullTableSends(DEFAULT_LIMITS, steps, symbol, Side.Buy, 10_000, price, n);
    UncountedBook(g, GatewayRun(DEFAULT_LIMITS, steps + more), NameOf(symbol), n);
  }

  lemma UncountedBook(g: GatewayState, h: GatewayState, symbol: Name, n: nat)
    requires SentUncounted(g, h, symbol, Side.Buy, 10_000, n)
    ensures h.book == g.book
  {
  }

  lemma QuotedSize(b: Book, symbol: Name, qty: int, ids: seq<Name>)
    requires AllQuoted(b, symbol, qty, ids)
    ensures |b.orders| == |ids|
  {
    hide Total;
    assert |Keys(b.orders)| == |b.orders|;
  }

  lemma {:induction false} OnlySends(symbol: string, qty: int, price: int, n: nat)
    ensures forall i :: 0 <= i < |AlternatingSends(symbol, qty, price, n)| ==>
              !AlternatingSends(symbol, qty, price, n)[i].Restart?
  {
    if n == 0 {
      assert AlternatingSends(symbol, qty, price, 0) == [Logon];
    } else {
      OnlySends(symbol, qty, price, n - 1);
    }
  }

  // ---- Order ids that start over ----

  /** The first order of a process. */
  function FirstOrder(symbol: string, qty: int, price: int): (e: OrderEvent) {
    Quote(NameOf(symbol), Side.Buy, qty, price, OrderId(0))
  }

  /** Log on and buy once. */
  function TradingDay(symbol: string, qty: int, price: int): (steps: seq<GatewayStep>) {
    [Logon, Send(symbol, Side.Buy, qty, price, 0)]
  }

  /** One buy in each of n lifetimes of the process. */
  function Lifetimes(symbol: string, qty: int, price: int, n: nat): (steps: seq<GatewayStep>) {
    if n == 0 then []
    else if n == 1 then TradingDay(symbol, qty, price)
    else Lifetimes(symbol, qty, price, n - 1) + [Restart] + TradingDay(symbol, qty, price)
  }

  /** The log holds n buys, the order table one. */
  ghost predicate OneCounted(g: GatewayState, symbol: string, qty: int, price: int, n: nat) {
    var e := FirstOrder(symbol, qty, price);
    && g.connected && |g.log| == n
    && (forall i :: 0 <= i < n ==> Unstamped(g.log[i]) == e)
    && g.book == Book([], [Slot(e.orderId, Opened(e))])
  }

  /** A process that starts with no positions and at most its own first order in the table. */
  ghost predicate JustStarted(g: GatewayState, symbol: string, qty: int, price: int, n: nat) {
    var e := FirstOrder(symbol, qty, price);
    && g.counter == 0 && |g.log| == n
    && (forall i :: 0 <= i < n ==> Unstamped(g.log[i]) == e)
    && g.book.positions == []
    && |g.book.orders| <= 1 && (|g.book.orders| == 1 ==> g.book.orders[0].key == e.orderId)
    && Total(OpenExposure, g.book.orders, e.symbol) in {0, qty}
  }

  lemma TwoMore(l: RiskLimits, steps: seq<GatewayStep>, a: GatewayStep, b: GatewayStep)
    ensures GatewayRun(l, steps + [a, b]) == GatewayNext(l, GatewayNext(l, GatewayRun(l, steps), a), b)
  {
    hide GatewayRun, GatewayNext;
    StepSnoc(l, steps, a);
    StepSnoc(l, steps + [a], b);
    assert steps + [a] + [b] == steps + [a, b];
  }

  lemma BuyOnce(l: RiskLimits, steps: seq<GatewayStep>, symbol: string, qty: int, price: int, n: nat)
    requires SmallEnough(l, qty, price) && 2 * qty <= l.maxNetPosition && n < MAX_EVENTS
    requires JustStarted(GatewayRun(l, steps), symbol, qty, price, n)
    ensures OneCounted(GatewayRun(l, steps + TradingDay(symbol, qty, price)), symbol, qty, price, n + 1)
  {
    hide GatewayRun, NameOf, OrderId, ApplyToBook, Total, Unstamped;
    var g := GatewayRun(l, steps);
    TwoMore(l, steps, Logon, Send(symbol, Side.Buy, qty, price, 0));
    FlatBuyApproved(l, g.book, NameOf(symbol), qty, price);
    SendBooks(l, g.(connected := true), symbol, Side.Buy, qty, price);
    OnlyOrder(g.book, FirstOrder(symbol, qty, price));
    StampedQuote(FirstOrder(symbol, qty, price), n);
  }

  lemma StampedQuote(e: OrderEvent, n: nat)
    requires e.sequence == 0 && e.timestampNs == 0
    ensures Unstamped(Stamped(e, n, 0)) == e
  {
  }

  lemma FlatBuyApproved(l: RiskLimits, b: Book, symbol: Name, qty: int, price: int)
    requires SmallEnough(l, qty, price) && 2 * qty <= l.maxNetPosition
    requires b.positions == [] && Total(OpenExposure, b.orders, symbol) in {0, qty}
    ensures Approved(l, b, symbol, Side.Buy, qty, price)
  {
    hide Total;
  }

  /** The order takes the only slot, new or known. */
  lemma OnlyOrder(b: Book, e: OrderEvent)
    requires e.kind == NewOrder && b.positions == []
    requires |b.orders| <= 1 && (|b.orders| == 1 ==> b.orders[0].key == e.orderId)
    ensures ApplyToBook(b, e) == Book([], [Slot(e.orderId, Opened(e))])
  {
    hide ApplyOrder, ApplyFill;
    NotAFill(b.positions, e);
    if Has(b.orders, e.orderId) {
      ApplyKnown(b.orders, e);
      assert OrderStep(b.orders[0].body, e) == Opened(e);
      hide OrderStep;
    } else {
      ApplyUnknown(b.orders, e);
    }
  }

  lemma RestartKeeps(l: RiskLimits, g: GatewayState)
    requires Recoverable(g)
    ensures var h := GatewayNext(l, g, Restart);
            h.counter == 0 && h.log == g.log && SameBook(g.book, h.book)
  {
    hide Recoverable, SameBook, ReplayBook;
    NextQuiet(l, g, Restart);
  }

  lemma StartAgain(l: RiskLimits, steps: seq<GatewayStep>, symbol: string, qty: int, price: int, n: nat)
    requires OneCounted(GatewayRun(l, steps), symbol, qty, price, n)
    ensures JustStarted(GatewayRun(l, steps + [Restart]), symbol, qty, price, n)
  {
    hide GatewayRun, GatewayNext, NameOf, OrderId, Unstamped, Recoverable;
    var g, h := GatewayRun(l, steps), GatewayRun(l, steps + [Restart]);
    StepSnoc(l, steps, Restart);
    RunIsRecoverable(l, steps);
    RestartKeeps(l, g);
    SameSizes(g.book, h.book);
    SameSlot(g.book, h.book, 0);
    SameTotal(g.book, h.book, OpenExposure, NameOf(symbol));
    OneTotal(g.book.orders, NameOf(symbol));
  }

  lemma OneTotal(t: Table<Order>, symbol: Name)
    requires |t| == 1
    ensures forall m: Metric :: Total(m, t, symbol) == Weight(m, t[0].body, symbol)
  {
    hide Weight;
    assert t[..0] == [];
  }

  lemma FirstLifetime(l: RiskLimits, symbol: string, qty: int, price: int)
    requires SmallEnough(l, qty, price) && 2 * qty <= l.maxNetPosition
    ensures OneCounted(GatewayRun(l, TradingDay(symbol, qty, price)), symbol, qty, price, 1)
  {
    assert JustStarted(GatewayRun(l, []), symbol, qty, price, 0);
    hide GatewayRun, TradingDay, OneCounted, JustStarted, SmallEnough;
    BuyOnce(l, [], symbol, qty, price, 0);
    assert [] + TradingDay(symbol, qty, price) == TradingDay(symbol, qty, price);
  }

  lemma LifetimesNext(symbol: string, qty: int, price: int, n: nat)
    ensures n == 1 ==> Lifetimes(symbol, qty, price, n) == TradingDay(symbol, qty, price)
    ensures n > 1 ==> Lifetimes(symbol, qty, price, n)
                      == Lifetimes(symbol, qty, price, n - 1) + [Restart] + TradingDay(symbol, qty, price)
  {
    hide TradingDay;
  }

  lemma {:induction false} LifetimesCountOne(l: RiskLimits, symbol: string, qty: int, price: int, n: nat)
    requires SmallEnough(l, qty, price) && 2 * qty <= l.maxNetPosition && 0 < n <= MAX_EVENTS
    ensures OneCounted(GatewayRun(l, Lifetimes(symbol, qty, price, n)), symbol, qty, price, n)
  {
    hide GatewayRun, TradingDay, Lifetimes, OneCounted, JustStarted, SmallEnough;
    LifetimesNext(symbol, qty, price, n);
    if n == 1 {
      FirstLifetime(l, symbol, qty, price);
    } else {
      var before := Lifetimes(symbol, qty, price, n - 1);
      LifetimesCountOne(l, symbol, qty, price, n - 1);
      StartAgain(l, before, symbol, qty, price, n - 1);
      BuyOnce(l, before + [Restart], symbol, qty, price, n - 1);
    }
  }

  /** The exchange's report that such an order was filled. */
  function FillReport(symbol: string, qty: int, price: int): (r: ExecutionReport) {
    ExecutionReport('2', symbol, OrderIdText(0), '1', Some(qty), Some(price))
  }

  function FillReports(symbol: string, qty: int, price: int, m: nat): (steps: seq<GatewayStep>) {
    if m == 0 then [] else FillReports(symbol, qty, price, m - 1) + [Deliver(FillReport(symbol, qty, price), 0)]
  }

  function FillEvent(symbol: string, qty: int, price: int): (e: OrderEvent) {
    OrderEvent(0, 0, 0, price, 0, qty, NameOf(symbol), OrderId(0), FullFill, Side.Buy)
  }

  lemma FillBooks(l: RiskLimits, g: GatewayState, symbol: string, qty: int, price: int)
    requires |g.log| < MAX_EVENTS
    ensures var h := GatewayNext(l, g, Deliver(FillReport(symbol, qty, price), 0));
            h.book == ApplyToBook(g.book, FillEvent(symbol, qty, price)) && |h.log| == |g.log| + 1
  {
    hide NameOf, OrderIdText, ApplyToBook;
  }

  /** m of the fills have reached the positions. */
  ghost predicate Arrived(g: GatewayState, h: GatewayState, symbol: Name, qty: int, m: nat) {
    && NetQty(h.book.positions, symbol) == m * qty
    && PositionRoom(h.book, symbol)
    && |h.log| == |g.log| + m
  }

  lemma FillArrives(l: RiskLimits, g: GatewayState, steps: seq<GatewayStep>,
                    symbol: string, qty: int, price: int, m: nat)
    requires Arrived(g, GatewayRun(l, steps), NameOf(symbol), qty, m) && |g.log| + m < MAX_EVENTS
    ensures Arrived(g, GatewayRun(l, steps + [Deliver(FillReport(symbol, qty, price), 0)]), NameOf(symbol), qty, m + 1)
  {
    hide GatewayRun, GatewayNext, NameOf, OrderId, ApplyToBook, NetQty, FillReport;
    var step, b := Deliver(FillReport(symbol, qty, price), 0), GatewayRun(l, steps).book;
    StepSnoc(l, steps, step);
    FillBooks(l, GatewayRun(l, steps), symbol, qty, price);
    FillMoves(b, FillEvent(symbol, qty, price));
    RoomStays(b, FillEvent(symbol, qty, price), NameOf(symbol));
    Distribute(qty, m, 1);
  }

  lemma FillMoves(b: Book, e: OrderEvent)
    requires e.IsFill() && PositionRoom(b, e.symbol)
    ensures NetQty(ApplyToBook(b, e).positions, e.symbol) == NetQty(b.positions, e.symbol) + Signed(e.side, e.fillQty)
  {
    hide ApplyFill, ApplyOrder, NetQty;
    NetStep(b.positions, e, e.symbol);
  }

  lemma {:induction false} FillsArrive(l: RiskLimits, steps: seq<GatewayStep>,
                                       symbol: string, qty: int, price: int, m: nat)
    requires GatewayRun(l, steps).book.positions == [] && |GatewayRun(l, steps).log| + m <= MAX_EVENTS
    ensures Arrived(GatewayRun(l, steps), GatewayRun(l, steps + FillReports(symbol, qty, price, m)),
                    NameOf(symbol), qty, m)
  {
    hide GatewayRun, NameOf, FillReport;
    if m == 0 {
      assert steps + FillReports(symbol, qty, price, m) == steps;
    } else {
      hide Arrived;
      FillsArrive(l, steps, symbol, qty, price, m - 1);
      var more := steps + FillReports(symbol, qty, price, m - 1);
      assert steps + FillReports(symbol, qty, price, m) == more + [Deliver(FillReport(symbol, qty, price), 0)];
      FillArrives(l, GatewayRun(l, steps), more, symbol, qty, price, m - 1);
    }
  }

  /** A buy in each of n lifetimes is approved and sent, each under the id of the first: the
      log holds all of them, the order table and the true exposure only the last. When the
      exchange fills what it was sent, the position is n times the order, whatever the
      limit. */
  lemma RestartsBreakLimit(l: RiskLimits, symbol: string, qty: int, price: int, n: nat)
    requires SmallEnough(l, qty, price) && 2 * qty <= l.maxNetPosition && 0 < n && 2 * n <= MAX_EVENTS
    ensures var steps := Lifetimes(symbol, qty, price, n);
            var g, h := GatewayRun(l, steps), GatewayRun(l, steps + FillReports(symbol, qty, price, n));
            && OneCounted(g, symbol, qty, price, n)
            && TrueExposure(g.book, NameOf(symbol)) == qty
            && NetQty(h.book.positions, NameOf(symbol)) == n * qty
  {
    hide GatewayRun, NameOf, OrderId, Lifetimes, Total, SmallEnough, FillReports, Unstamped;
    LifetimesCountOne(l, symbol, qty, price, n);
    var g := GatewayRun(l, Lifetimes(symbol, qty, price, n));
    OneTotal(g.book.orders, NameOf(symbol));
    FillsArrive(l, Lifetimes(symbol, qty, price, n), symbol, qty, price, n);
  }

  /** With the shipped limits, 10,000 shares in each of 100 lifetimes are a million. */
  lemma DefaultRestartsExceedLimit(symbol: string, price: int)
    requires price <= 500 * PRICE_SCALE
    ensures var steps := Lifetimes(symbol, 10_000, price, 100) + FillReports(symbol, 10_000, price, 100);
            NetQty(GatewayRun(DEFAULT_LIMITS, steps).book.positions, NameOf(symbol)) == 1_000_000
  {
    hide GatewayRun, NameOf, Lifetimes, FillReports, OneCounted, TrueExposure;
    RestartsBreakLimit(DEFAULT_LIMITS, symbol, 10_000, price, 100);
  }

  // ---- The restart that takes the projections apart ----

  /** Buy, be filled, restart, and buy again. */
  function FilledThenRestarted(symbol: string, qty: int, price: int): (steps: seq<GatewayStep>) {
    Lifetimes(symbol, qty, price, 1) + FillReports(symbol, qty, price, 1) + [Restart]
  }

  /** The first order is filled and the position is its quantity. */
  ghost predicate FirstFilled(b: Book, symbol: Name, qty: int) {
    && |b.orders| == 1 && b.orders[0].key == OrderId(0)
    && b.orders[0].body.filledQty == b.orders[0].body.originalQty == qty && b.orders[0].body.state == Filled
    && Has(b.positions, symbol)
    && Get(b.positions, symbol).value.netQty == qty && Get(b.positions, symbol).value.realizedPnl == 0
  }

  lemma FillingFirst(symbol: string, qty: int, price: int)
    requires qty > 0
    ensures var e := FirstOrder(symbol, qty, price);
            var b := ApplyToBook(Book([], [Slot(e.orderId, Opened(e))]), FillEvent(symbol, qty, price));
            FirstFilled(b, NameOf(symbol), qty) && Agrees(b)
  {
    hide NameOf, OrderId, Averaged;
    var e, f := FirstOrder(symbol, qty, price), FillEvent(symbol, qty, price);
    var b := Book([], [Slot(e.orderId, Opened(e))]);
    OnlyOrder(EMPTY_BOOK, e);
    EmptyAgrees();
    AgreementIff(EMPTY_BOOK, e);
    assert Find(b.orders, e.orderId) == 0;
    AgreementIff(b, f);
    ApplyKnown(b.orders, f);
    ApplyFillGet(b.positions, f, f.symbol);
    hide ApplyFill, ApplyOrder, Agrees;
  }

  /** Seen from the projections the restart changes nothing. */
  lemma RestartKeepsFilled(a: Book, b: Book, symbol: Name, qty: int)
    requires SameBook(a, b) && FirstFilled(a, symbol, qty)
    ensures FirstFilled(b, symbol, qty)
  {
    hide SameBook, OrderId;
    SameSizes(a, b);
    SameSlot(a, b, 0);
    SamePosition(a, b, symbol);
  }

  lemma BeforeSecondBuy(l: RiskLimits, symbol: string, qty: int, price: int)
    requires SmallEnough(l, qty, price) && 2 * qty <= l.maxNetPosition
    ensures var g := GatewayRun(l, FilledThenRestarted(symbol, qty, price));
            && FirstFilled(g.book, NameOf(symbol), qty) && Agrees(g.book)
            && g.counter == 0 && |g.log| == 2
  {
    hide GatewayRun, GatewayNext, NameOf, OrderId, FirstFilled, Agrees, SameBook, ApplyToBook, Recoverable,
         FillReport, SmallEnough, Unstamped;
    var one := Lifetimes(symbol, qty, price, 1);
    var fill := Deliver(FillReport(symbol, qty, price), 0);
    LifetimesCountOne(l, symbol, qty, price, 1);
    StepSnoc(l, one, fill);
    FillBooks(l, GatewayRun(l, one), symbol, qty, price);
    assert SmallEnough(l, qty, price) ==> qty > 0 by {
      Positive(l, qty, price);
    }
    FillingFirst(symbol, qty, price);
    assert FillReports(symbol, qty, price, 1) == [fill] by {
      OneReport(symbol, qty, price);
    }
    StepSnoc(l, one + [fill], Restart);
    RunIsRecoverable(l, one + [fill]);
    RestartKeeps(l, GatewayRun(l, one + [fill]));
    var a, b := GatewayRun(l, one + [fill]).book, GatewayRun(l, one + [fill] + [Restart]).book;
    RestartKeepsFilled(a, b, NameOf(symbol), qty);
    SameAgrees(a, b);
  }

  lemma Positive(l: RiskLimits, qty: int, price: int)
    ensures SmallEnough(l, qty, price) ==> qty > 0
  {
  }

  lemma OneReport(symbol: string, qty: int, price: int)
    ensures FillReports(symbol, qty, price, 1) == [Deliver(FillReport(symbol, qty, price), 0)]
  {
    assert FillReports(symbol, qty, price, 0) == [];
  }

  lemma FilledBuyApproved(l: RiskLimits, b: Book, symbol: Name, qty: int, price: int)
    requires SmallEnough(l, qty, price) && 2 * qty <= l.maxNetPosition && 0 <= l.maxLoss
    requires FirstFilled(b, symbol, qty)
    ensures Approved(l, b, symbol, Side.Buy, qty, price)
  {
    OneTotal(b.orders, symbol);
    hide Total, OrderId, Find;
  }

  /** The second buy passes the check and resets the filled order's slot: before it the
      projections agreed, after it the position is ahead of the orders. */
  lemma RestartBreaksAgreement(l: RiskLimits, symbol: string, qty: int, price: int)
    requires SmallEnough(l, qty, price) && 2 * qty <= l.maxNetPosition && 0 <= l.maxLoss
    ensures var steps := FilledThenRestarted(symbol, qty, price);
            && Agrees(GatewayRun(l, steps).book)
            && |GatewayRun(l, steps + TradingDay(symbol, qty, price)).log| == 3
            && !Agrees(GatewayRun(l, steps + TradingDay(symbol, qty, price)).book)
  {
    hide GatewayRun, NameOf, OrderId, Agrees, ApplyToBook, SmallEnough, FilledThenRestarted, Approved, Find;
    var steps := FilledThenRestarted(symbol, qty, price);
    var g := GatewayRun(l, steps);
    Positive(l, qty, price);
    BeforeSecondBuy(l, symbol, qty, price);
    FilledBuyApproved(l, g.book, NameOf(symbol), qty, price);
    SendBooks(l, g.(connected := true), symbol, Side.Buy, qty, price);
    TwoMore(l, steps, Logon, Send(symbol, Side.Buy, qty, price, 0));
    FirstKnown(g.book, NameOf(symbol), qty);
    AgreementIff(g.book, FirstOrder(symbol, qty, price));
  }

  lemma FirstKnown(b: Book, symbol: Name, qty: int)
    requires FirstFilled(b, symbol, qty)
    ensures Has(b.orders, OrderId(0)) && Get(b.orders, OrderId(0)).value.filledQty == qty
  {
    hide OrderId;
    FindAt(b.orders, 0);
  }

  lemma QuietConforms(l: RiskLimits, g: GatewayState, step: GatewayStep, rule: IdRule)
    requires step.Logon? || step.Restart?
    ensures StepConforms(l, g, step, rule)
  {
  }

  lemma FirstBuyConforms(l: RiskLimits, symbol: string, qty: int, price: int)
    requires SmallEnough(l, qty, price) && 2 * qty <= l.maxNetPosition
    ensures RunConforms(l, Lifetimes(symbol, qty, price, 1), SettledIds)
  {
    hide GatewayRun, GatewayNext, NameOf, OrderId, SmallEnough, BookedEvent, RunConforms;
    var g := GatewayRun(l, [Logon]);
    assert g == GatewayState(true, 0, [], EMPTY_BOOK) by {
      LoggedOn(l);
    }
    var send := Send(symbol, Side.Buy, qty, price, 0);
    assert RunConforms(l, [], SettledIds) by {
      NothingConforms(l);
    }
    QuietConforms(l, GatewayRun(l, []), Logon, SettledIds);
    ConformsSnoc(l, [], Logon, SettledIds);
    assert [] + [Logon] == [Logon];
    EmptyTotal(NameOf(symbol));
    FlatBuyApproved(l, g.book, NameOf(symbol), qty, price);
    SendBooks(l, g, symbol, Side.Buy, qty, price);
    Positive(l, qty, price);
    ConformsSnoc(l, [Logon], send, SettledIds);
    LifetimesNext(symbol, qty, price, 1);
    assert [Logon] + [send] == TradingDay(symbol, qty, price);
  }

  lemma LoggedOn(l: RiskLimits)
    ensures GatewayRun(l, [Logon]) == GatewayState(true, 0, [], EMPTY_BOOK)
  {
    assert [Logon][..0] == [];
    assert GatewayRun(l, []) == INITIAL;
  }

  lemma NothingConforms(l: RiskLimits)
    ensures RunConforms(l, [], SettledIds)
  {
  }

  lemma EmptyTotal(symbol: Name)
    ensures Total(OpenExposure, [], symbol) == 0
  {
  }

  lemma FirstFillConforms(b: Book, symbol: string, qty: int, price: int)
    requires b == Book([], [Slot(OrderId(0), Opened(FirstOrder(symbol, qty, price)))]) && qty > 0
    ensures ConformsTo(b, FillEvent(symbol, qty, price), SettledIds)
  {
    hide NameOf, OrderId;
    assert Find(b.orders, OrderId(0)) == 0;
  }

  lemma FillBooked(l: RiskLimits, g: GatewayState, symbol: string, qty: int, price: int)
    requires |g.log| < MAX_EVENTS
    ensures BookedEvent(l, g, Deliver(FillReport(symbol, qty, price), 0)) == Some(FillEvent(symbol, qty, price))
  {
    hide NameOf, OrderIdText;
  }

  /** The same run conforms but for the reused id, whose order is settled: the limit
      theorems cover it while the projections come apart. */
  lemma RestartedRunConforms(l: RiskLimits, symbol: string, qty: int, price: int)
    requires SmallEnough(l, qty, price) && 2 * qty <= l.maxNetPosition && 0 <= l.maxLoss
    ensures RunConforms(l, FilledThenRestarted(symbol, qty, price) + TradingDay(symbol, qty, price), SettledIds)
  {
    hide GatewayRun, GatewayNext, NameOf, OrderId, SmallEnough, BookedEvent, RunConforms, FillReport, Agrees, Unstamped,
         ConformsTo, Approved, FirstFilled;
    var one, send := Lifetimes(symbol, qty, price, 1), Send(symbol, Side.Buy, qty, price, 0);
    var fill := Deliver(FillReport(symbol, qty, price), 0);
    Positive(l, qty, price);
    FirstBuyConforms(l, symbol, qty, price);
    LifetimesCountOne(l, symbol, qty, price, 1);
    FillBooked(l, GatewayRun(l, one), symbol, qty, price);
    FirstFillConforms(GatewayRun(l, one).book, symbol, qty, price);
    ConformsSnoc(l, one, fill, SettledIds);
    QuietConforms(l, GatewayRun(l, one + [fill]), Restart, SettledIds);
    ConformsSnoc(l, one + [fill], Restart, SettledIds);
    OneReport(symbol, qty, price);
    var steps := FilledThenRestarted(symbol, qty, price);
    var g := GatewayRun(l, steps);
    BeforeSecondBuy(l, symbol, qty, price);
    QuietConforms(l, g, Logon, SettledIds);
    ConformsSnoc(l, steps, Logon, SettledIds);
    StepSnoc(l, steps, Logon);
    LogonOnly(l, g);
    FilledBuyApproved(l, g.book, NameOf(symbol), qty, price);
    SendBooks(l, g.(connected := true), symbol, Side.Buy, qty, price);
    SecondBuySettled(g.book, symbol, qty, price);
    ConformsSnoc(l, steps + [Logon], send, SettledIds);
    assert steps + [Logon] + [send] == steps + TradingDay(symbol, qty, price);
  }

  lemma LogonOnly(l: RiskLimits, g: GatewayState)
    ensures GatewayNext(l, g, Logon) == g.(connected := true)
  {
  }

  lemma SecondBuySettled(b: Book, symbol: string, qty: int, price: int)
    requires FirstFilled(b, NameOf(symbol), qty) && qty > 0
    ensures ConformsTo(b, FirstOrder(symbol, qty, price), SettledIds)
  {
    hide NameOf, OrderId;
    FindAt(b.orders, 0);
  }

  /** With the shipped limits, for any order for up to 10,000 shares at up to 500.00. */
  lemma DefaultRestartBreaksAgreement(symbol: string, qty: int, price: int)
    requires 0 < qty <= 10_000 && 0 <= price <= 500 * PRICE_SCALE
    ensures var steps := FilledThenRestarted(symbol, qty, price);
            && Agrees(GatewayRun(DEFAULT_LIMITS, steps).book)
            && !Agrees(GatewayRun(DEFAULT_LIMITS, steps + TradingDay(symbol, qty, price)).book)
  {
    hide GatewayRun, FilledThenRestarted, TradingDay, Agrees;
    NotionalFits(qty, price);
    RestartBreaksAgreement(DEFAULT_LIMITS, symbol, qty, price);
  }

  lemma NotionalFits(qty: int, price: int)
    requires 0 < qty <= 10_000 && 0 <= price <= 500 * PRICE_SCALE
    ensures qty * price <= 5_000_000 * PRICE_SCALE
  {
    MulMonotone(qty, 10_000, price);
  }
}
