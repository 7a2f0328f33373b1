/**
 Both projections side by side: what one event does to the filled position and to the
 open orders of a symbol together, and when the two independent tables agree.
 */
module Books {
  import opened Arithmetic
  import opened FlatTable
  import opened OrderEvents
  import opened OrderManagers
  import opened Orders
  import opened Positions
  import opened PositionTrackers

  datatype Book = Book(positions: Table<Position>, orders: Table<Order>)

  const EMPTY_BOOK: Book := Book([], [])

  /** The two bookkeeping calls for one event. */
  function ApplyToBook(b: Book, e: OrderEvent): (after: Book) {
    Book(ApplyFill(b.positions, e), ApplyOrder(b.orders, e))
  }

  function ReplayBook(b: Book, es: seq<OrderEvent>): (after: Book) {
    if es == [] then b else ApplyToBook(ReplayBook(b, es[..|es| - 1]), es[|es| - 1])
  }

  lemma {:induction false} ReplayBookIsBothReplays(b: Book, es: seq<OrderEvent>)
    ensures ReplayBook(b, es) == Book(ReplayPositions(b.positions, es), ReplayOrders(b.orders, es))
  {
    if es != [] {
      ReplayBookIsBothReplays(b, es[..|es| - 1]);
    }
  }

  lemma ReplaySnoc(b: Book, es: seq<OrderEvent>, e: OrderEvent)
    ensures ReplayBook(b, es + [e]) == ApplyToBook(ReplayBook(b, es), e)
  {
    hide ApplyToBook;
    assert (es + [e])[..|es|] == es;
  }

  /** Filled net quantity; a symbol without a slot is flat. */
  function NetQty(t: Table<Position>, symbol: Name): (net: int) {
    if Has(t, symbol) then Get(t, symbol).value.netQty else 0
  }

  /** README: true_exposure = net_qty (filled) + open_exposure (pending at exchange). */
  function TrueExposure(b: Book, symbol: Name): (exposure: int) {
    NetQty(b.positions, symbol) + Total(OpenExposure, b.orders, symbol)
  }

  /** Will a fill of this symbol find or get a position slot? */
  predicate PositionRoom(b: Book, symbol: Name) {
    Has(b.positions, symbol) || |b.positions| < MAX_SYMBOLS
  }

  lemma NetStep(t: Table<Position>, e: OrderEvent, symbol: Name)
    ensures NetQty(ApplyFill(t, e), symbol)
            == NetQty(t, symbol)
               + (if e.IsFill() && e.symbol == symbol && (Has(t, symbol) || |t| < MAX_SYMBOLS)
                  then Signed(e.side, e.fillQty) else 0)
  {
    ApplyFillGet(t, e, symbol);
    if e.IsFill() {
      NetOfFill(FLAT, FillOp(e));
      if Has(t, symbol) {
        NetOfFill(Get(t, symbol).value, FillOp(e));
      }
    }
    hide ApplyFill, Step;
  }

  lemma NetOfFill(p: Position, op: Op)
    requires op.Fill?
    ensures Step(p, op).netQty == p.netQty + Signed(op.side, op.qty)
  {
    hide Averaged;
  }

  // ---- Conservation of exposure ----

  /** How new the id of a new order has to be: unknown to the order table; or that of a
      closed order, which must not have left anything unfilled in another symbol; or that of
      any closed order. `next_order_id` starts over with every process, so what it draws
      after a restart is known whenever the log holds an order. */
  datatype IdRule = FreshIds | SettledIds | CountedIds

  /** Will all of a new order's quantity enter the exposure, and none leave with the order
      whose slot it takes? */
  predicate Counted(b: Book, e: OrderEvent) {
    if Has(b.orders, e.orderId) then
      var o := Get(b.orders, e.orderId).value;
      !o.IsOpen() || o.Remaining() == 0
    else |b.orders| < MAX_ORDERS
  }

  predicate IdAllowed(b: Book, e: OrderEvent, rule: IdRule) {
    match rule
    case FreshIds => !Has(b.orders, e.orderId) && |b.orders| < MAX_ORDERS
    case SettledIds =>
      && Counted(b, e)
      && (Has(b.orders, e.orderId) ==>
            var o := Get(b.orders, e.orderId).value;
            o.Remaining() == 0 || o.symbol == e.symbol)
    case CountedIds => Counted(b, e)
  }

  /** An event the exchange or `send_order` may legitimately deliver in this state. The
      handlers check none of it. */
  predicate ConformsTo(b: Book, e: OrderEvent, rule: IdRule := FreshIds) {
    if e.kind == NewOrder then IdAllowed(b, e, rule) && e.qty > 0
    else
      && Has(b.orders, e.orderId)
      && Conforms(Get(b.orders, e.orderId).value, e)
      && (e.IsFill() ==> PositionRoom(b, e.symbol))
  }

  /** What a conforming event does to a symbol's true exposure: a new order commits its
      signed quantity, a fill only moves it from open to filled, and a cancel or reject
      gives back the signed remainder. No other symbol moves. */
  function ExposureChange(b: Book, e: OrderEvent, symbol: Name): (delta: int)
    requires ConformsTo(b, e, CountedIds)
  {
    match e.kind
    case NewOrder => if e.symbol == symbol then Signed(e.side, e.qty) else 0
    case PartialFill => 0
    case FullFill => 0
    case Cancel => Released(Get(b.orders, e.orderId).value, symbol)
    case Reject => Released(Get(b.orders, e.orderId).value, symbol)
    case Amend =>
      var o := Get(b.orders, e.orderId).value;
      if o.symbol == symbol && e.qty > 0 then Signed(o.side, e.qty - o.originalQty) else 0
  }

  function Released(o: Order, symbol: Name): (delta: int) {
    if o.symbol == symbol then -Signed(o.side, o.Remaining()) else 0
  }

  lemma ExposureConserved(b: Book, e: OrderEvent, symbol: Name)
    requires ConformsTo(b, e, CountedIds)
    ensures TrueExposure(ApplyToBook(b, e), symbol) == TrueExposure(b, symbol) + ExposureChange(b, e, symbol)
  {
    NetStep(b.positions, e, symbol);
    TotalStep(OpenExposure, b.orders, e, symbol);
    hide ApplyFill, ApplyOrder, Averaged, Total, NetQty;
  }

  /** Exactly when a fill that matches its order leaves the true exposure alone: the order
      is open and the fill is no larger than the remainder. An overfill adds the excess; a
      fill after a cancel brings the whole remainder back. */
  lemma FillConservesIff(b: Book, e: OrderEvent)
    requires e.IsFill() && Has(b.orders, e.orderId) && PositionRoom(b, e.symbol)
    requires var o := Get(b.orders, e.orderId).value; o.symbol == e.symbol && o.side == e.side
    ensures var o := Get(b.orders, e.orderId).value;
            TrueExposure(ApplyToBook(b, e), e.symbol) == TrueExposure(b, e.symbol)
            <==> if o.IsOpen() then e.fillQty <= o.Remaining() else Max(e.fillQty, o.Remaining()) == 0
  {
    NetStep(b.positions, e, e.symbol);
    TotalStep(OpenExposure, b.orders, e, e.symbol);
    hide ApplyFill, ApplyOrder, Averaged, Total, NetQty;
  }

  /** Open exposure that enters with a new order, less what leaves with the slot's old one. */
  function Turnover(b: Book, e: OrderEvent, symbol: Name): (delta: int) {
    var entered := Weight(OpenExposure, Opened(e), symbol);
    if Has(b.orders, e.orderId) then entered - Weight(OpenExposure, Get(b.orders, e.orderId).value, symbol)
    else if |b.orders| < MAX_ORDERS then entered
    else 0
  }

  lemma NewOrderExposure(b: Book, e: OrderEvent, symbol: Name)
    requires e.kind == NewOrder
    ensures TrueExposure(ApplyToBook(b, e), symbol) == TrueExposure(b, symbol) + Turnover(b, e, symbol)
  {
    NetStep(b.positions, e, symbol);
    TotalStep(OpenExposure, b.orders, e, symbol);
    hide ApplyFill, ApplyOrder, Total, NetQty, Weight, Opened;
  }

  /** A new order moves the exposure of its symbol by its signed quantity and no other
      exactly when its id is known and its order closed or filled up, or new and the order
      table has room. Otherwise it drops out of the count, or drops an open order: the
      513th order, and the first after a restart that follows an open ORD0. */
  lemma NewOrderCountedIff(b: Book, e: OrderEvent)
    requires e.kind == NewOrder && e.qty != 0
    ensures (forall symbol: Name ::
               TrueExposure(ApplyToBook(b, e), symbol)
               == TrueExposure(b, symbol) + (if e.symbol == symbol then Signed(e.side, e.qty) else 0))
       <==> Counted(b, e)
  {
    hide ApplyToBook, TrueExposure, Find;
    forall symbol: Name
      ensures TrueExposure(ApplyToBook(b, e), symbol) == TrueExposure(b, symbol) + Turnover(b, e, symbol)
    {
      NewOrderExposure(b, e, symbol);
    }
    if !Counted(b, e) {
      var symbol := if Has(b.orders, e.orderId) then Get(b.orders, e.orderId).value.symbol else e.symbol;
      assert TrueExposure(ApplyToBook(b, e), symbol)
          != TrueExposure(b, symbol) + (if e.symbol == symbol then Signed(e.side, e.qty) else 0);
    }
  }

  // ---- Agreement of the two projections ----

  /** How far apart the two tables are for a symbol. */
  function Gap(b: Book, symbol: Name): (gap: int) {
    NetQty(b.positions, symbol) - Total(FilledNet, b.orders, symbol)
  }

  /** The position of every symbol is what its orders have filled. */
  ghost predicate Agrees(b: Book) {
    forall symbol: Name :: Gap(b, symbol) == 0
  }

  /** The condition a caller would have to check: a new order must not reuse the id of an
      order that has fills, and a fill must be for a known order's symbol and side with
      room for the symbol, or be dropped by both tables. Cancels, rejects, amends, late
      fills and overfills are all harmless. */
  predicate Reconciles(b: Book, e: OrderEvent) {
    match e.kind
    case NewOrder => Has(b.orders, e.orderId) ==> Get(b.orders, e.orderId).value.filledQty == 0
    case PartialFill => ReconcilesFill(b, e)
    case FullFill => ReconcilesFill(b, e)
    case Cancel => true
    case Reject => true
    case Amend => true
  }

  predicate ReconcilesFill(b: Book, e: OrderEvent) {
    || e.fillQty == 0
    || (if Has(b.orders, e.orderId) then
          var o := Get(b.orders, e.orderId).value;
          PositionRoom(b, e.symbol) && o.symbol == e.symbol && o.side == e.side
        else !PositionRoom(b, e.symbol))
  }

  lemma GapStep(b: Book, e: OrderEvent, symbol: Name)
    ensures Gap(ApplyToBook(b, e), symbol) - Gap(b, symbol)
            == (if e.IsFill() && e.symbol == symbol && PositionRoom(b, symbol) then Signed(e.side, e.fillQty) else 0)
               - (if Has(b.orders, e.orderId) && Get(b.orders, e.orderId).value.symbol == symbol && e.IsFill() then
                    Signed(Get(b.orders, e.orderId).value.side, e.fillQty)
                  else if Has(b.orders, e.orderId) && Get(b.orders, e.orderId).value.symbol == symbol && e.kind == NewOrder then
                    -Signed(Get(b.orders, e.orderId).value.side, Get(b.orders, e.orderId).value.filledQty)
                  else 0)
  {
    NetStep(b.positions, e, symbol);
    TotalStep(FilledNet, b.orders, e, symbol);
    hide ApplyFill, ApplyOrder, Averaged, Total, NetQty;
  }

  /** From agreement, an event keeps the tables in agreement exactly under that condition. */
  lemma AgreementIff(b: Book, e: OrderEvent)
    requires Agrees(b)
    ensures Agrees(ApplyToBook(b, e)) <==> Reconciles(b, e)
  {
    hide ApplyToBook;
    if Reconciles(b, e) {
      forall symbol: Name
        ensures Gap(ApplyToBook(b, e), symbol) == 0
      {
        GapStep(b, e, symbol);
        assert Gap(b, symbol) == 0;
      }
    } else {
      GapStep(b, e, e.symbol);
      assert Gap(b, e.symbol) == 0;
      if Has(b.orders, e.orderId) {
        var other := Get(b.orders, e.orderId).value.symbol;
        GapStep(b, e, other);
        assert Gap(b, other) == 0;
        assert Gap(ApplyToBook(b, e), e.symbol) != 0 || Gap(ApplyToBook(b, e), other) != 0;
      }
    }
  }

  /** Over a whole stream from an empty book: the tables agree after every event exactly
      when every event met the condition. */
  lemma AgreementThroughout(es: seq<OrderEvent>)
    ensures (forall k :: 0 <= k <= |es| ==> Agrees(ReplayBook(EMPTY_BOOK, es[..k])))
       <==> (forall k :: 0 <= k < |es| ==> Reconciles(ReplayBook(EMPTY_BOOK, es[..k]), es[k]))
  {
    if forall k :: 0 <= k <= |es| ==> Agrees(ReplayBook(EMPTY_BOOK, es[..k])) {
      forall k | 0 <= k < |es|
        ensures Reconciles(ReplayBook(EMPTY_BOOK, es[..k]), es[k])
      {
        PrefixStep(es, k);
        assert Agrees(ReplayBook(EMPTY_BOOK, es[..k])) && Agrees(ReplayBook(EMPTY_BOOK, es[..k + 1]));
        AgreementIff(ReplayBook(EMPTY_BOOK, es[..k]), es[k]);
      }
    }
    if forall k :: 0 <= k < |es| ==> Reconciles(ReplayBook(EMPTY_BOOK, es[..k]), es[k]) {
      AgreementUpTo(es, |es|);
    }
  }

  lemma PrefixStep(es: seq<OrderEvent>, k: nat)
    requires k < |es|
    ensures ReplayBook(EMPTY_BOOK, es[..k + 1]) == ApplyToBook(ReplayBook(EMPTY_BOOK, es[..k]), es[k])
  {
    assert es[..k + 1][..k] == es[..k];
  }

  lemma {:induction false} AgreementUpTo(es: seq<OrderEvent>, n: nat)
    requires n <= |es|
    requires forall k :: 0 <= k < n ==> Reconciles(ReplayBook(EMPTY_BOOK, es[..k]), es[k])
    ensures forall k :: 0 <= k <= n ==> Agrees(ReplayBook(EMPTY_BOOK, es[..k]))
  {
    hide Agrees, Reconciles, ApplyToBook;
    if n == 0 {
      EmptyAgrees();
      assert es[..0] == [];
    } else {
      AgreementUpTo(es, n - 1);
      PrefixStep(es, n - 1);
      AgreementIff(ReplayBook(EMPTY_BOOK, es[..n - 1]), es[n - 1]);
    }
  }

  lemma EmptyAgrees()
    ensures Agrees(ReplayBook(EMPTY_BOOK, []))
  {
  }

  // ---- Order lifecycle over runs ----

  /** Every order in the table has quantities and state that agree. */
  ghost predicate AllConsistent(t: Table<Order>) {
    forall i :: 0 <= i < |t| ==> Consistent(t[i].body)
  }

  /** A conforming event keeps every order consistent, moves each order's state forward if
      at all, and keeps its place, id, symbol and side. */
  lemma LifecycleStep(b: Book, e: OrderEvent)
    requires ConformsTo(b, e) && AllConsistent(b.orders)
    ensures var t, u := b.orders, ApplyOrder(b.orders, e);
            && AllConsistent(u)
            && |t| <= |u|
            && forall i :: 0 <= i < |t| ==>
                 && u[i].key == t[i].key
                 && u[i].body.symbol == t[i].body.symbol && u[i].body.side == t[i].body.side
                 && Forward(t[i].body.state, u[i].body.state)
  {
    hide ApplyOrder, OrderStep, Consistent, Forward;
    if Has(b.orders, e.orderId) {
      ApplyKnown(b.orders, e);
      ConformingStep(Get(b.orders, e.orderId).value, e);
    } else {
      ApplyUnknown(b.orders, e);
      OpenedConsistent(e);
    }
    ForwardReflexive();
  }

  lemma OpenedConsistent(e: OrderEvent)
    ensures e.qty > 0 ==> Consistent(Opened(e))
  {
  }

  lemma ForwardReflexive()
    ensures forall s: OrderState :: Forward(s, s)
  {
  }
}
