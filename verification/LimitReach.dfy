/**
 Where the limit check stops protecting. The check compares the limit with filled plus
 open quantity, in which open buys and sells cancel out; the position itself can go as
 far as one side of the open orders takes it.
 */
module LimitReach {
  import opened Arithmetic
  import opened Books
  import opened FlatTable
  import opened OrderEvents
  import opened OrderManagers
  import opened Orders
  import opened Positions
  import opened PositionTrackers
  import opened RiskCheckers

  /** Fills, cancels and rejects that the exchange may still send. */
  ghost predicate ConformingReports(b: Book, es: seq<OrderEvent>) {
    forall k :: 0 <= k < |es| ==>
      ConformsTo(ReplayBook(b, es[..k]), es[k]) && es[k].kind !in {NewOrder, Amend}
  }

  lemma ReportsPrefix(b: Book, es: seq<OrderEvent>)
    requires ConformingReports(b, es) && es != []
    ensures ConformingReports(b, es[..|es| - 1])
    ensures ConformsTo(ReplayBook(b, es[..|es| - 1]), es[|es| - 1]) && es[|es| - 1].kind !in {NewOrder, Amend}
  {
    hide ReplayBook, ConformsTo;
    var init := es[..|es| - 1];
    assert forall k :: 0 <= k < |init| ==> init[..k] == es[..k];
  }

  lemma ReportsSnoc(b: Book, es: seq<OrderEvent>, e: OrderEvent)
    requires ConformingReports(b, es)
    requires ConformsTo(ReplayBook(b, es), e) && e.kind !in {NewOrder, Amend}
    ensures ConformingReports(b, es + [e])
    ensures ReplayBook(b, es + [e]) == ApplyToBook(ReplayBook(b, es), e)
  {
    hide ReplayBook, ConformsTo, ApplyToBook;
    ReplaySnoc(b, es, e);
    var all := es + [e];
    assert forall k :: 0 <= k <= |es| ==> all[..k] == es[..k];
    assert es[..|es|] == es;
  }

  /** Whatever the exchange sends, a position stays inside its reach. */
  lemma {:induction false} NetStaysInReach(b: Book, es: seq<OrderEvent>, symbol: Name)
    requires AllConsistent(b.orders) && ConformingReports(b, es)
    ensures var a := ReplayBook(b, es);
            && AllConsistent(a.orders)
            && WorstShort(b, symbol) <= WorstShort(a, symbol)
            && WorstLong(a, symbol) <= WorstLong(b, symbol)
            && WorstShort(b, symbol) <= NetQty(a.positions, symbol) <= WorstLong(b, symbol)
  {
    if es != [] {
      hide ApplyToBook, ConformsTo, WorstShort, WorstLong, AllConsistent, NetQty;
      ReportsPrefix(b, es);
      NetStaysInReach(b, es[..|es| - 1], symbol);
      var a, e := ReplayBook(b, es[..|es| - 1]), es[|es| - 1];
      WorstNeverGrows(a, e, symbol);
      LifecycleStep(a, e);
      ApplyKeepsOrders(a, e);
      NetInReach(ApplyToBook(a, e), symbol);
    } else {
      NetInReach(b, symbol);
    }
  }

  lemma ApplyKeepsOrders(b: Book, e: OrderEvent)
    ensures ApplyToBook(b, e).orders == ApplyOrder(b.orders, e)
  {
    hide ApplyOrder, ApplyFill;
  }

  lemma NetInReach(b: Book, symbol: Name)
    requires AllConsistent(b.orders)
    ensures WorstShort(b, symbol) <= NetQty(b.positions, symbol) <= WorstLong(b, symbol)
  {
    hide NetQty;
    TotalNonNegative(OpenBuys, b.orders, symbol);
    TotalNonNegative(OpenSells, b.orders, symbol);
  }

  /** The exposure stays inside it too: reports only fill or give back open quantity. */
  lemma ExposureStaysInReach(b: Book, es: seq<OrderEvent>, symbol: Name)
    requires AllConsistent(b.orders) && ConformingReports(b, es)
    ensures WorstShort(b, symbol) <= TrueExposure(ReplayBook(b, es), symbol) <= WorstLong(b, symbol)
  {
    hide ReplayBook, ConformingReports, NetQty, Total;
    NetStaysInReach(b, es, symbol);
    var a := ReplayBook(b, es);
    ExposureSplits(a.orders, symbol);
    TotalNonNegative(OpenBuys, a.orders, symbol);
    TotalNonNegative(OpenSells, a.orders, symbol);
  }

  // ---- Both ends are reached ----

  /** The report that ends an order: a fill at its limit of all that remains, or a cancel. */
  function EndReport(slot: Slot<Order>, kind: EventType): (e: OrderEvent) {
    var o := slot.body;
    OrderEvent(0, 0, 0, o.limitPrice, o.Remaining(), o.Remaining(), o.symbol, slot.key, kind, o.side)
  }

  predicate Targeted(o: Order, symbol: Name, side: Side) {
    o.IsOpen() && o.symbol == symbol && o.side == side
  }

  /** Reports that end the symbol's open orders on one side. */
  function EndSide(t: Table<Order>, symbol: Name, side: Side, kind: EventType): (es: seq<OrderEvent>) {
    if t == [] then []
    else
      var slot := t[|t| - 1];
      EndSide(t[..|t| - 1], symbol, side, kind)
      + (if Targeted(slot.body, symbol, side) then [EndReport(slot, kind)] else [])
  }

  function OpenOn(side: Side): (m: Metric) {
    if side == Side.Buy then OpenBuys else OpenSells
  }

  /** After ending the first n slots' orders the rest of the table is as it was. */
  ghost predicate EndedUpTo(b: Book, a: Book, n: nat, symbol: Name) {
    && n <= |b.orders| == |a.orders|
    && Distinct(a.orders)
    && (forall i :: 0 <= i < |b.orders| ==> a.orders[i].key == b.orders[i].key)
    && (forall i :: n <= i < |b.orders| ==> a.orders[i] == b.orders[i])
    && (PositionRoom(b, symbol) ==> PositionRoom(a, symbol))
  }

  /** Fills have taken the open quantity into the position; cancels have taken it out of the
      exposure. */
  predicate Moved(b: Book, a: Book, n: nat, symbol: Name, side: Side, kind: EventType)
    requires n <= |b.orders|
  {
    var ended := Signed(side, Total(OpenOn(side), b.orders[..n], symbol));
    if kind == Cancel then TrueExposure(a, symbol) == TrueExposure(b, symbol) - ended
    else NetQty(a.positions, symbol) == NetQty(b.positions, symbol) + ended
  }

  lemma EndOne(b: Book, a: Book, n: nat, symbol: Name, side: Side, kind: EventType)
    requires AllConsistent(b.orders) && EndedUpTo(b, a, n, symbol) && n < |b.orders|
    requires Targeted(b.orders[n].body, symbol, side)
    requires kind == Cancel || (kind == FullFill && PositionRoom(b, symbol))
    ensures ConformsTo(a, EndReport(b.orders[n], kind))
    ensures EndedUpTo(b, ApplyToBook(a, EndReport(b.orders[n], kind)), n + 1, symbol)
  {
    hide ApplyFill, ApplyOrder, OrderStep;
    var e := EndReport(b.orders[n], kind);
    FindAt(a.orders, n);
    ApplyKnown(a.orders, e);
    RoomStays(a, e, symbol);
    assert Distinct(ApplyOrder(a.orders, e)) by {
      ApplyOrderGet(a.orders, e, e.orderId);
    }
  }

  lemma MoveOne(b: Book, a: Book, n: nat, symbol: Name, side: Side, kind: EventType)
    requires AllConsistent(b.orders) && EndedUpTo(b, a, n, symbol) && n < |b.orders|
    requires Targeted(b.orders[n].body, symbol, side)
    requires kind == Cancel || (kind == FullFill && PositionRoom(b, symbol))
    requires Moved(b, a, n, symbol, side, kind)
    ensures Moved(b, ApplyToBook(a, EndReport(b.orders[n], kind)), n + 1, symbol, side, kind)
  {
    hide Total, ApplyFill, ApplyOrder, NetQty, TrueExposure, AllConsistent;
    var e := EndReport(b.orders[n], kind);
    FindAt(a.orders, n);
    TargetWeight(b.orders, n, symbol, side);
    if kind == Cancel {
      ExposureConserved(a, e, symbol);
    } else {
      NetStep(a.positions, e, symbol);
    }
  }

  lemma TargetWeight(t: Table<Order>, n: nat, symbol: Name, side: Side)
    requires n < |t|
    ensures Total(OpenOn(side), t[..n + 1], symbol)
            == Total(OpenOn(side), t[..n], symbol)
               + (if Targeted(t[n].body, symbol, side) then t[n].body.Remaining() else 0)
  {
    assert t[..n + 1][..n] == t[..n];
  }

  lemma RoomStays(b: Book, e: OrderEvent, symbol: Name)
    requires e.kind == Cancel || (e.IsFill() && e.symbol == symbol)
    ensures PositionRoom(b, symbol) ==> PositionRoom(ApplyToBook(b, e), symbol)
  {
    hide ApplyFill, ApplyOrder, Step;
    ApplyFillGet(b.positions, e, symbol);
    if e.kind == Cancel {
      assert ApplyFill(b.positions, e) == b.positions by {
        NotAFill(b.positions, e);
      }
    }
  }

  lemma NotAFill(t: Table<Position>, e: OrderEvent)
    requires !e.IsFill()
    ensures ApplyFill(t, e) == t
  {
  }

  /** The same, one more slot ended or passed over. */
  lemma EndSideNext(t: Table<Order>, n: nat, symbol: Name, side: Side, kind: EventType)
    requires n < |t|
    ensures EndSide(t[..n + 1], symbol, side, kind)
            == EndSide(t[..n], symbol, side, kind)
               + (if Targeted(t[n].body, symbol, side) then [EndReport(t[n], kind)] else [])
  {
    hide EndReport, Targeted;
    assert t[..n + 1][..n] == t[..n];
  }

  ghost predicate Ended(b: Book, es: seq<OrderEvent>, n: nat, symbol: Name, side: Side, kind: EventType) {
    var a := ReplayBook(b, es);
    && ConformingReports(b, es)
    && EndedUpTo(b, a, n, symbol)
    && Moved(b, a, n, symbol, side, kind)
  }

  lemma EndStep(b: Book, es: seq<OrderEvent>, n: nat, symbol: Name, side: Side, kind: EventType)
    requires AllConsistent(b.orders) && n < |b.orders| && Ended(b, es, n, symbol, side, kind)
    requires kind == Cancel || (kind == FullFill && PositionRoom(b, symbol))
    ensures var more := if Targeted(b.orders[n].body, symbol, side) then [EndReport(b.orders[n], kind)] else [];
            Ended(b, es + more, n + 1, symbol, side, kind)
  {
    hide ApplyToBook, ConformingReports, EndedUpTo, Moved, ConformsTo, AllConsistent, PositionRoom, ReplayBook;
    if Targeted(b.orders[n].body, symbol, side) {
      EndOne(b, ReplayBook(b, es), n, symbol, side, kind);
      MoveOne(b, ReplayBook(b, es), n, symbol, side, kind);
      ReportsSnoc(b, es, EndReport(b.orders[n], kind));
    } else {
      SkipOne(b, ReplayBook(b, es), n, symbol, side, kind);
      assert es + [] == es;
    }
  }

  lemma {:induction false} EndSideReaches(b: Book, n: nat, symbol: Name, side: Side, kind: EventType)
    requires AllConsistent(b.orders) && Distinct(b.orders) && n <= |b.orders|
    requires kind == Cancel || (kind == FullFill && PositionRoom(b, symbol))
    ensures Ended(b, EndSide(b.orders[..n], symbol, side, kind), n, symbol, side, kind)
  {
    if n == 0 {
      assert b.orders[..0] == [];
      hide NetQty, PositionRoom, TrueExposure;
    } else {
      hide AllConsistent, Distinct, PositionRoom, Ended, EndSide, EndReport, Targeted;
      EndSideReaches(b, n - 1, symbol, side, kind);
      EndStep(b, EndSide(b.orders[..n - 1], symbol, side, kind), n - 1, symbol, side, kind);
      EndSideNext(b.orders, n - 1, symbol, side, kind);
    }
  }

  lemma SkipOne(b: Book, a: Book, n: nat, symbol: Name, side: Side, kind: EventType)
    requires EndedUpTo(b, a, n, symbol) && n < |b.orders| && Moved(b, a, n, symbol, side, kind)
    requires !Targeted(b.orders[n].body, symbol, side)
    ensures EndedUpTo(b, a, n + 1, symbol) && Moved(b, a, n + 1, symbol, side, kind)
  {
    hide Total, NetQty, PositionRoom, TrueExposure;
    TargetWeight(b.orders, n, symbol, side);
  }

  /** The exchange can take the symbol's position to `net` with reports alone. */
  ghost predicate CanReach(b: Book, symbol: Name, net: int) {
    exists es :: ConformingReports(b, es) && NetQty(ReplayBook(b, es).positions, symbol) == net
  }

  /** The exchange can take the symbol's true exposure there with reports alone. */
  ghost predicate CanExpose(b: Book, symbol: Name, exposure: int) {
    exists es :: ConformingReports(b, es) && TrueExposure(ReplayBook(b, es), symbol) == exposure
  }

  /** Filling one side takes the position to the end of its reach. */
  lemma ReachIsReached(b: Book, symbol: Name)
    requires AllConsistent(b.orders) && Distinct(b.orders) && PositionRoom(b, symbol)
    ensures CanReach(b, symbol, WorstLong(b, symbol))
    ensures CanReach(b, symbol, WorstShort(b, symbol))
  {
    hide ConformingReports, ReplayBook, NetQty, AllConsistent, PositionRoom, Distinct, EndSide, Total;
    var buys, sells := EndSide(b.orders, symbol, Side.Buy, FullFill), EndSide(b.orders, symbol, Side.Sell, FullFill);
    assert b.orders[..|b.orders|] == b.orders;
    EndSideReaches(b, |b.orders|, symbol, Side.Buy, FullFill);
    EndSideReaches(b, |b.orders|, symbol, Side.Sell, FullFill);
    assert NetQty(ReplayBook(b, buys).positions, symbol) == WorstLong(b, symbol);
    assert NetQty(ReplayBook(b, sells).positions, symbol) == WorstShort(b, symbol);
  }

  /** Cancelling the other side takes the true exposure to the same end, before any fill. */
  lemma ExposureReachIsReached(b: Book, symbol: Name)
    requires AllConsistent(b.orders) && Distinct(b.orders)
    ensures CanExpose(b, symbol, WorstLong(b, symbol))
    ensures CanExpose(b, symbol, WorstShort(b, symbol))
  {
    hide ConformingReports, ReplayBook, NetQty, AllConsistent, PositionRoom, Distinct, EndSide, Total;
    var buys, sells := EndSide(b.orders, symbol, Side.Buy, Cancel), EndSide(b.orders, symbol, Side.Sell, Cancel);
    assert b.orders[..|b.orders|] == b.orders;
    EndSideReaches(b, |b.orders|, symbol, Side.Buy, Cancel);
    EndSideReaches(b, |b.orders|, symbol, Side.Sell, Cancel);
    ExposureSplits(b.orders, symbol);
    assert TrueExposure(ReplayBook(b, sells), symbol) == WorstLong(b, symbol);
    assert TrueExposure(ReplayBook(b, buys), symbol) == WorstShort(b, symbol);
  }

  /** The exchange can still take a position past a bound exactly when its open orders on
      one side reach past it. `send_order` does not look at that quantity. */
  lemma PositionLimitIff(b: Book, symbol: Name, bound: int)
    requires AllConsistent(b.orders) && Distinct(b.orders) && PositionRoom(b, symbol)
    ensures (forall es :: ConformingReports(b, es) ==> Abs(NetQty(ReplayBook(b, es).positions, symbol)) <= bound)
       <==> -bound <= WorstShort(b, symbol) && WorstLong(b, symbol) <= bound
  {
    hide ConformingReports, ReplayBook, NetQty, AllConsistent, PositionRoom, Distinct, WorstShort, WorstLong;
    forall es | ConformingReports(b, es)
      ensures WorstShort(b, symbol) <= NetQty(ReplayBook(b, es).positions, symbol) <= WorstLong(b, symbol)
    {
      NetStaysInReach(b, es, symbol);
    }
    ReachIsReached(b, symbol);
    NetInReach(b, symbol);
  }

  /** And it can take the true exposure, the very quantity the check limits, past a bound
      exactly then: net exposure within the limit is not enough once cancels may come. */
  lemma ExposureLimitIff(b: Book, symbol: Name, bound: int)
    requires AllConsistent(b.orders) && Distinct(b.orders)
    ensures (forall es :: ConformingReports(b, es) ==> Abs(TrueExposure(ReplayBook(b, es), symbol)) <= bound)
       <==> -bound <= WorstShort(b, symbol) && WorstLong(b, symbol) <= bound
  {
    hide ConformingReports, ReplayBook, TrueExposure, AllConsistent, PositionRoom, Distinct, WorstShort, WorstLong;
    forall es | ConformingReports(b, es)
      ensures WorstShort(b, symbol) <= TrueExposure(ReplayBook(b, es), symbol) <= WorstLong(b, symbol)
    {
      ExposureStaysInReach(b, es, symbol);
    }
    ExposureReachIsReached(b, symbol);
    NetInReach(b, symbol);
  }

  // ---- Two-sided flow passes the check and breaks the limit ----

  function Quote(symbol: Name, side: Side, qty: int, price: int, id: Name): (e: OrderEvent) {
    OrderEvent(0, 0, price, 0, qty, 0, symbol, id, NewOrder, side)
  }

  function AlternateSide(i: nat): (side: Side) {
    if i % 2 == 0 then Side.Buy else Side.Sell
  }

  /** A buy, a sell, a buy, and so on, all of one quantity and price. */
  function Alternating(symbol: Name, qty: int, price: int, ids: seq<Name>): (es: seq<OrderEvent>) {
    if ids == [] then []
    else
      var n := |ids| - 1;
      Alternating(symbol, qty, price, ids[..n]) + [Quote(symbol, AlternateSide(n), qty, price, ids[n])]
  }

  ghost predicate DistinctIds(ids: seq<Name>) {
    forall i, j :: 0 <= i < j < |ids| ==> ids[i] != ids[j]
  }

  /** All the alternating orders are open and none is filled. */
  ghost predicate AllQuoted(b: Book, symbol: Name, qty: int, ids: seq<Name>) {
    && b.positions == []
    && Keys(b.orders) == ids
    && AllConsistent(b.orders)
    && Total(OpenBuys, b.orders, symbol) == ((|ids| + 1) / 2) * qty
    && Total(OpenSells, b.orders, symbol) == (|ids| / 2) * qty
  }

  /** An order that the size checks let through and that fits the limit from flat. */
  predicate SmallEnough(l: RiskLimits, qty: int, price: int) {
    0 < qty <= l.maxOrderQty && qty <= l.maxNetPosition && qty * price <= l.maxOrderNotional
  }

  lemma AlternatingSnoc(symbol: Name, qty: int, price: int, ids: seq<Name>, id: Name)
    ensures Alternating(symbol, qty, price, ids + [id])
            == Alternating(symbol, qty, price, ids) + [Quote(symbol, AlternateSide(|ids|), qty, price, id)]
  {
    hide Quote, AlternateSide;
    assert (ids + [id])[..|ids|] == ids;
  }

  lemma AlternatingStep(l: RiskLimits, symbol: Name, qty: int, price: int, ids: seq<Name>, id: Name)
    requires SmallEnough(l, qty, price) && |ids| < MAX_ORDERS && id !in ids
    requires var es := Alternating(symbol, qty, price, ids);
             LegalRun(l, EMPTY_BOOK, es) && AllQuoted(ReplayBook(EMPTY_BOOK, es), symbol, qty, ids)
    ensures var es := Alternating(symbol, qty, price, ids + [id]);
            LegalRun(l, EMPTY_BOOK, es) && AllQuoted(ReplayBook(EMPTY_BOOK, es), symbol, qty, ids + [id])
  {
    hide Alternating, LegalRun, LegalEvent, ReplayBook, ApplyToBook, AllQuoted, Quote, AlternateSide;
    var es := Alternating(symbol, qty, price, ids);
    var b, e := ReplayBook(EMPTY_BOOK, es), Quote(symbol, AlternateSide(|ids|), qty, price, id);
    NextQuoteLegal(l, b, symbol, qty, price, ids, id);
    NextQuoted(b, symbol, qty, price, ids, id);
    LegalSnoc(l, es, e);
    AlternatingSnoc(symbol, qty, price, ids, id);
  }

  lemma {:induction false} AlternatingPasses(l: RiskLimits, symbol: Name, qty: int, price: int, ids: seq<Name>)
    requires SmallEnough(l, qty, price) && |ids| <= MAX_ORDERS && DistinctIds(ids)
    ensures var es := Alternating(symbol, qty, price, ids);
            LegalRun(l, EMPTY_BOOK, es) && AllQuoted(ReplayBook(EMPTY_BOOK, es), symbol, qty, ids)
  {
    if ids == [] {
      assert Keys(EMPTY_BOOK.orders) == ids;
    } else {
      hide Alternating, LegalRun, ReplayBook, AllQuoted, SmallEnough;
      var init, id := ids[..|ids| - 1], ids[|ids| - 1];
      assert init + [id] == ids;
      AlternatingPasses(l, symbol, qty, price, init);
      AlternatingStep(l, symbol, qty, price, init, id);
    }
  }

  lemma NextQuoteApproved(l: RiskLimits, b: Book, symbol: Name, qty: int, price: int, ids: seq<Name>)
    requires SmallEnough(l, qty, price) && AllQuoted(b, symbol, qty, ids)
    ensures Approved(l, b, symbol, AlternateSide(|ids|), qty, price)
    ensures TrueExposure(b, symbol) == if |ids| % 2 == 0 then 0 else qty
  {
    hide Total;
    ExposureSplits(b.orders, symbol);
    var n := |ids|;
    Distribute(qty, n / 2, (n + 1) / 2 - n / 2);
    assert (n + 1) / 2 - n / 2 == n % 2;
  }

  lemma NextQuoteLegal(l: RiskLimits, b: Book, symbol: Name, qty: int, price: int, ids: seq<Name>, id: Name)
    requires SmallEnough(l, qty, price) && AllQuoted(b, symbol, qty, ids) && |ids| < MAX_ORDERS && id !in ids
    ensures LegalEvent(l, b, Quote(symbol, AlternateSide(|ids|), qty, price, id))
  {
    hide Approved;
    NextQuoteApproved(l, b, symbol, qty, price, ids);
    HasIsMember(b.orders, id);
  }

  lemma NextQuoted(b: Book, symbol: Name, qty: int, price: int, ids: seq<Name>, id: Name)
    requires AllQuoted(b, symbol, qty, ids) && qty > 0 && |ids| < MAX_ORDERS && id !in ids
    ensures AllQuoted(ApplyToBook(b, Quote(symbol, AlternateSide(|ids|), qty, price, id)), symbol, qty, ids + [id])
  {
    hide Total, ApplyOrder;
    var n, e := |ids|, Quote(symbol, AlternateSide(|ids|), qty, price, id);
    HasIsMember(b.orders, id);
    ApplyUnknown(b.orders, e);
    TotalAppend(OpenBuys, b.orders, Slot(id, Opened(e)), symbol);
    TotalAppend(OpenSells, b.orders, Slot(id, Opened(e)), symbol);
    Distribute(qty, n / 2, 1);
    assert (n + 2) / 2 == n / 2 + 1;
    assert Keys(ApplyToBook(b, e).orders) == ids + [id];
  }

  lemma QuotedDistinct(b: Book, symbol: Name, qty: int, ids: seq<Name>)
    requires AllQuoted(b, symbol, qty, ids) && DistinctIds(ids)
    ensures Distinct(b.orders)
  {
    forall i, j | 0 <= i < j < |b.orders|
      ensures b.orders[i].key != b.orders[j].key
    {
      assert Keys(b.orders)[i] != Keys(b.orders)[j];
    }
  }

  /** n alternating orders of any size and price that a single one may have all pass the
      check, and from there fills can take the position, and cancels the true exposure, to
      half of them on one side: to n / 2 times the order, whatever the limit. */
  lemma TwoSidedFlowBreaksLimit(l: RiskLimits, symbol: Name, qty: int, price: int, ids: seq<Name>)
    requires SmallEnough(l, qty, price) && |ids| <= MAX_ORDERS && DistinctIds(ids)
    ensures var es := Alternating(symbol, qty, price, ids);
            var b, long, short := ReplayBook(EMPTY_BOOK, es), ((|ids| + 1) / 2) * qty, (|ids| / 2) * qty;
            && LegalRun(l, EMPTY_BOOK, es)
            && CanReach(b, symbol, long) && CanReach(b, symbol, -short)
            && CanExpose(b, symbol, long) && CanExpose(b, symbol, -short)
  {
    hide LegalRun, ReplayBook, CanReach, CanExpose, Alternating, SmallEnough, DistinctIds, AllQuoted;
    AlternatingPasses(l, symbol, qty, price, ids);
    var b := ReplayBook(EMPTY_BOOK, Alternating(symbol, qty, price, ids));
    QuotedDistinct(b, symbol, qty, ids);
    QuotedReach(b, symbol, qty, ids);
    hide AllConsistent, Distinct, PositionRoom, WorstLong, WorstShort;
    ReachIsReached(b, symbol);
    ExposureReachIsReached(b, symbol);
  }

  lemma QuotedReach(b: Book, symbol: Name, qty: int, ids: seq<Name>)
    requires AllQuoted(b, symbol, qty, ids)
    ensures AllConsistent(b.orders) && PositionRoom(b, symbol)
    ensures WorstLong(b, symbol) == ((|ids| + 1) / 2) * qty
    ensures WorstShort(b, symbol) == -((|ids| / 2) * qty)
  {
    hide Total;
  }

  // ---- The blind spot of the position-only check ----

  /** One order after another on one side, none of them filled. */
  function Stacked(symbol: Name, side: Side, qty: int, price: int, ids: seq<Name>): (es: seq<OrderEvent>) {
    if ids == [] then []
    else Stacked(symbol, side, qty, price, ids[..|ids| - 1]) + [Quote(symbol, side, qty, price, ids[|ids| - 1])]
  }

  ghost predicate AreNew(b: Book, ids: seq<Name>) {
    && DistinctIds(ids)
    && forall i :: 0 <= i < |ids| ==> !Has(b.orders, ids[i])
  }

  lemma StackedSnoc(symbol: Name, side: Side, qty: int, price: int, ids: seq<Name>, id: Name)
    ensures Stacked(symbol, side, qty, price, ids + [id])
            == Stacked(symbol, side, qty, price, ids) + [Quote(symbol, side, qty, price, id)]
  {
    hide Quote;
    assert (ids + [id])[..|ids|] == ids;
  }

  /** n orders of this size and side are open in a that were not in b; nothing was filled. */
  predicate StackedOn(b: Book, a: Book, symbol: Name, side: Side, qty: int, ids: seq<Name>) {
    && a.positions == b.positions
    && Keys(a.orders) == Keys(b.orders) + ids
    && TrueExposure(a, symbol) == TrueExposure(b, symbol) + Signed(side, |ids| * qty)
  }

  /** From any state, whatever its positions and open orders: an order that the
      position-only check passes it passes again and again while nothing fills, and the
      exposure grows with each; the full check passes the next one exactly while all of them
      together stay within the limit and, unless that is allowed, do not cross. */
  lemma BlindSpot(l: RiskLimits, b: Book, symbol: Name, side: Side, qty: int, price: int, ids: seq<Name>, next: Name)
    requires 0 < qty && CheckPosition(l, Get(b.positions, symbol), side, qty, price) == Pass
    requires |b.orders| + |ids| < MAX_ORDERS && AreNew(b, ids + [next])
    ensures var a := ReplayBook(b, Stacked(symbol, side, qty, price, ids));
            var from := TrueExposure(b, symbol) + Signed(side, |ids| * qty);
            var to := from + Signed(side, qty);
            && TrueExposure(a, symbol) == from
            && ConformsTo(a, Quote(symbol, side, qty, price, next))
            && CheckPosition(l, Get(a.positions, symbol), side, qty, price) == Pass
            && (Approved(l, a, symbol, side, qty, price)
                <==> Abs(to) <= l.maxNetPosition && (l.allowPositionCross || !Crosses(from, to)))
  {
    hide ReplayBook, Stacked, CheckPosition, Approved, ConformsTo, TrueExposure, Keys, Get, Crosses, Quote, AreNew;
    AreNewPrefix(b, ids, next);
    StackIsOn(b, symbol, side, qty, price, ids);
    StackedState(l, b, ReplayBook(b, Stacked(symbol, side, qty, price, ids)), symbol, side, qty, price, ids, next);
  }

  lemma {:induction false} StackIsOn(b: Book, symbol: Name, side: Side, qty: int, price: int, ids: seq<Name>)
    requires 0 < qty && |b.orders| + |ids| <= MAX_ORDERS && AreNew(b, ids)
    ensures StackedOn(b, ReplayBook(b, Stacked(symbol, side, qty, price, ids)), symbol, side, qty, ids)
  {
    if ids == [] {
      hide TrueExposure;
      assert Keys(b.orders) == Keys(b.orders) + ids;
    } else {
      hide ApplyToBook, ReplayBook, Stacked, StackedOn, Quote, AreNew;
      var init, id := ids[..|ids| - 1], ids[|ids| - 1];
      assert init + [id] == ids;
      AreNewPrefix(b, init, id);
      StackIsOn(b, symbol, side, qty, price, init);
      var es := Stacked(symbol, side, qty, price, init);
      StackOne(b, ReplayBook(b, es), symbol, side, qty, price, init, id);
      StackedSnoc(symbol, side, qty, price, init, id);
      ReplaySnoc(b, es, Quote(symbol, side, qty, price, id));
    }
  }

  /** With a full order table the full check is as blind: orders with new ids leave the book
      as it is, however many are sent. */
  lemma {:induction false} FullTableForgets(b: Book, symbol: Name, side: Side, qty: int, price: int, ids: seq<Name>)
    requires |b.orders| >= MAX_ORDERS && forall i :: 0 <= i < |ids| ==> !Has(b.orders, ids[i])
    ensures ReplayBook(b, Stacked(symbol, side, qty, price, ids)) == b
  {
    if ids != [] {
      hide ApplyToBook, ReplayBook, Stacked, Quote, Has;
      var init, id := ids[..|ids| - 1], ids[|ids| - 1];
      assert init + [id] == ids;
      FullTableForgets(b, symbol, side, qty, price, init);
      StackedSnoc(symbol, side, qty, price, init, id);
      ReplaySnoc(b, Stacked(symbol, side, qty, price, init), Quote(symbol, side, qty, price, id));
      QuoteFields(symbol, side, qty, price, id);
      FullTableStep(b, Quote(symbol, side, qty, price, id));
    }
  }

  lemma QuoteFields(symbol: Name, side: Side, qty: int, price: int, id: Name)
    ensures Quote(symbol, side, qty, price, id).kind == NewOrder && Quote(symbol, side, qty, price, id).orderId == id
  {
  }

  lemma FullTableStep(b: Book, e: OrderEvent)
    requires |b.orders| >= MAX_ORDERS && e.kind == NewOrder && !Has(b.orders, e.orderId)
    ensures ApplyToBook(b, e) == b
  {
    ApplyUnknown(b.orders, e);
    NotAFill(b.positions, e);
    hide ApplyFill, ApplyOrder;
  }

  lemma AreNewPrefix(b: Book, ids: seq<Name>, next: Name)
    requires AreNew(b, ids + [next])
    ensures AreNew(b, ids)
  {
    hide Has;
    var all := ids + [next];
    assert forall i :: 0 <= i < |ids| ==> all[i] == ids[i];
  }

  /** A new order moves no position, takes the next slot and adds its quantity. */
  lemma QuoteAdds(a: Book, symbol: Name, side: Side, qty: int, price: int, id: Name)
    requires 0 < qty && |a.orders| < MAX_ORDERS && !Has(a.orders, id)
    ensures var c := ApplyToBook(a, Quote(symbol, side, qty, price, id));
            && c.positions == a.positions
            && Keys(c.orders) == Keys(a.orders) + [id]
            && TrueExposure(c, symbol) == TrueExposure(a, symbol) + Signed(side, qty)
  {
    var e := Quote(symbol, side, qty, price, id);
    ExposureConserved(a, e, symbol);
    ApplyUnknown(a.orders, e);
    hide ApplyOrder, TrueExposure, Find, Keys;
    KeysAppend(a.orders, Slot(id, Opened(e)));
  }

  lemma StackOne(b: Book, a: Book, symbol: Name, side: Side, qty: int, price: int, ids: seq<Name>, id: Name)
    requires 0 < qty && |b.orders| + |ids| < MAX_ORDERS && AreNew(b, ids + [id])
    requires StackedOn(b, a, symbol, side, qty, ids)
    ensures StackedOn(b, ApplyToBook(a, Quote(symbol, side, qty, price, id)), symbol, side, qty, ids + [id])
  {
    hide ApplyToBook, TrueExposure, AreNew, Has, Keys, Quote;
    NextIsNew(b, a, ids, id);
    QuoteAdds(a, symbol, side, qty, price, id);
    Distribute(qty, |ids|, 1);
    assert Keys(b.orders) + ids + [id] == Keys(b.orders) + (ids + [id]);
  }

  lemma KeysAppend(t: Table<Order>, slot: Slot<Order>)
    ensures Keys(t + [slot]) == Keys(t) + [slot.key]
  {
  }

  lemma StackedState(l: RiskLimits, b: Book, a: Book, symbol: Name, side: Side, qty: int, price: int,
                     ids: seq<Name>, next: Name)
    requires 0 < qty && CheckPosition(l, Get(b.positions, symbol), side, qty, price) == Pass
    requires |b.orders| + |ids| < MAX_ORDERS && AreNew(b, ids + [next])
    requires StackedOn(b, a, symbol, side, qty, ids)
    ensures a.positions == b.positions && ConformsTo(a, Quote(symbol, side, qty, price, next))
    ensures var from := TrueExposure(b, symbol) + Signed(side, |ids| * qty);
            var to := from + Signed(side, qty);
            && TrueExposure(a, symbol) == from
            && (Approved(l, a, symbol, side, qty, price)
                <==> Abs(to) <= l.maxNetPosition && (l.allowPositionCross || !Crosses(from, to)))
  {
    hide Total;
    NextIsNew(b, a, ids, next);
    hide AreNew, Find, Keys;
  }

  lemma NextIsNew(b: Book, a: Book, ids: seq<Name>, next: Name)
    requires AreNew(b, ids + [next]) && Keys(a.orders) == Keys(b.orders) + ids
    ensures !Has(a.orders, next) && |a.orders| == |b.orders| + |ids|
  {
    HasIsMember(a.orders, next);
    HasIsMember(b.orders, next);
    hide Find;
    var all := ids + [next];
    assert all[|ids|] == next;
    assert forall i :: 0 <= i < |ids| ==> all[i] == ids[i];
  }
}
