/**
 One order: its lifecycle and average fill price, as `handle_new`, `handle_fill`,
 `handle_cancel`, `handle_reject` and `handle_amend` of include/OrderManager.h change
 them. `OrderManagers` proves the in-place code against `OrderStep`.
 */
module Orders {
  import opened Arithmetic
  import opened EventLogs
  import opened OrderEvents
  import opened Positions
  import opened PositionSymmetry

  /** `Zeroed` is the state byte of a slot that `memset` cleared; it is no enumerator. */
  datatype OrderState = Zeroed | Pending | PartiallyFilled | Filled | Cancelled | Rejected

  datatype Order = Order(
    symbol: Name,
    limitPrice: int,
    avgFillPrice: int,
    openedSeq: nat,
    lastSeq: nat,
    originalQty: int,
    filledQty: int,
    state: OrderState,
    side: Side)
  {
    function Remaining(): (left: int) {
      originalQty - filledQty
    }

    predicate IsOpen() {
      state == Pending || state == PartiallyFilled
    }
  }

  const BLANK_ORDER: Order := Order(BLANK_NAME, 0, 0, 0, 0, 0, 0, Zeroed, Side.Buy)

  function Opened(e: OrderEvent): (o: Order) {
    Order(e.symbol, e.price, 0, e.sequence, e.sequence, e.qty, 0, Pending, e.side)
  }

  function AfterFill(o: Order, e: OrderEvent): (f: Order) {
    var newFilled := o.filledQty + e.fillQty;
    o.(avgFillPrice := Averaged(o.avgFillPrice, o.filledQty, e.fillQty, e.fillPrice),
       filledQty := newFilled,
       lastSeq := e.sequence,
       state := if o.originalQty - newFilled <= 0 then Filled else PartiallyFilled)
  }

  /** What an event with this order's id makes of the order. None of the handlers looks at
      the state the order is in. */
  function OrderStep(o: Order, e: OrderEvent): (p: Order) {
    match e.kind
    case NewOrder => Opened(e)
    case PartialFill => AfterFill(o, e)
    case FullFill => AfterFill(o, e)
    case Cancel => o.(state := Cancelled, lastSeq := e.sequence)
    case Reject => o.(state := Rejected, lastSeq := e.sequence)
    case Amend => o.(originalQty := if e.qty > 0 then e.qty else o.originalQty,
                     limitPrice := if e.price > 0 then e.price else o.limitPrice,
                     lastSeq := e.sequence)
  }

  // ---- Lifecycle ----

  /** "Transitions are strictly forward": a state may stay, or move towards a terminal
      state, and nothing leaves a terminal state. */
  predicate Forward(a: OrderState, b: OrderState) {
    || a == b
    || (a == Pending && b in {PartiallyFilled, Filled, Cancelled, Rejected})
    || (a == PartiallyFilled && b in {Filled, Cancelled, Rejected})
  }

  lemma ForwardTransitive(a: OrderState, b: OrderState, c: OrderState)
    requires Forward(a, b) && Forward(b, c)
    ensures Forward(a, c)
  {
  }

  /** The condition a caller would have to check, event by event. */
  predicate KeepsForward(o: Order, e: OrderEvent) {
    match e.kind
    case NewOrder => o.state == Pending
    case PartialFill => o.IsOpen() || (o.state == Filled && o.Remaining() <= e.fillQty)
    case FullFill => o.IsOpen() || (o.state == Filled && o.Remaining() <= e.fillQty)
    case Cancel => o.IsOpen() || o.state == Cancelled
    case Reject => o.IsOpen() || o.state == Rejected
    case Amend => true
  }

  /** The handlers move an order forward exactly under that condition: a reused id, a
      cancel or reject of a finished order and a fill after a cancel or reject do not. */
  lemma ForwardIff(o: Order, e: OrderEvent)
    requires o.state != Zeroed
    ensures Forward(o.state, OrderStep(o, e).state) <==> KeepsForward(o, e)
  {
    hide Averaged;
  }

  /** A late partial fill reopens a cancelled order. */
  lemma LateFillReopens(o: Order, e: OrderEvent)
    requires o.state == Cancelled && e.IsFill() && e.fillQty < o.Remaining()
    ensures OrderStep(o, e).IsOpen() && !Forward(o.state, OrderStep(o, e).state)
  {
    hide Averaged;
  }

  /** A report about a live order that the exchange can send: it fills no more than what
      remains, names the order's symbol and side, and comes before any other end. */
  predicate Conforms(o: Order, e: OrderEvent) {
    && e.kind != NewOrder
    && o.IsOpen()
    && (e.IsFill() ==> 0 <= e.fillQty <= o.Remaining() && e.symbol == o.symbol && e.side == o.side)
    && (e.kind == Amend && e.qty > 0 ==> e.qty > o.filledQty)
  }

  /** Quantities and state agree. */
  predicate Consistent(o: Order) {
    && 0 <= o.filledQty <= o.originalQty
    && o.state != Zeroed
    && (o.IsOpen() ==> o.filledQty < o.originalQty)
    && (o.state == Filled ==> o.filledQty == o.originalQty)
  }

  /** On conforming reports an open order has something left, a filled one nothing, and the
      lifecycle runs forward. */
  lemma ConformingStep(o: Order, e: OrderEvent)
    requires Consistent(o) && Conforms(o, e)
    ensures Consistent(OrderStep(o, e))
    ensures Forward(o.state, OrderStep(o, e).state)
    ensures OrderStep(o, e).symbol == o.symbol && OrderStep(o, e).side == o.side
  {
    hide Averaged;
  }

  // ---- Average fill price ----

  /** The order after a stream of fills. */
  function Fills(o: Order, es: seq<OrderEvent>): (f: Order) {
    if es == [] then o else AfterFill(Fills(o, es[..|es| - 1]), es[|es| - 1])
  }

  function FilledTotal(es: seq<OrderEvent>): (total: int) {
    if es == [] then 0 else FilledTotal(es[..|es| - 1]) + es[|es| - 1].fillQty
  }

  function FillCost(es: seq<OrderEvent>): (cost: int) {
    if es == [] then 0 else FillCost(es[..|es| - 1]) + es[|es| - 1].fillPrice * es[|es| - 1].fillQty
  }

  /** Prices of the fills that filled something. */
  function FillPrices(es: seq<OrderEvent>): (prices: seq<int>) {
    if es == [] then []
    else FillPrices(es[..|es| - 1]) + (if es[|es| - 1].fillQty > 0 then [es[|es| - 1].fillPrice] else [])
  }

  ghost predicate Priced(es: seq<OrderEvent>) {
    forall i :: 0 <= i < |es| ==> es[i].fillQty >= 0 && es[i].fillPrice >= 0
  }

  /** Cost that the stored average no longer represents after n positive fills. */
  lemma {:induction false} FillShortfall(o: Order, es: seq<OrderEvent>)
    requires o.filledQty == 0 && o.avgFillPrice == 0 && Priced(es)
    ensures var f, n := Fills(o, es), |FillPrices(es)|;
            && f.filledQty == FilledTotal(es) >= 0
            && f.avgFillPrice >= 0
            && (n == 0 <==> f.filledQty == 0)
            && (n == 0 ==> f.avgFillPrice == 0)
            && 0 <= FillCost(es) - f.avgFillPrice * f.filledQty <= Max(0, n - 1) * Max(0, f.filledQty - 1)
  {
    if es != [] {
      hide Averaged;
      var init, e := es[..|es| - 1], es[|es| - 1];
      FillShortfall(o, init);
      var f, n := Fills(o, init), |FillPrices(init)|;
      if e.fillQty == 0 {
        if f.filledQty > 0 {
          AveragedBetween(f.avgFillPrice, f.filledQty, 0, e.fillPrice);
        } else {
          AveragedOpening(0, e.fillPrice);
        }
      } else if n == 0 {
        AveragedOpening(e.fillQty, e.fillPrice);
      } else {
        ShortfallStep(FillCost(init), f.avgFillPrice, f.filledQty, e.fillQty, e.fillPrice, n - 1);
      }
    }
  }

  /** After n fills the stored average is the exact average, rounded down once, or at most
      n - 2 ticks below it: exact for one fill and for two. */
  lemma AverageFillDrift(o: Order, es: seq<OrderEvent>)
    requires o.filledQty == 0 && o.avgFillPrice == 0 && Priced(es)
    requires FillPrices(es) != []
    ensures FilledTotal(es) > 0
    ensures var exact := TruncDiv(FillCost(es), FilledTotal(es));
            exact - Max(0, |FillPrices(es)| - 2) <= Fills(o, es).avgFillPrice <= exact
  {
    FillShortfall(o, es);
    var cost, total, a, n := FillCost(es), FilledTotal(es), Fills(o, es).avgFillPrice, |FillPrices(es)|;
    NonNegativeProduct(a, total);
    if n == 1 {
      TruncDivUnique(cost, total, a);
    } else {
      TruncDivRemainder(cost, total);
      QuotientGap(cost, total, TruncDiv(cost, total), a, n - 1);
    }
  }

  /** And it lies between the cheapest and the dearest fill. */
  lemma {:induction false} AverageFillWithin(o: Order, es: seq<OrderEvent>)
    requires o.filledQty == 0 && o.avgFillPrice == 0 && Priced(es)
    ensures FillPrices(es) != [] ==> Within(FillPrices(es), Fills(o, es).avgFillPrice)
  {
    if es != [] {
      hide Averaged, Within;
      var init, e := es[..|es| - 1], es[|es| - 1];
      AverageFillWithin(o, init);
      FillShortfall(o, init);
      var f := Fills(o, init);
      if f.filledQty + e.fillQty > 0 {
        AveragedBetween(f.avgFillPrice, f.filledQty, e.fillQty, e.fillPrice);
        if e.fillQty > 0 {
          WithinGrows(FillPrices(init), f.avgFillPrice, e.fillPrice, Fills(o, es).avgFillPrice);
        } else {
          assert FillPrices(es) == FillPrices(init);
        }
      }
    }
  }
}
