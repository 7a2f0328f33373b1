/**
 When the machine's integers are wide enough for the order side: the average fill price
 of `handle_fill` and the 32-bit sum of `open_exposure` (include/OrderManager.h).
 */
module OrderArithmetic {
  import opened Arithmetic
  import opened Books
  import opened EventLogs
  import opened FlatTable
  import opened MachineArithmetic
  import opened OrderEvents
  import opened OrderManagers
  import opened Orders
  import opened Positions
  import opened RiskCheckers
  import opened Wrappers

  /** `handle_fill` in the machine's types; None when an intermediate does not fit. */
  function CheckedFill(o: Order, e: OrderEvent): (f: Option<Order>) {
    var prevCost :- Int64(o.avgFillPrice * o.filledQty);
    var fillCost :- Int64(e.fillPrice * e.fillQty);
    var newFilled :- Int32(o.filledQty + e.fillQty);
    var cost :- Int64(prevCost + fillCost);
    var remaining :- Int32(o.originalQty - newFilled);
    Some(o.(avgFillPrice := if newFilled > 0 then TruncDiv(cost, newFilled) else 0,
            filledQty := newFilled,
            lastSeq := e.sequence,
            state := if remaining <= 0 then Filled else PartiallyFilled))
  }

  function CheckedFills(o: Order, es: seq<OrderEvent>): (f: Option<Order>) {
    if es == [] then Some(o)
    else
      var f :- CheckedFills(o, es[..|es| - 1]);
      CheckedFill(f, es[|es| - 1])
  }

  lemma FillFits(o: Order, e: OrderEvent, price: int, volume: int)
    requires 0 <= o.avgFillPrice <= price && 0 <= e.fillPrice <= price
    requires 0 <= o.filledQty && 0 <= e.fillQty && o.filledQty + e.fillQty <= volume
    requires 0 <= o.originalQty <= INT32_MAX && volume <= INT32_MAX && price * volume <= INT64_MAX
    ensures CheckedFill(o, e) == Some(AfterFill(o, e))
    ensures 0 <= AfterFill(o, e).avgFillPrice <= price
  {
    AveragedFits(o.avgFillPrice, o.filledQty, e.fillQty, e.fillPrice, price, volume);
  }

  /** An order filled for at most `volume` shares at prices up to `price` never overflows
      while price * volume fits in 63 bits. */
  lemma {:induction false} FillsFit(o: Order, es: seq<OrderEvent>, price: int, volume: int)
    requires o.filledQty == 0 && o.avgFillPrice == 0 && 0 <= o.originalQty <= INT32_MAX
    requires Priced(es) && forall i :: 0 <= i < |es| ==> es[i].fillPrice <= price
    requires FilledTotal(es) <= volume <= INT32_MAX && 0 <= price && price * volume <= INT64_MAX
    ensures CheckedFills(o, es) == Some(Fills(o, es))
    ensures 0 <= Fills(o, es).avgFillPrice <= price
    ensures Fills(o, es).originalQty == o.originalQty && Fills(o, es).filledQty == FilledTotal(es) >= 0
  {
    if es != [] {
      hide CheckedFill, Averaged;
      var init, e := es[..|es| - 1], es[|es| - 1];
      FillsFit(o, init, price, volume);
      FillFits(Fills(o, init), e, price, volume);
    }
  }

  /** The loop of `open_exposure` with its 32-bit accumulator. */
  function CheckedExposure(t: Table<Order>, symbol: Name): (total: Option<int>) {
    if t == [] then Some(0)
    else
      var exposure :- CheckedExposure(t[..|t| - 1], symbol);
      var o := t[|t| - 1].body;
      if !o.IsOpen() || o.symbol != symbol then Some(exposure)
      else
        var remaining :- Int32(o.Remaining());
        Int32(exposure + Signed(o.side, remaining))
  }

  /** No partial sum leaves 32 bits as long as the open buys and the open sells of the
      symbol each fit, however they are interleaved in the table. */
  lemma {:induction false} ExposureFits(t: Table<Order>, symbol: Name)
    requires AllConsistent(t)
    requires Total(OpenBuys, t, symbol) <= INT32_MAX && Total(OpenSells, t, symbol) <= INT32_MAX
    ensures CheckedExposure(t, symbol) == Some(Total(OpenExposure, t, symbol))
  {
    if t != [] {
      var init := t[..|t| - 1];
      assert AllConsistent(init) && Consistent(t[|t| - 1].body);
      TotalNonNegative(OpenBuys, init, symbol);
      TotalNonNegative(OpenSells, init, symbol);
      ExposureFits(init, symbol);
      ExposureSplits(init, symbol);
      ExposureSplits(t, symbol);
    }
  }

  /** What the machine computes for a fill without overflow is the mathematical result, with
      quantities in 32 bits and the average in 64. */
  lemma CheckedFillSound(o: Order, e: OrderEvent)
    ensures CheckedFill(o, e).Some? ==>
              && CheckedFill(o, e).value == AfterFill(o, e)
              && Int32(AfterFill(o, e).filledQty).Some?
              && Int32(AfterFill(o, e).Remaining()).Some?
              && Int64(AfterFill(o, e).avgFillPrice).Some?
  {
    hide TruncDiv;
    if o.filledQty + e.fillQty > 0 {
      QuotientShrinks(o.avgFillPrice * o.filledQty + e.fillPrice * e.fillQty, o.filledQty + e.fillQty);
    }
  }

  /** The bounds of `FillsFit` are the right ones: the fills of an order for as many shares as
      fit in 32 bits never overflow exactly when price times volume fits in 64. */
  lemma FillsFitIff(o: Order, price: int, volume: int)
    requires o.filledQty == 0 && o.avgFillPrice == 0 && 0 <= o.originalQty <= INT32_MAX
    requires 0 <= price && 0 <= volume
    ensures (forall es :: FillsInBounds(es, price, volume) ==> CheckedFills(o, es) == Some(Fills(o, es)))
       <==> volume <= INT32_MAX && price * volume <= INT64_MAX
  {
    if volume <= INT32_MAX && price * volume <= INT64_MAX {
      forall es | FillsInBounds(es, price, volume)
        ensures CheckedFills(o, es) == Some(Fills(o, es))
      {
        FillsFit(o, es, price, volume);
      }
    } else {
      OneFillOverflows(o, price, volume);
    }
  }

  /** Fills at prices up to `price` for at most `volume` shares. */
  ghost predicate FillsInBounds(es: seq<OrderEvent>, price: int, volume: int) {
    && Priced(es)
    && (forall i :: 0 <= i < |es| ==> es[i].fillPrice <= price)
    && FilledTotal(es) <= volume
  }

  lemma OneFillOverflows(o: Order, price: int, volume: int)
    requires o.filledQty == 0 && o.avgFillPrice == 0
    requires 0 <= price && 0 <= volume && (volume > INT32_MAX || price * volume > INT64_MAX)
    ensures exists es :: FillsInBounds(es, price, volume) && CheckedFills(o, es).None?
  {
    var e := BLANK_EVENT.(kind := FullFill, fillPrice := price, fillQty := volume);
    assert [e][..0] == [];
    assert FilledTotal([]) == 0 && CheckedFills(o, []) == Some(o);
    assert CheckedFill(o, e).None?;
    assert FillsInBounds([e], price, volume) && CheckedFills(o, [e]).None?;
  }

  /** An exposure that the loop returns is the sum, and fits in 32 bits. */
  lemma {:induction false} CheckedExposureSound(t: Table<Order>, symbol: Name)
    ensures CheckedExposure(t, symbol).Some? ==>
              && CheckedExposure(t, symbol).value == Total(OpenExposure, t, symbol)
              && Int32(Total(OpenExposure, t, symbol)).Some?
  {
    if t != [] {
      CheckedExposureSound(t[..|t| - 1], symbol);
    }
  }
}
