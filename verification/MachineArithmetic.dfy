/**
 When the machine's integers are wide enough. `Checked` versions of the position
 arithmetic evaluate every intermediate of the source in its own type and give up on
 the first that does not fit (signed overflow is undefined behaviour there).
 */
module MachineArithmetic {
  import opened Arithmetic
  import opened OrderEvents
  import opened Positions
  import opened Wrappers

  const INT32_MAX := 0x7fff_ffff
  const INT64_MAX := 0x7fff_ffff_ffff_ffff

  function Int32(x: int): (fit: Option<int>) {
    if -INT32_MAX - 1 <= x <= INT32_MAX then Some(x) else None
  }

  function Int64(x: int): (fit: Option<int>) {
    if -INT64_MAX - 1 <= x <= INT64_MAX then Some(x) else None
  }

  function CheckedRefresh(p: Position): (q: Option<Position>) {
    if p.lastPrice > 0 && p.netQty != 0 then
      var diff :- Int64(p.lastPrice - p.avgEntryPrice);
      var pnl :- Int64(diff * p.netQty);
      Some(p.(unrealizedPnl := pnl))
    else Some(p.(unrealizedPnl := 0))
  }

  function CheckedAveraged(avg: int, held: int, qty: int, price: int): (average: Option<int>) {
    var newQty :- Int64(held + qty);
    var heldCost :- Int64(avg * held);
    var fillCost :- Int64(price * qty);
    var newCost :- Int64(heldCost + fillCost);
    Some(if newQty > 0 then TruncDiv(newCost, newQty) else 0)
  }

  function CheckedGain(pnl: int, from: int, to: int, qty: int): (sum: Option<int>) {
    var diff :- Int64(to - from);
    var gain :- Int64(diff * qty);
    Int64(pnl + gain)
  }

  function CheckedBuy(p: Position, qty: int, price: int, seq_: int): (q: Option<Position>) {
    var total :- Int32(p.totalBuyQty + qty);
    var b := p.(totalBuyQty := total);
    var net :- Int64(p.netQty + qty);
    if p.netQty >= 0 then
      var avg :- CheckedAveraged(p.avgEntryPrice, p.netQty, qty, price);
      var r :- CheckedRefresh(b.(avgEntryPrice := avg, netQty := net));
      Some(r.(lastUpdatedSeq := seq_))
    else
      var held :- Int64(-p.netQty);
      var cover := if qty <= held then qty else held;
      var realized :- CheckedGain(p.realizedPnl, price, p.avgEntryPrice, cover);
      var r :- CheckedRefresh(b.(realizedPnl := realized, netQty := net,
                                 avgEntryPrice := if net > 0 then price else if net == 0 then 0 else p.avgEntryPrice));
      Some(r.(lastUpdatedSeq := seq_))
  }

  function CheckedSell(p: Position, qty: int, price: int, seq_: int): (q: Option<Position>) {
    var total :- Int32(p.totalSellQty + qty);
    var s := p.(totalSellQty := total);
    var net :- Int64(p.netQty - qty);
    if p.netQty > 0 then
      var close := if qty <= p.netQty then qty else p.netQty;
      var realized :- CheckedGain(p.realizedPnl, p.avgEntryPrice, price, close);
      var r :- CheckedRefresh(s.(realizedPnl := realized, netQty := net,
                                 avgEntryPrice := if net < 0 then price else if net == 0 then 0 else p.avgEntryPrice));
      Some(r.(lastUpdatedSeq := seq_))
    else
      var held :- Int64(-p.netQty);
      var avg :- CheckedAveraged(p.avgEntryPrice, held, qty, price);
      var r :- CheckedRefresh(s.(avgEntryPrice := avg, netQty := net));
      Some(r.(lastUpdatedSeq := seq_))
  }

  function CheckedMark(p: Position, price: int): (q: Option<Position>) {
    if p.IsFlat() then Some(p)
    else
      var diff :- Int64(price - p.avgEntryPrice);
      var pnl :- Int64(diff * p.netQty);
      Some(p.(lastPrice := price, unrealizedPnl := pnl))
  }

  function CheckedStep(p: Position, op: Op): (q: Option<Position>) {
    match op
    case Fill(Buy, qty, price, sequence) => CheckedBuy(p, qty, price, sequence)
    case Fill(Sell, qty, price, sequence) => CheckedSell(p, qty, price, sequence)
    case Mark(price) => CheckedMark(p, price)
  }

  /** The machine's run of a stream: None from the first overflow on. */
  function CheckedRun(ops: seq<Op>): (q: Option<Position>) {
    if ops == [] then Some(FLAT)
    else
      var p :- CheckedRun(ops[..|ops| - 1]);
      CheckedStep(p, ops[|ops| - 1])
  }

  /** Quantity filled on one side. */
  function Traded(ops: seq<Op>, side: Side): (total: int) {
    if ops == [] then 0
    else
      var op := ops[|ops| - 1];
      Traded(ops[..|ops| - 1], side) + (if op.Fill? && op.side == side then op.qty else 0)
  }

  /** The quantity closed so far is the smaller of the two totals, and each closed share
      gained or lost at most the highest price. */
  ghost predicate Bounded(p: Position, price: int) {
    && 0 <= p.avgEntryPrice <= price
    && 0 <= p.lastPrice <= price
    && 0 <= p.totalBuyQty && 0 <= p.totalSellQty
    && p.netQty == p.totalBuyQty - p.totalSellQty
    && Abs(p.realizedPnl) <= price * Min(p.totalBuyQty, p.totalSellQty)
  }

  lemma AbsProduct(x: int, y: int, bound: int)
    requires Abs(x) <= bound
    ensures Abs(x * y) <= bound * Abs(y)
  {
    if y >= 0 {
      MulMonotone(x, bound, y);
      MulMonotone(-bound, x, y);
    } else {
      MulMonotone(x, bound, -y);
      MulMonotone(-bound, x, -y);
    }
    Negate(x, y);
    Negate(bound, y);
  }

  /** A product of a price difference and a quantity within the volume fits. */
  lemma ProductFits(x: int, y: int, price: int, volume: int)
    requires Abs(x) <= price && Abs(y) <= volume
    requires price * volume <= INT64_MAX
    ensures Abs(x * y) <= INT64_MAX
    ensures Int64(x * y) == Some(x * y)
  {
    AbsProduct(x, y, price);
    Distribute(price, Abs(y), volume - Abs(y));
    NonNegativeProduct(price, volume - Abs(y));
  }

  lemma RefreshFits(p: Position, price: int, volume: int)
    requires 0 <= p.avgEntryPrice <= price && 0 <= p.lastPrice <= price && Abs(p.netQty) <= volume
    requires 0 <= price <= INT64_MAX && price * volume <= INT64_MAX
    ensures CheckedRefresh(p) == Some(Refresh(p))
  {
    ProductFits(p.lastPrice - p.avgEntryPrice, p.netQty, price, volume);
  }

  lemma AveragedFits(avg: int, held: int, qty: int, price: int, maxPrice: int, volume: int)
    requires 0 <= avg <= maxPrice && 0 <= price <= maxPrice && 0 <= held && 0 <= qty && held + qty <= volume
    requires volume <= INT32_MAX && maxPrice * volume <= INT64_MAX
    ensures CheckedAveraged(avg, held, qty, price) == Some(Averaged(avg, held, qty, price))
    ensures 0 <= Averaged(avg, held, qty, price) <= maxPrice
  {
    hide TruncDiv;
    WeightedBetween(avg, held, price, qty);
    NonNegativeProduct(avg, held);
    NonNegativeProduct(price, qty);
    MulMonotone(Max(avg, price), maxPrice, held + qty);
    ProductFits(maxPrice, held + qty, maxPrice, volume);
    if held + qty > 0 {
      TruncDivBetween(Min(avg, price), Max(avg, price), avg * held + price * qty, held + qty);
    }
  }

  lemma GainFits(pnl: int, from: int, to: int, qty: int, closed: int, maxPrice: int, volume: int)
    requires 0 <= from <= maxPrice && 0 <= to <= maxPrice && 0 <= qty && 0 <= closed && closed + qty <= volume
    requires maxPrice <= INT64_MAX && maxPrice * volume <= INT64_MAX
    requires Abs(pnl) <= maxPrice * closed
    ensures CheckedGain(pnl, from, to, qty) == Some(pnl + (to - from) * qty)
    ensures Abs(pnl + (to - from) * qty) <= maxPrice * (closed + qty)
  {
    AbsProduct(to - from, qty, maxPrice);
    Distribute(maxPrice, closed, qty);
    ProductFits(maxPrice, closed + qty, maxPrice, volume);
    ProductFits(to - from, qty, maxPrice, volume);
  }

  /** The limits under which one more operation must not overflow. */
  ghost predicate Room(p: Position, op: Op, price: int, volume: int) {
    && 0 <= price <= INT64_MAX && 0 <= volume <= INT32_MAX && price * volume <= INT64_MAX
    && 0 <= op.price <= price && (op.Fill? ==> op.qty >= 0)
    && p.totalBuyQty <= volume && p.totalSellQty <= volume
    && (op.Fill? ==> (if op.side == Side.Buy then p.totalBuyQty else p.totalSellQty) + op.qty <= volume)
  }

  lemma AddFits(p: Position, op: Op, price: int, volume: int)
    requires Bounded(p, price) && Room(p, op, price, volume) && Adds(p, op)
    ensures CheckedStep(p, op) == Some(Step(p, op)) && Bounded(Step(p, op), price)
  {
    hide Averaged, CheckedAveraged, CheckedRefresh;
    AveragedFits(p.avgEntryPrice, Abs(p.netQty), op.qty, op.price, price, volume);
    var q := Step(p, op).(lastUpdatedSeq := p.lastUpdatedSeq, unrealizedPnl := p.unrealizedPnl);
    RefreshFits(q, price, volume);
  }

  lemma CloseFits(p: Position, op: Op, price: int, volume: int)
    requires Bounded(p, price) && Room(p, op, price, volume) && op.Fill? && !Adds(p, op)
    ensures CheckedStep(p, op) == Some(Step(p, op)) && Bounded(Step(p, op), price)
  {
    hide CheckedGain, CheckedRefresh;
    var done, closed := Min(op.qty, Abs(p.netQty)), Min(p.totalBuyQty, p.totalSellQty);
    if op.side == Side.Buy {
      GainFits(p.realizedPnl, op.price, p.avgEntryPrice, done, closed, price, volume);
    } else {
      GainFits(p.realizedPnl, p.avgEntryPrice, op.price, done, closed, price, volume);
    }
    var q := Step(p, op).(lastUpdatedSeq := p.lastUpdatedSeq, unrealizedPnl := p.unrealizedPnl);
    RefreshFits(q, price, volume);
  }

  lemma StepFits(p: Position, op: Op, price: int, volume: int)
    requires Bounded(p, price) && Room(p, op, price, volume)
    ensures CheckedStep(p, op) == Some(Step(p, op))
    ensures Bounded(Step(p, op), price)
  {
    if op.Mark? {
      ProductFits(op.price - p.avgEntryPrice, p.netQty, price, volume);
    } else {
      hide CheckedStep, Step;
      if Adds(p, op) {
        AddFits(p, op, price, volume);
      } else {
        CloseFits(p, op, price, volume);
      }
    }
  }

  lemma {:induction false} TotalsAreTraded(ops: seq<Op>)
    ensures Run(ops).totalBuyQty == Traded(ops, Side.Buy)
    ensures Run(ops).totalSellQty == Traded(ops, Side.Sell)
    ensures Run(ops).netQty == Traded(ops, Side.Buy) - Traded(ops, Side.Sell)
  {
    if ops != [] {
      TotalsAreTraded(ops[..|ops| - 1]);
    }
  }

  lemma {:induction false} TradedNonNegative(ops: seq<Op>, side: Side)
    requires Quantities(ops)
    ensures Traded(ops, side) >= 0
  {
    if ops != [] {
      TradedNonNegative(ops[..|ops| - 1], side);
    }
  }

  /** If prices and marks lie in [0, price], no more than `volume` shares are ever bought
      or sold, and price * volume fits in 63 bits, then no intermediate of any update
      overflows: the machine's run is the mathematical one. Realized profit then stays
      within price times the quantity closed. */
  lemma {:induction false} NoOverflow(ops: seq<Op>, price: int, volume: int)
    requires Quantities(ops)
    requires 0 <= price <= INT64_MAX && 0 <= volume <= INT32_MAX && price * volume <= INT64_MAX
    requires forall i :: 0 <= i < |ops| ==> 0 <= ops[i].price <= price
    requires Traded(ops, Side.Buy) <= volume && Traded(ops, Side.Sell) <= volume
    ensures CheckedRun(ops) == Some(Run(ops))
    ensures Abs(Run(ops).realizedPnl) <= price * Min(Traded(ops, Side.Buy), Traded(ops, Side.Sell))
    ensures Bounded(Run(ops), price)
  {
    if ops != [] {
      hide Step, CheckedStep;
      var init, op := ops[..|ops| - 1], ops[|ops| - 1];
      NoOverflow(init, price, volume);
      TradedNonNegative(init, Side.Buy);
      TradedNonNegative(init, Side.Sell);
      TotalsAreTraded(init);
      StepFits(Run(init), op, price, volume);
      TotalsAreTraded(ops);
    }
  }

  /** Every field holds a value of its type. */
  predicate InTypes(p: Position) {
    && Int64(p.netQty).Some? && Int64(p.avgEntryPrice).Some? && Int64(p.realizedPnl).Some?
    && Int64(p.unrealizedPnl).Some? && Int64(p.lastPrice).Some?
    && Int32(p.totalBuyQty).Some? && Int32(p.totalSellQty).Some?
  }

  lemma QuotientShrinks(a: int, b: int)
    requires b > 0
    ensures Min(0, a) <= TruncDiv(a, b) <= Max(0, a)
  {
    if a >= 0 {
      MulMonotone(1, b, a);
      TruncDivBetween(0, a, a, b);
    } else {
      MulMonotone(1, b, -a);
      Negate(a, b);
      TruncDivBetween(a, 0, a, b);
    }
  }

  lemma CheckedAverageFits(avg: int, held: int, qty: int, price: int)
    ensures CheckedAveraged(avg, held, qty, price).Some? ==>
              && CheckedAveraged(avg, held, qty, price).value == Averaged(avg, held, qty, price)
              && Int64(Averaged(avg, held, qty, price)).Some?
  {
    hide TruncDiv;
    if held + qty > 0 {
      QuotientShrinks(avg * held + price * qty, held + qty);
    }
  }

  lemma CheckedRefreshFits(p: Position)
    ensures CheckedRefresh(p).Some? ==>
              CheckedRefresh(p).value == Refresh(p) && Int64(Refresh(p).unrealizedPnl).Some?
  {
  }

  lemma CheckedGainFits(pnl: int, from: int, to: int, qty: int)
    ensures CheckedGain(pnl, from, to, qty).Some? ==>
              CheckedGain(pnl, from, to, qty).value == pnl + (to - from) * qty && Int64(pnl + (to - from) * qty).Some?
  {
  }

  lemma CheckedBuySound(p: Position, qty: int, price: int, sequence: nat)
    requires InTypes(p) && Int64(price).Some?
    ensures CheckedBuy(p, qty, price, sequence).Some? ==>
              && CheckedBuy(p, qty, price, sequence).value == AfterBuy(p, qty, price, sequence)
              && InTypes(AfterBuy(p, qty, price, sequence))
  {
    hide CheckedAveraged, CheckedRefresh, CheckedGain, Averaged;
    var q := AfterBuy(p, qty, price, sequence);
    CheckedRefreshFits(q.(unrealizedPnl := p.unrealizedPnl, lastUpdatedSeq := p.lastUpdatedSeq));
    if p.netQty >= 0 {
      CheckedAverageFits(p.avgEntryPrice, p.netQty, qty, price);
    } else {
      CheckedGainFits(p.realizedPnl, price, p.avgEntryPrice, if qty <= -p.netQty then qty else -p.netQty);
    }
  }

  lemma CheckedSellSound(p: Position, qty: int, price: int, sequence: nat)
    requires InTypes(p) && Int64(price).Some?
    ensures CheckedSell(p, qty, price, sequence).Some? ==>
              && CheckedSell(p, qty, price, sequence).value == AfterSell(p, qty, price, sequence)
              && InTypes(AfterSell(p, qty, price, sequence))
  {
    hide CheckedAveraged, CheckedRefresh, CheckedGain, Averaged;
    var q := AfterSell(p, qty, price, sequence);
    CheckedRefreshFits(q.(unrealizedPnl := p.unrealizedPnl, lastUpdatedSeq := p.lastUpdatedSeq));
    if p.netQty > 0 {
      CheckedGainFits(p.realizedPnl, p.avgEntryPrice, price, if qty <= p.netQty then qty else p.netQty);
    } else {
      CheckedAverageFits(p.avgEntryPrice, -p.netQty, qty, price);
    }
  }

  /** Whatever the machine computes without overflow is the mathematical result, and every
      field it stores holds a value of its type. */
  lemma CheckedStepSound(p: Position, op: Op)
    requires InTypes(p) && Int64(op.price).Some?
    ensures CheckedStep(p, op).Some? ==> CheckedStep(p, op).value == Step(p, op) && InTypes(Step(p, op))
  {
    match op {
      case Fill(Buy, qty, price, sequence) =>
        CheckedBuySound(p, qty, price, sequence);
        hide CheckedBuy, AfterBuy, InTypes;
      case Fill(Sell, qty, price, sequence) =>
        CheckedSellSound(p, qty, price, sequence);
        hide CheckedSell, AfterSell, InTypes;
      case Mark(price) =>
    }
  }

  lemma {:induction false} CheckedRunSound(ops: seq<Op>)
    requires forall i :: 0 <= i < |ops| ==> Int64(ops[i].price).Some?
    ensures CheckedRun(ops).Some? ==> CheckedRun(ops).value == Run(ops) && InTypes(Run(ops))
  {
    if ops != [] {
      hide CheckedStep, Step, InTypes;
      CheckedRunSound(ops[..|ops| - 1]);
      if CheckedRun(ops[..|ops| - 1]).Some? {
        CheckedStepSound(Run(ops[..|ops| - 1]), ops[|ops| - 1]);
      }
    } else {
      assert InTypes(FLAT);
    }
  }

  /** A stream whose prices lie in [0, price] and whose volume on each side is at most
      `volume`. */
  ghost predicate InBounds(ops: seq<Op>, price: int, volume: int) {
    && Quantities(ops)
    && (forall i :: 0 <= i < |ops| ==> 0 <= ops[i].price <= price)
    && Traded(ops, Side.Buy) <= volume && Traded(ops, Side.Sell) <= volume
  }

  /** The bounds are the right ones: no stream within a price and a volume overflows exactly
      when the volume fits in 32 bits and their product in 64. */
  lemma NoOverflowIff(price: int, volume: int)
    requires 0 <= price <= INT64_MAX && 0 <= volume
    ensures (forall ops :: InBounds(ops, price, volume) ==> CheckedRun(ops) == Some(Run(ops)))
       <==> volume <= INT32_MAX && price * volume <= INT64_MAX
  {
    if volume <= INT32_MAX && price * volume <= INT64_MAX {
      forall ops | InBounds(ops, price, volume)
        ensures CheckedRun(ops) == Some(Run(ops))
      {
        NoOverflow(ops, price, volume);
      }
    } else {
      OneBuyOverflows(price, volume);
      assert CheckedRun([Fill(Side.Buy, volume, price, 0)]).None?;
    }
  }

  lemma OneOperation(op: Op)
    requires op.Fill? && op.side == Side.Buy
    ensures CheckedRun([op]) == CheckedStep(FLAT, op)
    ensures Traded([op], Side.Buy) == op.qty && Traded([op], Side.Sell) == 0
  {
    hide CheckedStep;
    assert [op][..0] == [];
    assert CheckedRun([]) == Some(FLAT);
    assert Traded([], Side.Buy) == 0 && Traded([], Side.Sell) == 0;
  }

  lemma OneBuyOverflows(price: int, volume: int)
    requires 0 <= price && 0 <= volume && (volume > INT32_MAX || price * volume > INT64_MAX)
    ensures var ops := [Fill(Side.Buy, volume, price, 0)];
            InBounds(ops, price, volume) && CheckedRun(ops).None?
  {
    hide CheckedBuy, CheckedRun, Traded;
    OneOperation(Fill(Side.Buy, volume, price, 0));
    BuyOverflows(price, volume);
  }

  lemma BuyOverflows(price: int, volume: int)
    requires 0 <= price && 0 <= volume && (volume > INT32_MAX || price * volume > INT64_MAX)
    ensures CheckedBuy(FLAT, volume, price, 0).None?
  {
    if volume <= INT32_MAX {
      assert CheckedAveraged(0, 0, volume, price).None?;
    }
    hide CheckedAveraged, CheckedRefresh;
  }
}
