/**
 One symbol's position and the arithmetic that changes it: `apply_buy`,
 `apply_sell`, `refresh_unrealized` and `mark_to_market` of
 include/PositionTracker.h as functions on a position value. `PositionTracker`
 proves the in-place code against them.
 */
module Positions {
  import opened Arithmetic
  import opened OrderEvents

  /** The fields of `struct Position` other than the symbol, which names the slot. */
  datatype Position = Position(
    netQty: int,
    avgEntryPrice: int,
    realizedPnl: int,
    unrealizedPnl: int,
    totalBuyQty: int,
    totalSellQty: int,
    lastPrice: int,
    lastUpdatedSeq: int)
  {
    predicate IsFlat() {
      netQty == 0
    }
  }

  /** A zeroed slot. */
  const FLAT: Position := Position(0, 0, 0, 0, 0, 0, 0, 0)

  function Refresh(p: Position): (q: Position) {
    p.(unrealizedPnl := if p.lastPrice > 0 && p.netQty != 0 then (p.lastPrice - p.avgEntryPrice) * p.netQty else 0)
  }

  /** The weighted average of `held` shares at `avg` and `qty` more at `price`. */
  function Averaged(avg: int, held: int, qty: int, price: int): (average: int) {
    var newQty := held + qty;
    var newCost := avg * held + price * qty;
    if newQty > 0 then TruncDiv(newCost, newQty) else 0
  }

  function AfterBuy(p: Position, qty: int, price: int, seq_: int): (q: Position) {
    var b := p.(totalBuyQty := p.totalBuyQty + qty);
    var moved :=
      if p.netQty >= 0 then
        b.(avgEntryPrice := Averaged(p.avgEntryPrice, p.netQty, qty, price), netQty := p.netQty + qty)
      else
        var cover := if qty <= -p.netQty then qty else -p.netQty;
        var net := p.netQty + qty;
        b.(realizedPnl := p.realizedPnl + (p.avgEntryPrice - price) * cover,
           netQty := net,
           avgEntryPrice := if net > 0 then price else if net == 0 then 0 else p.avgEntryPrice);
    Refresh(moved).(lastUpdatedSeq := seq_)
  }

  function AfterSell(p: Position, qty: int, price: int, seq_: int): (q: Position) {
    var s := p.(totalSellQty := p.totalSellQty + qty);
    var moved :=
      if p.netQty > 0 then
        var close := if qty <= p.netQty then qty else p.netQty;
        var net := p.netQty - qty;
        s.(realizedPnl := p.realizedPnl + (price - p.avgEntryPrice) * close,
           netQty := net,
           avgEntryPrice := if net < 0 then price else if net == 0 then 0 else p.avgEntryPrice)
      else
        s.(avgEntryPrice := Averaged(p.avgEntryPrice, -p.netQty, qty, price), netQty := p.netQty - qty);
    Refresh(moved).(lastUpdatedSeq := seq_)
  }

  /** `mark_to_market` on a slot that was found. */
  function Marked(p: Position, price: int): (q: Position) {
    if p.IsFlat() then p
    else p.(lastPrice := price, unrealizedPnl := (price - p.avgEntryPrice) * p.netQty)
  }

  /** What happens to one symbol: a fill or a market price. */
  datatype Op =
    | Fill(side: Side, qty: int, price: int, sequence: nat)
    | Mark(price: int)

  function Step(p: Position, op: Op): (q: Position) {
    match op
    case Fill(Buy, qty, price, sequence) => AfterBuy(p, qty, price, sequence)
    case Fill(Sell, qty, price, sequence) => AfterSell(p, qty, price, sequence)
    case Mark(price) => Marked(p, price)
  }

  /** The position after a stream of operations on a zeroed slot. */
  function Run(ops: seq<Op>): (after: Position) {
    if ops == [] then FLAT else Step(Run(ops[..|ops| - 1]), ops[|ops| - 1])
  }

  lemma RunSnoc(ops: seq<Op>, op: Op)
    ensures Run(ops + [op]) == Step(Run(ops), op)
  {
    assert (ops + [op])[..|ops|] == ops;
  }

  /** Does this fill open or enlarge the position (and so average its price)? */
  predicate Adds(p: Position, op: Op) {
    && op.Fill?
    && (op.side == Side.Buy ==> p.netQty >= 0)
    && (op.side == Side.Sell ==> p.netQty <= 0)
  }

  /** No fill of a negative quantity. A report without LastShares is a fill of zero. */
  ghost predicate Quantities(ops: seq<Op>) {
    forall i :: 0 <= i < |ops| && ops[i].Fill? ==> ops[i].qty >= 0
  }

  ghost predicate NonNegativePrices(ops: seq<Op>) {
    forall i :: 0 <= i < |ops| ==> ops[i].price >= 0
  }
}
