/**
 What the cost basis and the profit-and-loss fields mean. The reference is the
 cash that changed hands: `Proceeds` adds up price times quantity and never
 averages. The program divides on every fill that adds to a position, so profit
 and cash agree up to the remainders of those divisions, and only up to them.
 */
module PositionLedger {
  import opened Arithmetic
  import opened OrderEvents
  import opened Positions

  /** Net cash from the fills: sales minus purchases. */
  function Proceeds(ops: seq<Op>): (cash: int) {
    if ops == [] then 0
    else
      var op := ops[|ops| - 1];
      Proceeds(ops[..|ops| - 1]) +
      (match op
       case Fill(Buy, qty, price, _) => -(price * qty)
       case Fill(Sell, qty, price, _) => price * qty
       case Mark(_) => 0)
  }

  /** What averaging this operation into p throws away; 0 for every operation that does
      not average. */
  function Remainder(p: Position, op: Op): (lost: int) {
    if Adds(p, op) then
      p.avgEntryPrice * Abs(p.netQty) + op.price * op.qty
      - Step(p, op).avgEntryPrice * (Abs(p.netQty) + op.qty)
    else 0
  }

  /** Sum of the remainders of the operations on one side of the book. */
  function Drift(ops: seq<Op>, side: Side): (sum: int) {
    if ops == [] then 0
    else
      var p, op := Run(ops[..|ops| - 1]), ops[|ops| - 1];
      Drift(ops[..|ops| - 1], side) + (if Adds(p, op) && op.side == side then Remainder(p, op) else 0)
  }

  /** Booked profit beyond what cash and the book value of the open position account for. */
  function Unexplained(ops: seq<Op>): (difference: int) {
    var p := Run(ops);
    p.realizedPnl - (Proceeds(ops) + p.avgEntryPrice * p.netQty)
  }

  lemma StepGap(p: Position, op: Op)
    requires op.Fill?
    ensures var q := Step(p, op);
            var cash := if op.side == Side.Buy then -(op.price * op.qty) else op.price * op.qty;
            q.realizedPnl - cash - q.avgEntryPrice * q.netQty
            == p.realizedPnl - p.avgEntryPrice * p.netQty
               + (if op.side == Side.Buy then Remainder(p, op) else -Remainder(p, op))
  {
    var q := Step(p, op);
    if Adds(p, op) {
      var n := Abs(p.netQty) + op.qty;
      assert q.realizedPnl == p.realizedPnl;
      assert q.netQty == if op.side == Side.Buy then n else -n;
      assert p.netQty == if op.side == Side.Buy then Abs(p.netQty) else -Abs(p.netQty);
      Negate(q.avgEntryPrice, n);
      Negate(p.avgEntryPrice, Abs(p.netQty));
    } else {
      CloseGap(p, op);
    }
  }

  /** A fill against the position books exactly the cash it moves, cross or not. */
  lemma CloseGap(p: Position, op: Op)
    requires op.Fill? && !Adds(p, op)
    ensures var q := Step(p, op);
            q.realizedPnl - q.avgEntryPrice * q.netQty
            == p.realizedPnl - p.avgEntryPrice * p.netQty
               + (if op.side == Side.Buy then -(op.price * op.qty) else op.price * op.qty)
  {
    CoverCash(p.avgEntryPrice, op.price, Abs(p.netQty), op.qty);
    if op.side == Side.Sell {
      var q := Step(p, op);
      Negate(q.avgEntryPrice, op.qty - p.netQty);
      assert op.qty < p.netQty ==> (op.price - p.avgEntryPrice) * op.qty == -((p.avgEntryPrice - op.price) * op.qty);
      assert (op.price - p.avgEntryPrice) * p.netQty == -((p.avgEntryPrice - op.price) * p.netQty);
    } else {
      Negate(p.avgEntryPrice, -p.netQty);
    }
  }

  /** Closing q of h shares held at a, at price x: the booked profit plus the book value
      released is x * q. */
  lemma CoverCash(a: int, x: int, h: int, q: int)
    ensures var closed := if q <= h then q else h;
            var basis := if q > h then x else if q == h then 0 else a;
            (a - x) * closed - basis * (q - h) == a * h - x * q
  {
    if q < h {
      assert (a - x) * q == a * q - x * q;
      assert a * (q - h) == a * q - a * h;
    } else {
      assert (a - x) * h == a * h - x * h;
      assert x * (q - h) == x * q - x * h;
    }
  }

  /** The ledger identity, for every stream of fills and marks whatsoever: realized profit
      is net cash, plus the book value of what is still held, plus the remainders of the
      averaged buys, minus those of the averaged sells. */
  lemma {:induction false} LedgerIdentity(ops: seq<Op>)
    ensures Run(ops).realizedPnl
            == Proceeds(ops) + Run(ops).avgEntryPrice * Run(ops).netQty + Drift(ops, Side.Buy) - Drift(ops, Side.Sell)
  {
    if ops != [] {
      var init, op := ops[..|ops| - 1], ops[|ops| - 1];
      LedgerIdentity(init);
      if op.Fill? {
        StepGap(Run(init), op);
      }
    }
  }

  /** One operation moves the unexplained profit by its own remainder and nothing else. */
  lemma UnexplainedStep(ops: seq<Op>, k: nat)
    requires k < |ops|
    ensures var rem := Remainder(Run(ops[..k]), ops[k]);
            Unexplained(ops[..k + 1])
            == Unexplained(ops[..k]) + (if ops[k].Fill? && ops[k].side == Side.Sell then -rem else rem)
  {
    assert ops[..k + 1][..k] == ops[..k];
    LedgerIdentity(ops[..k + 1]);
    LedgerIdentity(ops[..k]);
  }

  /** Can this operation be averaged without a remainder? Known before it is applied. */
  predicate DivisionExact(p: Position, op: Op) {
    Adds(p, op) ==>
      var cost, shares := p.avgEntryPrice * Abs(p.netQty) + op.price * op.qty, Abs(p.netQty) + op.qty;
      if shares > 0 then cost % shares == 0 else cost == 0
  }

  lemma RemainderZeroIff(p: Position, op: Op)
    ensures Remainder(p, op) == 0 <==> DivisionExact(p, op)
  {
    if Adds(p, op) {
      hide TruncDiv;
      var cost, shares := p.avgEntryPrice * Abs(p.netQty) + op.price * op.qty, Abs(p.netQty) + op.qty;
      if shares > 0 {
        TruncDivExactIff(cost, shares);
      }
    }
  }

  /** "Every fill must reconcile perfectly": the books agree with the cash after every
      operation exactly when every fill that averages meets a position whose cost, with its
      own, the shares then held divide. */
  lemma ReconcilesExactlyIffDivisionsExact(ops: seq<Op>)
    ensures (forall k :: 0 <= k <= |ops| ==> Unexplained(ops[..k]) == 0)
       <==> (forall k :: 0 <= k < |ops| ==> DivisionExact(Run(ops[..k]), ops[k]))
  {
    hide DivisionExact, Unexplained, Remainder;
    forall k | 0 <= k < |ops|
      ensures DivisionExact(Run(ops[..k]), ops[k]) <==> Remainder(Run(ops[..k]), ops[k]) == 0
    {
      RemainderZeroIff(Run(ops[..k]), ops[k]);
    }
    if forall k :: 0 <= k <= |ops| ==> Unexplained(ops[..k]) == 0 {
      forall k | 0 <= k < |ops|
        ensures Remainder(Run(ops[..k]), ops[k]) == 0
      {
        UnexplainedStep(ops, k);
        assert Unexplained(ops[..k]) == 0 && Unexplained(ops[..k + 1]) == 0;
      }
    }
    if forall k :: 0 <= k < |ops| ==> DivisionExact(Run(ops[..k]), ops[k]) {
      ExactDivisionsReconcile(ops, |ops|);
    }
  }

  lemma {:induction false} ExactDivisionsReconcile(ops: seq<Op>, n: nat)
    requires n <= |ops|
    requires forall k :: 0 <= k < n ==> DivisionExact(Run(ops[..k]), ops[k])
    ensures forall k :: 0 <= k <= n ==> Unexplained(ops[..k]) == 0
  {
    if n == 0 {
      assert ops[..0] == [];
    } else {
      hide DivisionExact, Unexplained, Remainder;
      ExactDivisionsReconcile(ops, n - 1);
      UnexplainedStep(ops, n - 1);
      RemainderZeroIff(Run(ops[..n - 1]), ops[n - 1]);
    }
  }

  /** It is not always so: buying 1 at 10 and 2 at 11 and selling the 3 at 10 spends 2
      and books nothing. */
  lemma LossNotBooked()
    ensures var ops := [Fill(Side.Buy, 1, 10, 0), Fill(Side.Buy, 2, 11, 1), Fill(Side.Sell, 3, 10, 2)];
            Run(ops).IsFlat() && Run(ops).realizedPnl == 0 && Proceeds(ops) == -2
  {
    var one, two, three := Fill(Side.Buy, 1, 10, 0), Fill(Side.Buy, 2, 11, 1), Fill(Side.Sell, 3, 10, 2);
    var p1, p2 := Position(1, 10, 0, 0, 1, 0, 0, 0), Position(3, 10, 0, 0, 3, 0, 0, 1);
    assert [one, two, three] == [one] + [two] + [three] && [] + [one] == [one];
    hide *;
    RunSnoc([], one);
    RunSnoc([one], two);
    RunSnoc([one] + [two], three);
    EmptyRun();
    FirstBuy();
    SecondBuy();
    FinalSell();
    ProceedsSnoc([], one);
    ProceedsSnoc([one], two);
    ProceedsSnoc([one] + [two], three);
  }

  lemma FirstBuy()
    ensures Step(FLAT, Fill(Side.Buy, 1, 10, 0)) == Position(1, 10, 0, 0, 1, 0, 0, 0)
  {
  }

  lemma SecondBuy()
    ensures Step(Position(1, 10, 0, 0, 1, 0, 0, 0), Fill(Side.Buy, 2, 11, 1)) == Position(3, 10, 0, 0, 3, 0, 0, 1)
  {
  }

  lemma FinalSell()
    ensures Step(Position(3, 10, 0, 0, 3, 0, 0, 1), Fill(Side.Sell, 3, 10, 2)) == Position(0, 0, 0, 0, 3, 3, 0, 2)
  {
  }

  lemma EmptyRun()
    ensures Run([]) == FLAT && Proceeds([]) == 0
  {
  }

  lemma ProceedsSnoc(ops: seq<Op>, op: Op)
    requires op.Fill?
    ensures Proceeds(ops + [op])
            == Proceeds(ops) + (if op.side == Side.Buy then -(op.price * op.qty) else op.price * op.qty)
  {
    assert (ops + [op])[..|ops|] == ops;
  }

  // ---- The size of the drift ----

  lemma AverageStep(p: Position, op: Op)
    requires p.IsFlat() ==> p.avgEntryPrice == 0
    ensures Step(p, op).IsFlat() ==> Step(p, op).avgEntryPrice == 0
    ensures p.avgEntryPrice >= 0 && op.price >= 0 && (op.Fill? ==> op.qty >= 0) ==> Step(p, op).avgEntryPrice >= 0
  {
    hide Averaged;
    AveragedSign(p.avgEntryPrice, Abs(p.netQty), if op.Fill? then op.qty else 0, op.price);
  }

  lemma AveragedSign(avg: int, held: int, qty: int, price: int)
    ensures held + qty == 0 ==> Averaged(avg, held, qty, price) == 0
    ensures avg >= 0 && held >= 0 && qty >= 0 && price >= 0 ==> Averaged(avg, held, qty, price) >= 0
  {
    if avg >= 0 && held >= 0 && qty >= 0 && price >= 0 {
      assert avg * held >= 0 && price * qty >= 0;
    }
  }

  /** A flat position has average 0, and prices that are not negative average to no less. */
  lemma {:induction false} AverageNonNegative(ops: seq<Op>)
    ensures Run(ops).IsFlat() ==> Run(ops).avgEntryPrice == 0
    ensures Quantities(ops) && NonNegativePrices(ops) ==> Run(ops).avgEntryPrice >= 0
  {
    if ops != [] {
      var init, op := ops[..|ops| - 1], ops[|ops| - 1];
      AverageNonNegative(init);
      AverageStep(Run(init), op);
    }
  }

  /** A flat position shows no open profit, whatever was traded and marked before. */
  lemma {:induction false} FlatShowsNoProfit(ops: seq<Op>)
    ensures Run(ops).IsFlat() ==> Run(ops).unrealizedPnl == 0
  {
    if ops != [] {
      hide Averaged;
      FlatShowsNoProfit(ops[..|ops| - 1]);
    }
  }

  /** An averaging step throws away less than one price tick per share then held, and
      nothing at all when it opens a position. */
  lemma RemainderBound(p: Position, op: Op)
    requires Adds(p, op) && op.qty >= 0
    requires p.avgEntryPrice >= 0 && op.price >= 0
    ensures 0 <= Remainder(p, op) <= Max(0, Abs(Step(p, op).netQty) - 1)
    ensures p.IsFlat() || op.qty == 0 ==> Remainder(p, op) == 0
  {
    var a, h, n := p.avgEntryPrice, Abs(p.netQty), Abs(p.netQty) + op.qty;
    var cost := a * h + op.price * op.qty;
    assert a * h >= 0 && op.price * op.qty >= 0;
    if n > 0 {
      TruncDivRemainder(cost, n);
      if h == 0 {
        TruncDivExact(op.price, n);
      } else if op.qty == 0 {
        TruncDivExact(a, n);
      }
    }
  }

  /** The number of fills on a side that averaged into an open position. */
  function AveragedFills(ops: seq<Op>, side: Side): (n: nat) {
    if ops == [] then 0
    else
      var p, op := Run(ops[..|ops| - 1]), ops[|ops| - 1];
      AveragedFills(ops[..|ops| - 1], side)
      + (if Adds(p, op) && op.side == side && !p.IsFlat() && op.qty != 0 then 1 else 0)
  }

  /** The largest position, long or short, that the stream ever held. */
  function Peak(ops: seq<Op>): (peak: int) {
    if ops == [] then 0 else Max(Peak(ops[..|ops| - 1]), Abs(Run(ops).netQty))
  }

  /** The drift of a side is never negative and stays below one tick per share of the
      largest position, for each fill that averaged. */
  lemma {:induction false} DriftBound(ops: seq<Op>, side: Side, peak: int)
    requires Quantities(ops) && NonNegativePrices(ops)
    requires Peak(ops) <= peak
    ensures 0 <= Drift(ops, side) <= AveragedFills(ops, side) * Max(0, peak - 1)
  {
    if ops != [] {
      hide Step, Remainder;
      var init, op := ops[..|ops| - 1], ops[|ops| - 1];
      DriftBound(init, side, peak);
      AverageNonNegative(init);
      if Adds(Run(init), op) {
        RemainderBound(Run(init), op);
      }
      Distribute(Max(0, peak - 1), AveragedFills(init, side), 1);
    }
  }

  /** Once a symbol is flat, booked profit is its net cash plus the drift: averaged buys
      overstate it, averaged sells understate it. */
  lemma FlatProfit(ops: seq<Op>)
    requires Run(ops).IsFlat()
    ensures Run(ops).realizedPnl == Proceeds(ops) + Drift(ops, Side.Buy) - Drift(ops, Side.Sell)
  {
    LedgerIdentity(ops);
    AverageNonNegative(ops);
  }

  // ---- Marks ----

  /** What `unrealized_pnl` should be. */
  ghost predicate MarkedCorrectly(p: Position) {
    p.unrealizedPnl == if p.lastPrice > 0 && !p.IsFlat() then (p.lastPrice - p.avgEntryPrice) * p.netQty else 0
  }

  /** Will the operation leave a correct unrealized profit correct? A mark of an open
      position has to be positive, or equal to the average. */
  predicate KeepsMark(p: Position, op: Op) {
    op.Fill? || p.IsFlat() || op.price > 0 || op.price == p.avgEntryPrice
  }

  lemma MarkedCorrectlyIff(p: Position, op: Op)
    requires MarkedCorrectly(p)
    ensures MarkedCorrectly(Step(p, op)) <==> KeepsMark(p, op)
  {
    if op.Mark? && !p.IsFlat() {
      NonZeroProduct(op.price - p.avgEntryPrice, p.netQty);
    }
  }

  lemma NonZeroProduct(x: int, y: int)
    requires y != 0
    ensures x * y == 0 <==> x == 0
  {
  }

  lemma {:induction false} MarkedUpTo(ops: seq<Op>, n: nat)
    requires n <= |ops|
    requires forall k :: 0 <= k < n ==> KeepsMark(Run(ops[..k]), ops[k])
    ensures forall k :: 0 <= k <= n ==> MarkedCorrectly(Run(ops[..k]))
  {
    hide Step, KeepsMark, MarkedCorrectly;
    if n == 0 {
      assert ops[..0] == [];
      FlatIsMarked();
    } else {
      MarkedUpTo(ops, n - 1);
      MarkedCorrectlyIff(Run(ops[..n - 1]), ops[n - 1]);
      assert ops[..n][..n - 1] == ops[..n - 1];
    }
  }

  lemma FlatIsMarked()
    ensures MarkedCorrectly(Run([]))
  {
  }

  /** Over a whole stream: unrealized profit is right after every operation exactly when
      every operation met the condition in the state it found. */
  lemma MarkedThroughoutIff(ops: seq<Op>)
    ensures (forall k :: 0 <= k <= |ops| ==> MarkedCorrectly(Run(ops[..k])))
       <==> (forall k :: 0 <= k < |ops| ==> KeepsMark(Run(ops[..k]), ops[k]))
  {
    hide Step, KeepsMark, MarkedCorrectly;
    if forall k :: 0 <= k <= |ops| ==> MarkedCorrectly(Run(ops[..k])) {
      forall k | 0 <= k < |ops|
        ensures KeepsMark(Run(ops[..k]), ops[k])
      {
        assert MarkedCorrectly(Run(ops[..k])) && MarkedCorrectly(Run(ops[..k + 1]));
        assert ops[..k + 1][..k] == ops[..k];
        MarkedCorrectlyIff(Run(ops[..k]), ops[k]);
      }
    }
    if forall k :: 0 <= k < |ops| ==> KeepsMark(Run(ops[..k]), ops[k]) {
      MarkedUpTo(ops, |ops|);
    }
  }

  lemma UnrealizedIsMarked(ops: seq<Op>)
    requires forall i :: 0 <= i < |ops| && ops[i].Mark? ==> ops[i].price > 0
    ensures MarkedCorrectly(Run(ops))
  {
    hide Run, MarkedCorrectly;
    MarkedUpTo(ops, |ops|);
    assert ops[..|ops|] == ops;
  }

  /** The price of the last mark that found the position open; no other mark is kept. */
  function LastMark(ops: seq<Op>): (price: int) {
    if ops == [] then 0
    else
      var init, op := ops[..|ops| - 1], ops[|ops| - 1];
      if op.Mark? && !Run(init).IsFlat() then op.price else LastMark(init)
  }

  lemma {:induction false} LastPriceIsLastMark(ops: seq<Op>)
    ensures Run(ops).lastPrice == LastMark(ops)
  {
    if ops != [] {
      hide Averaged;
      LastPriceIsLastMark(ops[..|ops| - 1]);
    }
  }

  /** Total profit of an open, marked position: its cash, its shares at the last price, and
      the drift. The average cancels out. */
  lemma MarkedProfitReconciles(ops: seq<Op>)
    requires forall i :: 0 <= i < |ops| && ops[i].Mark? ==> ops[i].price > 0
    requires !Run(ops).IsFlat() && Run(ops).lastPrice > 0
    ensures Run(ops).realizedPnl + Run(ops).unrealizedPnl
            == Proceeds(ops) + Run(ops).lastPrice * Run(ops).netQty + Drift(ops, Side.Buy) - Drift(ops, Side.Sell)
  {
    hide Run;
    LedgerIdentity(ops);
    UnrealizedIsMarked(ops);
    var p := Run(ops);
    assert (p.lastPrice - p.avgEntryPrice) * p.netQty == p.lastPrice * p.netQty - p.avgEntryPrice * p.netQty;
  }
}
