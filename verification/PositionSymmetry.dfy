/**
 Properties of the averaging rule itself: where the average entry price lies, how
 much the way a trade is cut into fills matters, and that long and short positions
 are treated alike.
 */
module PositionSymmetry {
  import opened Arithmetic
  import opened OrderEvents
  import opened Positions

  // ---- Envelope ----

  /** Prices of the fills that opened or enlarged the position since it was last flat or
      crossed from long to short or back. */
  function Basis(ops: seq<Op>): (prices: seq<int>) {
    if ops == [] then [] else BasisStep(Basis(ops[..|ops| - 1]), Run(ops[..|ops| - 1]), ops[|ops| - 1])
  }

  ghost predicate Within(prices: seq<int>, x: int) {
    && (exists i :: 0 <= i < |prices| && prices[i] <= x)
    && (exists i :: 0 <= i < |prices| && prices[i] >= x)
  }

  lemma AveragedBetween(avg: int, held: int, qty: int, price: int)
    requires held >= 0 && qty >= 0 && held + qty > 0
    ensures held == 0 ==> Averaged(avg, held, qty, price) == price
    ensures qty == 0 ==> Averaged(avg, held, qty, price) == avg
    ensures Min(avg, price) <= Averaged(avg, held, qty, price) <= Max(avg, price)
  {
    hide TruncDiv;
    var n := held + qty;
    WeightedBetween(avg, held, price, qty);
    TruncDivBetween(Min(avg, price), Max(avg, price), avg * held + price * qty, n);
    if held == 0 {
      TruncDivExact(price, n);
    }
    if qty == 0 {
      TruncDivExact(avg, n);
    }
  }

  lemma WithinGrows(prices: seq<int>, avg: int, price: int, x: int)
    requires prices == [] || Within(prices, avg)
    requires prices == [] ==> x == price
    requires prices != [] ==> Min(avg, price) <= x <= Max(avg, price)
    ensures Within(prices + [price], x)
  {
    var all := prices + [price];
    assert all[|prices|] == price;
    if prices != [] {
      var i :| 0 <= i < |prices| && prices[i] <= avg;
      var j :| 0 <= j < |prices| && prices[j] >= avg;
      assert all[i] == prices[i] && all[j] == prices[j];
    }
  }

  /** The basis of the position after one more operation. */
  function BasisStep(basis: seq<int>, p: Position, op: Op): (prices: seq<int>) {
    var q := Step(p, op);
    if q.IsFlat() then []
    else if Adds(p, op) && op.qty != 0 then basis + [op.price]
    else if p.netQty < 0 < q.netQty || q.netQty < 0 < p.netQty then [op.price]
    else basis
  }

  ghost predicate InEnvelope(p: Position, basis: seq<int>) {
    if p.IsFlat() then basis == [] else Within(basis, p.avgEntryPrice)
  }

  lemma EnvelopeStep(p: Position, op: Op, basis: seq<int>)
    requires InEnvelope(p, basis)
    requires op.Fill? ==> op.qty >= 0
    ensures InEnvelope(Step(p, op), BasisStep(basis, p, op))
  {
    hide Averaged;
    var q := Step(p, op);
    if Adds(p, op) && !q.IsFlat() {
      AveragedBetween(p.avgEntryPrice, Abs(p.netQty), op.qty, op.price);
      if op.qty != 0 {
        WithinGrows(basis, p.avgEntryPrice, op.price, q.avgEntryPrice);
      }
    } else if p.netQty < 0 < q.netQty || q.netQty < 0 < p.netQty {
      WithinGrows([], 0, op.price, op.price);
      assert [] + [op.price] == [op.price];
    }
  }

  /** While a position is open its average lies between the cheapest and the dearest fill
      that built it, remainders and partial closes notwithstanding. */
  lemma {:induction false} AverageWithinBasis(ops: seq<Op>)
    requires Quantities(ops)
    ensures InEnvelope(Run(ops), Basis(ops))
  {
    if ops != [] {
      hide Step, BasisStep, InEnvelope;
      AverageWithinBasis(ops[..|ops| - 1]);
      EnvelopeStep(Run(ops[..|ops| - 1]), ops[|ops| - 1], Basis(ops[..|ops| - 1]));
    }
  }

  // ---- Granularity ----

  /** A trade of several fills at one price: `parts` are their quantities. */
  function FillParts(p: Position, side: Side, parts: seq<int>, price: int, sequence: nat): (q: Position) {
    if parts == [] then p
    else Step(FillParts(p, side, parts[..|parts| - 1], price, sequence), Fill(side, parts[|parts| - 1], price, sequence))
  }

  function Sum(xs: seq<int>): (total: int) {
    if xs == [] then 0 else Sum(xs[..|xs| - 1]) + xs[|xs| - 1]
  }

  lemma {:induction false} SumNonNegative(xs: seq<int>)
    requires forall i :: 0 <= i < |xs| ==> xs[i] >= 0
    ensures Sum(xs) >= 0
  {
    if xs != [] {
      SumNonNegative(xs[..|xs| - 1]);
    }
  }

  /** The average after adding the parts one by one to `held` shares at `avg`. */
  function AveragedParts(avg: int, held: int, parts: seq<int>, price: int): (average: int) {
    if parts == [] then avg
    else
      var init := parts[..|parts| - 1];
      Averaged(AveragedParts(avg, held, init, price), held + Sum(init), parts[|parts| - 1], price)
  }

  /** Cost not represented after averaging in parts: below one tick per share and part. */
  lemma {:induction false} PartsShortfall(avg: int, held: int, parts: seq<int>, price: int)
    requires avg >= 0 && held >= 0 && price >= 0 && (held == 0 ==> avg == 0)
    requires forall i :: 0 <= i < |parts| ==> parts[i] >= 0
    ensures var n, a := held + Sum(parts), AveragedParts(avg, held, parts, price);
            && a >= 0 && Sum(parts) >= 0
            && 0 <= avg * held + price * Sum(parts) - a * n <= |parts| * Max(0, n - 1)
  {
    if parts != [] {
      hide Averaged;
      var init, q := parts[..|parts| - 1], parts[|parts| - 1];
      PartsShortfall(avg, held, init, price);
      ShortfallStep(avg * held + price * Sum(init), AveragedParts(avg, held, init, price), held + Sum(init), q, price, |init|);
      Distribute(price, Sum(init), q);
    }
  }

  lemma ShortfallStep(cost: int, a: int, n: int, q: int, price: int, k: int)
    requires a >= 0 && n >= 0 && q >= 0 && price >= 0 && k >= 0
    requires 0 <= cost - a * n <= k * Max(0, n - 1)
    ensures var b := Averaged(a, n, q, price);
            && b >= 0
            && 0 <= cost + price * q - b * (n + q) <= (k + 1) * Max(0, n + q - 1)
  {
    assert a * n >= 0 && price * q >= 0;
    if n + q > 0 {
      TruncDivRemainder(a * n + price * q, n + q);
    }
    var m, m' := Max(0, n - 1), Max(0, n + q - 1);
    assert k * m <= k * m';
    assert (k + 1) * m' == k * m' + m';
  }

  /** Averaging a purchase in k parts at one price instead of at once gives the same
      average or one up to k - 1 ticks lower. */
  lemma PartsAverage(avg: int, held: int, parts: seq<int>, price: int)
    requires avg >= 0 && held >= 0 && price >= 0 && (held == 0 ==> avg == 0)
    requires parts != [] && forall i :: 0 <= i < |parts| ==> parts[i] >= 0
    ensures var whole := Averaged(avg, held, Sum(parts), price);
            whole - (|parts| - 1) <= AveragedParts(avg, held, parts, price) <= whole
  {
    PartsShortfall(avg, held, parts, price);
    var n, a, k := held + Sum(parts), AveragedParts(avg, held, parts, price), |parts|;
    var cost := avg * held + price * Sum(parts);
    SumNonNegative(parts);
    if n > 0 {
      assert avg * held >= 0 && price * Sum(parts) >= 0;
      TruncDivRemainder(cost, n);
      QuotientGap(cost, n, TruncDiv(cost, n), a, k);
    } else {
      EmptyParts(avg, held, parts, price);
    }
  }

  lemma QuotientGap(cost: int, n: int, whole: int, a: int, k: int)
    requires n > 0 && k >= 1
    requires 0 <= cost - whole * n < n
    requires 0 <= cost - a * n <= k * (n - 1)
    ensures whole - (k - 1) <= a <= whole
  {
    assert (whole - a) * n == (cost - a * n) - (cost - whole * n);
    assert k * (n - 1) == k * n - k;
    assert whole - a >= k ==> (whole - a) * n >= k * n;
    assert whole - a <= -1 ==> (whole - a) * n <= -n;
  }

  lemma {:induction false} EmptyParts(avg: int, held: int, parts: seq<int>, price: int)
    requires held + Sum(parts) == 0 && held == 0 && avg == 0
    requires forall i :: 0 <= i < |parts| ==> parts[i] >= 0
    ensures AveragedParts(avg, held, parts, price) == 0
  {
    if parts != [] {
      SumNonNegative(parts[..|parts| - 1]);
      EmptyParts(avg, held, parts[..|parts| - 1], price);
    }
  }

  /** Adding in parts moves everything but the average as adding at once does. */
  lemma {:induction false} AddInParts(p: Position, side: Side, parts: seq<int>, price: int, sequence: nat)
    requires Adds(p, Fill(side, 0, price, sequence))
    requires forall i :: 0 <= i < |parts| ==> parts[i] >= 0
    ensures var q := FillParts(p, side, parts, price, sequence);
            && Adds(q, Fill(side, 0, price, sequence))
            && q.realizedPnl == p.realizedPnl
            && q.lastPrice == p.lastPrice
            && q.netQty == (if side == Side.Buy then p.netQty + Sum(parts) else p.netQty - Sum(parts))
            && q.totalBuyQty == (if side == Side.Buy then p.totalBuyQty + Sum(parts) else p.totalBuyQty)
            && q.totalSellQty == (if side == Side.Sell then p.totalSellQty + Sum(parts) else p.totalSellQty)
            && q.avgEntryPrice == AveragedParts(p.avgEntryPrice, Abs(p.netQty), parts, price)
  {
    if parts != [] {
      hide Averaged;
      AddInParts(p, side, parts[..|parts| - 1], price, sequence);
      SumNonNegative(parts[..|parts| - 1]);
    }
  }

  /** Reducing, closing or crossing twice at one price is doing it once. */
  lemma CloseTwice(p: Position, side: Side, a: int, b: int, price: int, sequence: nat)
    requires !Adds(p, Fill(side, 0, price, sequence))
    requires a >= 0 && b >= 0
    ensures Step(Step(p, Fill(side, a, price, sequence)), Fill(side, b, price, sequence))
            == Step(p, Fill(side, a + b, price, sequence))
  {
    hide Averaged;
    var held := Abs(p.netQty);
    AveragedSame(price, Max(0, a - held), b);
    AveragedOpening(b, price);
    var c, d := Min(a, held), Min(a + b, held) - Min(a, held);
    Distribute(p.avgEntryPrice - price, c, d);
    Distribute(price - p.avgEntryPrice, c, d);
  }

  /** So is opening from flat in two steps. */
  lemma OpenTwice(p: Position, side: Side, a: int, b: int, price: int, sequence: nat)
    requires p.IsFlat() && p.avgEntryPrice == 0
    requires a >= 0 && b >= 0
    ensures Step(Step(p, Fill(side, a, price, sequence)), Fill(side, b, price, sequence))
            == Step(p, Fill(side, a + b, price, sequence))
  {
    hide Averaged;
    AveragedOpening(a, price);
    AveragedOpening(a + b, price);
    AveragedOpening(b, price);
    AveragedSame(price, a, b);
  }

  lemma AveragedOpening(qty: int, price: int)
    requires qty >= 0
    ensures Averaged(0, 0, qty, price) == if qty == 0 then 0 else price
  {
    if qty > 0 {
      AveragedBetween(0, 0, qty, price);
    }
  }

  lemma AveragedSame(price: int, held: int, qty: int)
    requires held >= 0 && qty >= 0
    ensures held + qty > 0 ==> Averaged(price, held, qty, price) == price
  {
    if held + qty > 0 {
      AveragedBetween(price, held, qty, price);
    }
  }

  lemma {:induction false} CloseInParts(p: Position, side: Side, parts: seq<int>, price: int, sequence: nat)
    requires !Adds(p, Fill(side, 0, price, sequence)) || (p.IsFlat() && p.avgEntryPrice == 0)
    requires parts != [] && forall i :: 0 <= i < |parts| ==> parts[i] >= 0
    ensures FillParts(p, side, parts, price, sequence) == Step(p, Fill(side, Sum(parts), price, sequence))
  {
    hide Step;
    var init := parts[..|parts| - 1];
    if init == [] {
      assert Sum(parts) == parts[0];
      assert FillParts(p, side, init, price, sequence) == p;
    } else {
      CloseInParts(p, side, init, price, sequence);
      SumNonNegative(init);
      if p.IsFlat() {
        OpenTwice(p, side, Sum(init), parts[|parts| - 1], price, sequence);
      } else {
        CloseTwice(p, side, Sum(init), parts[|parts| - 1], price, sequence);
      }
    }
  }

  /** Cutting one trade into k fills at its price changes nothing when it opens, reduces,
      closes or crosses a position. When it adds to one, the average is at most k - 1 ticks
      lower, the unrealized profit of a marked position higher by just that, and nothing
      else differs. */
  lemma FillGranularity(p: Position, side: Side, parts: seq<int>, price: int, sequence: nat)
    requires p.avgEntryPrice >= 0 && price >= 0 && (p.IsFlat() ==> p.avgEntryPrice == 0)
    requires parts != [] && forall i :: 0 <= i < |parts| ==> parts[i] >= 0
    ensures var op := Fill(side, Sum(parts), price, sequence);
            var cut, whole := FillParts(p, side, parts, price, sequence), Step(p, op);
            var ticks := whole.avgEntryPrice - cut.avgEntryPrice;
            && (p.IsFlat() || !Adds(p, op) ==> cut == whole)
            && 0 <= ticks <= |parts| - 1
            && cut == whole.(avgEntryPrice := whole.avgEntryPrice - ticks,
                             unrealizedPnl := whole.unrealizedPnl
                                              + (if p.lastPrice > 0 then ticks * whole.netQty else 0))
  {
    hide Averaged, FillParts, Sum;
    var op := Fill(side, Sum(parts), price, sequence);
    if p.IsFlat() || !Adds(p, op) {
      CloseInParts(p, side, parts, price, sequence);
      hide Step;
      SumNonNegative(parts);
    } else {
      hide Step;
      AddingGranularity(p, side, parts, price, sequence);
    }
  }

  lemma AddingGranularity(p: Position, side: Side, parts: seq<int>, price: int, sequence: nat)
    requires p.avgEntryPrice >= 0 && price >= 0 && !p.IsFlat() && Adds(p, Fill(side, 0, price, sequence))
    requires parts != [] && forall i :: 0 <= i < |parts| ==> parts[i] >= 0
    ensures var cut, whole := FillParts(p, side, parts, price, sequence), Step(p, Fill(side, Sum(parts), price, sequence));
            var ticks := whole.avgEntryPrice - cut.avgEntryPrice;
            && 0 <= ticks <= |parts| - 1
            && cut == whole.(avgEntryPrice := whole.avgEntryPrice - ticks,
                             unrealizedPnl := whole.unrealizedPnl
                                              + (if p.lastPrice > 0 then ticks * whole.netQty else 0))
  {
    hide Averaged, AveragedParts, Step, Sum;
    var cut, whole := FillParts(p, side, parts, price, sequence), Step(p, Fill(side, Sum(parts), price, sequence));
    var n := |parts| - 1;
    AddInParts(p, side, parts, price, sequence);
    AddAtOnce(p, side, Sum(parts), price, sequence);
    PartsAverage(p.avgEntryPrice, Abs(p.netQty), parts, price);
    FillRefreshes(FillParts(p, side, parts[..n], price, sequence), Fill(side, parts[n], price, sequence));
    hide FillParts;
    AveragesApart(p.lastPrice, whole.avgEntryPrice, cut.avgEntryPrice, whole.netQty);
  }

  lemma AddAtOnce(p: Position, side: Side, qty: int, price: int, sequence: nat)
    requires Adds(p, Fill(side, 0, price, sequence))
    ensures var q := Step(p, Fill(side, qty, price, sequence));
            && q.realizedPnl == p.realizedPnl
            && q.lastPrice == p.lastPrice
            && q.netQty == (if side == Side.Buy then p.netQty + qty else p.netQty - qty)
            && q.totalBuyQty == (if side == Side.Buy then p.totalBuyQty + qty else p.totalBuyQty)
            && q.totalSellQty == (if side == Side.Sell then p.totalSellQty + qty else p.totalSellQty)
            && q.avgEntryPrice == Averaged(p.avgEntryPrice, Abs(p.netQty), qty, price)
            && q == Refresh(q) && q.lastUpdatedSeq == sequence
  {
    hide Averaged;
  }

  lemma FillRefreshes(p: Position, op: Op)
    requires op.Fill?
    ensures Step(p, op) == Refresh(Step(p, op)) && Step(p, op).lastUpdatedSeq == op.sequence
  {
    hide Averaged;
  }

  lemma AveragesApart(last: int, high: int, low: int, net: int)
    ensures (last - low) * net == (last - high) * net + (high - low) * net
  {
  }

  // ---- Long and short ----

  function MirrorOp(op: Op): (mirrored: Op) {
    match op
    case Fill(side, qty, price, sequence) => Fill(if side == Side.Buy then Side.Sell else Side.Buy, qty, price, sequence)
    case Mark(price) => op
  }

  function MirrorOps(ops: seq<Op>): (mirrored: seq<Op>) {
    seq(|ops|, i requires 0 <= i < |ops| => MirrorOp(ops[i]))
  }

  function Mirrored(p: Position): (q: Position) {
    p.(netQty := -p.netQty, realizedPnl := -p.realizedPnl, unrealizedPnl := -p.unrealizedPnl,
       totalBuyQty := p.totalSellQty, totalSellQty := p.totalBuyQty)
  }

  lemma MirrorStep(p: Position, op: Op)
    ensures Step(Mirrored(p), MirrorOp(op)) == Mirrored(Step(p, op))
  {
    hide Averaged;
    var q := Step(p, op);
    Negate(q.lastPrice - q.avgEntryPrice, q.netQty);
    if op.Fill? {
      var gain := p.avgEntryPrice - op.price;
      Negate(gain, op.qty);
      Negate(gain, p.netQty);
      Negate(-gain, p.netQty);
    }
  }

  lemma MirrorOpsSplit(ops: seq<Op>)
    requires ops != []
    ensures MirrorOps(ops)[..|ops| - 1] == MirrorOps(ops[..|ops| - 1])
    ensures |MirrorOps(ops)| == |ops| && MirrorOps(ops)[|ops| - 1] == MirrorOp(ops[|ops| - 1])
  {
    hide MirrorOp;
  }

  /** Swapping every buy and sell of a stream of fills and marks negates position and
      profit, swaps the totals, and leaves the average the same to the last tick. */
  lemma {:induction false} MirrorRun(ops: seq<Op>)
    ensures Run(MirrorOps(ops)) == Mirrored(Run(ops))
  {
    if ops == [] {
      assert MirrorOps(ops) == [];
    } else {
      hide Step, MirrorOps, MirrorOp, Mirrored;
      MirrorRun(ops[..|ops| - 1]);
      MirrorOpsSplit(ops);
      MirrorStep(Run(ops[..|ops| - 1]), ops[|ops| - 1]);
    }
  }
}
