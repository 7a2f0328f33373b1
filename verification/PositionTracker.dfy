/**
 The position projection (include/PositionTracker.h): the table of positions as a
 function of the events and market prices applied to it, and the class that keeps it
 in a flat array.
 */
module PositionTrackers {
  import opened Arithmetic
  import opened EventLogs
  import opened FlatTable
  import opened OrderEvents
  import opened PositionLedger
  import opened Positions
  import opened Wrappers

  const MAX_SYMBOLS: nat := 1024

  const ZERO_SLOT: Slot<Position> := Slot(BLANK_NAME, FLAT)

  function FillOp(e: OrderEvent): (op: Op)
    requires e.IsFill()
  {
    Fill(e.side, e.fillQty, e.fillPrice, e.sequence)
  }

  /** `apply_event`: only fills count, and a fill for a symbol that finds the table full is
      dropped. */
  function ApplyFill(t: Table<Position>, e: OrderEvent): (u: Table<Position>) {
    if !e.IsFill() then t
    else
      var u := Ensure(t, e.symbol, MAX_SYMBOLS, FLAT);
      if Has(u, e.symbol) then Put(u, e.symbol, Step(u[Find(u, e.symbol)].body, FillOp(e))) else u
  }

  /** `mark_to_market`. */
  function MarkSymbol(t: Table<Position>, symbol: Name, price: int): (u: Table<Position>) {
    if Has(t, symbol) then Put(t, symbol, Marked(t[Find(t, symbol)].body, price)) else t
  }

  datatype TrackerOp = Apply(e: OrderEvent) | MarkToMarket(symbol: Name, price: int)

  function TrackerStep(t: Table<Position>, op: TrackerOp): (u: Table<Position>) {
    match op
    case Apply(e) => ApplyFill(t, e)
    case MarkToMarket(symbol, price) => MarkSymbol(t, symbol, price)
  }

  /** The table after a stream of events and market prices. */
  function Track(ops: seq<TrackerOp>): (t: Table<Position>) {
    if ops == [] then [] else TrackerStep(Track(ops[..|ops| - 1]), ops[|ops| - 1])
  }

  /** The table after replaying events into t. */
  function ReplayPositions(t: Table<Position>, es: seq<OrderEvent>): (u: Table<Position>) {
    if es == [] then t else ApplyFill(ReplayPositions(t, es[..|es| - 1]), es[|es| - 1])
  }

  // ---- The flat table refines a map from symbols to positions ----

  /** The operations of the stream that concern one symbol. */
  function OpsFor(ops: seq<TrackerOp>, symbol: Name): (own: seq<Op>) {
    if ops == [] then []
    else
      var rest := OpsFor(ops[..|ops| - 1], symbol);
      match ops[|ops| - 1]
      case Apply(e) => if e.IsFill() && e.symbol == symbol then rest + [FillOp(e)] else rest
      case MarkToMarket(s, price) => if s == symbol then rest + [Mark(price)] else rest
  }

  /** The symbols of the fills of the stream, in order. */
  function FilledSymbols(ops: seq<TrackerOp>): (symbols: seq<Name>) {
    if ops == [] then []
    else
      FilledSymbols(ops[..|ops| - 1]) + FilledSymbol(ops[|ops| - 1])
  }

  function FilledSymbol(op: TrackerOp): (symbols: seq<Name>) {
    if op.Apply? && op.e.IsFill() then [op.e.symbol] else []
  }

  lemma KeysStep(t: Table<Position>, xs: seq<Name>, op: TrackerOp)
    requires Keys(t) == Admitted(xs, MAX_SYMBOLS)
    ensures Keys(TrackerStep(t, op)) == Admitted(xs + FilledSymbol(op), MAX_SYMBOLS)
  {
    hide Step, Marked, Admitted;
    if op.Apply? && op.e.IsFill() {
      EnsureKeys(t, xs, op.e.symbol, MAX_SYMBOLS, FLAT);
    } else {
      assert xs + FilledSymbol(op) == xs;
    }
  }

  /** The slots belong to the first 1024 distinct symbols that were filled, in the order of
      their first fill: no symbol has two slots, no slot moves, and later symbols get none. */
  lemma {:induction false} TrackedSymbols(ops: seq<TrackerOp>)
    ensures Keys(Track(ops)) == Admitted(FilledSymbols(ops), MAX_SYMBOLS)
    ensures Distinct(Track(ops)) && |Track(ops)| <= MAX_SYMBOLS
  {
    if ops != [] {
      hide TrackerStep, Admitted, FilledSymbol, Keys;
      TrackedSymbols(ops[..|ops| - 1]);
      KeysStep(Track(ops[..|ops| - 1]), FilledSymbols(ops[..|ops| - 1]), ops[|ops| - 1]);
    } else {
      assert Keys(Track(ops)) == [];
    }
    DistinctKeys(Track(ops), FilledSymbols(ops), MAX_SYMBOLS);
  }

  lemma ApplyFillGet(t: Table<Position>, e: OrderEvent, symbol: Name)
    ensures Get(ApplyFill(t, e), symbol)
            == if e.IsFill() && e.symbol == symbol then
                 (if Has(t, symbol) then Some(Step(Get(t, symbol).value, FillOp(e)))
                  else if |t| < MAX_SYMBOLS then Some(Step(FLAT, FillOp(e)))
                  else None)
               else Get(t, symbol)
  {
    hide Step;
    if e.IsFill() {
      var u := Ensure(t, e.symbol, MAX_SYMBOLS, FLAT);
      EnsureGet(t, e.symbol, MAX_SYMBOLS, FLAT, symbol);
      EnsureGet(t, e.symbol, MAX_SYMBOLS, FLAT, e.symbol);
      if Has(u, e.symbol) {
        PutGet(u, e.symbol, Step(u[Find(u, e.symbol)].body, FillOp(e)), symbol);
      }
    }
  }

  lemma MarkSymbolGet(t: Table<Position>, marked: Name, price: int, symbol: Name)
    ensures Get(MarkSymbol(t, marked, price), symbol)
            == if marked == symbol && Has(t, symbol) then Some(Marked(Get(t, symbol).value, price)) else Get(t, symbol)
  {
    hide Marked;
    if Has(t, marked) {
      PutGet(t, marked, Marked(t[Find(t, marked)].body, price), symbol);
    }
  }

  /** A symbol with no fill yet stands at a zeroed position, whatever prices it saw. */
  lemma {:induction false} UnfilledIsFlat(ops: seq<TrackerOp>, symbol: Name)
    requires symbol !in FilledSymbols(ops)
    ensures Run(OpsFor(ops, symbol)) == FLAT
  {
    if ops != [] {
      var init, op := ops[..|ops| - 1], ops[|ops| - 1];
      UnfilledIsFlat(init, symbol);
      if op.MarkToMarket? && op.symbol == symbol {
        RunSnoc(OpsFor(init, symbol), Mark(op.price));
      } else if op.Apply? && op.e.IsFill() {
        assert op.e.symbol in FilledSymbols(ops);
      }
    }
  }

  lemma {:induction false} TrackerLookup(ops: seq<TrackerOp>, symbol: Name)
    ensures Has(Track(ops), symbol) ==> Get(Track(ops), symbol) == Some(Run(OpsFor(ops, symbol)))
  {
    if ops != [] {
      hide Has, Get, TrackerStep, OpsFor, Run;
      var init, op := ops[..|ops| - 1], ops[|ops| - 1];
      assert init + [op] == ops;
      TrackerLookup(init, symbol);
      TrackedSymbols(init);
      LookupStep(init, op, symbol);
    }
  }

  /** `get` after any stream: a symbol with a slot stands where its own fills and prices
      alone have put it, and a symbol without one is unknown. */
  lemma TrackerRefinesMap(ops: seq<TrackerOp>, symbol: Name)
    ensures Get(Track(ops), symbol)
            == if symbol in Admitted(FilledSymbols(ops), MAX_SYMBOLS) then Some(Run(OpsFor(ops, symbol))) else None
  {
    hide Track, FilledSymbols, Admitted, OpsFor, Run;
    TrackerLookup(ops, symbol);
    TrackedSymbols(ops);
    HasIsMember(Track(ops), symbol);
  }

  /** The ledger identity for every symbol of the table, after any stream of events of any
      symbols and market prices. */
  lemma SymbolLedger(ops: seq<TrackerOp>, symbol: Name)
    requires Has(Track(ops), symbol)
    ensures var p, own := Get(Track(ops), symbol).value, OpsFor(ops, symbol);
            p.realizedPnl
            == Proceeds(own) + p.avgEntryPrice * p.netQty + Drift(own, Side.Buy) - Drift(own, Side.Sell)
  {
    hide Track, OpsFor, Run, Proceeds, Drift;
    TrackerLookup(ops, symbol);
    LedgerIdentity(OpsFor(ops, symbol));
  }

  lemma LookupStep(init: seq<TrackerOp>, op: TrackerOp, symbol: Name)
    requires Has(Track(init), symbol) ==> Get(Track(init), symbol) == Some(Run(OpsFor(init, symbol)))
    requires Keys(Track(init)) == Admitted(FilledSymbols(init), MAX_SYMBOLS)
    ensures var t := TrackerStep(Track(init), op);
            Has(t, symbol) ==> Get(t, symbol) == Some(Run(OpsFor(init + [op], symbol)))
  {
    hide AfterBuy, AfterSell, Marked, Admitted, FirstDistinct;
    var ops, t := init + [op], Track(init);
    assert ops[..|init|] == init;
    match op {
      case Apply(e) =>
        ApplyFillGet(t, e, symbol);
        if e.IsFill() && e.symbol == symbol {
          RunSnoc(OpsFor(init, symbol), FillOp(e));
          if !Has(t, symbol) && |t| < MAX_SYMBOLS {
            NotAdmittedIsNew(FilledSymbols(init), symbol, t);
            UnfilledIsFlat(init, symbol);
          }
        }
      case MarkToMarket(s, price) =>
        MarkSymbolGet(t, s, price, symbol);
        RunSnoc(OpsFor(init, symbol), Mark(price));
    }
  }

  /** With room left in the table, only names never asked for are missing from it. */
  lemma NotAdmittedIsNew(xs: seq<Name>, k: Name, t: Table<Position>)
    requires Keys(t) == Admitted(xs, MAX_SYMBOLS) && |t| < MAX_SYMBOLS && !Has(t, k)
    ensures k !in xs
  {
    HasIsMember(t, k);
  }

  // ---- Replay ----

  /** What a log replay must restore: everything but the sequence number and the fields
      that market prices set. */
  function Core(p: Position): (core: Position) {
    p.(unrealizedPnl := 0, lastPrice := 0, lastUpdatedSeq := 0)
  }

  function CoreTable(t: Table<Position>): (u: Table<Position>)
    ensures |u| == |t|
    ensures forall i :: 0 <= i < |t| ==> u[i] == Slot(t[i].key, Core(t[i].body))
  {
    seq(|t|, i requires 0 <= i < |t| => Slot(t[i].key, Core(t[i].body)))
  }

  lemma FindCore(t: Table<Position>, k: Name)
    ensures Find(CoreTable(t), k) == Find(t, k)
  {
    var u := CoreTable(t);
    assert Has(t, k) ==> u[Find(t, k)].key == k;
  }

  lemma CoreOfFill(p: Position, q: Position, a: Op, b: Op)
    requires Core(p) == Core(q)
    requires a.Fill? && b.Fill? && a.(sequence := 0) == b.(sequence := 0)
    ensures Core(Step(p, a)) == Core(Step(q, b))
  {
    hide Averaged;
  }

  lemma CoreOfApply(t: Table<Position>, u: Table<Position>, e: OrderEvent, f: OrderEvent)
    requires CoreTable(t) == CoreTable(u) && Unstamped(e) == Unstamped(f)
    ensures CoreTable(ApplyFill(t, e)) == CoreTable(ApplyFill(u, f))
  {
    hide Step;
    assert e.symbol == f.symbol && e.IsFill() == f.IsFill();
    if e.IsFill() {
      FindCore(t, e.symbol);
      FindCore(u, e.symbol);
      var t', u' := Ensure(t, e.symbol, MAX_SYMBOLS, FLAT), Ensure(u, e.symbol, MAX_SYMBOLS, FLAT);
      CoreOfEnsure(t, e.symbol);
      CoreOfEnsure(u, e.symbol);
      FindCore(t', e.symbol);
      FindCore(u', e.symbol);
      if Has(t', e.symbol) {
        var i := Find(t', e.symbol);
        assert CoreTable(t')[i] == CoreTable(u')[i];
        CoreOfFill(t'[i].body, u'[i].body, FillOp(e), FillOp(f));
        CoreOfPut(t', e.symbol, Step(t'[i].body, FillOp(e)));
        CoreOfPut(u', e.symbol, Step(u'[i].body, FillOp(f)));
      }
    }
  }

  lemma CoreOfEnsure(t: Table<Position>, k: Name)
    ensures CoreTable(Ensure(t, k, MAX_SYMBOLS, FLAT)) == Ensure(CoreTable(t), k, MAX_SYMBOLS, FLAT)
  {
    FindCore(t, k);
  }

  lemma CoreOfPut(t: Table<Position>, k: Name, v: Position)
    requires Has(t, k)
    ensures Has(CoreTable(t), k) && CoreTable(Put(t, k, v)) == Put(CoreTable(t), k, Core(v))
  {
    FindCore(t, k);
  }

  lemma CoreOfMark(t: Table<Position>, symbol: Name, price: int)
    ensures CoreTable(MarkSymbol(t, symbol, price)) == CoreTable(t)
  {
  }

  /** The events among the operations. */
  function EventsOf(ops: seq<TrackerOp>): (es: seq<OrderEvent>) {
    if ops == [] then []
    else
      var rest := EventsOf(ops[..|ops| - 1]);
      match ops[|ops| - 1]
      case Apply(e) => rest + [e]
      case MarkToMarket(_, _) => rest
  }

  /** The live table, with market prices in between and built from unstamped events, agrees
      with the table replayed from the stamped log, slot for slot, on everything but the
      sequence number and the marked fields. */
  lemma {:induction false} LivePositionsEqualReplay(ops: seq<TrackerOp>, log: seq<OrderEvent>)
    requires AllUnstamped(EventsOf(ops)) == AllUnstamped(log)
    ensures CoreTable(Track(ops)) == CoreTable(ReplayPositions([], log))
  {
    if ops == [] {
      assert |AllUnstamped(log)| == 0;
    } else {
      hide ApplyFill, MarkSymbol;
      var init, op := ops[..|ops| - 1], ops[|ops| - 1];
      match op {
        case MarkToMarket(symbol, price) =>
          LivePositionsEqualReplay(init, log);
          CoreOfMark(Track(init), symbol, price);
        case Apply(e) =>
          var rest := EventsOf(init);
          assert |log| == |rest| + 1;
          var before, last := log[..|log| - 1], log[|log| - 1];
          assert AllUnstamped(rest + [e])[|rest|] == AllUnstamped(log)[|rest|];
          assert AllUnstamped(rest) == AllUnstamped(rest + [e])[..|rest|];
          assert AllUnstamped(before) == AllUnstamped(log)[..|rest|];
          LivePositionsEqualReplay(init, before);
          CoreOfApply(Track(init), ReplayPositions([], before), e, last);
      }
    }
  }

  /** Replay alone never knows a market price: until the next mark every replayed position
      shows no unrealized profit. */
  lemma {:induction false} ReplayForgetsMarks(es: seq<OrderEvent>)
    ensures forall i :: 0 <= i < |ReplayPositions([], es)| ==>
              ReplayPositions([], es)[i].body.lastPrice == 0 && ReplayPositions([], es)[i].body.unrealizedPnl == 0
  {
    if es != [] {
      ReplayForgetsMarks(es[..|es| - 1]);
      var t, e := ReplayPositions([], es[..|es| - 1]), es[|es| - 1];
      if e.IsFill() {
        var u := Ensure(t, e.symbol, MAX_SYMBOLS, FLAT);
        if Has(u, e.symbol) {
          NoMark(u[Find(u, e.symbol)].body, FillOp(e));
          hide Step;
        }
      }
    }
  }

  /** After a replay the sequence number of a position is the index of the last fill of its
      symbol in the log. */
  lemma {:induction false} PositionRecord(es: seq<OrderEvent>, symbol: Name)
    requires Sequenced(es) && Has(ReplayPositions([], es), symbol)
    ensures var n := Get(ReplayPositions([], es), symbol).value.lastUpdatedSeq;
            && 0 <= n < |es|
            && es[n].IsFill() && es[n].symbol == symbol
            && forall m :: n < m < |es| ==> !(es[m].IsFill() && es[m].symbol == symbol)
  {
    if es != [] {
      hide ApplyFill, Has, Find;
      var init, e := es[..|es| - 1], es[|es| - 1];
      ApplyFillGet(ReplayPositions([], init), e, symbol);
      if e.IsFill() && e.symbol == symbol {
        hide Averaged;
      } else {
        PositionRecord(init, symbol);
        var n := Get(ReplayPositions([], init), symbol).value.lastUpdatedSeq;
        assert init[n] == es[n];
      }
    }
  }

  lemma NoMark(p: Position, op: Op)
    requires op.Fill? && p.lastPrice == 0
    ensures Step(p, op).lastPrice == 0 && Step(p, op).unrealizedPnl == 0
  {
    hide Averaged;
  }

  lemma ReplayNext(es: seq<OrderEvent>, i: nat)
    requires i < |es|
    ensures ReplayPositions([], es[..i + 1]) == ApplyFill(ReplayPositions([], es[..i]), es[i])
  {
    assert es[..i + 1][..i] == es[..i];
  }

  // ---- The class ----

  class PositionTracker {
    const slots: array<Slot<Position>>
    var count: nat

    ghost predicate Valid()
      reads this, slots
    {
      && slots.Length == MAX_SYMBOLS
      && count <= MAX_SYMBOLS
      && Distinct(slots[..count])
      && forall i :: count <= i < MAX_SYMBOLS ==> slots[i] == ZERO_SLOT
    }

    ghost function Contents(): (contents: Table<Position>)
      reads this, slots
      requires Valid()
    {
      slots[..count]
    }

    constructor ()
      ensures Valid() && Contents() == [] && fresh(slots)
    {
      slots := new Slot<Position>[MAX_SYMBOLS](i => ZERO_SLOT);
      count := 0;
    }

    /** Index of the symbol's slot; `count` stands for the null pointer. */
    method FindIndex(symbol: string) returns (i: nat)
      requires Valid()
      ensures i == Find(Contents(), NameOf(symbol))
    {
      hide NameOf, StrncmpEqual, Padded;
      i := 0;
      while i < count
        invariant i <= count
        invariant forall j :: 0 <= j < i ==> slots[j].key != NameOf(symbol)
      {
        StrncmpIsNameEquality(slots[i].key, symbol);
        if StrncmpEqual(slots[i].key.bytes, symbol) {
          return;
        }
        i := i + 1;
      }
    }

    method GetPosition(symbol: string) returns (r: Option<Position>)
      requires Valid()
      ensures r == Get(Contents(), NameOf(symbol))
    {
      var i := FindIndex(symbol);
      if i < count {
        return Some(slots[i].body);
      }
      return None;
    }

    method GetOrCreate(symbol: string) returns (i: nat)
      requires Valid()
      modifies this, slots
      ensures Valid()
      ensures Contents() == Ensure(old(Contents()), NameOf(symbol), MAX_SYMBOLS, FLAT)
      ensures i == Find(Contents(), NameOf(symbol))
    {
      ghost var t, k := Contents(), NameOf(symbol);
      i := FindIndex(symbol);
      if i < count {
        return;
      }
      if count >= MAX_SYMBOLS {
        return;
      }
      slots[count] := Slot(NameOf(symbol), FLAT);
      count := count + 1;
      assert slots[..count] == t + [Slot(k, FLAT)];
      EnsureGet(t, k, MAX_SYMBOLS, FLAT, k);
      FindAt(Contents(), i);
    }

    method ApplyBuy(i: nat, qty: int, price: int, sequence: nat)
      requires Valid() && i < count
      modifies slots
      ensures Valid()
      ensures Contents()
              == old(Contents())[i := Slot(old(slots[i].key), Step(old(slots[i].body), Fill(Side.Buy, qty, price, sequence)))]
    {
      var p := slots[i].body;
      p := p.(totalBuyQty := p.totalBuyQty + qty);
      if p.netQty >= 0 {
        var newQty := p.netQty + qty;
        var newCost := p.avgEntryPrice * p.netQty + price * qty;
        p := p.(avgEntryPrice := if newQty > 0 then TruncDiv(newCost, newQty) else 0);
        p := p.(netQty := newQty);
      } else {
        var cover := if qty <= -p.netQty then qty else -p.netQty;
        p := p.(realizedPnl := p.realizedPnl + (p.avgEntryPrice - price) * cover);
        p := p.(netQty := p.netQty + qty);
        if p.netQty > 0 {
          p := p.(avgEntryPrice := price);
        } else if p.netQty == 0 {
          p := p.(avgEntryPrice := 0);
        }
      }
      p := Refresh(p);
      p := p.(lastUpdatedSeq := sequence);
      WriteBody(i, p);
    }

    method ApplySell(i: nat, qty: int, price: int, sequence: nat)
      requires Valid() && i < count
      modifies slots
      ensures Valid()
      ensures Contents()
              == old(Contents())[i := Slot(old(slots[i].key), Step(old(slots[i].body), Fill(Side.Sell, qty, price, sequence)))]
    {
      var p := slots[i].body;
      p := p.(totalSellQty := p.totalSellQty + qty);
      if p.netQty > 0 {
        var close := if qty <= p.netQty then qty else p.netQty;
        p := p.(realizedPnl := p.realizedPnl + (price - p.avgEntryPrice) * close);
        p := p.(netQty := p.netQty - qty);
        if p.netQty < 0 {
          p := p.(avgEntryPrice := price);
        } else if p.netQty == 0 {
          p := p.(avgEntryPrice := 0);
        }
      } else {
        var newQty := -p.netQty + qty;
        var newCost := p.avgEntryPrice * -p.netQty + price * qty;
        p := p.(avgEntryPrice := if newQty > 0 then TruncDiv(newCost, newQty) else 0);
        p := p.(netQty := p.netQty - qty);
      }
      p := Refresh(p);
      p := p.(lastUpdatedSeq := sequence);
      WriteBody(i, p);
    }

    /** The stores through the slot's reference. */
    method WriteBody(i: nat, p: Position)
      requires Valid() && i < count
      modifies slots
      ensures Valid()
      ensures Contents() == old(Contents())[i := Slot(old(slots[i].key), p)]
    {
      slots[i] := Slot(slots[i].key, p);
    }

    method ApplyEvent(e: OrderEvent)
      requires Valid()
      modifies this, slots
      ensures Valid()
      ensures Contents() == ApplyFill(old(Contents()), e)
    {
      if !e.IsFill() {
        return;
      }
      NameOfBytes(e.symbol);
      var i := GetOrCreate(e.symbol.bytes);
      if i == count {
        return;
      }
      if e.side == Side.Buy {
        ApplyBuy(i, e.fillQty, e.fillPrice, e.sequence);
      } else {
        ApplySell(i, e.fillQty, e.fillPrice, e.sequence);
      }
    }

    method Mark(symbol: string, price: int)
      requires Valid()
      modifies slots
      ensures Valid()
      ensures Contents() == MarkSymbol(old(Contents()), NameOf(symbol), price)
    {
      var i := FindIndex(symbol);
      if i == count {
        return;
      }
      var p := slots[i].body;
      if p.IsFlat() {
        assert slots[..count][i] == Slot(NameOf(symbol), p);
        return;
      }
      p := p.(lastPrice := price);
      p := p.(unrealizedPnl := (price - p.avgEntryPrice) * p.netQty);
      WriteBody(i, p);
    }

    /** Rebuilds the table from the log alone, whatever it held before. */
    method ReplayFrom(log: EventLog)
      requires Valid() && log.Valid()
      requires slots as object != log.file.events
      modifies this, slots
      ensures Valid()
      ensures Contents() == ReplayPositions([], log.Contents())
    {
      Clear();
      var head := log.nextSeq;
      for i := 0 to head
        invariant Valid()
        invariant Contents() == ReplayPositions([], log.Contents()[..i])
      {
        hide *;
        ReplayNext(log.Contents(), i);
        ApplyEvent(log.file.events[i]);
      }
      assert log.Contents()[..head] == log.Contents();
    }

    /** `memset` of the slots and the count. */
    method Clear()
      requires slots.Length == MAX_SYMBOLS
      modifies this, slots
      ensures Valid() && Contents() == []
    {
      for i := 0 to MAX_SYMBOLS
        invariant forall j :: 0 <= j < i ==> slots[j] == ZERO_SLOT
      {
        slots[i] := ZERO_SLOT;
      }
      count := 0;
    }
  }
}
