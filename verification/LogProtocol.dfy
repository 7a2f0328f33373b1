/**
 The log as concurrent readers and a crash see it. `append` (include/EventLog.h) is
 taken apart into its stores, and the two projections are updated after it
 (gateway/FIXGateway.cpp); readers and a process crash may come between any two stores.
 Stores become visible in program order, as the release and acquire pair provides.
 */
module LogProtocol {
  import opened EventLogs
  import opened FlatTable
  import opened OrderEvents
  import opened OrderManagers
  import opened Orders
  import opened Positions
  import opened PositionTrackers
  import opened Wrappers

  /** Where the writer is with the event it is booking. */
  datatype Writer =
    | Idle
    | Writing(e: OrderEvent, now: nat)      // the slot may hold anything
    | Written(e: OrderEvent, now: nat)      // the slot is complete
    | Published(e: OrderEvent, now: nat)    // next_seq_ is stored
    | Logged(e: OrderEvent, now: nat)       // the header is stored, append has returned
    | HalfApplied(e: OrderEvent, now: nat)  // the positions are updated, the orders not yet

  /** A replay in progress: the head it loaded and what it has read. */
  datatype Reader = Reader(head: nat, got: seq<OrderEvent>)

  datatype System = System(
    slots: seq<OrderEvent>,
    header: nat,
    nextSeq: nat,
    writer: Writer,
    readers: map<nat, Reader>,
    positions: Table<Position>,
    orders: Table<Order>)
  {
    /** What a reader that starts now would read. */
    function Log(): (es: seq<OrderEvent>)
      requires nextSeq <= |slots|
    {
      slots[..nextSeq]
    }

    /** What a restart would recover. */
    function Durable(): (es: seq<OrderEvent>)
      requires header <= |slots|
    {
      slots[..header]
    }
  }

  datatype Action =
    | Begin(e: OrderEvent, now: nat)
    | Scribble(garbage: OrderEvent)
    | WriteSlot
    | Publish
    | StoreHeader
    | ApplyPositions
    | ApplyOrders
    | MarkPrice(symbol: Name, price: int)
    | OpenReader(id: nat)
    | ReadNext(id: nat)
    | Restart

  predicate Enabled(s: System, a: Action) {
    match a
    case Begin(e, _) => s.writer.Idle? && s.nextSeq < |s.slots| && Unstamped(e) == e
    case Scribble(_) => s.writer.Writing? && s.nextSeq < |s.slots|
    case WriteSlot => s.writer.Writing? && s.nextSeq < |s.slots|
    case Publish => s.writer.Written?
    case StoreHeader => s.writer.Published?
    case ApplyPositions => s.writer.Logged?
    case ApplyOrders => s.writer.HalfApplied?
    case MarkPrice(_, _) => true
    case OpenReader(_) => true
    case ReadNext(id) => id in s.readers && |s.readers[id].got| < s.readers[id].head && |s.readers[id].got| < |s.slots|
    case Restart => s.header <= |s.slots|
  }

  /** One store, one read, or the end of the process and the startup of the next. */
  function Next(s: System, a: Action): (t: System) {
    if !Enabled(s, a) then s
    else
      match a
      case Begin(e, now) => s.(writer := Writing(e, now))
      case Scribble(garbage) => s.(slots := s.slots[s.nextSeq := garbage])
      case WriteSlot =>
        s.(slots := s.slots[s.nextSeq := Stamped(s.writer.e, s.nextSeq, s.writer.now)],
           writer := Written(s.writer.e, s.writer.now))
      case Publish => s.(nextSeq := s.nextSeq + 1, writer := Published(s.writer.e, s.writer.now))
      case StoreHeader => s.(header := s.nextSeq, writer := Logged(s.writer.e, s.writer.now))
      case ApplyPositions =>
        s.(positions := ApplyFill(s.positions, s.writer.e), writer := HalfApplied(s.writer.e, s.writer.now))
      case ApplyOrders => s.(orders := ApplyOrder(s.orders, s.writer.e), writer := Idle)
      case MarkPrice(symbol, price) => s.(positions := MarkSymbol(s.positions, symbol, price))
      case OpenReader(id) => s.(readers := s.readers[id := Reader(s.nextSeq, [])])
      case ReadNext(id) =>
        var r := s.readers[id];
        s.(readers := s.readers[id := r.(got := r.got + [s.slots[|r.got|]])])
      case Restart =>
        System(s.slots, s.header, s.header, Idle, map[],
               ReplayPositions([], s.slots[..s.header]), ReplayOrders([], s.slots[..s.header]))
  }

  /** An interleaving of the actions of everybody. */
  function Run(s: System, actions: seq<Action>): (after: System) {
    if actions == [] then s else Next(Run(s, actions[..|actions| - 1]), actions[|actions| - 1])
  }

  /** A process that has just created its file. */
  ghost predicate Initial(s: System) {
    s.header == 0 && s.nextSeq == 0 && s.writer == Idle && s.readers == map[] && s.positions == [] && s.orders == []
  }

  // ---- The invariant ----

  /** How many events of the log the positions, and the orders, include. */
  function InPositions(s: System): (n: int) {
    if s.writer.Published? || s.writer.Logged? then s.nextSeq - 1 else s.nextSeq
  }

  function InOrders(s: System): (n: int) {
    if s.writer.Published? || s.writer.Logged? || s.writer.HalfApplied? then s.nextSeq - 1 else s.nextSeq
  }

  ghost predicate LogOk(s: System) {
    && s.nextSeq <= |s.slots|
    && s.nextSeq == s.header + (if s.writer.Published? then 1 else 0)
    && Sequenced(s.slots[..s.nextSeq])
    && (!s.writer.Idle? ==> Unstamped(s.writer.e) == s.writer.e)
    && (s.writer.Writing? || s.writer.Written? ==> s.nextSeq < |s.slots|)
    && (s.writer.Written? ==> s.slots[s.nextSeq] == Stamped(s.writer.e, s.nextSeq, s.writer.now))
    && (s.writer.Published? || s.writer.Logged? || s.writer.HalfApplied? ==>
          s.nextSeq > 0 && s.slots[s.nextSeq - 1] == Stamped(s.writer.e, s.nextSeq - 1, s.writer.now))
  }

  ghost predicate ReadersOk(s: System) {
    s.nextSeq <= |s.slots|
    && forall id :: id in s.readers ==>
         && |s.readers[id].got| <= s.readers[id].head <= s.nextSeq
         && s.readers[id].got == s.slots[..|s.readers[id].got|]
  }

  /** The live tables are the replay of a prefix of the durable log, up to stamps and marks. */
  ghost predicate TablesOk(s: System) {
    && s.nextSeq <= |s.slots|
    && 0 <= InOrders(s) <= InPositions(s) <= s.nextSeq
    && CoreTable(s.positions) == CoreTable(ReplayPositions([], s.slots[..InPositions(s)]))
    && OrderCoreTable(s.orders) == OrderCoreTable(ReplayOrders([], s.slots[..InOrders(s)]))
  }

  lemma LogOkNext(s: System, a: Action)
    requires LogOk(s)
    ensures LogOk(Next(s, a))
    ensures |Next(s, a).slots| == |s.slots|
    ensures !a.Restart? ==> s.Log() <= Next(s, a).Log()
  {
    hide ApplyFill, ApplyOrder, MarkSymbol, ReplayPositions, ReplayOrders;
  }

  lemma ReadersOkNext(s: System, a: Action)
    requires LogOk(s) && ReadersOk(s)
    ensures ReadersOk(Next(s, a))
  {
    hide ApplyFill, ApplyOrder, MarkSymbol, ReplayPositions, ReplayOrders, Sequenced;
    LogOkNext(s, a);
  }

  lemma TablesOkNext(s: System, a: Action)
    requires LogOk(s) && TablesOk(s)
    ensures TablesOk(Next(s, a))
  {
    hide ApplyFill, ApplyOrder, MarkSymbol, ReplayPositions, ReplayOrders, CoreTable, OrderCoreTable, Sequenced;
    var t := Next(s, a);
    LogOkNext(s, a);
    match a {
      case ApplyPositions =>
        if s.writer.Logged? {
          PositionsCatchUp(s);
        }
      case ApplyOrders =>
        if s.writer.HalfApplied? {
          OrdersCatchUp(s);
        }
      case MarkPrice(symbol, price) =>
        CoreOfMark(s.positions, symbol, price);
      case Restart =>
      case _ =>
        PrefixKept(s, a);
    }
  }

  /** The other actions leave the part of the log that the tables include as it is. */
  lemma PrefixKept(s: System, a: Action)
    requires LogOk(s) && TablesOk(s)
    requires !a.Restart? && !a.ApplyPositions? && !a.ApplyOrders?
    ensures var t := Next(s, a);
            && InPositions(t) == InPositions(s) && InOrders(t) == InOrders(s)
            && InPositions(t) <= |t.slots|
            && t.slots[..InPositions(t)] == s.slots[..InPositions(s)]
            && t.slots[..InOrders(t)] == s.slots[..InOrders(s)]
            && t.orders == s.orders && (!a.MarkPrice? ==> t.positions == s.positions)
  {
    hide ApplyFill, ApplyOrder, MarkSymbol, ReplayPositions, ReplayOrders, CoreTable, OrderCoreTable, Sequenced;
  }

  lemma PositionsCatchUp(s: System)
    requires LogOk(s) && TablesOk(s) && s.writer.Logged?
    ensures CoreTable(ApplyFill(s.positions, s.writer.e)) == CoreTable(ReplayPositions([], s.slots[..s.nextSeq]))
  {
    hide ApplyFill, ApplyOrder, CoreTable, OrderCoreTable, ReplayOrders;
    var n := s.nextSeq;
    PositionTrackers.ReplayNext(s.slots, n - 1);
    assert Unstamped(s.slots[n - 1]) == Unstamped(s.writer.e);
    CoreOfApply(s.positions, ReplayPositions([], s.slots[..n - 1]), s.writer.e, s.slots[n - 1]);
  }

  lemma OrdersCatchUp(s: System)
    requires LogOk(s) && TablesOk(s) && s.writer.HalfApplied?
    ensures OrderCoreTable(ApplyOrder(s.orders, s.writer.e)) == OrderCoreTable(ReplayOrders([], s.slots[..s.nextSeq]))
  {
    hide ApplyFill, ApplyOrder, CoreTable, OrderCoreTable, ReplayPositions;
    var n := s.nextSeq;
    OrderManagers.ReplayNext(s.slots, n - 1);
    assert Unstamped(s.slots[n - 1]) == Unstamped(s.writer.e);
    OrderCoreApply(s.orders, ReplayOrders([], s.slots[..n - 1]), s.writer.e, s.slots[n - 1]);
  }

  // ---- What holds over every interleaving ----

  /** Slots below `next_seq_` are complete and numbered, the header is `next_seq_` or one
      behind it, replays read prefixes of the log, and the tables hold a durable prefix. */
  lemma {:induction false} AlwaysConsistent(s: System, actions: seq<Action>)
    requires Initial(s)
    ensures var t := Run(s, actions); LogOk(t) && ReadersOk(t) && TablesOk(t) && |t.slots| == |s.slots|
  {
    if actions == [] {
      assert s.slots[..0] == [];
    } else {
      hide LogOk, ReadersOk, TablesOk, Next;
      var init, a := actions[..|actions| - 1], actions[|actions| - 1];
      AlwaysConsistent(s, init);
      LogOkNext(Run(s, init), a);
      ReadersOkNext(Run(s, init), a);
      TablesOkNext(Run(s, init), a);
    }
  }

  /** While the process runs the log only grows: no published event changes or disappears. */
  lemma {:induction false} PublishedNeverChanges(s: System, actions: seq<Action>)
    requires LogOk(s) && forall i :: 0 <= i < |actions| ==> !actions[i].Restart?
    ensures LogOk(Run(s, actions)) && s.Log() <= Run(s, actions).Log()
  {
    if actions != [] {
      hide Next, LogOk;
      PublishedNeverChanges(s, actions[..|actions| - 1]);
      LogOkNext(Run(s, actions[..|actions| - 1]), actions[|actions| - 1]);
      hide Run;
    }
  }

  /** A replay that ran to its end has read exactly the log as it stood when it started,
      whatever was appended meanwhile. */
  lemma ReplayIsSnapshot(s: System, id: nat, actions: seq<Action>)
    requires LogOk(s) && ReadersOk(s)
    requires forall i :: 0 <= i < |actions| ==> !actions[i].Restart? && actions[i] != OpenReader(id)
    ensures var t := Run(Next(s, OpenReader(id)), actions);
            && id in t.readers
            && t.readers[id].got <= s.Log()
            && (|t.readers[id].got| == t.readers[id].head ==> t.readers[id].got == s.Log())
  {
    var s0 := Next(s, OpenReader(id));
    LogOkNext(s, OpenReader(id));
    ReadersOkNext(s, OpenReader(id));
    PublishedNeverChanges(s0, actions);
    ReaderKept(s0, id, actions);
    var t := Run(s0, actions);
    hide Run, Next;
    assert t.Log()[..s.nextSeq] == s.Log();
  }

  lemma {:induction false} ReaderKept(s: System, id: nat, actions: seq<Action>)
    requires LogOk(s) && ReadersOk(s) && id in s.readers
    requires forall i :: 0 <= i < |actions| ==> !actions[i].Restart? && actions[i] != OpenReader(id)
    ensures var t := Run(s, actions);
            LogOk(t) && ReadersOk(t) && id in t.readers && t.readers[id].head == s.readers[id].head
  {
    if actions != [] {
      hide LogOk, ReadersOk, Next;
      var init, a := actions[..|actions| - 1], actions[|actions| - 1];
      ReaderKept(s, id, init);
      LogOkNext(Run(s, init), a);
      ReadersOkNext(Run(s, init), a);
      HeadKept(Run(s, init), id, a);
    }
  }

  lemma HeadKept(s: System, id: nat, a: Action)
    requires id in s.readers && !a.Restart? && a != OpenReader(id)
    ensures id in Next(s, a).readers && Next(s, a).readers[id].head == s.readers[id].head
  {
    hide ApplyFill, ApplyOrder, MarkSymbol, ReplayPositions, ReplayOrders;
  }

  /** A crash between any two stores and the reopening of the file give back the published
      log, but for its last event exactly when the crash fell between publishing it and
      storing the header: a reader may then have seen an event that no longer exists. */
  lemma RestartRecoversLog(s: System)
    requires LogOk(s)
    ensures var t := Next(s, Restart);
            && LogOk(t)
            && t.Log() == s.Durable()
            && (t.Log() == s.Log() || (|s.Log()| > 0 && t.Log() == s.Log()[..|s.Log()| - 1]))
            && (t.Log() != s.Log() <==> s.writer.Published?)
  {
    LogOkNext(s, Restart);
    hide ReplayPositions, ReplayOrders;
  }

  /** Write-ahead: whatever either table already holds is in the durable log, so that the
      tables rebuilt after a crash at any point come from a log that extends theirs. */
  lemma NoAppliedEventLost(s: System, actions: seq<Action>)
    requires Initial(s)
    ensures var t := Run(s, actions);
            var r := Next(t, Restart);
            && t.nextSeq <= |t.slots| && r.nextSeq <= |r.slots|
            && 0 <= InOrders(t) <= |r.Log()| && 0 <= InPositions(t) <= |r.Log()|
            && CoreTable(t.positions) == CoreTable(ReplayPositions([], r.Log()[..InPositions(t)]))
            && OrderCoreTable(t.orders) == OrderCoreTable(ReplayOrders([], r.Log()[..InOrders(t)]))
            && r.positions == ReplayPositions([], r.Log())
            && r.orders == ReplayOrders([], r.Log())
  {
    hide Run, LogOk, ReadersOk, TablesOk, Next, CoreTable, OrderCoreTable, ReplayPositions, ReplayOrders, Initial;
    AlwaysConsistent(s, actions);
    AppliedIsDurable(Run(s, actions));
  }

  lemma AppliedIsDurable(t: System)
    requires LogOk(t) && TablesOk(t)
    ensures var r := Next(t, Restart);
            && t.nextSeq <= |t.slots| && r.nextSeq <= |r.slots|
            && 0 <= InOrders(t) <= |r.Log()| && 0 <= InPositions(t) <= |r.Log()|
            && CoreTable(t.positions) == CoreTable(ReplayPositions([], r.Log()[..InPositions(t)]))
            && OrderCoreTable(t.orders) == OrderCoreTable(ReplayOrders([], r.Log()[..InOrders(t)]))
            && r.positions == ReplayPositions([], r.Log())
            && r.orders == ReplayOrders([], r.Log())
  {
    hide CoreTable, OrderCoreTable, ReplayPositions, ReplayOrders, Sequenced;
    assert t.slots[..t.header][..InPositions(t)] == t.slots[..InPositions(t)];
    assert t.slots[..t.header][..InOrders(t)] == t.slots[..InOrders(t)];
  }

  /** The stores of `append`, run without interruption, are the one step of `EventLog`. */
  lemma StoresAreAppend(s: System, e: OrderEvent, now: nat)
    requires LogOk(s) && s.writer.Idle? && s.nextSeq < |s.slots| && Unstamped(e) == e
    ensures var t := Next(Next(Next(Next(s, Begin(e, now)), WriteSlot), Publish), StoreHeader);
            && t.nextSeq == s.nextSeq + 1 && t.nextSeq <= |t.slots| && t.header == t.nextSeq
            && t.Log() == s.Log() + [Stamped(e, |s.Log()|, now)]
            && t.Durable() == t.Log()
  {
    hide Sequenced;
    var a := Next(s, Begin(e, now));
    var b := Next(a, WriteSlot);
    var c := Next(b, Publish);
    assert c.slots[..c.nextSeq] == s.slots[..s.nextSeq] + [Stamped(e, s.nextSeq, now)];
  }

  /** Booking one event to its end: it is in the log, durable, and applied to both tables,
      and the writer is ready for the next. */
  lemma BookingCompletes(s: System, e: OrderEvent, now: nat)
    requires LogOk(s) && s.writer.Idle? && s.nextSeq < |s.slots| && Unstamped(e) == e
    ensures var logged := Next(Next(Next(Next(s, Begin(e, now)), WriteSlot), Publish), StoreHeader);
            var t := Next(Next(logged, ApplyPositions), ApplyOrders);
            && t.nextSeq <= |t.slots| && t.header <= |t.slots|
            && t.Log() == t.Durable() == s.Log() + [Stamped(e, |s.Log()|, now)]
            && t.positions == ApplyFill(s.positions, e)
            && t.orders == ApplyOrder(s.orders, e)
            && t.writer == Idle && t.readers == s.readers
  {
    StoresAreAppend(s, e, now);
    hide Sequenced, ApplyFill, ApplyOrder;
  }

  /** A reader that has not read up to the head it loaded can always read one more event of
      the log, and nothing else changes. */
  lemma ReaderProgress(s: System, id: nat)
    requires LogOk(s) && ReadersOk(s) && id in s.readers && |s.readers[id].got| < s.readers[id].head
    ensures var t, r := Next(s, ReadNext(id)), s.readers[id];
            t == s.(readers := s.readers[id := Reader(r.head, s.Log()[..|r.got| + 1])])
  {
    var r := s.readers[id];
    assert s.Log()[..|r.got| + 1] == r.got + [s.slots[|r.got|]];
  }

  /** A market price may arrive between any two stores and reaches the positions alone. */
  lemma MarkAnyTime(s: System, symbol: Name, price: int, other: Name)
    ensures var t := Next(s, MarkPrice(symbol, price));
            && t == s.(positions := t.positions)
            && Get(t.positions, other)
               == if symbol == other && Has(s.positions, other) then Some(Marked(Get(s.positions, other).value, price))
                  else Get(s.positions, other)
  {
    hide MarkSymbol, Marked, Find;
    MarkSymbolGet(s.positions, symbol, price, other);
  }
}
