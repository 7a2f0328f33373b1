/**
 What holds over every run of the gateway: through any mixture of logons, sends, reports,
 market prices and restarts from an empty log. `FIXGateways` has the steps.
 */
module GatewayRuns {
  import opened Arithmetic
  import opened Books
  import opened EventLogs
  import opened FIXGateways
  import opened FlatTable
  import opened LimitReach
  import opened OrderEvents
  import opened OrderIds
  import opened OrderManagers
  import opened Orders
  import opened Positions
  import opened PositionTrackers
  import opened RiskCheckers
  import opened Wrappers

  // ---- States that differ only in sequence numbers and market prices ----

  ghost predicate SameBook(a: Book, b: Book) {
    && OrderCoreTable(a.orders) == OrderCoreTable(b.orders)
    && CoreTable(a.positions) == CoreTable(b.positions)
  }

  lemma SameOrder(a: Book, b: Book, id: Name)
    requires SameBook(a, b)
    ensures Has(a.orders, id) == Has(b.orders, id)
    ensures Has(a.orders, id) ==> OrderCore(Get(a.orders, id).value) == OrderCore(Get(b.orders, id).value)
  {
    FindOrderCore(a.orders, id);
    FindOrderCore(b.orders, id);
    if Has(a.orders, id) {
      var i := Find(a.orders, id);
      assert OrderCoreTable(a.orders)[i] == OrderCoreTable(b.orders)[i];
    }
  }

  lemma SameSlot(a: Book, b: Book, i: nat)
    requires SameBook(a, b) && i < |a.orders|
    ensures i < |b.orders| && a.orders[i].key == b.orders[i].key
    ensures OrderCore(a.orders[i].body) == OrderCore(b.orders[i].body)
  {
    assert OrderCoreTable(a.orders)[i] == OrderCoreTable(b.orders)[i];
  }

  lemma SamePosition(a: Book, b: Book, symbol: Name)
    requires SameBook(a, b)
    ensures Has(a.positions, symbol) == Has(b.positions, symbol)
    ensures Has(a.positions, symbol) ==> Core(Get(a.positions, symbol).value) == Core(Get(b.positions, symbol).value)
    ensures NetQty(a.positions, symbol) == NetQty(b.positions, symbol)
  {
    FindCore(a.positions, symbol);
    FindCore(b.positions, symbol);
    if Has(a.positions, symbol) {
      var i := Find(a.positions, symbol);
      assert CoreTable(a.positions)[i] == CoreTable(b.positions)[i];
    }
  }

  lemma SameTotal(a: Book, b: Book, m: Metric, symbol: Name)
    requires SameBook(a, b)
    ensures Total(m, a.orders, symbol) == Total(m, b.orders, symbol)
  {
    hide Total;
    TotalOfCore(m, a.orders, symbol);
    TotalOfCore(m, b.orders, symbol);
  }

  lemma SameSizes(a: Book, b: Book)
    requires SameBook(a, b)
    ensures |a.orders| == |b.orders| && |a.positions| == |b.positions|
  {
    assert |a.orders| == |OrderCoreTable(a.orders)| == |b.orders|;
    assert |a.positions| == |CoreTable(a.positions)| == |b.positions|;
  }

  lemma SameConforms(a: Book, b: Book, e: OrderEvent, rule: IdRule)
    requires SameBook(a, b)
    ensures ConformsTo(a, e, rule) <==> ConformsTo(b, e, rule)
  {
    SameOrder(a, b, e.orderId);
    SamePosition(a, b, e.symbol);
    SameSizes(a, b);
    hide Find, NetQty, SameBook;
  }

  lemma SameApproved(l: RiskLimits, a: Book, b: Book, symbol: Name, side: Side, qty: int, price: int)
    requires SameBook(a, b)
    ensures Approved(l, a, symbol, side, qty, price) <==> Approved(l, b, symbol, side, qty, price)
  {
    SamePosition(a, b, symbol);
    SameTotal(a, b, OpenExposure, symbol);
    hide Total, Find, NetQty, SameBook;
  }

  /** Checks and guards see nothing of what may differ. */
  lemma SameLegal(l: RiskLimits, a: Book, b: Book, e: OrderEvent, rule: IdRule)
    requires SameBook(a, b)
    ensures LegalEvent(l, a, e, rule) <==> LegalEvent(l, b, e, rule)
  {
    hide SameBook, ConformsTo, Approved;
    SameConforms(a, b, e, rule);
    SameApproved(l, a, b, e.symbol, e.side, e.qty, e.price);
  }

  lemma SameAgrees(a: Book, b: Book)
    requires SameBook(a, b)
    ensures Agrees(a) <==> Agrees(b)
  {
    hide SameBook, NetQty, Total;
    forall symbol: Name
      ensures Gap(a, symbol) == Gap(b, symbol)
    {
      SamePosition(a, b, symbol);
      SameTotal(a, b, FilledNet, symbol);
    }
  }

  lemma SameConsistent(a: Book, b: Book)
    requires SameBook(a, b) && AllConsistent(b.orders)
    ensures AllConsistent(a.orders)
  {
    hide SameBook;
    forall i | 0 <= i < |a.orders|
      ensures Consistent(a.orders[i].body)
    {
      SameSlot(a, b, i);
    }
  }

  lemma SameExposureBound(l: RiskLimits, a: Book, b: Book, symbol: Name)
    requires SameBook(a, b) && ExposureBounded(l, b, symbol)
    ensures ExposureBounded(l, a, symbol)
  {
    hide SameBook, NetQty, Total;
    SamePosition(a, b, symbol);
    SameTotal(a, b, OpenExposure, symbol);
    SameTotal(a, b, LostBuys, symbol);
    SameTotal(a, b, LostSells, symbol);
  }

  lemma SameReach(a: Book, b: Book, symbol: Name)
    requires SameBook(a, b)
    ensures WorstLong(a, symbol) == WorstLong(b, symbol) && WorstShort(a, symbol) == WorstShort(b, symbol)
  {
    hide SameBook, NetQty, Total;
    SamePosition(a, b, symbol);
    SameTotal(a, b, OpenBuys, symbol);
    SameTotal(a, b, OpenSells, symbol);
  }

  // ---- What a step does to log and state ----

  /** The event that a step logs and applies, if any. */
  function BookedEvent(l: RiskLimits, g: GatewayState, step: GatewayStep): (event: Option<OrderEvent>) {
    match step
    case Send(symbol, side, qty, price, _) =>
      if SendOutcome(l, g, symbol, side, qty, price).Sent?
      then Some(MakeNewOrder(symbol, side, qty, price, OrderIdText(g.counter))) else None
    case Deliver(report, _) => if |g.log| < MAX_EVENTS then FromExecutionReport(report) else None
    case _ => None
  }

  lemma NextBooked(l: RiskLimits, g: GatewayState, step: GatewayStep)
    requires BookedEvent(l, g, step).Some?
    ensures step.Send? || step.Deliver?
    ensures var e, h := BookedEvent(l, g, step).value, GatewayNext(l, g, step);
            && h == GatewayState(g.connected, g.counter + (if e.kind == NewOrder then 1 else 0),
                                 g.log + [Stamped(e, |g.log|, step.now)], ApplyToBook(g.book, e))
            && Unstamped(e) == e
            && e.kind != Amend
            && (e.kind == NewOrder <==> step.Send?)
            && (e.kind == NewOrder ==>
                  e.orderId == OrderId(g.counter) && Approved(l, g.book, e.symbol, e.side, e.qty, e.price))
  {
    hide NameOf, OrderIdText, ApplyOrder, Total, Find, CheckTrueExposure;
    if step.Deliver? {
      hide ApplyToBook;
    } else {
      OrderOnly(g.book, BookedEvent(l, g, step).value);
      hide ApplyToBook;
    }
  }

  lemma OrderOnly(b: Book, e: OrderEvent)
    requires e.kind == NewOrder
    ensures ApplyToBook(b, e) == b.(orders := ApplyOrder(b.orders, e))
  {
    hide ApplyOrder;
  }

  /** The log is numbered without gaps, and replaying its events gives the live state. */
  ghost predicate Recoverable(g: GatewayState) {
    && Sequenced(g.log)
    && SameBook(g.book, ReplayBook(EMPTY_BOOK, AllUnstamped(g.log)))
  }

  /** Stamps do not matter to a replay, but for the sequence numbers it records. */
  lemma {:induction false} ReplayIgnoresStamps(log: seq<OrderEvent>)
    ensures SameBook(ReplayBook(EMPTY_BOOK, log), ReplayBook(EMPTY_BOOK, AllUnstamped(log)))
  {
    if log == [] {
      assert AllUnstamped(log) == [];
    } else {
      hide ApplyToBook, OrderCoreTable, CoreTable;
      var init, e := log[..|log| - 1], log[|log| - 1];
      ReplayIgnoresStamps(init);
      var us := AllUnstamped(log);
      assert AllUnstamped(init) == us[..|us| - 1];
      SameNext(ReplayBook(EMPTY_BOOK, init), ReplayBook(EMPTY_BOOK, AllUnstamped(init)), e, us[|us| - 1]);
    }
  }

  lemma SameNext(a: Book, b: Book, e: OrderEvent, f: OrderEvent)
    requires SameBook(a, b) && Unstamped(e) == Unstamped(f)
    ensures SameBook(ApplyToBook(a, e), ApplyToBook(b, f))
  {
    hide ApplyFill, ApplyOrder, CoreTable, OrderCoreTable;
    OrderCoreApply(a.orders, b.orders, e, f);
    CoreOfApply(a.positions, b.positions, e, f);
  }

  /** A step that books nothing leaves the log, and the state but for marks and stamps. */
  lemma NextQuiet(l: RiskLimits, g: GatewayState, step: GatewayStep)
    requires Recoverable(g) && BookedEvent(l, g, step).None?
    ensures var h := GatewayNext(l, g, step);
            && h.log == g.log && SameBook(g.book, h.book)
            && (!step.Restart? ==> h.counter >= g.counter)
  {
    hide NameOf, OrderIdText, ApplyOrder, Total, Find, CheckTrueExposure, ApplyToBook, ReplayBook, MarkSymbol,
         CoreTable, OrderCoreTable;
    match step {
      case MarkPrice(symbol, price) =>
        CoreOfMark(g.book.positions, NameOf(symbol), price);
      case Restart =>
        ReplayIgnoresStamps(g.log);
      case _ =>
    }
  }

  lemma UnstampedSnoc(log: seq<OrderEvent>, e: OrderEvent, now: nat)
    requires Unstamped(e) == e
    ensures AllUnstamped(log + [Stamped(e, |log|, now)]) == AllUnstamped(log) + [e]
    ensures Sequenced(log) ==> Sequenced(log + [Stamped(e, |log|, now)])
  {
  }

  lemma RecoverableNext(l: RiskLimits, g: GatewayState, step: GatewayStep)
    requires Recoverable(g)
    ensures Recoverable(GatewayNext(l, g, step))
  {
    hide GatewayNext, BookedEvent, ApplyToBook, ReplayBook, SameBook, AllUnstamped, Sequenced, Unstamped;
    var es, h := AllUnstamped(g.log), GatewayNext(l, g, step);
    if BookedEvent(l, g, step).Some? {
      var e := BookedEvent(l, g, step).value;
      NextBooked(l, g, step);
      UnstampedSnoc(g.log, e, step.now);
      ReplaySnoc(EMPTY_BOOK, es, e);
      SameNext(g.book, ReplayBook(EMPTY_BOOK, es), e, e);
    } else {
      NextQuiet(l, g, step);
      SameSymmetric(g.book, h.book, ReplayBook(EMPTY_BOOK, es));
    }
  }

  lemma SameSymmetric(a: Book, b: Book, c: Book)
    requires SameBook(a, b) && SameBook(a, c)
    ensures SameBook(b, c)
  {
  }

  /** Every run whatsoever: no guard on sends, reports, ids or table sizes. */
  lemma {:induction false} RunIsRecoverable(l: RiskLimits, steps: seq<GatewayStep>)
    ensures Recoverable(GatewayRun(l, steps))
  {
    if steps == [] {
      assert AllUnstamped([]) == [];
    } else {
      hide Recoverable, GatewayNext;
      RunIsRecoverable(l, steps[..|steps| - 1]);
      RecoverableNext(l, GatewayRun(l, steps[..|steps| - 1]), steps[|steps| - 1]);
    }
  }

  /** After any run, restarts, late fills, overfills, reused ids and full tables included, the
      log is numbered without gaps and the tables that a restart rebuilds from it are the
      live ones, slot for slot, but for sequence numbers and what market prices set. */
  lemma LiveEqualsReplay(l: RiskLimits, steps: seq<GatewayStep>)
    ensures var g := GatewayRun(l, steps);
            && Sequenced(g.log)
            && OrderCoreTable(g.book.orders) == OrderCoreTable(ReplayOrders([], g.log))
            && CoreTable(g.book.positions) == CoreTable(ReplayPositions([], g.log))
  {
    hide GatewayRun, ReplayBook, OrderCoreTable, CoreTable, Sequenced;
    RunIsRecoverable(l, steps);
    var g := GatewayRun(l, steps);
    ReplayIgnoresStamps(g.log);
    ReplayBookIsBothReplays(EMPTY_BOOK, g.log);
  }

  /** No two orders of the table share an id. */
  lemma OrdersDistinct(l: RiskLimits, steps: seq<GatewayStep>)
    ensures Distinct(GatewayRun(l, steps).book.orders)
  {
    hide GatewayRun, OrderCoreTable, CoreTable, ReplayOrders, ReplayPositions;
    LiveEqualsReplay(l, steps);
    var t, u := GatewayRun(l, steps).book.orders, ReplayOrders([], GatewayRun(l, steps).log);
    TrackedOrders(GatewayRun(l, steps).log);
    forall i, j | 0 <= i < j < |t|
      ensures t[i].key != t[j].key
    {
      assert |OrderCoreTable(t)| == |OrderCoreTable(u)|;
      assert OrderCoreTable(t)[i] == OrderCoreTable(u)[i] && OrderCoreTable(t)[j] == OrderCoreTable(u)[j];
    }
  }

  // ---- Agreement of the two projections ----

  /** The condition a caller would have to check before each step: what it would book
      reconciles. Late fills and overfills do. */
  predicate StepReconciles(l: RiskLimits, g: GatewayState, step: GatewayStep) {
    BookedEvent(l, g, step).Some? ==> Reconciles(g.book, BookedEvent(l, g, step).value)
  }

  lemma AgreementStepIff(l: RiskLimits, g: GatewayState, step: GatewayStep)
    requires Recoverable(g) && Agrees(g.book)
    ensures Agrees(GatewayNext(l, g, step).book) <==> StepReconciles(l, g, step)
  {
    hide GatewayNext, BookedEvent, ApplyToBook, SameBook, Agrees, Reconciles, Recoverable, Approved;
    if BookedEvent(l, g, step).Some? {
      NextBooked(l, g, step);
      AgreementIff(g.book, BookedEvent(l, g, step).value);
    } else {
      NextQuiet(l, g, step);
      SameAgrees(g.book, GatewayNext(l, g, step).book);
    }
  }

  lemma StepSnoc(l: RiskLimits, steps: seq<GatewayStep>, step: GatewayStep)
    ensures GatewayRun(l, steps + [step]) == GatewayNext(l, GatewayRun(l, steps), step)
  {
    hide GatewayNext;
    assert (steps + [step])[..|steps|] == steps;
  }

  lemma RunNext(l: RiskLimits, steps: seq<GatewayStep>, k: nat)
    requires k < |steps|
    ensures GatewayRun(l, steps[..k + 1]) == GatewayNext(l, GatewayRun(l, steps[..k]), steps[k])
  {
    hide GatewayNext;
    assert steps[..k + 1][..k] == steps[..k];
  }

  lemma {:induction false} AgreementUntil(l: RiskLimits, steps: seq<GatewayStep>, n: nat)
    requires n <= |steps|
    requires forall k :: 0 <= k < n ==> StepReconciles(l, GatewayRun(l, steps[..k]), steps[k])
    ensures forall k :: 0 <= k <= n ==> Agrees(GatewayRun(l, steps[..k]).book)
  {
    hide GatewayNext, Agrees, StepReconciles, Recoverable;
    if n == 0 {
      assert steps[..0] == [];
      EmptyAgrees();
    } else {
      AgreementUntil(l, steps, n - 1);
      RunNext(l, steps, n - 1);
      RunIsRecoverable(l, steps[..n - 1]);
      AgreementStepIff(l, GatewayRun(l, steps[..n - 1]), steps[n - 1]);
    }
  }

  /** Over every run of the gateway: its positions are its orders' fills at every moment
      exactly when every step met the condition. */
  lemma GatewayAgreementIff(l: RiskLimits, steps: seq<GatewayStep>)
    ensures (forall k :: 0 <= k <= |steps| ==> Agrees(GatewayRun(l, steps[..k]).book))
       <==> (forall k :: 0 <= k < |steps| ==> StepReconciles(l, GatewayRun(l, steps[..k]), steps[k]))
  {
    hide GatewayNext, GatewayRun, Agrees, StepReconciles, Recoverable;
    if forall k :: 0 <= k <= |steps| ==> Agrees(GatewayRun(l, steps[..k]).book) {
      forall k | 0 <= k < |steps|
        ensures StepReconciles(l, GatewayRun(l, steps[..k]), steps[k])
      {
        RunNext(l, steps, k);
        RunIsRecoverable(l, steps[..k]);
        assert Agrees(GatewayRun(l, steps[..k]).book) && Agrees(GatewayRun(l, steps[..k + 1]).book);
        AgreementStepIff(l, GatewayRun(l, steps[..k]), steps[k]);
      }
    }
    if forall k :: 0 <= k < |steps| ==> StepReconciles(l, GatewayRun(l, steps[..k]), steps[k]) {
      AgreementUntil(l, steps, |steps|);
    }
  }

  /** A sent order keeps the tables in agreement exactly when its id is new to the order
      table or belongs to an order without fills. The counter restarts at 0 with every
      process, so after a restart on a log with fills the first ids fail this. */
  lemma SendAgreementIff(l: RiskLimits, g: GatewayState, symbol: string, side: Side, qty: int, price: int, now: nat)
    requires Agrees(g.book) && SendOutcome(l, g, symbol, side, qty, price).Sent?
    ensures Agrees(AfterSend(l, g, symbol, side, qty, price, now).book)
       <==> (Has(g.book.orders, OrderId(g.counter)) ==> Get(g.book.orders, OrderId(g.counter)).value.filledQty == 0)
  {
    hide Agrees, NameOf, OrderIdText, ApplyOrder, ApplyToBook, Has, Get, CheckTrueExposure;
    var e := MakeNewOrder(symbol, side, qty, price, OrderIdText(g.counter));
    AgreementIff(g.book, e);
    OrderOnly(g.book, e);
  }

  // ---- Conforming runs are legal runs of their own log ----

  /** What is asked of the outside: orders of positive quantity whose drawn id is as new as
      the rule asks, and reports that conform to what was sent. After a restart on a log that
      holds an order only the last two rules let an order through. */
  predicate StepConforms(l: RiskLimits, g: GatewayState, step: GatewayStep, rule: IdRule := FreshIds) {
    BookedEvent(l, g, step).Some? ==> ConformsTo(g.book, BookedEvent(l, g, step).value, rule)
  }

  ghost predicate RunConforms(l: RiskLimits, steps: seq<GatewayStep>, rule: IdRule := FreshIds) {
    forall k :: 0 <= k < |steps| ==> StepConforms(l, GatewayRun(l, steps[..k]), steps[k], rule)
  }

  /** The state is the replay of its log, and the log is a run that went through the checks. */
  ghost predicate Faithful(l: RiskLimits, g: GatewayState, rule: IdRule := FreshIds) {
    Recoverable(g) && LegalRun(l, EMPTY_BOOK, AllUnstamped(g.log), rule)
  }

  lemma FaithfulNext(l: RiskLimits, g: GatewayState, step: GatewayStep, rule: IdRule)
    requires Faithful(l, g, rule) && StepConforms(l, g, step, rule)
    ensures Faithful(l, GatewayNext(l, g, step), rule)
  {
    hide GatewayNext, BookedEvent, ApplyToBook, ReplayBook, SameBook, AllUnstamped, Sequenced, Unstamped, LegalRun,
         ConformsTo, Approved;
    RecoverableNext(l, g, step);
    var es := AllUnstamped(g.log);
    if BookedEvent(l, g, step).Some? {
      var e := BookedEvent(l, g, step).value;
      NextBooked(l, g, step);
      UnstampedSnoc(g.log, e, step.now);
      SameLegal(l, g.book, ReplayBook(EMPTY_BOOK, es), e, rule);
      LegalSnoc(l, es, e, rule);
    } else {
      NextQuiet(l, g, step);
    }
  }

  lemma ConformsPrefix(l: RiskLimits, steps: seq<GatewayStep>, n: nat, rule: IdRule)
    requires RunConforms(l, steps, rule) && n <= |steps|
    ensures RunConforms(l, steps[..n], rule)
    ensures n < |steps| ==> StepConforms(l, GatewayRun(l, steps[..n]), steps[n], rule)
  {
    hide GatewayRun, StepConforms;
    var init := steps[..n];
    assert forall k :: 0 <= k < n ==> init[..k] == steps[..k];
  }

  lemma ConformsSnoc(l: RiskLimits, steps: seq<GatewayStep>, step: GatewayStep, rule: IdRule)
    requires RunConforms(l, steps, rule) && StepConforms(l, GatewayRun(l, steps), step, rule)
    ensures RunConforms(l, steps + [step], rule)
  {
    hide GatewayRun, StepConforms;
    var all := steps + [step];
    assert forall k :: 0 <= k <= |steps| ==> all[..k] == steps[..k];
    assert steps[..|steps|] == steps;
  }

  lemma InitialFaithful(l: RiskLimits, rule: IdRule)
    ensures Faithful(l, GatewayRun(l, []), rule)
  {
    hide Recoverable;
    RunIsRecoverable(l, []);
    assert AllUnstamped([]) == [];
  }

  /** After every conforming run the log is numbered without gaps, is a run of events that
      went through the checks, and its replay is the live state. */
  lemma {:induction false} RunIsFaithful(l: RiskLimits, steps: seq<GatewayStep>, rule: IdRule)
    requires RunConforms(l, steps, rule)
    ensures Faithful(l, GatewayRun(l, steps), rule)
  {
    hide Faithful, GatewayNext, StepConforms, RunConforms;
    if steps == [] {
      InitialFaithful(l, rule);
    } else {
      ConformsPrefix(l, steps, |steps| - 1, rule);
      RunIsFaithful(l, steps[..|steps| - 1], rule);
      FaithfulNext(l, GatewayRun(l, steps[..|steps| - 1]), steps[|steps| - 1], rule);
    }
  }

  // ---- Limits and lifecycle on the live gateway ----

  lemma GatewayConsistent(l: RiskLimits, steps: seq<GatewayStep>, rule: IdRule)
    requires RunConforms(l, steps, rule)
    ensures AllConsistent(GatewayRun(l, steps).book.orders)
  {
    hide GatewayRun, RunConforms, LegalRun, ReplayBook, SameBook, Sequenced;
    RunIsFaithful(l, steps, rule);
    var g := GatewayRun(l, steps);
    RunConsistent(l, EMPTY_BOOK, AllUnstamped(g.log), rule);
    hide AllConsistent;
    SameConsistent(g.book, ReplayBook(EMPTY_BOOK, AllUnstamped(g.log)));
  }

  /** The limit the risk check gives, on the live gateway. */
  lemma GatewayLimitSafety(l: RiskLimits, steps: seq<GatewayStep>, symbol: Name, rule: IdRule)
    requires RunConforms(l, steps, rule) && rule != CountedIds
    ensures AllConsistent(GatewayRun(l, steps).book.orders)
    ensures ExposureBounded(l, GatewayRun(l, steps).book, symbol)
  {
    GatewayConsistent(l, steps, rule);
    hide GatewayRun, RunConforms, LegalRun, ReplayBook, AllConsistent, SameBook, Sequenced, ExposureBounded;
    RunIsFaithful(l, steps, rule);
    var g := GatewayRun(l, steps);
    var es := AllUnstamped(g.log);
    EmptyBounded(l, symbol);
    LimitSafety(l, EMPTY_BOOK, es, symbol, rule);
    SameExposureBound(l, g.book, ReplayBook(EMPTY_BOOK, es), symbol);
  }

  /** The tighter one: with every order sent, exposure is back inside the limit, and only
      what was given back since then can take it out. Holds for orders whose ids belong to
      closed orders too, as after a restart. */
  lemma GatewayLimitSinceLastOrder(l: RiskLimits, steps: seq<GatewayStep>, symbol: Name, rule: IdRule)
    requires RunConforms(l, steps, rule)
    ensures var g := GatewayRun(l, steps);
            var es := AllUnstamped(g.log);
            && TrueExposure(g.book, symbol) <= Limit(l) + GivenBack(EMPTY_BOOK, es, symbol, Side.Sell)
            && TrueExposure(g.book, symbol) >= -Limit(l) - GivenBack(EMPTY_BOOK, es, symbol, Side.Buy)
  {
    hide GatewayRun, RunConforms, LegalRun, ReplayBook, AllConsistent, SameBook, Sequenced, NetQty, Total, GivenBack;
    RunIsFaithful(l, steps, rule);
    var g := GatewayRun(l, steps);
    var es := AllUnstamped(g.log);
    EmptyBounded(l, symbol);
    EmptyExposure(symbol);
    LimitSinceLastOrder(l, EMPTY_BOOK, es, symbol, rule);
    SamePosition(g.book, ReplayBook(EMPTY_BOOK, es), symbol);
    SameTotal(g.book, ReplayBook(EMPTY_BOOK, es), OpenExposure, symbol);
  }

  lemma EmptyExposure(symbol: Name)
    ensures TrueExposure(EMPTY_BOOK, symbol) == 0
  {
  }

  /** Outright, for a symbol none of whose orders was cancelled or rejected. */
  lemma GatewayLimitWithoutCancels(l: RiskLimits, steps: seq<GatewayStep>, symbol: Name, rule: IdRule)
    requires RunConforms(l, steps, rule) && rule != CountedIds
    requires var t := GatewayRun(l, steps).book.orders;
             forall i :: 0 <= i < |t| && t[i].body.symbol == symbol ==> t[i].body.state !in {Cancelled, Rejected}
    ensures Abs(TrueExposure(GatewayRun(l, steps).book, symbol)) <= Limit(l)
  {
    hide GatewayRun, RunConforms, TrueExposure;
    GatewayLimitSafety(l, steps, symbol, rule);
    NothingLost(GatewayRun(l, steps).book.orders, symbol);
  }

  /** At any state of a conforming run, market prices and restarts included: the exchange can
      still take the true exposure of a symbol past a bound exactly when the open orders on
      one side reach past it. */
  lemma GatewayExposureIff(l: RiskLimits, steps: seq<GatewayStep>, symbol: Name, bound: int, rule: IdRule)
    requires RunConforms(l, steps, rule)
    ensures var b := GatewayRun(l, steps).book;
            (forall es :: ConformingReports(b, es) ==> Abs(TrueExposure(ReplayBook(b, es), symbol)) <= bound)
            <==> -bound <= WorstShort(b, symbol) && WorstLong(b, symbol) <= bound
  {
    hide GatewayRun, RunConforms, TrueExposure, WorstLong, WorstShort, ConformingReports, ReplayBook;
    GatewayConsistent(l, steps, rule);
    OrdersDistinct(l, steps);
    ExposureLimitIff(GatewayRun(l, steps).book, symbol, bound);
  }

  /** The same of its position, if the position table has a slot for the symbol. */
  lemma GatewayPositionIff(l: RiskLimits, steps: seq<GatewayStep>, symbol: Name, bound: int, rule: IdRule)
    requires RunConforms(l, steps, rule) && PositionRoom(GatewayRun(l, steps).book, symbol)
    ensures var b := GatewayRun(l, steps).book;
            (forall es :: ConformingReports(b, es) ==> Abs(NetQty(ReplayBook(b, es).positions, symbol)) <= bound)
            <==> -bound <= WorstShort(b, symbol) && WorstLong(b, symbol) <= bound
  {
    hide GatewayRun, RunConforms, NetQty, WorstLong, WorstShort, ConformingReports, ReplayBook, PositionRoom;
    GatewayConsistent(l, steps, rule);
    OrdersDistinct(l, steps);
    PositionLimitIff(GatewayRun(l, steps).book, symbol, bound);
  }

  lemma OneSidedNext(l: RiskLimits, g: GatewayState, step: GatewayStep, symbol: Name, rule: IdRule)
    requires Recoverable(g) && AllConsistent(g.book.orders) && StepConforms(l, g, step, rule)
    requires WorstBounded(l, g.book, symbol) && OneSided(GatewayNext(l, g, step).book, symbol)
    ensures WorstBounded(l, GatewayNext(l, g, step).book, symbol)
  {
    hide GatewayNext, BookedEvent, ApplyToBook, SameBook, Recoverable, AllConsistent, OneSided, ConformsTo, Approved,
         WorstLong, WorstShort;
    if BookedEvent(l, g, step).Some? {
      NextBooked(l, g, step);
      WorstBoundStep(l, g.book, BookedEvent(l, g, step).value, symbol, rule);
    } else {
      NextQuiet(l, g, step);
      SameReach(g.book, GatewayNext(l, g, step).book, symbol);
    }
  }

  /** When a symbol's open orders are never on both sides at once, its position and all it
      can become stay within the limit, through cancels, restarts and orders that take over
      the slots of closed ones. */
  lemma {:induction false} GatewayOneSidedSafety(l: RiskLimits, steps: seq<GatewayStep>, symbol: Name, rule: IdRule)
    requires RunConforms(l, steps, rule)
    requires forall k :: 0 <= k <= |steps| ==> OneSided(GatewayRun(l, steps[..k]).book, symbol)
    ensures WorstBounded(l, GatewayRun(l, steps).book, symbol)
    ensures Abs(NetQty(GatewayRun(l, steps).book.positions, symbol)) <= Limit(l)
  {
    hide GatewayNext, OneSided, WorstBounded, AllConsistent, NetQty, StepConforms, RunConforms, Recoverable;
    if steps == [] {
      EmptyBounded(l, symbol);
    } else {
      var init := steps[..|steps| - 1];
      ConformsPrefix(l, steps, |init|, rule);
      assert forall k :: 0 <= k <= |init| ==> init[..k] == steps[..k];
      assert steps[..|steps|] == steps;
      GatewayOneSidedSafety(l, init, symbol, rule);
      RunIsRecoverable(l, init);
      GatewayConsistent(l, init, rule);
      OneSidedNext(l, GatewayRun(l, init), steps[|steps| - 1], symbol, rule);
    }
    GatewayConsistent(l, steps, rule);
    WorstBoundsNet(l, GatewayRun(l, steps).book, symbol);
  }

  lemma {:induction false} LogGrows(l: RiskLimits, steps: seq<GatewayStep>, m: nat)
    requires m <= |steps|
    ensures GatewayRun(l, steps[..m]).log <= GatewayRun(l, steps).log
  {
    if m == |steps| {
      assert steps[..m] == steps;
    } else {
      hide GatewayNext, Recoverable, BookedEvent, SameBook, ApplyToBook, Approved;
      var init, step := steps[..|steps| - 1], steps[|steps| - 1];
      assert init[..m] == steps[..m];
      LogGrows(l, init, m);
      RunIsRecoverable(l, init);
      if BookedEvent(l, GatewayRun(l, init), step).Some? {
        NextBooked(l, GatewayRun(l, init), step);
      } else {
        NextQuiet(l, GatewayRun(l, init), step);
      }
    }
  }

  /** From any moment of a conforming run to any later one, across restarts: orders keep
      their slots, ids, symbols and sides, and their states only move forward. */
  lemma GatewayLifecycle(l: RiskLimits, steps: seq<GatewayStep>, m: nat)
    requires RunConforms(l, steps) && m <= |steps|
    ensures var t, u := GatewayRun(l, steps[..m]).book.orders, GatewayRun(l, steps).book.orders;
            && |t| <= |u|
            && forall i :: 0 <= i < |t| ==>
                 && u[i].key == t[i].key
                 && u[i].body.symbol == t[i].body.symbol && u[i].body.side == t[i].body.side
                 && Forward(t[i].body.state, u[i].body.state)
  {
    hide GatewayRun, RunConforms, LegalRun, ReplayBook, SameBook, Sequenced, Forward, AllConsistent;
    var g, h := GatewayRun(l, steps[..m]), GatewayRun(l, steps);
    RunIsFaithful(l, steps, FreshIds);
    RunIsRecoverable(l, steps[..m]);
    LogGrows(l, steps, m);
    var es, n := AllUnstamped(h.log), |g.log|;
    assert es[..n] == AllUnstamped(g.log);
    LifecycleThroughout(l, es, n);
    var before, after := ReplayBook(EMPTY_BOOK, es[..n]), ReplayBook(EMPTY_BOOK, es);
    SameSizes(g.book, before);
    SameSizes(h.book, after);
    forall i | 0 <= i < |g.book.orders|
      ensures var o, p := g.book.orders[i], h.book.orders[i];
              && p.key == o.key && p.body.symbol == o.body.symbol && p.body.side == o.body.side
              && Forward(o.body.state, p.body.state)
    {
      SameSlot(g.book, before, i);
      SameSlot(h.book, after, i);
    }
  }

  // ---- Ids ----

  /** Order ids are never reported into the table: each is an old one or the one just drawn. */
  lemma NextKeys(l: RiskLimits, g: GatewayState, step: GatewayStep)
    requires Recoverable(g)
    ensures var h := GatewayNext(l, g, step);
            && (forall i :: 0 <= i < |h.book.orders| ==>
                  || (i < |g.book.orders| && h.book.orders[i].key == g.book.orders[i].key)
                  || (h.counter == g.counter + 1 && h.book.orders[i].key == OrderId(g.counter)))
            && (!step.Restart? ==>
                  g.counter <= h.counter && |h.book.orders| - |g.book.orders| <= h.counter - g.counter)
  {
    hide GatewayNext, BookedEvent, Recoverable, SameBook, OrderId, Approved;
    var h := GatewayNext(l, g, step);
    if BookedEvent(l, g, step).Some? {
      NextBooked(l, g, step);
      BookedKeys(g.book, BookedEvent(l, g, step).value);
    } else {
      NextQuiet(l, g, step);
      SameSizes(h.book, g.book) by {
        SameSymmetric(g.book, h.book, g.book);
      }
      forall i | 0 <= i < |h.book.orders|
        ensures h.book.orders[i].key == g.book.orders[i].key
      {
        SameSlot(g.book, h.book, i);
      }
    }
  }

  lemma BookedKeys(b: Book, e: OrderEvent)
    ensures var t, u := b.orders, ApplyToBook(b, e).orders;
            && |u| <= |t| + (if e.kind == NewOrder then 1 else 0)
            && forall i :: 0 <= i < |u| ==>
                 || (i < |t| && u[i].key == t[i].key)
                 || (e.kind == NewOrder && u[i].key == e.orderId)
  {
    hide ApplyOrder, ApplyFill, OrderStep;
    if Has(b.orders, e.orderId) {
      ApplyKnown(b.orders, e);
    } else {
      ApplyUnknown(b.orders, e);
    }
  }

  ghost predicate Drawn(id: Name, counter: nat) {
    exists c: nat :: c < counter && id == OrderId(c)
  }

  lemma DrawnLater(id: Name, counter: nat, later: nat)
    requires Drawn(id, counter) && counter <= later
    ensures Drawn(id, later)
  {
    hide OrderId;
  }

  lemma DrawnNow(counter: nat)
    ensures Drawn(OrderId(counter), counter + 1)
  {
    hide OrderId;
  }

  /** In one lifetime of the process every id in the order table was drawn from the counter,
      one for each order. */
  lemma {:induction false} RunDrawsIds(l: RiskLimits, steps: seq<GatewayStep>)
    requires forall i :: 0 <= i < |steps| ==> !steps[i].Restart?
    ensures var g := GatewayRun(l, steps);
            && |g.book.orders| <= g.counter
            && forall i :: 0 <= i < |g.book.orders| ==> Drawn(g.book.orders[i].key, g.counter)
  {
    if steps != [] {
      hide GatewayNext, Recoverable, OrderId, Drawn;
      var init := steps[..|steps| - 1];
      RunDrawsIds(l, init);
      RunIsRecoverable(l, init);
      var g, h := GatewayRun(l, init), GatewayRun(l, steps);
      NextKeys(l, g, steps[|steps| - 1]);
      forall i | 0 <= i < |h.book.orders|
        ensures Drawn(h.book.orders[i].key, h.counter)
      {
        if i < |g.book.orders| && h.book.orders[i].key == g.book.orders[i].key {
          DrawnLater(g.book.orders[i].key, g.counter, h.counter);
        } else {
          DrawnNow(g.counter);
        }
      }
    }
  }

  /** Within one lifetime of the process on an empty log, whatever the exchange reports, the
      next id is new to the order table as long as the counter is below 100000: no new
      order ever resets the slot of another. */
  lemma IdsFreshInOneLifetime(l: RiskLimits, steps: seq<GatewayStep>)
    requires forall i :: 0 <= i < |steps| ==> !steps[i].Restart?
    requires GatewayRun(l, steps).counter < COUNTER_LIMIT
    ensures !Has(GatewayRun(l, steps).book.orders, OrderId(GatewayRun(l, steps).counter))
  {
    hide GatewayRun, OrderId;
    RunDrawsIds(l, steps);
    var g := GatewayRun(l, steps);
    var t, k := g.book.orders, OrderId(g.counter);
    if Has(t, k) {
      assert Drawn(t[Find(t, k)].key, g.counter);
      var c: nat :| c < g.counter && k == OrderId(c);
      IdsDiffer(c, g.counter);
    }
  }

  ghost predicate IsOrderId(id: Name) {
    exists c: nat :: id == OrderId(c)
  }

  lemma OrderIdIsOne(c: nat)
    ensures IsOrderId(OrderId(c))
  {
    hide OrderId;
  }

  /** In any number of lifetimes every id in the order table is one that `next_order_id`
      makes. */
  lemma {:induction false} OnlyOrderIds(l: RiskLimits, steps: seq<GatewayStep>)
    ensures var t := GatewayRun(l, steps).book.orders; forall i :: 0 <= i < |t| ==> IsOrderId(t[i].key)
  {
    if steps != [] {
      hide GatewayNext, Recoverable, OrderId, IsOrderId;
      var init := steps[..|steps| - 1];
      OnlyOrderIds(l, init);
      RunIsRecoverable(l, init);
      NextKeys(l, GatewayRun(l, init), steps[|steps| - 1]);
      OrderIdIsOne(GatewayRun(l, init).counter);
    }
  }

  lemma KnownIsOrderId(l: RiskLimits, steps: seq<GatewayStep>, id: Name)
    requires Has(GatewayRun(l, steps).book.orders, id)
    ensures IsOrderId(id)
  {
    hide GatewayRun, OrderId, IsOrderId;
    OnlyOrderIds(l, steps);
    var t := GatewayRun(l, steps).book.orders;
    var i := Find(t, id);
    assert t[i].key == id;
  }

  // ---- One lifetime of the process, without guards on ids and room ----

  /** What is left to ask of the outside: positive quantities and conforming reports. */
  predicate Orderly(l: RiskLimits, g: GatewayState, step: GatewayStep) {
    BookedEvent(l, g, step).Some? ==>
      var e := BookedEvent(l, g, step).value;
      if e.kind == NewOrder then e.qty > 0 else ConformsTo(g.book, e)
  }

  lemma {:induction false} CounterGrows(l: RiskLimits, steps: seq<GatewayStep>, m: nat)
    requires m <= |steps| && forall i :: 0 <= i < |steps| ==> !steps[i].Restart?
    ensures GatewayRun(l, steps[..m]).counter <= GatewayRun(l, steps).counter
  {
    if m == |steps| {
      assert steps[..m] == steps;
    } else {
      hide GatewayNext, Recoverable, OrderId;
      var init := steps[..|steps| - 1];
      assert init[..m] == steps[..m];
      CounterGrows(l, init, m);
      RunIsRecoverable(l, init);
      NextKeys(l, GatewayRun(l, init), steps[|steps| - 1]);
    }
  }

  /** While a process has drawn at most 512 ids, ids are new and the order table has room
      without anyone seeing to it. */
  lemma OneLifetimeConforms(l: RiskLimits, steps: seq<GatewayStep>)
    requires forall k :: 0 <= k < |steps| ==> !steps[k].Restart? && Orderly(l, GatewayRun(l, steps[..k]), steps[k])
    requires GatewayRun(l, steps).counter <= MAX_ORDERS
    ensures RunConforms(l, steps)
  {
    hide GatewayRun, GatewayNext, BookedEvent, OrderId, Has, Approved, ApplyToBook;
    forall k | 0 <= k < |steps|
      ensures StepConforms(l, GatewayRun(l, steps[..k]), steps[k])
    {
      var init, g := steps[..k], GatewayRun(l, steps[..k]);
      assert forall i :: 0 <= i < |init| ==> init[i] == steps[i];
      if BookedEvent(l, g, steps[k]).Some? && BookedEvent(l, g, steps[k]).value.kind == NewOrder {
        NextBooked(l, g, steps[k]);
        RunNext(l, steps, k);
        CounterGrows(l, steps, k + 1);
        RunDrawsIds(l, init);
        IdsFreshInOneLifetime(l, init);
      }
      assert Orderly(l, g, steps[k]);
    }
  }

  /** For the first 512 orders of a process that starts on an empty log, with positive
      quantities and conforming reports: the exposure bound holds for every symbol and the
      projections agree. */
  lemma OneLifetimeSafety(l: RiskLimits, steps: seq<GatewayStep>)
    requires forall k :: 0 <= k < |steps| ==> !steps[k].Restart? && Orderly(l, GatewayRun(l, steps[..k]), steps[k])
    requires GatewayRun(l, steps).counter <= MAX_ORDERS
    ensures forall symbol: Name :: ExposureBounded(l, GatewayRun(l, steps).book, symbol)
    ensures Agrees(GatewayRun(l, steps).book)
  {
    hide GatewayRun, Orderly, ExposureBounded, RunConforms, Agrees;
    OneLifetimeConforms(l, steps);
    forall symbol: Name
      ensures ExposureBounded(l, GatewayRun(l, steps).book, symbol)
    {
      GatewayLimitSafety(l, steps, symbol, FreshIds);
    }
    ConformingAgreement(l, steps);
  }

  /** Conforming runs keep the projections in agreement. */
  lemma ConformingAgreement(l: RiskLimits, steps: seq<GatewayStep>)
    requires RunConforms(l, steps)
    ensures Agrees(GatewayRun(l, steps).book)
  {
    hide GatewayRun, Agrees, BookedEvent;
    forall k | 0 <= k < |steps|
      ensures StepReconciles(l, GatewayRun(l, steps[..k]), steps[k])
    {
      assert StepConforms(l, GatewayRun(l, steps[..k]), steps[k]);
    }
    AgreementUntil(l, steps, |steps|);
    assert steps[..|steps|] == steps;
  }

  // ---- Positions of a run are positions of a stream ----

  /** The table a tracker holds after some stream of events and market prices. */
  ghost predicate Tracked(t: Table<Position>) {
    exists ops :: t == Track(ops)
  }

  lemma TrackSnoc(ops: seq<TrackerOp>, op: TrackerOp)
    ensures Tracked(TrackerStep(Track(ops), op))
  {
    hide TrackerStep;
    assert (ops + [op])[..|ops|] == ops;
    assert Track(ops + [op]) == TrackerStep(Track(ops), op);
  }

  lemma {:induction false} ReplayTracked(es: seq<OrderEvent>)
    ensures Tracked(ReplayPositions([], es))
  {
    if es == [] {
      assert Track([]) == [];
    } else {
      hide ApplyFill, Track;
      ReplayTracked(es[..|es| - 1]);
      var ops :| ReplayPositions([], es[..|es| - 1]) == Track(ops);
      TrackSnoc(ops, Apply(es[|es| - 1]));
    }
  }

  lemma TrackedNext(l: RiskLimits, g: GatewayState, step: GatewayStep)
    requires Tracked(g.book.positions)
    ensures Tracked(GatewayNext(l, g, step).book.positions)
  {
    hide Track, BookedEvent, ReplayPositions, ReplayBook, ApplyFill, ApplyOrder, MarkSymbol, Approved;
    var ops :| g.book.positions == Track(ops);
    if BookedEvent(l, g, step).Some? {
      hide GatewayNext;
      NextBooked(l, g, step);
      TrackSnoc(ops, Apply(BookedEvent(l, g, step).value));
    } else {
      match step {
        case MarkPrice(symbol, price) =>
          TrackSnoc(ops, MarkToMarket(NameOf(symbol), price));
        case Restart =>
          ReplayBookIsBothReplays(EMPTY_BOOK, g.log);
          ReplayTracked(g.log);
        case _ =>
          QuietPositions(l, g, step);
      }
    }
  }

  lemma QuietPositions(l: RiskLimits, g: GatewayState, step: GatewayStep)
    requires BookedEvent(l, g, step).None? && !step.MarkPrice? && !step.Restart?
    ensures GatewayNext(l, g, step).book == g.book
  {
    hide NameOf, OrderIdText, ApplyOrder, ApplyToBook, CheckTrueExposure;
  }

  lemma {:induction false} RunTracked(l: RiskLimits, steps: seq<GatewayStep>)
    ensures Tracked(GatewayRun(l, steps).book.positions)
  {
    if steps == [] {
      assert Track([]) == [];
    } else {
      hide GatewayNext, Tracked;
      RunTracked(l, steps[..|steps| - 1]);
      TrackedNext(l, GatewayRun(l, steps[..|steps| - 1]), steps[|steps| - 1]);
    }
  }
}
