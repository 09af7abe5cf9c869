/** Concrete runs of the crash machine: one that succeeds, and one for each promise the code does not keep. */
module CrashExamples {
  import opened Sequences
  import opened Rounding
  import opened FillRecords
  import opened FillChain
  import opened Orders
  import opened Storage
  import opened Settlement
  import opened Restart
  import opened Recovery
  import opened Interruptions
  import opened CrashModel
  import opened CrashInvariant
  import opened CrashTrading
  import opened CrashSafety
  import opened StrategyRun
  import opened RefusedLog
  import opened RunStretches
  import A = FillAccuracy

  // -------------------------------------------------------------------------
  // Two orders of one strategy
  // -------------------------------------------------------------------------

  const CORE := "core"

  function Snapshot(id: string, status: Status): Order {
    Order(id, CORE, PortfolioId(CORE), PORTFOLIO_VERSION, "XYZ", "2026-01-05", Buy, status)
  }

  /** The orders A and B, in these states. */
  function Both(a: Status, b: Status): map<string, Order> {
    map["A" := Snapshot("A", a), "B" := Snapshot("B", b)]
  }

  const TEN_SHARES := Amounts(10.0, 100.0, 100.0, 0, 0.0, 1.0, 1000.0, 1.0, -1001.0, 10000.0, 8999.0)

  function FillOf(order: string, attempt: string, amounts: Amounts): Body {
    Filling(order, attempt, MakeFillId(order), MakeTradeId(order), CORE, PortfolioId(CORE), PORTFOLIO_VERSION,
            "XYZ", Buy, amounts, "2026-01-05", "2026-01-05", Some(SessionOpen("2026-01-05")), NextSessionOpen,
            CURRENT_VERSION)
  }

  function Fill(order: string, attempt: string): Body { FillOf(order, attempt, TEN_SHARES) }

  lemma FillPriced(order: string, attempt: string)
    ensures Priced(Fill(order, attempt))
  {
    RoundKeepsCents(1000.0);
    RoundKeepsCents(1.0);
    RoundKeepsCents(8999.0);
    RoundKeepsCents(-1001.0);
    assert Round2(10.0 * 100.0) == 1000.0;
    assert Round4(1.0 + 0.0) == 1.0;
  }

  /** A run that starts from the fresh portfolio. */
  const NEW_RUN := Run(CORE, FRESH_PORTFOLIO, FRESH_PORTFOLIO, [])

  lemma BothInFlight(d: Disk, a: Status, b: Status)
    requires Book(d) == Both(a, b)
    ensures forall o :: InFlight(d, CORE, o) <==> (o == "A" && a == Settling) || (o == "B" && b == Settling)
  {
    assert "A"[0] != "B"[0];
  }

  lemma TwoQueued() returns (d: Disk)
    ensures Reachable(State(d, Trading(NEW_RUN)))
    ensures d.wal == [] && d.saved == map[] && Book(d) == Both(PendingPrice, PendingPrice)
  {
    var empty := Disk([], [], map[]);
    assert IsRun([State(empty, Resting)]);
    hide Reachable;
    assert Book(empty) == map[];
    Resumes(empty, CORE, 0);
    assert "A"[0] != "B"[0];
    d := Creates(empty, NEW_RUN, Snapshot("A", PendingPrice));
    d := Creates(d, NEW_RUN, Snapshot("B", PendingPrice));
  }

  /** Filling a queued order under an attempt id that is not on record. */
  lemma FillsOrder(d: Disk, run: Run, order: string, attempt: string, amounts: Amounts) returns (d': Disk)
    requires Reachable(State(d, Trading(run))) && run.strategy == CORE && attempt != ""
    requires order in Book(d) && Book(d)[order] == Snapshot(order, PendingPrice)
    requires forall b :: b in d.wal && b.Filling? ==> b.attempt != attempt
    ensures var f := FillOf(order, attempt, amounts);
            && Reachable(State(d', Trading(AfterFill(run, f, run.memory.content))))
            && d'.wal == d.wal + [f] && d'.saved == d.saved
            && Book(d') == Book(d)[order := Snapshot(order, Settling)]
  {
    hide Reachable;
    d' := Fills(d, run, FillOf(order, attempt, amounts), run.memory.content);
  }

  // -------------------------------------------------------------------------
  // The run that succeeds
  // -------------------------------------------------------------------------

  const RUN_A := AfterFill(NEW_RUN, Fill("A", "1"), 0)
  const INTENT_A := IntentFor(RUN_A, "c1")
  const WAL_A := [Fill("A", "1"), INTENT_A, MarkerOf(RefTo(Fill("A", "1")), INTENT_A)]

  /** A is filled with these amounts and the commit intent written. */
  lemma CommitsA(amounts: Amounts) returns (d: Disk)
    ensures var f := FillOf("A", "1", amounts);
            var run := AfterFill(NEW_RUN, f, 0);
            && Reachable(State(d, Committed(run, IntentFor(run, "c1"))))
            && d.wal == [f, IntentFor(run, "c1")] && d.saved == map[]
            && Book(d) == Both(Settling, PendingPrice)
  {
    hide Reachable, Current;
    assert "A"[0] != "B"[0];
    var start := TwoQueued();
    var filled := FillsOrder(start, NEW_RUN, "A", "1", amounts);
    d := Intends(filled, AfterFill(NEW_RUN, FillOf("A", "1", amounts), 0), "c1");
  }

  /** A run from the empty disk passes commit intent and save with A in flight, and executes A. */
  lemma ExecutesA() returns (committed: Disk, finishing: Disk, d: Disk)
    ensures Reachable(State(committed, Committed(RUN_A, INTENT_A))) && InFlight(committed, CORE, "A")
    ensures Reachable(State(finishing, Finishing(RUN_A, INTENT_A, 0, false))) && InFlight(finishing, CORE, "A")
    ensures finishing.wal == WAL_A[..2] && Book(finishing) == Both(Settling, PendingPrice)
    ensures AllPriced(finishing.wal)
    ensures Reachable(State(d, Resting)) && AllPriced(d.wal)
    ensures d.wal == WAL_A && Book(d) == Both(Executed, PendingPrice)
    ensures SavedBy(d, CORE) == Portfolio([Trade("A", "1")], 0)
  {
    hide Reachable, InFlight, Priced, Current;
    assert "A"[0] != "B"[0];
    committed := CommitsA(TEN_SHARES);
    BothInFlight(committed, Settling, PendingPrice);
    finishing := Saves(committed, RUN_A, INTENT_A);
    BothInFlight(finishing, Settling, PendingPrice);
    d := FinishesOnly(finishing, RUN_A, INTENT_A);
    FillPriced("A", "1");
    MarkerPriced(INTENT_A);
  }

  lemma MarkerPriced(ci: Body)
    requires ci.CommitIntent?
    ensures Priced(ci) && forall r :: Priced(MarkerOf(r, ci))
  {
  }

  // -------------------------------------------------------------------------
  // A crash before the save, with prices that moved
  // -------------------------------------------------------------------------

  const MARKED := Portfolio([Trade("A", "1")], 7)
  const RUN_B := AfterFill(Run(CORE, MARKED, MARKED, []), Fill("B", "2"), 7)
  const INTENT_B := IntentFor(RUN_B, "c2")

  /**
   * The second run marks the position in A to market, fills B and crashes after its commit intent. The
   * portfolio on disk holds the same trades as the state before the fill, but B is rejected, not retried.
   */
  lemma MarkingFailsTheRetry() returns (d: Disk)
    ensures Reachable(State(d, Committed(RUN_B, INTENT_B))) && InFlight(d, CORE, "B")
    ensures SavedBy(d, CORE).trades == RUN_B.pre.trades && RecoveryStarts(d, CORE)
    ensures Outcome(ViewOf(d, CORE), "B") == FailedReconciliation
  {
    hide Reachable, InFlight, Priced, Outcome, RecoveryStarts, Current;
    var committed, finishing, done := ExecutesA();
    BothInFlight(done, Executed, PendingPrice);
    Resumes(done, CORE, 7);
    assert "1"[0] != "2"[0] && "c1"[1] != "c2"[1] && "A"[0] != "B"[0];
    var filled := FillsOrder(done, Run(CORE, MARKED, MARKED, []), "B", "2", TEN_SHARES);
    d := Intends(filled, RUN_B, "c2");
    BothInFlight(d, Executed, Settling);
    DecidedBeforeSave(d, RUN_B, INTENT_B, "B");
    FillPriced("B", "2");
    MarkerPriced(INTENT_B);
    StartsAt(d, Committed(RUN_B, INTENT_B));
  }

  lemma StartsAt(d: Disk, p: Process)
    requires Reachable(State(d, p)) && AllPriced(d.wal)
    ensures RecoveryStarts(d, CORE)
  {
    hide RecoveryStarts, AllPriced, Next;
    var states :| IsRun(states) && states[|states| - 1] == State(d, p);
    RecoveryStartsIff(states, |states| - 1, CORE);
  }

  // -------------------------------------------------------------------------
  // Crashes that leave an old commit intent behind
  // -------------------------------------------------------------------------

  const RUN_AB := AfterFill(AfterFill(NEW_RUN, Fill("A", "1"), 0), Fill("B", "2"), 0)
  const INTENT_AB := IntentFor(RUN_AB, "c1")
  const WAL_AB := [Fill("A", "1"), Fill("B", "2"), INTENT_AB]

  lemma CommitsBoth() returns (d: Disk)
    ensures Reachable(State(d, Committed(RUN_AB, INTENT_AB))) && d.wal == WAL_AB
    ensures d.saved == map[] && Book(d) == Both(Settling, Settling)
  {
    hide Reachable, Current;
    assert "1"[0] != "2"[0] && "A"[0] != "B"[0];
    var start := TwoQueued();
    var half := FillsOrder(start, NEW_RUN, "A", "1", TEN_SHARES);
    var filled := FillsOrder(half, RUN_A, "B", "2", TEN_SHARES);
    d := Intends(filled, RUN_AB, "c1");
  }

  /** Both orders are filled, the process crashes before the save, both are queued again, trading resumes. */
  lemma RetriesBoth() returns (d: Disk)
    ensures Reachable(State(d, Trading(NEW_RUN))) && d.wal == WAL_AB && AllPriced(d.wal)
    ensures d.saved == map[] && Book(d) == Both(PendingPrice, PendingPrice)
  {
    hide Reachable, InFlight, Priced, Outcome, Current;
    assert "A"[0] != "B"[0];
    var crashed := DiesCommitted();
    BothInFlight(crashed, Settling, Settling);
    PricedAB();
    d := Retries(crashed, CORE);
    assert Book(d) == Both(PendingPrice, PendingPrice);
    Resumes(d, CORE, 0);
  }

  /**
   * Recovery decides to retry both orders, queues A and dies; the next recovery finds A queued and
   * rejects B, although nothing was ever saved.
   */
  lemma CrashSplitsRetry() returns (crashed: Disk, d: Disk)
    ensures Reachable(State(crashed, Resting)) && !RestartStable(crashed, CORE)
    ensures Outcome(ViewOf(crashed, CORE), "A") == Outcome(ViewOf(crashed, CORE), "B") == PendingPrice
    ensures Reachable(State(d, Resting)) && d.wal == crashed.wal && d.saved == crashed.saved == map[]
    ensures Book(crashed) == Both(Settling, Settling) && Book(d) == Both(PendingPrice, Settling)
    ensures InFlight(d, CORE, "B") && Outcome(ViewOf(d, CORE), "B") == FailedReconciliation
  {
    hide Reachable, InFlight, AllPriced, Outcome, Current, RestartStable, Intents, SplitByCrash, NamesOrder;
    crashed := DiesCommitted();
    IntentsOfAB();
    BothSplit(crashed);
    NotStable(crashed);
    PricedAB();
    d := QueuesA(crashed);
    BothInFlight(d, PendingPrice, Settling);
    LeftRejected(d);
  }

  lemma PricedAB()
    ensures AllPriced(WAL_AB)
  {
    hide Priced;
    FillPriced("A", "1");
    FillPriced("B", "2");
    MarkerPriced(INTENT_AB);
  }

  /** Both orders are filled and named in a commit intent; the process dies before the save. */
  lemma DiesCommitted() returns (d: Disk)
    ensures Reachable(State(d, Resting)) && d.wal == WAL_AB && d.saved == map[]
    ensures Book(d) == Both(Settling, Settling)
    ensures Outcome(ViewOf(d, CORE), "A") == Outcome(ViewOf(d, CORE), "B") == PendingPrice
  {
    hide Reachable, InFlight, Outcome, Current;
    d := CommitsBoth();
    BothInFlight(d, Settling, Settling);
    DecidedBeforeSave(d, RUN_AB, INTENT_AB, "A");
    DecidedBeforeSave(d, RUN_AB, INTENT_AB, "B");
    Crashes(d, Committed(RUN_AB, INTENT_AB));
  }

  lemma NotStable(d: Disk)
    requires Reachable(State(d, Resting)) && SplitByCrash(ViewOf(d, CORE), INTENT_AB)
    ensures !RestartStable(d, CORE)
  {
    hide Reachable, SplitByCrash, RestartStable, Inv, Coherent, IdsPresent;
    ReachableFacts(State(d, Resting));
    RestartStableIff(d, CORE);
  }

  lemma MappedAB(v: View)
    requires Intents(v.wal) == [INTENT_AB] && v.strategy == CORE
    ensures IntentOf(v, "A") == Some(INTENT_AB) && IntentOf(v, "B") == Some(INTENT_AB)
  {
    IntentsOfAB();
  }

  lemma BothSplit(d: Disk)
    requires Intents(d.wal) == [INTENT_AB] && Book(d) == Both(Settling, Settling)
    requires Outcome(ViewOf(d, CORE), "A") == PendingPrice
    ensures SplitByCrash(ViewOf(d, CORE), INTENT_AB)
  {
    hide Decide, Outcome, IntentOf, Intents;
    var v := ViewOf(d, CORE);
    MappedAB(v);
    assert "A"[0] != "B"[0];
    assert InBatch(v, INTENT_AB, "A") && InBatch(v, INTENT_AB, "B");
    BatchOutcome(v, INTENT_AB, "A");
  }

  /** Recovery that takes A first and dies after one write. */
  lemma QueuesA(d: Disk) returns (d': Disk)
    requires Reachable(State(d, Resting)) && Intents(d.wal) == [INTENT_AB] && Book(d) == Both(Settling, Settling)
    requires AllPriced(d.wal) && Outcome(ViewOf(d, CORE), "A") == PendingPrice
    ensures Reachable(State(d', Resting)) && d'.wal == d.wal && d'.saved == d.saved
    ensures Book(d') == Both(PendingPrice, Settling)
  {
    hide Reachable, Outcome, Current, CrashReachable, Inv, IntentOf, Intents, AllPriced, Coherent, IdsPresent;
    ReachableFacts(State(d, Resting));
    var v, todo := ViewOf(d, CORE), ["A", "B"];
    MappedAB(v);
    assert "A"[0] != "B"[0];
    assert Lists(v, todo);
    var plan := Plan(v, todo);
    FirstWrite(v, "A", "B");
    RecoveryIsPath(d, CORE, todo, 1);
    d' := ApplyAll(d, plan[..1]);
    var p :| Reachable(State(d', p)) by { AtCut(d, plan, 1); }
    Crashes(d', p);
    var order := v.orders["A"].(status := PendingPrice);
    assert plan[..1] == [] + [SaveOrder(order)];
    ApplySnoc(d, [], SaveOrder(order));
    CurrentAfterSave(d.log, order);
  }

  lemma AtCut(d: Disk, ws: seq<Write>, k: nat)
    requires k <= |ws| && CrashReachable(d, ws, k)
    ensures exists p :: Reachable(State(ApplyAll(d, ws[..k]), p))
  {
  }

  lemma FirstWrite(v: View, a: string, b: string)
    requires Due(v, a) && Due(v, b) && Outcome(v, a) == PendingPrice
    ensures |Plan(v, [a, b])| >= 1 && Plan(v, [a, b])[0] == SaveOrder(v.orders[a].(status := PendingPrice))
  {
    hide Outcome, Due, WritesFor;
    QuietWrites(v, a);
    assert [a, b][..1] == [a] && [a][..0] == [];
    assert Plan(v, [a]) == [] + WritesFor(v, a);
  }

  /** A commit intent one of whose orders is queued for retry does not fit. */
  lemma LeftRejected(d: Disk)
    requires Intents(d.wal) == [INTENT_AB] && Book(d) == Both(PendingPrice, Settling)
    ensures Outcome(ViewOf(d, CORE), "B") == FailedReconciliation
  {
    hide Outcome, IntentOf, Intents, ResolveFromIntent;
    var v := ViewOf(d, CORE);
    MappedAB(v);
    assert "A"[0] != "B"[0];
    assert INTENT_AB.fills[0].order == "A" && INTENT_AB.fills[0] in INTENT_AB.fills;
    assert !RefFits(v, INTENT_AB, INTENT_AB.fills[0]);
    BatchOutcome(v, INTENT_AB, "B");
  }

  /**
   * The retry fills only A and crashes before its commit intent. The old intent names B as well, which is
   * queued, so the batch does not fit and A is rejected, although nothing was ever saved.
   */
  lemma HalfARetryFails() returns (d: Disk, run: Run)
    ensures Reachable(State(d, Trading(run))) && run.strategy == CORE && InFlight(d, CORE, "A")
    ensures d.saved == map[] && RecoveryStarts(d, CORE)
    ensures Outcome(ViewOf(d, CORE), "A") == FailedReconciliation
  {
    hide Reachable, InFlight, Priced, Outcome, RecoveryStarts;
    assert "1"[0] != "2"[0] && "1"[0] != "3"[0] && "2"[0] != "3"[0] && "A"[0] != "B"[0];
    var start := RetriesBoth();
    d := FillsOrder(start, NEW_RUN, "A", "3", TEN_SHARES);
    run := AfterFill(NEW_RUN, Fill("A", "3"), 0);
    BothInFlight(d, Settling, PendingPrice);
    DecidedBeforeIntent(d, run, "A");
    GroupingGrows(WAL_AB, Fill("A", "3"));
    IntentsOfAB();
    NotWhole(d);
    FillPriced("A", "3");
    StartsAt(d, Trading(run));
  }

  lemma IntentsOfAB()
    ensures Intents(WAL_AB) == [INTENT_AB]
    ensures NamesOrder(INTENT_AB, "A") && NamesOrder(INTENT_AB, "B")
  {
    hide Intents, Events;
    var a, b := Fill("A", "1"), Fill("B", "2");
    assert WAL_AB == [a] + [b] + [INTENT_AB];
    assert [] + [a] == [a];
    GroupingGrows([], a);
    GroupingGrows([a], b);
    GroupingGrows([a] + [b], INTENT_AB);
    NoIntents();
    assert INTENT_AB.fills == [RefTo(a), RefTo(b)];
    assert INTENT_AB.fills[0].order == "A" && INTENT_AB.fills[1].order == "B";
  }

  lemma NoIntents()
    ensures Intents([]) == []
  {
  }

  lemma NotWhole(d: Disk)
    requires Intents(d.wal) == [INTENT_AB] && Book(d) == Both(Settling, PendingPrice)
    ensures !FreeToRetry(ViewOf(d, CORE), "A")
  {
    IntentsOfAB();
    var v := ViewOf(d, CORE);
    assert IntentOf(v, "A") == Some(INTENT_AB);
    assert INTENT_AB.fills[1].order == "B";
    assert INTENT_AB.fills[1] in INTENT_AB.fills && !Due(v, "B");
  }

  const INTENT_RETRY := IntentFor(AfterFill(NEW_RUN, Fill("B", "4"), 0), "c2")
  const WAL_RETRY := WAL_AB + [Fill("B", "4"), INTENT_RETRY]

  /** The retry fills only B, crashes after its commit intent, and both orders are queued once more. */
  lemma RetriesAgain() returns (d: Disk)
    ensures Reachable(State(d, Trading(NEW_RUN))) && d.wal == WAL_RETRY && AllPriced(d.wal)
    ensures d.saved == map[] && Book(d) == Both(PendingPrice, PendingPrice)
  {
    hide Reachable, InFlight, Priced, Outcome, Current;
    assert "1"[0] != "4"[0] && "2"[0] != "4"[0] && "A"[0] != "B"[0] && "c1"[1] != "c2"[1];
    var start := RetriesBoth();
    var run := AfterFill(NEW_RUN, Fill("B", "4"), 0);
    var filled := FillsOrder(start, NEW_RUN, "B", "4", TEN_SHARES);
    var crashed := Intends(filled, run, "c2");
    BothInFlight(crashed, PendingPrice, Settling);
    DecidedBeforeSave(crashed, run, INTENT_RETRY, "B");
    Crashes(crashed, Committed(run, INTENT_RETRY));
    FillPriced("B", "4");
    MarkerPriced(INTENT_RETRY);
    d := Retries(crashed, CORE);
    assert Book(d) == Both(PendingPrice, PendingPrice);
    Resumes(d, CORE, 0);
  }

  const RUN_BOTH := AfterFill(AfterFill(NEW_RUN, Fill("A", "5"), 0), Fill("B", "6"), 0)
  const WAL_BOTH := WAL_RETRY + [Fill("A", "5")] + [Fill("B", "6")]

  /** The third run fills both orders. */
  lemma FillsBothAgain() returns (d: Disk)
    ensures Reachable(State(d, Trading(RUN_BOTH))) && d.wal == WAL_BOTH && AllPriced(d.wal)
    ensures d.saved == map[] && Book(d) == Both(Settling, Settling)
  {
    hide Reachable, InFlight, Priced, Current;
    assert "1"[0] != "5"[0] && "2"[0] != "5"[0] && "4"[0] != "5"[0] && "A"[0] != "B"[0];
    assert "1"[0] != "6"[0] && "2"[0] != "6"[0] && "4"[0] != "6"[0] && "5"[0] != "6"[0];
    var start := RetriesAgain();
    var half := FillsOrder(start, NEW_RUN, "A", "5", TEN_SHARES);
    d := FillsOrder(half, AfterFill(NEW_RUN, Fill("A", "5"), 0), "B", "6", TEN_SHARES);
    FillPriced("A", "5");
    FillPriced("B", "6");
  }

  /**
   * The third run crashes before its commit intent. Both old intents are active and share B; a crash
   * inside the recovery that follows changes what becomes of B.
   */
  lemma CrashRescuesB() returns (d: Disk, c: Cut)
    ensures Reachable(State(d, Resting)) && Accepted(d.wal) && d.saved == map[]
    ensures RescuedByCrash(ViewOf(d, CORE), INTENT_RETRY) && !RestartStable(d, CORE)
    ensures Outcome(ViewOf(d, CORE), "B") == FailedReconciliation
    ensures AllPossible(d, CORE, [c]) && Fate(d, CORE, [c], "B") == PendingPrice
  {
    hide Reachable, InFlight, Outcome, Coherent, AllPriced, IdsPresent, RestartStable, RescuedByCrash, Fate, Inv,
         Alone, InBatch, Intents, AllPossible;
    d := FillsBothAgain();
    Crashes(d, Trading(RUN_BOTH));
    ReachableFacts(State(d, Trading(RUN_BOTH)));
    IntentsOfRetry(d.wal, Fill("A", "5"), Fill("B", "6"));
    RetryIsRescued(d, RUN_BOTH);
    c := OneCrashDecides(d);
  }

  lemma IntentsOfRetry(wal: seq<Body>, a: Body, b: Body)
    requires wal == WAL_RETRY + [a] + [b] && a.Filling? && b.Filling?
    ensures Intents(wal) == [INTENT_AB, INTENT_RETRY]
  {
    hide Intents, Events;
    IntentsOfAB();
    assert WAL_RETRY == WAL_AB + [Fill("B", "4")] + [INTENT_RETRY];
    GroupingGrows(WAL_AB, Fill("B", "4"));
    GroupingGrows(WAL_AB + [Fill("B", "4")], INTENT_RETRY);
    GroupingGrows(WAL_RETRY, a);
    GroupingGrows(WAL_RETRY + [a], b);
  }

  lemma RetryIsRescued(d: Disk, run: Run)
    requires Inv(State(d, Trading(run))) && run.strategy == CORE && d.saved == map[]
    requires Intents(d.wal) == [INTENT_AB, INTENT_RETRY] && Book(d) == Both(Settling, Settling)
    ensures RescuedByCrash(ViewOf(d, CORE), INTENT_RETRY)
    ensures Alone(ViewOf(d, CORE), INTENT_RETRY) == PortfolioUnsaved
    ensures forall o :: InBatch(ViewOf(d, CORE), INTENT_RETRY, o) ==> o == "B"
    ensures InBatch(ViewOf(d, CORE), INTENT_RETRY, "B")
  {
    hide DiskOk, TradingOk, Alone, Intents;
    var v := ViewOf(d, CORE);
    RetryMapped();
    assert InBatch(v, INTENT_AB, "A") && InBatch(v, INTENT_RETRY, "B");
    IntentsOfAB();
    assert INTENT_RETRY.fills == [RefTo(Fill("B", "4"))];
    assert INTENT_RETRY.fills[0].order == "B" && INTENT_RETRY.fills[0] in INTENT_RETRY.fills;
    assert SharesOrder(INTENT_RETRY, INTENT_AB);
    assert WholeBatch(v, INTENT_RETRY);
    OlderAlone(d, run, INTENT_RETRY, "B");
    assert "A"[0] != "B"[0];
  }

  lemma RetryMapped()
    ensures Mapped([INTENT_AB, INTENT_RETRY], CORE, "A") == Some(INTENT_AB)
    ensures Mapped([INTENT_AB, INTENT_RETRY], CORE, "B") == Some(INTENT_RETRY)
  {
    IntentsOfAB();
    assert "A"[0] != "B"[0];
    assert [INTENT_AB, INTENT_RETRY][..1] == [INTENT_AB];
    assert INTENT_RETRY.fills == [RefTo(Fill("B", "4"))];
    assert INTENT_RETRY.fills[0].order == "B" && INTENT_RETRY.fills[0] in INTENT_RETRY.fills;
    assert forall r :: r in INTENT_RETRY.fills ==> r == INTENT_RETRY.fills[0];
    assert NamesOrder(INTENT_RETRY, "B") && !NamesOrder(INTENT_RETRY, "A");
  }

  lemma OneCrashDecides(d: Disk) returns (c: Cut)
    requires Coherent(d.wal) && IdsPresent(d.wal) && RescuedByCrash(ViewOf(d, CORE), INTENT_RETRY)
    requires Alone(ViewOf(d, CORE), INTENT_RETRY) == PortfolioUnsaved
    requires InBatch(ViewOf(d, CORE), INTENT_RETRY, "B")
    ensures !RestartStable(d, CORE) && Outcome(ViewOf(d, CORE), "B") == FailedReconciliation
    ensures AllPossible(d, CORE, [c]) && Fate(d, CORE, [c], "B") == PendingPrice
  {
    hide Coherent, IdsPresent, RescuedByCrash, Alone, Outcome, Fate, InBatch, RestartStable, AllPossible;
    RestartStableIff(d, CORE);
    c := RivalsFirst(d, CORE, INTENT_RETRY, "B");
  }

  // -------------------------------------------------------------------------
  // A saved fill that the loader refuses
  // -------------------------------------------------------------------------

  const REFUSED := FillOf("A", "1", A.EventOf(A.START, A.SUB_CENT))
  const RUN_REFUSED := AfterFill(NEW_RUN, REFUSED, 0)
  const INTENT_REFUSED := IntentFor(RUN_REFUSED, "c1")

  /**
   * The buy at 10.004 is filled and its portfolio saved; then the process crashes. What is left on disk
   * decides EXECUTED, but no recovery ever begins again: A stays SETTLING and the portfolio as it is.
   */
  lemma RefusedFillIsSaved() returns (d: Disk)
    ensures Reachable(State(d, Resting)) && FromTrade(REFUSED) && d.wal == [REFUSED, INTENT_REFUSED]
    ensures SavedBy(d, CORE).trades == [Trade("A", "1")] && Outcome(ViewOf(d, CORE), "A") == Executed
    ensures !AllPriced(d.wal) && !RecoveryStarts(d, CORE)
    ensures forall states, j :: IsRun(states) && 0 <= j < |states| && states[j] == State(d, Resting) ==>
              Frozen(states[j], states[|states| - 1])
  {
    hide Reachable, InFlight, Outcome, RecoveryStarts, Frozen, A.EventOf, AmountsOk, FromTrade, Current;
    var committed := CommitsA(REFUSED.amounts);
    d := Saves(committed, RUN_REFUSED, INTENT_REFUSED);
    BothInFlight(d, Settling, PendingPrice);
    DecidedAfterSave(d, RUN_REFUSED, INTENT_REFUSED, "A");
    Crashes(d, Finishing(RUN_REFUSED, INTENT_REFUSED, 0, false));
    RefusedIsTraded();
    assert REFUSED in d.wal && !Priced(REFUSED);
    StillRefused(d.wal, d);
    forall states, j | IsRun(states) && 0 <= j < |states| && states[j] == State(d, Resting)
      ensures Frozen(states[j], states[|states| - 1])
    {
      RefusedForever(states, j, |states| - 1);
    }
  }

  lemma RefusedIsTraded()
    ensures FromTrade(REFUSED) && !AmountsOk(Buy, NextSessionOpen, REFUSED.amounts)
  {
    hide A.EventOf, AmountsOk;
    A.SubCentBuyRefused();
    assert Records(REFUSED, A.START, A.SUB_CENT);
  }

  // -------------------------------------------------------------------------
  // A marker that Phase 1 does not see
  // -------------------------------------------------------------------------

  const MARKER_A := MarkerOf(RefTo(Fill("A", "1")), INTENT_AB)

  /** Order A as if the order ledger booked it under another strategy. */
  const ASTRAY := Snapshot("A", Settling).(strategy := "other")

  /** The batch of A and B at its pre state, with a marker of A on record. */
  const MARKED_VIEW := View(map["A" := ASTRAY, "B" := Snapshot("B", Settling)], WAL_AB + [MARKER_A], CORE,
                            StateHash(FRESH_PORTFOLIO))

  /**
   * Phase 1 is meant to retry a batch only if none of its references has a marker; but it looks for markers
   * only among orders of the strategy. Here B is retried although the marker of A claims that both were saved.
   */
  lemma MarkerElsewhereIgnored()
    ensures Coherent(MARKED_VIEW.wal) && Markers(Events(MARKED_VIEW.wal, "A")) == [MARKER_A]
    ensures Outcome(MARKED_VIEW, "B") == PendingPrice
  {
    hide Coherent, Outcome, Reachable, Inv, Intents, Events, Markers, IntentOf, NamesOrder;
    var d := CommitsBoth();
    ReachableFacts(State(d, Committed(RUN_AB, INTENT_AB)));
    EventsOfAB();
    CoherentWithMarker(WAL_AB, MARKER_A);
    GroupingGrows(WAL_AB, MARKER_A);
    IntentsOfAB();
    MappedAB(MARKED_VIEW);
    OnlyBInFlight();
    MarkerEffect(Events(WAL_AB, "A"), MARKER_A);
    BothReady();
    VerdictIff(MARKED_VIEW, INTENT_AB, "B");
  }

  lemma EventsOfAB()
    ensures Events(WAL_AB, "A") == [Fill("A", "1")] && Events(WAL_AB, "B") == [Fill("B", "2")]
    ensures Markers([Fill("A", "1")]) == [] && Markers([Fill("B", "2")]) == []
  {
    hide Filter;
    var a, b := Fill("A", "1"), Fill("B", "2");
    assert WAL_AB == [] + [a] + [b] + [INTENT_AB];
    assert "A"[0] != "B"[0];
    GroupingGrows([], a);
    GroupingGrows([] + [a], b);
    GroupingGrows([] + [a] + [b], INTENT_AB);
    FilterEmpty(AboutOrder("A"));
    FilterEmpty(AboutOrder("B"));
    FilterNone([a], IsPersisted());
    FilterNone([b], IsPersisted());
  }

  lemma OnlyBInFlight()
    ensures forall ci, o :: InBatch(MARKED_VIEW, ci, o) ==> o == "B"
    ensures Due(MARKED_VIEW, "B")
  {
    assert "A"[0] != "B"[0] && CORE[0] != "other"[0];
  }

  lemma BothReady()
    requires IntentOf(MARKED_VIEW, "A") == Some(INTENT_AB) && IntentOf(MARKED_VIEW, "B") == Some(INTENT_AB)
    requires Markers(Events(MARKED_VIEW.wal, "A")) == [MARKER_A] && Markers(Events(MARKED_VIEW.wal, "B")) == []
    ensures forall r :: r in INTENT_AB.fills ==> ReadyToSettle(MARKED_VIEW, INTENT_AB, r) && !MarkedHere(MARKED_VIEW, r)
  {
    hide IntentOf, Markers, Events;
    var a, b := Fill("A", "1"), Fill("B", "2");
    assert "A"[0] != "B"[0] && CORE[0] != "other"[0];
    assert WAL_AB[0] == a && WAL_AB[1] == b;
    assert a in MARKED_VIEW.wal && b in MARKED_VIEW.wal;
    assert INTENT_AB.fills == [RefTo(a), RefTo(b)];
  }
}
