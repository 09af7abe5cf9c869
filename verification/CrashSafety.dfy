/** Crash safety of fill commit and recovery, over every run. */
module CrashSafety {
  import opened Sequences
  import opened FillRecords
  import opened FillChain
  import opened Projection
  import opened Orders
  import opened Storage
  import opened Settlement
  import opened Restart
  import opened Recovery
  import opened CrashModel
  import opened CrashInvariant
  import opened CrashDisk
  import opened CrashRecovery
  import opened CrashTrading

  // -------------------------------------------------------------------------
  // The invariant holds throughout
  // -------------------------------------------------------------------------

  lemma InitOk(st: State)
    requires Init(st)
    ensures Inv(st)
  {
    assert Current([]) == map[];
    assert forall s :: TradesOk(st.disk, s);
    assert forall s :: NoneLanded(st.disk, s);
  }

  lemma IdleStepOk(st: State, st': State, step: Step, order: Order)
    requires Inv(st) && Takes(st, st', step)
    requires step.Expire? || step.CreateOrder? || step.SetAside?
    requires st' == State(Apply(st.disk, SaveOrder(order)), st.process)
    requires SameOrder(st.disk, order) && order.status != Settling && order.status != Executed
    requires order.id in Book(st.disk) ==> Book(st.disk)[order.id].status == PendingPrice
    ensures Inv(st')
  {
    IdleSaveOk(st.disk, order);
    if st.process.Trading? {
      SaveKeepsTrading(st.disk, order, st.process.run);
    }
  }

  /** The retry guard has nothing to block: no order queued for retry has a persisted marker. */
  lemma GuardNeverFires(st: State, st': State, o: string)
    requires Inv(st)
    ensures !Takes(st, st', GuardFires(o))
  {
    var d := st.disk;
    if o in Book(d) && Book(d)[o].status == PendingPrice {
      assert StatusOk(d) && o != "";
      MarkerIff(d, o);
      if HasMarker(d, o) {
        PendingHasNoMarker(d, o);
      }
    }
  }

  lemma NextKeepsInv(st: State, st': State, step: Step)
    requires Inv(st) && Takes(st, st', step)
    ensures Inv(st')
  {
    hide DiskOk, RecoveringOk, TradingOk, FinishingOk, Coherent;
    var d, p := st.disk, st.process;
    match step
    case Crash =>
    case Expire(o) =>
      SnapshotFits(d, o, Expired);
      IdleStepOk(st, st', step, WithStatus(d, o, Expired));
    case BeginRecovery(strategy, todo) => BeginRecoveryOk(d, strategy, todo);
    case RefuseRecovery(_) =>
    case RecoveryWrite =>
      if MarkerNext(p) {
        RecoveryMarkerOk(st, st');
      } else {
        RecoverySaveOk(st, st');
      }
    case EndRecovery => RecoveryLeavesNothing(d, p);
    case GuardFires(o) => GuardNeverFires(st, st', o);
    case BeginTrading(content) => EmptyRunOk(d, p.strategy, content);
    case CreateOrder(order) => IdleStepOk(st, st', step, order);
    case SetAside(o, status) =>
      SnapshotFits(d, o, status);
      IdleStepOk(st, st', step, WithStatus(d, o, status));
    case Revalue(content) => RevaluedOk(d, p.run, content);
    case RecordFill(f, content) => RecordFillOk(st, st', f, content);
    case Annotate => AnnotateOk(st, st');
    case WriteIntent(commitId) => WriteIntentOk(st, st', commitId);
    case SaveState =>
      if p.Trading? {
        IdleSavePortfolioOk(st, st');
      } else {
        CommittedSaveOk(st, st');
      }
    case FinishFill =>
      if p.noted {
        FinishSaveOk(st, st');
      } else {
        FinishMarkerOk(st, st');
      }
    case EndRun =>
  }

  lemma SnapshotFits(d: Disk, o: string, status: Status)
    requires DiskOk(d) && o in Book(d)
    ensures SameOrder(d, WithStatus(d, o, status)) && WithStatus(d, o, status).id == o
  {
    assert StatusOk(d);
  }

  lemma RecoveryLeavesNothing(d: Disk, p: Process)
    requires p.Recovering? && RecoveringOk(d, p) && p.n == |p.todo|
    ensures forall o :: !InFlight(d, p.strategy, o)
  {
  }

  lemma EmptyRunOk(d: Disk, s: string, content: int)
    requires forall o :: !InFlight(d, s, o)
    ensures var marked := SavedBy(d, s).(content := content); ProcessOk(d, Trading(Run(s, marked, marked, [])))
  {
    assert TradesOf([]) == [];
  }

  lemma RevaluedOk(d: Disk, run: Run, content: int)
    requires ProcessOk(d, Trading(run))
    ensures ProcessOk(d, Trading(run.(memory := run.memory.(content := content))))
  {
  }

  lemma {:induction false} RunKeepsInv(states: seq<State>, i: nat)
    requires IsRun(states) && i < |states|
    ensures Inv(states[i])
  {
    hide Inv, Takes, Init;
    if i == 0 {
      InitOk(states[0]);
    } else {
      RunKeepsInv(states, i - 1);
      assert Next(states[i - 1], states[i - 1 + 1]);
      var step :| Takes(states[i - 1], states[i], step);
      NextKeepsInv(states[i - 1], states[i], step);
    }
  }

  // -------------------------------------------------------------------------
  // Safety in every reachable state
  // -------------------------------------------------------------------------

  /** The fill attempt that an order's strict chain names, if the chain resolves. */
  function ChainOf(d: Disk, o: string): Result<Chain> {
    ResolveFill(o, Events(d.wal, o), Intents(d.wal), None, true)
  }

  lemma MarkerChain(d: Disk, o: string)
    requires DiskOk(d) && HasMarker(d, o)
    ensures ChainOf(d, o).Ok? && o in Book(d)
    ensures Trade(o, ChainOf(d, o).value.filling.attempt) in SavedBy(d, Book(d)[o].strategy).trades
    ensures ChainOf(d, o).value.marker.commitId != ""
    ensures ChainOf(d, o).value.filling in d.wal && ChainOf(d, o).value.filling.order == o
  {
    PendingHasNoMarker(d, o);
    hide DiskOk, LogOk, BooksOk, StatusOk, FlightOk, Applied, HasMarker;
    var m, ci := FirstMarker(d, o);
    StrictChainIff(d.wal, o, ci);
    hide ResolveFill, LinksMatch, Coherent;
    ExpectedOnlyRestricts(o, Events(d.wal, o), Intents(d.wal), ci.commitId);
    ChainIsRecorded(d.wal, o, None, true);
  }

  /** The first marker of an order and the commit intent it belongs to. */
  lemma FirstMarker(d: Disk, o: string) returns (m: Body, ci: Body)
    requires DiskOk(d) && HasMarker(d, o) && o in Book(d)
    ensures Coherent(d.wal) && ci in d.wal && ci.CommitIntent? && LinksMatch(o, Events(d.wal, o), ci)
    ensures Markers(Events(d.wal, o)) != [] && Markers(Events(d.wal, o))[0] == m && m.Persisted?
    ensures m.attempt != "" && m.commitId != "" && Trade(o, m.attempt) in SavedBy(d, Book(d)[o].strategy).trades
  {
    assert StatusOk(d) && o != "";
    MarkerIff(d, o);
    EventMembers(d.wal, o);
    FilterMembers(Events(d.wal, o), IsPersisted());
    m := Markers(Events(d.wal, o))[0];
    assert m in Markers(Events(d.wal, o));
    assert RecordFits(d, m);
    ci :| ci in d.wal && ci.CommitIntent? && ci.commitId == m.commitId && ci.post == m.post
          && FillRef(m.order, m.attempt, m.fillingHash) in ci.fills;
    NamedResolves(d, ci, FillRef(m.order, m.attempt, m.fillingHash));
    RefLookup(d.wal, ci, FillRef(m.order, m.attempt, m.fillingHash));
    assert RecordFits(d, ci);
  }

  /**
   * In every reachable state, whatever crashed before: each order's effect is in its saved portfolio at
   * most once, and an EXECUTED order has a strict chain naming a fill attempt the saved portfolio contains.
   */
  lemma CrashSafe(states: seq<State>, i: nat)
    requires IsRun(states) && i < |states|
    ensures
      var d := states[i].disk;
      && (forall s, j, k :: 0 <= j < k < |SavedBy(d, s).trades| ==>
            SavedBy(d, s).trades[j].order != SavedBy(d, s).trades[k].order)
      && (forall o :: o in Book(d) && Book(d)[o].status == Executed ==>
            ChainOf(d, o).Ok?
            && Trade(o, ChainOf(d, o).value.filling.attempt) in SavedBy(d, Book(d)[o].strategy).trades)
  {
    var d := states[i].disk;
    RunKeepsInv(states, i);
    forall s, j, k | 0 <= j < k < |SavedBy(d, s).trades|
      ensures SavedBy(d, s).trades[j].order != SavedBy(d, s).trades[k].order
    {
      assert TradesOk(d, s);
    }
    forall o | o in Book(d) && Book(d)[o].status == Executed
      ensures ChainOf(d, o).Ok?
              && Trade(o, ChainOf(d, o).value.filling.attempt) in SavedBy(d, Book(d)[o].strategy).trades
    {
      assert StatusOk(d);
      MarkerChain(d, o);
    }
  }

  /**
   * In every reachable state: the log is coherent, so that only the amounts of a filling can make the
   * loader refuse it; an order with a persisted marker is SETTLING or EXECUTED, never queued for retry and
   * never failed; and all its markers name one attempt.
   */
  lemma MarkedOrders(states: seq<State>, i: nat)
    requires IsRun(states) && i < |states|
    ensures
      var d := states[i].disk;
      && Coherent(d.wal) && IdsPresent(d.wal) && (Accepted(d.wal) <==> AllPriced(d.wal))
      && (forall b :: b in d.wal && b.Persisted? ==>
            b.order in Book(d) && (Book(d)[b.order].status == Settling || Book(d)[b.order].status == Executed))
      && (forall b, c :: b in d.wal && c in d.wal && b.Persisted? && c.Persisted? && b.order == c.order ==>
            b.attempt == c.attempt)
  {
    var d := states[i].disk;
    RunKeepsInv(states, i);
    forall b | b in d.wal
      ensures RecordFits(d, b)
      ensures b.Persisted? ==> b.order in Book(d) && (Book(d)[b.order].status == Settling || Book(d)[b.order].status == Executed)
    {
      if b.Persisted? {
        assert HasMarker(d, b.order);
        PendingHasNoMarker(d, b.order);
      }
    }
    forall b, c | b in d.wal && c in d.wal && b.Persisted? && c.Persisted? && b.order == c.order
      ensures b.attempt == c.attempt
    {
      assert RecordFits(d, b) && RecordFits(d, c) && TradesOk(d, Book(d)[b.order].strategy);
    }
  }

  /**
   * Exactly-once accounting: once recovery of a strategy has completed, the EXECUTED orders of the
   * strategy are precisely the orders whose fill its saved portfolio contains.
   */
  lemma ExactlyOnce(states: seq<State>, i: nat, s: string)
    requires IsRun(states) && i < |states| && states[i].process == Recovered(s)
    ensures
      var d := states[i].disk;
      forall o :: o in Book(d) && Book(d)[o].strategy == s ==>
        (Book(d)[o].status == Executed <==> exists t :: t in SavedBy(d, s).trades && t.order == o)
  {
    var d := states[i].disk;
    RunKeepsInv(states, i);
    forall o | o in Book(d) && Book(d)[o].strategy == s
      ensures Book(d)[o].status == Executed <==> exists t :: t in SavedBy(d, s).trades && t.order == o
    {
      assert StatusOk(d) && !InFlight(d, s, o);
      if Book(d)[o].status == Executed {
        MarkerChain(d, o);
        var t := Trade(o, ChainOf(d, o).value.filling.attempt);
        assert t in SavedBy(d, s).trades && t.order == o;
      } else {
        assert !Applied(d, o);
      }
    }
  }

  // -------------------------------------------------------------------------
  // What never changes again
  // -------------------------------------------------------------------------

  /** Known orders stay known, terminal statuses stay, and saved fills stay saved. */
  ghost predicate Settled(d: Disk, d': Disk) {
    && (forall o :: o in Book(d) ==> o in Book(d') && (Terminal(Book(d)[o].status) ==> Book(d')[o].status == Book(d)[o].status))
    && (forall s :: SavedBy(d, s).trades <= SavedBy(d', s).trades)
  }

  lemma StepSettled(st: State, st': State, step: Step)
    requires Inv(st) && Takes(st, st', step)
    ensures Settled(st.disk, st'.disk)
  {
    hide DiskOk, ProcessOk, RecoveryStep, FinishStep, Coherent, Settled, FreshFilling, Lists, Outcome;
    var d, d', p := st.disk, st'.disk, st.process;
    if step.RecoveryWrite? {
      RecoverySettled(st, st');
    } else if step.FinishFill? {
      FinishSettled(st, st');
    } else if step.Annotate? {
      AnnotateSettled(st, st');
    } else if step.SaveState? {
      SaveSettled(st, st');
    } else if step.CreateOrder? {
      SnapshotSettled(d, step.order);
    } else if step.Expire? || step.SetAside? || step.GuardFires? {
      var o := step.o;
      assert Book(d)[o].id == o;
      SnapshotSettled(d, WithStatus(d, o, if step.Expire? then Expired else if step.GuardFires? then FailedReconciliation else step.status));
    } else {
      SameOrdersSettled(d, d');
    }
  }

  /** A write to the log of fills touches neither orders nor portfolios. */
  lemma SameOrdersSettled(d: Disk, d': Disk)
    requires d'.log == d.log && d'.saved == d.saved
    ensures Settled(d, d')
  {
  }

  lemma RecoverySettled(st: State, st': State)
    requires Inv(st) && RecoveryStep(st, st')
    ensures Settled(st.disk, st'.disk)
  {
    hide DiskOk, Outcome, Settled, Marker, NeedsMarker, ViewOf;
    var d, p := st.disk, st.process;
    var o := p.todo[p.n];
    assert RecoveryJob(d, p, p.n) && Book(d)[o].id == o;
    if MarkerNext(p) {
      SameOrdersSettled(d, st'.disk);
    } else {
      SnapshotSettled(d, p.view.orders[o].(status := Outcome(p.view, o)));
    }
  }

  lemma FinishSettled(st: State, st': State)
    requires FinishStep(st, st')
    ensures Settled(st.disk, st'.disk)
  {
    hide Settled;
    var d, p := st.disk, st.process;
    var o := p.run.fills[p.k].order;
    assert Book(d)[o].id == o;
    if p.noted {
      SnapshotSettled(d, WithStatus(d, o, Executed));
    } else {
      SameOrdersSettled(d, st'.disk);
    }
  }

  lemma AnnotateSettled(st: State, st': State)
    requires Inv(st) && Takes(st, st', Annotate)
    ensures Settled(st.disk, st'.disk)
  {
    hide DiskOk, Settled, TradingOk, MemoryOk, Unclaimed;
    var d, o := st.disk, st.process.ref.order;
    assert Book(d)[o].id == o;
    SnapshotSettled(d, WithStatus(d, o, Settling));
  }

  lemma SaveSettled(st: State, st': State)
    requires Inv(st) && Takes(st, st', SaveState)
    ensures Settled(st.disk, st'.disk)
  {
    hide DiskOk, TradingOk, Settled;
    SavedElsewhere(st.disk, st.process.run.strategy, st.process.run.memory);
    SavedSettled(st.disk, st.process.run.strategy, st.process.run.memory);
  }

  lemma SavedSettled(d: Disk, s: string, memory: Portfolio)
    requires SavedBy(d, s).trades <= memory.trades
    ensures Settled(d, Apply(d, SavePortfolio(s, memory)))
  {
    SavedElsewhere(d, s, memory);
  }

  lemma SnapshotSettled(d: Disk, order: Order)
    requires order.id in Book(d) ==> !Terminal(Book(d)[order.id].status)
    ensures Settled(d, Apply(d, SaveOrder(order)))
  {
    CurrentAfterSave(d.log, order);
    assert forall s :: SavedBy(Apply(d, SaveOrder(order)), s) == SavedBy(d, s);
  }

  /** Along every run, terminal statuses and saved fills are permanent. */
  lemma {:induction false} Permanent(states: seq<State>, i: nat, j: nat)
    requires IsRun(states) && i <= j < |states|
    ensures Settled(states[i].disk, states[j].disk)
    decreases j
  {
    hide Settled, Inv, Takes, IsRun;
    SettledStays(states[i].disk);
    if i < j {
      Permanent(states, i, j - 1);
      RunKeepsInv(states, j - 1);
      var step := StepAt(states, j);
      StepSettled(states[j - 1], states[j], step);
      SettledChain(states[i].disk, states[j - 1].disk, states[j].disk);
    }
  }

  lemma StepAt(states: seq<State>, j: nat) returns (step: Step)
    requires IsRun(states) && 0 < j < |states|
    ensures Takes(states[j - 1], states[j], step)
  {
    hide Takes;
    assert Next(states[j - 1], states[j - 1 + 1]);
    step :| Takes(states[j - 1], states[j], step);
  }

  lemma SettledStays(d: Disk)
    ensures Settled(d, d)
  {
  }

  lemma SettledChain(a: Disk, b: Disk, c: Disk)
    requires Settled(a, b) && Settled(b, c)
    ensures Settled(a, c)
  {
    forall s
      ensures SavedBy(a, s).trades <= SavedBy(c, s).trades
    {
      assert SavedBy(a, s).trades <= SavedBy(b, s).trades <= SavedBy(c, s).trades;
    }
  }

  // -------------------------------------------------------------------------
  // Where the crash falls
  // -------------------------------------------------------------------------

  /**
   * Crash between the commit intent and the portfolio save: recovery, if the loader lets it begin, queues
   * every fill for retry if the portfolio on disk is still what the run started from after marking to market,
   * and rejects every fill otherwise.
   */
  lemma CrashBeforeSave(states: seq<State>, i: nat, o: string)
    requires IsRun(states) && i < |states| && states[i].process.Committed?
    requires InFlight(states[i].disk, states[i].process.run.strategy, o)
    ensures
      var d, p := states[i].disk, states[i].process;
      Outcome(ViewOf(d, p.run.strategy), o) ==
        if p.run.pre == SavedBy(d, p.run.strategy) then PendingPrice else FailedReconciliation
  {
    RunKeepsInv(states, i);
    hide Inv, DiskOk, Alone;
    var d, run, ci := states[i].disk, states[i].process.run, states[i].process.intent;
    CommittedVerdict(d, run, ci, o);
    BatchOutcome(ViewOf(d, run.strategy), ci, o);
  }

  lemma CommittedVerdict(d: Disk, run: Run, ci: Body, o: string)
    requires DiskOk(d) && ProcessOk(d, Committed(run, ci)) && InFlight(d, run.strategy, o)
    ensures var v := ViewOf(d, run.strategy);
            InBatch(v, ci, o) && Decide(v, ci) == if ci.pre == Some(v.current) then PortfolioUnsaved else Rejected
  {
    hide Coherent, RefFits, BooksOk, StatusOk, FlightOk, Markers, Applied, MemoryOk;
    var s, v := run.strategy, ViewOf(d, run.strategy);
    assert InBatch(v, ci, o);
    forall other | Active(v, other)
      ensures other == ci
    {
      var o' :| InBatch(v, other, o');
      assert InFlight(d, s, o');
    }
    forall r | r in ci.fills
      ensures RefFits(v, ci, r) && Due(v, r.order) && Markers(Events(d.wal, r.order)) == []
    {
      CommittedRefFits(d, run, ci, r);
    }
    assert RecordFits(d, ci);
    CommittedUnclaimed(v, ci);
    NotYetPost(d, run, ci);
  }

  lemma CommittedUnclaimed(v: View, ci: Body)
    requires ci.CommitIntent?
    requires forall r :: r in ci.fills ==> Due(v, r.order) && Markers(Events(v.wal, r.order)) == []
    ensures !ClaimsSaved(v, ci)
  {
    forall o | InBatch(v, ci, o)
      ensures Markers(Events(v.wal, o)) == []
    {
      var r :| r in ci.fills && r.order == o;
    }
  }

  /** Before the save the portfolio on disk is not at the post state. */
  lemma NotYetPost(d: Disk, run: Run, ci: Body)
    requires DiskOk(d) && ProcessOk(d, Committed(run, ci))
    ensures ci.CommitIntent? && ci.post != Some(StateHash(SavedBy(d, run.strategy)))
  {
    var r := run.fills[0];
    assert r in ci.fills && RecordFits(d, ci) && r.order in OrdersIn(run.fills);
    assert InFlight(d, run.strategy, r.order) && !Applied(d, r.order);
    assert Trade(r.order, r.attempt) in ci.post.value.of.trades;
    assert Trade(r.order, r.attempt) !in SavedBy(d, run.strategy).trades;
  }

  lemma CommittedRefFits(d: Disk, run: Run, ci: Body, r: FillRef)
    requires DiskOk(d) && ProcessOk(d, Committed(run, ci)) && r in ci.fills
    ensures RefFits(ViewOf(d, run.strategy), ci, r) && Due(ViewOf(d, run.strategy), r.order)
    ensures Markers(Events(d.wal, r.order)) == []
  {
    RefLookup(d.wal, ci, r);
    NamedResolves(d, ci, r);
    assert r.order in OrdersIn(run.fills);
    assert InFlight(d, run.strategy, r.order);
    MarkerIff(d, r.order);
    if HasMarker(d, r.order) {
      PendingHasNoMarker(d, r.order);
    }
  }

  /** Recovery of the strategy can begin: the loader accepts the log. */
  ghost predicate RecoveryStarts(d: Disk, s: string) {
    exists todo :: Takes(State(d, Resting), State(d, Recovering(s, ViewOf(d, s), todo, 0, false)), BeginRecovery(s, todo))
  }

  /** After any crash recovery begins exactly if the amounts of every filling on record are accepted. */
  lemma RecoveryStartsIff(states: seq<State>, i: nat, s: string)
    requires IsRun(states) && i < |states|
    ensures RecoveryStarts(states[i].disk, s) <==> AllPriced(states[i].disk.wal)
    ensures AllPriced(states[i].disk.wal) <==> Accepted(states[i].disk.wal)
    ensures !RecoveryStarts(states[i].disk, s) ==>
              Takes(State(states[i].disk, Resting), State(states[i].disk, Resting), RefuseRecovery(s))
  {
    hide Coherent, AllPriced, Lists, IdsPresent;
    MarkedOrders(states, i);
    var d := states[i].disk;
    if Accepted(d.wal) {
      var rivals, own, loose := GroupedListing(ViewOf(d, s), FRESH_INTENT);
      var todo := rivals + own + loose;
      assert Takes(State(d, Resting), State(d, Recovering(s, ViewOf(d, s), todo, 0, false)), BeginRecovery(s, todo));
    }
  }

  const FRESH_INTENT := Unrecognised("")

  /**
   * Crash after the portfolio save: every fill still in flight is decided EXECUTED, and recovery gets to
   * decide exactly if the loader accepts the amounts of every filling on record.
   */
  lemma CrashAfterSave(states: seq<State>, i: nat, o: string)
    requires IsRun(states) && i < |states| && states[i].process.Finishing?
    requires InFlight(states[i].disk, states[i].process.run.strategy, o)
    ensures Outcome(ViewOf(states[i].disk, states[i].process.run.strategy), o) == Executed
    ensures RecoveryStarts(states[i].disk, states[i].process.run.strategy) <==> AllPriced(states[i].disk.wal)
  {
    RunKeepsInv(states, i);
    LandedDecision(states[i].disk, states[i].process.run.strategy, states[i].process.ci, o);
    RecoveryStartsIff(states, i, states[i].process.run.strategy);
  }

  // -------------------------------------------------------------------------
  // Crash before the commit intent
  // -------------------------------------------------------------------------

  /** Every fill the commit intent names is in flight again, with no later commit intent naming it. */
  ghost predicate WholeBatch(v: View, ci: Body)
    requires ci.CommitIntent?
  {
    forall r :: r in ci.fills ==> InBatch(v, ci, r.order)
  }

  /** While a run trades, no order in flight of its strategy has a marker. */
  lemma TradingUnmarked(d: Disk, run: Run, o: string)
    requires DiskOk(d) && TradingOk(d, run) && InFlight(d, run.strategy, o)
    ensures Markers(Events(d.wal, o)) == [] && !Applied(d, o) && o != ""
  {
    TradingMeansUnlanded(d, run);
    assert StatusOk(d) && o != "";
    MarkerIff(d, o);
    if HasMarker(d, o) {
      PendingHasNoMarker(d, o);
    }
  }

  /** An older commit intent is not at its post state: it promised a fill that was never saved. */
  lemma OlderNotPost(d: Disk, run: Run, ci: Body, o: string)
    requires DiskOk(d) && TradingOk(d, run) && InBatch(ViewOf(d, run.strategy), ci, o)
    ensures ci.CommitIntent? && ci in d.wal && ci.strategy == run.strategy
    ensures ci.post != Some(StateHash(SavedBy(d, run.strategy)))
  {
    var s := run.strategy;
    IntentMembers(d.wal);
    assert RecordFits(d, ci);
    var r :| r in ci.fills && r.order == o;
    assert InFlight(d, s, o);
    TradingUnmarked(d, run, o);
    assert Trade(r.order, r.attempt) in ci.post.value.of.trades;
    assert Trade(r.order, r.attempt) !in SavedBy(d, s).trades;
  }

  lemma WholeBatchFits(d: Disk, run: Run, ci: Body)
    requires DiskOk(d) && TradingOk(d, run) && ci in d.wal && ci.CommitIntent?
    requires WholeBatch(ViewOf(d, run.strategy), ci)
    ensures BatchFits(ViewOf(d, run.strategy), ci) && !ClaimsSaved(ViewOf(d, run.strategy), ci)
  {
    hide Applied, FlightOk, BooksOk, StatusOk, TradingOk;
    var v := ViewOf(d, run.strategy);
    assert RecordFits(d, ci);
    forall r | r in ci.fills
      ensures RefFits(v, ci, r) && Due(v, r.order) && Markers(Events(v.wal, r.order)) == []
    {
      assert InBatch(v, ci, r.order) && InFlight(d, run.strategy, r.order);
      TradingUnmarked(d, run, r.order);
      NamedResolves(d, ci, r);
    }
    CommittedUnclaimed(v, ci);
  }

  lemma FitsOnlyWhole(d: Disk, run: Run, ci: Body, o: string)
    requires DiskOk(d) && TradingOk(d, run) && InBatch(ViewOf(d, run.strategy), ci, o) && ci.CommitIntent?
    requires BatchFits(ViewOf(d, run.strategy), ci) && !ClaimsSaved(ViewOf(d, run.strategy), ci)
    ensures WholeBatch(ViewOf(d, run.strategy), ci)
  {
    hide Applied, FlightOk, BooksOk, StatusOk, TradingOk;
    var s, v := run.strategy, ViewOf(d, run.strategy);
    IntentMembers(d.wal);
    assert RecordFits(d, ci);
    forall r | r in ci.fills
      ensures InBatch(v, ci, r.order)
    {
      assert RefFits(v, ci, r);
      assert v.orders[r.order].status == Settling && v.orders[r.order].strategy == s;
      assert NamesOrder(ci, r.order);
      NamedIsMapped(v, ci, r.order);
    }
  }

  /** What Phase 1 says of an older commit intent on its own, while a run trades. */
  lemma OlderAlone(d: Disk, run: Run, ci: Body, o: string)
    requires DiskOk(d) && TradingOk(d, run) && InBatch(ViewOf(d, run.strategy), ci, o)
    ensures ci.CommitIntent?
    ensures var v := ViewOf(d, run.strategy);
            Alone(v, ci) == if WholeBatch(v, ci) && ci.pre == Some(v.current) then PortfolioUnsaved else Rejected
  {
    hide DiskOk, TradingOk, BatchFits, ClaimsSaved, WholeBatch, InBatch;
    OlderNotPost(d, run, ci, o);
    var v := ViewOf(d, run.strategy);
    if WholeBatch(v, ci) {
      WholeBatchFits(d, run, ci);
    } else if BatchFits(v, ci) && !ClaimsSaved(v, ci) {
      FitsOnlyWhole(d, run, ci, o);
    }
  }

  /** Nothing older stands against retrying the order. */
  ghost predicate FreeToRetry(v: View, o: string) {
    match IntentOf(v, o)
    case None => true
    case Some(ci) => !Contested(v, ci) && WholeBatch(v, ci) && ci.pre == Some(v.current)
  }

  /**
   * Crash before the commit intent, be it between a filling record and its SETTLING snapshot: every order
   * in flight is queued for retry if no older commit intent names it, or
   * the last one that does is uncontested, has all its fills in flight again and was taken from the
   * portfolio on disk. Otherwise the order is rejected, although nothing of it was saved.
   */
  lemma CrashBeforeIntent(states: seq<State>, i: nat, o: string)
    requires IsRun(states) && i < |states| && (states[i].process.Trading? || states[i].process.Annotating?)
    requires InFlight(states[i].disk, states[i].process.run.strategy, o)
    ensures
      var v := ViewOf(states[i].disk, states[i].process.run.strategy);
      Outcome(v, o) == if FreeToRetry(v, o) then PendingPrice else FailedReconciliation
  {
    RunKeepsInv(states, i);
    hide DiskOk, Alone, WholeBatch, Contested;
    var d, run := states[i].disk, states[i].process.run;
    var v := ViewOf(d, run.strategy);
    match IntentOf(v, o) {
      case None => LooseTrusted(d, run, o);
      case Some(ci) =>
        assert InBatch(v, ci, o);
        OlderAlone(d, run, ci, o);
        BatchOutcome(v, ci, o);
    }
  }

  lemma LooseTrusted(d: Disk, run: Run, o: string)
    requires DiskOk(d) && TradingOk(d, run) && InFlight(d, run.strategy, o)
    requires IntentOf(ViewOf(d, run.strategy), o).None?
    ensures Outcome(ViewOf(d, run.strategy), o) == PendingPrice
  {
    TradingUnmarked(d, run, o);
    EventMembers(d.wal, o);
    FilterMembers(Events(d.wal, o), IsPersisted());
    forall b | b in Events(d.wal, o)
      ensures !Untrusted(b)
    {
      assert RecordFits(d, b);
      assert b.Persisted? ==> b in Markers(Events(d.wal, o));
    }
  }

  // -------------------------------------------------------------------------
  // The trade table
  // -------------------------------------------------------------------------

  /**
   * In every reachable state the projection succeeds exactly if the loader accepts the amounts of every
   * filling, and then represents every executed trade.
   */
  lemma ProjectionCovers(states: seq<State>, i: nat, listing: seq<string>, rows: seq<Row>)
    requires IsRun(states) && i < |states|
    requires forall o :: o in Book(states[i].disk) ==> o in listing
    ensures
      var d := states[i].disk;
      var projected := LoadAndProject(d.wal, listing, rows);
      && (projected.Ok? <==> AllPriced(d.wal))
      && (projected.Ok? ==>
            forall o :: o in Book(d) && Book(d)[o].status == Executed ==>
              ChainOf(d, o).Ok? && Represented(ChainOf(d, o).value.filling, projected.value))
  {
    var d := states[i].disk;
    RunKeepsInv(states, i);
    MarkedOrders(states, i);
    hide LogOk, BooksOk, FlightOk, Coherent, AllPriced;
    forall o
      ensures Replayable(o, Events(d.wal, o), Intents(d.wal)).Ok?
      ensures HasMarker(d, o) ==> ChainOf(d, o).Ok?
      ensures HasMarker(d, o) ==>
                Replayable(o, Events(d.wal, o), Intents(d.wal)) == Ok(Some(ChainOf(d, o).value.filling))
    {
      OrderReplays(d, o);
    }
    ProjectionSucceeds(d.wal, listing, rows);
    ProjectionIsComplete(d.wal, listing, rows);
    assert StatusOk(d);
  }

  lemma OrderReplays(d: Disk, o: string)
    requires DiskOk(d)
    ensures Replayable(o, Events(d.wal, o), Intents(d.wal)).Ok?
    ensures HasMarker(d, o) ==> ChainOf(d, o).Ok?
    ensures HasMarker(d, o) ==>
              Replayable(o, Events(d.wal, o), Intents(d.wal)) == Ok(Some(ChainOf(d, o).value.filling))
  {
    if HasMarker(d, o) {
      MarkerChain(d, o);
      NonEmptyTradeId(d, o);
    } else if o != "" {
      MarkerIff(d, o);
    } else {
      EventMembers(d.wal, o);
      FilterMembers(Events(d.wal, o), IsPersisted());
      FilterNone(Events(d.wal, o), IsPersisted());
    }
  }

  lemma NonEmptyTradeId(d: Disk, o: string)
    requires DiskOk(d) && HasMarker(d, o)
    ensures ChainOf(d, o).Ok? && ChainOf(d, o).value.filling.tradeId == MakeTradeId(o) != ""
  {
    MarkerChain(d, o);
    assert RecordFits(d, ChainOf(d, o).value.filling);
  }

  lemma {:induction false} ProjectionSucceeds(wal: seq<Body>, listing: seq<string>, rows: seq<Row>)
    requires forall o :: Replayable(o, Events(wal, o), Intents(wal)).Ok?
    ensures Project(wal, listing, rows).Ok?
  {
    if listing != [] {
      ProjectionSucceeds(wal, listing[..|listing| - 1], rows);
    }
  }
}
