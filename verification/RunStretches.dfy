/** Stretches of a protocol run from one write to the next, to build whole runs from. */
module RunStretches {
  import opened Sequences
  import opened Rounding
  import opened FillRecords
  import opened FillChain
  import opened Orders
  import opened Storage
  import opened Settlement
  import opened Restart
  import opened Recovery
  import opened CrashModel
  import opened CrashInvariant
  import opened CrashDisk
  import opened CrashTrading
  import opened CrashSafety
  import opened StrategyRun

  lemma ReachableFacts(st: State)
    requires Reachable(st)
    ensures Inv(st) && Coherent(st.disk.wal) && IdsPresent(st.disk.wal)
  {
    hide Inv, Coherent, IdsPresent;
    var states :| IsRun(states) && states[|states| - 1] == st;
    RunKeepsInv(states, |states| - 1);
    MarkedOrders(states, |states| - 1);
  }

  lemma Crashes(d: Disk, p: Process)
    requires Reachable(State(d, p))
    ensures Reachable(State(d, Resting))
  {
    ReachStep(State(d, p), State(d, Resting), Crash);
  }

  /** Recovery finds nothing in flight and trading begins, the portfolio marked to market. */
  lemma Resumes(d: Disk, s: string, content: int)
    requires Reachable(State(d, Resting)) && AllPriced(d.wal) && forall o :: !InFlight(d, s, o)
    ensures var marked := SavedBy(d, s).(content := content);
            Reachable(State(d, Trading(Run(s, marked, marked, []))))
  {
    hide Reachable, Inv, Coherent, AllPriced, IdsPresent, Outcome;
    ReachableFacts(State(d, Resting));
    var v, marked := ViewOf(d, s), SavedBy(d, s).(content := content);
    assert forall o :: !Due(v, o) by { assert forall o :: InFlight(d, s, o) <==> Due(v, o); }
    ReachStep(State(d, Resting), State(d, Recovering(s, v, [], 0, false)), BeginRecovery(s, []));
    ReachStep(State(d, Recovering(s, v, [], 0, false)), State(d, Recovered(s)), EndRecovery);
    ReachStep(State(d, Recovered(s)), State(d, Trading(Run(s, marked, marked, []))), BeginTrading(content));
  }

  lemma Creates(d: Disk, run: Run, order: Order) returns (d': Disk)
    requires Reachable(State(d, Trading(run))) && order.id != "" && order.id !in Book(d)
    requires order.strategy == run.strategy && order.status == PendingPrice
    requires order.portfolioId == PortfolioId(order.strategy) && order.portfolioVersion == PORTFOLIO_VERSION
    ensures Reachable(State(d', Trading(run)))
    ensures d'.wal == d.wal && d'.saved == d.saved && Book(d') == Book(d)[order.id := order]
  {
    hide Reachable;
    d' := Apply(d, SaveOrder(order));
    CurrentAfterSave(d.log, order);
    ReachStep(State(d, Trading(run)), State(d', Trading(run)), CreateOrder(order));
  }

  lemma Fills(d: Disk, run: Run, f: Body, content: int) returns (d': Disk)
    requires Reachable(State(d, Trading(run))) && FreshFilling(d, run.strategy, f)
    ensures f.Filling? && f.order in Book(d)
    ensures Reachable(State(d', Trading(AfterFill(run, f, content))))
    ensures d'.wal == d.wal + [f] && d'.saved == d.saved
    ensures Book(d') == Book(d)[f.order := Book(d)[f.order].(status := Settling)]
  {
    hide Reachable, CrashReachable;
    FillIsPath(d, run, f, content);
    var ws := FillWrites(d, f);
    PrefixesOfTwo(d, ws);
    d' := ApplyAll(d, ws);
    assert Book(d)[f.order].id == f.order;
    CurrentAfterSave(d.log, WithStatus(d, f.order, Settling));
  }

  lemma Intends(d: Disk, run: Run, commitId: string) returns (d': Disk)
    requires Reachable(State(d, Trading(run))) && run.fills != [] && commitId != ""
    requires forall b :: b in d.wal && b.CommitIntent? ==> b.commitId != commitId
    ensures Reachable(State(d', Committed(run, IntentFor(run, commitId))))
    ensures d'.wal == d.wal + [IntentFor(run, commitId)] && d'.saved == d.saved && Book(d') == Book(d)
  {
    hide Reachable;
    d' := Apply(d, AppendFill(IntentFor(run, commitId)));
    CommitSteps(d, run, commitId);
    ReachStep(State(d, Trading(run)), State(d', Committed(run, IntentFor(run, commitId))), WriteIntent(commitId));
  }

  lemma Saves(d: Disk, run: Run, ci: Body) returns (d': Disk)
    requires Reachable(State(d, Committed(run, ci)))
    ensures Reachable(State(d', Finishing(run, ci, 0, false)))
    ensures d'.wal == d.wal && d'.saved == d.saved[run.strategy := run.memory] && Book(d') == Book(d)
  {
    hide Reachable;
    d' := Apply(d, SavePortfolio(run.strategy, run.memory));
    ReachStep(State(d, Committed(run, ci)), State(d', Finishing(run, ci, 0, false)), SaveState);
  }

  /** The only fill of a run is finished: marker, EXECUTED, end of the run. */
  lemma FinishesOnly(d: Disk, run: Run, ci: Body) returns (d': Disk)
    requires Reachable(State(d, Finishing(run, ci, 0, false))) && |run.fills| == 1 && ci.CommitIntent?
    requires run.fills[0].order in Book(d)
    ensures Reachable(State(d', Resting))
    ensures d'.wal == d.wal + [MarkerOf(run.fills[0], ci)] && d'.saved == d.saved
    ensures Book(d') == Book(d)[run.fills[0].order := Book(d)[run.fills[0].order].(status := Executed)]
  {
    hide Reachable, Inv;
    var r, start := run.fills[0], Finishing(run, ci, 0, false);
    ReachableFacts(State(d, start));
    FinishSteps(d, start, 1, d);
    var noted := State(Apply(d, AppendFill(MarkerOf(r, ci))), Finishing(run, ci, 0, true));
    var order := Book(d)[r.order].(status := Executed);
    d' := Apply(noted.disk, SaveOrder(order));
    ReachStep(State(d, start), noted, Step.FinishFill);
    ReachStep(noted, State(d', Finishing(run, ci, 1, false)), Step.FinishFill);
    ReachStep(State(d', Finishing(run, ci, 1, false)), State(d', Resting), EndRun);
    assert Book(d)[r.order].id == r.order;
    CurrentAfterSave(noted.disk.log, order);
  }

  /** The orders of a listing are all to be retried, so that Phase 2 only saves their snapshots. */
  lemma {:induction false} QuietPlan(d: Disk, s: string, todo: seq<string>)
    requires forall o :: o in todo ==> Due(ViewOf(d, s), o) && Outcome(ViewOf(d, s), o) == PendingPrice
    ensures var d' := ApplyAll(d, Plan(ViewOf(d, s), todo));
            && d'.wal == d.wal && d'.saved == d.saved && Book(d').Keys == Book(d).Keys
            && forall o :: o in Book(d) ==>
                 Book(d')[o] == if o in todo then Book(d)[o].(status := PendingPrice) else Book(d)[o]
  {
    hide Outcome, Due, Current, WritesFor, SavedBy, ViewOf;
    var v := ViewOf(d, s);
    if todo != [] {
      var front, o := todo[..|todo| - 1], todo[|todo| - 1];
      assert todo == front + [o];
      QuietPlan(d, s, front);
      DueOrder(d, s, o);
      var order := v.orders[o].(status := PendingPrice);
      QuietWrites(v, o);
      ApplySnoc(d, Plan(v, front), SaveOrder(order));
      CurrentAfterSave(ApplyAll(d, Plan(v, front)).log, order);
    }
  }

  lemma QuietWrites(v: View, o: string)
    requires Due(v, o) && Outcome(v, o) == PendingPrice
    ensures WritesFor(v, o) == [SaveOrder(v.orders[o].(status := PendingPrice))]
  {
    hide Outcome, IntentOf, Marker;
  }

  lemma DueOrder(d: Disk, s: string, o: string)
    requires Due(ViewOf(d, s), o)
    ensures o in Book(d) && ViewOf(d, s).orders == Book(d) && Book(d)[o].id == o
  {
  }

  /** Recovery queues everything in flight for retry. */
  lemma Retries(d: Disk, s: string) returns (d': Disk)
    requires Reachable(State(d, Resting)) && AllPriced(d.wal)
    requires forall o :: InFlight(d, s, o) ==> Outcome(ViewOf(d, s), o) == PendingPrice
    ensures Reachable(State(d', Resting)) && d'.wal == d.wal && d'.saved == d.saved
    ensures Book(d').Keys == Book(d).Keys && forall o :: !InFlight(d', s, o)
    ensures forall o :: o in Book(d) ==>
              Book(d')[o] == if InFlight(d, s, o) then Book(d)[o].(status := PendingPrice) else Book(d)[o]
  {
    hide Reachable, Outcome, Coherent, AllPriced, IdsPresent, Plan, CrashReachable, Grouped, Inv;
    ReachableFacts(State(d, Resting));
    var v := ViewOf(d, s);
    var rivals, own, loose := GroupedListing(v, FRESH_INTENT);
    var todo := rivals + own + loose;
    var plan := Plan(v, todo);
    RecoveryIsPath(d, s, todo, |plan|);
    assert plan[..|plan|] == plan;
    d' := ApplyAll(d, plan);
    var p :| Reachable(State(d', p)) by { assert CrashReachable(d, plan, |plan|); CrashPoint(d, plan); }
    Crashes(d', p);
    QuietPlan(d, s, todo);
  }

  lemma CrashPoint(d: Disk, ws: seq<Write>)
    requires CrashReachable(d, ws, |ws|)
    ensures exists p :: Reachable(State(ApplyAll(d, ws), p))
  {
    assert ws[..|ws|] == ws;
  }

  /** What recovery decides after a crash just before the save. */
  lemma DecidedBeforeSave(d: Disk, run: Run, ci: Body, o: string)
    requires Reachable(State(d, Committed(run, ci))) && InFlight(d, run.strategy, o)
    ensures Outcome(ViewOf(d, run.strategy), o) ==
            if run.pre == SavedBy(d, run.strategy) then PendingPrice else FailedReconciliation
  {
    hide Outcome;
    var states :| IsRun(states) && states[|states| - 1] == State(d, Committed(run, ci));
    CrashBeforeSave(states, |states| - 1, o);
  }

  lemma DecidedBeforeIntent(d: Disk, run: Run, o: string)
    requires Reachable(State(d, Trading(run))) && InFlight(d, run.strategy, o)
    ensures var v := ViewOf(d, run.strategy);
            Outcome(v, o) == if FreeToRetry(v, o) then PendingPrice else FailedReconciliation
  {
    hide Outcome, FreeToRetry;
    var states :| IsRun(states) && states[|states| - 1] == State(d, Trading(run));
    CrashBeforeIntent(states, |states| - 1, o);
  }

  lemma DecidedAfterSave(d: Disk, run: Run, ci: Body, o: string)
    requires Reachable(State(d, Finishing(run, ci, 0, false))) && InFlight(d, run.strategy, o)
    ensures Outcome(ViewOf(d, run.strategy), o) == Executed
  {
    hide Outcome;
    var states :| IsRun(states) && states[|states| - 1] == State(d, Finishing(run, ci, 0, false));
    CrashAfterSave(states, |states| - 1, o);
  }
}
