/**
 * The fill-commit protocol as a state machine: the disk, the volatile process, and one step per
 * durable write, with a crash possible between any two of them.
 */
module CrashModel {
  import opened Sequences
  import opened FillRecords
  import opened FillChain
  import opened Orders
  import opened FillWriter
  import opened Storage
  import opened Settlement

  const PORTFOLIO_VERSION := "risk_parity_pyramid_v1"

  /** One portfolio id per strategy. */
  function PortfolioId(strategy: string): string { "portfolio-" + strategy }

  /** A strategy's execution run in memory. */
  datatype Run = Run(strategy: string, pre: Portfolio, memory: Portfolio, fills: seq<FillRef>)

  datatype Process =
    | Resting
    // Phase 2 of recovery: orders `todo[..n]` are done; `marked` if the marker of the next one is.
    | Recovering(strategy: string, view: View, todo: seq<string>, n: nat, marked: bool)
    | Recovered(strategy: string)
    | Trading(run: Run)
    // The filling record is written, the SETTLING snapshot not yet.
    | Annotating(run: Run, ref: FillRef)
    | Committed(run: Run, intent: Body)
    // The portfolio is saved: fills `fills[..k]` are finished; `noted` if the next marker is written.
    | Finishing(run: Run, ci: Body, k: nat, noted: bool)

  datatype State = State(disk: Disk, process: Process)

  datatype Step =
    | Crash
    | Expire(o: string)
    | BeginRecovery(strategy: string, todo: seq<string>)
    | RefuseRecovery(strategy: string)
    | RecoveryWrite
    | EndRecovery
    | GuardFires(o: string)
    | BeginTrading(content: int)
    | CreateOrder(order: Order)
    | SetAside(o: string, status: Status)
    | Revalue(content: int)
    | RecordFill(filling: Body, content: int)
    | Annotate
    | WriteIntent(commitId: string)
    | SaveState
    | FinishFill
    | EndRun

  /** The order map every process finds on disk and mirrors in memory. */
  function Book(d: Disk): map<string, Order> { Current(d.log) }

  function WithStatus(d: Disk, o: string, status: Status): Order
    requires o in Book(d)
  {
    Book(d)[o].(status := status)
  }

  predicate Retryable(d: Disk, strategy: string, o: string) {
    o in Book(d) && Book(d)[o].strategy == strategy && Book(d)[o].status == PendingPrice
  }

  /**
   * The filling record of an order queued for retry, under a new attempt id. The writer checks no amount,
   * so the amounts are arbitrary.
   */
  ghost predicate FreshFilling(d: Disk, strategy: string, f: Body) {
    && f.Filling? && Retryable(d, strategy, f.order) && Executable(Book(d)[f.order].action)
    && f == FillRecord(Book(d)[f.order], f.attempt, f.amounts) && f.attempt != ""
    && forall b :: b in d.wal && b.Filling? ==> b.attempt != f.attempt
  }

  function RefTo(f: Body): FillRef
    requires f.Filling?
  {
    FillRef(f.order, f.attempt, Some(Sha256(f)))
  }

  /** The commit intent of a run, written before its portfolio is saved. */
  function IntentFor(run: Run, commitId: string): Body {
    CommitIntent(commitId, run.strategy, PortfolioId(run.strategy), PORTFOLIO_VERSION,
                 Some(StateHash(run.pre)), Some(StateHash(run.memory)), run.fills, CURRENT_VERSION)
  }

  function MarkerOf(ref: FillRef, ci: Body): Body
    requires ci.CommitIntent?
  {
    Persisted(ref.order, ref.attempt, MakeFillId(ref.order), ref.hash, ci.commitId, ci.post, CURRENT_VERSION)
  }

  predicate Init(st: State) {
    st == State(Disk([], [], map[]), Resting)
  }

  ghost predicate Writes(st: State, st': State, w: Write, p: Process) {
    st' == State(Apply(st.disk, w), p)
  }

  /** The order whose recovery comes next needs a marker first. */
  ghost predicate MarkerNext(p: Process)
    requires p.Recovering? && p.n < |p.todo|
  {
    NeedsMarker(p.view, p.todo[p.n]) && !p.marked
  }

  ghost predicate RecoveryStep(st: State, st': State) {
    && st.process.Recovering? && st.process.n < |st.process.todo|
    && var p := st.process;
    var o := p.todo[p.n];
    && Due(p.view, o)
    && if MarkerNext(p) then
         Writes(st, st', AppendFill(Marker(p.view, o)), Recovering(p.strategy, p.view, p.todo, p.n, true))
       else
         Writes(st, st', SaveOrder(p.view.orders[o].(status := Outcome(p.view, o))),
                Recovering(p.strategy, p.view, p.todo, p.n + 1, false))
  }

  ghost predicate FinishStep(st: State, st': State) {
    && st.process.Finishing? && st.process.k < |st.process.run.fills| && st.process.ci.CommitIntent?
    && var p := st.process;
    var ref := p.run.fills[p.k];
    && ref.order in Book(st.disk) && Book(st.disk)[ref.order].status == Settling
    && if !p.noted then Writes(st, st', AppendFill(MarkerOf(ref, p.ci)), Finishing(p.run, p.ci, p.k, true))
       else Writes(st, st', SaveOrder(WithStatus(st.disk, ref.order, Executed)), Finishing(p.run, p.ci, p.k + 1, false))
  }

  ghost predicate Takes(st: State, st': State, step: Step) {
    var d, p := st.disk, st.process;
    match step
    case Crash => st' == State(d, Resting)
    case Expire(o) =>
      && p.Resting? && o in Book(d) && Book(d)[o].status == PendingPrice
      && Writes(st, st', SaveOrder(WithStatus(d, o, Expired)), p)
    case BeginRecovery(strategy, todo) =>
      && p.Resting? && Accepted(d.wal) && IdsPresent(d.wal) && Lists(ViewOf(d, strategy), todo)
      && st' == State(d, Recovering(strategy, ViewOf(d, strategy), todo, 0, false))
    case RefuseRecovery(_) => p.Resting? && !Accepted(d.wal) && st' == st
    case RecoveryWrite => RecoveryStep(st, st')
    case EndRecovery =>
      && p.Recovering? && p.n == |p.todo|
      && st' == State(d, if exists o :: o in p.todo && Outcome(p.view, o) == FailedReconciliation then Resting
                         else Recovered(p.strategy))
    case GuardFires(o) =>
      && p.Recovered? && Retryable(d, p.strategy, o) && Markers(Events(d.wal, o)) != []
      && Writes(st, st', SaveOrder(WithStatus(d, o, FailedReconciliation)), Resting)
    case BeginTrading(content) =>
      && p.Recovered?
      && var marked := SavedBy(d, p.strategy).(content := content);
         st' == State(d, Trading(Run(p.strategy, marked, marked, [])))
    case CreateOrder(order) =>
      && p.Trading? && order.id != "" && order.id !in Book(d)
      && order.strategy == p.run.strategy && order.status == PendingPrice
      && order.portfolioId == PortfolioId(order.strategy) && order.portfolioVersion == PORTFOLIO_VERSION
      && Writes(st, st', SaveOrder(order), p)
    case SetAside(o, status) =>
      && p.Trading? && Retryable(d, p.run.strategy, o) && (status == PendingPrice || status == Cancelled)
      && Writes(st, st', SaveOrder(WithStatus(d, o, status)), p)
    case Revalue(content) =>
      p.Trading? && st' == State(d, Trading(p.run.(memory := p.run.memory.(content := content))))
    case RecordFill(f, content) =>
      && p.Trading? && FreshFilling(d, p.run.strategy, f)
      && var memory := Portfolio(p.run.memory.trades + [Trade(f.order, f.attempt)], content);
         Writes(st, st', AppendFill(f), Annotating(p.run.(memory := memory), RefTo(f)))
    case Annotate =>
      && p.Annotating? && p.ref.order in Book(d)
      && Writes(st, st', SaveOrder(WithStatus(d, p.ref.order, Settling)),
                Trading(p.run.(fills := p.run.fills + [p.ref])))
    case WriteIntent(commitId) =>
      && p.Trading? && p.run.fills != [] && commitId != ""
      && (forall b :: b in d.wal && b.CommitIntent? ==> b.commitId != commitId)
      && Writes(st, st', AppendFill(IntentFor(p.run, commitId)), Committed(p.run, IntentFor(p.run, commitId)))
    case SaveState =>
      || (p.Trading? && p.run.fills == []
          && Writes(st, st', SavePortfolio(p.run.strategy, p.run.memory), Resting))
      || (p.Committed? && Writes(st, st', SavePortfolio(p.run.strategy, p.run.memory),
                                 Finishing(p.run, p.intent, 0, false)))
    case FinishFill => FinishStep(st, st')
    case EndRun => p.Finishing? && p.k == |p.run.fills| && st' == State(d, Resting)
  }

  ghost predicate Next(st: State, st': State) { exists step :: Takes(st, st', step) }

  /** A run of the system from an empty disk, however often it crashes. */
  ghost predicate IsRun(states: seq<State>) {
    && states != [] && Init(states[0])
    && forall i :: 0 <= i < |states| - 1 ==> Next(states[i], states[i + 1])
  }
}
