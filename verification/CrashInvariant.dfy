/** What every reachable state of the fill-commit protocol satisfies. */
module CrashInvariant {
  import opened Sequences
  import opened FillRecords
  import opened FillChain
  import opened Orders
  import opened Storage
  import opened Settlement
  import opened Recovery
  import opened CrashModel

  // -------------------------------------------------------------------------
  // The disk
  // -------------------------------------------------------------------------

  ghost predicate InSaved(d: Disk, strategy: string, o: string) {
    exists i :: 0 <= i < |SavedBy(d, strategy).trades| && SavedBy(d, strategy).trades[i].order == o
  }

  /** The saved portfolio of the order's strategy contains a fill of the order. */
  ghost predicate Applied(d: Disk, o: string) { o in Book(d) && InSaved(d, Book(d)[o].strategy, o) }

  /** A filling record belongs to a known order. */
  ghost predicate FillingFits(d: Disk, b: Body)
    requires b.Filling?
  {
    && b.version == CURRENT_VERSION && b.order != "" && b.attempt != "" && b.order in Book(d)
    && b.strategy == Book(d)[b.order].strategy
    && b.portfolioId == PortfolioId(b.strategy) && b.portfolioVersion == PORTFOLIO_VERSION
    && b.tradeId == MakeTradeId(b.order)
  }

  /** The post state of a commit intent contains every fill the intent names. */
  ghost predicate IntentFits(d: Disk, b: Body)
    requires b.CommitIntent?
  {
    && b.version == CURRENT_VERSION && b.commitId != "" && b.pre.Some? && b.post.Some?
    && b.portfolioId == PortfolioId(b.strategy) && b.portfolioVersion == PORTFOLIO_VERSION
    && forall r :: r in b.fills ==>
         r.order in Book(d) && Book(d)[r.order].strategy == b.strategy
         && Trade(r.order, r.attempt) in b.post.value.of.trades
  }

  /** A marker was written for a fill of a commit intent whose portfolio has been saved. */
  ghost predicate MarkerFits(d: Disk, b: Body)
    requires b.Persisted?
  {
    && b.version == CURRENT_VERSION && b.order in Book(d)
    && Trade(b.order, b.attempt) in SavedBy(d, Book(d)[b.order].strategy).trades
    && exists ci :: ci in d.wal && ci.CommitIntent? && ci.commitId == b.commitId && ci.post == b.post
                    && FillRef(b.order, b.attempt, b.fillingHash) in ci.fills
  }

  ghost predicate RecordFits(d: Disk, b: Body) {
    && !b.Unrecognised?
    && (b.Filling? ==> FillingFits(d, b))
    && (b.CommitIntent? ==> IntentFits(d, b))
    && (b.Persisted? ==> MarkerFits(d, b))
  }

  /** Two commit intents never name the same fill attempt. */
  ghost predicate AttemptsSplit(wal: seq<Body>) {
    forall a, b, r, q :: a in wal && b in wal && a.CommitIntent? && b.CommitIntent? && r in a.fills && q in b.fills ==>
      r.attempt == q.attempt ==> a == b
  }

  ghost predicate LogOk(d: Disk) {
    && Coherent(d.wal) && AttemptsSplit(d.wal)
    && forall b :: b in d.wal ==> RecordFits(d, b)
  }

  /** Each saved portfolio holds at most one fill per order, and only fills of its own orders. */
  ghost predicate BooksOk(d: Disk) {
    forall s :: TradesOk(d, s)
  }

  ghost predicate TradesOk(d: Disk, s: string) {
    var trades := SavedBy(d, s).trades;
    && (forall i :: 0 <= i < |trades| ==> trades[i].order in Book(d) && Book(d)[trades[i].order].strategy == s)
    && (forall i, j :: 0 <= i < j < |trades| ==> trades[i].order != trades[j].order)
  }

  ghost predicate HasMarker(d: Disk, o: string) {
    exists b :: b in d.wal && b.Persisted? && b.order == o
  }

  ghost predicate StatusOk(d: Disk) {
    forall o :: o in Book(d) ==>
      && o != ""
      && Book(d)[o].portfolioId == PortfolioId(Book(d)[o].strategy) && Book(d)[o].portfolioVersion == PORTFOLIO_VERSION
      && (Book(d)[o].status != Settling && Book(d)[o].status != Executed ==> !Applied(d, o))
      && (Book(d)[o].status == Executed ==> HasMarker(d, o))
  }

  ghost predicate InFlight(d: Disk, strategy: string, o: string) { Due(ViewOf(d, strategy), o) }

  /** The portfolio of `ci` is saved and every fill of the strategy still in flight belongs to it. */
  ghost predicate Landed(d: Disk, strategy: string, ci: Body) {
    && ci in d.wal && ci.CommitIntent? && ci.strategy == strategy
    && ci.post == Some(StateHash(SavedBy(d, strategy)))
    && (forall o :: InFlight(d, strategy, o) ==> Mapped(Intents(d.wal), strategy, o) == Some(ci))
    && (forall r :: r in ci.fills ==>
          r.order in Book(d) && (Book(d)[r.order].status == Settling || Book(d)[r.order].status == Executed))
  }

  ghost predicate NoneLanded(d: Disk, strategy: string) {
    forall o :: InFlight(d, strategy, o) ==> !Applied(d, o)
  }

  /** Fills in flight were either all saved, by one commit intent, or none was. */
  ghost predicate FlightOk(d: Disk, strategy: string) {
    NoneLanded(d, strategy) || exists ci :: Landed(d, strategy, ci)
  }

  ghost predicate DiskOk(d: Disk) {
    LogOk(d) && BooksOk(d) && StatusOk(d) && forall s :: FlightOk(d, s)
  }

  // -------------------------------------------------------------------------
  // The process
  // -------------------------------------------------------------------------

  function OrdersIn(fills: seq<FillRef>): set<string> { set r | r in fills :: r.order }

  /** A filling record on disk that no commit intent names yet. */
  ghost predicate Unclaimed(d: Disk, strategy: string, r: FillRef) {
    && RefComplete(r) && r.order in Book(d) && Book(d)[r.order].strategy == strategy && !Applied(d, r.order)
    && RefResolves(d.wal, IntentFor(Run(strategy, FRESH_PORTFOLIO, FRESH_PORTFOLIO, []), "x"), r)
    && forall ci, q :: ci in d.wal && ci.CommitIntent? && q in ci.fills ==> q.attempt != r.attempt
  }

  /** The trades in memory are the saved ones followed by the fills of this run. */
  ghost predicate MemoryOk(d: Disk, run: Run, fills: seq<FillRef>) {
    run.memory.trades == SavedBy(d, run.strategy).trades + TradesOf(fills)
  }

  function TradesOf(fills: seq<FillRef>): seq<Trade> {
    seq(|fills|, i requires 0 <= i < |fills| => Trade(fills[i].order, fills[i].attempt))
  }

  ghost predicate FillsApart(fills: seq<FillRef>) {
    forall i, j :: 0 <= i < j < |fills| ==>
      fills[i].order != fills[j].order && fills[i].attempt != fills[j].attempt
  }

  /** Exactly the fills of the run are in flight, and none of them is saved or claimed. */
  ghost predicate TradingOk(d: Disk, run: Run) {
    && FillsApart(run.fills)
    && (forall r :: r in run.fills ==> Unclaimed(d, run.strategy, r))
    && (forall o :: InFlight(d, run.strategy, o) <==> o in OrdersIn(run.fills))
  }

  ghost predicate RecoveringOk(d: Disk, p: Process)
    requires p.Recovering?
  {
    var v := p.view;
    && v.strategy == p.strategy && p.n <= |p.todo| && (p.marked ==> p.n < |p.todo|)
    && Distinct(p.todo)
    && (forall i :: 0 <= i < |p.todo| ==> Due(v, p.todo[i]))
    && (forall i :: p.n <= i < |p.todo| ==> RecoveryJob(d, p, i))
    && (forall o :: InFlight(d, p.strategy, o) ==> exists i :: p.n <= i < |p.todo| && p.todo[i] == o)
  }

  /** Order `todo[i]` is still as recovery saw it, and its decision matches the saved portfolio. */
  ghost predicate RecoveryJob(d: Disk, p: Process, i: nat)
    requires p.Recovering? && p.n <= i < |p.todo| && Due(p.view, p.todo[i])
  {
    var v, o := p.view, p.todo[i];
    && o in Book(d) && Book(d)[o] == v.orders[o]
    && (Outcome(v, o) == Executed <==> Applied(d, o))
    && (Outcome(v, o) == Executed && !(NeedsMarker(v, o) && !(i == p.n && p.marked)) ==> HasMarker(d, o))
    && (NeedsMarker(v, o) && !(i == p.n && p.marked) ==>
          !HasMarker(d, o)
          && exists ci, ref :: Landed(d, p.strategy, ci) && ci.CommitIntent? && ref in ci.fills && ref.order == o
                               && Marker(v, o) == MarkerOf(ref, ci))
  }

  ghost predicate FinishingOk(d: Disk, p: Process)
    requires p.Finishing?
  {
    && p.k <= |p.run.fills| && (p.noted ==> p.k < |p.run.fills|)
    && Landed(d, p.run.strategy, p.ci) && p.ci.CommitIntent? && p.ci.fills == p.run.fills
    && FillsApart(p.run.fills)
    && (forall i :: p.k <= i < |p.run.fills| ==>
          InFlight(d, p.run.strategy, p.run.fills[i].order)
          && (HasMarker(d, p.run.fills[i].order) <==> i == p.k && p.noted))
  }

  ghost predicate ProcessOk(d: Disk, p: Process) {
    match p
    case Resting => true
    case Recovering(_, _, _, _, _) => RecoveringOk(d, p)
    case Recovered(s) => forall o :: !InFlight(d, s, o)
    case Trading(run) => TradingOk(d, run) && MemoryOk(d, run, run.fills)
    case Annotating(run, ref) =>
      && TradingOk(d, run) && MemoryOk(d, run, run.fills + [ref])
      && FillsApart(run.fills + [ref]) && Unclaimed(d, run.strategy, ref)
      && Retryable(d, run.strategy, ref.order)
    case Committed(run, ci) =>
      && FillsApart(run.fills) && MemoryOk(d, run, run.fills) && run.fills != []
      && ci in d.wal && ci.CommitIntent? && ci.strategy == run.strategy && ci.fills == run.fills
      && ci.pre == Some(StateHash(run.pre)) && ci.post == Some(StateHash(run.memory))
      && (forall r :: r in run.fills ==> !Applied(d, r.order))
      && (forall o :: InFlight(d, run.strategy, o) <==> o in OrdersIn(run.fills))
      && (forall o :: InFlight(d, run.strategy, o) ==> Mapped(Intents(d.wal), run.strategy, o) == Some(ci))
    case Finishing(_, _, _, _) => FinishingOk(d, p)
  }

  ghost predicate Inv(st: State) { DiskOk(st.disk) && ProcessOk(st.disk, st.process) }
}
