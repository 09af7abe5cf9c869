/** reconcile_settling_orders as a decision: what becomes of every order in flight. */
module Settlement {
  import opened Sequences
  import opened FillRecords
  import opened FillChain
  import opened Orders
  import opened Storage

  /** What recovery looks at: the order map, the log, the strategy and the hash of its portfolio. */
  datatype View = View(orders: map<string, Order>, wal: seq<Body>, strategy: string, current: StateHash)

  function ViewOf(d: Disk, strategy: string): View {
    View(Current(d.log), d.wal, strategy, StateHash(SavedBy(d, strategy)))
  }

  /** An order of the strategy caught between fill and commit. */
  predicate Due(v: View, o: string) {
    o in v.orders && v.orders[o].status == Settling && v.orders[o].strategy == v.strategy
  }

  predicate NamesOrder(ci: Body, o: string)
    requires ci.CommitIntent?
  {
    o != "" && exists r :: r in ci.fills && r.order == o
  }

  /** order_to_intent: the last commit intent of the strategy that names the order. */
  function Mapped(intents: seq<Body>, strategy: string, o: string): (ci: Option<Body>)
    ensures ci.Some? ==> ci.value.CommitIntent? && ci.value in intents
                         && ci.value.strategy == strategy && NamesOrder(ci.value, o)
  {
    if intents == [] then None
    else
      var last := intents[|intents| - 1];
      if last.CommitIntent? && last.strategy == strategy && NamesOrder(last, o) then Some(last)
      else Mapped(intents[..|intents| - 1], strategy, o)
  }

  function IntentOf(v: View, o: string): (ci: Option<Body>)
    ensures ci.Some? ==> ci.value.CommitIntent? && ci.value.strategy == v.strategy
                         && NamesOrder(ci.value, o)
  {
    Mapped(Intents(v.wal), v.strategy, o)
  }

  /** The order belongs to the batch of commit intent `ci`. */
  predicate InBatch(v: View, ci: Body, o: string) { Due(v, o) && IntentOf(v, o) == Some(ci) }

  ghost predicate Active(v: View, ci: Body) { exists o :: InBatch(v, ci, o) }

  predicate SharesOrder(a: Body, b: Body)
    requires a.CommitIntent? && b.CommitIntent?
  {
    exists r :: r in a.fills && NamesOrder(b, r.order)
  }

  /** Two active commit intents name the same order. */
  ghost predicate Contested(v: View, ci: Body)
    requires ci.CommitIntent?
  {
    exists other :: Active(v, other) && other != ci && other.CommitIntent? && SharesOrder(ci, other)
  }

  /** A strict marker chain of the order leads to `ci`. */
  predicate ChainLeadsTo(v: View, o: string, ci: Body)
    requires ci.CommitIntent?
  {
    ResolveFill(o, Events(v.wal, o), Intents(v.wal), Some(ci.commitId), true).Ok?
  }

  /** Phase 1 check of one fill reference. */
  predicate RefFits(v: View, ci: Body, ref: FillRef)
    requires ci.CommitIntent?
  {
    var o := ref.order;
    && o != "" && ResolveFromIntent(o, Events(v.wal, o), ci, CURRENT_VERSION).Ok?
    && o in v.orders
    && match v.orders[o].status
       case Settling => (IntentOf(v, o) == None || IntentOf(v, o) == Some(ci))
                        && (Markers(Events(v.wal, o)) != [] ==> ChainLeadsTo(v, o, ci))
       case Executed => Markers(Events(v.wal, o)) != [] && ChainLeadsTo(v, o, ci)
       case _ => false
  }

  predicate BatchFits(v: View, ci: Body)
    requires ci.CommitIntent?
  {
    ci.version == CURRENT_VERSION && forall r :: r in ci.fills ==> RefFits(v, ci, r)
  }

  /** Some member of the batch already claims that the portfolio was saved. */
  ghost predicate ClaimsSaved(v: View, ci: Body)
    requires ci.CommitIntent?
  {
    || (exists o :: InBatch(v, ci, o) && Markers(Events(v.wal, o)) != [])
    || (exists r :: r in ci.fills && r.order in v.orders && v.orders[r.order].status == Executed)
  }

  datatype Verdict = PortfolioSaved | PortfolioUnsaved | Rejected

  /** Phase 1 for one batch, leaving the overlap check aside. */
  ghost function Alone(v: View, ci: Body): Verdict
    requires ci.CommitIntent?
  {
    if !BatchFits(v, ci) then Rejected
    else if ci.post == Some(v.current) then PortfolioSaved
    else if ci.pre == Some(v.current) && !ClaimsSaved(v, ci) then PortfolioUnsaved
    else Rejected
  }

  ghost function Decide(v: View, ci: Body): Verdict
    requires ci.CommitIntent?
  {
    if Contested(v, ci) then Rejected else Alone(v, ci)
  }

  predicate Untrusted(b: Body) {
    b.Persisted? || (b.Filling? && b.version == Versionless)
  }

  /** The status recovery gives to an order in flight. */
  ghost function Outcome(v: View, o: string): (s: Status)
    ensures s == Executed || s == PendingPrice || s == FailedReconciliation
  {
    match IntentOf(v, o)
    case Some(ci) => (match Decide(v, ci)
                      case PortfolioSaved => Executed
                      case PortfolioUnsaved => PendingPrice
                      case Rejected => FailedReconciliation)
    case None => if exists b :: b in Events(v.wal, o) && Untrusted(b) then FailedReconciliation
                 else PendingPrice
  }

  // -------------------------------------------------------------------------
  // The durable writes of Phase 2
  // -------------------------------------------------------------------------

  /** The order is to be EXECUTED but its persisted marker was never written. */
  ghost predicate NeedsMarker(v: View, o: string) {
    Due(v, o) && Outcome(v, o) == Executed && Markers(Events(v.wal, o)) == []
  }

  function MarkerFor(o: string, filling: Body, ci: Body): Body
    requires filling.Filling? && ci.CommitIntent?
  {
    Persisted(o, filling.attempt, MakeFillId(o), Some(Sha256(filling)), ci.commitId, ci.post, CURRENT_VERSION)
  }

  /** An executed order's batch holds a strictly resolvable reference to it. */
  lemma ExecutedResolves(v: View, o: string)
    requires Due(v, o) && Outcome(v, o) == Executed
    ensures IntentOf(v, o).Some? && BatchFits(v, IntentOf(v, o).value)
    ensures ResolveFromIntent(o, Events(v.wal, o), IntentOf(v, o).value, CURRENT_VERSION).Ok?
  {
    var ci := IntentOf(v, o).value;
    var r :| r in ci.fills && r.order == o;
    assert RefFits(v, ci, r);
  }

  ghost function Marker(v: View, o: string): Body
    requires NeedsMarker(v, o)
  {
    ExecutedResolves(v, o);
    var ci := IntentOf(v, o).value;
    MarkerFor(o, ResolveFromIntent(o, Events(v.wal, o), ci, CURRENT_VERSION).value.filling, ci)
  }

  ghost function WritesFor(v: View, o: string): seq<Write>
    requires Due(v, o)
  {
    (if NeedsMarker(v, o) then [AppendFill(Marker(v, o))] else [])
    + [SaveOrder(v.orders[o].(status := Outcome(v, o)))]
  }

  /** Phase 2 for the orders of `todo`, every decision having been taken before the first write. */
  ghost function Plan(v: View, todo: seq<string>): seq<Write>
    requires forall o :: o in todo ==> Due(v, o)
  {
    if todo == [] then []
    else
      var n := |todo| - 1;
      assert forall o :: o in todo[..n] ==> o in todo;
      Plan(v, todo[..n]) + WritesFor(v, todo[n])
  }

  /** Orders of one batch stand together, and orders without a commit intent come last. */
  ghost predicate Grouped(v: View, todo: seq<string>) {
    && (forall i, j, k :: 0 <= i < j < k < |todo| ==>
          IntentOf(v, todo[i]).Some? && IntentOf(v, todo[i]) == IntentOf(v, todo[k]) ==>
            IntentOf(v, todo[j]) == IntentOf(v, todo[i]))
    && (forall i, j :: 0 <= i < j < |todo| && IntentOf(v, todo[i]).None? ==> IntentOf(v, todo[j]).None?)
  }

  /** `todo` lists each order in flight once, batch by batch, in whatever order the dictionaries yield. */
  ghost predicate Lists(v: View, todo: seq<string>) {
    Distinct(todo) && Grouped(v, todo) && forall o :: o in todo <==> Due(v, o)
  }

  /** Every commit intent carries its id; without one the marker writer refuses. */
  ghost predicate IdsPresent(wal: seq<Body>) {
    forall ci :: ci in wal && ci.CommitIntent? ==> ci.commitId != ""
  }
}
