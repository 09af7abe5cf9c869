/**
 * The trade table beside the fill-commit protocol: a session projects the log into the saved table, adds a
 * row per fill in memory, and saves the table when all strategies are done.
 */
module TradeTable {
  import opened Sequences
  import opened FillRecords
  import opened FillChain
  import opened Projection
  import opened Orders
  import opened Storage
  import opened Settlement
  import opened Recovery
  import opened CrashModel
  import opened CrashInvariant
  import opened CrashDisk
  import opened CrashTrading
  import opened CrashSafety
  import opened StrategyRun
  import opened RunStretches
  import opened RefusedLog

  /**
   * `file` is trades.csv, `live` the table of the running session; `late` remembers which orders were in
   * flight without a marker when that session started and have not been filled since.
   */
  datatype Session = Session(core: State, file: seq<Row>, live: Option<seq<Row>>, late: set<string>)

  datatype Move =
    | Start(listing: seq<string>)
    | Core(step: Step)
    | Save

  /** The row of a fill, with the ids that _annotate_trade writes into it. */
  function LiveRow(f: Body): Row
    requires f.Filling?
  {
    RowOf(f).(recovered := false)
  }

  /** The step ends the session with an exception. */
  predicate Raises(step: Step, after: State) {
    step.Crash? || step.RefuseRecovery? || step.GuardFires? || (step.EndRecovery? && after.process.Resting?)
  }

  function LiveAfter(live: Option<seq<Row>>, step: Step, after: State): Option<seq<Row>> {
    if live.None? || Raises(step, after) then None
    else if step.RecordFill? && step.filling.Filling? then Some(live.value + [LiveRow(step.filling)])
    else live
  }

  function InFlightOrders(d: Disk): set<string> {
    set o | o in Book(d) && Book(d)[o].status == Settling
  }

  function LateAfter(late: set<string>, step: Step): set<string> {
    if step.RecordFill? && step.filling.Filling? then late - {step.filling.order} else late
  }

  /** Orders in flight whose marker is not written. */
  ghost function Unmarked(d: Disk): set<string> {
    set o | o in InFlightOrders(d) && !HasMarker(d, o)
  }

  /** The table a session starts with, unless the projection raises. */
  ghost function Projected(wal: seq<Body>, listing: seq<string>, file: seq<Row>): Option<seq<Row>> {
    var projected := LoadAndProject(wal, listing, file);
    if projected.Ok? then Some(projected.value) else None
  }

  ghost predicate Moves(s: Session, s': Session, m: Move) {
    match m
    case Start(listing) =>
      && s.core.process.Resting? && s.live.None? && s'.core == s.core && s'.file == s.file
      && Distinct(listing) && (forall o :: o in listing <==> Events(s.core.disk.wal, o) != [])
      && s'.live == Projected(s.core.disk.wal, listing, s.file)
      && s'.late == Unmarked(s.core.disk)
    case Core(step) =>
      && Takes(s.core, s'.core, step) && s'.file == s.file && s'.late == LateAfter(s.late, step)
      && (step.Crash? || s.live.Some?)
      && s'.live == LiveAfter(s.live, step, s'.core)
    case Save =>
      && s.core.process.Resting? && s.live.Some? && s' == s.(file := s.live.value, live := None)
  }

  /** Before the first session the table holds only rows from before trade ids. */
  ghost predicate Fresh(s: Session) {
    Init(s.core) && s.live.None? && s.late == {} && forall r :: r in s.file ==> r.tradeId.None?
  }

  ghost predicate Follows(s: Session, s': Session) { exists m :: Moves(s, s', m) }

  /** Any number of sessions, however often the process dies. */
  ghost predicate AreSessions(ss: seq<Session>) {
    ss != [] && Fresh(ss[0]) && forall i :: 0 <= i < |ss| - 1 ==> Follows(ss[i], ss[i + 1])
  }

  // -------------------------------------------------------------------------
  // The invariant
  // -------------------------------------------------------------------------

  ghost predicate IdsDistinct(rows: seq<Row>) {
    forall i, j :: 0 <= i < j < |rows| && rows[i].tradeId.Some? ==> rows[i].tradeId != rows[j].tradeId
  }

  /** The fills of the strategy run in progress. */
  function InRun(p: Process): set<string> {
    match p
    case Trading(run) => OrdersIn(run.fills)
    case Annotating(run, ref) => OrdersIn(run.fills + [ref])
    case Committed(run, _) => OrdersIn(run.fills)
    case Finishing(run, _, _, _) => OrdersIn(run.fills)
    case _ => {}
  }

  /** The id belongs to an order with a marker, or to one of `extra`. */
  ghost predicate IdBacked(d: Disk, extra: set<string>, id: string) {
    exists o :: id == MakeTradeId(o) && (HasMarker(d, o) || o in extra)
  }

  ghost predicate RowsBacked(d: Disk, extra: set<string>, rows: seq<Row>) {
    forall id :: id in TradeIds(rows) ==> IdBacked(d, extra, id)
  }

  /** The fill of the order that the saved portfolio contains. */
  ghost predicate SavedFill(d: Disk, o: string, f: Body) {
    f in d.wal && f.Filling? && f.order == o && Trade(o, f.attempt) in SavedBy(d, f.strategy).trades
  }

  /** Some row has the content of the order's fill. */
  ghost predicate Shadowed(d: Disk, o: string, rows: seq<Row>) {
    exists f :: SavedFill(d, o, f) && FillingKey(f) in ContentKeys(rows)
  }

  ghost predicate Present(d: Disk, o: string, rows: seq<Row>) {
    MakeTradeId(o) in TradeIds(rows) || Shadowed(d, o, rows)
  }

  /** What is finished so far: marker and EXECUTED snapshot written. */
  ghost predicate FinishedSoFar(d: Disk, p: Process) {
    p.Finishing? ==> p.k <= |p.run.fills| && forall i :: 0 <= i < p.k ==>
      var o := p.run.fills[i].order;
      HasMarker(d, o) && o in Book(d) && Book(d)[o].status == Executed
  }

  ghost predicate LiveOk(s: Session, rows: seq<Row>) {
    var d, p := s.core.disk, s.core.process;
    && s.file <= rows && IdsDistinct(rows) && RowsBacked(d, InRun(p), rows)
    && (forall o :: o in InRun(p) ==> MakeTradeId(o) in TradeIds(rows))
    && (forall o :: HasMarker(d, o) ==> o in s.late || Present(d, o, rows))
    && (forall o :: o in InFlightOrders(d) ==> o in s.late || o in InRun(p) || HasMarker(d, o))
    && (forall o :: o in s.late ==> MakeTradeId(o) !in TradeIds(rows))
  }

  ghost predicate TableOk(s: Session) {
    && FinishedSoFar(s.core.disk, s.core.process)
    && IdsDistinct(s.file) && RowsBacked(s.core.disk, {}, s.file)
    && (s.live.Some? ==> LiveOk(s, s.live.value))
  }

  lemma TradeIdsDiffer(a: string, b: string)
    requires MakeTradeId(a) == MakeTradeId(b)
    ensures a == b
  {
    assert MakeTradeId(a)[4..] == a && MakeTradeId(b)[4..] == b;
  }

  // -------------------------------------------------------------------------
  // What a step of the protocol does to all this
  // -------------------------------------------------------------------------

  /** Records and saved trades are only ever added. */
  ghost predicate Grows(d: Disk, d': Disk) {
    d.wal <= d'.wal && forall s :: SavedBy(d, s).trades <= SavedBy(d', s).trades
  }

  ghost predicate Effect(st: State, st': State, step: Step) {
    var d, d', p, p' := st.disk, st'.disk, st.process, st'.process;
    && Grows(d, d')
    && (forall o :: HasMarker(d', o) ==> HasMarker(d, o) || o in InFlightOrders(d))
    && (forall o :: o in InRun(p') ==> o in InRun(p) || (step.RecordFill? && step.filling.Filling? && step.filling.order == o))
    && (forall o :: o in InRun(p) && o !in InRun(p') ==> HasMarker(d', o) && o !in InFlightOrders(d'))
    && (forall o :: o in InFlightOrders(d') ==> o in InFlightOrders(d) || o in InRun(p'))
  }

  lemma StepGrows(st: State, st': State, step: Step)
    requires Inv(st) && Takes(st, st', step)
    ensures Grows(st.disk, st'.disk)
  {
    hide Inv, Takes;
    StepAppends(st, st', step);
    StepSettled(st, st', step);
  }

  lemma OrdersGrow(fills: seq<FillRef>, r: FillRef)
    ensures OrdersIn(fills + [r]) == OrdersIn(fills) + {r.order}
  {
    assert forall q :: q in fills + [r] <==> q in fills || q == r;
    assert r in fills + [r];
  }

  /** Only the order of an appended marker gains one. */
  lemma MarkersAfter(d: Disk, b: Body)
    ensures forall o :: HasMarker(Apply(d, AppendFill(b)), o) <==> HasMarker(d, o) || (b.Persisted? && b.order == o)
    ensures InFlightOrders(Apply(d, AppendFill(b))) == InFlightOrders(d)
  {
    var d' := Apply(d, AppendFill(b));
    assert forall c :: c in d'.wal <==> c in d.wal || c == b;
  }

  lemma FlightAfter(d: Disk, order: Order)
    ensures forall o :: HasMarker(Apply(d, SaveOrder(order)), o) <==> HasMarker(d, o)
    ensures InFlightOrders(Apply(d, SaveOrder(order))) ==
            if order.status == Settling then InFlightOrders(d) + {order.id} else InFlightOrders(d) - {order.id}
  {
    CurrentAfterSave(d.log, order);
  }

  lemma EffectOfStep(st: State, st': State, step: Step)
    requires Inv(st) && FinishedSoFar(st.disk, st.process) && Takes(st, st', step) && !Raises(step, st')
    ensures Effect(st, st', step)
  {
    StepGrows(st, st', step);
    match step
    case RecoveryWrite => EffectOfRecovery(st, st');
    case FinishFill => EffectOfFinish(st, st');
    case Annotate => EffectOfAnnotate(st, st');
    case RecordFill(f, content) => EffectOfFill(st, st', f, content);
    case EndRun => EffectOfEnd(st, st');
    case _ => EffectOfOther(st, st', step);
  }

  lemma EffectOfRecovery(st: State, st': State)
    requires Inv(st) && RecoveryStep(st, st') && Grows(st.disk, st'.disk)
    ensures Effect(st, st', RecoveryWrite)
  {
    hide DiskOk, Outcome, NeedsMarker, ViewOf, Grows, HasMarker, InFlightOrders;
    var d, p := st.disk, st.process;
    var o := p.todo[p.n];
    assert RecoveryJob(d, p, p.n) && Book(d)[o].id == o && Due(p.view, o);
    DueInFlight(d, o);
    if MarkerNext(p) {
      MarkersAfter(d, Marker(p.view, o));
    } else {
      FlightAfter(d, p.view.orders[o].(status := Outcome(p.view, o)));
    }
  }

  lemma DueInFlight(d: Disk, o: string)
    requires o in Book(d) && Book(d)[o].status == Settling
    ensures o in InFlightOrders(d)
  {
  }

  lemma EffectOfFinish(st: State, st': State)
    requires FinishStep(st, st') && Grows(st.disk, st'.disk)
    ensures Effect(st, st', Step.FinishFill)
  {
    hide Grows, HasMarker, InFlightOrders;
    var d, p := st.disk, st.process;
    var r := p.run.fills[p.k];
    assert Book(d)[r.order].id == r.order;
    DueInFlight(d, r.order);
    if p.noted {
      FlightAfter(d, WithStatus(d, r.order, Executed));
    } else {
      MarkersAfter(d, MarkerOf(r, p.ci));
    }
  }

  lemma EffectOfAnnotate(st: State, st': State)
    requires Takes(st, st', Annotate) && Grows(st.disk, st'.disk)
    ensures Effect(st, st', Annotate)
  {
    hide Grows, HasMarker, InFlightOrders;
    var d, p := st.disk, st.process;
    assert Book(d)[p.ref.order].id == p.ref.order;
    FlightAfter(d, WithStatus(d, p.ref.order, Settling));
    OrdersGrow(p.run.fills, p.ref);
  }

  lemma EffectOfFill(st: State, st': State, f: Body, content: int)
    requires Takes(st, st', Step.RecordFill(f, content)) && Grows(st.disk, st'.disk)
    ensures Effect(st, st', Step.RecordFill(f, content))
  {
    hide Grows, HasMarker, InFlightOrders;
    MarkersAfter(st.disk, f);
    OrdersGrow(st.process.run.fills, RefTo(f));
  }

  lemma EffectOfEnd(st: State, st': State)
    requires Takes(st, st', EndRun) && Grows(st.disk, st'.disk) && FinishedSoFar(st.disk, st.process)
    ensures Effect(st, st', EndRun)
  {
    hide Grows, HasMarker;
    var d, p := st.disk, st.process;
    forall o | o in InRun(p)
      ensures HasMarker(d, o) && o !in InFlightOrders(d)
    {
      var r :| r in p.run.fills && r.order == o;
      var i :| 0 <= i < |p.run.fills| && p.run.fills[i] == r;
    }
  }

  lemma EffectOfOther(st: State, st': State, step: Step)
    requires Takes(st, st', step) && !Raises(step, st') && Grows(st.disk, st'.disk)
    requires !step.RecoveryWrite? && !step.FinishFill? && !step.Annotate? && !step.RecordFill? && !step.EndRun?
    ensures Effect(st, st', step)
  {
    hide Grows, HasMarker, InFlightOrders, Outcome, Lists, Accepted, IdsPresent, Current;
    var d := st.disk;
    match step
    case Expire(o) => FlightAfter(d, WithStatus(d, o, Expired));
    case CreateOrder(order) => FlightAfter(d, order);
    case SetAside(o, status) => FlightAfter(d, WithStatus(d, o, status));
    case WriteIntent(commitId) => MarkersAfter(d, IntentFor(st.process.run, commitId));
    case SaveState => SameLogSameMarkers(d, st.process.run.strategy, st.process.run.memory);
    case _ =>
  }

  lemma SameLogSameMarkers(d: Disk, s: string, memory: Portfolio)
    ensures var d' := Apply(d, SavePortfolio(s, memory));
            (forall o :: HasMarker(d', o) <==> HasMarker(d, o)) && InFlightOrders(d') == InFlightOrders(d)
  {
  }

  lemma FinishedKept(st: State, st': State, step: Step)
    requires Inv(st) && FinishedSoFar(st.disk, st.process) && Takes(st, st', step)
    ensures FinishedSoFar(st'.disk, st'.process)
  {
    if step.FinishFill? {
      FinishedOneMore(st, st');
    }
  }

  lemma FinishedOneMore(st: State, st': State)
    requires Inv(st) && FinishedSoFar(st.disk, st.process) && FinishStep(st, st')
    ensures FinishedSoFar(st'.disk, st'.process)
  {
    hide DiskOk, HasMarker, Landed, Current;
    var d, p := st.disk, st.process;
    var r := p.run.fills[p.k];
    assert Book(d)[r.order].id == r.order;
    if p.noted {
      var order := WithStatus(d, r.order, Executed);
      FlightAfter(d, order);
      CurrentAfterSave(d.log, order);
      assert HasMarker(d, r.order);
    } else {
      MarkersAfter(d, MarkerOf(r, p.ci));
    }
  }

  // -------------------------------------------------------------------------
  // The invariant holds throughout
  // -------------------------------------------------------------------------

  lemma MarkerStays(d: Disk, d': Disk, o: string)
    requires Grows(d, d') && HasMarker(d, o)
    ensures HasMarker(d', o)
  {
    var b :| b in d.wal && b.Persisted? && b.order == o;
    assert b in d'.wal;
  }

  lemma BackedStays(d: Disk, d': Disk, extra: set<string>, extra': set<string>, rows: seq<Row>)
    requires Grows(d, d') && RowsBacked(d, extra, rows)
    requires forall o :: o in extra ==> o in extra' || HasMarker(d', o)
    ensures RowsBacked(d', extra', rows)
  {
    hide Grows, HasMarker;
    forall id | id in TradeIds(rows)
      ensures IdBacked(d', extra', id)
    {
      assert IdBacked(d, extra, id);
      var o :| id == MakeTradeId(o) && (HasMarker(d, o) || o in extra);
      if HasMarker(d, o) {
        MarkerStays(d, d', o);
      }
    }
  }

  lemma PresentStays(d: Disk, d': Disk, o: string, rows: seq<Row>, more: seq<Row>)
    requires Grows(d, d') && rows <= more && Present(d, o, rows)
    ensures Present(d', o, more)
  {
    IdsKept(rows, more);
    hide TradeIds, ContentKeys, FillingKey;
    if MakeTradeId(o) !in TradeIds(rows) {
      var f :| SavedFill(d, o, f) && FillingKey(f) in ContentKeys(rows);
      assert SavedBy(d, f.strategy).trades <= SavedBy(d', f.strategy).trades;
      assert SavedFill(d', o, f);
    }
  }

  lemma FilledIsQueued(st: State, st': State, f: Body, content: int)
    requires Inv(st) && Takes(st, st', Step.RecordFill(f, content))
    ensures f.Filling? && f.tradeId == MakeTradeId(f.order) && f.order !in InRun(st.process) && !HasMarker(st.disk, f.order)
  {
    hide LogOk, BooksOk, FlightOk, FillsApart, Unclaimed, Coherent;
    var d, p := st.disk, st.process;
    assert !InFlight(d, p.run.strategy, f.order);
    if HasMarker(d, f.order) {
      PendingHasNoMarker(d, f.order);
    }
  }

  /** The order of a new fill is queued, so that no row bears its trade id yet. */
  lemma NewIdIsFresh(s: Session, f: Body, content: int, after: State)
    requires Inv(s.core) && s.live.Some? && LiveOk(s, s.live.value)
    requires Takes(s.core, after, Step.RecordFill(f, content))
    ensures f.Filling? && f.tradeId == MakeTradeId(f.order) && MakeTradeId(f.order) !in TradeIds(s.live.value)
  {
    hide IdsDistinct, Shadowed, Inv, Takes, HasMarker, InRun, InFlightOrders, Present, TradeIds;
    FilledIsQueued(s.core, after, f, content);
    OthersApart(f.order);
    assert !IdBacked(s.core.disk, InRun(s.core.process), MakeTradeId(f.order));
  }

  /** One more row, under an id that the table does not have. */
  lemma RowAdded(d: Disk, extra: set<string>, rows: seq<Row>, f: Body)
    requires f.Filling? && f.tradeId == MakeTradeId(f.order) && f.tradeId !in TradeIds(rows)
    requires IdsDistinct(rows) && RowsBacked(d, extra, rows)
    ensures IdsDistinct(rows + [LiveRow(f)]) && RowsBacked(d, extra + {f.order}, rows + [LiveRow(f)])
    ensures TradeIds(rows + [LiveRow(f)]) == TradeIds(rows) + {f.tradeId}
  {
    hide HasMarker;
    var row, more := LiveRow(f), rows + [LiveRow(f)];
    assert forall r :: r in more <==> r in rows || r == row;
    assert row in more && row.tradeId == Some(f.tradeId);
    forall i | 0 <= i < |rows|
      ensures rows[i].tradeId != row.tradeId
    {
      assert rows[i] in rows;
    }
    forall id | id in TradeIds(more)
      ensures IdBacked(d, extra + {f.order}, id)
    {
      if id in TradeIds(rows) {
        assert IdBacked(d, extra, id);
        var o :| id == MakeTradeId(o) && (HasMarker(d, o) || o in extra);
        assert o in extra ==> o in extra + {f.order};
      }
    }
  }

  lemma CoreKeeps(s: Session, s': Session, step: Step)
    requires Inv(s.core) && TableOk(s) && Moves(s, s', Core(step))
    ensures TableOk(s')
  {
    hide Inv, Takes, Grows, HasMarker, IdsDistinct, RowsBacked, Present, LiveOk, InFlightOrders, FinishedSoFar;
    StepGrows(s.core, s'.core, step);
    FinishedKept(s.core, s'.core, step);
    BackedStays(s.core.disk, s'.core.disk, {}, {}, s.file);
    if s'.live.Some? {
      EffectOfStep(s.core, s'.core, step);
      hide Effect;
      LiveKept(s, s', step);
    }
  }

  lemma LiveKept(s: Session, s': Session, step: Step)
    requires Inv(s.core) && s.live.Some? && LiveOk(s, s.live.value) && Moves(s, s', Core(step)) && s'.live.Some?
    requires Effect(s.core, s'.core, step)
    ensures LiveOk(s', s'.live.value)
  {
    hide Inv, Takes, Grows, HasMarker, IdsDistinct, RowsBacked, Present, InFlightOrders, InRun, LiveRow;
    var d, d', rows, rows' := s.core.disk, s'.core.disk, s.live.value, s'.live.value;
    var extra, extra' := InRun(s.core.process), InRun(s'.core.process);
    forall o | HasMarker(d, o)
      ensures HasMarker(d', o)
    {
      MarkerStays(d, d', o);
    }
    forall o | HasMarker(d', o)
      ensures o in s'.late || Present(d', o, rows')
    {
      MarkedStaysPresent(s, s', step, o);
    }
    if step.RecordFill? && step.filling.Filling? {
      var f := step.filling;
      NewIdIsFresh(s, f, step.content, s'.core);
      RowAdded(d, extra, rows, f);
      OthersApart(f.order);
      FillJoinsRun(s.core, s'.core, step);
      BackedStays(d, d', extra + {f.order}, extra', rows');
    } else {
      BackedStays(d, d', extra, extra', rows);
    }
  }

  lemma PresentAsRow(rows: seq<Row>, f: Body, d: Disk)
    requires f.Filling? && f.tradeId == MakeTradeId(f.order)
    ensures Present(d, f.order, rows + [LiveRow(f)])
  {
    IdOfRow(rows, f);
  }

  lemma OthersApart(order: string)
    ensures forall o :: o != order ==> MakeTradeId(o) != MakeTradeId(order)
  {
    forall o | o != order
      ensures MakeTradeId(o) != MakeTradeId(order)
    {
      if MakeTradeId(o) == MakeTradeId(order) {
        TradeIdsDiffer(o, order);
      }
    }
  }

  lemma FillJoinsRun(st: State, st': State, step: Step)
    requires Takes(st, st', step) && step.RecordFill? && Effect(st, st', step)
    ensures step.filling.Filling? && step.filling.order in InRun(st'.process)
    ensures step.filling.tradeId == MakeTradeId(step.filling.order)
    ensures forall o :: o in InRun(st.process) ==> o in InRun(st'.process) || HasMarker(st'.disk, o)
  {
    OrdersGrow(st.process.run.fills, RefTo(step.filling));
  }

  /** An order with a marker had one before, or was in flight: since before the session, or in the run. */
  lemma MarkedStaysPresent(s: Session, s': Session, step: Step, o: string)
    requires s.live.Some? && LiveOk(s, s.live.value) && Moves(s, s', Core(step)) && s'.live.Some?
    requires Effect(s.core, s'.core, step) && HasMarker(s'.core.disk, o)
    ensures o in s'.late || Present(s'.core.disk, o, s'.live.value)
  {
    hide Takes, Grows, HasMarker, IdsDistinct, RowsBacked, InFlightOrders, InRun, LiveRow;
    var d := s.core.disk;
    if step.RecordFill? && step.filling.Filling? && step.filling.order == o {
      FillJoinsRun(s.core, s'.core, step);
      PresentAsRow(s.live.value, step.filling, s'.core.disk);
    } else if o !in s.late {
      assert Present(d, o, s.live.value);
      PresentStays(d, s'.core.disk, o, s.live.value, s'.live.value);
    }
  }

  // -------------------------------------------------------------------------
  // A session starts
  // -------------------------------------------------------------------------

  lemma ProjectedIds(d: Disk, listing: seq<string>, file: seq<Row>)
    requires DiskOk(d) && IdsDistinct(file) && RowsBacked(d, {}, file)
    requires Project(d.wal, listing, file).Ok?
    ensures var rows := Project(d.wal, listing, file).value;
            file <= rows && IdsDistinct(rows) && RowsBacked(d, {}, rows)
  {
    hide DiskOk, Project, HasMarker, FillFor, RowKey, ContentKeys;
    ProjectionIsComplete(d.wal, listing, file);
    var rows := Project(d.wal, listing, file).value;
    forall i, j | 0 <= i < j < |rows| && rows[i].tradeId.Some?
      ensures rows[i].tradeId != rows[j].tradeId
    {
      if j < |file| {
        assert rows[i] == file[i] && rows[j] == file[j];
      } else {
        assert rows[i] == rows[..j][i] && rows[i] in rows[..j];
      }
    }
    forall id | id in TradeIds(rows)
      ensures IdBacked(d, {}, id)
    {
      var r :| r in rows && r.tradeId == Some(id);
      var k :| 0 <= k < |rows| && rows[k] == r;
      if k < |file| {
        assert r == file[k] && r in file;
        assert id in TradeIds(file);
      } else {
        var o :| o in listing && FillFor(d.wal, o).Some? && rows[k] == RowOf(FillFor(d.wal, o).value);
        ReplayedIsMarked(d, o);
      }
    }
  }

  /** What is replayed for an order is the fill in its saved portfolio, under the order's trade id. */
  lemma ReplayedIsMarked(d: Disk, o: string)
    requires DiskOk(d) && FillFor(d.wal, o).Some?
    ensures HasMarker(d, o) && FillFor(d.wal, o).value.tradeId == MakeTradeId(o)
    ensures SavedFill(d, o, FillFor(d.wal, o).value)
  {
    hide DiskOk, ChainOf;
    NoMarkerNoFill(d, o);
    OrderReplays(d, o);
    MarkedIsReplayed(d, o);
  }

  lemma NoMarkerNoFill(d: Disk, o: string)
    requires FillFor(d.wal, o).Some?
    ensures HasMarker(d, o)
  {
    hide ResolveFill;
    assert Markers(Events(d.wal, o)) != [];
    EventMembers(d.wal, o);
    FilterMembers(Events(d.wal, o), IsPersisted());
    var m := Markers(Events(d.wal, o))[0];
    assert m in Markers(Events(d.wal, o));
  }

  lemma MarkedIsReplayed(d: Disk, o: string)
    requires DiskOk(d) && HasMarker(d, o)
    ensures ChainOf(d, o).Ok? && FillFor(d.wal, o) == Some(ChainOf(d, o).value.filling)
    ensures FillFor(d.wal, o).value.tradeId == MakeTradeId(o) && SavedFill(d, o, FillFor(d.wal, o).value)
    ensures Events(d.wal, o) != []
  {
    OrderReplays(d, o);
    NonEmptyTradeId(d, o);
    MarkerChain(d, o);
    EventsOfMarked(d, o);
    assert RecordFits(d, ChainOf(d, o).value.filling);
  }

  lemma EventsOfMarked(d: Disk, o: string)
    requires DiskOk(d) && HasMarker(d, o)
    ensures Events(d.wal, o) != []
  {
    var b :| b in d.wal && b.Persisted? && b.order == o;
    assert RecordFits(d, b) && StatusOk(d);
    EventMembers(d.wal, o);
  }

  lemma StartKeeps(s: Session, s': Session, listing: seq<string>)
    requires Inv(s.core) && TableOk(s) && Moves(s, s', Start(listing))
    ensures TableOk(s')
  {
    hide DiskOk, Project, HasMarker, Present, IdsDistinct, RowsBacked, Accepted;
    var d := s.core.disk;
    if s'.live.Some? {
      ProjectedIds(d, listing, s.file);
      UnmarkedHasNoRow(d, s'.live.value);
      forall o | HasMarker(d, o)
        ensures Present(d, o, s'.live.value)
      {
        MarkedIsReplayed(d, o);
        StartCoversOne(d, listing, s.file, o);
      }
    }
  }

  lemma UnmarkedHasNoRow(d: Disk, rows: seq<Row>)
    requires RowsBacked(d, {}, rows)
    ensures forall o :: o in Unmarked(d) ==> MakeTradeId(o) !in TradeIds(rows)
  {
    hide HasMarker, TradeIds;
    forall o | o in Unmarked(d)
      ensures MakeTradeId(o) !in TradeIds(rows)
    {
      OthersApart(o);
      assert !IdBacked(d, {}, MakeTradeId(o));
    }
  }

  lemma StartCoversOne(d: Disk, listing: seq<string>, file: seq<Row>, o: string)
    requires Project(d.wal, listing, file).Ok? && o in listing && FillFor(d.wal, o).Some?
    requires FillFor(d.wal, o).value.tradeId == MakeTradeId(o) && SavedFill(d, o, FillFor(d.wal, o).value)
    ensures Present(d, o, Project(d.wal, listing, file).value)
  {
    hide Project, Replayable, SavedFill;
    ProjectionIsComplete(d.wal, listing, file);
  }

  lemma MoveKeeps(s: Session, s': Session, m: Move)
    requires Inv(s.core) && TableOk(s) && Moves(s, s', m)
    ensures TableOk(s')
  {
    hide Inv, TableOk, Moves;
    match m
    case Start(listing) => StartKeeps(s, s', listing);
    case Core(step) => CoreKeeps(s, s', step);
    case Save => SaveKeeps(s, s');
  }

  lemma SaveKeeps(s: Session, s': Session)
    requires TableOk(s) && Moves(s, s', Save)
    ensures TableOk(s')
  {
    hide HasMarker, IdsDistinct, RowsBacked, Present;
  }

  lemma FreshOk(s: Session)
    requires Fresh(s)
    ensures TableOk(s) && Reachable(s.core)
  {
    assert IsRun([s.core]);
    assert TradeIds(s.file) == {};
  }

  /** Every state of every sequence of sessions satisfies the invariant, and its core is a protocol state. */
  lemma {:induction false} SessionsKeepInv(ss: seq<Session>, i: nat)
    requires AreSessions(ss) && i < |ss|
    ensures TableOk(ss[i]) && Reachable(ss[i].core) && Inv(ss[i].core)
  {
    hide TableOk, Reachable, Inv, Fresh, Moves;
    if i == 0 {
      FreshOk(ss[0]);
      ReachableFacts(ss[0].core);
    } else {
      SessionsKeepInv(ss, i - 1);
      assert Follows(ss[i - 1], ss[i - 1 + 1]);
      var m :| Moves(ss[i - 1], ss[i], m);
      MoveKeeps(ss[i - 1], ss[i], m);
      CoreMoves(ss[i - 1], ss[i], m);
      ReachableFacts(ss[i].core);
    }
  }

  lemma CoreMoves(s: Session, s': Session, m: Move)
    requires Reachable(s.core) && Moves(s, s', m)
    ensures Reachable(s'.core)
  {
    hide Reachable, Takes;
    if m.Core? {
      ReachStep(s.core, s'.core, m.step);
    }
  }

  // -------------------------------------------------------------------------
  // Conclusions
  // -------------------------------------------------------------------------

  /** The rows under the trade id of an order. */
  function RowsOf(rows: seq<Row>, o: string): seq<Row> { Filter(rows, RowFor(o)) }

  function RowFor(o: string): Row -> bool { (r: Row) => r.tradeId == Some(MakeTradeId(o)) }

  lemma OneRowAtMost(rows: seq<Row>, o: string)
    requires IdsDistinct(rows)
    ensures |RowsOf(rows, o)| == if MakeTradeId(o) in TradeIds(rows) then 1 else 0
  {
    FilterAtMostOne(rows, RowFor(o));
    if MakeTradeId(o) in TradeIds(rows) {
      FilterMembers(rows, RowFor(o));
      var r :| r in rows && r.tradeId == Some(MakeTradeId(o));
      assert r in RowsOf(rows, o);
    } else {
      FilterNone(rows, RowFor(o));
    }
  }

  /**
   * In every reachable state the saved table holds at most one row per order, and a row under an order's
   * trade id only if the saved portfolio contains the fill of that order.
   */
  lemma TableSafe(ss: seq<Session>, i: nat, o: string)
    requires AreSessions(ss) && i < |ss|
    ensures |RowsOf(ss[i].file, o)| <= 1
    ensures RowsOf(ss[i].file, o) != [] ==> exists f :: SavedFill(ss[i].core.disk, o, f)
  {
    hide Reachable, DiskOk, HasMarker, SavedFill;
    SessionsKeepInv(ss, i);
    var s := ss[i];
    OneRowAtMost(s.file, o);
    if MakeTradeId(o) in TradeIds(s.file) {
      assert IdBacked(s.core.disk, {}, MakeTradeId(o));
      var x :| MakeTradeId(o) == MakeTradeId(x) && HasMarker(s.core.disk, x);
      TradeIdsDiffer(o, x);
      MarkedIsReplayed(s.core.disk, o);
    }
  }

  /** The saved table never loses a row. */
  lemma {:induction false} RowsPermanent(ss: seq<Session>, i: nat, j: nat)
    requires AreSessions(ss) && i <= j < |ss|
    ensures ss[i].file <= ss[j].file
    decreases j
  {
    hide Takes, Reachable, Inv, IdsDistinct, RowsBacked, FinishedSoFar, LoadAndProject;
    if i < j {
      RowsPermanent(ss, i, j - 1);
      SessionsKeepInv(ss, j - 1);
      assert Follows(ss[j - 1], ss[j - 1 + 1]);
    }
  }

  /**
   * When a session has started, every order with a marker has exactly one row, or a row with the content of
   * its fill. All of them have a row of their own exactly if no trade missing from the file has the content
   * of a row in it or of another missing trade.
   */
  lemma SessionStartCovers(ss: seq<Session>, i: nat, listing: seq<string>)
    requires AreSessions(ss) && i < |ss| - 1 && Moves(ss[i], ss[i + 1], Start(listing)) && ss[i + 1].live.Some?
    ensures var d, rows := ss[i].core.disk, ss[i + 1].live.value;
      && (forall o :: HasMarker(d, o) ==> |RowsOf(rows, o)| == 1 || Shadowed(d, o, rows))
      && ((forall o :: HasMarker(d, o) ==> |RowsOf(rows, o)| == 1) <==> NoClash(d.wal, listing, ss[i].file))
  {
    hide Reachable, DiskOk, HasMarker, RowsOf, Project, AllOwn, NoClash, Shadowed, IdsApart, RowsBacked, IdsDistinct, Accepted;
    SessionsKeepInv(ss, i);
    var s, s' := ss[i], ss[i + 1];
    var d, rows := s.core.disk, s'.live.value;
    StartKeeps(s, s', listing);
    ProjectedIds(d, listing, s.file);
    forall o
      ensures |RowsOf(rows, o)| == if MakeTradeId(o) in TradeIds(rows) then 1 else 0
    {
      OneRowAtMost(rows, o);
    }
    forall o | HasMarker(d, o)
      ensures Present(d, o, rows)
    {
      MarkedIsReplayed(d, o);
      StartCoversOne(d, listing, s.file, o);
    }
    ReplayIdsApart(d, listing);
    OwnRowsIff(d.wal, listing, s.file);
    OwnMeansMarked(d, listing, rows);
  }

  lemma ReplayIdsApart(d: Disk, listing: seq<string>)
    requires DiskOk(d)
    ensures IdsApart(d.wal, listing)
  {
    hide DiskOk, HasMarker, SavedFill;
    forall a, b | a in listing && b in listing && a != b && FillFor(d.wal, a).Some? && FillFor(d.wal, b).Some?
      ensures FillFor(d.wal, a).value.tradeId != FillFor(d.wal, b).value.tradeId
    {
      ReplayedIsMarked(d, a);
      ReplayedIsMarked(d, b);
      if MakeTradeId(a) == MakeTradeId(b) {
        TradeIdsDiffer(a, b);
      }
    }
  }

  /** The orders to be replayed are those with a marker. */
  lemma OwnMeansMarked(d: Disk, listing: seq<string>, rows: seq<Row>)
    requires DiskOk(d) && forall o :: o in listing <==> Events(d.wal, o) != []
    ensures AllOwn(d.wal, listing, rows) <==> forall o :: HasMarker(d, o) ==> MakeTradeId(o) in TradeIds(rows)
  {
    hide DiskOk, HasMarker, SavedFill, Replayable, Events;
    forall o
      ensures HasMarker(d, o) <==> o in listing && FillFor(d.wal, o).Some?
      ensures HasMarker(d, o) ==> FillFor(d.wal, o).Some? && FillFor(d.wal, o).value.tradeId == MakeTradeId(o)
    {
      if HasMarker(d, o) {
        MarkedIsReplayed(d, o);
      } else if FillFor(d.wal, o).Some? {
        ReplayedIsMarked(d, o);
      }
    }
  }

  /**
   * When a session saves its table, an executed order has exactly one row, or a row with the content of its
   * fill; or it was in flight without a marker when the session started, was executed by recovery after the
   * projection, and has no row until the next session.
   */
  lemma SessionEndCovers(ss: seq<Session>, i: nat, o: string)
    requires AreSessions(ss) && i < |ss| - 1 && Moves(ss[i], ss[i + 1], Save)
    requires o in Book(ss[i].core.disk) && Book(ss[i].core.disk)[o].status == Executed
    ensures var d, s' := ss[i].core.disk, ss[i + 1];
      if o in s'.late then RowsOf(s'.file, o) == [] else |RowsOf(s'.file, o)| == 1 || Shadowed(d, o, s'.file)
  {
    hide Reachable, HasMarker, RowsOf, Shadowed, RowsBacked, IdsDistinct, FinishedSoFar;
    SessionsKeepInv(ss, i);
    var s := ss[i];
    assert StatusOk(s.core.disk);
    assert HasMarker(s.core.disk, o);
    OneRowAtMost(s.live.value, o);
  }

  // -------------------------------------------------------------------------
  // A shadowed trade is lost for good
  // -------------------------------------------------------------------------

  lemma SavedFillUnique(d: Disk, o: string, f: Body, g: Body)
    requires DiskOk(d) && SavedFill(d, o, f) && SavedFill(d, o, g)
    ensures f == g
  {
    hide StatusOk, FlightOk, Applied;
    assert RecordFits(d, f) && RecordFits(d, g) && TradesOk(d, f.strategy);
    var i :| 0 <= i < |d.wal| && d.wal[i] == f;
    var j :| 0 <= j < |d.wal| && d.wal[j] == g;
    if i < j {
      assert NoTwins(d.wal[i], d.wal[j]);
    } else if j < i {
      assert NoTwins(d.wal[j], d.wal[i]);
    }
  }

  /** The order has a marker and no row, and the table has a row with the content of its fill. */
  ghost predicate Lost(d: Disk, o: string, rows: seq<Row>) {
    HasMarker(d, o) && MakeTradeId(o) !in TradeIds(rows) && Shadowed(d, o, rows)
  }

  ghost predicate LostIn(s: Session, o: string) {
    Lost(s.core.disk, o, s.file) && (s.live.Some? ==> MakeTradeId(o) !in TradeIds(s.live.value))
  }

  lemma LostAtStart(s: Session, s': Session, listing: seq<string>, o: string)
    requires Inv(s.core) && TableOk(s) && Moves(s, s', Start(listing)) && LostIn(s, o)
    ensures LostIn(s', o)
  {
    hide DiskOk, Project, HasMarker, IdsDistinct, RowsBacked, Accepted, IdsApart, TradeIds, ContentKeys, FillingKey;
    var d := s.core.disk;
    if s'.live.Some? {
      MarkedIsReplayed(d, o);
      var f :| SavedFill(d, o, f) && FillingKey(f) in ContentKeys(s.file);
      SavedFillUnique(d, o, f, FillFor(d.wal, o).value);
      ReplayIdsApart(d, listing + [o]);
      EchoIsNotReplayed(d.wal, listing, s.file, o);
    }
  }

  lemma LostAtStep(s: Session, s': Session, step: Step, o: string)
    requires Inv(s.core) && TableOk(s) && Moves(s, s', Core(step)) && LostIn(s, o)
    ensures LostIn(s', o)
  {
    hide Inv, Takes, Grows, HasMarker, IdsDistinct, RowsBacked, LiveOk, InFlightOrders, FinishedSoFar, TradeIds, LiveRow,
         ContentKeys, FillingKey;
    var d, d' := s.core.disk, s'.core.disk;
    StepGrows(s.core, s'.core, step);
    MarkerStays(d, d', o);
    ShadowStays(d, d', o, s.file);
    if s'.live.Some? && step.RecordFill? && step.filling.Filling? {
      NewIdIsFresh(s, step.filling, step.content, s'.core);
      FilledIsUnmarked(s.core, s'.core, step, o);
      IdOfRow(s.live.value, step.filling);
    }
  }

  lemma ShadowStays(d: Disk, d': Disk, o: string, rows: seq<Row>)
    requires Grows(d, d') && Shadowed(d, o, rows)
    ensures Shadowed(d', o, rows)
  {
    hide ContentKeys, FillingKey;
    var f :| SavedFill(d, o, f) && FillingKey(f) in ContentKeys(rows);
    assert SavedBy(d, f.strategy).trades <= SavedBy(d', f.strategy).trades;
    assert SavedFill(d', o, f);
  }

  lemma FilledIsUnmarked(st: State, st': State, step: Step, o: string)
    requires Inv(st) && Takes(st, st', step) && step.RecordFill? && step.filling.Filling? && HasMarker(st.disk, o)
    ensures MakeTradeId(step.filling.order) != MakeTradeId(o)
  {
    hide Coherent, BooksOk, FlightOk;
    PendingHasNoMarker(st.disk, o);
    if MakeTradeId(step.filling.order) == MakeTradeId(o) {
      TradeIdsDiffer(step.filling.order, o);
    }
  }

  lemma IdOfRow(rows: seq<Row>, f: Body)
    requires f.Filling?
    ensures TradeIds(rows + [LiveRow(f)]) == TradeIds(rows) + {f.tradeId}
  {
    var row, more := LiveRow(f), rows + [LiveRow(f)];
    assert forall r :: r in more <==> r in rows || r == row;
    assert row in more;
  }

  lemma LostAtSave(s: Session, s': Session, o: string)
    requires TableOk(s) && Moves(s, s', Save) && LostIn(s, o)
    ensures LostIn(s', o)
  {
    hide HasMarker, IdsDistinct, RowsBacked, TradeIds, ContentKeys, FillingKey;
    IdsKept(s.file, s.live.value);
    assert Shadowed(s.core.disk, o, s.live.value);
  }

  /** A marked order whose fill has the content of another row never gets a row of its own. */
  lemma {:induction false} LostForGood(ss: seq<Session>, i: nat, j: nat, o: string)
    requires AreSessions(ss) && i <= j < |ss| && LostIn(ss[i], o)
    ensures LostIn(ss[j], o) && RowsOf(ss[j].file, o) == []
    decreases j
  {
    hide LostIn, Moves, TableOk, Inv, Reachable;
    if i < j {
      LostForGood(ss, i, j - 1, o);
      SessionsKeepInv(ss, j - 1);
      assert Follows(ss[j - 1], ss[j - 1 + 1]);
      var m :| Moves(ss[j - 1], ss[j], m);
      match m {
        case Start(listing) => LostAtStart(ss[j - 1], ss[j], listing, o);
        case Core(step) => LostAtStep(ss[j - 1], ss[j], step, o);
        case Save => LostAtSave(ss[j - 1], ss[j], o);
      }
    }
    LostHasNoRow(ss[j], o);
  }

  lemma LostHasNoRow(s: Session, o: string)
    requires LostIn(s, o)
    ensures RowsOf(s.file, o) == []
  {
    FilterNone(s.file, RowFor(o));
  }

  // -------------------------------------------------------------------------
  // Every protocol run is a run of sessions
  // -------------------------------------------------------------------------

  /** A session can start on any reachable disk at rest whose log is accepted. */
  lemma CanStart(s: Session) returns (s': Session, listing: seq<string>)
    requires Inv(s.core) && s.core.process.Resting? && s.live.None? && Accepted(s.core.disk.wal)
    ensures Moves(s, s', Start(listing)) && s'.live.Some? && s'.core == s.core && s'.file == s.file
  {
    hide DiskOk, Accepted, Project, Replayable;
    var d := s.core.disk;
    var orders := set b | b in d.wal && !b.CommitIntent? :: b.order;
    listing := ListingExists(set o | o in orders && Events(d.wal, o) != []);
    forall o | Events(d.wal, o) != []
      ensures o in orders
    {
      EventMembers(d.wal, o);
      var b := Events(d.wal, o)[0];
      assert b in Events(d.wal, o);
    }
    forall o
      ensures Replayable(o, Events(d.wal, o), Intents(d.wal)).Ok?
    {
      OrderReplays(d, o);
    }
    ProjectionSucceeds(d.wal, listing, s.file);
    s' := Session(s.core, s.file, Projected(d.wal, listing, s.file), Unmarked(d));
  }

  /** The table of a dead process is gone, and a process that is not at rest has one. */
  ghost predicate Aligned(s: Session) { s.live.None? ==> s.core.process.Resting? }

  lemma RaisesRests(st: State, st': State, step: Step)
    requires Takes(st, st', step) && Raises(step, st')
    ensures st'.process.Resting?
  {
  }

  /** Every protocol run whose log is accepted at the end is the core of a run of sessions. */
  lemma {:induction false} RunsLift(states: seq<State>, i: nat) returns (ss: seq<Session>)
    requires IsRun(states) && i < |states| && AllPriced(states[i].disk.wal)
    ensures AreSessions(ss) && ss[|ss| - 1].core == states[i] && ss[|ss| - 1].file == [] && Aligned(ss[|ss| - 1])
  {
    hide Takes, Inv, AllPriced, Accepted, LoadAndProject, Init;
    if i == 0 {
      ss := [Session(states[0], [], None, {})];
      InitRests(states[0]);
    } else {
      LogGrows(states, i - 1, i);
      PrefixPriced(states[i - 1].disk.wal, states[i].disk.wal);
      ss := RunsLift(states, i - 1);
      RunKeepsInv(states, i - 1);
      var step := StepAt(states, i);
      if ss[|ss| - 1].live.None? {
        RecoveryStartsIff(states, i - 1, "");
        var s, listing := CanStart(ss[|ss| - 1]);
        ss := Extended(ss, s, Start(listing));
      }
      var last := ss[|ss| - 1];
      var next := Session(states[i], [], LiveAfter(last.live, step, states[i]), LateAfter(last.late, step));
      ss := Extended(ss, next, Core(step));
      if Raises(step, states[i]) {
        RaisesRests(states[i - 1], states[i], step);
      }
    }
  }

  lemma InitRests(st: State)
    requires Init(st)
    ensures st.process.Resting?
  {
  }

  lemma PrefixPriced(wal: seq<Body>, more: seq<Body>)
    requires wal <= more && AllPriced(more)
    ensures AllPriced(wal)
  {
    assert forall b :: b in wal ==> b in more;
  }

  lemma Extended(ss: seq<Session>, s: Session, m: Move) returns (longer: seq<Session>)
    requires AreSessions(ss) && Moves(ss[|ss| - 1], s, m)
    ensures longer == ss + [s] && AreSessions(longer)
  {
    hide Moves, Fresh;
    longer := ss + [s];
    forall i | 0 <= i < |longer| - 1
      ensures Follows(longer[i], longer[i + 1])
    {
      if i < |ss| - 1 {
        assert Follows(ss[i], ss[i + 1]);
      }
    }
  }
}
