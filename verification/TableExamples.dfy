/** Runs in which an executed trade reaches the trade table late, or never. */
module TableExamples {
  import opened Sequences
  import opened FillRecords
  import opened Projection
  import opened Orders
  import opened FillChain
  import opened Storage
  import opened Settlement
  import opened CrashModel
  import opened CrashInvariant
  import opened CrashTrading
  import opened CrashSafety
  import opened StrategyRun
  import opened RunStretches
  import opened CrashExamples
  import opened TradeTable

  const SAVED_A := Portfolio([Trade("A", "1")], 0)
  const RUN_SAME := AfterFill(Run(CORE, SAVED_A, SAVED_A, []), Fill("B", "2"), 0)
  const INTENT_SAME := IntentFor(RUN_SAME, "c2")
  const WAL_SAME := WAL_A + [Fill("B", "2"), INTENT_SAME, MarkerOf(RefTo(Fill("B", "2")), INTENT_SAME)]

  /** A and B, of the same ticker, session and share count, are executed one after the other. */
  lemma ExecutesBoth() returns (d: Disk)
    ensures Reachable(State(d, Resting)) && AllPriced(d.wal)
    ensures d.wal == WAL_SAME && Book(d) == Both(Executed, Executed)
  {
    hide Reachable, InFlight, Priced, Current;
    var committed, finishing, done := ExecutesA();
    BothInFlight(done, Executed, PendingPrice);
    Resumes(done, CORE, 0);
    assert "1"[0] != "2"[0] && "c1"[1] != "c2"[1] && "A"[0] != "B"[0];
    var filled := FillsOrder(done, Run(CORE, SAVED_A, SAVED_A, []), "B", "2", TEN_SHARES);
    var intended := Intends(filled, RUN_SAME, "c2");
    var saved := Saves(intended, RUN_SAME, INTENT_SAME);
    d := FinishesOnly(saved, RUN_SAME, INTENT_SAME);
    FillPriced("B", "2");
    MarkerPriced(INTENT_SAME);
  }

  lemma MarkedBoth(d: Disk)
    requires d.wal == WAL_SAME
    ensures HasMarker(d, "A") && HasMarker(d, "B")
    ensures forall o :: o in ["A", "B"] <==> Events(d.wal, o) != []
  {
    var a, b := MarkerOf(RefTo(Fill("A", "1")), INTENT_A), MarkerOf(RefTo(Fill("B", "2")), INTENT_SAME);
    assert WAL_SAME[2] == a && WAL_SAME[5] == b;
    assert a in d.wal && b in d.wal;
    forall o
      ensures o in ["A", "B"] <==> Events(d.wal, o) != []
    {
      EventMembers(d.wal, o);
      assert ConcernsOrder(a, "A") && ConcernsOrder(b, "B");
      if Events(d.wal, o) != [] {
        assert Events(d.wal, o)[0] in d.wal;
      }
    }
  }

  /** The only filling of each order is the one to be replayed. */
  lemma FillsToReplay(d: Disk)
    requires DiskOk(d) && d.wal == WAL_SAME
    ensures FillFor(d.wal, "A") == Some(Fill("A", "1")) && FillFor(d.wal, "B") == Some(Fill("B", "2"))
    ensures SavedFill(d, "B", Fill("B", "2"))
  {
    hide DiskOk, HasMarker, FillFor, ChainOf;
    MarkedBoth(d);
    MarkedIsReplayed(d, "A");
    MarkedIsReplayed(d, "B");
    assert "A"[0] != "B"[0];
    OnlyFill(FillFor(d.wal, "A").value, "A");
    OnlyFill(FillFor(d.wal, "B").value, "B");
  }

  lemma OnlyFill(f: Body, o: string)
    requires f in WAL_SAME && f.Filling? && f.order == o
    ensures o == "A" ==> f == Fill("A", "1")
    ensures o == "B" ==> f == Fill("B", "2")
  {
    assert "A"[0] != "B"[0];
  }

  /** The projection appends A and takes B for the same trade. */
  lemma ProjectsOne(wal: seq<Body>)
    requires FillFor(wal, "A") == Some(Fill("A", "1")) && FillFor(wal, "B") == Some(Fill("B", "2"))
    requires Replayable("A", Events(wal, "A"), Intents(wal)).Ok? && Replayable("B", Events(wal, "B"), Intents(wal)).Ok?
    ensures Project(wal, ["A", "B"], []) == Ok([RowOf(Fill("A", "1"))])
  {
    hide Replayable, Events, Intents;
    var a, b := Fill("A", "1"), Fill("B", "2");
    RowOfFilling(a, []);
    NothingKnown();
    SameContent();
    assert ["A"][..0] == [];
    assert Project(wal, [], []) == Ok([]);
    assert !Represented(a, []);
    assert Project(wal, ["A"], []) == Ok([] + [RowOf(a)]);
    assert [] + [RowOf(a)] == [RowOf(a)];
    assert Represented(b, [RowOf(a)]);
    assert ["A", "B"][..1] == ["A"];
  }

  lemma NothingKnown()
    ensures TradeIds([]) == {} && ContentKeys([]) == {}
  {
  }

  lemma SameContent()
    ensures FillingKey(Fill("A", "1")) == FillingKey(Fill("B", "2"))
  {
  }

  /**
   * The process dies before it saves the table. The next session finds two executed orders and projects
   * one row; once it is saved, the trade of B is lost for good.
   */
  lemma LosesATrade() returns (ss: seq<Session>)
    ensures AreSessions(ss)
    ensures var s := ss[|ss| - 1];
      && Book(s.core.disk) == Both(Executed, Executed) && s.file == [RowOf(Fill("A", "1"))] && LostIn(s, "B")
  {
    hide Reachable, Priced, AllPriced, Current, Moves, LostIn, AreSessions, IsRun, DiskOk, Coherent, SavedFill, FillFor;
    var d := ExecutesBoth();
    ss := LiftsTo(d, Resting);
    var s := ss[|ss| - 1];
    CrashMoves(s);
    var died := s.(core := State(d, Resting), live := None);
    ss := Extended(ss, died, Core(Crash));
    StillSound(ss, died);
    FillsToReplay(d);
    var started := ProjectsIt(died, d);
    ss := Extended(ss, started, Start(["A", "B"]));
    var saved := started.(file := started.live.value, live := None);
    SaveMoves(started);
    ss := Extended(ss, saved, Save);
    BIsLost(saved, d);
  }

  lemma LiftsTo(d: Disk, p: Process) returns (ss: seq<Session>)
    requires Reachable(State(d, p)) && AllPriced(d.wal)
    ensures ss != [] && AreSessions(ss) && ss[|ss| - 1].core == State(d, p) && ss[|ss| - 1].file == []
  {
    hide AllPriced, Next, Fresh, Init, Follows;
    var states :| IsRun(states) && states[|states| - 1] == State(d, p);
    ss := RunsLift(states, |states| - 1);
  }

  lemma CrashMoves(s: Session)
    ensures Moves(s, s.(core := State(s.core.disk, Resting), live := None), Core(Crash))
  {
  }

  lemma SaveMoves(s: Session)
    requires s.core.process.Resting? && s.live.Some?
    ensures Moves(s, s.(file := s.live.value, live := None), Save)
  {
  }

  lemma StillSound(ss: seq<Session>, s: Session)
    requires AreSessions(ss) && ss[|ss| - 1] == s
    ensures DiskOk(s.core.disk) && Coherent(s.core.disk.wal)
  {
    hide Reachable, TableOk, DiskOk, Coherent;
    SessionsKeepInv(ss, |ss| - 1);
    ReachableFacts(s.core);
  }

  lemma ProjectsIt(s: Session, d: Disk) returns (s': Session)
    requires s.core == State(d, Resting) && s.live.None? && s.file == [] && DiskOk(d) && Coherent(d.wal)
    requires d.wal == WAL_SAME && AllPriced(d.wal)
    requires FillFor(d.wal, "A") == Some(Fill("A", "1")) && FillFor(d.wal, "B") == Some(Fill("B", "2"))
    ensures Moves(s, s', Start(["A", "B"])) && s'.live == Some([RowOf(Fill("A", "1"))])
    ensures s'.core == s.core && s'.file == s.file
  {
    hide DiskOk, Coherent, AllPriced, FillFor, Project, HasMarker, Replayable, Events, Intents, Current, ChainOf;
    MarkedBoth(d);
    OrderReplays(d, "A");
    OrderReplays(d, "B");
    ProjectsOne(d.wal);
    assert "A"[0] != "B"[0];
    s' := Session(s.core, s.file, Some([RowOf(Fill("A", "1"))]), Unmarked(d));
  }

  lemma BIsLost(s: Session, d: Disk)
    requires s.core.disk == d && d.wal == WAL_SAME && s.live.None? && s.file == [RowOf(Fill("A", "1"))]
    requires SavedFill(d, "B", Fill("B", "2"))
    ensures LostIn(s, "B")
  {
    hide HasMarker, SavedFill;
    MarkedBoth(d);
    var a, b := Fill("A", "1"), Fill("B", "2");
    RowOfFilling(a, []);
    assert [] + [RowOf(a)] == [RowOf(a)];
    NothingKnown();
    SameContent();
    assert MakeTradeId("A")[4] != MakeTradeId("B")[4];
  }

  // -------------------------------------------------------------------------
  // A trade executed by recovery
  // -------------------------------------------------------------------------

  /** A step that neither ends the session nor fills an order. */
  lemma Advances(ss: seq<Session>, after: State, step: Step) returns (longer: seq<Session>)
    requires ss != [] && AreSessions(ss) && ss[|ss| - 1].live.Some? && Takes(ss[|ss| - 1].core, after, step)
    requires !Raises(step, after) && !step.RecordFill?
    ensures longer == ss + [ss[|ss| - 1].(core := after)] && AreSessions(longer)
  {
    hide Takes, AreSessions;
    longer := Extended(ss, ss[|ss| - 1].(core := after), Core(step));
  }

  /** Recovery of the only order in flight, which is decided EXECUTED and lacks its marker. */
  lemma RecoversOne(d: Disk, s: string, o: string) returns (d': Disk, begun: State, noted: State, done: State)
    requires Accepted(d.wal) && IdsPresent(d.wal) && NeedsMarker(ViewOf(d, s), o)
    requires forall x :: Due(ViewOf(d, s), x) <==> x == o
    ensures Takes(State(d, Resting), begun, BeginRecovery(s, [o])) && Takes(begun, noted, RecoveryWrite)
    ensures Takes(noted, done, RecoveryWrite) && Takes(done, State(d', Recovered(s)), EndRecovery)
    ensures d'.saved == d.saved && o in Book(d) && Book(d') == Book(d)[o := Book(d)[o].(status := Executed)]
  {
    hide Accepted, IdsPresent, Outcome, Current, Markers, IntentOf, Marker;
    var v := ViewOf(d, s);
    assert Lists(v, [o]);
    var marked := Apply(d, AppendFill(Marker(v, o)));
    var order := v.orders[o].(status := Executed);
    d' := Apply(marked, SaveOrder(order));
    begun := State(d, Recovering(s, v, [o], 0, false));
    noted := State(marked, Recovering(s, v, [o], 0, true));
    done := State(d', Recovering(s, v, [o], 1, false));
    assert Book(d)[o].id == o;
    CurrentAfterSave(d.log, order);
  }

  const WAL_LATE := WAL_A[..2]

  /** A is in flight with no marker yet, and nothing is to be replayed. */
  lemma NothingToReplay(d: Disk)
    requires d.wal == WAL_LATE && Book(d) == Both(Settling, PendingPrice)
    ensures forall o :: o in ["A"] <==> Events(d.wal, o) != []
    ensures Markers(Events(d.wal, "A")) == [] && Project(d.wal, ["A"], []) == Ok([]) && "A" in Unmarked(d)
  {
    hide Events, Markers, Intents, ResolveFill;
    var f := Fill("A", "1");
    assert d.wal == [f, INTENT_A] && d.wal[0] == f;
    forall o
      ensures o in ["A"] <==> Events(d.wal, o) != []
    {
      EventMembers(d.wal, o);
      assert ConcernsOrder(f, "A");
      if Events(d.wal, o) != [] {
        assert Events(d.wal, o)[0] in d.wal;
      }
    }
    EventMembers(d.wal, "A");
    NoMarkers(Events(d.wal, "A"));
    assert ["A"][..0] == [];
    assert Project(d.wal, [], []) == Ok([]);
  }

  lemma NoMarkers(events: seq<Body>)
    requires forall b :: b in events ==> !b.Persisted?
    ensures Markers(events) == []
  {
    FilterNone(events, IsPersisted());
  }

  /** The process dies between the save and the marker, and a new session starts with an empty table. */
  lemma StartsWithoutA() returns (ss: seq<Session>, d: Disk)
    ensures ss != [] && AreSessions(ss) && ss[|ss| - 1] == Session(State(d, Resting), [], Some([]), Unmarked(d))
    ensures d.wal == WAL_LATE && Book(d) == Both(Settling, PendingPrice)
    ensures Accepted(d.wal) && IdsPresent(d.wal) && Outcome(ViewOf(d, CORE), "A") == Executed
  {
    hide Reachable, AllPriced, Current, Moves, AreSessions, Outcome, Project, Unmarked, Coherent, IdsPresent, Inv,
         InFlight, Events, Markers;
    var committed, finishing, done := ExecutesA();
    d := finishing;
    DecidedAfterSave(d, RUN_A, INTENT_A, "A");
    ss := LiftsTo(d, Finishing(RUN_A, INTENT_A, 0, false));
    ReachableFacts(State(d, Finishing(RUN_A, INTENT_A, 0, false)));
    var s := ss[|ss| - 1];
    CrashMoves(s);
    ss := Extended(ss, s.(core := State(d, Resting), live := None), Core(Crash));
    NothingToReplay(d);
    ss := StartsEmpty(ss, d);
  }

  lemma StartsEmpty(ss: seq<Session>, d: Disk) returns (longer: seq<Session>)
    requires ss != [] && AreSessions(ss) && Accepted(d.wal)
    requires var s := ss[|ss| - 1]; s.core == State(d, Resting) && s.file == [] && s.live.None?
    requires (forall o :: o in ["A"] <==> Events(d.wal, o) != []) && Project(d.wal, ["A"], []) == Ok([])
    ensures longer == ss + [Session(State(d, Resting), [], Some([]), Unmarked(d))] && AreSessions(longer)
  {
    hide Accepted, Project, Events, AreSessions, Unmarked;
    longer := Extended(ss, Session(State(d, Resting), [], Some([]), Unmarked(d)), Start(["A"]));
  }

  /**
   * Recovery executes A after the projection, so that the session saves a table without its trade: the
   * bookkeeper that replays the table finds cash and shares missing until the next session.
   */
  lemma RecoveredTradeIsLate() returns (ss: seq<Session>)
    ensures |ss| >= 2 && AreSessions(ss) && Moves(ss[|ss| - 2], ss[|ss| - 1], Save)
    ensures var s := ss[|ss| - 1];
      && Book(s.core.disk) == Both(Executed, PendingPrice) && s.file == [] && "A" in s.late
  {
    hide AreSessions, Moves, Takes, Outcome, Accepted, Coherent, AllPriced, IdsPresent, Current, Project, Events, Markers;
    var d;
    ss, d := StartsWithoutA();
    var start := ss[|ss| - 1];
    NothingToReplay(d);
    OnlyADue(d);
    var d', begun, noted, done := RecoversOne(d, CORE, "A");
    ss := Advances(ss, begun, BeginRecovery(CORE, ["A"]));
    ss := Advances(ss, noted, RecoveryWrite);
    ss := Advances(ss, done, RecoveryWrite);
    ss := Advances(ss, State(d', Recovered(CORE)), EndRecovery);
    ss := EndsQuietly(ss, d');
  }

  lemma OnlyADue(d: Disk)
    requires Book(d) == Both(Settling, PendingPrice)
    ensures forall x :: Due(ViewOf(d, CORE), x) <==> x == "A"
  {
    assert "A"[0] != "B"[0];
  }

  /** A run without fills: the portfolio is saved as it is, and then the table. */
  lemma EndsQuietly(ss: seq<Session>, d: Disk) returns (longer: seq<Session>)
    requires ss != [] && AreSessions(ss)
    requires ss[|ss| - 1].core == State(d, Recovered(CORE)) && ss[|ss| - 1].live.Some?
    ensures |longer| >= 2 && AreSessions(longer) && Moves(longer[|longer| - 2], longer[|longer| - 1], Save)
    ensures var s, s' := ss[|ss| - 1], longer[|longer| - 1];
      Book(s'.core.disk) == Book(d) && s'.file == s.live.value && s'.late == s.late
  {
    hide AreSessions, Moves, Current;
    var kept := SavedBy(d, CORE);
    var run := Run(CORE, kept, kept, []);
    assert kept == kept.(content := kept.content);
    assert Takes(State(d, Recovered(CORE)), State(d, Trading(run)), BeginTrading(kept.content));
    longer := Advances(ss, State(d, Trading(run)), BeginTrading(kept.content));
    var rest := State(Apply(d, SavePortfolio(CORE, kept)), Resting);
    assert Takes(State(d, Trading(run)), rest, SaveState);
    longer := Advances(longer, rest, SaveState);
    var s := longer[|longer| - 1];
    SaveMoves(s);
    longer := Extended(longer, s.(file := s.live.value, live := None), Save);
  }
}
