/** Recovery keeps the invariant: what it decides agrees with what was saved. */
module CrashRecovery {
  import opened Sequences
  import opened FillRecords
  import opened FillChain
  import opened Orders
  import opened Storage
  import opened Settlement
  import opened Restart
  import opened Recovery
  import opened CrashModel
  import opened CrashInvariant
  import opened CrashDisk

  /** Every fill a landed commit intent names is in the saved portfolio, under that attempt only. */
  lemma LandedFillSaved(d: Disk, s: string, ci: Body, r: FillRef)
    requires LogOk(d) && BooksOk(d) && Landed(d, s, ci) && r in ci.fills
    ensures r.order in Book(d) && Book(d)[r.order].strategy == s && Applied(d, r.order)
    ensures Trade(r.order, r.attempt) in SavedBy(d, s).trades
    ensures forall a :: Trade(r.order, a) in SavedBy(d, s).trades ==> a == r.attempt
  {
    assert RecordFits(d, ci) && TradesOk(d, s);
  }

  /** A marker of an order named by a landed commit intent is a marker for that very reference. */
  lemma LandedMarker(d: Disk, s: string, ci: Body, r: FillRef, m: Body)
    requires LogOk(d) && BooksOk(d) && Landed(d, s, ci) && r in ci.fills
    requires m in d.wal && m.Persisted? && m.order == r.order
    ensures m.version == CURRENT_VERSION && m.commitId == ci.commitId && m.post == ci.post
    ensures m.attempt == r.attempt && m.fillingHash == r.hash
  {
    LandedFillSaved(d, s, ci, r);
    assert RecordFits(d, m);
    var own :| own in d.wal && own.CommitIntent? && own.commitId == m.commitId && own.post == m.post
               && FillRef(m.order, m.attempt, m.fillingHash) in own.fills;
    assert own == ci;
    RefLookup(d.wal, ci, r);
    FilterMembers(ci.fills, RefOf(r.order));
    assert FillRef(m.order, m.attempt, m.fillingHash) in Filter(ci.fills, RefOf(r.order));
  }

  /** In the log, commit intents of the current version resolve for every order they name. */
  lemma NamedResolves(d: Disk, ci: Body, r: FillRef)
    requires LogOk(d) && ci in d.wal && ci.CommitIntent? && r in ci.fills
    ensures
      var named := ResolveFromIntent(r.order, Events(d.wal, r.order), ci, CURRENT_VERSION);
      named.Ok? && named.value.ref == r && named.value.filling.attempt == r.attempt
      && r.hash == Some(Sha256(named.value.filling))
  {
    RefLookup(d.wal, ci, r);
    var f := Fillings(Events(d.wal, r.order), r.attempt)[0];
    FilterMembers(Events(d.wal, r.order), FillingOf(r.attempt));
    EventMembers(d.wal, r.order);
    assert f in Fillings(Events(d.wal, r.order), r.attempt);
    assert RecordFits(d, f);
  }

  lemma LandedChain(d: Disk, s: string, ci: Body, r: FillRef)
    requires LogOk(d) && BooksOk(d) && Landed(d, s, ci) && r in ci.fills && HasMarker(d, r.order)
    ensures r.order != "" && Markers(Events(d.wal, r.order)) != [] && ChainLeadsTo(ViewOf(d, s), r.order, ci)
  {
    RefLookup(d.wal, ci, r);
    MarkerIff(d, r.order);
    NamedResolves(d, ci, r);
    EventMembers(d.wal, r.order);
    FilterMembers(Events(d.wal, r.order), IsPersisted());
    var m := Markers(Events(d.wal, r.order))[0];
    assert m in Markers(Events(d.wal, r.order));
    LandedMarker(d, s, ci, r, m);
    assert RecordFits(d, ci);
    StrictChainIff(d.wal, r.order, ci);
  }

  lemma LandedRefFits(d: Disk, s: string, ci: Body, r: FillRef)
    requires LogOk(d) && BooksOk(d) && StatusOk(d) && Landed(d, s, ci) && r in ci.fills
    ensures RefFits(ViewOf(d, s), ci, r)
  {
    var v := ViewOf(d, s);
    NamedResolves(d, ci, r);
    RefLookup(d.wal, ci, r);
    LandedFillSaved(d, s, ci, r);
    MarkerIff(d, r.order);
    if HasMarker(d, r.order) {
      LandedChain(d, s, ci, r);
    }
    if v.orders[r.order].status == Settling {
      assert InFlight(d, s, r.order);
    }
  }

  /** When a commit intent has landed, recovery executes every fill in flight. */
  lemma LandedDecision(d: Disk, s: string, ci: Body, o: string)
    requires LogOk(d) && BooksOk(d) && StatusOk(d) && Landed(d, s, ci) && InFlight(d, s, o)
    ensures Outcome(ViewOf(d, s), o) == Executed && Applied(d, o) && IntentOf(ViewOf(d, s), o) == Some(ci)
    ensures exists r :: r in ci.fills && r.order == o
  {
    var v := ViewOf(d, s);
    assert IntentOf(v, o) == Some(ci) && NamesOrder(ci, o);
    var r :| r in ci.fills && r.order == o;
    LandedFillSaved(d, s, ci, r);
    assert RecordFits(d, ci);
    forall q | q in ci.fills
      ensures RefFits(v, ci, q)
    {
      LandedRefFits(d, s, ci, q);
    }
    assert Alone(v, ci) == PortfolioSaved;
    forall other | Active(v, other)
      ensures other == ci
    {
      var o' :| InBatch(v, other, o');
      assert InFlight(d, s, o');
    }
    assert !Contested(v, ci);
  }

  /** Recovery executes only fills that the saved portfolio contains. */
  lemma ExecutedIsApplied(d: Disk, s: string, o: string)
    requires LogOk(d) && InFlight(d, s, o) && Outcome(ViewOf(d, s), o) == Executed
    ensures Applied(d, o)
  {
    var v := ViewOf(d, s);
    var ci := IntentOf(v, o).value;
    IntentMembers(d.wal);
    assert RecordFits(d, ci);
    var r :| r in ci.fills && r.order == o;
    assert Trade(r.order, r.attempt) in SavedBy(d, s).trades;
  }

  lemma BeginRecoveryOk(d: Disk, s: string, todo: seq<string>)
    requires DiskOk(d) && Lists(ViewOf(d, s), todo)
    ensures RecoveringOk(d, Recovering(s, ViewOf(d, s), todo, 0, false))
  {
    var v := ViewOf(d, s);
    var p := Recovering(s, v, todo, 0, false);
    forall i | 0 <= i < |todo|
      ensures Due(v, todo[i])
    {
      assert todo[i] in todo;
    }
    forall i | 0 <= i < |todo|
      ensures RecoveryJob(d, p, i)
    {
      FirstJob(d, s, todo, i);
    }
  }

  lemma FirstJob(d: Disk, s: string, todo: seq<string>, i: nat)
    requires DiskOk(d) && i < |todo| && InFlight(d, s, todo[i])
    ensures RecoveryJob(d, Recovering(s, ViewOf(d, s), todo, 0, false), i)
  {
    var v, o := ViewOf(d, s), todo[i];
    assert FlightOk(d, s);
    MarkerIff(d, o);
    if NoneLanded(d, s) {
      if Outcome(v, o) == Executed {
        ExecutedIsApplied(d, s, o);
      }
    } else {
      var ci :| Landed(d, s, ci);
      LandedDecision(d, s, ci, o);
      var r :| r in ci.fills && r.order == o;
      NamedResolves(d, ci, r);
      if NeedsMarker(v, o) {
        assert Marker(v, o) == MarkerOf(r, ci);
      }
    }
  }

  // -------------------------------------------------------------------------
  // One durable write of recovery
  // -------------------------------------------------------------------------

  lemma LandedMarkerFits(d: Disk, s: string, ci: Body, ref: FillRef)
    requires LogOk(d) && BooksOk(d) && Landed(d, s, ci) && ci.CommitIntent? && ref in ci.fills
    ensures ref.order != "" && PersistedOk(MarkerOf(ref, ci))
    ensures RecordFits(Apply(d, AppendFill(MarkerOf(ref, ci))), MarkerOf(ref, ci))
  {
    var m := MarkerOf(ref, ci);
    var d' := Apply(d, AppendFill(m));
    LandedFillSaved(d, s, ci, ref);
    RefLookup(d.wal, ci, ref);
    assert RecordFits(d, ci);
    hide Coherent, RefResolves;
    assert ci in d'.wal && FillRef(m.order, m.attempt, m.fillingHash) == ref;
    assert MarkerFits(d', m);
  }

  lemma AppendedMarker(d: Disk, m: Body)
    requires m.Persisted?
    ensures forall o :: HasMarker(Apply(d, AppendFill(m)), o) <==> o == m.order || HasMarker(d, o)
  {
    var d' := Apply(d, AppendFill(m));
    assert m in d'.wal;
    forall o | HasMarker(d, o)
      ensures HasMarker(d', o)
    {
      var b :| b in d.wal && b.Persisted? && b.order == o;
      assert b in d'.wal;
    }
  }

  /** A marker for a landed reference may be appended. */
  lemma LandedMarkerAppends(d: Disk, s: string, ci: Body, ref: FillRef)
    requires DiskOk(d) && Landed(d, s, ci) && ci.CommitIntent? && ref in ci.fills && !HasMarker(d, ref.order)
    ensures DiskOk(Apply(d, AppendFill(MarkerOf(ref, ci))))
    ensures Landed(Apply(d, AppendFill(MarkerOf(ref, ci))), s, ci)
  {
    hide Coherent, AttemptsSplit, RecordFits, Landed, HasMarker, TradesOk, StatusOk, FlightOk;
    var m := MarkerOf(ref, ci);
    LandedMarkerFits(d, s, ci, ref);
    MarkerIff(d, ref.order);
    CoherentWithMarker(d.wal, m);
    SplitKept(d.wal, m);
    AppendKeepsDisk(d, m);
    AppendKeepsLanded(d, m, s, ci);
  }

  lemma RecoveryMarkerOk(st: State, st': State)
    requires Inv(st) && RecoveryStep(st, st') && MarkerNext(st.process)
    ensures Inv(st')
  {
    hide Coherent, RecordFits, Landed, HasMarker, TradesOk, StatusOk, FlightOk, NeedsMarker, Outcome, ViewOf;
    var d, d', p, p' := st.disk, st'.disk, st.process, st'.process;
    var o := p.todo[p.n];
    var ci, ref := NextMarker(d, p);
    var m := MarkerOf(ref, ci);
    LandedMarkerAppends(d, p.strategy, ci, ref);
    AppendKeepsBooks(d, m);
    forall i | p'.n <= i < |p'.todo|
      ensures RecoveryJob(d', p', i)
    {
      JobAfterAppend(d, p, i, m);
    }
  }

  lemma NextMarker(d: Disk, p: Process) returns (ci: Body, ref: FillRef)
    requires p.Recovering? && RecoveringOk(d, p) && p.n < |p.todo| && MarkerNext(p)
    ensures Landed(d, p.strategy, ci) && ci.CommitIntent? && ref in ci.fills && ref.order == p.todo[p.n]
    ensures Marker(p.view, p.todo[p.n]) == MarkerOf(ref, ci) && !HasMarker(d, ref.order)
  {
    assert RecoveryJob(d, p, p.n);
    ci, ref :| Landed(d, p.strategy, ci) && ci.CommitIntent? && ref in ci.fills && ref.order == p.todo[p.n]
               && Marker(p.view, p.todo[p.n]) == MarkerOf(ref, ci);
  }

  lemma JobAfterAppend(d: Disk, p: Process, i: nat, m: Body)
    requires p.Recovering? && p.n <= i < |p.todo| && Due(p.view, p.todo[i]) && RecoveryJob(d, p, i)
    requires BooksOk(d) && m.Persisted? && Distinct(p.todo) && m.order == p.todo[p.n] && MarkerNext(p)
    ensures RecoveryJob(Apply(d, AppendFill(m)), Recovering(p.strategy, p.view, p.todo, p.n, true), i)
  {
    hide HasMarker, Landed, Outcome, TradesOk;
    var d', o := Apply(d, AppendFill(m)), p.todo[i];
    AppendKeepsBooks(d, m);
    AppendedMarker(d, m);
    if i != p.n && NeedsMarker(p.view, o) {
      var ci, ref :| Landed(d, p.strategy, ci) && ci.CommitIntent? && ref in ci.fills && ref.order == o
                     && Marker(p.view, o) == MarkerOf(ref, ci);
      AppendKeepsLanded(d, m, p.strategy, ci);
    }
  }

  /** If recovery does not execute an order, nothing of its strategy has landed. */
  lemma NotExecutedMeansUnlanded(d: Disk, s: string, o: string)
    requires DiskOk(d) && InFlight(d, s, o) && !Applied(d, o)
    ensures NoneLanded(d, s)
  {
    assert FlightOk(d, s);
    if ci :| Landed(d, s, ci) {
      LandedDecision(d, s, ci, o);
    }
  }

  lemma RecoverySaveOk(st: State, st': State)
    requires Inv(st) && RecoveryStep(st, st') && !MarkerNext(st.process)
    ensures Inv(st')
  {
    hide DiskOk, RecoveringOk, Outcome, MarkerNext;
    RecoverySaveKeepsDisk(st.disk, st.process);
    RecoverySaveGoesOn(st.disk, st.process);
  }

  lemma RecoverySaveKeepsDisk(d: Disk, p: Process)
    requires DiskOk(d) && p.Recovering? && RecoveringOk(d, p) && p.n < |p.todo| && !MarkerNext(p)
    requires p.todo[p.n] in p.view.orders
    ensures DiskOk(Apply(d, SaveOrder(p.view.orders[p.todo[p.n]].(status := Outcome(p.view, p.todo[p.n])))))
  {
    var order := p.view.orders[p.todo[p.n]].(status := Outcome(p.view, p.todo[p.n]));
    hide LogOk, HasMarker, BooksOk, StatusOk, Outcome, NoneLanded, Applied, InFlight, RecoveringOk, MarkerNext, FlightOk,
         Current, RecoveryJob, SameOrder, SavedBy;
    NextSave(d, p);
    SaveKeepsLog(d, order);
    SaveKeepsStatus(d, order);
    forall s
      ensures FlightOk(Apply(d, SaveOrder(order)), s)
    {
      assert FlightOk(d, s);
      SaveKeepsFlight(d, order, s);
    }
  }

  lemma RecoverySaveGoesOn(d: Disk, p: Process)
    requires DiskOk(d) && p.Recovering? && RecoveringOk(d, p) && p.n < |p.todo| && !MarkerNext(p)
    requires p.todo[p.n] in p.view.orders
    ensures RecoveringOk(Apply(d, SaveOrder(p.view.orders[p.todo[p.n]].(status := Outcome(p.view, p.todo[p.n])))),
                         Recovering(p.strategy, p.view, p.todo, p.n + 1, false))
  {
    var o := p.todo[p.n];
    var order := p.view.orders[o].(status := Outcome(p.view, o));
    NextSave(d, p);
    hide DiskOk, Outcome, NoneLanded, Applied, InFlight, RecoveryJob, MarkerNext, Due;
    SaveFlight(d, order, p.strategy);
    var d', p' := Apply(d, SaveOrder(order)), Recovering(p.strategy, p.view, p.todo, p.n + 1, false);
    forall i | p'.n <= i < |p'.todo|
      ensures RecoveryJob(d', p', i)
    {
      assert RecoveryJob(d, p, i);
      JobAfterSave(d, p, i, order);
    }
    forall x | InFlight(d', p.strategy, x)
      ensures exists i :: p'.n <= i < |p'.todo| && p'.todo[i] == x
    {
      var i :| p.n <= i < |p.todo| && p.todo[i] == x;
      assert i != p.n;
    }
  }

  /** What the next snapshot of recovery looks like. */
  lemma NextSave(d: Disk, p: Process)
    requires DiskOk(d) && p.Recovering? && RecoveringOk(d, p) && p.n < |p.todo| && !MarkerNext(p)
    requires p.todo[p.n] in p.view.orders
    ensures var o := p.todo[p.n];
            var order := p.view.orders[o].(status := Outcome(p.view, o));
            && order.id == o && SameOrder(d, order) && order.strategy == p.strategy && InFlight(d, p.strategy, o)
            && (order.status == Executed ==> HasMarker(d, o) && Applied(d, o))
            && (order.status != Executed ==> !Applied(d, o) && NoneLanded(d, p.strategy))
  {
    var o := p.todo[p.n];
    assert RecoveryJob(d, p, p.n);
    assert Book(d)[o].id == o;
    assert StatusOk(d) && o != "";
    assert InFlight(d, p.strategy, o);
    if !Applied(d, o) {
      NotExecutedMeansUnlanded(d, p.strategy, o);
    }
  }

  lemma JobAfterSave(d: Disk, p: Process, i: nat, order: Order)
    requires p.Recovering? && p.n < i < |p.todo| && Due(p.view, p.todo[i]) && RecoveryJob(d, p, i)
    requires DiskOk(d) && SameOrder(d, order) && Distinct(p.todo) && order.id == p.todo[p.n]
    requires order.strategy == p.strategy == p.view.strategy && InFlight(d, p.strategy, order.id)
    requires order.status != Settling && (Applied(d, order.id) ==> order.status == Executed)
    ensures RecoveryJob(Apply(d, SaveOrder(order)), Recovering(p.strategy, p.view, p.todo, p.n + 1, false), i)
  {
    hide Landed, Outcome, LogOk, BooksOk, StatusOk, FlightOk, Applied;
    var d', o := Apply(d, SaveOrder(order)), p.todo[i];
    SaveKeepsLog(d, order);
    SaveKeepsApplied(d, order);
    assert forall x :: HasMarker(d', x) <==> HasMarker(d, x);
    if NeedsMarker(p.view, o) {
      var ci, ref :| Landed(d, p.strategy, ci) && ci.CommitIntent? && ref in ci.fills && ref.order == o
                     && Marker(p.view, o) == MarkerOf(ref, ci);
      LandedDecision(d, p.strategy, ci, order.id);
      LandedAfterSave(d, order, p.strategy, ci);
    }
  }
}
