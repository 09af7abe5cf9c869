/** An execution run keeps the invariant: fills, commit intent, portfolio save, markers, EXECUTED. */
module CrashTrading {
  import opened Sequences
  import opened FillRecords
  import opened FillChain
  import opened Orders
  import opened FillWriter
  import opened Storage
  import opened Settlement
  import opened Restart
  import opened Recovery
  import opened CrashModel
  import opened CrashInvariant
  import opened CrashDisk
  import opened CrashRecovery

  // -------------------------------------------------------------------------
  // Snapshots of orders that are not in flight
  // -------------------------------------------------------------------------

  lemma SaveKeepsTrading(d: Disk, order: Order, run: Run)
    requires LogOk(d) && BooksOk(d) && SameOrder(d, order) && TradingOk(d, run)
    requires order.status != Settling && !InFlight(d, run.strategy, order.id)
    ensures TradingOk(Apply(d, SaveOrder(order)), run)
  {
    var d' := Apply(d, SaveOrder(order));
    SaveFlight(d, order, run.strategy);
    forall r | r in run.fills
      ensures Unclaimed(d', run.strategy, r)
    {
      assert Unclaimed(d, run.strategy, r);
      UnclaimedAfterSave(d, order, run.strategy, r);
    }
  }

  lemma UnclaimedAfterSave(d: Disk, order: Order, strategy: string, r: FillRef)
    requires LogOk(d) && BooksOk(d) && SameOrder(d, order) && Unclaimed(d, strategy, r)
    ensures Unclaimed(Apply(d, SaveOrder(order)), strategy, r)
  {
    hide LogOk, BooksOk, RefResolves, Applied;
    SaveKeepsApplied(d, order);
    CurrentAfterSave(d.log, order);
  }

  /** Creating an order, retrying it, cancelling it or expiring it. */
  lemma IdleSaveOk(d: Disk, order: Order)
    requires DiskOk(d) && SameOrder(d, order) && order.status != Settling && order.status != Executed
    requires order.id in Book(d) ==> Book(d)[order.id].status == PendingPrice
    ensures DiskOk(Apply(d, SaveOrder(order)))
    ensures forall s :: !InFlight(d, s, order.id)
  {
    var d' := Apply(d, SaveOrder(order));
    assert !Applied(d, order.id);
    SaveKeepsLog(d, order);
    SaveKeepsStatus(d, order);
    hide LogOk, BooksOk, StatusOk, NoneLanded, Applied;
    forall s
      ensures FlightOk(d', s)
    {
      assert FlightOk(d, s);
      SaveKeepsFlight(d, order, s);
    }
  }

  /** An order queued for retry never has a persisted marker. */
  lemma PendingHasNoMarker(d: Disk, o: string)
    requires DiskOk(d) && o in Book(d) && HasMarker(d, o)
    ensures Applied(d, o) && (Book(d)[o].status == Settling || Book(d)[o].status == Executed)
  {
    var m :| m in d.wal && m.Persisted? && m.order == o;
    assert RecordFits(d, m);
  }

  // -------------------------------------------------------------------------
  // Recording a fill
  // -------------------------------------------------------------------------

  /** A fill attempt that a reference names has a filling record. */
  lemma NewFillingResolves(wal: seq<Body>, ci: Body, f: Body)
    requires ci.CommitIntent? && f.Filling? && f.order != ""
    requires forall b :: b in wal && b.Filling? ==> b.attempt != f.attempt
    requires f.strategy == ci.strategy && f.portfolioId == ci.portfolioId && f.portfolioVersion == ci.portfolioVersion
    ensures RefResolves(wal + [f], ci, RefTo(f))
  {
    FilterSnoc(wal, f, AboutOrder(f.order));
    FilterSnoc(Events(wal, f.order), f, FillingOf(f.attempt));
    EventMembers(wal, f.order);
    FilterNone(Events(wal, f.order), FillingOf(f.attempt));
  }

  lemma UnclaimedAfterFilling(d: Disk, strategy: string, r: FillRef, f: Body)
    requires BooksOk(d) && Unclaimed(d, strategy, r) && f.Filling?
    requires forall b :: b in d.wal && b.Filling? ==> b.attempt != f.attempt
    ensures Unclaimed(Apply(d, AppendFill(f)), strategy, r) && r.attempt != f.attempt
  {
    hide BooksOk, RefResolves, Applied;
    AppendKeepsBooks(d, f);
    ResolvesAfterFilling(d.wal, IntentFor(Run(strategy, FRESH_PORTFOLIO, FRESH_PORTFOLIO, []), "x"), r, f);
  }

  lemma NewFillingUnclaimed(d: Disk, strategy: string, f: Body)
    requires DiskOk(d) && FreshFilling(d, strategy, f)
    ensures Unclaimed(Apply(d, AppendFill(f)), strategy, RefTo(f))
  {
    hide Coherent, Applied, FillingShaped;
    var d' := Apply(d, AppendFill(f));
    AppendKeepsBooks(d, f);
    NewFillingResolves(d.wal, IntentFor(Run(strategy, FRESH_PORTFOLIO, FRESH_PORTFOLIO, []), "x"), f);
    forall ci, q | ci in d'.wal && ci.CommitIntent? && q in ci.fills
      ensures q.attempt != f.attempt
    {
      CoherentRefResolves(d.wal, ci, q);
      ReferencedAttemptExists(d.wal, ci, q);
    }
  }

  lemma CoherentRefResolves(wal: seq<Body>, ci: Body, r: FillRef)
    requires Coherent(wal) && ci in wal && ci.CommitIntent? && r in ci.fills
    ensures RefResolves(wal, ci, r)
  {
  }

  lemma RecordFillOk(st: State, st': State, f: Body, content: int)
    requires Inv(st) && st.process.Trading? && Takes(st, st', Step.RecordFill(f, content))
    ensures Inv(st')
  {
    hide DiskOk, TradingOk, MemoryOk;
    FillingKeepsDisk(st.disk, st.process.run, f);
    FillingAnnotating(st.disk, st.process.run, f, content);
  }

  lemma FillingKeepsDisk(d: Disk, run: Run, f: Body)
    requires DiskOk(d) && FreshFilling(d, run.strategy, f)
    ensures DiskOk(Apply(d, AppendFill(f)))
  {
    hide FlightOk, BooksOk, Coherent;
    assert StatusOk(d);
    CoherentWithFilling(d.wal, f);
    SplitKept(d.wal, f);
    assert RecordFits(Apply(d, AppendFill(f)), f);
    AppendKeepsDisk(d, f);
  }

  lemma FillingAnnotating(d: Disk, run: Run, f: Body, content: int)
    requires DiskOk(d) && TradingOk(d, run) && MemoryOk(d, run, run.fills) && FreshFilling(d, run.strategy, f)
    ensures ProcessOk(Apply(d, AppendFill(f)),
                      Annotating(run.(memory := Portfolio(run.memory.trades + [Trade(f.order, f.attempt)], content)), RefTo(f)))
  {
    hide Applied, Coherent, FlightOk, StatusOk, FillingShaped, Unclaimed;
    var d' := Apply(d, AppendFill(f));
    AppendKeepsBooks(d, f);
    NewFillingUnclaimed(d, run.strategy, f);
    forall r | r in run.fills
      ensures Unclaimed(d', run.strategy, r) && r.attempt != f.attempt && r.order != f.order
    {
      assert InFlight(d, run.strategy, r.order);
      UnclaimedAfterFilling(d, run.strategy, r, f);
    }
    assert TradesOf(run.fills + [RefTo(f)]) == TradesOf(run.fills) + [Trade(f.order, f.attempt)];
  }


  /** The SETTLING snapshot puts the fill in flight. */
  lemma AnnotateOk(st: State, st': State)
    requires Inv(st) && st.process.Annotating? && Takes(st, st', Annotate)
    ensures Inv(st')
  {
    var d, run, ref := st.disk, st.process.run, st.process.ref;
    var d', run' := st'.disk, st'.process.run;
    var order := WithStatus(d, ref.order, Settling);
    assert order.id == ref.order && SameOrder(d, order);
    SaveKeepsLog(d, order);
    SaveKeepsApplied(d, order);
    SaveKeepsStatus(d, order);
    SaveFlight(d, order, run.strategy);
    forall r | r in run'.fills
      ensures Unclaimed(d', run.strategy, r)
    {
      UnclaimedAfterSave(d, order, run.strategy, r);
    }
    hide LogOk, BooksOk, StatusOk, Applied, Unclaimed;
    assert forall r :: r in run'.fills <==> r in run.fills || r == ref;
    TradingMeansUnlanded(d', run');
    forall s
      ensures FlightOk(d', s)
    {
      assert FlightOk(d, s);
      if s != run.strategy {
        SaveKeepsFlight(d, order, s);
      }
    }
  }

  /** While a run trades, nothing of its strategy has landed. */
  lemma TradingMeansUnlanded(d: Disk, run: Run)
    requires TradingOk(d, run)
    ensures NoneLanded(d, run.strategy)
  {
    forall o | InFlight(d, run.strategy, o)
      ensures !Applied(d, o)
    {
      assert o in OrdersIn(run.fills);
      var r :| r in run.fills && r.order == o;
      assert Unclaimed(d, run.strategy, r);
    }
  }

  // -------------------------------------------------------------------------
  // Commit intent and portfolio save
  // -------------------------------------------------------------------------

  lemma CoherentWithIntent(wal: seq<Body>, ci: Body)
    requires Coherent(wal) && ci.CommitIntent? && IntentOk(ci)
    requires forall b :: b in wal && b.CommitIntent? ==> b.commitId != ci.commitId
    requires forall r :: r in ci.fills ==> RefResolves(wal, ci, r)
    ensures Coherent(wal + [ci])
  {
    var longer := wal + [ci];
    forall x, r | x in longer && x.CommitIntent? && r in x.fills
      ensures RefResolves(longer, x, r)
    {
      assert RefResolves(wal, x, r);
      FilterSnoc(wal, ci, AboutOrder(r.order));
    }
    forall i | 0 <= i < |wal|
      ensures CommitIdsDiffer(wal[i], ci)
    {
      assert wal[i] in wal;
    }
  }

  lemma NamedByIntent(intents: seq<Body>, ci: Body, o: string)
    requires ci.CommitIntent? && NamesOrder(ci, o)
    ensures Mapped(intents + [ci], ci.strategy, o) == Some(ci)
  {
  }

  lemma WriteIntentOk(st: State, st': State, commitId: string)
    requires Inv(st) && st.process.Trading? && Takes(st, st', WriteIntent(commitId))
    ensures Inv(st')
  {
    hide DiskOk, TradingOk, MemoryOk;
    IntentKeepsDisk(st.disk, st.process.run, commitId);
    IntentCommitted(st.disk, st.process.run, commitId);
  }

  lemma IntentKeepsDisk(d: Disk, run: Run, commitId: string)
    requires DiskOk(d) && TradingOk(d, run) && MemoryOk(d, run, run.fills) && run.fills != [] && commitId != ""
    requires forall b :: b in d.wal && b.CommitIntent? ==> b.commitId != commitId
    ensures DiskOk(Apply(d, AppendFill(IntentFor(run, commitId))))
  {
    hide FlightOk, BooksOk, StatusOk, Coherent, RecordFits, TradingOk, MemoryOk, NoneLanded, RefResolves, IntentOk;
    var ci := IntentFor(run, commitId);
    IntentForFits(d, run, commitId);
    CoherentWithIntent(d.wal, ci);
    SplitKept(d.wal, ci);
    TradingMeansUnlanded(d, run);
    AppendKeepsDisk(d, ci);
  }

  lemma IntentCommitted(d: Disk, run: Run, commitId: string)
    requires DiskOk(d) && TradingOk(d, run) && MemoryOk(d, run, run.fills) && run.fills != []
    ensures ProcessOk(Apply(d, AppendFill(IntentFor(run, commitId))), Committed(run, IntentFor(run, commitId)))
  {
    hide BooksOk, LogOk, StatusOk, FlightOk, Applied, InFlight;
    var ci := IntentFor(run, commitId);
    var d' := Apply(d, AppendFill(ci));
    AppendKeepsBooks(d, ci);
    FilterSnoc(d.wal, ci, IsIntent());
    forall o | InFlight(d', run.strategy, o)
      ensures Mapped(Intents(d'.wal), run.strategy, o) == Some(ci)
    {
      var r :| r in run.fills && r.order == o;
      assert Unclaimed(d, run.strategy, r);
      NamedByIntent(Intents(d.wal), ci, o);
    }
    forall r | r in run.fills
      ensures !Applied(d', r.order)
    {
      assert Unclaimed(d, run.strategy, r);
    }
  }

  /** The commit intent of a run meets every check the loader and the protocol make on it. */
  lemma IntentForFits(d: Disk, run: Run, commitId: string)
    requires TradingOk(d, run) && MemoryOk(d, run, run.fills) && run.fills != [] && commitId != ""
    ensures var ci := IntentFor(run, commitId);
            && IntentOk(ci) && (forall r :: r in ci.fills ==> RefResolves(d.wal, ci, r))
            && RecordFits(Apply(d, AppendFill(ci)), ci)
            && (forall x, r, q :: x in d.wal && x.CommitIntent? && r in x.fills && q in ci.fills ==> r.attempt != q.attempt)
  {
    var ci := IntentFor(run, commitId);
    forall r | r in ci.fills
      ensures RefComplete(r) && RefResolves(d.wal, ci, r)
      ensures r.order in Book(d) && Book(d)[r.order].strategy == ci.strategy
      ensures Trade(r.order, r.attempt) in run.memory.trades
    {
      assert Unclaimed(d, run.strategy, r);
      var i :| 0 <= i < |run.fills| && run.fills[i] == r;
      assert TradesOf(run.fills)[i] == Trade(r.order, r.attempt);
    }
  }

  /** A save that adds no trade changes nothing the invariant speaks about. */
  lemma IdleSavePortfolioOk(st: State, st': State)
    requires Inv(st) && st.process.Trading? && st.process.run.fills == [] && Takes(st, st', SaveState)
    ensures Inv(st')
  {
    var d, d', run := st.disk, st'.disk, st.process.run;
    assert TradesOf(run.fills) == [];
    ResavedDisk(d, run.strategy, run.memory);
    hide LogOk, BooksOk, StatusOk, Takes;
    forall s
      ensures FlightOk(d', s)
    {
      assert FlightOk(d, s);
      FlightAfterSave(d, run.strategy, run.memory, s);
    }
  }

  lemma ResavedDisk(d: Disk, strategy: string, p: Portfolio)
    requires LogOk(d) && BooksOk(d) && StatusOk(d) && p.trades == SavedBy(d, strategy).trades
    ensures var d' := Apply(d, SavePortfolio(strategy, p)); LogOk(d') && BooksOk(d') && StatusOk(d')
  {
    var d' := Apply(d, SavePortfolio(strategy, p));
    SavedElsewhere(d, strategy, p);
    hide Coherent, AttemptsSplit;
    assert forall s, o :: InSaved(d', s, o) <==> InSaved(d, s, o);
    forall o | o in Book(d')
      ensures Applied(d', o) <==> Applied(d, o)
      ensures HasMarker(d', o) <==> HasMarker(d, o)
    {
    }
    StatusCarries(d, d');
    forall b | b in d'.wal
      ensures RecordFits(d', b)
    {
      assert RecordFits(d, b);
    }
    forall s
      ensures TradesOk(d', s)
    {
      assert TradesOk(d, s);
    }
  }

  lemma StatusCarries(d: Disk, d': Disk)
    requires StatusOk(d) && Book(d') == Book(d)
    requires forall o :: o in Book(d) && Book(d)[o].status != Settling && Book(d)[o].status != Executed ==>
               Applied(d', o) ==> Applied(d, o)
    requires forall o :: o in Book(d) ==> (HasMarker(d', o) <==> HasMarker(d, o))
    ensures StatusOk(d')
  {
    forall o | o in Book(d')
      ensures o != ""
      ensures Book(d')[o].status != Settling && Book(d')[o].status != Executed ==> !Applied(d', o)
      ensures Book(d')[o].status == Executed ==> HasMarker(d', o)
    {
      assert o in Book(d);
    }
  }

  lemma SavedElsewhere(d: Disk, strategy: string, p: Portfolio)
    ensures forall s :: SavedBy(Apply(d, SavePortfolio(strategy, p)), s) ==
                        if s == strategy then p else SavedBy(d, s)
  {
  }

  /** Another strategy's fills, or a strategy with nothing in flight, do not notice a save. */
  lemma FlightAfterSave(d: Disk, strategy: string, p: Portfolio, s: string)
    requires FlightOk(d, s)
    requires s == strategy ==> forall o :: !InFlight(d, s, o)
    ensures FlightOk(Apply(d, SavePortfolio(strategy, p)), s)
  {
    var d' := Apply(d, SavePortfolio(strategy, p));
    SavedElsewhere(d, strategy, p);
    assert forall o :: InFlight(d', s, o) <==> InFlight(d, s, o);
    if s != strategy {
      if NoneLanded(d, s) {
        assert forall o :: InFlight(d, s, o) ==> (Applied(d', o) <==> Applied(d, o));
        assert NoneLanded(d', s);
      } else {
        var ci :| Landed(d, s, ci);
        assert Landed(d', s, ci);
      }
    }
  }

  lemma CommittedSaveOk(st: State, st': State)
    requires Inv(st) && st.process.Committed? && Takes(st, st', SaveState)
    ensures Inv(st')
  {
    var d, d', run, ci := st.disk, st'.disk, st.process.run, st.process.intent;
    var s := run.strategy;
    SavedElsewhere(d, s, run.memory);
    SavedFills(d, run);
    forall b | b in d'.wal
      ensures RecordFits(d', b)
    {
      assert RecordFits(d, b);
    }
    forall s'
      ensures TradesOk(d', s')
    {
      assert TradesOk(d, s');
      if s' == s {
        GrownTradesOk(d, run);
      }
    }
    forall o | o in Book(d')
      ensures Applied(d', o) <==> Applied(d, o) || (o in OrdersIn(run.fills) && Book(d)[o].strategy == s)
      ensures HasMarker(d', o) <==> HasMarker(d, o)
    {
    }
    forall o | o in Book(d) && Book(d)[o].status != Settling && Book(d)[o].status != Executed
      ensures !Applied(d', o)
    {
      assert !InFlight(d, s, o);
    }
    StatusCarries(d, d');
    assert Landed(d', s, ci) by {
      CommittedLands(d, run, ci);
    }
    forall s'
      ensures FlightOk(d', s')
    {
      assert FlightOk(d, s');
      if s' != s {
        FlightAfterSave(d, s, run.memory, s');
      }
    }
    forall i | 0 <= i < |run.fills|
      ensures InFlight(d', s, run.fills[i].order) && !HasMarker(d', run.fills[i].order)
    {
      assert run.fills[i] in run.fills && run.fills[i].order in OrdersIn(run.fills);
      assert InFlight(d, s, run.fills[i].order);
      if HasMarker(d, run.fills[i].order) {
        PendingHasNoMarker(d, run.fills[i].order);
      }
    }
  }

  /** After the save, exactly the orders applied before and those of the run are applied. */
  lemma SavedFills(d: Disk, run: Run)
    requires MemoryOk(d, run, run.fills)
    ensures var d' := Apply(d, SavePortfolio(run.strategy, run.memory));
            && (forall t :: t in SavedBy(d, run.strategy).trades ==> t in SavedBy(d', run.strategy).trades)
            && (forall o :: InSaved(d', run.strategy, o) <==> InSaved(d, run.strategy, o) || o in OrdersIn(run.fills))
            && (forall s, o :: s != run.strategy ==> (InSaved(d', s, o) <==> InSaved(d, s, o)))
  {
    var d' := Apply(d, SavePortfolio(run.strategy, run.memory));
    SavedElsewhere(d, run.strategy, run.memory);
    var before, added := SavedBy(d, run.strategy).trades, TradesOf(run.fills);
    forall o
      ensures InSaved(d', run.strategy, o) <==> InSaved(d, run.strategy, o) || o in OrdersIn(run.fills)
    {
      if InSaved(d, run.strategy, o) {
        var i :| 0 <= i < |before| && before[i].order == o;
        assert (before + added)[i].order == o;
      }
      if o in OrdersIn(run.fills) {
        var i :| 0 <= i < |run.fills| && run.fills[i].order == o;
        assert (before + added)[|before| + i].order == o;
      }
      if InSaved(d', run.strategy, o) {
        var i :| 0 <= i < |before + added| && (before + added)[i].order == o;
        if i < |before| {
          assert before[i].order == o;
        } else {
          assert run.fills[i - |before|] in run.fills;
        }
      }
    }
  }

  lemma GrownTradesOk(d: Disk, run: Run)
    requires TradesOk(d, run.strategy) && MemoryOk(d, run, run.fills) && FillsApart(run.fills)
    requires forall r :: r in run.fills ==> !Applied(d, r.order)
    requires forall o :: o in OrdersIn(run.fills) ==> InFlight(d, run.strategy, o)
    ensures TradesOk(Apply(d, SavePortfolio(run.strategy, run.memory)), run.strategy)
  {
    var before, added := SavedBy(d, run.strategy).trades, TradesOf(run.fills);
    forall i | 0 <= i < |added|
      ensures added[i].order in Book(d) && Book(d)[added[i].order].strategy == run.strategy
      ensures forall j :: 0 <= j < |before| ==> before[j].order != added[i].order
    {
      assert run.fills[i] in run.fills && run.fills[i].order in OrdersIn(run.fills);
      assert InFlight(d, run.strategy, run.fills[i].order);
    }
  }

  lemma CommittedLands(d: Disk, run: Run, ci: Body)
    requires ProcessOk(d, Committed(run, ci))
    ensures Landed(Apply(d, SavePortfolio(run.strategy, run.memory)), run.strategy, ci)
  {
    var d' := Apply(d, SavePortfolio(run.strategy, run.memory));
    assert forall o :: InFlight(d', run.strategy, o) <==> InFlight(d, run.strategy, o);
    forall r | r in ci.fills
      ensures r.order in Book(d') && Book(d')[r.order].status == Settling
    {
      assert r.order in OrdersIn(run.fills);
      assert InFlight(d, run.strategy, r.order);
    }
  }

  // -------------------------------------------------------------------------
  // Finishing a run
  // -------------------------------------------------------------------------

  lemma FinishMarkerOk(st: State, st': State)
    requires Inv(st) && FinishStep(st, st') && !st.process.noted
    ensures Inv(st')
  {
    hide LogOk, BooksOk, StatusOk, HasMarker, FlightOk;
    var d, p := st.disk, st.process;
    var ref := p.run.fills[p.k];
    var m := MarkerOf(ref, p.ci);
    LandedMarkerAppends(d, p.run.strategy, p.ci, ref);
    AppendedMarker(d, m);
    AppendKeepsBooks(d, m);
  }

  lemma FinishSaveOk(st: State, st': State)
    requires Inv(st) && FinishStep(st, st') && st.process.noted
    ensures Inv(st')
  {
    hide DiskOk, FinishingOk;
    FinishSaveKeepsDisk(st.disk, st'.disk, st.process);
    FinishSaveGoesOn(st.disk, st'.disk, st.process);
  }

  /** The EXECUTED snapshot of the fill being finished. */
  ghost predicate FinishesOrder(d: Disk, d': Disk, p: Process) {
    && p.Finishing? && FinishingOk(d, p) && p.noted && p.run.fills[p.k].order in Book(d)
    && d' == Apply(d, SaveOrder(WithStatus(d, p.run.fills[p.k].order, Executed)))
  }

  lemma FinishSaveKeepsDisk(d: Disk, d': Disk, p: Process)
    requires DiskOk(d) && FinishesOrder(d, d', p)
    ensures DiskOk(d')
  {
    var s, ref := p.run.strategy, p.run.fills[p.k];
    var order := WithStatus(d, ref.order, Executed);
    assert InFlight(d, s, ref.order) && order.id == ref.order && SameOrder(d, order);
    hide LogOk, BooksOk, StatusOk, HasMarker;
    SaveKeepsLog(d, order);
    SaveKeepsStatus(d, order);
    LandedAfterSave(d, order, s, p.ci);
    forall s'
      ensures FlightOk(d', s')
    {
      assert FlightOk(d, s');
      if s' != s {
        SaveKeepsFlight(d, order, s');
      }
    }
  }

  lemma FinishSaveGoesOn(d: Disk, d': Disk, p: Process)
    requires DiskOk(d) && FinishesOrder(d, d', p)
    ensures FinishingOk(d', Finishing(p.run, p.ci, p.k + 1, false))
  {
    var s, ref := p.run.strategy, p.run.fills[p.k];
    var order := WithStatus(d, ref.order, Executed);
    assert InFlight(d, s, ref.order) && order.id == ref.order && SameOrder(d, order);
    hide LogOk, BooksOk, StatusOk, HasMarker, FlightOk, InFlight;
    SaveFlight(d, order, s);
    LandedAfterSave(d, order, s, p.ci);
    assert forall o :: HasMarker(d', o) <==> HasMarker(d, o) by { MarkersUntouched(d, order); }
  }

  lemma MarkersUntouched(d: Disk, order: Order)
    ensures forall o :: HasMarker(Apply(d, SaveOrder(order)), o) <==> HasMarker(d, o)
  {
  }
}
