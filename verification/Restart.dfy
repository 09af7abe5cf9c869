/** Restarting recovery after a crash inside Phase 2. */
module Restart {
  import opened Sequences
  import opened FillRecords
  import opened FillChain
  import opened Orders
  import opened Storage
  import opened Settlement

  /**
   * `v'` is `v` after part of Phase 2: the orders in `done` have their final status, and those in
   * `marked` have received the persisted marker they lacked.
   */
  ghost predicate Advanced(v: View, v': View, done: set<string>, marked: set<string>) {
    && Coherent(v.wal) && Coherent(v'.wal) && (AllPriced(v'.wal) <==> AllPriced(v.wal))
    && v'.strategy == v.strategy && v'.current == v.current
    && v'.orders.Keys == v.orders.Keys
    && (forall o :: o in done ==> Due(v, o))
    && (forall o :: o in marked ==> NeedsMarker(v, o))
    && (forall o :: o in done && NeedsMarker(v, o) ==> o in marked)
    && (forall o :: o in v.orders ==>
          v'.orders[o] == if o in done then v.orders[o].(status := Outcome(v, o)) else v.orders[o])
    && Intents(v'.wal) == Intents(v.wal)
    && (forall o :: Events(v'.wal, o) ==
                    if o in marked then Events(v.wal, o) + [Marker(v, o)] else Events(v.wal, o))
  }

  lemma MarkerEffect(events: seq<Body>, marker: Body)
    requires marker.Persisted?
    ensures Markers(events + [marker]) == Markers(events) + [marker]
    ensures forall a :: Fillings(events + [marker], a) == Fillings(events, a)
  {
    FilterSnoc(events, marker, IsPersisted());
    forall a
      ensures Fillings(events + [marker], a) == Fillings(events, a)
    {
      FilterSnoc(events, marker, FillingOf(a));
    }
  }

  /** What a commit intent says about an order does not depend on persisted markers. */
  lemma IntentResolutionKept(v: View, v': View, done: set<string>, marked: set<string>, o: string, ci: Body)
    requires Advanced(v, v', done, marked) && ci.CommitIntent?
    ensures ResolveFromIntent(o, Events(v'.wal, o), ci, CURRENT_VERSION)
            == ResolveFromIntent(o, Events(v.wal, o), ci, CURRENT_VERSION)
  {
    if o in marked {
      MarkerEffect(Events(v.wal, o), Marker(v, o));
    }
  }

  /** A marker written by recovery completes a strict chain for its commit intent. */
  lemma MarkedChainHolds(v: View, v': View, done: set<string>, marked: set<string>, o: string)
    requires Advanced(v, v', done, marked) && o in marked
    ensures IntentOf(v, o).Some? && ChainLeadsTo(v', o, IntentOf(v, o).value)
    ensures Markers(Events(v'.wal, o)) != []
  {
    ExecutedResolves(v, o);
    var ci := IntentOf(v, o).value;
    IntentMembers(v.wal);
    IntentMembers(v'.wal);
    MarkerEffect(Events(v.wal, o), Marker(v, o));
    IntentResolutionKept(v, v', done, marked, o, ci);
    assert Markers(Events(v'.wal, o)) == [Marker(v, o)];
    NamedIsRecorded(o, Events(v.wal, o), ci);
    StrictChainIff(v'.wal, o, ci);
  }

  /** What resolution from a commit intent names is one of its references and a filling of the order. */
  lemma NamedIsRecorded(o: string, events: seq<Body>, ci: Body)
    requires ci.CommitIntent? && ResolveFromIntent(o, events, ci, CURRENT_VERSION).Ok?
    ensures var named := ResolveFromIntent(o, events, ci, CURRENT_VERSION).value;
            && named.ref in ci.fills && named.ref.order == o
            && named.filling in events && named.filling.Filling? && named.filling.attempt == named.ref.attempt
  {
    var named := ResolveFromIntent(o, events, ci, CURRENT_VERSION).value;
    FilterMembers(ci.fills, RefOf(o));
    assert named.ref in Filter(ci.fills, RefOf(o));
    FilterMembers(events, FillingOf(named.ref.attempt));
    assert named.filling in Fillings(events, named.ref.attempt);
  }

  /** Every order recovery sets to EXECUTED then has a strict chain leading to its commit intent. */
  lemma ExecutedChainHolds(v: View, v': View, done: set<string>, marked: set<string>, o: string)
    requires Advanced(v, v', done, marked) && o in done && Outcome(v, o) == Executed
    ensures IntentOf(v, o).Some? && ChainLeadsTo(v', o, IntentOf(v, o).value)
    ensures Markers(Events(v'.wal, o)) != []
  {
    ExecutedResolves(v, o);
    if o in marked {
      MarkedChainHolds(v, v', done, marked, o);
    } else {
      var ci := IntentOf(v, o).value;
      var r :| r in ci.fills && r.order == o;
      assert RefFits(v, ci, r);
    }
  }

  lemma StillActive(v: View, v': View, done: set<string>, marked: set<string>, ci: Body)
    requires Advanced(v, v', done, marked) && ci.CommitIntent?
    ensures Active(v', ci) ==> Active(v, ci)
    ensures Contested(v', ci) ==> Contested(v, ci)
  {
    assert forall c, o :: InBatch(v', c, o) ==> InBatch(v, c, o);
    assert forall c :: Active(v', c) ==> Active(v, c);
  }

  /** A member decided to anything but EXECUTED rejects the rest of its commit intent. */
  lemma DecidedMemberRejects(v: View, v': View, done: set<string>, marked: set<string>, ci: Body, o: string)
    requires Advanced(v, v', done, marked) && ci.CommitIntent? && NamesOrder(ci, o)
    requires o in done && Outcome(v, o) != Executed
    ensures Alone(v', ci) == Rejected
  {
    var r :| r in ci.fills && r.order == o;
    assert !RefFits(v', ci, r);
  }

  /** A reference that other batches cannot touch is judged as before. */
  lemma UntouchedRefKept(v: View, v': View, done: set<string>, marked: set<string>, ci: Body, r: FillRef)
    requires Advanced(v, v', done, marked) && ci.CommitIntent?
    requires r.order !in done && r.order !in marked
    ensures RefFits(v', ci, r) <==> RefFits(v, ci, r)
  {
  }

  /** If a named order was decided or marked, its own batch was rejected for naming it twice, or is `ci`. */
  lemma TouchedRefRejects(v: View, v': View, done: set<string>, marked: set<string>, ci: Body, o: string)
    requires Advanced(v, v', done, marked) && ci.CommitIntent? && Active(v, ci)
    requires Alone(v, ci) == Rejected && NamesOrder(ci, o) && (o in done || o in marked)
    ensures Outcome(v, o) == FailedReconciliation && o in done
  {
    NamedIsMapped(v, ci, o);
    var own := IntentOf(v, o).value;
    if own != ci {
      assert InBatch(v, own, o);
      var r :| r in own.fills && r.order == o;
      assert SharesOrder(own, ci);
      assert Contested(v, own);
    }
  }

  /** A batch that fails Phase 1 on its own fails it again after any part of Phase 2. */
  lemma RejectionStays(v: View, v': View, done: set<string>, marked: set<string>, ci: Body)
    requires Advanced(v, v', done, marked) && ci.CommitIntent?
    requires Active(v', ci) && Alone(v, ci) == Rejected
    ensures Alone(v', ci) == Rejected
  {
    StillActive(v, v', done, marked, ci);
    IntentMembers(v.wal);
    assert BodyShaped(ci);
    hide BatchFits, ClaimsSaved, Coherent;
    if r :| r in ci.fills && (r.order in done || r.order in marked) {
      assert NamesOrder(ci, r.order);
      TouchedRefRejects(v, v', done, marked, ci, r.order);
      DecidedMemberRejects(v, v', done, marked, ci, r.order);
    } else {
      UntouchedRejectionStays(v, v', done, marked, ci);
    }
  }

  lemma UntouchedRejectionStays(v: View, v': View, done: set<string>, marked: set<string>, ci: Body)
    requires Advanced(v, v', done, marked) && ci.CommitIntent? && Alone(v, ci) == Rejected
    requires forall r :: r in ci.fills ==> r.order !in done && r.order !in marked
    ensures Alone(v', ci) == Rejected
  {
    if BatchFits(v', ci) {
      forall r | r in ci.fills
        ensures RefFits(v, ci, r)
      {
        assert RefFits(v', ci, r);
        UntouchedRefKept(v, v', done, marked, ci, r);
      }
      if ClaimsSaved(v, ci) {
        ClaimStays(v, v', done, marked, ci);
      }
    }
  }

  /** An order named by an active commit intent is mapped to some commit intent. */
  lemma NamedIsMapped(v: View, ci: Body, o: string)
    requires Coherent(v.wal) && ci.CommitIntent? && NamesOrder(ci, o) && Active(v, ci)
    ensures IntentOf(v, o).Some? && IntentOf(v, o).value in v.wal
  {
    var o' :| InBatch(v, ci, o');
    MappedIsLast(Intents(v.wal), v.strategy, o, ci);
    IntentMembers(v.wal);
  }

  /** The mapping goes to the last commit intent of the strategy that names the order, if there is one. */
  lemma {:induction false} MappedPosition(intents: seq<Body>, strategy: string, o: string) returns (i: int)
    ensures var mapped := Mapped(intents, strategy, o);
      if mapped.None? then i == -1
      else 0 <= i < |intents| && mapped == Some(intents[i]) && Names(intents[i], strategy, o)
    ensures forall j :: i < j < |intents| ==> !Names(intents[j], strategy, o)
  {
    if intents == [] {
      i := -1;
    } else {
      var n := |intents| - 1;
      NamesIff(intents[n], strategy, o);
      if Names(intents[n], strategy, o) {
        i := n;
      } else {
        i := MappedPosition(intents[..n], strategy, o);
        assert forall j :: i < j < n ==> intents[..n][j] == intents[j];
      }
    }
  }

  lemma NamesIff(b: Body, strategy: string, o: string)
    ensures Names(b, strategy, o) <==> b.CommitIntent? && b.strategy == strategy && NamesOrder(b, o)
  {
    if b.CommitIntent? && NamesOrder(b, o) {
      var r :| r in b.fills && r.order == o;
      var k :| 0 <= k < |b.fills| && b.fills[k] == r;
    }
  }

  /** A commit intent of the strategy with a reference to the order. */
  predicate Names(b: Body, strategy: string, o: string) {
    b.CommitIntent? && b.strategy == strategy && o != "" && exists k :: 0 <= k < |b.fills| && b.fills[k].order == o
  }

  lemma {:induction false} MappedIsLast(intents: seq<Body>, strategy: string, o: string, ci: Body)
    requires ci in intents && ci.CommitIntent? && ci.strategy == strategy && NamesOrder(ci, o)
    ensures Mapped(intents, strategy, o).Some?
  {
    var n := |intents| - 1;
    if intents[n] != ci {
      assert intents == intents[..n] + [intents[n]];
      MappedIsLast(intents[..n], strategy, o, ci);
    }
  }

  lemma ClaimStays(v: View, v': View, done: set<string>, marked: set<string>, ci: Body)
    requires Advanced(v, v', done, marked) && ci.CommitIntent? && ClaimsSaved(v, ci)
    requires forall r :: r in ci.fills ==> r.order !in done && r.order !in marked
    ensures ClaimsSaved(v', ci)
  {
    if o :| InBatch(v, ci, o) && Markers(Events(v.wal, o)) != [] {
      var r :| r in ci.fills && r.order == o;
      assert InBatch(v', ci, o);
    }
  }

  lemma BatchOutcome(v: View, ci: Body, o: string)
    requires ci.CommitIntent? && InBatch(v, ci, o)
    ensures Outcome(v, o) == match Decide(v, ci)
                             case PortfolioSaved => Executed
                             case PortfolioUnsaved => PendingPrice
                             case Rejected => FailedReconciliation
  {
  }

  /** The verdict of a batch that no other active commit intent contests, after part of Phase 2. */
  lemma UncontestedVerdict(v: View, v': View, done: set<string>, marked: set<string>, ci: Body)
    requires Advanced(v, v', done, marked) && ci.CommitIntent? && Active(v', ci) && !Contested(v', ci)
    requires Contested(v, ci) ==> forall o :: InBatch(v, ci, o) ==> o !in done
    ensures Decide(v', ci) ==
      if Alone(v, ci) == PortfolioUnsaved && exists o :: InBatch(v, ci, o) && o in done
      then Rejected else Alone(v, ci)
  {
    hide Advanced, Coherent, Outcome, Alone, BatchFits, ClaimsSaved;
    StillActive(v, v', done, marked, ci);
    match Alone(v, ci)
    case Rejected => RejectionStays(v, v', done, marked, ci);
    case PortfolioSaved => SavedVerdictKept(v, v', done, marked, ci);
    case PortfolioUnsaved =>
      if o :| InBatch(v, ci, o) && o in done {
        BatchOutcome(v, ci, o);
        DecidedMemberRejects(v, v', done, marked, ci, o);
      } else {
        UnsavedVerdictKept(v, v', done, marked, ci);
      }
  }

  lemma SavedVerdictKept(v: View, v': View, done: set<string>, marked: set<string>, ci: Body)
    requires Advanced(v, v', done, marked) && ci.CommitIntent? && Active(v, ci)
    requires Alone(v, ci) == PortfolioSaved
    requires Contested(v, ci) ==> forall o :: InBatch(v, ci, o) ==> o !in done
    ensures Alone(v', ci) == PortfolioSaved
  {
    forall r | r in ci.fills
      ensures RefFits(v', ci, r)
    {
      assert RefFits(v, ci, r);
      FittingRefKept(v, v', done, marked, ci, r);
    }
  }

  lemma UnsavedVerdictKept(v: View, v': View, done: set<string>, marked: set<string>, ci: Body)
    requires Advanced(v, v', done, marked) && ci.CommitIntent? && Active(v, ci)
    requires Alone(v, ci) == PortfolioUnsaved
    requires forall o :: InBatch(v, ci, o) ==> o !in done
    ensures Alone(v', ci) == PortfolioUnsaved
  {
    OwnUntouched(v, v', done, marked, ci);
    hide Coherent, RefFits, Outcome, ClaimsSaved;
    forall r | r in ci.fills
      ensures RefFits(v', ci, r)
    {
      assert RefFits(v, ci, r);
      UntouchedRefKept(v, v', done, marked, ci, r);
    }
    UnclaimedStays(v, v', done, marked, ci);
  }

  /** If no member of a fitting batch is decided, none of its references is touched. */
  lemma OwnUntouched(v: View, v': View, done: set<string>, marked: set<string>, ci: Body)
    requires Advanced(v, v', done, marked) && ci.CommitIntent? && Active(v, ci)
    requires Alone(v, ci) == PortfolioUnsaved
    requires forall o :: InBatch(v, ci, o) ==> o !in done
    ensures forall r :: r in ci.fills ==> r.order !in done && r.order !in marked
  {
    hide RefFits;
    forall r | r in ci.fills
      ensures r.order !in done && r.order !in marked
    {
      assert RefFits(v, ci, r);
      FittingRefIsOwn(v, ci, r);
    }
  }

  /** In a fitting batch every reference in flight belongs to the batch itself. */
  lemma FittingRefIsOwn(v: View, ci: Body, r: FillRef)
    requires Coherent(v.wal) && ci.CommitIntent? && Active(v, ci) && r in ci.fills && RefFits(v, ci, r)
    ensures Due(v, r.order) ==> InBatch(v, ci, r.order)
  {
    if Due(v, r.order) {
      assert NamesOrder(ci, r.order);
      NamedIsMapped(v, ci, r.order);
    }
  }

  lemma UnclaimedStays(v: View, v': View, done: set<string>, marked: set<string>, ci: Body)
    requires Advanced(v, v', done, marked) && ci.CommitIntent? && !ClaimsSaved(v, ci)
    requires forall r :: r in ci.fills ==> r.order !in done && r.order !in marked
    ensures !ClaimsSaved(v', ci)
  {
    assert forall o :: InBatch(v', ci, o) ==> InBatch(v, ci, o) && o !in marked;
  }

  /** References of a batch whose portfolio save is confirmed keep fitting as Phase 2 proceeds. */
  lemma FittingRefKept(v: View, v': View, done: set<string>, marked: set<string>, ci: Body, r: FillRef)
    requires Advanced(v, v', done, marked) && ci.CommitIntent? && Active(v, ci) && r in ci.fills
    requires RefFits(v, ci, r) && Alone(v, ci) == PortfolioSaved
    requires Contested(v, ci) ==> r.order !in done || !InBatch(v, ci, r.order)
    ensures RefFits(v', ci, r)
  {
    var o := r.order;
    FittingRefIsOwn(v, ci, r);
    IntentResolutionKept(v, v', done, marked, o, ci);
    if o in marked {
      MarkedChainHolds(v, v', done, marked, o);
    } else if o in done {
      assert Outcome(v, o) == Executed;
      ExecutedChainHolds(v, v', done, marked, o);
    }
  }

  // -------------------------------------------------------------------------
  // Phase 1 in terms of the log
  // -------------------------------------------------------------------------

  /** The records and the order that a reference names allow its batch to go ahead. */
  ghost predicate ReadyToSettle(v: View, ci: Body, r: FillRef)
    requires ci.CommitIntent?
  {
    && (exists f :: f in v.wal && f.Filling? && f.order == r.order && f.attempt == r.attempt && f.version == IntVersion(2))
    && r.order in v.orders
    && var markers, status := Markers(Events(v.wal, r.order)), v.orders[r.order].status;
       && (status == Executed || (status == Settling && IntentOf(v, r.order) == Some(ci)))
       && (markers == [] ==> status == Settling)
       && (markers != [] ==>
             var m := markers[0];
             m.Persisted? && m.version == IntVersion(2) && m.commitId == ci.commitId && m.attempt == r.attempt
             && m.fillingHash == r.hash && m.post == ci.post)
  }

  /**
   * Phase 1 collapses: on a coherent log a batch fits exactly if its commit intent is of version 2 and every
   * reference names a filling of version 2 on record, of an order that is either SETTLING with this as its last
   * commit intent, or EXECUTED with a marker; and every first marker repeats the reference and the intent.
   */
  lemma BatchFitsIff(v: View, ci: Body)
    requires Coherent(v.wal) && ci in v.wal && ci.CommitIntent? && ci.strategy == v.strategy && Active(v, ci)
    ensures BatchFits(v, ci) <==> ci.version == IntVersion(2) && forall r :: r in ci.fills ==> ReadyToSettle(v, ci, r)
  {
    hide Coherent, RefFits, ReadyToSettle;
    if ci.version == CURRENT_VERSION {
      forall r | r in ci.fills
        ensures RefFits(v, ci, r) <==> ReadyToSettle(v, ci, r)
      {
        RefFitsIff(v, ci, r);
      }
    }
  }

  lemma RefFitsIff(v: View, ci: Body, r: FillRef)
    requires Coherent(v.wal) && ci in v.wal && ci.CommitIntent? && r in ci.fills && Active(v, ci)
    requires ci.version == CURRENT_VERSION && ci.strategy == v.strategy
    ensures RefFits(v, ci, r) <==> ReadyToSettle(v, ci, r)
  {
    var o := r.order;
    RefLookup(v.wal, ci, r);
    NamedFilling(v.wal, ci, r);
    StrictChainIff(v.wal, o, ci);
    NamedAnyway(v, ci, r);
    hide Coherent;
  }

  /** The strategy's order has some commit intent. */
  lemma NamedAnyway(v: View, ci: Body, r: FillRef)
    requires Coherent(v.wal) && ci.CommitIntent? && r in ci.fills && Active(v, ci)
    ensures r.order != "" ==> IntentOf(v, r.order).Some?
  {
    if r.order != "" {
      assert NamesOrder(ci, r.order);
      NamedIsMapped(v, ci, r.order);
    }
  }

  /** The filling a reference resolves to is the one on record under its attempt. */
  lemma NamedFilling(wal: seq<Body>, ci: Body, r: FillRef)
    requires Coherent(wal) && ci in wal && ci.CommitIntent? && r in ci.fills
    ensures var found := Fillings(Events(wal, r.order), r.attempt);
      && |found| == 1 && found[0].Filling? && r.hash == Some(Sha256(found[0]))
      && (found[0].version == IntVersion(2) <==>
            exists f :: f in wal && f.Filling? && f.order == r.order && f.attempt == r.attempt && f.version == IntVersion(2))
      && (forall version :: ResolveFromIntent(r.order, Events(wal, r.order), ci, version) ==
                            if found[0].version == version then Ok(Named(r, found[0])) else Err("record version"))
  {
    RefLookup(wal, ci, r);
    var found := Fillings(Events(wal, r.order), r.attempt);
    EventMembers(wal, r.order);
    FilterMembers(Events(wal, r.order), FillingOf(r.attempt));
    assert found == [found[0]] && found[0] in found;
  }

  lemma InBatchFacts(v: View, ci: Body, o: string)
    requires Coherent(v.wal) && ci.CommitIntent? && InBatch(v, ci, o)
    ensures ci in v.wal && ci.strategy == v.strategy && Active(v, ci) && Due(v, o)
  {
    IntentMembers(v.wal);
  }

  /** Overlap, read off the references of the active commit intents. */
  lemma ContestedIff(v: View, ci: Body)
    requires ci.CommitIntent?
    ensures Contested(v, ci) <==>
      exists other, o, r, q ::
        InBatch(v, other, o) && other != ci && other.CommitIntent? && r in ci.fills && q in other.fills
        && r.order == q.order != ""
  {
    hide InBatch;
    if Contested(v, ci) {
      var other :| Active(v, other) && other != ci && other.CommitIntent? && SharesOrder(ci, other);
      var o :| InBatch(v, other, o);
      var r :| r in ci.fills && NamesOrder(other, r.order);
      var q :| q in other.fills && q.order == r.order;
      assert InBatch(v, other, o) && r.order == q.order != "";
    }
    if other, o, r, q :| InBatch(v, other, o) && other != ci && other.CommitIntent? && r in ci.fills && q in other.fills
                         && r.order == q.order != "" {
      assert NamesOrder(other, r.order);
      assert SharesOrder(ci, other) && Active(v, other);
    }
  }

  /** The named order has a marker, and is EXECUTED or booked under the strategy. */
  predicate MarkedHere(v: View, r: FillRef) {
    && Markers(Events(v.wal, r.order)) != [] && r.order in v.orders
    && (v.orders[r.order].status == Executed || v.orders[r.order].strategy == v.strategy)
  }

  /**
   * In a fitting batch a claim to be saved is a marker of one of its orders; that of an order in flight counts
   * only if the order ledger books it under the strategy.
   */
  lemma ClaimsSavedIff(v: View, ci: Body)
    requires Coherent(v.wal) && ci in v.wal && ci.CommitIntent? && Active(v, ci) && BatchFits(v, ci)
    ensures forall r :: r in ci.fills ==> r.order in v.orders
    ensures ClaimsSaved(v, ci) <==> exists r :: r in ci.fills && MarkedHere(v, r)
  {
    hide Coherent, Markers, Events, ResolveFromIntent, ChainLeadsTo;
    forall r | r in ci.fills
      ensures r.order in v.orders
      ensures MarkedHere(v, r) ==> ClaimsSaved(v, ci)
    {
      assert RefFits(v, ci, r);
      FittingRefIsOwn(v, ci, r);
    }
    if o :| InBatch(v, ci, o) && Markers(Events(v.wal, o)) != [] {
      var r :| r in ci.fills && r.order == o;
    }
    if r :| r in ci.fills && r.order in v.orders && v.orders[r.order].status == Executed {
      assert RefFits(v, ci, r);
    }
  }

  /**
   * What becomes of an order in a batch, read off the log, the order map and the portfolio. Nobody else in
   * flight may claim one of the batch's orders, and all its records and orders must be in place. Then it is
   * EXECUTED at the post state, and retried at the pre state if none of the orders has a marker.
   */
  lemma VerdictIff(v: View, ci: Body, o: string)
    requires Coherent(v.wal) && ci.CommitIntent? && InBatch(v, ci, o)
    ensures
      var contested := exists other, o', r, q ::
        InBatch(v, other, o') && other != ci && other.CommitIntent? && r in ci.fills && q in other.fills
        && r.order == q.order != "";
      var sound := !contested && ci.version == IntVersion(2) && forall r :: r in ci.fills ==> ReadyToSettle(v, ci, r);
      var unmarked := forall r :: r in ci.fills ==> !MarkedHere(v, r);
      Outcome(v, o) ==
        if sound && ci.post == Some(v.current) then Executed
        else if sound && ci.pre == Some(v.current) && unmarked then PendingPrice
        else FailedReconciliation
  {
    hide Coherent, Outcome, BatchFits, ClaimsSaved, Contested, ReadyToSettle, InBatch, MarkedHere;
    InBatchFacts(v, ci, o);
    BatchOutcome(v, ci, o);
    ContestedIff(v, ci);
    BatchFitsIff(v, ci);
    if BatchFits(v, ci) {
      ClaimsSavedIff(v, ci);
    }
  }
}
