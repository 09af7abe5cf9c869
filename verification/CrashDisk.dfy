/** How each durable write affects the disk invariant of the fill-commit protocol. */
module CrashDisk {
  import opened Sequences
  import opened FillRecords
  import opened FillChain
  import opened Orders
  import opened Storage
  import opened Settlement
  import opened Restart
  import opened Recovery
  import opened CrashModel
  import opened CrashInvariant

  lemma MarkerIff(d: Disk, o: string)
    requires o != ""
    ensures HasMarker(d, o) <==> Markers(Events(d.wal, o)) != []
  {
    EventMembers(d.wal, o);
    FilterMembers(Events(d.wal, o), IsPersisted());
    if Markers(Events(d.wal, o)) != [] {
      assert Markers(Events(d.wal, o))[0] in Markers(Events(d.wal, o));
    }
    if b :| b in d.wal && b.Persisted? && b.order == o {
      assert b in Markers(Events(d.wal, o));
    }
  }

  // -------------------------------------------------------------------------
  // Saving an order snapshot
  // -------------------------------------------------------------------------

  /** The snapshot is of the strategy's own portfolio, and is new or keeps the order's strategy. */
  ghost predicate SameOrder(d: Disk, order: Order) {
    && order.portfolioId == PortfolioId(order.strategy) && order.portfolioVersion == PORTFOLIO_VERSION
    && order.id != "" && (order.id in Book(d) ==> order.strategy == Book(d)[order.id].strategy)
  }

  lemma SaveKeepsLog(d: Disk, order: Order)
    requires LogOk(d) && BooksOk(d) && SameOrder(d, order)
    ensures var d' := Apply(d, SaveOrder(order));
            Book(d') == Book(d)[order.id := order] && LogOk(d') && BooksOk(d')
  {
    CurrentAfterSave(d.log, order);
    var d' := Apply(d, SaveOrder(order));
    forall b | b in d'.wal
      ensures RecordFits(d', b)
    {
      assert RecordFits(d, b);
    }
    forall s
      ensures TradesOk(d', s)
    {
      assert TradesOk(d, s);
    }
  }

  lemma SameBooks(d: Disk, d': Disk)
    requires d'.saved == d.saved
    ensures forall s, o :: InSaved(d', s, o) <==> InSaved(d, s, o)
  {
    forall s
      ensures SavedBy(d', s) == SavedBy(d, s)
    {
    }
  }

  lemma SaveKeepsApplied(d: Disk, order: Order)
    requires LogOk(d) && BooksOk(d) && SameOrder(d, order)
    ensures forall o :: Applied(Apply(d, SaveOrder(order)), o) <==> Applied(d, o)
  {
    var d' := Apply(d, SaveOrder(order));
    CurrentAfterSave(d.log, order);
    SameBooks(d, d');
    assert TradesOk(d, order.strategy);
    if order.id !in Book(d) {
      assert !InSaved(d, order.strategy, order.id);
    }
  }

  lemma SaveKeepsStatus(d: Disk, order: Order)
    requires LogOk(d) && BooksOk(d) && StatusOk(d) && SameOrder(d, order)
    requires order.status != Settling && order.status != Executed ==> !Applied(d, order.id)
    requires order.status == Executed ==> HasMarker(d, order.id)
    ensures StatusOk(Apply(d, SaveOrder(order)))
  {
    var d' := Apply(d, SaveOrder(order));
    CurrentAfterSave(d.log, order);
    SaveKeepsApplied(d, order);
    forall o | o in Book(d')
      ensures o != "" && Book(d')[o].portfolioId == PortfolioId(Book(d')[o].strategy)
      ensures Book(d')[o].portfolioVersion == PORTFOLIO_VERSION
      ensures Book(d')[o].status != Settling && Book(d')[o].status != Executed ==> !Applied(d', o)
      ensures Book(d')[o].status == Executed ==> HasMarker(d', o)
    {
      if o != order.id {
        assert o in Book(d);
      }
    }
  }

  /** Which orders are in flight after a snapshot is saved. */
  lemma SaveFlight(d: Disk, order: Order, strategy: string)
    requires SameOrder(d, order)
    ensures forall o :: InFlight(Apply(d, SaveOrder(order)), strategy, o) <==>
              if o == order.id then order.status == Settling && order.strategy == strategy
              else InFlight(d, strategy, o)
  {
    CurrentAfterSave(d.log, order);
  }

  /** Other strategies do not notice the snapshot; its own does not either unless a fill is in flight. */
  lemma SaveKeepsFlight(d: Disk, order: Order, strategy: string)
    requires LogOk(d) && BooksOk(d) && SameOrder(d, order) && FlightOk(d, strategy)
    requires strategy == order.strategy ==>
               order.status != Settling && (InFlight(d, strategy, order.id) ==> order.status == Executed || NoneLanded(d, strategy))
               && (NoneLanded(d, strategy) || order.id !in Book(d)
                   || InFlight(d, strategy, order.id) || Book(d)[order.id].status == PendingPrice)
    ensures FlightOk(Apply(d, SaveOrder(order)), strategy)
  {
    var d' := Apply(d, SaveOrder(order));
    SaveFlight(d, order, strategy);
    SaveKeepsApplied(d, order);
    CurrentAfterSave(d.log, order);
    if NoneLanded(d, strategy) {
      assert NoneLanded(d', strategy);
    } else {
      var ci :| Landed(d, strategy, ci);
      LandedAfterSave(d, order, strategy, ci);
    }
  }

  lemma LandedAfterSave(d: Disk, order: Order, strategy: string, ci: Body)
    requires LogOk(d) && SameOrder(d, order) && Landed(d, strategy, ci)
    requires strategy == order.strategy ==>
               order.status != Settling
               && (order.id in Book(d) && Book(d)[order.id].status != PendingPrice ==> order.status == Executed)
    ensures Landed(Apply(d, SaveOrder(order)), strategy, ci)
  {
    var d' := Apply(d, SaveOrder(order));
    SaveFlight(d, order, strategy);
    CurrentAfterSave(d.log, order);
    assert RecordFits(d, ci);
    forall r | r in ci.fills
      ensures r.order in Book(d') && (Book(d')[r.order].status == Settling || Book(d')[r.order].status == Executed)
    {
      assert r.order in Book(d) && Book(d)[r.order].strategy == strategy;
    }
  }

  // -------------------------------------------------------------------------
  // Appending to the fill log
  // -------------------------------------------------------------------------

  lemma AppendKeepsBooks(d: Disk, b: Body)
    requires BooksOk(d)
    ensures BooksOk(Apply(d, AppendFill(b)))
    ensures forall o :: Applied(Apply(d, AppendFill(b)), o) <==> Applied(d, o)
    ensures forall s, o :: InFlight(Apply(d, AppendFill(b)), s, o) <==> InFlight(d, s, o)
  {
    var d' := Apply(d, AppendFill(b));
    assert Book(d') == Book(d);
    SameBooks(d, d');
    forall s
      ensures TradesOk(d', s)
    {
      assert TradesOk(d, s);
    }
  }

  lemma AppendKeepsStatus(d: Disk, b: Body)
    requires BooksOk(d) && StatusOk(d)
    ensures StatusOk(Apply(d, AppendFill(b)))
  {
    var d' := Apply(d, AppendFill(b));
    AppendKeepsBooks(d, b);
    forall o | HasMarker(d, o)
      ensures HasMarker(d', o)
    {
      var m :| m in d.wal && m.Persisted? && m.order == o;
      assert m in d'.wal;
    }
    forall o | o in Book(d')
      ensures o != "" && Book(d')[o].portfolioId == PortfolioId(Book(d')[o].strategy)
      ensures Book(d')[o].portfolioVersion == PORTFOLIO_VERSION
      ensures Book(d')[o].status != Settling && Book(d')[o].status != Executed ==> !Applied(d', o)
      ensures Book(d')[o].status == Executed ==> HasMarker(d', o)
    {
      assert Book(d') == Book(d) && o in Book(d);
      assert Applied(d', o) <==> Applied(d, o);
    }
  }

  lemma AppendKeepsRecords(d: Disk, b: Body)
    requires forall x :: x in d.wal ==> RecordFits(d, x)
    requires RecordFits(Apply(d, AppendFill(b)), b)
    ensures var d' := Apply(d, AppendFill(b)); forall x :: x in d'.wal ==> RecordFits(d', x)
  {
    var d' := Apply(d, AppendFill(b));
    forall x | x in d'.wal
      ensures RecordFits(d', x)
    {
      if x in d.wal {
        assert RecordFits(d, x);
        if x.Persisted? {
          var ci :| ci in d.wal && ci.CommitIntent? && ci.commitId == x.commitId && ci.post == x.post
                    && FillRef(x.order, x.attempt, x.fillingHash) in ci.fills;
          assert ci in d'.wal;
        }
      }
    }
  }

  /** Appending anything but an intent of the strategy leaves its landed batch landed. */
  lemma AppendKeepsLanded(d: Disk, b: Body, strategy: string, ci: Body)
    requires BooksOk(d) && Landed(d, strategy, ci)
    requires b.CommitIntent? ==> b.strategy != strategy
    ensures Landed(Apply(d, AppendFill(b)), strategy, ci)
  {
    AppendKeepsBooks(d, b);
    AppendKeepsMapping(d, b, strategy);
  }

  lemma AppendKeepsMapping(d: Disk, b: Body, strategy: string)
    requires b.CommitIntent? ==> b.strategy != strategy
    ensures forall o :: Mapped(Intents(d.wal + [b]), strategy, o) == Mapped(Intents(d.wal), strategy, o)
  {
    FilterSnoc(d.wal, b, IsIntent());
    if b.CommitIntent? {
      assert (Intents(d.wal) + [b])[..|Intents(d.wal)|] == Intents(d.wal);
    }
  }

  lemma AppendKeepsFlight(d: Disk, b: Body, strategy: string)
    requires BooksOk(d) && FlightOk(d, strategy)
    requires b.CommitIntent? ==> b.strategy != strategy || NoneLanded(d, strategy)
    ensures FlightOk(Apply(d, AppendFill(b)), strategy)
  {
    AppendKeepsBooks(d, b);
    if NoneLanded(d, strategy) {
      assert NoneLanded(Apply(d, AppendFill(b)), strategy);
    } else {
      var ci :| Landed(d, strategy, ci);
      AppendKeepsLanded(d, b, strategy, ci);
    }
  }

  lemma AppendKeepsDisk(d: Disk, b: Body)
    requires DiskOk(d) && Coherent(d.wal + [b]) && AttemptsSplit(d.wal + [b])
    requires RecordFits(Apply(d, AppendFill(b)), b)
    requires b.CommitIntent? ==> NoneLanded(d, b.strategy)
    ensures DiskOk(Apply(d, AppendFill(b)))
  {
    AppendKeepsBooks(d, b);
    AppendKeepsStatus(d, b);
    AppendKeepsRecords(d, b);
    forall s
      ensures FlightOk(Apply(d, AppendFill(b)), s)
    {
      assert FlightOk(d, s);
      AppendKeepsFlight(d, b, s);
    }
  }

  lemma SplitKept(wal: seq<Body>, b: Body)
    requires AttemptsSplit(wal)
    requires b.CommitIntent? ==> forall ci, r, q :: ci in wal && ci.CommitIntent? && r in ci.fills && q in b.fills ==>
                                   r.attempt != q.attempt
    ensures AttemptsSplit(wal + [b])
  {
  }
}
