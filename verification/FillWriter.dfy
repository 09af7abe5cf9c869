/** _write_fill_event_for_order: the record an executed order leaves in the write-ahead log. */
module FillWriter {
  import opened Sequences
  import opened FillRecords
  import opened Orders

  /** The actions run_strategy_execution carries out. */
  predicate Executable(action: Action) { action == Buy || action == Sell || action == PyramidFill }

  /** The record for a fill of an order; the writer takes the amounts as they come. */
  function FillRecord(order: Order, attempt: string, amounts: Amounts): Body {
    VersionedRecord(order, attempt, amounts, CURRENT_VERSION)
  }

  /** The same record under any version; earlier programs wrote none. */
  function VersionedRecord(order: Order, attempt: string, amounts: Amounts, version: Version): Body {
    Filling(order.id, attempt, MakeFillId(order.id), MakeTradeId(order.id), order.strategy, order.portfolioId,
            order.portfolioVersion, order.ticker, order.action, amounts, order.session, order.session,
            Some(SessionOpen(order.session)), NextSessionOpen, version)
  }

  /** Everything the loader checks of such a record but its version and amounts is right by construction. */
  lemma RecordIsShaped(order: Order, attempt: string, amounts: Amounts, version: Version)
    requires Executable(order.action)
    ensures FillingShaped(VersionedRecord(order, attempt, amounts, version))
            <==> version == Versionless || version == IntVersion(2)
  {
  }

  lemma ReferencedAttemptExists(wal: seq<Body>, ci: Body, r: FillRef)
    requires ci.CommitIntent? && RefResolves(wal, ci, r)
    ensures exists b :: b in wal && b.Filling? && b.attempt == r.attempt
  {
    EventMembers(wal, r.order);
    FilterMembers(Events(wal, r.order), FillingOf(r.attempt));
    var f := Fillings(Events(wal, r.order), r.attempt)[0];
    assert f in Fillings(Events(wal, r.order), r.attempt);
  }

  lemma ResolvesAfterFilling(wal: seq<Body>, ci: Body, r: FillRef, f: Body)
    requires ci.CommitIntent? && RefResolves(wal, ci, r) && f.Filling?
    requires forall b :: b in wal && b.Filling? ==> b.attempt != f.attempt
    ensures RefResolves(wal + [f], ci, r) && r.attempt != f.attempt
  {
    ReferencedAttemptExists(wal, ci, r);
    FilterSnoc(wal, f, AboutOrder(r.order));
    FilterSnoc(Events(wal, r.order), f, FillingOf(r.attempt));
  }

  lemma CoherentWithFilling(wal: seq<Body>, f: Body)
    requires Coherent(wal) && f.Filling? && FillingShaped(f)
    requires forall b :: b in wal && b.Filling? ==> b.attempt != f.attempt
    ensures Coherent(wal + [f])
  {
    var longer := wal + [f];
    forall ci, r | ci in longer && ci.CommitIntent? && r in ci.fills
      ensures RefResolves(longer, ci, r)
    {
      ResolvesAfterFilling(wal, ci, r, f);
    }
    forall i | 0 <= i < |wal|
      ensures NoTwins(wal[i], f)
    {
      assert wal[i] in wal;
    }
  }
}
