/** A trade on its way through the write-ahead log: from the execution to the loader and the trade table. */
module FillTrip {
  import opened Sequences
  import opened Rounding
  import opened FillRecords
  import opened FillLoader
  import opened FillWriter
  import opened Orders
  import opened RefusedLog
  import T = Trading
  import A = FillAccuracy
  import P = Projection
  import R = Replay
  import TradeTable

  /** The operation carries out the order and makes a trade. */
  ghost predicate Executes(order: Order, a: T.Account, op: T.Op) {
    && T.Perform(a, op).ticket.Some? && (op.DoSell? ==> a.positions[op.ticker].shares >= 0.0)
    && order.ticker == op.ticker && order.session == op.session
    && order.action == (if op.DoBuy? then Buy else if op.DoSell? then Sell else PyramidFill)
  }

  function EventFor(order: Order, attempt: string, a: T.Account, op: T.Op): Body
    requires T.Perform(a, op).ticket.Some?
  {
    FillRecord(order, attempt, A.EventOf(a, op))
  }

  // -------------------------------------------------------------------------
  // Written and read back
  // -------------------------------------------------------------------------

  lemma EventIsRecord(order: Order, attempt: string, a: T.Account, op: T.Op)
    requires Executes(order, a, op)
    ensures Records(EventFor(order, attempt, a, op), a, op) && Executable(order.action)
  {
    hide T.Perform, A.EventOf;
  }

  /** With the amounts set aside, a new record never spoils an acceptable log. */
  lemma AcceptedWithRecord(wal: seq<Body>, f: Body)
    requires Accepted(wal) && f.Filling? && FillingShaped(f)
    requires forall b :: b in wal && b.Filling? ==> b.attempt != f.attempt
    ensures Accepted(wal + [f]) <==> Priced(f)
  {
    hide Coherent, AmountsOk, FillingShaped;
    CoherentWithFilling(wal, f);
    assert f in wal + [f];
  }

  /**
   * The event of an executed buy, sale or pyramid fill, appended under a new attempt id to a file the loader
   * has accepted, leaves a file it accepts exactly if share count and price are above zero and gross value
   * agrees with their product to two cents; the last line must not have been one under a wrong hash. The
   * record read back is the one written.
   */
  lemma WrittenIsReadBack(lines: seq<Line>, order: Order, attempt: string, a: T.Account, op: T.Op)
    requires LoaderAccepts(lines) && Executes(order, a, op)
    requires forall b :: b in Kept(lines) && b.Filling? ==> b.attempt != attempt
    ensures var f := EventFor(order, attempt, a, op);
      var m, after := f.amounts, Repaired(lines) + [Stamp(f)];
      && (LoaderAccepts(after) <==>
            && Mended(lines) && m.shares > 0.0 && m.price > 0.0
            && -0.02 <= m.grossValue - Round2(Worth(m.shares, m.price)) <= 0.02)
      && Kept(after) == Kept(lines) + [f]
  {
    hide Accepted, LinesOk, FillingShaped, AmountsOk, Round2, T.Perform, A.EventOf, Coherent, Records, Kept;
    var f := EventFor(order, attempt, a, op);
    EventIsRecord(order, attempt, a, op);
    RecordIsShaped(order, attempt, A.EventOf(a, op), CURRENT_VERSION);
    AcceptedWithRecord(Kept(lines), f);
    TradePriced(f, a, op);
    AppendAfterLoadIff(lines, f);
    RepairKeepsRecords(lines);
    KeptAppend(Repaired(lines), Stamp(f));
  }

  /** Records from before versions are accepted like those of version 2, and no others. */
  lemma VersionsRead(wal: seq<Body>, order: Order, attempt: string, amounts: Amounts, version: Version)
    requires Accepted(wal) && Executable(order.action)
    requires forall b :: b in wal && b.Filling? ==> b.attempt != attempt
    ensures Accepted(wal + [VersionedRecord(order, attempt, amounts, version)]) <==>
              (version == Versionless || version == IntVersion(2)) && AmountsOk(order.action, NextSessionOpen, amounts)
  {
    hide Coherent, AmountsOk, FillingShaped;
    var f := VersionedRecord(order, attempt, amounts, version);
    assert f in wal + [f];
    RecordIsShaped(order, attempt, amounts, version);
    if FillingShaped(f) {
      AcceptedWithRecord(wal, f);
    } else if Coherent(wal + [f]) {
      ShapedMember(wal + [f], f);
    }
  }

  lemma ShapedMember(wal: seq<Body>, b: Body)
    requires Coherent(wal) && b in wal
    ensures BodyShaped(b)
  {
  }

  // -------------------------------------------------------------------------
  // Restored in the trade table
  // -------------------------------------------------------------------------

  /** What reconcile_strategy reads of a row, given its time. */
  function Read(r: P.Row, stamp: int): R.Row {
    R.Row(r.strategy, stamp, R.Traded(r.action), r.ticker, r.shares, r.price, r.value, r.cost, r.net)
  }

  /**
   * The row restored from the event of an executed trade records that trade: the bookkeeper reads from it,
   * as from the row written when the trade was made, exactly what the ticket says.
   */
  lemma RestoredRowIsTheTrade(order: Order, attempt: string, a: T.Account, op: T.Op, stamp: int)
    requires Executes(order, a, op)
    ensures var t, f := T.Perform(a, op).ticket.value, EventFor(order, attempt, a, op);
      && Read(P.RowOf(f), stamp) == Read(TradeTable.LiveRow(f), stamp) == R.RowOf(t, order.strategy, stamp)
      && (forall l :: R.ReplayRow(l, Read(P.RowOf(f), stamp)) == R.ReplayRow(l, R.RowOf(t, order.strategy, stamp)))
      && P.RowOf(f).date == op.session && P.RowOf(f).executionSession == Some(op.session)
      && P.RowOf(f).order == Some(order.id) && P.RowOf(f).tradeId == Some(MakeTradeId(order.id))
  {
    hide T.Perform, Round2, Round4, Round6, RoundToInt;
    A.TradeMade(a, op);
    hide A.ValueTraded, A.SharesTraded, A.NetOf;
    A.RecordedTwiceRounded(A.ActionOf(op), op.ticker, A.SharesTraded(a, op), op.price.value, A.ValueTraded(a, op),
                           op.session, a.cash, T.Perform(a, op).account.cash);
  }
}
