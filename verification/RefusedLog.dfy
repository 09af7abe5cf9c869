/** What becomes of the system once the log holds a filling whose amounts the loader refuses. */
module RefusedLog {
  import opened Sequences
  import opened FillRecords
  import opened Orders
  import opened Storage
  import opened Settlement
  import opened CrashModel
  import opened CrashInvariant
  import opened CrashSafety
  import T = Trading
  import A = FillAccuracy

  // -------------------------------------------------------------------------
  // Which logs are refused
  // -------------------------------------------------------------------------

  /** The event written for the trade that `op` makes on `a`. */
  ghost predicate Records(f: Body, a: T.Account, op: T.Op) {
    && f.Filling? && f.source == NextSessionOpen
    && T.Perform(a, op).ticket.Some? && (op.DoSell? ==> a.positions[op.ticker].shares >= 0.0)
    && f.action == A.ActionOf(op) && f.amounts == A.EventOf(a, op)
  }

  ghost predicate FromTrade(f: Body) { exists a, op :: Records(f, a, op) }

  ghost predicate GrossFits(f: Body)
    requires f.Filling?
  {
    f.amounts.shares > 0.0 && f.amounts.price > 0.0 && GrossOk(f.amounts)
  }

  lemma TradePricedIff(f: Body)
    requires f.Filling? && FromTrade(f)
    ensures Priced(f) <==> GrossFits(f)
  {
    hide AmountsOk, T.Perform, A.EventOf, GrossOk;
    var a, op :| Records(f, a, op);
    TradePriced(f, a, op);
  }

  lemma TradePriced(f: Body, a: T.Account, op: T.Op)
    requires f.Filling? && Records(f, a, op)
    ensures Priced(f) <==> GrossFits(f)
  {
    hide AmountsOk, A.EventOf, GrossOk;
    A.OnlyGrossCanFail(a, op);
  }

  /**
   * In every reachable state whose fills were written for executed trades, the loader accepts the log
   * exactly if every filling passes the gross check with a share count and price that are not zero.
   */
  lemma TradedLogAcceptedIff(states: seq<State>, i: nat)
    requires IsRun(states) && i < |states|
    requires forall f :: f in states[i].disk.wal && f.Filling? ==> FromTrade(f)
    ensures Accepted(states[i].disk.wal) <==>
            forall f :: f in states[i].disk.wal && f.Filling? ==> GrossFits(f)
  {
    hide Accepted, Coherent, IdsPresent, GrossFits, FromTrade;
    MarkedOrders(states, i);
    var wal := states[i].disk.wal;
    forall f | f in wal && f.Filling?
      ensures Priced(f) <==> GrossFits(f)
    {
      TradePricedIff(f);
    }
    assert forall f :: f in wal && !f.Filling? ==> Priced(f);
  }

  // -------------------------------------------------------------------------
  // Refusal is for good
  // -------------------------------------------------------------------------

  lemma StepAppends(st: State, st': State, step: Step)
    requires Takes(st, st', step)
    ensures st.disk.wal <= st'.disk.wal
  {
    hide Outcome, Lists, Accepted, IdsPresent, FreshFilling, Marker, NeedsMarker;
  }

  lemma {:induction false} LogGrows(states: seq<State>, i: nat, j: nat)
    requires IsRun(states) && i <= j < |states|
    ensures states[i].disk.wal <= states[j].disk.wal
    decreases j
  {
    hide Takes;
    if i < j {
      LogGrows(states, i, j - 1);
      assert Next(states[j - 1], states[j - 1 + 1]);
      var step :| Takes(states[j - 1], states[j], step);
      StepAppends(states[j - 1], states[j], step);
    }
  }

  /** Nothing moves: no process runs, no fill and no save is added, and orders in flight stay SETTLING. */
  ghost predicate Frozen(st: State, st': State) {
    && st'.process.Resting? && st'.disk.wal == st.disk.wal && st'.disk.saved == st.disk.saved
    && Book(st'.disk).Keys == Book(st.disk).Keys
    && forall o :: o in Book(st.disk) ==>
         || Book(st'.disk)[o] == Book(st.disk)[o]
         || (Book(st.disk)[o].status == PendingPrice && Book(st'.disk)[o] == Book(st.disk)[o].(status := Expired))
  }

  lemma RefusedStep(st: State, st': State, step: Step)
    requires st.process.Resting? && !Accepted(st.disk.wal) && Takes(st, st', step)
    ensures Frozen(st, st')
  {
    hide Outcome, Lists, Accepted, IdsPresent, FreshFilling;
    if step.Expire? {
      CurrentAfterSave(st.disk.log, WithStatus(st.disk, step.o, Expired));
    }
  }

  /**
   * Once the log is refused it stays refused, whatever is appended; and from the first crash on no
   * recovery ever begins: every order in flight stays SETTLING and every portfolio as it was saved.
   */
  lemma {:induction false} RefusedForever(states: seq<State>, i: nat, j: nat)
    requires IsRun(states) && i <= j < |states| && !AllPriced(states[i].disk.wal)
    ensures !Accepted(states[j].disk.wal) && forall s :: !RecoveryStarts(states[j].disk, s)
    ensures states[i].process.Resting? ==> Frozen(states[i], states[j])
    decreases j
  {
    hide Takes, Frozen, Accepted;
    LogGrows(states, i, j);
    StillRefused(states[i].disk.wal, states[j].disk);
    if i < j {
      RefusedForever(states, i, j - 1);
      assert Next(states[j - 1], states[j - 1 + 1]);
      var step :| Takes(states[j - 1], states[j], step);
      if states[i].process.Resting? {
        FrozenRests(states[i], states[j - 1]);
        RefusedStep(states[j - 1], states[j], step);
        FrozenChain(states[i], states[j - 1], states[j]);
      }
    } else if states[i].process.Resting? {
      FrozenHere(states[i]);
    }
  }

  lemma StillRefused(wal: seq<Body>, d: Disk)
    requires !AllPriced(wal) && wal <= d.wal
    ensures !Accepted(d.wal) && forall s :: !RecoveryStarts(d, s)
  {
    var b :| b in wal && !Priced(b);
    assert b in d.wal;
  }

  lemma FrozenHere(st: State)
    requires st.process.Resting?
    ensures Frozen(st, st)
  {
  }

  lemma FrozenRests(a: State, b: State)
    requires Frozen(a, b)
    ensures b.process.Resting?
  {
  }

  lemma FrozenChain(a: State, b: State, c: State)
    requires Frozen(a, b) && Frozen(b, c)
    ensures Frozen(a, c)
  {
  }
}
