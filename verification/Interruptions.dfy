/** Recovery that crashes inside Phase 2, any number of times, before one run of it completes. */
module Interruptions {
  import opened Sequences
  import opened FillRecords
  import opened FillChain
  import opened Orders
  import opened Storage
  import opened Settlement
  import opened Restart
  import opened Recovery

  /** A recovery that takes the orders in this order and dies after `k` writes. */
  datatype Cut = Cut(todo: seq<string>, k: nat)

  ghost predicate Possible(d: Disk, strategy: string, c: Cut) {
    Lists(ViewOf(d, strategy), c.todo) && c.k <= |Plan(ViewOf(d, strategy), c.todo)|
  }

  ghost function AfterCut(d: Disk, strategy: string, c: Cut): Disk
    requires Possible(d, strategy, c)
  {
    ApplyAll(d, Plan(ViewOf(d, strategy), c.todo)[..c.k])
  }

  /** Interrupted recoveries one after the other, each starting from what the one before left. */
  ghost predicate AllPossible(d: Disk, strategy: string, cuts: seq<Cut>)
    decreases |cuts|
  {
    cuts == [] || (Possible(d, strategy, cuts[0]) && AllPossible(AfterCut(d, strategy, cuts[0]), strategy, cuts[1..]))
  }

  ghost function AfterCuts(d: Disk, strategy: string, cuts: seq<Cut>): Disk
    requires AllPossible(d, strategy, cuts)
    decreases |cuts|
  {
    if cuts == [] then d else AfterCuts(AfterCut(d, strategy, cuts[0]), strategy, cuts[1..])
  }

  /** The status of an order once a recovery completes after all these interrupted ones. */
  ghost function Fate(d: Disk, strategy: string, cuts: seq<Cut>, o: string): Status
    requires AllPossible(d, strategy, cuts)
  {
    var v := ViewOf(AfterCuts(d, strategy, cuts), strategy);
    if o !in v.orders then PendingPrice else if Due(v, o) then Outcome(v, o) else v.orders[o].status
  }

  // -------------------------------------------------------------------------
  // One interrupted recovery
  // -------------------------------------------------------------------------

  lemma CutAdvances(d: Disk, strategy: string, c: Cut) returns (done: set<string>, marked: set<string>)
    requires Coherent(d.wal) && IdsPresent(d.wal) && Possible(d, strategy, c)
    ensures Advanced(ViewOf(d, strategy), ViewOf(AfterCut(d, strategy, c), strategy), done, marked)
    ensures Coherent(AfterCut(d, strategy, c).wal) && IdsPresent(AfterCut(d, strategy, c).wal)
  {
    hide Outcome, Plan, Grouped, ApplyAll, Coherent;
    done, marked := PrefixAdvances(ViewOf(d, strategy), d, c.todo, c.k);
    IntentMembers(d.wal);
    IntentMembers(AfterCut(d, strategy, c).wal);
  }

  /** An order already settled is left alone. */
  lemma SettledStaysPut(v: View, v': View, done: set<string>, marked: set<string>, o: string)
    requires Advanced(v, v', done, marked) && o in v.orders && !Due(v, o)
    ensures o in v'.orders && v'.orders[o] == v.orders[o] && !Due(v', o)
  {
  }

  lemma {:induction false} SettledForGood(d: Disk, strategy: string, cuts: seq<Cut>, o: string)
    requires Coherent(d.wal) && IdsPresent(d.wal) && AllPossible(d, strategy, cuts)
    requires o in ViewOf(d, strategy).orders && !Due(ViewOf(d, strategy), o)
    ensures Fate(d, strategy, cuts, o) == ViewOf(d, strategy).orders[o].status
    decreases |cuts|
  {
    hide Advanced, Coherent, IdsPresent, Possible, ViewOf, Due, AfterCut, Outcome;
    if cuts != [] {
      var next := AfterCut(d, strategy, cuts[0]);
      var done, marked := CutAdvances(d, strategy, cuts[0]);
      SettledStaysPut(ViewOf(d, strategy), ViewOf(next, strategy), done, marked, o);
      SettledForGood(next, strategy, cuts[1..], o);
    }
  }

  /** The order was written by the interrupted recovery, with the status it had decided. */
  lemma WrittenAsDecided(v: View, v': View, done: set<string>, marked: set<string>, o: string)
    requires Advanced(v, v', done, marked) && Due(v, o) && !Due(v', o)
    ensures o in v'.orders && v'.orders[o].status == Outcome(v, o)
  {
  }

  // -------------------------------------------------------------------------
  // What no number of crashes changes
  // -------------------------------------------------------------------------

  /** The order is not rejected for overlap alone. */
  ghost predicate Firm(v: View, o: string) {
    IntentOf(v, o).Some? ==> !Contested(v, IntentOf(v, o).value) || Alone(v, IntentOf(v, o).value) == Rejected
  }

  /** At worst a retry has turned into a rejection. */
  predicate Follows(decided: Status, fate: Status) {
    fate == decided || (decided == PendingPrice && fate == FailedReconciliation)
  }

  lemma FirmStays(v: View, v': View, done: set<string>, marked: set<string>, o: string)
    requires Advanced(v, v', done, marked) && Due(v', o) && Firm(v, o)
    ensures Due(v, o) && Firm(v', o) && Follows(Outcome(v, o), Outcome(v', o))
  {
    StillInFlight(v, v', done, marked, o);
    SecondDecision(v, v', done, marked, o);
    hide Advanced, Outcome, Alone, Contested;
    if IntentOf(v, o).Some? {
      var ci := IntentOf(v, o).value;
      assert InBatch(v', ci, o);
      StillActive(v, v', done, marked, ci);
      if Contested(v', ci) {
        RejectionStays(v, v', done, marked, ci);
      }
    }
  }

  lemma DecidedIsFirm(v: View, o: string)
    requires Due(v, o) && Outcome(v, o) != FailedReconciliation
    ensures Firm(v, o)
  {
  }

  /**
   * Crash inside Phase 2 as often as you like, then let recovery complete: an order of a saved batch still
   * ends EXECUTED, an order to be retried is retried or rejected but never EXECUTED, and a rejected order
   * stays rejected unless its batch was rejected for overlap alone.
   */
  lemma RestartsKeepDecisions(d: Disk, strategy: string, cuts: seq<Cut>, o: string)
    requires Coherent(d.wal) && IdsPresent(d.wal) && AllPossible(d, strategy, cuts)
    requires Due(ViewOf(d, strategy), o)
    requires Outcome(ViewOf(d, strategy), o) == FailedReconciliation ==> Firm(ViewOf(d, strategy), o)
    ensures Follows(Outcome(ViewOf(d, strategy), o), Fate(d, strategy, cuts, o))
  {
    DecidedIsFirmUnlessRejected(ViewOf(d, strategy), o);
    FirmFate(d, strategy, cuts, o);
  }

  lemma {:induction false} FirmFate(d: Disk, strategy: string, cuts: seq<Cut>, o: string)
    requires Coherent(d.wal) && IdsPresent(d.wal) && AllPossible(d, strategy, cuts)
    requires Due(ViewOf(d, strategy), o) && Firm(ViewOf(d, strategy), o)
    ensures Follows(Outcome(ViewOf(d, strategy), o), Fate(d, strategy, cuts, o))
    decreases |cuts|
  {
    var v := ViewOf(d, strategy);
    hide Advanced, Coherent, IdsPresent, Possible, ViewOf, AfterCut, Outcome, Firm, Due;
    if cuts == [] {
      DueIsKnown(v, o);
    } else {
      var next := AfterCut(d, strategy, cuts[0]);
      var done, marked := CutAdvances(d, strategy, cuts[0]);
      if Due(ViewOf(next, strategy), o) {
        FirmStays(v, ViewOf(next, strategy), done, marked, o);
        FirmFate(next, strategy, cuts[1..], o);
      } else {
        WrittenAsDecided(v, ViewOf(next, strategy), done, marked, o);
        SettledForGood(next, strategy, cuts[1..], o);
      }
    }
  }

  lemma DecidedIsFirmUnlessRejected(v: View, o: string)
    requires Due(v, o) && (Outcome(v, o) == FailedReconciliation ==> Firm(v, o))
    ensures Firm(v, o)
  {
    if Outcome(v, o) != FailedReconciliation {
      DecidedIsFirm(v, o);
    }
  }

  lemma DueIsKnown(v: View, o: string)
    requires Due(v, o)
    ensures o in v.orders
  {
  }

  // -------------------------------------------------------------------------
  // What a crash can change
  // -------------------------------------------------------------------------

  /** A contested batch that passes Phase 1 on its own. */
  ghost predicate RescuedByCrash(v: View, ci: Body) {
    Active(v, ci) && ci.CommitIntent? && Contested(v, ci) && Alone(v, ci) != Rejected
  }

  /** A batch to be retried that has two members in flight, which are written one after the other. */
  ghost predicate SplitByCrash(v: View, ci: Body) {
    ci.CommitIntent? && Decide(v, ci) == PortfolioUnsaved
    && exists o, mate :: InBatch(v, ci, o) && InBatch(v, ci, mate) && o != mate
  }

  /** The order belongs to a batch that a crash can rescue, or can separate it from. */
  ghost predicate Fragile(v: View, o: string) {
    IntentOf(v, o).Some?
    && var ci := IntentOf(v, o).value;
       || RescuedByCrash(v, ci)
       || (Decide(v, ci) == PortfolioUnsaved && exists mate :: InBatch(v, ci, mate) && mate != o)
  }

  /** However often recovery crashes inside Phase 2, the order ends as decided at first. */
  ghost predicate OrderStable(d: Disk, strategy: string, o: string) {
    forall cuts :: AllPossible(d, strategy, cuts) ==> Fate(d, strategy, cuts, o) == Outcome(ViewOf(d, strategy), o)
  }

  ghost predicate RestartStable(d: Disk, strategy: string) {
    forall o :: Due(ViewOf(d, strategy), o) ==> OrderStable(d, strategy, o)
  }

  /** An order that is not fragile is decided the same way again, and is still not fragile. */
  lemma SolidStays(v: View, v': View, done: set<string>, marked: set<string>, o: string)
    requires Advanced(v, v', done, marked) && Due(v', o) && !Fragile(v, o)
    ensures Due(v, o) && Outcome(v', o) == Outcome(v, o) && !Fragile(v', o)
  {
    StillInFlight(v, v', done, marked, o);
    if IntentOf(v, o).Some? {
      var ci := IntentOf(v, o).value;
      assert InBatch(v, ci, o) && InBatch(v', ci, o);
      SolidBatch(v, v', done, marked, ci, o);
    }
  }

  lemma SolidBatch(v: View, v': View, done: set<string>, marked: set<string>, ci: Body, o: string)
    requires Advanced(v, v', done, marked) && ci.CommitIntent? && InBatch(v, ci, o) && InBatch(v', ci, o)
    requires !Fragile(v, o)
    ensures Outcome(v', o) == Outcome(v, o) && !Fragile(v', o)
  {
    MatesLeft(v, v', done, marked, ci);
    hide Advanced, Alone, Contested, Outcome;
    StillActive(v, v', done, marked, ci);
    BatchOutcome(v, ci, o);
    BatchOutcome(v', ci, o);
    if Alone(v, ci) == Rejected {
      RejectionStays(v, v', done, marked, ci);
    } else {
      UncontestedVerdict(v, v', done, marked, ci);
    }
  }

  /** Members still in flight were members before, and members not yet written are still in flight. */
  lemma MatesLeft(v: View, v': View, done: set<string>, marked: set<string>, ci: Body)
    requires Advanced(v, v', done, marked) && ci.CommitIntent?
    ensures forall o :: InBatch(v', ci, o) <==> InBatch(v, ci, o) && o !in done
  {
    hide Coherent, Events;
    assert forall o :: Due(v', o) <==> Due(v, o) && o !in done;
  }

  lemma {:induction false} SolidFate(d: Disk, strategy: string, cuts: seq<Cut>, o: string)
    requires Coherent(d.wal) && IdsPresent(d.wal) && AllPossible(d, strategy, cuts)
    requires Due(ViewOf(d, strategy), o) && !Fragile(ViewOf(d, strategy), o)
    ensures Fate(d, strategy, cuts, o) == Outcome(ViewOf(d, strategy), o)
    decreases |cuts|
  {
    var v := ViewOf(d, strategy);
    hide Advanced, Coherent, IdsPresent, Possible, ViewOf, AfterCut, Outcome, Fragile, Due;
    if cuts == [] {
      DueIsKnown(v, o);
    } else {
      var next := AfterCut(d, strategy, cuts[0]);
      var done, marked := CutAdvances(d, strategy, cuts[0]);
      if Due(ViewOf(next, strategy), o) {
        SolidStays(v, ViewOf(next, strategy), done, marked, o);
        SolidFate(next, strategy, cuts[1..], o);
      } else {
        WrittenAsDecided(v, ViewOf(next, strategy), done, marked, o);
        SettledForGood(next, strategy, cuts[1..], o);
      }
    }
  }

  // -------------------------------------------------------------------------
  // Crashes that do change it
  // -------------------------------------------------------------------------

  lemma FateAfterOne(d: Disk, strategy: string, c: Cut, o: string)
    requires Possible(d, strategy, c) && Due(ViewOf(AfterCut(d, strategy, c), strategy), o)
    ensures AllPossible(d, strategy, [c])
    ensures Fate(d, strategy, [c], o) == Outcome(ViewOf(AfterCut(d, strategy, c), strategy), o)
  {
    hide Possible, AfterCut, Outcome;
    var next := AfterCut(d, strategy, c);
    assert [c][1..] == [] && AllPossible(next, strategy, []);
    assert AfterCuts(d, strategy, [c]) == AfterCuts(next, strategy, []) == next;
    DueIsKnown(ViewOf(next, strategy), o);
  }

  /** The run that writes all rival batches, crashes, and then finds the batch of `o` uncontested. */
  lemma RivalsFirst(d: Disk, strategy: string, ci: Body, o: string) returns (c: Cut)
    requires Coherent(d.wal) && IdsPresent(d.wal)
    requires RescuedByCrash(ViewOf(d, strategy), ci) && InBatch(ViewOf(d, strategy), ci, o)
    ensures var v := ViewOf(d, strategy);
      && Possible(d, strategy, c) && AllPossible(d, strategy, [c]) && Outcome(v, o) == FailedReconciliation
      && Fate(d, strategy, [c], o) == (if Alone(v, ci) == PortfolioSaved then Executed else PendingPrice)
  {
    hide Advanced, Outcome, Plan, Alone, Coherent, IdsPresent, Contested, Fate;
    var v := ViewOf(d, strategy);
    var rivals, own, loose := GroupedListing(v, ci);
    var todo := rivals + own + loose;
    PlanConcat(v, rivals, own + loose);
    assert rivals + (own + loose) == todo;
    var k := |Plan(v, rivals)|;
    c := Cut(todo, k);
    var done, marked := PrefixAdvances(v, d, rivals, k);
    assert Plan(v, rivals)[..k] == Plan(v, rivals) == Plan(v, todo)[..k];
    RivalsGone(v, ViewOf(AfterCut(d, strategy, c), strategy), done, marked, ci, o);
    FateAfterOne(d, strategy, c, o);
  }

  /** With every rival decided and its own orders untouched, a rescued batch gets its own verdict. */
  lemma RivalsGone(v: View, v': View, done: set<string>, marked: set<string>, ci: Body, o: string)
    requires Advanced(v, v', done, marked) && RescuedByCrash(v, ci) && InBatch(v, ci, o)
    requires forall x :: x in done <==> Due(v, x) && IntentOf(v, x).Some? && IntentOf(v, x) != Some(ci)
    ensures o in v'.orders && Due(v', o) && Outcome(v, o) == FailedReconciliation
    ensures Outcome(v', o) == if Alone(v, ci) == PortfolioSaved then Executed else PendingPrice
  {
    MatesLeft(v, v', done, marked, ci);
    OnlyActiveLeft(v, v', done, marked, ci);
    hide Advanced, Outcome, Alone, Coherent;
    UncontestedVerdict(v, v', done, marked, ci);
    BatchOutcome(v, ci, o);
    BatchOutcome(v', ci, o);
  }

  lemma OnlyActiveLeft(v: View, v': View, done: set<string>, marked: set<string>, ci: Body)
    requires Advanced(v, v', done, marked) && ci.CommitIntent?
    requires forall x :: x in done <==> Due(v, x) && IntentOf(v, x).Some? && IntentOf(v, x) != Some(ci)
    ensures !Contested(v', ci)
  {
    forall other | Active(v', other)
      ensures other == ci
    {
      var x :| InBatch(v', other, x);
      assert Due(v, x) && x !in done;
    }
  }

  /** The run that queues one member of a batch for retry and crashes: the next run rejects the others. */
  lemma MateFirst(d: Disk, strategy: string, ci: Body, mate: string, o: string) returns (c: Cut)
    requires Coherent(d.wal) && IdsPresent(d.wal) && ci.CommitIntent?
    requires var v := ViewOf(d, strategy);
      Decide(v, ci) == PortfolioUnsaved && InBatch(v, ci, mate) && InBatch(v, ci, o) && mate != o
    ensures Possible(d, strategy, c) && AllPossible(d, strategy, [c])
    ensures Outcome(ViewOf(d, strategy), o) == PendingPrice && Fate(d, strategy, [c], o) == FailedReconciliation
  {
    hide Advanced, Outcome, Plan, Decide, Coherent, IdsPresent, Fate, IntentOf, Due;
    var v := ViewOf(d, strategy);
    var front, rest := MateListing(v, ci, mate);
    var todo := front + rest;
    PlanConcat(v, front, rest);
    var k := |Plan(v, front)|;
    c := Cut(todo, k);
    var done, marked := PrefixAdvances(v, d, front, k);
    assert Plan(v, front)[..k] == Plan(v, front) == Plan(v, todo)[..k];
    BatchOutcome(v, ci, o);
    MateGone(v, ViewOf(AfterCut(d, strategy, c), strategy), done, marked, ci, mate, o);
    FateAfterOne(d, strategy, c, o);
  }

  /** A listing whose first part ends with `mate` and holds no other member of its batch. */
  lemma MateListing(v: View, ci: Body, mate: string) returns (front: seq<string>, rest: seq<string>)
    requires InBatch(v, ci, mate)
    ensures Lists(v, front + rest) && Distinct(front) && mate in front
    ensures forall o :: o in front && o != mate ==> !InBatch(v, ci, o)
    ensures forall o :: o in front || o in rest ==> Due(v, o)
  {
    var rivals, own, loose := GroupedListing(v, ci);
    var others := ListingExists((set o | o in own) - {mate});
    var batch := [mate] + others;
    assert forall i :: 0 <= i < |others| ==> others[i] in others;
    ListingsJoin(v, ci, rivals, batch, loose);
    front, rest := rivals + [mate], others + loose;
    assert front + rest == rivals + batch + loose;
    assert forall i :: 0 <= i < |rivals| ==> rivals[i] in rivals;
    assert forall o :: o in front <==> o in rivals || o == mate;
  }

  lemma MateGone(v: View, v': View, done: set<string>, marked: set<string>, ci: Body, mate: string, o: string)
    requires Advanced(v, v', done, marked) && ci.CommitIntent? && Outcome(v, o) == PendingPrice
    requires InBatch(v, ci, mate) && InBatch(v, ci, o) && mate in done && o !in done
    ensures Due(v', o) && Outcome(v', o) == FailedReconciliation
  {
    MatesLeft(v, v', done, marked, ci);
    assert MemberDone(v, done, ci);
    hide Advanced, Outcome;
    SecondDecision(v, v', done, marked, o);
  }

  // -------------------------------------------------------------------------
  // The exact conditions
  // -------------------------------------------------------------------------

  /**
   * An order in flight ends as decided at first, however often recovery crashes inside Phase 2, exactly if
   * its batch is not contested for overlap alone and, when the batch is to be retried, it is its only
   * member in flight.
   */
  lemma OrderStableIff(d: Disk, strategy: string, o: string)
    requires Coherent(d.wal) && IdsPresent(d.wal) && Due(ViewOf(d, strategy), o)
    ensures OrderStable(d, strategy, o) <==> !Fragile(ViewOf(d, strategy), o)
  {
    var v := ViewOf(d, strategy);
    if Fragile(v, o) {
      hide Fragile, Outcome, Fate, Coherent, IdsPresent, AllPossible, Due;
      var c := FragileMoves(d, strategy, o);
      assert AllPossible(d, strategy, [c]);
    } else {
      hide *;
      forall cuts | AllPossible(d, strategy, cuts)
        ensures Fate(d, strategy, cuts, o) == Outcome(v, o)
      {
        SolidFate(d, strategy, cuts, o);
      }
      AllSolid(d, strategy, o);
    }
  }

  /** One crash at the right moment changes the fate of a fragile order. */
  lemma FragileMoves(d: Disk, strategy: string, o: string) returns (c: Cut)
    requires Coherent(d.wal) && IdsPresent(d.wal) && Due(ViewOf(d, strategy), o) && Fragile(ViewOf(d, strategy), o)
    ensures AllPossible(d, strategy, [c]) && Fate(d, strategy, [c], o) != Outcome(ViewOf(d, strategy), o)
  {
    hide Outcome, Fate, Coherent, IdsPresent, Alone, Contested, AllPossible, Possible, Decide, IntentOf, Due,
         RescuedByCrash;
    var v := ViewOf(d, strategy);
    var ci := IntentOf(v, o).value;
    assert InBatch(v, ci, o);
    if RescuedByCrash(v, ci) {
      c := RivalsFirst(d, strategy, ci, o);
    } else {
      var mate :| InBatch(v, ci, mate) && mate != o;
      c := MateFirst(d, strategy, ci, mate, o);
    }
  }

  lemma AllSolid(d: Disk, strategy: string, o: string)
    requires forall cuts :: AllPossible(d, strategy, cuts) ==>
               Fate(d, strategy, cuts, o) == Outcome(ViewOf(d, strategy), o)
    ensures OrderStable(d, strategy, o)
  {
  }

  /**
   * Crash points inside Phase 2 change the fate of no order exactly if no contested batch would pass
   * Phase 1 on its own, and no batch to be retried has two members in flight.
   */
  lemma RestartStableIff(d: Disk, strategy: string)
    requires Coherent(d.wal) && IdsPresent(d.wal)
    ensures RestartStable(d, strategy) <==>
            forall ci :: !RescuedByCrash(ViewOf(d, strategy), ci) && !SplitByCrash(ViewOf(d, strategy), ci)
  {
    hide OrderStable, Outcome, Coherent, IdsPresent, Alone, Decide, Contested;
    var v := ViewOf(d, strategy);
    forall o | Due(v, o)
      ensures OrderStable(d, strategy, o) <==> !Fragile(v, o)
    {
      OrderStableIff(d, strategy, o);
    }
    if ci :| RescuedByCrash(v, ci) || SplitByCrash(v, ci) {
      var o :| InBatch(v, ci, o) && Fragile(v, o) by { FragileMember(v, ci); }
      assert !OrderStable(d, strategy, o);
    } else {
      forall o | Due(v, o)
        ensures !Fragile(v, o)
      {
        if IntentOf(v, o).Some? {
          var ci := IntentOf(v, o).value;
          assert InBatch(v, ci, o) && !RescuedByCrash(v, ci) && !SplitByCrash(v, ci);
        }
      }
    }
  }

  lemma FragileMember(v: View, ci: Body)
    requires RescuedByCrash(v, ci) || SplitByCrash(v, ci)
    ensures exists o :: InBatch(v, ci, o) && Fragile(v, o)
  {
    if RescuedByCrash(v, ci) {
      var o :| InBatch(v, ci, o);
      assert Fragile(v, o);
    } else {
      var o, mate :| InBatch(v, ci, o) && InBatch(v, ci, mate) && o != mate;
      assert Fragile(v, o);
    }
  }

  /** The fate of an order is the status that a completed recovery writes. */
  lemma FateIsWritten(d: Disk, strategy: string, cuts: seq<Cut>, todo: seq<string>, o: string)
    requires Coherent(d.wal) && IdsPresent(d.wal) && AllPossible(d, strategy, cuts)
    requires Lists(ViewOf(AfterCuts(d, strategy, cuts), strategy), todo) && o in ViewOf(d, strategy).orders
    ensures var orders := Current(AfterRecovery(AfterCuts(d, strategy, cuts), strategy, todo).log);
            o in orders && orders[o].status == Fate(d, strategy, cuts, o)
  {
    hide Outcome, Coherent, IdsPresent, AfterRecovery, Grouped, Current;
    var end := AfterCuts(d, strategy, cuts);
    StillCoherent(d, strategy, cuts);
    var done, marked := RecoveryAdvances(end, strategy, todo);
    LastRun(ViewOf(end, strategy), ViewOf(AfterRecovery(end, strategy, todo), strategy), done, marked, o);
  }

  lemma LastRun(v: View, v': View, done: set<string>, marked: set<string>, o: string)
    requires Advanced(v, v', done, marked) && o in v.orders && forall x :: x in done <==> Due(v, x)
    ensures o in v'.orders && v'.orders[o].status == if Due(v, o) then Outcome(v, o) else v.orders[o].status
  {
  }

  lemma {:induction false} StillCoherent(d: Disk, strategy: string, cuts: seq<Cut>)
    requires Coherent(d.wal) && IdsPresent(d.wal) && AllPossible(d, strategy, cuts)
    ensures var end := AfterCuts(d, strategy, cuts); Coherent(end.wal) && IdsPresent(end.wal)
    ensures ViewOf(AfterCuts(d, strategy, cuts), strategy).orders.Keys == ViewOf(d, strategy).orders.Keys
    decreases |cuts|
  {
    hide Coherent, IdsPresent, Possible, AfterCut, ViewOf, Outcome, Events, Intents;
    if cuts != [] {
      var done, marked := CutAdvances(d, strategy, cuts[0]);
      StillCoherent(AfterCut(d, strategy, cuts[0]), strategy, cuts[1..]);
    }
  }
}
