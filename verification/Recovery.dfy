/** What recovery guarantees: decisions per batch, order independence, and restarts. */
module Recovery {
  import opened Sequences
  import opened FillRecords
  import opened FillChain
  import opened Orders
  import opened Storage
  import opened Settlement
  import opened Restart

  // -------------------------------------------------------------------------
  // A prefix of the Phase 2 writes advances the view
  // -------------------------------------------------------------------------

  lemma CoherentWithMarker(wal: seq<Body>, marker: Body)
    requires Coherent(wal) && marker.Persisted? && PersistedOk(marker)
    requires Markers(Events(wal, marker.order)) == [] && marker.order != ""
    ensures Coherent(wal + [marker])
  {
    var longer := wal + [marker];
    EventMembers(wal, marker.order);
    FilterMembers(Events(wal, marker.order), IsPersisted());
    forall i | 0 <= i < |wal|
      ensures MarkersAgree(wal[i], marker)
    {
      assert wal[i] in wal;
    }
    forall ci, r | ci in longer && ci.CommitIntent? && r in ci.fills
      ensures RefResolves(longer, ci, r)
    {
      assert RefResolves(wal, ci, r);
      FilterSnoc(wal, marker, AboutOrder(r.order));
      MarkerEffect(Events(wal, r.order), marker);
    }
  }

  lemma MarkerIsSound(v: View, o: string)
    requires Coherent(v.wal) && IdsPresent(v.wal) && NeedsMarker(v, o)
    ensures Marker(v, o).Persisted? && PersistedOk(Marker(v, o)) && Marker(v, o).order == o && o != ""
  {
    ExecutedResolves(v, o);
    IntentMembers(v.wal);
    assert BodyShaped(IntentOf(v, o).value);
  }

  /** A marker has no amounts to check. */
  lemma PricedWithMarker(wal: seq<Body>, marker: Body)
    requires marker.Persisted?
    ensures AllPriced(wal + [marker]) <==> AllPriced(wal)
  {
    assert forall b :: b in wal ==> b in wal + [marker];
  }

  lemma MarkerStep(v: View, v': View, done: set<string>, marked: set<string>, o: string)
    requires IdsPresent(v.wal) && Advanced(v, v', done, marked)
    requires NeedsMarker(v, o) && o !in marked
    ensures Advanced(v, v'.(wal := v'.wal + [Marker(v, o)]), done, marked + {o})
  {
    hide Outcome, Due, Coherent, AllPriced, Intents, Events, Marker, IdsPresent, PersistedOk;
    MarkerIsSound(v, o);
    var marker := Marker(v, o);
    CoherentWithMarker(v'.wal, marker);
    PricedWithMarker(v'.wal, marker);
    GroupingGrows(v'.wal, marker);
  }

  lemma SaveStep(v: View, v': View, done: set<string>, marked: set<string>, o: string)
    requires Advanced(v, v', done, marked) && Due(v, o) && (NeedsMarker(v, o) ==> o in marked)
    ensures Advanced(v, v'.(orders := v'.orders[o := v.orders[o].(status := Outcome(v, o))]),
                     done + {o}, marked)
  {
  }

  lemma NoWrites(d: Disk)
    ensures ApplyAll(d, []) == d
  {
  }

  /** Any prefix of the writes for one order. */
  lemma OrderStep(v: View, d: Disk, done: set<string>, marked: set<string>, o: string, j: nat)
    returns (done': set<string>, marked': set<string>)
    requires IdsPresent(v.wal) && Advanced(v, ViewOf(d, v.strategy), done, marked)
    requires forall id :: id in v.orders ==> v.orders[id].id == id
    requires Due(v, o) && o !in marked && j <= |WritesFor(v, o)|
    ensures Advanced(v, ViewOf(ApplyAll(d, WritesFor(v, o)[..j]), v.strategy), done', marked')
    ensures marked <= marked' <= marked + {o}
    ensures done' == if j == |WritesFor(v, o)| then done + {o} else done
  {
    hide Advanced, Outcome, Coherent, Marker, Current, IdsPresent, ApplyAll;
    NoWrites(d);
    var ws := WritesFor(v, o);
    done', marked' := done, marked;
    var mid, m := d, 0;
    assert ws[..0] == [];
    if NeedsMarker(v, o) && j > 0 {
      MarkerStep(v, ViewOf(d, v.strategy), done, marked, o);
      marked' := marked + {o};
      mid, m := Apply(d, ws[0]), 1;
      assert ws[..1] == [] + [ws[0]];
      ApplySnoc(d, [], ws[0]);
    }
    if j == |ws| {
      SaveStep(v, ViewOf(mid, v.strategy), done, marked', o);
      CurrentAfterSave(mid.log, ws[m].order);
      done' := done + {o};
      assert ws[..j] == ws[..m] + [ws[m]];
      ApplySnoc(d, ws[..m], ws[m]);
    }
  }

  lemma AdvancedNowhere(v: View)
    requires Coherent(v.wal)
    ensures Advanced(v, v, {}, {})
  {
  }

  lemma PlanSplits(v: View, todo: seq<string>)
    requires todo != [] && forall o :: o in todo ==> Due(v, o)
    ensures forall o :: o in todo[..|todo| - 1] ==> o in todo
    ensures Plan(v, todo) == Plan(v, todo[..|todo| - 1]) + WritesFor(v, todo[|todo| - 1])
  {
  }

  /** The disk after any prefix of the Phase 2 writes, crash or no crash. */
  lemma {:induction false} PrefixAdvances(v: View, d: Disk, todo: seq<string>, k: nat)
    returns (done: set<string>, marked: set<string>)
    requires v == ViewOf(d, v.strategy) && Coherent(v.wal) && IdsPresent(v.wal)
    requires forall id :: id in v.orders ==> v.orders[id].id == id
    requires Distinct(todo) && (forall o :: o in todo ==> Due(v, o)) && k <= |Plan(v, todo)|
    ensures Advanced(v, ViewOf(ApplyAll(d, Plan(v, todo)[..k]), v.strategy), done, marked)
    ensures forall o :: o in done ==> o in todo
    ensures forall o :: o in marked ==> o in todo
    ensures k == |Plan(v, todo)| ==> forall o :: o in todo ==> o in done
  {
    hide Advanced, Outcome, Due, ViewOf, Coherent, WritesFor;
    if todo == [] {
      done, marked := {}, {};
      AdvancedNowhere(v);
      assert Plan(v, todo)[..k] == [];
    } else {
      var n := |todo| - 1;
      var front, o := todo[..n], todo[n];
      PlanSplits(v, todo);
      var before, own := Plan(v, front), WritesFor(v, o);
      if k < |before| {
        done, marked := PrefixAdvances(v, d, front, k);
        assert (before + own)[..k] == before[..k];
      } else {
        done, marked := PrefixAdvances(v, d, front, |before|);
        assert before[..|before|] == before;
        var j := k - |before|;
        done, marked := OrderStep(v, ApplyAll(d, before), done, marked, o, j);
        assert (before + own)[..k] == before + own[..j];
        ApplyConcat(d, before, own[..j]);
      }
    }
  }

  // -------------------------------------------------------------------------
  // A completed recovery
  // -------------------------------------------------------------------------

  ghost function AfterRecovery(d: Disk, strategy: string, todo: seq<string>): Disk
    requires forall o :: o in todo ==> Due(ViewOf(d, strategy), o)
  {
    ApplyAll(d, Plan(ViewOf(d, strategy), todo))
  }

  lemma RecoveryAdvances(d: Disk, strategy: string, todo: seq<string>)
    returns (done: set<string>, marked: set<string>)
    requires Coherent(d.wal) && IdsPresent(d.wal) && Lists(ViewOf(d, strategy), todo)
    ensures Advanced(ViewOf(d, strategy), ViewOf(AfterRecovery(d, strategy, todo), strategy), done, marked)
    ensures forall o :: o in done <==> Due(ViewOf(d, strategy), o)
  {
    var plan := Plan(ViewOf(d, strategy), todo);
    done, marked := PrefixAdvances(ViewOf(d, strategy), d, todo, |plan|);
    assert plan[..|plan|] == plan;
  }

  /**
   * Batch trichotomy. All orders in flight of one commit intent end alike: EXECUTED exactly when the
   * batch is uncontested, fits, and the portfolio is at its post state; PENDING_PRICE exactly when it
   * is uncontested, fits, and the portfolio is at its pre state and nothing claims it was saved;
   * FAILED_RECONCILIATION otherwise. An order set to EXECUTED has a strict chain to that commit intent.
   */
  lemma BatchTrichotomy(d: Disk, strategy: string, todo: seq<string>, ci: Body, o: string)
    requires Coherent(d.wal) && IdsPresent(d.wal) && Lists(ViewOf(d, strategy), todo)
    requires InBatch(ViewOf(d, strategy), ci, o)
    ensures
      var v, v' := ViewOf(d, strategy), ViewOf(AfterRecovery(d, strategy, todo), strategy);
      var sound := !Contested(v, ci) && BatchFits(v, ci);
      o in v'.orders && var status := v'.orders[o].status;
      && (status == Executed <==> sound && ci.post == Some(v.current))
      && (status == PendingPrice <==>
            sound && ci.post != Some(v.current) && ci.pre == Some(v.current) && !ClaimsSaved(v, ci))
      && (status == Executed || status == PendingPrice || status == FailedReconciliation)
      && (status == Executed ==> ChainLeadsTo(v', o, ci))
  {
    hide Advanced, Coherent, Outcome, AfterRecovery, ViewOf, Grouped, Due, IdsPresent;
    var v, v' := ViewOf(d, strategy), ViewOf(AfterRecovery(d, strategy, todo), strategy);
    var done, marked := RecoveryAdvances(d, strategy, todo);
    FinalStatus(v, v', done, marked, o);
    BatchOutcome(v, ci, o);
    if Outcome(v, o) == Executed {
      ExecutedChainHolds(v, v', done, marked, o);
    }
  }

  lemma FinalStatus(v: View, v': View, done: set<string>, marked: set<string>, o: string)
    requires Advanced(v, v', done, marked) && o in done
    ensures o in v'.orders && v'.orders[o].status == Outcome(v, o)
  {
    hide Coherent, Outcome, Events, Intents;
  }

  /**
   * Orders in flight that no commit intent names are retried unless they have a persisted marker, which
   * claims a save nobody can prove, or a filling from before record versions.
   */
  lemma LooseOrders(d: Disk, strategy: string, todo: seq<string>, o: string)
    requires Coherent(d.wal) && IdsPresent(d.wal) && Lists(ViewOf(d, strategy), todo)
    requires Due(ViewOf(d, strategy), o) && IntentOf(ViewOf(d, strategy), o).None?
    ensures
      var orders := Current(AfterRecovery(d, strategy, todo).log);
      var marked := exists b :: b in d.wal && b.Persisted? && b.order == o;
      var legacy := exists b :: b in d.wal && b.Filling? && b.order == o && b.version == Versionless;
      o in orders && orders[o].status == if o != "" && (marked || legacy) then FailedReconciliation else PendingPrice
  {
    hide Advanced, Coherent, Outcome, AfterRecovery, ViewOf, Grouped, IdsPresent, IntentOf, Due;
    var v := ViewOf(d, strategy);
    var done, marked := RecoveryAdvances(d, strategy, todo);
    AfterView(d, strategy, todo);
    FinalStatus(v, ViewOf(AfterRecovery(d, strategy, todo), strategy), done, marked, o);
    LooseOutcome(v, o);
  }

  lemma LooseOutcome(v: View, o: string)
    requires IntentOf(v, o).None?
    ensures
      var marked := exists b :: b in v.wal && b.Persisted? && b.order == o;
      var legacy := exists b :: b in v.wal && b.Filling? && b.order == o && b.version == Versionless;
      Outcome(v, o) == if o != "" && (marked || legacy) then FailedReconciliation else PendingPrice
  {
    EventMembers(v.wal, o);
    if b :| b in v.wal && b.Persisted? && b.order == o {
      assert o != "" ==> b in Events(v.wal, o) && Untrusted(b);
    }
    if b :| b in v.wal && b.Filling? && b.order == o && b.version == Versionless {
      assert o != "" ==> b in Events(v.wal, o) && Untrusted(b);
    }
  }

  /**
   * In batches and outside of them: an order in flight for which the log holds a persisted marker is never
   * queued to be filled again.
   */
  lemma MarkedIsNeverRetried(d: Disk, strategy: string, todo: seq<string>, o: string, marker: Body)
    requires Coherent(d.wal) && IdsPresent(d.wal) && Lists(ViewOf(d, strategy), todo) && Due(ViewOf(d, strategy), o)
    requires marker in d.wal && marker.Persisted? && marker.order == o && o != ""
    ensures var orders := Current(AfterRecovery(d, strategy, todo).log);
            o in orders && (orders[o].status == Executed || orders[o].status == FailedReconciliation)
  {
    hide Advanced, Coherent, Outcome, AfterRecovery, ViewOf, Grouped, IdsPresent, Alone, Contested, IntentOf, Due;
    var v := ViewOf(d, strategy);
    var done, marked := RecoveryAdvances(d, strategy, todo);
    FinalStatus(v, ViewOf(AfterRecovery(d, strategy, todo), strategy), done, marked, o);
    AfterView(d, strategy, todo);
    MarkedOutcome(v, o, marker);
  }

  lemma AfterView(d: Disk, strategy: string, todo: seq<string>)
    requires Lists(ViewOf(d, strategy), todo)
    ensures ViewOf(AfterRecovery(d, strategy, todo), strategy).orders == Current(AfterRecovery(d, strategy, todo).log)
    ensures ViewOf(d, strategy).wal == d.wal
  {
  }

  lemma MarkedOutcome(v: View, o: string, marker: Body)
    requires Due(v, o) && marker in v.wal && marker.Persisted? && marker.order == o && o != ""
    ensures Outcome(v, o) != PendingPrice
  {
    EventMembers(v.wal, o);
    FilterMembers(Events(v.wal, o), IsPersisted());
    assert marker in Events(v.wal, o) && marker in Markers(Events(v.wal, o));
    match IntentOf(v, o)
    case None => assert Untrusted(marker);
    case Some(ci) =>
      assert InBatch(v, ci, o);
      assert ClaimsSaved(v, ci);
  }

  lemma NothingLeftInFlight(v: View, v': View, done: set<string>, marked: set<string>)
    requires Advanced(v, v', done, marked) && forall o :: o in done <==> Due(v, o)
    ensures forall o :: !Due(v', o)
    ensures v'.orders.Keys == v.orders.Keys
    ensures forall o :: o in v.orders && !Due(v, o) ==> o in v'.orders && v'.orders[o] == v.orders[o]
  {
    forall o
      ensures !Due(v', o)
    {
      if o in done {
        assert v'.orders[o].status == Outcome(v, o) != Settling;
      }
    }
  }

  /** Recovery leaves nothing in flight and touches no other order; running it again writes nothing. */
  lemma RecoveryCompletes(d: Disk, strategy: string, todo: seq<string>, again: seq<string>)
    requires Coherent(d.wal) && IdsPresent(d.wal) && Lists(ViewOf(d, strategy), todo)
    requires Lists(ViewOf(AfterRecovery(d, strategy, todo), strategy), again)
    ensures
      var v, v' := ViewOf(d, strategy), ViewOf(AfterRecovery(d, strategy, todo), strategy);
      && (forall o :: !Due(v', o))
      && v'.orders.Keys == v.orders.Keys
      && (forall o :: o in v.orders && !Due(v, o) ==> v'.orders[o] == v.orders[o])
      && Plan(v', again) == []
  {
    hide Advanced, Coherent, Outcome, Due, AfterRecovery, ViewOf, WritesFor, Grouped;
    var done, marked := RecoveryAdvances(d, strategy, todo);
    NothingLeftInFlight(ViewOf(d, strategy), ViewOf(AfterRecovery(d, strategy, todo), strategy), done, marked);
    assert forall i :: 0 <= i < |again| ==> again[i] in again;
  }

  /** The final order map does not depend on the iteration order of orders and batches. */
  lemma OrderIndependent(d: Disk, strategy: string, todo: seq<string>, other: seq<string>)
    requires Coherent(d.wal) && IdsPresent(d.wal)
    requires Lists(ViewOf(d, strategy), todo) && Lists(ViewOf(d, strategy), other)
    ensures Current(AfterRecovery(d, strategy, todo).log) == Current(AfterRecovery(d, strategy, other).log)
  {
    hide Advanced, Coherent, Outcome, Due, AfterRecovery, Grouped, IdsPresent;
    var done, marked := RecoveryAdvances(d, strategy, todo);
    var done', marked' := RecoveryAdvances(d, strategy, other);
    assert done == done';
    SameOrders(ViewOf(d, strategy), ViewOf(AfterRecovery(d, strategy, todo), strategy),
               ViewOf(AfterRecovery(d, strategy, other), strategy), done, marked, marked');
  }

  /** The orders decided determine the order map. */
  lemma SameOrders(v: View, one: View, two: View, done: set<string>, marked: set<string>, marked': set<string>)
    requires Advanced(v, one, done, marked) && Advanced(v, two, done, marked')
    ensures one.orders == two.orders
  {
    hide Coherent, Outcome, Due, Events, Intents;
    assert one.orders.Keys == two.orders.Keys;
  }

  // -------------------------------------------------------------------------
  // Crash inside Phase 2, then recovery again
  // -------------------------------------------------------------------------

  ghost predicate MemberDone(v: View, done: set<string>, ci: Body) {
    exists o :: InBatch(v, ci, o) && o in done
  }

  /** How an order still in flight after part of Phase 2 is decided the second time. */
  lemma SecondDecision(v: View, v': View, done: set<string>, marked: set<string>, o: string)
    requires Advanced(v, v', done, marked) && Due(v', o)
    ensures Outcome(v, o) == Executed ==> Outcome(v', o) == Executed
    ensures Outcome(v, o) == PendingPrice ==>
              Outcome(v', o) ==
              if IntentOf(v, o).Some? && MemberDone(v, done, IntentOf(v, o).value) then FailedReconciliation
              else PendingPrice
    ensures Outcome(v, o) == FailedReconciliation
            && (IntentOf(v, o).Some? ==> !Contested(v, IntentOf(v, o).value) || Alone(v, IntentOf(v, o).value) == Rejected)
            ==> Outcome(v', o) == FailedReconciliation
  {
    StillInFlight(v, v', done, marked, o);
    if IntentOf(v, o).Some? {
      BatchSecondDecision(v, v', done, marked, IntentOf(v, o).value, o);
    }
  }

  lemma StillInFlight(v: View, v': View, done: set<string>, marked: set<string>, o: string)
    requires Advanced(v, v', done, marked) && Due(v', o)
    ensures Due(v, o) && o !in done && IntentOf(v', o) == IntentOf(v, o)
    ensures IntentOf(v, o).None? ==> Outcome(v', o) == Outcome(v, o) != Executed
  {
  }

  lemma BatchSecondDecision(v: View, v': View, done: set<string>, marked: set<string>, ci: Body, o: string)
    requires Advanced(v, v', done, marked) && ci.CommitIntent? && InBatch(v, ci, o) && InBatch(v', ci, o)
    ensures Outcome(v, o) == Executed ==> Outcome(v', o) == Executed
    ensures Outcome(v, o) == PendingPrice ==>
              Outcome(v', o) == if MemberDone(v, done, ci) then FailedReconciliation else PendingPrice
    ensures Outcome(v, o) == FailedReconciliation && (!Contested(v, ci) || Alone(v, ci) == Rejected)
            ==> Outcome(v', o) == FailedReconciliation
  {
    hide Advanced, Coherent, Outcome, Alone;
    StillActive(v, v', done, marked, ci);
    BatchOutcome(v, ci, o);
    BatchOutcome(v', ci, o);
    if !Contested(v, ci) {
      UncontestedVerdict(v, v', done, marked, ci);
    } else if Alone(v, ci) == Rejected {
      RejectionStays(v, v', done, marked, ci);
    }
  }

  // -------------------------------------------------------------------------
  // Listings
  // -------------------------------------------------------------------------

  lemma {:induction false} PlanConcat(v: View, a: seq<string>, b: seq<string>)
    requires forall o :: o in a ==> Due(v, o)
    requires forall o :: o in b ==> Due(v, o)
    ensures forall o :: o in a + b ==> Due(v, o)
    ensures Plan(v, a + b) == Plan(v, a) + Plan(v, b)
  {
    hide Due, WritesFor;
    if b == [] {
      assert a + b == a;
    } else {
      var front := b[..|b| - 1];
      assert forall o :: o in front ==> o in b;
      PlanConcat(v, a, front);
      assert (a + b)[..|a + b| - 1] == a + front;
    }
  }

  /** A listing with the batch of `ci` right after all other batches. */
  lemma GroupedListing(v: View, ci: Body) returns (rivals: seq<string>, own: seq<string>, loose: seq<string>)
    ensures Lists(v, rivals + own + loose) && Distinct(rivals) && Distinct(loose)
    ensures forall i, j, k :: 0 <= i < j < k < |rivals| ==>
              IntentOf(v, rivals[i]) == IntentOf(v, rivals[k]) ==> IntentOf(v, rivals[j]) == IntentOf(v, rivals[i])
    ensures forall o :: o in rivals <==> Due(v, o) && IntentOf(v, o).Some? && IntentOf(v, o) != Some(ci)
    ensures forall o :: o in own <==> InBatch(v, ci, o)
    ensures forall o :: o in loose <==> Due(v, o) && IntentOf(v, o).None?
  {
    var due := set o | o in v.orders && Due(v, o);
    var others := set o | o in due && IntentOf(v, o).Some? && IntentOf(v, o) != Some(ci) :: IntentOf(v, o).value;
    rivals := BatchByBatch(v, due, others);
    own := ListingExists(set o | o in due && IntentOf(v, o) == Some(ci));
    loose := ListingExists(set o | o in due && IntentOf(v, o).None?);
    ListingsJoin(v, ci, rivals, own, loose);
  }

  lemma ListingsJoin(v: View, ci: Body, rivals: seq<string>, own: seq<string>, loose: seq<string>)
    requires Distinct(rivals) && Distinct(own) && Distinct(loose)
    requires forall i, j, k :: 0 <= i < j < k < |rivals| ==>
              IntentOf(v, rivals[i]) == IntentOf(v, rivals[k]) ==> IntentOf(v, rivals[j]) == IntentOf(v, rivals[i])
    requires forall o :: o in rivals <==> Due(v, o) && IntentOf(v, o).Some? && IntentOf(v, o) != Some(ci)
    requires forall o :: o in own <==> InBatch(v, ci, o)
    requires forall o :: o in loose <==> Due(v, o) && IntentOf(v, o).None?
    ensures Lists(v, rivals + own + loose)
  {
    hide IntentOf;
    var todo := rivals + own + loose;
    forall i | 0 <= i < |todo|
      ensures i < |rivals| ==> todo[i] == rivals[i] && IntentOf(v, todo[i]).Some? && IntentOf(v, todo[i]) != Some(ci)
      ensures |rivals| <= i < |rivals| + |own| ==> todo[i] == own[i - |rivals|] && IntentOf(v, todo[i]) == Some(ci)
      ensures |rivals| + |own| <= i ==> todo[i] == loose[i - |rivals| - |own|] && IntentOf(v, todo[i]).None?
    {
      JoinedPositions(rivals, own, loose, i);
    }
    assert forall o :: o in todo <==> o in rivals || o in own || o in loose;
  }

  lemma JoinedPositions<T(!new)>(a: seq<T>, b: seq<T>, c: seq<T>, i: nat)
    requires i < |a + b + c|
    ensures i < |a| ==> (a + b + c)[i] == a[i] && a[i] in a
    ensures |a| <= i < |a| + |b| ==> (a + b + c)[i] == b[i - |a|] && b[i - |a|] in b
    ensures |a| + |b| <= i ==> (a + b + c)[i] == c[i - |a| - |b|] && c[i - |a| - |b|] in c
  {
  }

  /** The orders of the given batches, one batch after the other. */
  lemma {:induction false} BatchByBatch(v: View, due: set<string>, cis: set<Body>) returns (s: seq<string>)
    ensures Distinct(s)
    ensures forall i, j, k :: 0 <= i < j < k < |s| ==>
              IntentOf(v, s[i]) == IntentOf(v, s[k]) ==> IntentOf(v, s[j]) == IntentOf(v, s[i])
    ensures forall o :: o in s <==> o in due && IntentOf(v, o).Some? && IntentOf(v, o).value in cis
  {
    if cis == {} {
      s := [];
    } else {
      var ci :| ci in cis;
      var rest := BatchByBatch(v, due, cis - {ci});
      var batch := ListingExists(set o | o in due && IntentOf(v, o) == Some(ci));
      s := rest + batch;
      assert forall i :: 0 <= i < |s| ==> if i < |rest| then s[i] in rest else s[i] in batch;
      assert forall o :: o in s <==> o in rest || o in batch;
    }
  }
}
