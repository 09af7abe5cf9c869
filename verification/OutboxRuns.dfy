/** Any number of workers on one outbox ledger, with crashes anywhere and arbitrary clocks. */
module OutboxRuns {
  import opened Sequences
  import opened Outbox

  /** Where a run of run_shadow_report stands once its claim was granted. */
  datatype Phase =
    | Holding(key: string, claim: string)      // before the send call
    | SendRaised(key: string, claim: string)   // the send call raised
    | Delivered(key: string, claim: string)    // the send call returned
    | Unconfirmed(key: string, claim: string)  // confirming raised after the send

  datatype Call = Call(key: string, claim: string)

  /** The ledger file, the live workers, the send calls made so far, and the latest clock reading. */
  datatype State = State(events: seq<Event>, workers: map<nat, Phase>, sends: seq<Call>, clock: int)

  const INITIAL := State([], map[], [], 0)

  /**
   * One locked section or one send call. `landed` is how many of the section's appends reached the
   * file before it returned, raised or crashed; a confirmation may also raise after its append.
   */
  datatype Step =
    | Create(key: string)
    | Claim(w: nat, key: string, checkedAt: int, now: int, id: string, landed: nat)
    | Send(w: nat, raised: bool)
    | Mark(w: nat, landed: nat)
    | Confirm(w: nat, landed: nat, raised: bool)
    | Reconcile(w: nat, landed: nat)
    | Stop(w: nat)

  ghost function Ruled(s: State, step: Step): Ruling
    requires step.Claim? || step.Mark? || step.Confirm? || step.Reconcile?
    requires step.Claim? || step.w in s.workers
  {
    match step
    case Claim(_, key, checkedAt, now, id, _) => ClaimRuling(ReportEvents(s.events, key), key, checkedAt, now, id)
    case Mark(w, _) => AmbiguousRuling(ReportEvents(s.events, s.workers[w].key), s.workers[w].key, s.workers[w].claim)
    case Confirm(w, _, _) => ConfirmRuling(ReportEvents(s.events, s.workers[w].key), s.workers[w].key, s.workers[w].claim)
    case Reconcile(w, _) => ReconcileRuling(ReportEvents(s.events, s.workers[w].key), s.workers[w].key, s.workers[w].claim)
  }

  /** A UUID: not empty, and in no claim so far. */
  ghost predicate Unused(events: seq<Event>, id: string) {
    id != "" && forall c :: c in events ==> !ClaimsId(c, id)
  }

  ghost predicate Takes(s: State, step: Step) {
    match step
    case Create(_) => true
    case Claim(w, _, _, _, id, landed) =>
      w !in s.workers && Unused(s.events, id) && landed <= |Written(Ruled(s, step))|
    case Send(w, _) => w in s.workers && s.workers[w].Holding?
    case Mark(w, landed) => w in s.workers && s.workers[w].SendRaised? && landed <= |Written(Ruled(s, step))|
    case Confirm(w, landed, _) => w in s.workers && s.workers[w].Delivered? && landed <= |Written(Ruled(s, step))|
    case Reconcile(w, landed) => w in s.workers && s.workers[w].Unconfirmed? && landed <= |Written(Ruled(s, step))|
    case Stop(w) => w in s.workers
  }

  /** What a step appends to the file. */
  ghost function Appended(s: State, step: Step): seq<Event>
    requires Takes(s, step)
  {
    match step
    case Create(key) => [ReportCreated(key)]
    case Claim(_, _, _, _, _, landed) => Written(Ruled(s, step))[..landed]
    case Mark(_, landed) => Written(Ruled(s, step))[..landed]
    case Confirm(_, landed, _) => Written(Ruled(s, step))[..landed]
    case Reconcile(_, landed) => Written(Ruled(s, step))[..landed]
    case _ => []
  }

  /** Every append of the section landed, and the section was not refused. */
  ghost predicate Succeeds(s: State, step: Step, landed: nat)
    requires step.Claim? || step.Confirm?
    requires step.Claim? || step.w in s.workers
  {
    Ruled(s, step).Append? && landed == |Written(Ruled(s, step))|
  }

  ghost function WorkersAfter(s: State, step: Step): map<nat, Phase>
    requires Takes(s, step)
  {
    match step
    case Create(_) => s.workers
    case Claim(w, key, _, _, id, landed) =>
      if Succeeds(s, step, landed) then s.workers[w := Holding(key, id)] else s.workers
    case Send(w, raised) =>
      var p := s.workers[w];
      s.workers[w := if raised then SendRaised(p.key, p.claim) else Delivered(p.key, p.claim)]
    case Confirm(w, landed, raised) =>
      var p := s.workers[w];
      if Succeeds(s, step, landed) && !raised then s.workers - {w}
      else s.workers[w := Unconfirmed(p.key, p.claim)]
    case _ => s.workers - {step.w}
  }

  ghost function Next(s: State, step: Step): State
    requires Takes(s, step)
  {
    State(s.events + Appended(s, step), WorkersAfter(s, step),
          if step.Send? then s.sends + [Call(s.workers[step.w].key, s.workers[step.w].claim)] else s.sends,
          if step.Claim? && step.now > s.clock then step.now else s.clock)
  }

  /** The shared clock never runs backwards. */
  ghost predicate OnTime(s: State, step: Step) {
    step.Claim? ==> s.clock <= step.checkedAt <= step.now
  }

  /** The state after the given steps, if each could be taken. */
  ghost function After(steps: seq<Step>, monotone: bool): Option<State> {
    if steps == [] then Some(INITIAL)
    else
      var step := steps[|steps| - 1];
      match After(steps[..|steps| - 1], monotone)
      case None => None
      case Some(s) => if Takes(s, step) && (monotone ==> OnTime(s, step)) then Some(Next(s, step)) else None
  }

  // -------------------------------------------------------------------------
  // Histories the protocol can write
  // -------------------------------------------------------------------------

  ghost predicate MayFollow(es: seq<Event>, e: Event) {
    match e
    case ReportCreated(_) => true
    case SendClaimed(_, id, _, _) => Unused(es, id) && (StateOf(es).status == Unsent || StateOf(es).status == Ambiguous)
    case SendConfirmed(_, id) => StateOf(es).status == Claimed && Holds(es, id)
    case SendAmbiguous(_, id, _) => StateOf(es).status == Claimed && Holds(es, id)
    case SendFailed(_, _) => false
  }

  ghost predicate Lawful(es: seq<Event>) {
    es == [] || (Lawful(es[..|es| - 1]) && MayFollow(es[..|es| - 1], es[|es| - 1]))
  }

  /** The state a reader would take from the last send event alone. */
  function LastSend(es: seq<Event>): SendStatus {
    if es == [] then Unsent
    else if es[|es| - 1].ReportCreated? then LastSend(es[..|es| - 1])
    else StatusOf(es[|es| - 1])
  }

  function HasStatus(status: SendStatus): Event -> bool { (e: Event) => StatusOf(e) == status }

  function CallsOf(key: string): Call -> bool { (c: Call) => c.key == key }

  function Count(es: seq<Event>, status: SendStatus): nat { |Filter(es, HasStatus(status))| }

  function AsNumber(b: bool): nat { if b then 1 else 0 }

  lemma LawfulSnoc(es: seq<Event>, e: Event)
    ensures Lawful(es + [e]) <==> Lawful(es) && MayFollow(es, e)
    ensures LastSend(es + [e]) == if e.ReportCreated? then LastSend(es) else StatusOf(e)
  {
    assert (es + [e])[..|es|] == es;
  }

  /** An open claim has no outcome. */
  lemma OpenClaim(es: seq<Event>)
    requires StateOf(es).status == Claimed
    ensures ActiveClaim(es).Some? && forall t :: t in es ==> !Settles(t, ActiveClaim(es).value.claim)
  {
  }

  /** No outcome names a claim id that was never claimed. */
  lemma NoOutcomeYet(es: seq<Event>, id: string)
    requires WellFormed(es) && Unused(es, id)
    ensures OutcomeOf(es, id).None?
  {
  }

  lemma ReportReduces(es: seq<Event>, e: Event)
    requires WellFormed(es) && e.ReportCreated?
    ensures WellFormed(es + [e]) && StateOf(es + [e]) == StateOf(es)
  {
    hide WellFormed, ActiveClaim, OutcomeOf;
    WellFormedSnoc(es, e);
    ActiveSnoc(es, e);
    if ActiveClaim(es).Some? {
      OutcomeSnoc(es, e, ActiveClaim(es).value.claim);
    }
  }

  lemma ClaimReduces(es: seq<Event>, e: Event)
    requires WellFormed(es) && e.SendClaimed? && Unused(es, e.claim)
    ensures WellFormed(es + [e]) && StateOf(es + [e]) == Reduction(Claimed, Some(e))
  {
    hide WellFormed, ActiveClaim, OutcomeOf;
    WellFormedSnoc(es, e);
    ActiveSnoc(es, e);
    NoOutcomeYet(es, e.claim);
    OutcomeSnoc(es, e, e.claim);
  }

  lemma OutcomeReduces(es: seq<Event>, e: Event)
    requires WellFormed(es) && IsTerminal(e) && StateOf(es).status == Claimed && Holds(es, e.claim) && e.claim != ""
    ensures WellFormed(es + [e]) && StateOf(es + [e]) == Reduction(StatusOf(e), ActiveClaim(es))
  {
    hide WellFormed, ActiveClaim, OutcomeOf;
    OpenClaim(es);
    assert ClaimsId(ActiveClaim(es).value, e.claim);
    WellFormedSnoc(es, e);
    ActiveSnoc(es, e);
    OutcomeSnoc(es, e, e.claim);
  }

  /** Reducing a lawful history: accepted, and the state is that of the last send event. */
  lemma {:induction false} LawfulReduces(es: seq<Event>)
    requires Lawful(es)
    ensures WellFormed(es) && StateOf(es).status == LastSend(es) != Failed
    ensures ActiveClaim(es).None? <==> LastSend(es) == Unsent
    ensures ActiveClaim(es).Some? ==> ActiveClaim(es).value.claim != ""
  {
    hide WellFormed, ActiveClaim, OutcomeOf, Fits;
    if es == [] {
      EmptyHistory();
    } else {
      var front, e := es[..|es| - 1], es[|es| - 1];
      assert es == front + [e];
      LawfulReduces(front);
      if e.ReportCreated? {
        ReportReduces(front, e);
      } else if e.SendClaimed? {
        ClaimReduces(front, e);
      } else {
        OutcomeReduces(front, e);
      }
      ActiveSnoc(front, e);
    }
  }

  /** Claims are the ambiguous ones plus the one still open or confirmed. */
  lemma {:induction false} LawfulCounts(es: seq<Event>)
    requires Lawful(es)
    ensures Count(es, Claimed) == Count(es, Ambiguous) + AsNumber(LastSend(es) == Claimed || LastSend(es) == Confirmed)
    ensures Count(es, Confirmed) == AsNumber(LastSend(es) == Confirmed) && Count(es, Failed) == 0
  {
    if es != [] {
      var front, e := es[..|es| - 1], es[|es| - 1];
      assert es == front + [e];
      LawfulCounts(front);
      LawfulReduces(front);
      FilterSnoc(front, e, HasStatus(Claimed));
      FilterSnoc(front, e, HasStatus(Ambiguous));
      FilterSnoc(front, e, HasStatus(Confirmed));
      FilterSnoc(front, e, HasStatus(Failed));
    }
  }

  /** Nothing but report records follows a confirmation. */
  lemma {:induction false} ConfirmedIsFinal(es: seq<Event>, i: nat, j: nat)
    requires Lawful(es) && i < j < |es| && es[i].SendConfirmed?
    ensures es[j].ReportCreated?
    decreases |es|
  {
    hide WellFormed, ActiveClaim, OutcomeOf, Unused;
    var front, e := es[..|es| - 1], es[|es| - 1];
    if j < |es| - 1 {
      ConfirmedIsFinal(front, i, j);
    } else {
      LawfulReduces(front);
      LastAfterConfirmation(front, i);
    }
  }

  lemma {:induction false} LastAfterConfirmation(es: seq<Event>, i: nat)
    requires Lawful(es) && i < |es| && es[i].SendConfirmed?
    ensures LastSend(es) == Confirmed
  {
    var front := es[..|es| - 1];
    if i < |es| - 1 {
      LastAfterConfirmation(front, i);
      LawfulReduces(front);
    }
  }

  // -------------------------------------------------------------------------
  // The invariant of every run
  // -------------------------------------------------------------------------

  ghost predicate HasClaim(events: seq<Event>, key: string, id: string) {
    exists c :: c in events && c.key == key && ClaimsId(c, id)
  }

  /** A worker's claim is on file; it was sent exactly if the worker is past its send call. */
  ghost predicate WorkerOk(s: State, p: Phase) {
    && HasClaim(s.events, p.key, p.claim)
    && (p.Holding? ==>
          && SendAmbiguous(p.key, p.claim, Reported) !in s.events
          && forall call :: call in s.sends ==> call.claim != p.claim)
    && (!p.Holding? ==> Call(p.key, p.claim) in s.sends)
  }

  ghost predicate WorkersOk(s: State) {
    && (forall w :: w in s.workers ==> WorkerOk(s, s.workers[w]))
    && (forall v, w :: v in s.workers && w in s.workers && v != w ==> s.workers[v].claim != s.workers[w].claim)
  }

  ghost predicate SendsOk(s: State) {
    && (forall i, j :: 0 <= i < j < |s.sends| ==> s.sends[i].claim != s.sends[j].claim)
    && (forall call :: call in s.sends ==> HasClaim(s.events, call.key, call.claim))
    && (forall e :: e in s.events && e.SendConfirmed? ==> Call(e.key, e.claim) in s.sends)
  }

  ghost predicate HistoriesOk(s: State) { forall key :: Lawful(ReportEvents(s.events, key)) }

  ghost predicate Inv(s: State) { HistoriesOk(s) && WorkersOk(s) && SendsOk(s) }

  function StepKey(s: State, step: Step): string
    requires step.Create? || step.Claim? || step.w in s.workers
  {
    if step.Create? || step.Claim? then step.key else s.workers[step.w].key
  }

  /** What each kind of step can append. */
  lemma AppendedShape(s: State, step: Step)
    requires Takes(s, step)
    ensures forall e :: e in Appended(s, step) ==> e.key == StepKey(s, step)
    ensures forall e :: e in Appended(s, step) && e.SendClaimed? ==>
              step.Claim? && e == NewClaim(step.key, step.id, step.now) && Succeeds(s, step, step.landed)
    ensures step.Claim? && Succeeds(s, step, step.landed) ==>
              NewClaim(step.key, step.id, step.now) in Appended(s, step)
    ensures forall e :: e in Appended(s, step) && e.SendConfirmed? ==>
              step.Confirm? && e.claim == s.workers[step.w].claim
    ensures forall e :: e in Appended(s, step) && e.SendAmbiguous? && e.cause == Reported ==>
              (step.Mark? || step.Reconcile?) && e.claim == s.workers[step.w].claim
  {
    hide WellFormed, StateOf, ReportEvents;
    if step.Claim? && Succeeds(s, step, step.landed) {
      var ws := Written(Ruled(s, step));
      assert ws[..|ws|] == ws && ws[|ws| - 1] == NewClaim(step.key, step.id, step.now);
    }
  }

  lemma ReportEventsAppend(events: seq<Event>, more: seq<Event>, key: string, k: string)
    requires forall e :: e in more ==> e.key == key
    ensures ReportEvents(events + more, k) == if k == key then ReportEvents(events, k) + more else ReportEvents(events, k)
  {
    FilterConcat(events, more, OfReport(k));
    if k == key {
      FilterAll(more, OfReport(k));
    } else {
      FilterNone(more, OfReport(k));
    }
  }

  /** Appending part of what a section rules keeps the history lawful. */
  lemma SectionKeepsLawful(es: seq<Event>, ruling: Ruling, n: nat, key: string, checkedAt: int, now: int, id: string)
    requires Lawful(es) && n <= |Written(ruling)|
    requires (ruling == ClaimRuling(es, key, checkedAt, now, id) && Unused(es, id))
             || ruling == ConfirmRuling(es, key, id) || ruling == AmbiguousRuling(es, key, id)
             || ruling == ReconcileRuling(es, key, id)
    ensures Lawful(es + Written(ruling)[..n])
  {
    hide Lawful, WellFormed, ActiveClaim, OutcomeOf;
    LawfulReduces(es);
    var ws := Written(ruling);
    if n == 0 {
      assert es + ws[..0] == es;
    } else {
      LawfulSnoc(es, ws[0]);
      LawfulReduces(es + [ws[0]]);
      if n == 1 {
        assert ws[..1] == [ws[0]];
      } else {
        LawfulSnoc(es + [ws[0]], ws[1]);
        assert es + ws[..2] == es + [ws[0]] + [ws[1]];
      }
    }
  }

  lemma UnusedInReport(events: seq<Event>, key: string, id: string)
    requires Unused(events, id)
    ensures Unused(ReportEvents(events, key), id)
  {
    FilterMembers(events, OfReport(key));
  }

  lemma StepKeepsHistories(s: State, step: Step)
    requires HistoriesOk(s) && Takes(s, step)
    ensures HistoriesOk(Next(s, step))
  {
    hide Lawful, ReportEvents, ClaimRuling, ConfirmRuling, AmbiguousRuling, ReconcileRuling, Unused;
    AppendedShape(s, step);
    var more := Appended(s, step);
    forall k
      ensures Lawful(ReportEvents(s.events + more, k))
    {
      if more == [] {
        assert s.events + more == s.events;
      } else {
        var key := StepKey(s, step);
        ReportEventsAppend(s.events, more, key, k);
        var es := ReportEvents(s.events, key);
        if step.Create? {
          LawfulSnoc(es, ReportCreated(key));
        } else if step.Claim? {
          UnusedInReport(s.events, key, step.id);
          SectionKeepsLawful(es, Ruled(s, step), step.landed, key, step.checkedAt, step.now, step.id);
        } else if step.Mark? || step.Confirm? || step.Reconcile? {
          SectionKeepsLawful(es, Ruled(s, step), step.landed, key, 0, 0, s.workers[step.w].claim);
        }
      }
    }
  }

  lemma StepKeepsWorkers(s: State, step: Step)
    requires Inv(s) && Takes(s, step)
    ensures WorkersOk(Next(s, step))
  {
    hide ReportEvents, Ruled, Appended, HistoriesOk, SendsOk, Succeeds, HasClaim, WorkerOk, Unused;
    var s' := Next(s, step);
    forall w | w in s'.workers
      ensures WorkerOk(s', s'.workers[w])
    {
      if step.Claim? && w == step.w {
        NewWorkerOk(s, step);
      } else {
        OldWorkerOk(s, step, w);
      }
    }
    if step.Claim? {
      NobodyHolds(s, step.id);
    }
  }

  lemma NobodyHolds(s: State, id: string)
    requires WorkersOk(s) && Unused(s.events, id)
    ensures forall v :: v in s.workers ==> s.workers[v].claim != id
  {
    forall v | v in s.workers
      ensures s.workers[v].claim != id
    {
      assert WorkerOk(s, s.workers[v]);
      UnusedIsNobodys(s.events, s.workers[v].key, s.workers[v].claim, id);
    }
  }

  lemma OldWorkerOk(s: State, step: Step, w: nat)
    requires Inv(s) && Takes(s, step) && w in s.workers && w in Next(s, step).workers
    ensures WorkerOk(Next(s, step), Next(s, step).workers[w])
  {
    hide ReportEvents, Ruled, Appended, HistoriesOk, SendsOk, Succeeds, HasClaim;
    AppendedShape(s, step);
    assert WorkerOk(s, s.workers[w]);
    HasClaimStays(s.events, Appended(s, step), s.workers[w].key, s.workers[w].claim);
  }

  lemma UnusedIsNobodys(events: seq<Event>, key: string, claim: string, id: string)
    requires HasClaim(events, key, claim) && Unused(events, id)
    ensures claim != id
  {
  }

  lemma NewWorkerOk(s: State, step: Step)
    requires Inv(s) && Takes(s, step) && step.Claim? && Succeeds(s, step, step.landed)
    ensures WorkerOk(Next(s, step), Holding(step.key, step.id))
  {
    hide ReportEvents, Ruled, Appended, WorkersOk, Lawful, WellFormed;
    AppendedShape(s, step);
    assert NewClaim(step.key, step.id, step.now) in Next(s, step).events;
    var es := ReportEvents(s.events, step.key);
    LawfulReduces(es);
    UnusedInReport(s.events, step.key, step.id);
    NoOutcomeYet(es, step.id);
    ReportEventMembers(s.events, step.key);
    assert Settles(SendAmbiguous(step.key, step.id, Reported), step.id);
    forall call | call in s.sends
      ensures call.claim != step.id
    {
      UnusedIsNobodys(s.events, call.key, call.claim, step.id);
    }
  }

  lemma ReportEventMembers(events: seq<Event>, key: string)
    ensures forall e :: e in ReportEvents(events, key) <==> e in events && e.key == key
  {
    FilterMembers(events, OfReport(key));
  }

  lemma HasClaimStays(events: seq<Event>, more: seq<Event>, key: string, id: string)
    ensures HasClaim(events, key, id) ==> HasClaim(events + more, key, id)
  {
    if HasClaim(events, key, id) {
      var c :| c in events && c.key == key && ClaimsId(c, id);
      assert c in events + more;
    }
  }

  lemma StepKeepsSends(s: State, step: Step)
    requires WorkersOk(s) && SendsOk(s) && Takes(s, step)
    ensures SendsOk(Next(s, step))
  {
    hide ReportEvents, Ruled, Appended;
    AppendedShape(s, step);
    var s' := Next(s, step);
    forall call | call in s'.sends
      ensures HasClaim(s'.events, call.key, call.claim)
    {
      HasClaimStays(s.events, Appended(s, step), call.key, call.claim);
    }
  }

  lemma {:induction false} RunKeepsInv(steps: seq<Step>, monotone: bool)
    requires After(steps, monotone).Some?
    ensures Inv(After(steps, monotone).value)
  {
    hide HistoriesOk, WorkersOk, SendsOk, Takes, Next, Inv;
    if steps == [] {
      InitialOk();
    } else {
      var n := |steps| - 1;
      RunKeepsInv(steps[..n], monotone);
      var s := After(steps[..n], monotone).value;
      InvParts(s);
      StepKeepsHistories(s, steps[n]);
      StepKeepsWorkers(s, steps[n]);
      StepKeepsSends(s, steps[n]);
      InvParts(Next(s, steps[n]));
    }
  }

  lemma InvParts(s: State)
    ensures Inv(s) <==> HistoriesOk(s) && WorkersOk(s) && SendsOk(s)
  {
  }

  lemma InitialOk()
    ensures Inv(INITIAL)
  {
  }

  // -------------------------------------------------------------------------
  // What holds of every run
  // -------------------------------------------------------------------------

  /**
   * Whatever the interleaving, the clocks and the crashes, the reducer accepts the history of every
   * report key and finds the type of its last send event; the last claim alone may be open; a
   * confirmation is unique, final, and follows a send call of its claim; claims are the ambiguous
   * ones plus the one open or confirmed; and no claim is sent twice.
   */
  lemma OutboxSafe(steps: seq<Step>, key: string)
    requires After(steps, false).Some?
    ensures
      var s := After(steps, false).value;
      var es := ReportEvents(s.events, key);
      && WellFormed(es) && StateOf(es).status == LastSend(es)
      && Count(es, Claimed) == Count(es, Ambiguous) + AsNumber(LastSend(es) == Claimed || LastSend(es) == Confirmed)
      && Count(es, Confirmed) <= 1 && Count(es, Failed) == 0
      && (forall i, j :: 0 <= i < j < |es| && es[i].SendConfirmed? ==> es[j].ReportCreated?)
      && (forall e :: e in es && e.SendConfirmed? ==> Call(key, e.claim) in s.sends)
      && (forall c :: c in es && c.SendClaimed? && StateOf(es).active != Some(c) ==>
            exists t :: t in es && t.SendAmbiguous? && t.claim == c.claim)
  {
    hide Lawful, WellFormed, ReportEvents, Inv, StateOf, Filter, After;
    RunKeepsInv(steps, false);
    var s := After(steps, false).value;
    InvParts(s);
    HistorySafe(ReportEvents(s.events, key));
    ConfirmedWasSent(s, key);
  }

  lemma ConfirmedWasSent(s: State, key: string)
    requires SendsOk(s)
    ensures forall e :: e in ReportEvents(s.events, key) && e.SendConfirmed? ==> Call(key, e.claim) in s.sends
  {
    FilterMembers(s.events, OfReport(key));
  }

  lemma HistorySafe(es: seq<Event>)
    requires Lawful(es)
    ensures WellFormed(es) && StateOf(es).status == LastSend(es)
    ensures Count(es, Claimed) == Count(es, Ambiguous) + AsNumber(LastSend(es) == Claimed || LastSend(es) == Confirmed)
    ensures Count(es, Confirmed) <= 1 && Count(es, Failed) == 0
    ensures forall i, j :: 0 <= i < j < |es| && es[i].SendConfirmed? ==> es[j].ReportCreated?
    ensures forall c :: c in es && c.SendClaimed? && StateOf(es).active != Some(c) ==>
              exists t :: t in es && t.SendAmbiguous? && t.claim == c.claim
  {
    hide Lawful, WellFormed;
    LawfulReduces(es);
    LawfulCounts(es);
    forall i, j | 0 <= i < j < |es| && es[i].SendConfirmed?
      ensures es[j].ReportCreated?
    {
      ConfirmedIsFinal(es, i, j);
    }
    forall c | c in es && c.SendClaimed? && StateOf(es).active != Some(c)
      ensures exists t :: t in es && t.SendAmbiguous? && t.claim == c.claim
    {
      OldClaimsAmbiguous(es, c);
    }
  }

  /** A superseded claim was closed as ambiguous. */
  lemma {:induction false} OldClaimsAmbiguous(es: seq<Event>, c: Event)
    requires Lawful(es) && c in es && c.SendClaimed? && ActiveClaim(es) != Some(c)
    ensures exists t :: t in es && t.SendAmbiguous? && t.claim == c.claim
  {
    hide WellFormed;
    var front, e := es[..|es| - 1], es[|es| - 1];
    assert es == front + [e];
    ActiveSnoc(front, e);
    if ActiveClaim(front) != Some(c) {
      OldClaimsAmbiguous(front, c);
      var t :| t in front && t.SendAmbiguous? && t.claim == c.claim;
      assert t in es;
    } else {
      var t :| t in front && Settles(t, c.claim) && StatusOf(t) == Ambiguous;
      assert t in es;
    }
  }

  /** Every send call of a report uses up a claim of its own. */
  lemma SendsUseClaims(steps: seq<Step>, key: string)
    requires After(steps, false).Some?
    ensures var s := After(steps, false).value;
            |Filter(s.sends, CallsOf(key))| <= Count(ReportEvents(s.events, key), Claimed)
  {
    hide Inv, Filter, ReportEvents, After;
    RunKeepsInv(steps, false);
    var s := After(steps, false).value;
    var calls, es := Filter(s.sends, CallsOf(key)), ReportEvents(s.events, key);
    var claims := Filter(es, HasStatus(Claimed));
    CallsBacked(s, key, calls, claims);
    var ids := set i | 0 <= i < |calls| :: calls[i].claim;
    CountDistinct(calls, ids);
    CoverBound(claims, ids);
  }

  ghost predicate Backed(claims: seq<Event>, id: string) { exists c :: c in claims && ClaimsId(c, id) }

  lemma CallsBacked(s: State, key: string, calls: seq<Call>, claims: seq<Event>)
    requires Inv(s) && calls == Filter(s.sends, CallsOf(key))
    requires claims == Filter(ReportEvents(s.events, key), HasStatus(Claimed))
    ensures forall i, j :: 0 <= i < j < |calls| ==> calls[i].claim != calls[j].claim
    ensures forall i :: 0 <= i < |calls| ==> Backed(claims, calls[i].claim)
  {
    var es := ReportEvents(s.events, key);
    forall i, j | 0 <= i < j < |calls|
      ensures calls[i].claim != calls[j].claim
    {
      var k, l := FilterOrder(s.sends, CallsOf(key), i, j);
    }
    FilterMembers(s.sends, CallsOf(key));
    FilterMembers(s.events, OfReport(key));
    FilterMembers(es, HasStatus(Claimed));
    forall i | 0 <= i < |calls|
      ensures Backed(claims, calls[i].claim)
    {
      assert calls[i] in calls;
      var c :| c in s.events && c.key == key && ClaimsId(c, calls[i].claim);
      assert c in claims;
    }
  }

  lemma {:induction false} CountDistinct(calls: seq<Call>, ids: set<string>)
    requires forall i, j :: 0 <= i < j < |calls| ==> calls[i].claim != calls[j].claim
    requires ids == set i | 0 <= i < |calls| :: calls[i].claim
    ensures |ids| == |calls|
  {
    if calls != [] {
      var n := |calls| - 1;
      var rest := set i | 0 <= i < n :: calls[..n][i].claim;
      CountDistinct(calls[..n], rest);
      assert ids == rest + {calls[n].claim} && calls[n].claim !in rest;
    }
  }

  lemma {:induction false} CoverBound(claims: seq<Event>, ids: set<string>)
    requires forall id :: id in ids ==> Backed(claims, id)
    ensures |ids| <= |claims|
  {
    if claims == [] {
      assert ids == {};
    } else {
      var n := |claims| - 1;
      var last := claims[n];
      assert claims == claims[..n] + [last];
      var rest := if last.SendClaimed? then ids - {last.claim} else ids;
      CoverBound(claims[..n], rest);
      assert |ids| <= |rest| + 1;
    }
  }

  /** Every claim on file names the end of its lease, 300 seconds after it was made. */
  ghost predicate LeasesNamed(events: seq<Event>) {
    forall c :: c in events && c.SendClaimed? ==> c.expiresAt == Some(c.claimedAt + 300_000_000)
  }

  lemma StepNamesLeases(s: State, step: Step)
    requires HistoriesOk(s) && LeasesNamed(s.events) && Takes(s, step)
    ensures LeasesNamed(Next(s, step).events)
  {
    hide Ruled, HistoriesOk, ReportEvents;
    AppendedShape(s, step);
  }

  lemma {:induction false} RunNamesLeases(steps: seq<Step>)
    requires After(steps, false).Some?
    ensures LeasesNamed(After(steps, false).value.events)
  {
    hide Takes, Next, Inv;
    if steps != [] {
      var n := |steps| - 1;
      RunNamesLeases(steps[..n]);
      RunKeepsInv(steps[..n], false);
      var s := After(steps[..n], false).value;
      InvHistories(s);
      StepNamesLeases(s, steps[n]);
    }
  }

  /**
   * When a slot is granted, in any state that any interleaving reaches: an open claim blocks it for exactly
   * 300 seconds from the moment it was made, a confirmation blocks it for good, and nothing else does. A
   * claim whose time is up is closed as ambiguous first.
   */
  lemma SlotGrantedIff(steps: seq<Step>, key: string, checkedAt: int, now: int, id: string)
    requires After(steps, false).Some?
    ensures
      var es := ReportEvents(After(steps, false).value.events, key);
      var written := Written(ClaimRuling(es, key, checkedAt, now, id));
      var claim := SendClaimed(key, id, now, Some(now + 300_000_000));
      if LastSend(es) == Claimed then
        ActiveClaim(es).Some? && ActiveClaim(es).value.SendClaimed?
        && var open := ActiveClaim(es).value;
           written == (if checkedAt >= open.claimedAt + 300_000_000 then
                         [SendAmbiguous(key, open.claim, Cause.Expired), claim]
                       else [])
      else written == if LastSend(es) == Confirmed then [] else [claim]
  {
    hide WellFormed, Lawful, ReportEvents, Inv;
    RunKeepsInv(steps, false);
    var s := After(steps, false).value;
    var es := ReportEvents(s.events, key);
    InvHistories(s);
    HistoryLawful(s, key);
    LawfulReduces(es);
    RunNamesLeases(steps);
    ReportEventMembers(s.events, key);
  }

  lemma HistoryLawful(s: State, key: string)
    requires HistoriesOk(s)
    ensures Lawful(ReportEvents(s.events, key))
  {
  }

  // -------------------------------------------------------------------------
  // Leases under a shared monotone clock
  // -------------------------------------------------------------------------

  /** The claim's lease has run out, or its own worker closed it. */
  ghost predicate Released(s: State, c: Event)
    requires c.SendClaimed?
  {
    c.claimedAt + LEASE <= s.clock || SendAmbiguous(c.key, c.claim, Reported) in s.events
  }

  ghost predicate InCharge(s: State, c: Event)
    requires c.SendClaimed?
  {
    var state := StateOf(ReportEvents(s.events, c.key));
    state.active == Some(c) && (state.status == Claimed || state.status == Confirmed)
  }

  ghost predicate LeasesOk(s: State) {
    forall c :: c in s.events && c.SendClaimed? ==>
      c.expiresAt == Some(c.claimedAt + LEASE) && (Released(s, c) || InCharge(s, c))
  }

  lemma StepKeepsLeases(s: State, step: Step)
    requires HistoriesOk(s) && LeasesOk(s) && Takes(s, step) && OnTime(s, step)
    ensures LeasesOk(Next(s, step))
  {
    hide ReportEvents, Ruled, Appended, HistoriesOk, StateOf;
    AppendedShape(s, step);
    var s' := Next(s, step);
    forall c | c in s'.events && c.SendClaimed?
      ensures c.expiresAt == Some(c.claimedAt + LEASE) && (Released(s', c) || InCharge(s', c))
    {
      if c in s.events {
        if !Released(s, c) {
          ChargeStays(s, step, c);
        }
      } else {
        NewClaimInCharge(s, step, c);
      }
    }
  }

  lemma NewClaimInCharge(s: State, step: Step, c: Event)
    requires HistoriesOk(s) && Takes(s, step) && step.Claim?
    requires c == NewClaim(step.key, step.id, step.now) && Succeeds(s, step, step.landed)
    ensures InCharge(Next(s, step), c)
  {
    hide Lawful, ReportEvents, WellFormed, ActiveClaim, OutcomeOf;
    AppendedShape(s, step);
    var ws, es := Written(Ruled(s, step)), ReportEvents(s.events, step.key);
    ReportEventsAppend(s.events, Appended(s, step), step.key, step.key);
    StepKeepsHistories(s, step);
    assert ws[..|ws|] == ws;
    assert ReportEvents(Next(s, step).events, step.key) == es + ws;
    LawfulReduces(es + ws);
    var front := es + ws[..|ws| - 1];
    assert es + ws == front + [c];
    ActiveSnoc(front, c);
    LawfulSnoc(front, c);
  }

  lemma ChargeStays(s: State, step: Step, c: Event)
    requires HistoriesOk(s) && Takes(s, step) && OnTime(s, step)
    requires c.SendClaimed? && InCharge(s, c) && c.expiresAt == Some(c.claimedAt + LEASE)
    ensures Released(Next(s, step), c) || InCharge(Next(s, step), c)
  {
    hide Lawful, ReportEvents, ActiveClaim, OutcomeOf, WellFormed, HistoriesOk;
    var more := Appended(s, step);
    var es := ReportEvents(s.events, c.key);
    if more == [] {
      assert s.events + more == s.events;
    } else {
      AppendedShape(s, step);
      ReportEventsAppend(s.events, more, StepKey(s, step), c.key);
      if StepKey(s, step) == c.key {
        if step.Create? || step.Confirm? {
          assert more == [more[0]];
          ActiveSnoc(es, more[0]);
          OutcomeSnoc(es, more[0], c.claim);
        } else if step.Mark? || step.Reconcile? {
          assert more[0] == SendAmbiguous(c.key, c.claim, Reported);
        } else {
          assert LeaseOver(c, step.checkedAt);
        }
      }
    }
  }

  lemma {:induction false} TimedRunKeepsLeases(steps: seq<Step>)
    requires After(steps, true).Some?
    ensures Inv(After(steps, true).value) && LeasesOk(After(steps, true).value)
  {
    hide Takes, Next, Inv, LeasesOk;
    RunKeepsInv(steps, true);
    if steps == [] {
      InitialLeases();
    } else {
      var n := |steps| - 1;
      TimedRunKeepsLeases(steps[..n]);
      var s := After(steps[..n], true).value;
      InvHistories(s);
      StepKeepsLeases(s, steps[n]);
    }
  }

  lemma InitialLeases()
    ensures LeasesOk(INITIAL)
  {
  }

  lemma InvHistories(s: State)
    requires Inv(s)
    ensures HistoriesOk(s)
  {
  }

  /**
   * When a claim is written, the lease of every earlier claim of the report has run out by then, or
   * that claim's own worker had closed it.
   */
  lemma NoClaimDuringLease(steps: seq<Step>, step: Step, c: Event)
    requires After(steps, true).Some? && step.Claim?
    requires var s := After(steps, true).value;
             Takes(s, step) && OnTime(s, step) && Succeeds(s, step, step.landed)
             && c in s.events && c.SendClaimed? && c.key == step.key
    ensures c.claimedAt + LEASE <= step.now || SendAmbiguous(c.key, c.claim, Reported) in After(steps, true).value.events
  {
    hide ReportEvents, Inv, WellFormed, ActiveClaim, OutcomeOf;
    TimedRunKeepsLeases(steps);
  }

  /** Of two workers about to send the same report, at most one holds a live lease. */
  lemma OneLiveHolder(steps: seq<Step>, v: nat, w: nat) returns (c: Event)
    requires After(steps, true).Some?
    requires var s := After(steps, true).value;
             v != w && v in s.workers && w in s.workers && s.workers[v].Holding? && s.workers[w].Holding?
             && s.workers[v].key == s.workers[w].key
    ensures var s := After(steps, true).value;
            && c in s.events && c.SendClaimed? && c.key == s.workers[v].key
            && (c.claim == s.workers[v].claim || c.claim == s.workers[w].claim)
            && c.claimedAt + LEASE <= s.clock
  {
    hide ReportEvents, Lawful, StateOf;
    TimedRunKeepsLeases(steps);
    var s := After(steps, true).value;
    var a :| a in s.events && a.key == s.workers[v].key && ClaimsId(a, s.workers[v].claim);
    var b :| b in s.events && b.key == s.workers[w].key && ClaimsId(b, s.workers[w].claim);
    c := if Released(s, a) then a else b;
    assert WorkerOk(s, s.workers[v]) && WorkerOk(s, s.workers[w]);
  }

  // -------------------------------------------------------------------------
  // One run of the reporter, undisturbed
  // -------------------------------------------------------------------------

  datatype TelegramStatus = SkippedSend | FailedSend | SentAs(status: SendStatus)

  lemma RulingKeepsLawful(events: seq<Event>, key: string, ruling: Ruling, checkedAt: int, now: int, id: string)
    requires Lawful(ReportEvents(events, key))
    requires (ruling == ClaimRuling(ReportEvents(events, key), key, checkedAt, now, id) && Unused(events, id))
             || ruling == ConfirmRuling(ReportEvents(events, key), key, id)
             || ruling == AmbiguousRuling(ReportEvents(events, key), key, id)
             || ruling == ReconcileRuling(ReportEvents(events, key), key, id)
    ensures ReportEvents(events + Written(ruling), key) == ReportEvents(events, key) + Written(ruling)
    ensures Lawful(ReportEvents(events, key) + Written(ruling))
  {
    hide Lawful, ReportEvents, WellFormed, StateOf;
    var ws := Written(ruling);
    ReportEventsAppend(events, ws, key, key);
    if Unused(events, id) {
      UnusedInReport(events, key, id);
    }
    SectionKeepsLawful(ReportEvents(events, key), ruling, |ws|, key, checkedAt, now, id);
    assert ws[..|ws|] == ws;
  }

  /** A granted claim is open and active; closing it leaves the outcome as the last send event. */
  lemma ClaimOpens(es: seq<Event>, key: string, checkedAt: int, now: int, id: string)
    requires Lawful(es) && Unused(es, id) && ClaimRuling(es, key, checkedAt, now, id).Append?
    ensures var after := es + Written(ClaimRuling(es, key, checkedAt, now, id));
            Lawful(after) && StateOf(after).status == Claimed && Holds(after, id)
  {
    hide Lawful, WellFormed, OutcomeOf, ActiveClaim;
    var ws := Written(ClaimRuling(es, key, checkedAt, now, id));
    SectionKeepsLawful(es, ClaimRuling(es, key, checkedAt, now, id), |ws|, key, checkedAt, now, id);
    assert ws[..|ws|] == ws;
    var front := es + ws[..|ws| - 1];
    assert es + ws == front + [NewClaim(key, id, now)];
    ActiveSnoc(front, NewClaim(key, id, now));
    LawfulReduces(es + ws);
    LawfulSnoc(front, NewClaim(key, id, now));
  }

  lemma ClosingEnds(es: seq<Event>, e: Event)
    requires Lawful(es) && StateOf(es).status == Claimed && IsTerminal(e) && !e.SendFailed? && Holds(es, e.claim)
    ensures Lawful(es + [e]) && LastSend(es + [e]) == StatusOf(e)
  {
    LawfulSnoc(es, e);
  }

  /**
   * run_shadow_report from the claim on, with no other worker in between: without a slot nothing is
   * sent; with one there is one send call, unless building the message fails, and the history ends
   * confirmed exactly if neither the send nor the confirmation raised, ambiguous otherwise.
   */
  method RunShadowReport(ledger: ReportLedger, key: string, checkedAt: int, now: int, id: string,
                         built: bool, sendRaises: bool, confirmRaises: bool)
    returns (status: TelegramStatus, sends: nat)
    requires Unused(ledger.events, id)
    modifies ledger
    ensures !WellFormed(ReportEvents(old(ledger.events), key)) ==>
              status == FailedSend && sends == 0 && ledger.events == old(ledger.events)
    ensures Lawful(ReportEvents(old(ledger.events), key)) ==>
      var before, after := ReportEvents(old(ledger.events), key), ReportEvents(ledger.events, key);
      && Lawful(after)
      && if ClaimRuling(before, key, checkedAt, now, id).Decline? then
           status == SkippedSend && sends == 0 && ledger.events == old(ledger.events)
         else if !built then
           status == FailedSend && sends == 0 && LastSend(after) == Claimed
         else
           && sends == 1 && status == SentAs(LastSend(after))
           && LastSend(after) == (if sendRaises || confirmRaises then Ambiguous else Confirmed)
  {
    hide Lawful, ReportEvents, WellFormed, StateOf, Unused;
    ghost var es := ReportEvents(ledger.events, key);
    ghost var lawful := Lawful(es);
    if lawful {
      LawfulReduces(es);
      UnusedInReport(ledger.events, key, id);
      RulingKeepsLawful(ledger.events, key, ClaimRuling(es, key, checkedAt, now, id), checkedAt, now, id);
    }
    sends := 0;
    var slot := ledger.ClaimSendSlot(key, checkedAt, now, id);
    if slot.Err? {
      status := FailedSend;
      return;
    }
    if slot.value.None? {
      assert ledger.events == old(ledger.events);
      status := SkippedSend;
      return;
    }
    ghost var claimed := ReportEvents(ledger.events, key);
    if lawful {
      ClaimOpens(es, key, checkedAt, now, id);
      LawfulReduces(claimed);
    }
    if !built {
      status := FailedSend;
      return;
    }
    sends := 1;
    if sendRaises {
      if lawful {
        RulingKeepsLawful(ledger.events, key, AmbiguousRuling(claimed, key, id), 0, 0, id);
        ClosingEnds(claimed, SendAmbiguous(key, id, Reported));
      }
      var marked := ledger.MarkSendAmbiguous(key, id);
      status := SentAs(Ambiguous);
      return;
    }
    if lawful {
      RulingKeepsLawful(ledger.events, key, ConfirmRuling(claimed, key, id), 0, 0, id);
      RulingKeepsLawful(ledger.events, key, ReconcileRuling(claimed, key, id), 0, 0, id);
      ClosingEnds(claimed, SendConfirmed(key, id));
      ClosingEnds(claimed, SendAmbiguous(key, id, Reported));
    }
    var confirmed: Result<()> := Err("OSError");
    if !confirmRaises {
      confirmed := ledger.ConfirmSend(key, id);
    }
    if confirmed.Ok? {
      status := SentAs(Confirmed);
      return;
    }
    var reconciled := ledger.ReconcileAfterConfirmFailure(key, id);
    status := SentAs(if reconciled.Ok? then reconciled.value else Ambiguous);
  }

  // -------------------------------------------------------------------------
  // What the other sections answer, from the last send event
  // -------------------------------------------------------------------------

  /**
   * In every reachable state: only the last claim can be confirmed or closed. Confirming an open claim
   * writes the confirmation, and doing it again writes nothing; a closed claim cannot be confirmed, nor a
   * confirmed one closed. Closing twice writes once, and reconciling leaves any outcome as it stands.
   */
  lemma HolderAnswers(steps: seq<Step>, key: string, id: string)
    requires After(steps, false).Some?
    ensures
      var es := ReportEvents(After(steps, false).value.events, key);
      var last := LastSend(es);
      var mine := ActiveClaim(es).Some? && ActiveClaim(es).value.claim == id;
      && (!mine ==> ConfirmRuling(es, key, id) == AmbiguousRuling(es, key, id) == ReconcileRuling(es, key, id) == ValueError)
      && (mine && last == Claimed ==>
            && ConfirmRuling(es, key, id) == Append([SendConfirmed(key, id)])
            && AmbiguousRuling(es, key, id) == ReconcileRuling(es, key, id)
               == Append([SendAmbiguous(key, id, Cause.Reported)]))
      && (mine && last == Confirmed ==>
            && ConfirmRuling(es, key, id) == ReconcileRuling(es, key, id) == Append([])
            && AmbiguousRuling(es, key, id) == ValueError)
      && (mine && last == Ambiguous ==>
            && ConfirmRuling(es, key, id) == CorruptionError
            && AmbiguousRuling(es, key, id) == ReconcileRuling(es, key, id) == Append([]))
      && (mine ==> last == Claimed || last == Confirmed || last == Ambiguous)
  {
    hide WellFormed, Lawful, ReportEvents, Inv;
    RunKeepsInv(steps, false);
    var s := After(steps, false).value;
    InvHistories(s);
    HistoryLawful(s, key);
    LawfulReduces(ReportEvents(s.events, key));
  }
}
