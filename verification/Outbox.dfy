/** The Telegram outbox of a shadow report: an append-only history of claims and their outcomes. */
module Outbox {
  import opened Sequences

  /** SEND_CLAIM_TTL_SECONDS, in microseconds, the resolution of the timestamps. */
  const LEASE := 300_000_000

  /** Why a claim was closed as ambiguous: its lease ran out, or its own worker reported trouble. */
  datatype Cause = Expired | Reported

  /** An empty claim id stands for a missing one; a lease end that is missing or unreadable is None. */
  datatype Event =
    | ReportCreated(key: string)
    | SendClaimed(key: string, claim: string, claimedAt: int, expiresAt: Option<int>)
    | SendConfirmed(key: string, claim: string)
    | SendFailed(key: string, claim: string)
    | SendAmbiguous(key: string, claim: string, cause: Cause)

  datatype SendStatus = Unsent | Claimed | Confirmed | Failed | Ambiguous

  /** What the reducer returns: the state and the active claim event. */
  datatype Reduction = Reduction(status: SendStatus, active: Option<Event>)

  function StatusOf(e: Event): SendStatus {
    match e
    case ReportCreated(_) => Unsent
    case SendClaimed(_, _, _, _) => Claimed
    case SendConfirmed(_, _) => Confirmed
    case SendFailed(_, _) => Failed
    case SendAmbiguous(_, _, _) => Ambiguous
  }

  predicate IsTerminal(e: Event) { e.SendConfirmed? || e.SendFailed? || e.SendAmbiguous? }

  predicate ClaimsId(e: Event, id: string) { e.SendClaimed? && e.claim == id }

  predicate Settles(e: Event, id: string) { IsTerminal(e) && e.claim == id }

  // -------------------------------------------------------------------------
  // The reducer
  // -------------------------------------------------------------------------

  /** An event may follow `before`: claim ids are new, outcomes name a claim and do not contradict. */
  ghost predicate Fits(before: seq<Event>, e: Event) {
    && (e.SendClaimed? ==> e.claim != "" && forall c :: c in before ==> !ClaimsId(c, e.claim))
    && (IsTerminal(e) ==>
          && e.claim != ""
          && (exists c :: c in before && ClaimsId(c, e.claim))
          && (forall t :: t in before && Settles(t, e.claim) ==> StatusOf(t) == StatusOf(e)))
  }

  ghost predicate WellFormed(es: seq<Event>) {
    forall i :: 0 <= i < |es| ==> Fits(es[..i], es[i])
  }

  /** The last claim of the history. */
  function ActiveClaim(es: seq<Event>): (c: Option<Event>)
    ensures c.Some? ==> c.value.SendClaimed? && c.value in es
  {
    if es == [] then None
    else if es[|es| - 1].SendClaimed? then Some(es[|es| - 1])
    else ActiveClaim(es[..|es| - 1])
  }

  /** The outcome recorded last for a claim id. */
  function OutcomeOf(es: seq<Event>, id: string): (r: Option<SendStatus>)
    ensures r.Some? ==> exists t :: t in es && Settles(t, id) && StatusOf(t) == r.value
    ensures r.None? ==> forall t :: t in es ==> !Settles(t, id)
  {
    if es == [] then None
    else
      assert es == es[..|es| - 1] + [es[|es| - 1]];
      if Settles(es[|es| - 1], id) then Some(StatusOf(es[|es| - 1]))
      else OutcomeOf(es[..|es| - 1], id)
  }

  function StateOf(es: seq<Event>): Reduction {
    match ActiveClaim(es)
    case None => Reduction(Unsent, None)
    case Some(c) => match OutcomeOf(es, c.claim)
                    case None => Reduction(Claimed, Some(c))
                    case Some(status) => Reduction(status, Some(c))
  }

  /** The reducer accepts exactly the well-formed histories and returns their state. */
  method ReduceSendState(es: seq<Event>) returns (r: Result<Reduction>)
    ensures r.Ok? <==> WellFormed(es)
    ensures r.Ok? ==> r.value == StateOf(es)
  {
    hide WellFormed, OutcomeOf, ActiveClaim, Fits;
    EmptyHistory();
    var claims: map<string, Event> := map[];
    var terminals: map<string, SendStatus> := map[];
    var last: Option<Event> := None;
    assert es[..0] == [];
    for i := 0 to |es|
      invariant WellFormed(es[..i])
      invariant forall id :: id in claims <==> exists c :: c in es[..i] && ClaimsId(c, id)
      invariant forall id :: OutcomeOf(es[..i], id) == if id in terminals then Some(terminals[id]) else None
      invariant last == ActiveClaim(es[..i])
    {
      var e := es[i];
      assert es[..i + 1] == es[..i] + [e];
      FitsByLookup(es[..i], e, claims.Keys);
      WellFormedSnoc(es[..i], e);
      WellFormedPrefix(es, i + 1);
      if e.SendClaimed? {
        if e.claim == "" || e.claim in claims {
          return Err("CorruptionError");
        }
        claims := claims[e.claim := e];
        last := Some(e);
      } else if IsTerminal(e) {
        if e.claim == "" || e.claim !in claims {
          return Err("CorruptionError");
        }
        if e.claim in terminals && terminals[e.claim] != StatusOf(e) {
          return Err("CorruptionError");
        }
        terminals := terminals[e.claim := StatusOf(e)];
      }
    }
    assert es[..|es|] == es;
    match last {
      case None =>
        r := Ok(Reduction(Unsent, None));
      case Some(c) =>
        if c.claim in terminals {
          r := Ok(Reduction(terminals[c.claim], last));
        } else {
          r := Ok(Reduction(Claimed, last));
        }
    }
  }

  lemma WellFormedSnoc(es: seq<Event>, e: Event)
    ensures WellFormed(es + [e]) <==> WellFormed(es) && Fits(es, e)
  {
    var longer := es + [e];
    assert forall i :: 0 <= i < |es| ==> longer[..i] == es[..i] && longer[i] == es[i];
    assert longer[..|es|] == es;
  }

  lemma OutcomeSnoc(es: seq<Event>, e: Event, id: string)
    ensures OutcomeOf(es + [e], id) == if Settles(e, id) then Some(StatusOf(e)) else OutcomeOf(es, id)
  {
    assert (es + [e])[..|es|] == es;
  }

  lemma ActiveSnoc(es: seq<Event>, e: Event)
    ensures ActiveClaim(es + [e]) == if e.SendClaimed? then Some(e) else ActiveClaim(es)
  {
    assert (es + [e])[..|es|] == es;
  }

  /** In a well-formed history all outcomes of one claim agree. */
  lemma {:induction false} OutcomesAgree(es: seq<Event>, t: Event)
    requires WellFormed(es) && t in es && IsTerminal(t)
    ensures OutcomeOf(es, t.claim) == Some(StatusOf(t))
  {
    hide WellFormed;
    var n := |es| - 1;
    var front, last := es[..n], es[n];
    assert es == front + [last];
    WellFormedSnoc(front, last);
    OutcomeSnoc(front, last, t.claim);
    if t in front {
      OutcomesAgree(front, t);
    }
  }

  /**
   * The accepted histories, read off the events: claim ids are present and never repeated, every outcome
   * names an earlier claim, and the outcomes of one claim are all of one type.
   */
  lemma WellFormedIff(es: seq<Event>)
    ensures WellFormed(es) <==>
      && (forall i :: 0 <= i < |es| && !es[i].ReportCreated? ==> es[i].claim != "")
      && (forall i, j :: 0 <= i < j < |es| && es[i].SendClaimed? && es[j].SendClaimed? ==> es[i].claim != es[j].claim)
      && (forall j :: 0 <= j < |es| && (es[j].SendConfirmed? || es[j].SendFailed? || es[j].SendAmbiguous?) ==>
            exists i :: 0 <= i < j && es[i].SendClaimed? && es[i].claim == es[j].claim)
      && (forall i, j :: 0 <= i < j < |es| && (es[i].SendConfirmed? || es[i].SendFailed? || es[i].SendAmbiguous?)
                         && (es[j].SendConfirmed? || es[j].SendFailed? || es[j].SendAmbiguous?)
                         && es[i].claim == es[j].claim ==>
            (es[i].SendConfirmed? <==> es[j].SendConfirmed?) && (es[i].SendFailed? <==> es[j].SendFailed?))
  {
    hide WellFormed, Fits;
    forall j | 0 <= j < |es|
      ensures Fits(es[..j], es[j]) <==> FitsAt(es, j)
    {
      FitsByPosition(es, j);
    }
    PointwiseFits(es);
  }

  lemma PointwiseFits(es: seq<Event>)
    requires forall j :: 0 <= j < |es| ==> (Fits(es[..j], es[j]) <==> FitsAt(es, j))
    ensures WellFormed(es) <==> forall j :: 0 <= j < |es| ==> FitsAt(es, j)
  {
    hide Fits, FitsAt;
  }

  /** The event at `j` fits the ones before it. */
  ghost predicate FitsAt(es: seq<Event>, j: int)
    requires 0 <= j < |es|
  {
    && (!es[j].ReportCreated? ==> es[j].claim != "")
    && (forall i :: 0 <= i < j && es[i].SendClaimed? && es[j].SendClaimed? ==> es[i].claim != es[j].claim)
    && (es[j].SendConfirmed? || es[j].SendFailed? || es[j].SendAmbiguous? ==>
          exists i :: 0 <= i < j && es[i].SendClaimed? && es[i].claim == es[j].claim)
    && (forall i :: 0 <= i < j && IsTerminal(es[i]) && IsTerminal(es[j]) && es[i].claim == es[j].claim ==>
          (es[i].SendConfirmed? <==> es[j].SendConfirmed?) && (es[i].SendFailed? <==> es[j].SendFailed?))
  }

  lemma FitsByPosition(es: seq<Event>, j: nat)
    requires j < |es|
    ensures Fits(es[..j], es[j]) <==> FitsAt(es, j)
  {
    var before, e := es[..j], es[j];
    assert forall i :: 0 <= i < j ==> before[i] == es[i] && es[i] in before;
    forall c | c in before
      ensures exists i :: 0 <= i < j && es[i] == c
    {
      var i :| 0 <= i < j && before[i] == c;
      assert es[i] == c;
    }
  }

  lemma WellFormedPrefix(es: seq<Event>, n: nat)
    requires n <= |es|
    ensures WellFormed(es) ==> WellFormed(es[..n])
  {
    assert forall i :: 0 <= i < n ==> es[..n][..i] == es[..i];
  }

  lemma EmptyHistory()
    ensures WellFormed([]) && ActiveClaim([]) == None && forall id :: OutcomeOf([], id) == None
  {
  }

  /** The reducer's two dictionaries are enough to judge the next event. */
  lemma FitsByLookup(es: seq<Event>, e: Event, claimed: set<string>)
    requires WellFormed(es) && forall id :: id in claimed <==> exists c :: c in es && ClaimsId(c, id)
    ensures Fits(es, e) <==>
              && (e.SendClaimed? ==> e.claim != "" && e.claim !in claimed)
              && (IsTerminal(e) ==>
                    && e.claim != "" && e.claim in claimed
                    && (OutcomeOf(es, e.claim).None? || OutcomeOf(es, e.claim) == Some(StatusOf(e))))
    ensures forall id :: OutcomeOf(es + [e], id) == if Settles(e, id) then Some(StatusOf(e)) else OutcomeOf(es, id)
    ensures ActiveClaim(es + [e]) == if e.SendClaimed? then Some(e) else ActiveClaim(es)
  {
    hide WellFormed, ActiveClaim;
    forall t | t in es && IsTerminal(t)
      ensures OutcomeOf(es, t.claim) == Some(StatusOf(t))
    {
      OutcomesAgree(es, t);
    }
    forall id
      ensures OutcomeOf(es + [e], id) == if Settles(e, id) then Some(StatusOf(e)) else OutcomeOf(es, id)
    {
      OutcomeSnoc(es, e, id);
    }
    ActiveSnoc(es, e);
  }

  /**
   * What the reduced state says: without a claim nothing was sent; otherwise the active claim is the
   * last one, and the state is the outcome any event records for it, outcomes of older claims aside.
   */
  lemma ReductionMeaning(es: seq<Event>)
    requires WellFormed(es)
    ensures StateOf(es).active.None? <==> forall c :: c in es ==> !c.SendClaimed?
    ensures StateOf(es).active.None? ==> StateOf(es).status == Unsent
    ensures StateOf(es).active.Some? ==>
      var c := StateOf(es).active.value;
      && (exists i :: 0 <= i < |es| && es[i] == c && forall j :: i < j < |es| ==> !es[j].SendClaimed?)
      && (forall t :: t in es && Settles(t, c.claim) ==> StateOf(es).status == StatusOf(t))
      && ((forall t :: t in es ==> !Settles(t, c.claim)) ==> StateOf(es).status == Claimed)
  {
    LastClaimPosition(es);
    var active := ActiveClaim(es);
    if active.Some? {
      forall t | t in es && Settles(t, active.value.claim)
        ensures StateOf(es).status == StatusOf(t)
      {
        OutcomesAgree(es, t);
      }
    }
  }

  lemma {:induction false} LastClaimPosition(es: seq<Event>)
    ensures ActiveClaim(es).None? <==> forall c :: c in es ==> !c.SendClaimed?
    ensures ActiveClaim(es).Some? ==>
      exists i :: 0 <= i < |es| && es[i] == ActiveClaim(es).value && forall j :: i < j < |es| ==> !es[j].SendClaimed?
  {
    if es != [] {
      var n := |es| - 1;
      assert es == es[..n] + [es[n]];
      if !es[n].SendClaimed? {
        LastClaimPosition(es[..n]);
        if ActiveClaim(es[..n]).Some? {
          var i :| 0 <= i < n && es[..n][i] == ActiveClaim(es[..n]).value
                   && forall j :: i < j < n ==> !es[..n][j].SendClaimed?;
          assert es[i] == ActiveClaim(es).value && forall j :: i < j < |es| ==> !es[j].SendClaimed?;
        }
      }
    }
  }

  // -------------------------------------------------------------------------
  // What each operation decides from the history of its key
  // -------------------------------------------------------------------------

  datatype Ruling = Append(events: seq<Event>) | Decline | ValueError | CorruptionError

  function OfReport(key: string): Event -> bool { (e: Event) => e.key == key }

  function ReportEvents(events: seq<Event>, key: string): seq<Event> { Filter(events, OfReport(key)) }

  predicate LeaseOver(c: Event, now: int)
    requires c.SendClaimed?
  {
    c.expiresAt.None? || now >= c.expiresAt.value
  }

  function NewClaim(key: string, id: string, now: int): Event { SendClaimed(key, id, now, Some(now + LEASE)) }

  /** A slot is granted unless the report was delivered or somebody holds a live lease. */
  ghost function ClaimRuling(es: seq<Event>, key: string, checkedAt: int, now: int, id: string): Ruling {
    var state := StateOf(es);
    if !WellFormed(es) then CorruptionError
    else if state.status == Confirmed then Decline
    else if state.status != Claimed then Append([NewClaim(key, id, now)])
    else if !LeaseOver(ActiveClaim(es).value, checkedAt) then Decline
    else Append([SendAmbiguous(key, ActiveClaim(es).value.claim, Expired), NewClaim(key, id, now)])
  }

  /** The claim is the active one. */
  ghost predicate Holds(es: seq<Event>, id: string) {
    ActiveClaim(es).Some? && ActiveClaim(es).value.claim == id
  }

  /** Only the active claim can be confirmed, once. */
  ghost function ConfirmRuling(es: seq<Event>, key: string, id: string): Ruling {
    if !WellFormed(es) then CorruptionError
    else if !Holds(es, id) then ValueError
    else match StateOf(es).status
         case Confirmed => Append([])
         case Claimed => Append([SendConfirmed(key, id)])
         case _ => CorruptionError
  }

  /** Only the active claim can become ambiguous, and never after it was confirmed. */
  ghost function AmbiguousRuling(es: seq<Event>, key: string, id: string): Ruling {
    if !WellFormed(es) then CorruptionError
    else if !Holds(es, id) then ValueError
    else match StateOf(es).status
         case Confirmed => ValueError
         case Ambiguous => Append([])
         case Claimed => Append([SendAmbiguous(key, id, Reported)])
         case _ => CorruptionError
  }

  /** After a confirmation that raised: keep what was written, else close the claim as ambiguous. */
  ghost function ReconcileRuling(es: seq<Event>, key: string, id: string): Ruling {
    if WellFormed(es) && Holds(es, id) && StateOf(es).status == Confirmed then Append([])
    else AmbiguousRuling(es, key, id)
  }

  ghost function Written(r: Ruling): seq<Event> { if r.Append? then r.events else [] }

  // -------------------------------------------------------------------------
  // The ledger file of one month
  // -------------------------------------------------------------------------

  class ReportLedger {
    var events: seq<Event>

    constructor ()
      ensures events == []
    {
      events := [];
    }

    /** _events_for_report_key. */
    method Read(key: string) returns (es: seq<Event>)
      ensures es == ReportEvents(events, key)
    {
      es := [];
      for i := 0 to |events|
        invariant es == ReportEvents(events[..i], key)
      {
        assert events[..i + 1] == events[..i] + [events[i]];
        FilterSnoc(events[..i], events[i], OfReport(key));
        if events[i].key == key {
          es := es + [events[i]];
        }
      }
      assert events[..|events|] == events;
    }

    /**
     * The clock is read once to test the lease of the active claim and once to stamp the new one;
     * `id` is a new UUID.
     */
    method ClaimSendSlot(key: string, checkedAt: int, now: int, id: string) returns (r: Result<Option<string>>)
      modifies this
      ensures var ruling := ClaimRuling(ReportEvents(old(events), key), key, checkedAt, now, id);
        && events == old(events) + Written(ruling)
        && r == (match ruling
                 case Append(_) => Ok(Some(id))
                 case Decline => Ok(None)
                 case _ => Err("CorruptionError"))
    {
      hide WellFormed, ActiveClaim, OutcomeOf, ReportEvents;
      var es := Read(key);
      var reduced := ReduceSendState(es);
      if reduced.Err? {
        return Err("CorruptionError");
      }
      var state := reduced.value;
      if state.status == Confirmed {
        return Ok(None);
      }
      if state.status == Claimed && state.active.Some? {
        var active := state.active.value;
        if !LeaseOver(active, checkedAt) {
          return Ok(None);
        }
        events := events + [SendAmbiguous(key, active.claim, Expired)];
      }
      events := events + [NewClaim(key, id, now)];
      r := Ok(Some(id));
    }

    method ConfirmSend(key: string, id: string) returns (r: Result<()>)
      modifies this
      ensures var ruling := ConfirmRuling(ReportEvents(old(events), key), key, id);
        && events == old(events) + Written(ruling)
        && r == (match ruling
                 case Append(_) => Ok(())
                 case ValueError => Err("ValueError")
                 case _ => Err("CorruptionError"))
    {
      hide WellFormed, ActiveClaim, OutcomeOf, ReportEvents;
      var es := Read(key);
      var reduced := ReduceSendState(es);
      if reduced.Err? {
        return Err("CorruptionError");
      }
      var state := reduced.value;
      var holds := state.active.Some? && state.active.value.claim == id;
      if state.status == Confirmed && holds {
        return Ok(());
      }
      if !holds {
        return Err("ValueError");
      }
      if state.status != Claimed {
        return Err("CorruptionError");
      }
      events := events + [SendConfirmed(key, id)];
      r := Ok(());
    }

    method MarkSendAmbiguous(key: string, id: string) returns (r: Result<()>)
      modifies this
      ensures var ruling := AmbiguousRuling(ReportEvents(old(events), key), key, id);
        && events == old(events) + Written(ruling)
        && r == (match ruling
                 case Append(_) => Ok(())
                 case ValueError => Err("ValueError")
                 case _ => Err("CorruptionError"))
    {
      hide WellFormed, ActiveClaim, OutcomeOf, ReportEvents;
      var es := Read(key);
      var reduced := ReduceSendState(es);
      if reduced.Err? {
        return Err("CorruptionError");
      }
      var state := reduced.value;
      if !(state.active.Some? && state.active.value.claim == id) {
        return Err("ValueError");
      }
      if state.status == Confirmed {
        return Err("ValueError");
      }
      if state.status == Ambiguous {
        return Ok(());
      }
      if state.status != Claimed {
        return Err("CorruptionError");
      }
      events := events + [SendAmbiguous(key, id, Reported)];
      r := Ok(());
    }

    /** Returns CONFIRMED or AMBIGUOUS. */
    method ReconcileAfterConfirmFailure(key: string, id: string) returns (r: Result<SendStatus>)
      modifies this
      ensures var es := ReportEvents(old(events), key);
        var ruling := ReconcileRuling(es, key, id);
        && events == old(events) + Written(ruling)
        && r == (match ruling
                 case Append(_) => Ok(if StateOf(es).status == Confirmed then Confirmed else Ambiguous)
                 case ValueError => Err("ValueError")
                 case _ => Err("CorruptionError"))
    {
      hide WellFormed, ActiveClaim, OutcomeOf, ReportEvents;
      var es := Read(key);
      var reduced := ReduceSendState(es);
      if reduced.Err? {
        return Err("CorruptionError");
      }
      var state := reduced.value;
      if !(state.active.Some? && state.active.value.claim == id) {
        return Err("ValueError");
      }
      if state.status == Confirmed {
        return Ok(Confirmed);
      }
      if state.status == Ambiguous {
        return Ok(Ambiguous);
      }
      if state.status != Claimed {
        return Err("CorruptionError");
      }
      events := events + [SendAmbiguous(key, id, Reported)];
      r := Ok(Ambiguous);
    }
  }
}
