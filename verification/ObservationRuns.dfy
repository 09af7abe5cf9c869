/**
 * Any number of processes on one observation ledger. The index may hold anything at any time: it
 * covers crashes between append and index update, lost updates and outright corruption.
 */
module ObservationRuns {
  import opened Sequences
  import opened HashChain
  import opened ObservationLedger

  /** A transition that has resolved its partition but does not hold the monthly lock yet. */
  datatype Process = Resolved(key: Key, month: Month, kind: Kind)

  datatype State = State(partitions: Partitions, index: IndexFile, processes: map<nat, Process>)

  const INITIAL := State(map[], NoIndex, map[])

  datatype Step =
    | Create(key: Key, content: string, detail: string)
    | Locate(p: nat, key: Key, month: Month, kind: Kind)
    | Transition(p: nat, detail: string)
    | Stop(p: nat)
    | IndexBecomes(index: IndexFile)

  /** The files may be read at different moments; all that is left of it is that the key was found there. */
  ghost predicate Takes(s: State, step: Step) {
    match step
    case Create(_, _, _) => true
    case Locate(p, key, month, _) => p !in s.processes && Holds(s.partitions, month, key)
    case Transition(p, _) => p in s.processes
    case Stop(p) => p in s.processes
    case IndexBecomes(_) => true
  }

  ghost function AppendTo(ps: Partitions, m: Month, es: seq<Event>): Partitions {
    if es == [] then ps else ps[m := EventsIn(ps, m) + es]
  }

  ghost function Next(h: Body -> Hash, s: State, step: Step): State
    requires Takes(s, step)
  {
    match step
    case Create(key, content, detail) =>
      s.(partitions := AppendTo(s.partitions, MonthOf(key), Written(RuleCreate(h, s.partitions, key, content, detail))))
    case Locate(p, key, month, kind) => s.(processes := s.processes[p := Resolved(key, month, kind)])
    case Transition(p, detail) =>
      var t := s.processes[p];
      State(AppendTo(s.partitions, t.month, Written(RuleTransition(h, s.partitions, t.month, t.key, t.kind, detail))),
            s.index, s.processes - {p})
    case Stop(p) => s.(processes := s.processes - {p})
    case IndexBecomes(index) => s.(index := index)
  }

  ghost function After(h: Body -> Hash, steps: seq<Step>): Option<State> {
    if steps == [] then Some(INITIAL)
    else match After(h, steps[..|steps| - 1])
         case None => None
         case Some(s) => if Takes(s, steps[|steps| - 1]) then Some(Next(h, s, steps[|steps| - 1])) else None
  }

  // -------------------------------------------------------------------------
  // The invariant
  // -------------------------------------------------------------------------

  /** An observation is opened once, and each later event is a permitted transition. */
  ghost predicate LegalPath(es: seq<Event>) {
    && (es != [] ==> es[0].body.kind == ObservationCreated && es[0].body.content.Some?)
    && forall i :: 0 < i < |es| ==> Allowed(es[i - 1].body.kind, es[i].body.kind)
  }

  ghost predicate MonthOk(h: Body -> Hash, m: Month, es: seq<Event>) {
    && Readable(h, es)
    && (forall e :: e in es ==> MonthOf(e.body.key) == m)
    && (forall key :: LegalPath(KeyEvents(es, key)))
  }

  ghost predicate Inv(h: Body -> Hash, s: State) {
    && (forall m :: m in s.partitions ==> MonthOk(h, m, s.partitions[m]))
    && (forall p :: p in s.processes ==> MonthOf(s.processes[p].key) == s.processes[p].month)
  }

  lemma LegalStatus(es: seq<Event>)
    requires LegalPath(es) && es != []
    ensures StatusOf(es) == es[|es| - 1].body.kind
    ensures forall i :: 0 < i < |es| ==> es[i].body.kind != ObservationCreated
  {
    assert forall i :: 0 < i < |es| ==> Allowed(es[i - 1].body.kind, es[i].body.kind);
  }

  lemma LegalSnoc(es: seq<Event>, e: Event)
    requires LegalPath(es)
    requires if es == [] then e.body.kind == ObservationCreated && e.body.content.Some?
             else Allowed(es[|es| - 1].body.kind, e.body.kind)
    ensures LegalPath(es + [e])
  {
  }

  /** Appending an event that its own key's history permits keeps the month in order. */
  lemma AppendKeepsMonth(h: Body -> Hash, m: Month, es: seq<Event>, e: Event)
    requires MonthOk(h, m, es) && MonthOf(e.body.key) == m && e.hash == h(e.body)
    requires e.body.prev == LastHash(KeyEvents(es, e.body.key))
    requires LegalPath(KeyEvents(es, e.body.key) + [e])
    ensures MonthOk(h, m, es + [e])
  {
    hide LegalPath, KeyEvents, ChainsVerify;
    AppendVerifies(es, e);
    HeadIsLast(es, e.body.key);
    forall key
      ensures LegalPath(KeyEvents(es + [e], key))
    {
      KeyEventsSnoc(es, e, key);
    }
  }

  lemma KeyEventsSnoc(es: seq<Event>, e: Event, key: Key)
    ensures KeyEvents(es + [e], key) == if e.body.key == key then KeyEvents(es, key) + [e] else KeyEvents(es, key)
  {
    FilterSnoc(es, e, OfKey(key));
  }

  lemma EmptyMonthOk(h: Body -> Hash, m: Month)
    ensures MonthOk(h, m, [])
  {
    EmptyLinked();
    assert forall key :: KeyEvents([], key) == [];
  }

  lemma OwnMonthOk(h: Body -> Hash, s: State, m: Month)
    requires Inv(h, s)
    ensures MonthOk(h, m, EventsIn(s.partitions, m))
  {
    EmptyMonthOk(h, m);
  }

  lemma CreateKeepsInv(h: Body -> Hash, s: State, step: Step)
    requires Inv(h, s) && step.Create?
    ensures Inv(h, Next(h, s, step))
  {
    hide Readable, KeyEvents, LegalPath, AllReadable;
    var m := MonthOf(step.key);
    var es := EventsIn(s.partitions, m);
    OwnMonthOk(h, s, m);
    var mine := KeyEvents(es, step.key);
    var ruling := RuleCreate(h, s.partitions, step.key, step.content, step.detail);
    if ruling.Open? {
      EmptyLegal();
      LegalSnoc(mine, ruling.event);
      AppendKeepsMonth(h, m, es, ruling.event);
    } else if ruling.Clash? {
      LegalStatus(mine);
      LegalSnoc(mine, ruling.event);
      AppendKeepsMonth(h, m, es, ruling.event);
    }
  }

  lemma EmptyLegal()
    ensures LegalPath([])
  {
  }

  lemma TransitionKeepsInv(h: Body -> Hash, s: State, step: Step)
    requires Inv(h, s) && step.Transition? && Takes(s, step)
    ensures Inv(h, Next(h, s, step))
  {
    hide Readable, KeyEvents, LegalPath;
    var t := s.processes[step.p];
    var es := EventsIn(s.partitions, t.month);
    OwnMonthOk(h, s, t.month);
    var mine := KeyEvents(es, t.key);
    var ruling := RuleTransition(h, s.partitions, t.month, t.key, t.kind, step.detail);
    if ruling.Advance? {
      LegalStatus(mine);
      LegalSnoc(mine, ruling.event);
      AppendKeepsMonth(h, t.month, es, ruling.event);
    }
  }

  lemma LocateKeepsInv(h: Body -> Hash, s: State, step: Step)
    requires Inv(h, s) && step.Locate? && Takes(s, step)
    ensures Inv(h, Next(h, s, step))
  {
    KeyHome(h, s, step.month, step.key);
  }

  /** A key is only ever found in its own month. */
  lemma KeyHome(h: Body -> Hash, s: State, m: Month, key: Key)
    requires Inv(h, s) && Holds(s.partitions, m, key)
    ensures MonthOf(key) == m
  {
    var es := s.partitions[m];
    FilterMembers(es, OfKey(key));
    assert KeyEvents(es, key)[0] in KeyEvents(es, key);
  }

  lemma {:induction false} RunKeepsInv(h: Body -> Hash, steps: seq<Step>)
    requires After(h, steps).Some?
    ensures Inv(h, After(h, steps).value)
  {
    if steps != [] {
      hide MonthOk;
      var n := |steps| - 1;
      RunKeepsInv(h, steps[..n]);
      var s := After(h, steps[..n]).value;
      match steps[n] {
        case Create(_, _, _) => CreateKeepsInv(h, s, steps[n]);
        case Transition(_, _) => TransitionKeepsInv(h, s, steps[n]);
        case Locate(_, _, _, _) => LocateKeepsInv(h, s, steps[n]);
        case _ =>
      }
    }
  }

  // -------------------------------------------------------------------------
  // What holds of every run
  // -------------------------------------------------------------------------

  /**
   * In every reachable state, whatever the index holds: every file verifies; a key lives in its own
   * month alone, as a legal path opened exactly once; and resolving it finds exactly that.
   */
  lemma LedgerSafe(h: Body -> Hash, steps: seq<Step>, key: Key, index: IndexFile)
    requires After(h, steps).Some?
    ensures
      var ps := After(h, steps).value.partitions;
      var es := KeyEvents(EventsIn(ps, MonthOf(key)), key);
      && AllReadable(h, ps) && !CreatedTwice(ps)
      && LegalPath(es)
      && (forall m :: Holds(ps, m, key) ==> m == MonthOf(key))
      && (forall i :: 0 <= i < |es| ==> (es[i].body.kind == ObservationCreated <==> i == 0))
      && Resolve(h, ps, index, key) == Ok(if es == [] then None else Some(Located(MonthOf(key), es)))
  {
    hide MonthOk, Readable, CreatedTwice, AllReadable, Resolve, KeyEvents, LegalPath, Scan, After;
    RunKeepsInv(h, steps);
    var s := After(h, steps).value;
    var ps := s.partitions;
    FilesVerify(h, s);
    OpenedOnce(h, s);
    HistoryLegal(h, s, key);
    forall m | Holds(ps, m, key)
      ensures m == MonthOf(key)
    {
      KeyHome(h, s, m, key);
    }
    ResolveFinds(h, ps, index, key);
  }

  lemma FilesVerify(h: Body -> Hash, s: State)
    requires Inv(h, s)
    ensures AllReadable(h, s.partitions)
  {
  }

  lemma HistoryLegal(h: Body -> Hash, s: State, key: Key)
    requires Inv(h, s)
    ensures var es := KeyEvents(EventsIn(s.partitions, MonthOf(key)), key);
            LegalPath(es) && forall i :: 0 <= i < |es| ==> (es[i].body.kind == ObservationCreated <==> i == 0)
  {
    hide KeyEvents;
    OwnMonthOk(h, s, MonthOf(key));
    var es := KeyEvents(EventsIn(s.partitions, MonthOf(key)), key);
    if es != [] {
      LegalStatus(es);
    }
  }

  lemma ResolveFinds(h: Body -> Hash, ps: Partitions, index: IndexFile, key: Key)
    requires AllReadable(h, ps) && !CreatedTwice(ps)
    requires forall m :: Holds(ps, m, key) ==> m == MonthOf(key)
    ensures var es := KeyEvents(EventsIn(ps, MonthOf(key)), key);
            Resolve(h, ps, index, key) == Ok(if es == [] then None else Some(Located(MonthOf(key), es)))
  {
    hide AllReadable, CreatedTwice, KeyEvents;
    MonthLookup(h, ps, MonthOf(key), key);
    if KeyEvents(EventsIn(ps, MonthOf(key)), key) != [] {
      ScanFinds(h, ps, MonthOf(key), key);
    } else {
      NoMonthHolds(ps, key);
    }
  }

  lemma NoMonthHolds(ps: Partitions, key: Key)
    requires forall m :: Holds(ps, m, key) ==> m == MonthOf(key)
    requires KeyEvents(EventsIn(ps, MonthOf(key)), key) == []
    ensures forall m :: !Holds(ps, m, key)
  {
  }

  lemma OpenedOnce(h: Body -> Hash, s: State)
    requires Inv(h, s)
    ensures !CreatedTwice(s.partitions)
  {
    hide MonthOk, KeyEvents, LegalPath;
    forall key, m, i, n, j | CreatedAt(s.partitions, m, i, key) && CreatedAt(s.partitions, n, j, key)
      ensures m == n && i == j
    {
      CreationHome(h, s, m, i, key);
      CreationHome(h, s, n, j, key);
      if i < j {
        TwoCreations(h, s, m, i, j, key);
      } else if j < i {
        TwoCreations(h, s, m, j, i, key);
      }
    }
  }

  lemma CreationHome(h: Body -> Hash, s: State, m: Month, i: int, key: Key)
    requires Inv(h, s) && CreatedAt(s.partitions, m, i, key)
    ensures m == MonthOf(key)
  {
    assert s.partitions[m][i] in s.partitions[m];
  }

  lemma TwoCreations(h: Body -> Hash, s: State, m: Month, i: int, j: int, key: Key)
    requires Inv(h, s) && m in s.partitions && 0 <= i < j < |s.partitions[m]|
    requires CreatedAt(s.partitions, m, i, key)
    ensures !CreatedAt(s.partitions, m, j, key)
  {
    hide MonthOk, KeyEvents, LegalPath;
    if CreatedAt(s.partitions, m, j, key) {
      var es := s.partitions[m];
      var k, l := PositionsInHistory(es, key, i, j);
      CreationHome(h, s, m, i, key);
      HistoryLegal(h, s, key);
    }
  }

  /** Two events of one key stand in its history in file order. */
  lemma PositionsInHistory(es: seq<Event>, key: Key, i: int, j: int) returns (k: int, l: int)
    requires 0 <= i < j < |es| && es[i].body.key == key && es[j].body.key == key
    ensures 0 <= k < l < |KeyEvents(es, key)| && KeyEvents(es, key)[k] == es[i] && KeyEvents(es, key)[l] == es[j]
  {
    k, l := KeptPositions(es, OfKey(key), i, j);
  }

  /**
   * Histories only grow, so the first content of a key stays; and a key in a final status never gains
   * an event again, whoever asks.
   */
  lemma {:induction false} HistoryGrows(h: Body -> Hash, steps: seq<Step>, more: seq<Step>, key: Key)
    requires After(h, steps).Some? && After(h, steps + more).Some?
    ensures
      var es := KeyEvents(EventsIn(After(h, steps).value.partitions, MonthOf(key)), key);
      var es' := KeyEvents(EventsIn(After(h, steps + more).value.partitions, MonthOf(key)), key);
      && es <= es'
      && (es != [] && es[|es| - 1].body.kind != ObservationCreated && es[|es| - 1].body.kind != Collecting ==> es' == es)
  {
    if more == [] {
      assert steps + more == steps;
    } else {
      hide KeyEvents, StatusOf, Takes, Next, MonthOf, EventsIn;
      var n := |more| - 1;
      assert (steps + more)[..|steps + more| - 1] == steps + more[..n];
      HistoryGrows(h, steps, more[..n], key);
      StepGrows(h, steps + more[..n], more[n], key);
    }
  }

  lemma StepGrows(h: Body -> Hash, steps: seq<Step>, step: Step, key: Key)
    requires After(h, steps).Some? && Takes(After(h, steps).value, step)
    ensures
      var s := After(h, steps).value;
      var es := KeyEvents(EventsIn(s.partitions, MonthOf(key)), key);
      var es' := KeyEvents(EventsIn(Next(h, s, step).partitions, MonthOf(key)), key);
      && es <= es'
      && (es != [] && es[|es| - 1].body.kind != ObservationCreated && es[|es| - 1].body.kind != Collecting ==> es' == es)
  {
    hide KeyEvents, AllReadable, Readable, StatusOf, After;
    var s := After(h, steps).value;
    RunKeepsInv(h, steps);
    if HistoryOf(s.partitions, key) != [] {
      LastIsStatus(h, steps, key);
    }
    if step.Create? {
      var ruling := RuleCreate(h, s.partitions, step.key, step.content, step.detail);
      if Written(ruling) != [] {
        KeyEventsSnoc(EventsIn(s.partitions, MonthOf(step.key)), ruling.event, key);
      }
    } else if step.Transition? {
      var t := s.processes[step.p];
      var ruling := RuleTransition(h, s.partitions, t.month, t.key, t.kind, step.detail);
      if Written(ruling) != [] {
        KeyEventsSnoc(EventsIn(s.partitions, t.month), ruling.event, key);
      }
    }
  }

  /** After a creation has landed, creating again with the same content changes nothing, ever. */
  lemma CreateIsIdempotent(h: Body -> Hash, steps: seq<Step>, more: seq<Step>, key: Key, content: string, detail: string)
    requires After(h, steps).Some? && RuleCreate(h, After(h, steps).value.partitions, key, content, detail).Open?
    requires After(h, steps + [Create(key, content, detail)] + more).Some?
    ensures RuleCreate(h, After(h, steps + [Create(key, content, detail)] + more).value.partitions, key, content, detail) == Match
  {
    hide KeyEvents, Readable, AllReadable, Inv, LegalPath, After, Scan;
    var once := steps + [Create(key, content, detail)];
    PrefixRuns(h, once, more);
    AfterSnoc(h, steps, Create(key, content, detail));
    var s := After(h, steps).value;
    var m := MonthOf(key);
    var event := RuleCreate(h, s.partitions, key, content, detail).event;
    KeyEventsSnoc(EventsIn(s.partitions, m), event, key);
    HistoryGrows(h, once, more, key);
    LedgerSafe(h, once + more, key, NoIndex);
    NotElsewhere(After(h, once + more).value.partitions, key);
  }

  lemma NotElsewhere(ps: Partitions, key: Key)
    requires forall m :: Holds(ps, m, key) ==> m == MonthOf(key)
    ensures !Elsewhere(ps, MonthOf(key), key)
  {
  }

  lemma AfterSnoc(h: Body -> Hash, steps: seq<Step>, step: Step)
    requires After(h, steps).Some? && Takes(After(h, steps).value, step)
    ensures After(h, steps + [step]) == Some(Next(h, After(h, steps).value, step))
  {
    assert (steps + [step])[..|steps|] == steps;
  }

  lemma {:induction false} PrefixRuns(h: Body -> Hash, steps: seq<Step>, more: seq<Step>)
    requires After(h, steps + more).Some?
    ensures After(h, steps).Some?
  {
    if more == [] {
      assert steps + more == steps;
    } else {
      assert (steps + more)[..|steps + more| - 1] == steps + more[..|more| - 1];
      PrefixRuns(h, steps, more[..|more| - 1]);
    }
  }

  // -------------------------------------------------------------------------
  // What the writers answer, from the history of the key
  // -------------------------------------------------------------------------

  /** The history of a key in its own month. */
  function HistoryOf(ps: Partitions, key: Key): seq<Event> { KeyEvents(EventsIn(ps, MonthOf(key)), key) }

  /** In a reachable ledger the last event of a key is its status. */
  lemma LastIsStatus(h: Body -> Hash, steps: seq<Step>, key: Key)
    requires After(h, steps).Some? && HistoryOf(After(h, steps).value.partitions, key) != []
    ensures var es := HistoryOf(After(h, steps).value.partitions, key);
            StatusOf(es) == es[|es| - 1].body.kind
  {
    hide LegalPath, KeyEvents, Inv;
    RunKeepsInv(h, steps);
    HistoryLegal(h, After(h, steps).value, key);
    LegalStatus(HistoryOf(After(h, steps).value.partitions, key));
  }

  /**
   * In every reachable ledger: an observation just opened is advanced exactly to COLLECTING or CONFLICT, one
   * being collected exactly to COMPLETED, FAILED_DATA, FAILED_VALIDATION or CANCELLED, and any other not at
   * all; the event written names the key, the new status and the hash of the event before it.
   */
  lemma TransitionAnswer(h: Body -> Hash, steps: seq<Step>, key: Key, kind: Kind, detail: string)
    requires After(h, steps).Some?
    ensures
      var ps := After(h, steps).value.partitions;
      var es := HistoryOf(ps, key);
      RuleTransition(h, ps, MonthOf(key), key, kind, detail) ==
        if es == [] then Missing
        else
          var last := es[|es| - 1];
          var body := Body(key, kind, None, detail, Some(last.hash));
          if (last.body.kind == ObservationCreated && (kind == Collecting || kind == Conflict))
             || (last.body.kind == Collecting
                 && (kind == Completed || kind == FailedData || kind == FailedValidation || kind == Cancelled))
          then Advance(Event(body, h(body))) else Forbidden
  {
    hide MonthOk, KeyEvents, LegalPath, Readable;
    RunKeepsInv(h, steps);
    var s := After(h, steps).value;
    OwnMonthOk(h, s, MonthOf(key));
    MonthReadable(h, MonthOf(key), EventsIn(s.partitions, MonthOf(key)));
    if HistoryOf(s.partitions, key) != [] {
      LastIsStatus(h, steps, key);
    }
  }

  lemma MonthReadable(h: Body -> Hash, m: Month, es: seq<Event>)
    requires MonthOk(h, m, es)
    ensures Readable(h, es)
  {
  }

  /**
   * In every reachable ledger a creation opens a new key, matches the same content, writes a CONFLICT event
   * against other content while nothing has happened yet, and refuses it afterwards without writing.
   */
  lemma CreationAnswer(h: Body -> Hash, steps: seq<Step>, key: Key, content: string, detail: string)
    requires After(h, steps).Some?
    ensures
      var ps := After(h, steps).value.partitions;
      var es := HistoryOf(ps, key);
      var opening := Body(key, ObservationCreated, Some(content), detail, None);
      RuleCreate(h, ps, key, content, detail) ==
        if es == [] then Open(Event(opening, h(opening)))
        else if es[0].body.content == Some(content) then Match
        else if |es| > 1 then Refuse
        else
          var conflict := Body(key, Conflict, None, detail, Some(es[0].hash));
          Clash(Event(conflict, h(conflict)))
  {
    hide MonthOk, KeyEvents, LegalPath, Readable, After, Resolve, CreatedTwice, AllReadable;
    LedgerSafe(h, steps, key, NoIndex);
    var ps := After(h, steps).value.partitions;
    var es := HistoryOf(ps, key);
    assert !Elsewhere(ps, MonthOf(key), key);
    if es != [] {
      LastIsStatus(h, steps, key);
    }
  }

  // -------------------------------------------------------------------------
  // Every status is reached
  // -------------------------------------------------------------------------

  /** One process finds the key and advances it. */
  lemma Advances(h: Body -> Hash, steps: seq<Step>, key: Key, kind: Kind) returns (longer: seq<Step>)
    requires After(h, steps).Some? && After(h, steps).value.processes == map[]
    requires RuleTransition(h, After(h, steps).value.partitions, MonthOf(key), key, kind, "").Advance?
    ensures After(h, longer).Some? && After(h, longer).value.processes == map[]
    ensures var es := HistoryOf(After(h, longer).value.partitions, key);
            es != [] && es[|es| - 1].body.kind == kind
  {
    hide After, KeyEvents, Readable;
    var s := After(h, steps).value;
    var m := MonthOf(key);
    var found := Step.Locate(0, key, m, kind);
    HeldInMonth(s.partitions, key);
    AfterSnoc(h, steps, found);
    var located := Next(h, s, found);
    AfterSnoc(h, steps + [found], Step.Transition(0, ""));
    longer := steps + [found] + [Step.Transition(0, "")];
    var event := RuleTransition(h, s.partitions, m, key, kind, "").event;
    KeyEventsSnoc(EventsIn(s.partitions, m), event, key);
  }

  lemma HeldInMonth(ps: Partitions, key: Key)
    requires HistoryOf(ps, key) != []
    ensures Holds(ps, MonthOf(key), key)
  {
  }

  lemma Opens(h: Body -> Hash, key: Key) returns (steps: seq<Step>)
    ensures After(h, steps).Some? && After(h, steps).value.processes == map[]
    ensures var es := HistoryOf(After(h, steps).value.partitions, key);
            es != [] && es[|es| - 1].body.kind == ObservationCreated
  {
    hide KeyEvents, Readable, AllReadable;
    var step := Step.Create(key, "content", "");
    CreationAnswer(h, [], key, "content", "");
    NothingYet(h, key);
    AfterSnoc(h, [], step);
    steps := [] + [step];
    KeyEventsSnoc([], RuleCreate(h, map[], key, "content", "").event, key);
  }

  lemma NothingYet(h: Body -> Hash, key: Key)
    ensures After(h, []) == Some(INITIAL) && HistoryOf(map[], key) == [] && KeyEvents([], key) == []
  {
  }

  /** Each of the five final statuses is reached by some run. */
  lemma FinalReached(h: Body -> Hash, key: Key, kind: Kind) returns (steps: seq<Step>)
    requires kind == Completed || kind == FailedData || kind == FailedValidation || kind == Cancelled || kind == Conflict
    ensures After(h, steps).Some?
    ensures var es := HistoryOf(After(h, steps).value.partitions, key);
            es != [] && es[|es| - 1].body.kind == kind && StatusOf(es) == kind
  {
    hide After, KeyEvents, RuleTransition, StatusOf;
    steps := Opens(h, key);
    if kind != Conflict {
      TransitionAnswer(h, steps, key, Collecting, "");
      steps := Advances(h, steps, key, Collecting);
    }
    TransitionAnswer(h, steps, key, kind, "");
    steps := Advances(h, steps, key, kind);
    LastIsStatus(h, steps, key);
  }
}
