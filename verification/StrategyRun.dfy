/**
 * The write sequence of run_strategy_execution as a program, and its connection to the protocol:
 * stopping the program after any number of writes leaves a disk that some protocol run reaches.
 */
module StrategyRun {
  import opened Sequences
  import opened FillRecords
  import opened Orders
  import opened Storage
  import opened Settlement
  import opened OrderDesk
  import opened CrashModel
  import opened CrashInvariant
  import opened CrashDisk
  import opened CrashTrading
  import opened CrashSafety

  // -------------------------------------------------------------------------
  // The program
  // -------------------------------------------------------------------------

  /** One fill: trade in memory, filling record, then the SETTLING snapshot. */
  method RecordFill(desk: Desk, run: Run, f: Body, content: int) returns (run': Run)
    requires desk.Valid() && f.Filling? && f.order in desk.orders
    modifies desk
    ensures desk.Valid()
    ensures desk.writes == old(desk.writes) + FillWrites(old(desk.Now()), f)
    ensures run' == AfterFill(run, f, content)
  {
    run' := run.(memory := Portfolio(run.memory.trades + [Trade(f.order, f.attempt)], content));
    desk.AppendRecord(f);
    var order := desk.orders[f.order];
    desk.SaveOrder(order.(status := Settling));
    run' := run'.(fills := run'.fills + [RefTo(f)]);
  }

  function FillWrites(d: Disk, f: Body): seq<Write>
    requires f.Filling? && f.order in Book(d)
  {
    [AppendFill(f), SaveOrder(WithStatus(d, f.order, Settling))]
  }

  function AfterFill(run: Run, f: Body, content: int): Run
    requires f.Filling?
  {
    Run(run.strategy, run.pre, Portfolio(run.memory.trades + [Trade(f.order, f.attempt)], content),
        run.fills + [RefTo(f)])
  }

  /** The writes after the portfolio save: for each fill its marker, then EXECUTED. */
  function FinishWrites(book: map<string, Order>, ci: Body, fills: seq<FillRef>): seq<Write>
    requires ci.CommitIntent? && forall r :: r in fills ==> r.order in book
  {
    if fills == [] then []
    else
      var r := fills[|fills| - 1];
      FinishWrites(book, ci, fills[..|fills| - 1])
      + [AppendFill(MarkerOf(r, ci)), SaveOrder(book[r.order].(status := Executed))]
  }

  /** All writes of a run once its fills are recorded. */
  function CommitWrites(book: map<string, Order>, run: Run, commitId: string): seq<Write>
    requires forall r :: r in run.fills ==> r.order in book
  {
    if run.fills == [] then [SavePortfolio(run.strategy, run.memory)]
    else
      var ci := IntentFor(run, commitId);
      [AppendFill(ci), SavePortfolio(run.strategy, run.memory)] + FinishWrites(book, ci, run.fills)
  }

  /** Commit intent, portfolio save, markers and EXECUTED snapshots, in that order. */
  method CommitRun(desk: Desk, run: Run, commitId: string)
    requires desk.Valid() && commitId != ""
    requires forall r :: r in run.fills ==> r.order in desk.orders && desk.orders[r.order].status == Settling
                                            && r.hash.Some?
    requires forall i, j :: 0 <= i < j < |run.fills| ==> run.fills[i].order != run.fills[j].order
    modifies desk
    ensures desk.Valid()
    ensures desk.writes == old(desk.writes) + CommitWrites(old(desk.orders), run, commitId)
  {
    hide ApplyAll, Current, FinishWrites;
    ghost var book, start := desk.orders, desk.writes;
    var ci := IntentFor(run, commitId);
    if run.fills != [] {
      desk.AppendRecord(ci);
    }
    desk.SavePortfolio(run.strategy, run.memory);
    FinishAll(desk, ci, run.fills);
    NothingToFinish(book, ci);
  }

  lemma NothingToFinish(book: map<string, Order>, ci: Body)
    requires ci.CommitIntent?
    ensures FinishWrites(book, ci, []) == []
  {
  }

  lemma FinishWritesGrow(book: map<string, Order>, ci: Body, fills: seq<FillRef>, r: FillRef)
    requires ci.CommitIntent? && r.order in book && forall q :: q in fills ==> q.order in book
    ensures FinishWrites(book, ci, fills + [r])
            == FinishWrites(book, ci, fills) + [AppendFill(MarkerOf(r, ci)), SaveOrder(book[r.order].(status := Executed))]
  {
    assert (fills + [r])[..|fills|] == fills;
  }

  /** Marker and EXECUTED snapshot for every fill of the run. */
  method FinishAll(desk: Desk, ci: Body, fills: seq<FillRef>)
    requires desk.Valid() && ci.CommitIntent? && ci.commitId != ""
    requires forall r :: r in fills ==> r.order in desk.orders && desk.orders[r.order].status == Settling
                                        && r.hash.Some?
    requires forall i, j :: 0 <= i < j < |fills| ==> fills[i].order != fills[j].order
    modifies desk
    ensures desk.Valid()
    ensures desk.writes == old(desk.writes) + FinishWrites(old(desk.orders), ci, fills)
  {
    hide ApplyAll, Current, FinishWrites;
    ghost var book, start := desk.orders, desk.writes;
    NothingToFinish(book, ci);
    assert fills[..0] == [];
    for i := 0 to |fills|
      invariant desk.Valid() && desk.orders.Keys == book.Keys
      invariant forall r :: r in fills[..i] ==> r in fills
      invariant desk.writes == start + FinishWrites(book, ci, fills[..i])
      invariant forall k :: i <= k < |fills| ==> desk.orders[fills[k].order] == book[fills[k].order]
    {
      var r := fills[i];
      assert r in fills && fills[..i + 1] == fills[..i] + [r];
      FinishFill(desk, ci, r);
      FinishWritesGrow(book, ci, fills[..i], r);
    }
    assert fills[..|fills|] == fills;
  }

  /** The marker and the EXECUTED snapshot of one fill, unless the order is no longer SETTLING. */
  method FinishFill(desk: Desk, ci: Body, r: FillRef)
    requires desk.Valid() && ci.CommitIntent? && ci.commitId != "" && r.hash.Some?
    requires r.order in desk.orders
    modifies desk
    ensures desk.Valid()
    ensures old(desk.orders)[r.order].status != Settling ==>
              desk.writes == old(desk.writes) && desk.orders == old(desk.orders)
    ensures old(desk.orders)[r.order].status == Settling ==>
              desk.writes == old(desk.writes) + [AppendFill(MarkerOf(r, ci)),
                                                 SaveOrder(old(desk.orders)[r.order].(status := Executed))]
              && desk.orders == old(desk.orders)[r.order := old(desk.orders)[r.order].(status := Executed)]
  {
    if desk.orders[r.order].status == Settling {
      var ok := desk.MarkFillPersisted(r.order, r.attempt, r.hash.value, ci.commitId, ci.post);
      assert desk.orders[r.order].id == r.order;
      desk.SaveOrder(desk.orders[r.order].(status := Executed));
    }
  }

  // -------------------------------------------------------------------------
  // Every prefix of the program's writes is a protocol state
  // -------------------------------------------------------------------------

  /** A protocol run ends in the state. */
  ghost predicate Reachable(st: State) {
    exists states :: IsRun(states) && states[|states| - 1] == st
  }

  lemma ReachStep(st: State, st': State, step: Step)
    requires Reachable(st) && Takes(st, st', step)
    ensures Reachable(st') && Inv(st')
  {
    hide Takes, Inv;
    var states :| IsRun(states) && states[|states| - 1] == st;
    var longer := states + [st'];
    forall i | 0 <= i < |longer| - 1
      ensures Next(longer[i], longer[i + 1])
    {
      if i < |states| - 1 {
        assert Next(states[i], states[i + 1]);
      }
    }
    assert IsRun(longer);
    RunKeepsInv(longer, |longer| - 1);
  }

  /** A crash after any number of writes is a crash of the protocol. */
  ghost predicate CrashReachable(d: Disk, ws: seq<Write>, k: nat)
    requires k <= |ws|
  {
    exists p :: Reachable(State(ApplyAll(d, ws[..k]), p))
  }

  lemma Reached(d: Disk, ws: seq<Write>, k: nat, p: Process)
    requires k <= |ws| && Reachable(State(ApplyAll(d, ws[..k]), p))
    ensures CrashReachable(d, ws, k)
  {
  }

  lemma FillSteps(d: Disk, run: Run, f: Body, content: int)
    requires FreshFilling(d, run.strategy, f)
    ensures f.Filling? && f.order in Book(d)
    ensures var mid := State(Apply(d, AppendFill(f)), Annotating(AfterTrade(run, f, content), RefTo(f)));
            && Takes(State(d, Trading(run)), mid, Step.RecordFill(f, content))
            && Takes(mid, State(Apply(mid.disk, SaveOrder(WithStatus(d, f.order, Settling))),
                                Trading(AfterFill(run, f, content))), Annotate)
  {
    assert Book(Apply(d, AppendFill(f))) == Book(d);
  }

  function AfterTrade(run: Run, f: Body, content: int): Run
    requires f.Filling?
  {
    run.(memory := Portfolio(run.memory.trades + [Trade(f.order, f.attempt)], content))
  }

  /** Recording a fill: both writes, and every crash point between them, are protocol states. */
  lemma FillIsPath(d: Disk, run: Run, f: Body, content: int)
    requires Reachable(State(d, Trading(run))) && FreshFilling(d, run.strategy, f)
    ensures forall k :: 0 <= k <= 2 ==> CrashReachable(d, FillWrites(d, f), k)
    ensures Reachable(State(ApplyAll(d, FillWrites(d, f)), Trading(AfterFill(run, f, content))))
  {
    hide *;
    FillSteps(d, run, f, content);
    FillWritesAre(d, f);
    var ws := FillWrites(d, f);
    var st := State(d, Trading(run));
    var mid := State(Apply(d, ws[0]), Annotating(AfterTrade(run, f, content), RefTo(f)));
    var end := State(Apply(mid.disk, ws[1]), Trading(AfterFill(run, f, content)));
    ReachStep(st, mid, Step.RecordFill(f, content));
    ReachStep(mid, end, Annotate);
    PrefixesOfTwo(d, ws);
    Reached(d, ws, 0, st.process);
    Reached(d, ws, 1, mid.process);
    Reached(d, ws, 2, end.process);
  }

  lemma FillWritesAre(d: Disk, f: Body)
    requires f.Filling? && f.order in Book(d)
    ensures FillWrites(d, f) == [AppendFill(f), SaveOrder(WithStatus(d, f.order, Settling))]
  {
  }

  lemma PrefixesOfTwo(d: Disk, ws: seq<Write>)
    requires |ws| == 2
    ensures ApplyAll(d, ws[..0]) == d && ApplyAll(d, ws[..1]) == Apply(d, ws[0])
    ensures ApplyAll(d, ws[..2]) == ApplyAll(d, ws) == Apply(Apply(d, ws[0]), ws[1])
  {
    assert ws[..0] == [] && ws[..1] == [] + [ws[0]] && ws[..2] == ws == ws[..1] + [ws[1]];
    ApplySnoc(d, [], ws[0]);
    ApplySnoc(d, ws[..1], ws[1]);
  }

  /** The finishing writes have reached fill `n`; the orders of the later fills are untouched. */
  ghost predicate FinishedUpTo(d: Disk, p: Process, ws: seq<Write>, n: nat)
    requires p.Finishing?
  {
    && (forall k :: 0 <= k <= |ws| ==> CrashReachable(d, ws, k))
    && Reachable(State(ApplyAll(d, ws), Finishing(p.run, p.ci, n, false)))
    && Inv(State(ApplyAll(d, ws), Finishing(p.run, p.ci, n, false)))
    && (forall k :: n <= k < |p.run.fills| ==>
          var o := p.run.fills[k].order;
          o in Book(d) && o in Book(ApplyAll(d, ws)) && Book(ApplyAll(d, ws))[o] == Book(d)[o])
  }

  /** From the state after the portfolio save, every prefix of the finishing writes is reachable. */
  lemma {:induction false} FinishIsPath(d: Disk, p: Process, n: nat)
    requires p.Finishing? && p.ci.CommitIntent? && p.k == 0 && !p.noted && n <= |p.run.fills|
    requires Reachable(State(d, p)) && Inv(State(d, p))
    requires forall r :: r in p.run.fills ==> r.order in Book(d)
    ensures FinishedUpTo(d, p, FinishWrites(Book(d), p.ci, p.run.fills[..n]), n)
  {
    hide Reachable, Inv, CrashReachable, Book;
    if n == 0 {
      NothingFinished(d, p);
    } else {
      hide FinishedUpTo;
      FinishIsPath(d, p, n - 1);
      var front := FinishWrites(Book(d), p.ci, p.run.fills[..n - 1]);
      assert p.run.fills[..n][..n - 1] == p.run.fills[..n - 1];
      FinishOneMore(d, p, n, front);
    }
  }

  lemma NothingFinished(d: Disk, p: Process)
    requires p.Finishing? && p.ci.CommitIntent? && p.k == 0 && !p.noted
    requires Reachable(State(d, p)) && Inv(State(d, p))
    requires forall r :: r in p.run.fills ==> r.order in Book(d)
    ensures FinishedUpTo(d, p, FinishWrites(Book(d), p.ci, p.run.fills[..0]), 0)
  {
    hide Reachable, Inv, Book;
    var ws := FinishWrites(Book(d), p.ci, p.run.fills[..0]);
    assert ws == [] && ws[..0] == [] && p == Finishing(p.run, p.ci, 0, false);
    Reached(d, ws, 0, p);
  }

  lemma FinishSteps(d: Disk, p: Process, n: nat, mid: Disk)
    requires p.Finishing? && p.ci.CommitIntent? && 0 < n <= |p.run.fills|
    requires Inv(State(mid, Finishing(p.run, p.ci, n - 1, false)))
    requires var o := p.run.fills[n - 1].order; o in Book(d) && o in Book(mid) && Book(mid)[o] == Book(d)[o]
    ensures var r := p.run.fills[n - 1];
      var noted := State(Apply(mid, AppendFill(MarkerOf(r, p.ci))), Finishing(p.run, p.ci, n - 1, true));
      && Takes(State(mid, Finishing(p.run, p.ci, n - 1, false)), noted, Step.FinishFill)
      && Takes(noted, State(Apply(noted.disk, SaveOrder(Book(d)[r.order].(status := Executed))),
                            Finishing(p.run, p.ci, n, false)), Step.FinishFill)
      && forall k :: n <= k < |p.run.fills| ==> p.run.fills[k].order != r.order
  {
    hide DiskOk, Landed, HasMarker;
    var r := p.run.fills[n - 1];
    assert FinishingOk(mid, Finishing(p.run, p.ci, n - 1, false));
    assert InFlight(mid, p.run.strategy, r.order);
    assert Book(Apply(mid, AppendFill(MarkerOf(r, p.ci)))) == Book(mid);
  }

  lemma FinishOneMore(d: Disk, p: Process, n: nat, front: seq<Write>)
    requires p.Finishing? && p.ci.CommitIntent? && 0 < n <= |p.run.fills|
    requires p.run.fills[n - 1].order in Book(d) && FinishedUpTo(d, p, front, n - 1)
    ensures var r := p.run.fills[n - 1];
      FinishedUpTo(d, p, front + [AppendFill(MarkerOf(r, p.ci)), SaveOrder(Book(d)[r.order].(status := Executed))], n)
  {
    hide Reachable, Inv, CrashReachable, Takes;
    var r, m := p.run.fills[n - 1], |front|;
    var ws := front + [AppendFill(MarkerOf(r, p.ci)), SaveOrder(Book(d)[r.order].(status := Executed))];
    var mid := ApplyAll(d, front);
    FinishSteps(d, p, n, mid);
    var start := State(mid, Finishing(p.run, p.ci, n - 1, false));
    var noted := State(Apply(mid, ws[m]), Finishing(p.run, p.ci, n - 1, true));
    var end := State(Apply(noted.disk, ws[m + 1]), Finishing(p.run, p.ci, n, false));
    ReachStep(start, noted, Step.FinishFill);
    ReachStep(noted, end, Step.FinishFill);
    ApplySnoc(d, front, ws[m]);
    ApplySnoc(d, front + [ws[m]], ws[m + 1]);
    assert ws == front + [ws[m]] + [ws[m + 1]];
    forall k | 0 <= k <= |ws|
      ensures CrashReachable(d, ws, k)
    {
      if k <= m {
        SamePrefix(d, front, ws, k);
      } else if k == m + 1 {
        assert ws[..k] == front + [ws[m]];
        Reached(d, ws, k, noted.process);
      } else {
        assert ws[..k] == ws;
        Reached(d, ws, k, end.process);
      }
    }
    CurrentAfterSave(noted.disk.log, ws[m + 1].order);
    assert Book(d)[r.order].id == r.order;
  }

  lemma SamePrefix(d: Disk, front: seq<Write>, ws: seq<Write>, k: nat)
    requires front <= ws && k <= |front| && CrashReachable(d, front, k)
    ensures CrashReachable(d, ws, k)
  {
    assert ws[..k] == front[..k];
  }

  lemma CommitSteps(d: Disk, run: Run, commitId: string)
    requires commitId != "" && forall b :: b in d.wal && b.CommitIntent? ==> b.commitId != commitId
    ensures run.fills == [] ==>
      Takes(State(d, Trading(run)), State(Apply(d, SavePortfolio(run.strategy, run.memory)), Resting), SaveState)
    ensures run.fills != [] ==>
      var ci := IntentFor(run, commitId);
      var mid := State(Apply(d, AppendFill(ci)), Committed(run, ci));
      && Takes(State(d, Trading(run)), mid, WriteIntent(commitId))
      && Takes(mid, State(Apply(mid.disk, SavePortfolio(run.strategy, run.memory)), Finishing(run, ci, 0, false)), SaveState)
  {
  }

  /**
   * From any reachable trading state, stopping CommitRun after any number of its writes leaves a disk
   * that a protocol run reaches; so everything proved of reachable disks holds after any such crash.
   */
  lemma CommitIsPath(d: Disk, run: Run, commitId: string, k: nat)
    requires Reachable(State(d, Trading(run))) && commitId != ""
    requires forall b :: b in d.wal && b.CommitIntent? ==> b.commitId != commitId
    requires forall r :: r in run.fills ==> r.order in Book(d)
    requires k <= |CommitWrites(Book(d), run, commitId)|
    ensures CrashReachable(d, CommitWrites(Book(d), run, commitId), k)
  {
    hide *;
    CommitSteps(d, run, commitId);
    CommitWritesAre(Book(d), run, commitId);
    var ws := CommitWrites(Book(d), run, commitId);
    var st := State(d, Trading(run));
    if run.fills == [] {
      var end := State(Apply(d, ws[0]), Resting);
      ReachStep(st, end, SaveState);
      PrefixesOfOne(d, ws);
      Reached(d, ws, k, if k == 0 then st.process else end.process);
    } else {
      var ci := IntentFor(run, commitId);
      var mid := State(Apply(d, ws[0]), Committed(run, ci));
      var saved := State(Apply(mid.disk, ws[1]), Finishing(run, ci, 0, false));
      ReachStep(st, mid, WriteIntent(commitId));
      ReachStep(mid, saved, SaveState);
      PrefixesOfTwo(d, ws[..2]);
      assert ws[..2][..0] == ws[..0] && ws[..2][..1] == ws[..1] && ws[..2][..2] == ws[..2];
      if k <= 2 {
        Reached(d, ws, k, if k == 0 then st.process else if k == 1 then mid.process else saved.process);
      } else {
        var tail := FinishWrites(Book(d), ci, run.fills);
        SameBook(d, ws[0], ws[1]);
        FinishIsPath(saved.disk, saved.process, |run.fills|);
        assert run.fills[..|run.fills|] == run.fills;
        FinishedPrefix(saved.disk, saved.process, tail, |run.fills|, k - 2);
        ShiftedPrefix(d, ws, tail, saved.disk, k);
      }
    }
  }

  lemma CommitWritesAre(book: map<string, Order>, run: Run, commitId: string)
    requires forall r :: r in run.fills ==> r.order in book
    ensures var ws, ci := CommitWrites(book, run, commitId), IntentFor(run, commitId);
      && ci.CommitIntent?
      && if run.fills == [] then ws == [SavePortfolio(run.strategy, run.memory)]
         else |ws| >= 2 && ws[0] == AppendFill(ci) && ws[1] == SavePortfolio(run.strategy, run.memory)
              && ws == ws[..2] + FinishWrites(book, ci, run.fills)
  {
  }

  lemma SameBook(d: Disk, w: Write, w': Write)
    requires !w.SaveOrder? && !w'.SaveOrder?
    ensures Book(Apply(Apply(d, w), w')) == Book(d)
  {
  }

  lemma FinishedPrefix(d: Disk, p: Process, ws: seq<Write>, n: nat, k: nat)
    requires p.Finishing? && FinishedUpTo(d, p, ws, n) && k <= |ws|
    ensures CrashReachable(d, ws, k)
  {
  }

  lemma PrefixesOfOne(d: Disk, ws: seq<Write>)
    requires |ws| == 1
    ensures ApplyAll(d, ws[..0]) == d && ApplyAll(d, ws[..1]) == Apply(d, ws[0])
  {
    assert ws[..0] == [] && ws[..1] == [] + [ws[0]];
    ApplySnoc(d, [], ws[0]);
  }

  lemma ShiftedPrefix(d: Disk, ws: seq<Write>, tail: seq<Write>, mid: Disk, k: nat)
    requires 2 <= k <= |ws| && ws == ws[..2] + tail && mid == ApplyAll(d, ws[..2])
    requires CrashReachable(mid, tail, k - 2)
    ensures CrashReachable(d, ws, k)
  {
    assert ws[..k] == ws[..2] + tail[..k - 2];
    ApplyConcat(d, ws[..2], tail[..k - 2]);
  }

  // -------------------------------------------------------------------------
  // The same for recovery
  // -------------------------------------------------------------------------

  ghost predicate RecoveredUpTo(d: Disk, v: View, todo: seq<string>, ws: seq<Write>, n: nat) {
    && (forall k :: 0 <= k <= |ws| ==> CrashReachable(d, ws, k))
    && Reachable(State(ApplyAll(d, ws), Recovering(v.strategy, v, todo, n, false)))
  }

  lemma RecoverySteps(v: View, todo: seq<string>, n: nat, mid: Disk)
    requires n < |todo| && Due(v, todo[n])
    ensures var o := todo[n];
      var order := v.orders[o].(status := Outcome(v, o));
      var start, end := Recovering(v.strategy, v, todo, n, false), Recovering(v.strategy, v, todo, n + 1, false);
      if NeedsMarker(v, o) then
        var marked := State(Apply(mid, AppendFill(Marker(v, o))), Recovering(v.strategy, v, todo, n, true));
        && WritesFor(v, o) == [AppendFill(Marker(v, o)), SaveOrder(order)]
        && Takes(State(mid, start), marked, RecoveryWrite)
        && Takes(marked, State(Apply(marked.disk, SaveOrder(order)), end), RecoveryWrite)
      else
        && WritesFor(v, o) == [SaveOrder(order)]
        && Takes(State(mid, start), State(Apply(mid, SaveOrder(order)), end), RecoveryWrite)
  {
    hide Outcome;
  }

  lemma RecoveryOneMore(d: Disk, v: View, todo: seq<string>, n: nat, front: seq<Write>)
    requires n < |todo| && Due(v, todo[n]) && RecoveredUpTo(d, v, todo, front, n)
    ensures RecoveredUpTo(d, v, todo, front + WritesFor(v, todo[n]), n + 1)
  {
    hide Reachable, Inv, CrashReachable, Takes, WritesFor, Marker, NeedsMarker, Outcome;
    var o, m, mid := todo[n], |front|, ApplyAll(d, front);
    var own := WritesFor(v, o);
    var ws := front + own;
    var start := State(mid, Recovering(v.strategy, v, todo, n, false));
    RecoverySteps(v, todo, n, mid);
    var first := State(Apply(mid, own[0]),
                       if NeedsMarker(v, o) then Recovering(v.strategy, v, todo, n, true)
                       else Recovering(v.strategy, v, todo, n + 1, false));
    ReachStep(start, first, RecoveryWrite);
    ApplySnoc(d, front, own[0]);
    assert ws[..m + 1] == front + [own[0]];
    if NeedsMarker(v, o) {
      var end := State(Apply(first.disk, own[1]), Recovering(v.strategy, v, todo, n + 1, false));
      ReachStep(first, end, RecoveryWrite);
      ApplySnoc(d, front + [own[0]], own[1]);
      assert ws == front + [own[0]] + [own[1]];
    }
    forall k | 0 <= k <= |ws|
      ensures CrashReachable(d, ws, k)
    {
      if k <= m {
        SamePrefix(d, front, ws, k);
      } else if k == m + 1 {
        Reached(d, ws, k, first.process);
      } else {
        assert ws[..k] == ws;
        Reached(d, ws, k, Recovering(v.strategy, v, todo, n + 1, false));
      }
    }
    assert |own| == 1 ==> ws == ws[..m + 1];
  }

  lemma {:induction false} RecoveryPrefix(d: Disk, v: View, todo: seq<string>, n: nat)
    requires n <= |todo| && forall o :: o in todo ==> Due(v, o)
    requires Reachable(State(d, Recovering(v.strategy, v, todo, 0, false)))
    ensures forall o :: o in todo[..n] ==> o in todo
    ensures RecoveredUpTo(d, v, todo, Plan(v, todo[..n]), n)
  {
    hide Reachable, WritesFor, CrashReachable;
    assert forall o :: o in todo[..n] ==> o in todo;
    if n == 0 {
      assert Plan(v, todo[..0]) == [];
      Reached(d, [], 0, Recovering(v.strategy, v, todo, 0, false));
    } else {
      RecoveryPrefix(d, v, todo, n - 1);
      assert todo[..n][..n - 1] == todo[..n - 1];
      assert todo[n - 1] in todo;
      RecoveryOneMore(d, v, todo, n - 1, Plan(v, todo[..n - 1]));
    }
  }

  /**
   * Stopping reconcile_settling_orders after any number of its writes leaves a reachable disk; if the
   * loader refuses the log it makes none.
   */
  lemma RecoveryIsPath(d: Disk, strategy: string, todo: seq<string>, k: nat)
    requires Reachable(State(d, Resting)) && Accepted(d.wal) && Lists(ViewOf(d, strategy), todo)
    requires k <= |Plan(ViewOf(d, strategy), todo)|
    ensures CrashReachable(d, Plan(ViewOf(d, strategy), todo), k)
  {
    var v := ViewOf(d, strategy);
    var states :| IsRun(states) && states[|states| - 1] == State(d, Resting);
    MarkedOrders(states, |states| - 1);
    var begun := State(d, Recovering(strategy, v, todo, 0, false));
    assert Takes(State(d, Resting), begun, BeginRecovery(strategy, todo));
    ReachStep(State(d, Resting), begun, BeginRecovery(strategy, todo));
    hide Reachable, CrashReachable, Takes, Inv;
    RecoveryPrefix(d, v, todo, |todo|);
    assert todo[..|todo|] == todo;
  }
}
