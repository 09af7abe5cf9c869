/** reconcile_strategy: an independent replay of the trade rows, compared with the portfolio state. */
module Replay {
  import opened Sequences
  import opened Rounding
  import opened FillRecords
  import opened Trading

  datatype RowKind = Traded(action: Action) | SplitRow

  /** A row of trades.csv; an empty net_cash_effect is None. */
  datatype Row = Row(strategy: string, stamp: int, kind: RowKind, ticker: string,
                     shares: real, price: real, value: real, cost: real, net: Option<real>)

  const START_CAPITAL := 10000.0
  const ALERT_THRESHOLD := 1.0
  const SHARE_TOLERANCE := 0.000001

  datatype Ledger = Ledger(cash: real, shares: map<string, real>, lastPrice: map<string, real>)

  datatype ShareDiff = ShareDiff(ticker: string, saved: real, replayed: real, usd: real)

  datatype Report = Report(cashTrades: real, cashDiff: real, shareDiffs: seq<ShareDiff>, deviation: real, ok: bool)

  // -------------------------------------------------------------------------
  // The replay
  // -------------------------------------------------------------------------

  function CashEffect(r: Row): real {
    if r.net.Some? then r.net.value
    else if r.kind == Traded(Sell) then r.value - r.cost
    else -(r.value + r.cost)
  }

  function SharesOf(l: Ledger, ticker: string): real { if ticker in l.shares then l.shares[ticker] else 0.0 }

  function ReplayRow(l: Ledger, r: Row): Ledger {
    if r.kind.SplitRow? then l.(shares := l.shares[r.ticker := SharesOf(l, r.ticker) + r.shares])
    else Ledger(l.cash + CashEffect(r),
                l.shares[r.ticker := if r.kind == Traded(Sell) then 0.0 else SharesOf(l, r.ticker) + r.shares],
                l.lastPrice[r.ticker := r.price])
  }

  function ReplayAll(rows: seq<Row>): Ledger {
    if rows == [] then Ledger(START_CAPITAL, map[], map[])
    else ReplayRow(ReplayAll(rows[..|rows| - 1]), rows[|rows| - 1])
  }

  function Concerns(strategy: string, created: int): Row -> bool {
    (r: Row) => r.strategy == strategy && r.stamp >= created
  }

  /** Insertion after all rows that are not later keeps equal stamps in file order. */
  function Insert(rows: seq<Row>, r: Row): seq<Row> {
    if rows == [] || rows[|rows| - 1].stamp <= r.stamp then rows + [r]
    else Insert(rows[..|rows| - 1], r) + [rows[|rows| - 1]]
  }

  function StableSort(rows: seq<Row>): seq<Row> {
    if rows == [] then [] else Insert(StableSort(rows[..|rows| - 1]), rows[|rows| - 1])
  }

  ghost predicate Sorted(rows: seq<Row>) {
    forall i, j :: 0 <= i < j < |rows| ==> rows[i].stamp <= rows[j].stamp
  }

  lemma SortedFront(rows: seq<Row>)
    requires Sorted(rows) && rows != []
    ensures Sorted(rows[..|rows| - 1])
    ensures |rows| > 1 ==> rows[|rows| - 2].stamp <= rows[|rows| - 1].stamp
  {
  }

  lemma {:induction false} SortedIsKept(rows: seq<Row>)
    requires Sorted(rows)
    ensures StableSort(rows) == rows
  {
    if rows != [] {
      hide Sorted;
      var front, last := rows[..|rows| - 1], rows[|rows| - 1];
      SortedFront(rows);
      SortedIsKept(front);
      assert rows == front + [last];
    }
  }

  lemma {:induction false} InsertKeepsRows(rows: seq<Row>, r: Row)
    ensures multiset(Insert(rows, r)) == multiset(rows) + multiset{r}
    ensures forall x :: x in Insert(rows, r) <==> x in rows || x == r
  {
    if rows != [] && rows[|rows| - 1].stamp > r.stamp {
      var front := rows[..|rows| - 1];
      InsertKeepsRows(front, r);
      assert rows == front + [rows[|rows| - 1]];
    }
  }

  lemma {:induction false} InsertSorts(rows: seq<Row>, r: Row)
    requires Sorted(rows)
    ensures Sorted(Insert(rows, r))
  {
    if rows != [] && rows[|rows| - 1].stamp > r.stamp {
      var front, last := rows[..|rows| - 1], rows[|rows| - 1];
      InsertSorts(front, r);
      InsertKeepsRows(front, r);
      var s := Insert(front, r);
      forall i | 0 <= i < |s|
        ensures s[i].stamp <= last.stamp
      {
        assert s[i] in s;
      }
    }
  }

  /** The replayed rows are sorted by time and are the selected ones, none lost and none added. */
  lemma {:induction false} StableSortSorts(rows: seq<Row>)
    ensures Sorted(StableSort(rows)) && multiset(StableSort(rows)) == multiset(rows)
  {
    hide Insert, Sorted;
    if rows == [] {
      assert StableSort(rows) == [];
      EmptySorted();
    } else {
      var front := rows[..|rows| - 1];
      StableSortSorts(front);
      InsertSorts(StableSort(front), rows[|rows| - 1]);
      InsertKeepsRows(StableSort(front), rows[|rows| - 1]);
      assert rows == front + [rows[|rows| - 1]];
    }
  }

  /** The rows with one time stamp. */
  function AtTime(stamp: int): Row -> bool { (r: Row) => r.stamp == stamp }

  lemma {:induction false} InsertIsStable(rows: seq<Row>, r: Row, stamp: int)
    requires Sorted(rows)
    ensures Filter(Insert(rows, r), AtTime(stamp)) ==
            if r.stamp == stamp then Filter(rows, AtTime(stamp)) + [r] else Filter(rows, AtTime(stamp))
  {
    hide Filter;
    if rows == [] || rows[|rows| - 1].stamp <= r.stamp {
      FilterSnoc(rows, r, AtTime(stamp));
    } else {
      var front, last := rows[..|rows| - 1], rows[|rows| - 1];
      InsertIsStable(front, r, stamp);
      assert rows == front + [last];
      FilterSnoc(Insert(front, r), last, AtTime(stamp));
      FilterSnoc(front, last, AtTime(stamp));
    }
  }

  /** Rows with equal times keep the order of the file. */
  lemma {:induction false} SortIsStable(rows: seq<Row>, stamp: int)
    ensures Filter(StableSort(rows), AtTime(stamp)) == Filter(rows, AtTime(stamp))
  {
    hide Filter, Insert, Sorted;
    if rows == [] {
      assert StableSort(rows) == rows;
    } else {
      var front, last := rows[..|rows| - 1], rows[|rows| - 1];
      SortIsStable(front, stamp);
      StableSortSorts(front);
      InsertIsStable(StableSort(front), last, stamp);
      assert rows == front + [last];
      FilterSnoc(front, last, AtTime(stamp));
    }
  }

  lemma EmptySorted()
    ensures Sorted([])
  {
  }

  function Selected(file: seq<Row>, strategy: string, created: int): seq<Row> {
    StableSort(Filter(file, Concerns(strategy, created)))
  }

  // -------------------------------------------------------------------------
  // The comparison
  // -------------------------------------------------------------------------

  function Held(a: Account, ticker: string): real {
    if ticker in a.positions then a.positions[ticker].shares else 0.0
  }

  predicate Differs(a: Account, l: Ledger, ticker: string) {
    Abs(Held(a, ticker) - SharesOf(l, ticker)) > SHARE_TOLERANCE
  }

  /** The price of a difference: the first of last, average and replayed price that is not zero. */
  function PriceFor(a: Account, l: Ledger, ticker: string): real {
    if ticker in a.positions && a.positions[ticker].lastPrice != 0.0 then a.positions[ticker].lastPrice
    else if ticker in a.positions && a.positions[ticker].avgPrice != 0.0 then a.positions[ticker].avgPrice
    else if ticker in l.lastPrice then l.lastPrice[ticker]
    else 0.0
  }

  function Diff(a: Account, l: Ledger, ticker: string): ShareDiff {
    ShareDiff(ticker, Held(a, ticker), SharesOf(l, ticker),
              Worth(Abs(Held(a, ticker) - SharesOf(l, ticker)), PriceFor(a, l, ticker)))
  }

  function TotalUsd(diffs: seq<ShareDiff>): real {
    if diffs == [] then 0.0 else TotalUsd(diffs[..|diffs| - 1]) + diffs[|diffs| - 1].usd
  }

  ghost predicate Lists(diffs: seq<ShareDiff>, ticker: string) {
    exists i :: 0 <= i < |diffs| && diffs[i].ticker == ticker
  }

  /** What a report says about a state and a replay. */
  ghost predicate Reports(rep: Report, a: Account, l: Ledger) {
    && rep.cashTrades == l.cash && rep.cashDiff == a.cash - l.cash
    && (forall t :: Differs(a, l, t) <==> Lists(rep.shareDiffs, t))
    && (forall i :: 0 <= i < |rep.shareDiffs| ==> rep.shareDiffs[i] == Diff(a, l, rep.shareDiffs[i].ticker))
    && (forall i, j :: 0 <= i < j < |rep.shareDiffs| ==> rep.shareDiffs[i].ticker != rep.shareDiffs[j].ticker)
    && rep.deviation == Abs(rep.cashDiff) + TotalUsd(rep.shareDiffs)
    && (rep.ok <==> rep.deviation <= ALERT_THRESHOLD)
  }

  method ReconcileStrategy(file: seq<Row>, a: Account, strategy: string, created: int) returns (rep: Report)
    ensures Reports(rep, a, ReplayAll(Selected(file, strategy, created)))
  {
    hide Filter, StableSort, Selected, Differs, PriceFor, Worth;
    var rows := Selected(file, strategy, created);
    var l := Ledger(START_CAPITAL, map[], map[]);
    for i := 0 to |rows|
      invariant l == ReplayAll(rows[..i])
    {
      assert rows[..i + 1][..i] == rows[..i];
      l := ReplayRow(l, rows[i]);
    }
    assert rows[..|rows|] == rows;
    var diffs := CompareShares(a, l);
    var cashDiff := a.cash - l.cash;
    var deviation := Abs(cashDiff) + TotalUsd(diffs);
    rep := Report(l.cash, cashDiff, diffs, deviation, deviation <= ALERT_THRESHOLD);
  }

  method CompareShares(a: Account, l: Ledger) returns (diffs: seq<ShareDiff>)
    ensures forall t :: Differs(a, l, t) <==> Lists(diffs, t)
    ensures forall i :: 0 <= i < |diffs| ==> diffs[i] == Diff(a, l, diffs[i].ticker)
    ensures forall i, j :: 0 <= i < j < |diffs| ==> diffs[i].ticker != diffs[j].ticker
  {
    UnknownTicker(a, l);
    hide Differs, PriceFor, Worth, Held, SharesOf;
    diffs := [];
    var todo := l.shares.Keys + a.positions.Keys;
    while todo != {}
      invariant forall t :: Differs(a, l, t) <==> ((t in todo && Differs(a, l, t)) || Lists(diffs, t))
      invariant forall i :: 0 <= i < |diffs| ==> diffs[i] == Diff(a, l, diffs[i].ticker) && diffs[i].ticker !in todo
      invariant forall i, j :: 0 <= i < j < |diffs| ==> diffs[i].ticker != diffs[j].ticker
    {
      var t :| t in todo;
      todo := todo - {t};
      if Differs(a, l, t) {
        ghost var before := diffs;
        diffs := diffs + [Diff(a, l, t)];
        assert diffs[|before|].ticker == t;
        assert forall i :: 0 <= i < |before| ==> diffs[i] == before[i];
      }
    }
  }

  lemma UnknownTicker(a: Account, l: Ledger)
    ensures forall t :: Differs(a, l, t) ==> t in l.shares.Keys + a.positions.Keys
  {
  }

  /** A replay whose share counts are all within tolerance is reported OK exactly if cash is within a dollar. */
  lemma OkWithinThreshold(rep: Report, a: Account, l: Ledger)
    requires Reports(rep, a, l) && forall t :: !Differs(a, l, t)
    ensures rep.shareDiffs == [] && (rep.ok <==> -1.0 <= a.cash - l.cash <= 1.0)
  {
    FirstListed(rep.shareDiffs);
  }

  lemma FirstListed(diffs: seq<ShareDiff>)
    ensures diffs != [] ==> Lists(diffs, diffs[0].ticker)
  {
  }

  // -------------------------------------------------------------------------
  // Histories of trades
  // -------------------------------------------------------------------------

  /** An operation carried out at a time. */
  datatype Deed = Deed(op: Op, stamp: int)

  const OPENING := Account(START_CAPITAL, map[], map[], 0)

  /** The state and the trade rows after a history, if no buy was made of a ticker already held. */
  datatype History = History(account: Account, rows: seq<Row>)

  function RowOf(t: Ticket, strategy: string, stamp: int): Row {
    Row(strategy, stamp, Traded(t.action), t.ticker, t.shares, t.price, t.value, t.cost, Some(t.net))
  }

  predicate Permitted(a: Account, op: Op) { op.DoBuy? ==> op.ticker !in a.positions }

  function After(deeds: seq<Deed>, strategy: string): Option<History> {
    if deeds == [] then Some(History(OPENING, []))
    else
      var d := deeds[|deeds| - 1];
      match After(deeds[..|deeds| - 1], strategy)
      case None => None
      case Some(h) =>
        if !Permitted(h.account, d.op) then None
        else
          var done := Perform(h.account, d.op);
          Some(History(done.account, h.rows + if done.ticket.Some? then [RowOf(done.ticket.value, strategy, d.stamp)] else []))
  }

  /** How far the replayed share count of a ticker may be off. */
  function Slack(a: Account, ticker: string): real {
    if ticker !in a.positions then 0.0
    else if a.positions[ticker].partial then 0.0000005
    else SHARE_TOLERANCE
  }

  ghost predicate SharesAgree(a: Account, l: Ledger) {
    && (forall t :: Abs(Held(a, t) - SharesOf(l, t)) <= Slack(a, t))
    && (forall t :: t in a.positions ==> a.positions[t].shares >= 0.0)
  }

  ghost predicate CashAgrees(a: Account, l: Ledger, trades: nat) {
    a.cash >= 0.0 && Abs(a.cash - l.cash) <= 0.005 * trades as real
  }

  lemma ReplaySnoc(rows: seq<Row>, r: Row)
    ensures ReplayAll(rows + [r]) == ReplayRow(ReplayAll(rows), r)
  {
    assert (rows + [r])[..|rows|] == rows;
  }

  lemma StepKeepsCash(a: Account, l: Ledger, op: Op, strategy: string, stamp: int, n: nat)
    requires CashAgrees(a, l, n) && SharesAgree(a, l)
    ensures var done := Perform(a, op);
            if done.ticket.Some? then
              CashAgrees(done.account, ReplayRow(l, RowOf(done.ticket.value, strategy, stamp)), n + 1)
            else CashAgrees(done.account, l, n)
  {
    hide Round2, Round4, Round6, RoundToInt, Opened, Topped, Gap, Worth;
    match op {
      case DoBuy(_, target, price, signal, move, _, _) =>
        if SizeBuy(a.cash, target, price, signal, move).Spend? {
          var v := SizeBuy(a.cash, target, price, signal, move).value;
          BuyAffordable(a.cash, target, price, signal, move);
          RoundError(-(v + TradeCost(v, false)));
        }
      case DoSell(ticker, price, _) =>
        if ticker in a.positions && price.Some? {
          var v := Worth(a.positions[ticker].shares, price.value);
          SaleBrings(a.positions[ticker].shares, price.value);
          RoundError(v - TradeCost(v, true));
        }
      case DoFill(ticker, _, _, _) =>
        if ticker in a.positions && SizeFill(a.cash, a.positions[ticker].remaining).Some? {
          var v := SizeFill(a.cash, a.positions[ticker].remaining).value;
          FillAffordable(a.cash, a.positions[ticker].remaining);
          RoundError(-(v + TradeCost(v, false)));
        }
    }
  }

  lemma SaleBrings(shares: real, price: real)
    requires shares >= 0.0 && price >= 0.0
    ensures Worth(shares, price) - TradeCost(Worth(shares, price), true) >= 0.0
  {
  }

  /** A trade in one ticker leaves the share counts of all others alone. */
  lemma OneTickerTraded(a: Account, a': Account, l: Ledger, r: Row, ticker: string)
    requires SharesAgree(a, l) && r.kind.Traded? && r.ticker == ticker
    requires a'.positions - {ticker} == a.positions - {ticker}
    requires Abs(Held(a', ticker) - SharesOf(ReplayRow(l, r), ticker)) <= Slack(a', ticker)
    requires ticker in a'.positions ==> a'.positions[ticker].shares >= 0.0
    ensures SharesAgree(a', ReplayRow(l, r))
  {
    forall t
      ensures Abs(Held(a', t) - SharesOf(ReplayRow(l, r), t)) <= Slack(a', t)
      ensures t in a'.positions ==> a'.positions[t].shares >= 0.0
    {
      if t != ticker {
        assert t in a'.positions <==> t in a'.positions - {ticker};
        assert t in a.positions <==> t in a.positions - {ticker};
        assert t in a.positions ==> a.positions[t] == (a.positions - {ticker})[t] == a'.positions[t];
        assert Abs(Held(a, t) - SharesOf(l, t)) <= Slack(a, t);
        assert SharesOf(ReplayRow(l, r), t) == SharesOf(l, t);
      }
    }
  }

  lemma BuyKeepsShares(a: Account, l: Ledger, op: Op, strategy: string, stamp: int)
    requires SharesAgree(a, l) && op.DoBuy? && Permitted(a, op) && Perform(a, op).ticket.Some?
    ensures SharesAgree(Perform(a, op).account, ReplayRow(l, RowOf(Perform(a, op).ticket.value, strategy, stamp)))
  {
    hide Round2, Round4, Round6, RoundToInt, Gap, Worth, Min, SharesAgree;
    NothingHeld(a, l, op.ticker);
    SharesBought(SizeBuy(a.cash, op.target, op.price, op.signal, op.move).value, op.price.value);
    OneTickerTraded(a, Perform(a, op).account, l, RowOf(Perform(a, op).ticket.value, strategy, stamp), op.ticker);
  }

  lemma NothingHeld(a: Account, l: Ledger, ticker: string)
    requires SharesAgree(a, l) && ticker !in a.positions
    ensures SharesOf(l, ticker) == 0.0
  {
  }

  lemma SellKeepsShares(a: Account, l: Ledger, op: Op, strategy: string, stamp: int)
    requires SharesAgree(a, l) && op.DoSell? && Perform(a, op).ticket.Some?
    ensures SharesAgree(Perform(a, op).account, ReplayRow(l, RowOf(Perform(a, op).ticket.value, strategy, stamp)))
  {
    hide Round2, Round4, Round6, RoundToInt, Worth, SharesAgree;
    OneTickerTraded(a, Perform(a, op).account, l, RowOf(Perform(a, op).ticket.value, strategy, stamp), op.ticker);
  }

  lemma FillKeepsShares(a: Account, l: Ledger, op: Op, strategy: string, stamp: int)
    requires SharesAgree(a, l) && op.DoFill? && Perform(a, op).ticket.Some?
    ensures SharesAgree(Perform(a, op).account, ReplayRow(l, RowOf(Perform(a, op).ticket.value, strategy, stamp)))
  {
    hide Round2, Round4, Round6, RoundToInt, Worth, SharesAgree, Min;
    HeldAgrees(a, l, op.ticker);
    SharesBought(SizeFill(a.cash, a.positions[op.ticker].remaining).value, op.price.value);
    OneTickerTraded(a, Perform(a, op).account, l, RowOf(Perform(a, op).ticket.value, strategy, stamp), op.ticker);
  }

  lemma HeldAgrees(a: Account, l: Ledger, ticker: string)
    requires SharesAgree(a, l) && ticker in a.positions
    ensures Abs(Held(a, ticker) - SharesOf(l, ticker)) <= Slack(a, ticker) && a.positions[ticker].shares >= 0.0
  {
  }

  lemma StepKeepsShares(a: Account, l: Ledger, op: Op, strategy: string, stamp: int)
    requires SharesAgree(a, l) && Permitted(a, op)
    ensures var done := Perform(a, op);
            SharesAgree(done.account,
                        if done.ticket.Some? then ReplayRow(l, RowOf(done.ticket.value, strategy, stamp)) else l)
  {
    if Perform(a, op).ticket.None? {
      NoTicket(a, l, op);
    } else {
      hide Perform, SharesAgree, ReplayRow;
      match op {
        case DoBuy(_, _, _, _, _, _, _) => BuyKeepsShares(a, l, op, strategy, stamp);
        case DoSell(_, _, _) => SellKeepsShares(a, l, op, strategy, stamp);
        case DoFill(_, _, _, _) => FillKeepsShares(a, l, op, strategy, stamp);
      }
    }
  }

  /** Without a trade, at most a partial position is closed off. */
  lemma NoTicket(a: Account, l: Ledger, op: Op)
    requires SharesAgree(a, l) && Perform(a, op).ticket.None?
    ensures SharesAgree(Perform(a, op).account, l)
  {
    hide Round2, Round4, Round6, RoundToInt, Worth, Gap, SizeBuy, SizeFill;
    var a' := Perform(a, op).account;
    assert forall t :: Held(a', t) == Held(a, t) && Slack(a, t) <= Slack(a', t);
  }

  lemma SharesBought(v: real, p: Price)
    requires v >= 0.0
    ensures v / p >= 0.0 && Abs(Round6(v / p) - v / p) <= 0.0000005
  {
    RoundError(v / p);
  }

  lemma {:induction false} HistoryAgrees(deeds: seq<Deed>, strategy: string)
    requires After(deeds, strategy).Some?
    ensures var h := After(deeds, strategy).value;
            && |h.rows| <= |deeds|
            && CashAgrees(h.account, ReplayAll(h.rows), |h.rows|) && SharesAgree(h.account, ReplayAll(h.rows))
  {
    hide Perform, ReplayRow, CashAgrees, SharesAgree;
    if deeds == [] {
      NothingTraded();
    } else {
      var front, d := deeds[..|deeds| - 1], deeds[|deeds| - 1];
      HistoryAgrees(front, strategy);
      var h := After(front, strategy).value;
      StepKeepsCash(h.account, ReplayAll(h.rows), d.op, strategy, d.stamp, |h.rows|);
      StepKeepsShares(h.account, ReplayAll(h.rows), d.op, strategy, d.stamp);
      var done := Perform(h.account, d.op);
      if done.ticket.Some? {
        ReplaySnoc(h.rows, RowOf(done.ticket.value, strategy, d.stamp));
      } else {
        assert h.rows + [] == h.rows;
      }
    }
  }

  lemma NothingTraded()
    ensures CashAgrees(OPENING, ReplayAll([]), 0) && SharesAgree(OPENING, ReplayAll([]))
  {
  }

  lemma {:induction false} RowsInOrder(deeds: seq<Deed>, strategy: string, created: int)
    requires After(deeds, strategy).Some?
    requires forall i, j :: 0 <= i < j < |deeds| ==> deeds[i].stamp <= deeds[j].stamp
    ensures var rows := After(deeds, strategy).value.rows;
            Sorted(rows) && forall i :: 0 <= i < |rows| ==> exists k :: 0 <= k < |deeds| && rows[i].stamp == deeds[k].stamp
  {
    if deeds != [] {
      hide Perform;
      var n := |deeds| - 1;
      RowsInOrder(deeds[..n], strategy, created);
      var before, rows := After(deeds[..n], strategy).value.rows, After(deeds, strategy).value.rows;
      forall i | 0 <= i < |rows|
        ensures exists k :: 0 <= k < |deeds| && rows[i].stamp == deeds[k].stamp
        ensures i < |before| ==> rows[i] == before[i]
        ensures rows[i].stamp <= deeds[n].stamp
        ensures i >= |before| ==> rows[i].stamp == deeds[n].stamp
      {
        if i < |before| {
          var k :| 0 <= k < n && before[i].stamp == deeds[..n][k].stamp;
          assert rows[i].stamp == deeds[k].stamp;
        } else {
          assert rows[i].stamp == deeds[n].stamp;
        }
      }
    }
  }

  /**
   * Two bookkeepers agree. Over any history of buys of tickers not held, sells and pyramid fills, cash
   * never goes negative; the replayed cash is off by at most half a cent a trade and every replayed
   * share count by at most 1e-6; so up to 200 trades the report is OK.
   */
  lemma HistoryReconciles(deeds: seq<Deed>, strategy: string, file: seq<Row>, created: int, rep: Report)
    requires After(deeds, strategy).Some?
    requires forall i, j :: 0 <= i < j < |deeds| ==> deeds[i].stamp <= deeds[j].stamp
    requires Filter(file, Concerns(strategy, created)) == After(deeds, strategy).value.rows
    requires Reports(rep, After(deeds, strategy).value.account, ReplayAll(Selected(file, strategy, created)))
    ensures
      var h := After(deeds, strategy).value;
      && h.account.cash >= 0.0
      && Abs(rep.cashDiff) <= 0.005 * |h.rows| as real
      && rep.shareDiffs == []
      && (|h.rows| <= 200 ==> rep.ok)
  {
    hide After, Filter, ReplayAll;
    HistoryAgrees(deeds, strategy);
    RowsInOrder(deeds, strategy, created);
    var h := After(deeds, strategy).value;
    SortedIsKept(h.rows);
    WithinTolerance(h.account, ReplayAll(h.rows));
    OkWithinThreshold(rep, h.account, ReplayAll(h.rows));
  }

  lemma WithinTolerance(a: Account, l: Ledger)
    requires SharesAgree(a, l)
    ensures forall t :: !Differs(a, l, t)
  {
    assert forall t :: Slack(a, t) <= SHARE_TOLERANCE;
  }

  // -------------------------------------------------------------------------
  // Rows from elsewhere, old rows and splits
  // -------------------------------------------------------------------------

  /** Exactly the rows of the strategy from its creation on are replayed, and from 10,000 in cash. */
  lemma SelectedRows(file: seq<Row>, strategy: string, created: int)
    ensures forall r :: r in Selected(file, strategy, created) <==> r in file && r.strategy == strategy && r.stamp >= created
    ensures ReplayAll([]) == Ledger(10000.0, map[], map[])
  {
    var kept := Filter(file, Concerns(strategy, created));
    FilterMembers(file, Concerns(strategy, created));
    StableSortSorts(kept);
    SameMembers(StableSort(kept), kept);
  }

  lemma SameMembers(a: seq<Row>, b: seq<Row>)
    requires multiset(a) == multiset(b)
    ensures forall r :: r in a <==> r in b
  {
    forall r
      ensures r in a <==> r in b
    {
      assert r in a <==> r in multiset(a);
      assert r in b <==> r in multiset(b);
    }
  }

  /** A row from before the net column existed replays to the same cash, to one and a half cents. */
  lemma OldRowsAgree(l: Ledger, action: Action, ticker: string, s: real, p: Price, v: real, session: string,
                     strategy: string, stamp: int)
    requires action != UnknownAction
    ensures
      var row := RowOf(Stub(action, ticker, s, p, v, session), strategy, stamp);
      var replayed, without := ReplayRow(l, row), ReplayRow(l, row.(net := None));
      && -0.015 <= replayed.cash - without.cash <= 0.015
      && replayed.shares == without.shares && replayed.lastPrice == without.lastPrice == l.lastPrice[ticker := Round2(p)]
  {
    hide Round2, Round4, Round6;
    var c := TradeCost(v, action == Sell);
    RoundError(v);
    RoundError(c);
    RoundError(if action == Sell then v - c else -(v + c));
  }

  /** The state after a split, as far as the bookkeeper looks at it. */
  function Split(a: Account, ticker: string, extra: real): Account
    requires ticker in a.positions
  {
    a.(positions := a.positions[ticker := a.positions[ticker].(shares := a.positions[ticker].shares + extra)])
  }

  /** A split row moves no cash, and keeps the replayed share counts as far from the state as they were. */
  lemma SplitKeepsPace(a: Account, l: Ledger, r: Row)
    requires r.kind.SplitRow? && r.ticker in a.positions
    ensures
      var a', l' := Split(a, r.ticker, r.shares), ReplayRow(l, r);
      && l'.cash == l.cash && l'.lastPrice == l.lastPrice
      && forall t :: Held(a', t) - SharesOf(l', t) == Held(a, t) - SharesOf(l, t)
  {
  }

  /** After the sale of a ticker nothing of it is left, whatever was replayed before. */
  lemma SaleClears(l: Ledger, r: Row)
    requires r.kind == Traded(Sell)
    ensures SharesOf(ReplayRow(l, r), r.ticker) == 0.0 && forall t :: t != r.ticker ==> SharesOf(ReplayRow(l, r), t) == SharesOf(l, t)
  {
  }

  // -------------------------------------------------------------------------
  // What is reported
  // -------------------------------------------------------------------------

  /**
   * A share count off by more than a millionth is listed with its worth at the last price, else the average
   * price, else the last replayed one; and a report with a difference worth over a dollar is not OK.
   */
  lemma DifferenceReported(rep: Report, a: Account, l: Ledger, t: string)
    requires Reports(rep, a, l)
    requires (forall x :: x in a.positions ==> a.positions[x].lastPrice >= 0.0 && a.positions[x].avgPrice >= 0.0)
    requires (forall x :: x in l.lastPrice ==> l.lastPrice[x] >= 0.0)
    ensures
      var saved := if t in a.positions then a.positions[t].shares else 0.0;
      var replayed := if t in l.shares then l.shares[t] else 0.0;
      var price := if t in a.positions && a.positions[t].lastPrice != 0.0 then a.positions[t].lastPrice
                   else if t in a.positions && a.positions[t].avgPrice != 0.0 then a.positions[t].avgPrice
                   else if t in l.lastPrice then l.lastPrice[t] else 0.0;
      var off := if saved < replayed then replayed - saved else saved - replayed;
      && (off > 0.000001 <==> exists i :: 0 <= i < |rep.shareDiffs| && rep.shareDiffs[i] == ShareDiff(t, saved, replayed, off * price))
      && (off > 0.000001 && off * price > 1.0 ==> !rep.ok)
  {
    hide Reports, PriceFor, Differs;
    ReportParts(rep, a, l, t);
    hide Worth;
    PricesNonNegative(rep, a, l);
    if i :| 0 <= i < |rep.shareDiffs| && rep.shareDiffs[i].ticker == t {
      OneOfMany(rep.shareDiffs, i);
      DeviationAtLeast(rep, a, l);
    }
  }

  lemma ReportParts(rep: Report, a: Account, l: Ledger, t: string)
    requires Reports(rep, a, l)
    ensures (Abs(Held(a, t) - SharesOf(l, t)) > 0.000001) <==> exists i :: 0 <= i < |rep.shareDiffs| && rep.shareDiffs[i].ticker == t
    ensures forall i :: 0 <= i < |rep.shareDiffs| && rep.shareDiffs[i].ticker == t ==> rep.shareDiffs[i] == Diff(a, l, t)
    ensures Diff(a, l, t).usd == Abs(Held(a, t) - SharesOf(l, t)) * PriceFor(a, l, t)
    ensures PriceFor(a, l, t) ==
            if t in a.positions && a.positions[t].lastPrice != 0.0 then a.positions[t].lastPrice
            else if t in a.positions && a.positions[t].avgPrice != 0.0 then a.positions[t].avgPrice
            else if t in l.lastPrice then l.lastPrice[t] else 0.0
  {
    assert Differs(a, l, t) <==> Lists(rep.shareDiffs, t);
  }

  lemma PricesNonNegative(rep: Report, a: Account, l: Ledger)
    requires Reports(rep, a, l)
    requires (forall x :: x in a.positions ==> a.positions[x].lastPrice >= 0.0 && a.positions[x].avgPrice >= 0.0)
    requires (forall x :: x in l.lastPrice ==> l.lastPrice[x] >= 0.0)
    ensures forall i :: 0 <= i < |rep.shareDiffs| ==> rep.shareDiffs[i].usd >= 0.0
  {
    forall i | 0 <= i < |rep.shareDiffs|
      ensures rep.shareDiffs[i].usd >= 0.0
    {
      var t := rep.shareDiffs[i].ticker;
      assert rep.shareDiffs[i] == Diff(a, l, t);
      NonNegativeProduct(Abs(Held(a, t) - SharesOf(l, t)), PriceFor(a, l, t));
    }
  }

  lemma NonNegativeProduct(x: real, y: real)
    requires x >= 0.0 && y >= 0.0
    ensures Worth(x, y) >= 0.0
  {
  }

  lemma {:induction false} OneOfMany(diffs: seq<ShareDiff>, i: nat)
    requires i < |diffs| && forall k :: 0 <= k < |diffs| ==> diffs[k].usd >= 0.0
    ensures TotalUsd(diffs) >= diffs[i].usd
  {
    var front := diffs[..|diffs| - 1];
    assert forall k :: 0 <= k < |front| ==> front[k] == diffs[k];
    if i < |front| {
      OneOfMany(front, i);
    } else {
      TotalNonNegative(front);
    }
  }

  lemma {:induction false} TotalNonNegative(diffs: seq<ShareDiff>)
    requires forall k :: 0 <= k < |diffs| ==> diffs[k].usd >= 0.0
    ensures TotalUsd(diffs) >= 0.0
  {
    if diffs != [] {
      TotalNonNegative(diffs[..|diffs| - 1]);
    }
  }

  lemma DeviationAtLeast(rep: Report, a: Account, l: Ledger)
    requires Reports(rep, a, l)
    ensures TotalUsd(rep.shareDiffs) > 1.0 ==> !rep.ok
  {
  }
}
