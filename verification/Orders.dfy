/** The order ledger (orders.jsonl): append-only snapshots, the last one per order wins. */
module Orders {
  import opened Sequences
  import opened FillRecords

  datatype Status =
    | PendingPrice | Settling
    | Executed | Expired | FailedPrice | FailedReconciliation | Cancelled

  predicate Terminal(s: Status) { s != PendingPrice && s != Settling }

  datatype Order = Order(
    id: string, strategy: string, portfolioId: string, portfolioVersion: string, ticker: string,
    session: string, action: Action, status: Status)

  /** The current snapshot of every order. */
  function Current(log: seq<Order>): (orders: map<string, Order>)
    ensures forall id :: id in orders ==> orders[id].id == id
  {
    if log == [] then map[]
    else
      var last := log[|log| - 1];
      Current(log[..|log| - 1])[last.id := last]
  }

  lemma CurrentAfterSave(log: seq<Order>, o: Order)
    ensures Current(log + [o]) == Current(log)[o.id := o]
  {
    assert (log + [o])[..|log|] == log;
  }

  /** Position `i` holds the latest snapshot of its order. */
  ghost predicate LatestAt(log: seq<Order>, i: int) {
    0 <= i < |log| && forall j :: i < j < |log| ==> log[j].id != log[i].id
  }

  /** An order is known exactly if some snapshot names it, and then the latest snapshot counts. */
  lemma {:induction false} LatestSnapshotWins(log: seq<Order>, id: string)
    ensures id in Current(log) <==> exists i :: LatestAt(log, i) && log[i].id == id
    ensures forall i :: LatestAt(log, i) && log[i].id == id ==> id in Current(log) && Current(log)[id] == log[i]
  {
    if log != [] {
      var n := |log| - 1;
      var front := log[..n];
      LatestSnapshotWins(front, id);
      assert LatestAt(log, n);
      if log[n].id == id {
        assert forall i :: LatestAt(log, i) && log[i].id == id ==> i == n;
      } else {
        assert forall i :: 0 <= i < n && log[i].id == id ==> (LatestAt(log, i) <==> LatestAt(front, i));
      }
    }
  }

  method LoadOrders(log: seq<Order>) returns (orders: map<string, Order>)
    ensures orders == Current(log)
  {
    orders := map[];
    for i := 0 to |log|
      invariant orders == Current(log[..i])
    {
      assert log[..i + 1] == log[..i] + [log[i]];
      CurrentAfterSave(log[..i], log[i]);
      orders := orders[log[i].id := log[i]];
    }
    assert log[..|log|] == log;
  }

  /** `a < b` on ISO dates, which Python compares as strings. */
  predicate Before(a: string, b: string) {
    b != "" && (a == "" || a[0] < b[0] || (a[0] == b[0] && Before(a[1..], b[1..])))
  }

  /**
   * Whether expire_stale_orders retires an order. `closed` says whether today's session has closed;
   * None when the calendar is unavailable, which never expires today's orders.
   */
  predicate Stale(o: Order, today: string, closed: Option<bool>) {
    o.status == PendingPrice
    && (Before(o.session, today) || (o.session == today && closed == Some(true)))
  }

  /** Comparing texts goes by the first character that differs; a proper prefix comes first. */
  lemma {:induction false} BeforeIff(a: string, b: string)
    ensures Before(a, b) <==>
            || (|a| < |b| && b[..|a|] == a)
            || (exists i :: 0 <= i < |a| && i < |b| && a[..i] == b[..i] && a[i] < b[i])
  {
    if a != [] && b != [] && a[0] == b[0] {
      var a', b' := a[1..], b[1..];
      BeforeIff(a', b');
      SameHead(a, b);
      if i :| 0 <= i < |a'| && i < |b'| && a'[..i] == b'[..i] && a'[i] < b'[i] {
        assert a[..i + 1] == [a[0]] + a'[..i] && b[..i + 1] == [b[0]] + b'[..i];
      }
      if i :| 0 <= i < |a| && i < |b| && a[..i] == b[..i] && a[i] < b[i] {
        assert i > 0;
        assert a'[..i - 1] == a[..i][1..] && b'[..i - 1] == b[..i][1..];
      }
    } else if a != [] && b != [] && a[0] < b[0] {
      assert a[..0] == b[..0];
    }
  }

  lemma SameHead(a: string, b: string)
    requires a != [] && b != [] && a[0] == b[0]
    ensures |a| < |b| && b[..|a|] == a <==> |a[1..]| < |b[1..]| && b[1..][..|a[1..]|] == a[1..]
  {
    if |a| < |b| {
      assert b[..|a|] == [b[0]] + b[1..][..|a| - 1] && a == [a[0]] + a[1..];
      assert b[1..][..|a| - 1] == b[..|a|][1..];
    }
  }
}
