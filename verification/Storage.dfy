/** What survives a crash, and the durable writes that change it. */
module Storage {
  import opened Sequences
  import opened FillRecords
  import opened Orders

  datatype Disk = Disk(log: seq<Order>, wal: seq<Body>, saved: map<string, Portfolio>)

  /** One durable write: a line appended under a lock, or an atomic file replacement. */
  datatype Write =
    | SaveOrder(order: Order)
    | AppendFill(body: Body)
    | SavePortfolio(strategy: string, portfolio: Portfolio)

  const FRESH_PORTFOLIO := Portfolio([], 0)

  function SavedBy(d: Disk, strategy: string): Portfolio {
    if strategy in d.saved then d.saved[strategy] else FRESH_PORTFOLIO
  }

  function Apply(d: Disk, w: Write): Disk {
    match w
    case SaveOrder(order) => d.(log := d.log + [order])
    case AppendFill(body) => d.(wal := d.wal + [body])
    case SavePortfolio(strategy, portfolio) => d.(saved := d.saved[strategy := portfolio])
  }

  function ApplyAll(d: Disk, ws: seq<Write>): Disk {
    if ws == [] then d else Apply(ApplyAll(d, ws[..|ws| - 1]), ws[|ws| - 1])
  }

  lemma ApplySnoc(d: Disk, ws: seq<Write>, w: Write)
    ensures ApplyAll(d, ws + [w]) == Apply(ApplyAll(d, ws), w)
  {
    assert (ws + [w])[..|ws|] == ws;
  }

  lemma {:induction false} ApplyConcat(d: Disk, ws: seq<Write>, vs: seq<Write>)
    ensures ApplyAll(d, ws + vs) == ApplyAll(ApplyAll(d, ws), vs)
  {
    if vs == [] {
      assert ws + vs == ws;
    } else {
      var front := vs[..|vs| - 1];
      ApplyConcat(d, ws, front);
      assert ws + vs == (ws + front) + [vs[|vs| - 1]];
      ApplySnoc(d, ws + front, vs[|vs| - 1]);
    }
  }
}
