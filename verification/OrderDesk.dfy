/** The order-side recovery code: dictionaries and files changed step by step. */
module OrderDesk {
  import opened Sequences
  import opened FillRecords
  import opened FillLoader
  import opened FillChain
  import opened Orders
  import opened Storage
  import opened Settlement
  import opened Overlap

  // -------------------------------------------------------------------------
  // Reading: intents by order, orders in flight by intent
  // -------------------------------------------------------------------------

  /** order_to_intent: the last commit intent of the strategy wins. */
  method MapIntents(intents: seq<Body>, strategy: string) returns (mapped: map<string, Body>)
    requires forall ci :: ci in intents ==> ci.CommitIntent?
    ensures forall o :: o in mapped <==> Mapped(intents, strategy, o).Some?
    ensures forall o :: o in mapped ==> Mapped(intents, strategy, o) == Some(mapped[o])
  {
    mapped := map[];
    for i := 0 to |intents|
      invariant forall o :: o in mapped <==> Mapped(intents[..i], strategy, o).Some?
      invariant forall o :: o in mapped ==> Mapped(intents[..i], strategy, o) == Some(mapped[o])
    {
      var ci := intents[i];
      assert intents[..i + 1][..i] == intents[..i];
      if ci.strategy == strategy {
        mapped := MapFills(mapped, ci);
      }
    }
    assert intents[..|intents|] == intents;
  }

  method MapFills(mapped: map<string, Body>, ci: Body) returns (mapped': map<string, Body>)
    requires ci.CommitIntent?
    ensures forall o :: o in mapped' <==> o in mapped || NamesOrder(ci, o)
    ensures forall o :: o in mapped' ==> mapped'[o] == if NamesOrder(ci, o) then ci else mapped[o]
  {
    mapped' := mapped;
    for j := 0 to |ci.fills|
      invariant forall o :: o in mapped' <==> o in mapped || NamedUpTo(ci, j, o)
      invariant forall o :: o in mapped' ==> mapped'[o] == if NamedUpTo(ci, j, o) then ci else mapped[o]
    {
      if ci.fills[j].order != "" {
        mapped' := mapped'[ci.fills[j].order := ci];
      }
    }
    assert forall o :: NamedUpTo(ci, |ci.fills|, o) <==> NamesOrder(ci, o);
  }

  predicate NamedUpTo(ci: Body, j: nat, o: string)
    requires ci.CommitIntent? && j <= |ci.fills|
  {
    o != "" && exists k :: 0 <= k < j && ci.fills[k].order == o
  }

  method IndexIntents(intents: seq<Body>) returns (byId: map<string, Body>)
    requires forall ci :: ci in intents ==> ci.CommitIntent?
    requires forall i, j :: 0 <= i < j < |intents| ==> intents[i].commitId != intents[j].commitId
    ensures forall ci :: ci in intents ==> ci.commitId in byId && byId[ci.commitId] == ci
    ensures forall c :: c in byId ==> byId[c] in intents && byId[c].commitId == c
  {
    byId := map[];
    for i := 0 to |intents|
      invariant forall k :: 0 <= k < i ==> intents[k].commitId in byId && byId[intents[k].commitId] == intents[k]
      invariant forall c :: c in byId ==> byId[c] in intents && byId[c].commitId == c
    {
      byId := byId[intents[i].commitId := intents[i]];
    }
  }

  /** The orders in flight, batch by batch; `cids` keeps the order in which batches were first met. */
  datatype Batches = Batches(cids: seq<string>, members: map<string, seq<string>>, loose: seq<string>)

  ghost predicate Groups(b: Batches, v: View, seen: seq<string>) {
    && Distinct(b.cids) && (forall c :: c in b.cids <==> c in b.members)
    && (forall c :: c in b.members ==> Distinct(b.members[c]) && b.members[c] != [])
    && (forall c, o :: c in b.members && o in b.members[c] ==>
          o in seen && Due(v, o) && IntentOf(v, o).Some? && IntentOf(v, o).value.commitId == c)
    && (forall o :: o in seen && Due(v, o) && IntentOf(v, o).Some? ==>
          IntentOf(v, o).value.commitId in b.members && o in b.members[IntentOf(v, o).value.commitId])
    && Distinct(b.loose)
    && (forall o :: o in b.loose <==> o in seen && Due(v, o) && IntentOf(v, o).None?)
  }

  method GroupOrders(ghost v: View, orders: map<string, Order>, strategy: string, listing: seq<string>,
                     mapped: map<string, Body>)
    returns (b: Batches)
    requires orders == v.orders && strategy == v.strategy
    requires Distinct(listing) && forall o :: o in listing <==> o in orders
    requires forall o :: o in mapped <==> IntentOf(v, o).Some?
    requires forall o :: o in mapped ==> IntentOf(v, o) == Some(mapped[o])
    ensures Groups(b, v, listing)
  {
    b := Batches([], map[], []);
    for i := 0 to |listing|
      invariant Groups(b, v, listing[..i])
    {
      var o := listing[i];
      assert listing[..i + 1] == listing[..i] + [o];
      assert o !in listing[..i] && o in orders;
      if orders[o].status == Settling && orders[o].strategy == strategy {
        b := AddOrder(v, listing[..i], b, o, mapped);
      } else {
        assert forall x :: x in listing[..i + 1] && Due(v, x) ==> x in listing[..i];
      }
    }
    assert listing[..|listing|] == listing;
  }

  method AddOrder(ghost v: View, ghost seen: seq<string>, b: Batches, o: string, mapped: map<string, Body>)
    returns (b': Batches)
    requires Groups(b, v, seen) && Due(v, o) && o !in seen
    requires forall x :: x in mapped <==> IntentOf(v, x).Some?
    requires forall x :: x in mapped ==> IntentOf(v, x) == Some(mapped[x])
    ensures Groups(b', v, seen + [o])
  {
    if o !in mapped {
      b' := b.(loose := b.loose + [o]);
      LooseAdded(v, seen, b, o);
    } else {
      var c := mapped[o].commitId;
      if c in b.members {
        b' := b.(members := b.members[c := b.members[c] + [o]]);
      } else {
        b' := b.(cids := b.cids + [c], members := b.members[c := [o]]);
      }
      assert [] + [o] == [o];
      MemberAdded(v, seen, b, b', o, c);
    }
  }

  lemma LooseAdded(v: View, seen: seq<string>, b: Batches, o: string)
    requires Groups(b, v, seen) && Due(v, o) && o !in seen && IntentOf(v, o).None?
    ensures Groups(b.(loose := b.loose + [o]), v, seen + [o])
  {
    hide IntentOf, Due;
  }

  lemma MemberAdded(v: View, seen: seq<string>, b: Batches, b': Batches, o: string, c: string)
    requires Groups(b, v, seen) && Due(v, o) && o !in seen
    requires IntentOf(v, o).Some? && IntentOf(v, o).value.commitId == c
    requires b'.loose == b.loose
    requires b'.members == b.members[c := (if c in b.members then b.members[c] else []) + [o]]
    requires b'.cids == if c in b.members then b.cids else b.cids + [c]
    ensures Groups(b', v, seen + [o])
  {
    hide IntentOf, Due;
    var own := if c in b.members then b.members[c] else [];
    assert o !in own && Distinct(own + [o]);
    assert b'.members.Keys == b.members.Keys + {c};
    assert forall x :: x in seen + [o] <==> x in seen || x == o;
    assert forall x :: x in b'.members[c] <==> x in own || x == o;
    assert forall d :: d in b'.members && d != c ==> b'.members[d] == b.members[d];
  }

  // -------------------------------------------------------------------------
  // Phase 1
  // -------------------------------------------------------------------------

  /** The decision for one batch, with what Phase 2 needs to carry it out. */
  datatype Preflight = Preflight(verdict: Verdict, fillings: map<string, Body>, needs: set<string>)

  /** `p` records the references `fills[..j]`, all of which fit. */
  ghost predicate Recorded(p: Preflight, executed: set<string>, v: View, ci: Body, j: nat)
    requires ci.CommitIntent? && j <= |ci.fills|
  {
    && (forall k :: 0 <= k < j ==> RefFits(v, ci, ci.fills[k]))
    && (forall o :: o in p.fillings <==> NamedUpTo(ci, j, o))
    && (forall o :: o in p.fillings ==>
          ResolveFromIntent(o, Events(v.wal, o), ci, CURRENT_VERSION).Ok?
          && p.fillings[o] == ResolveFromIntent(o, Events(v.wal, o), ci, CURRENT_VERSION).value.filling)
    && (forall o :: o in p.needs <==> NamedUpTo(ci, j, o) && o in v.orders
                                      && v.orders[o].status == Settling && Markers(Events(v.wal, o)) == [])
    && (forall o :: o in executed <==> NamedUpTo(ci, j, o) && o in v.orders && v.orders[o].status == Executed)
  }

  /** Phase 1 for one batch: validate every reference, then classify the portfolio hash. */
  method PreflightBatch(v: View, ci: Body, members: seq<string>) returns (p: Preflight)
    requires ci.CommitIntent? && forall o :: o in members <==> InBatch(v, ci, o)
    ensures p.verdict == Alone(v, ci)
    ensures p.verdict != Rejected ==> exists executed :: Recorded(p, executed, v, ci, |ci.fills|)
  {
    hide BatchFits, ClaimsSaved, Recorded, InBatch;
    var fits, executed;
    fits, p, executed := ValidateRefs(v, ci);
    if !fits {
      return Preflight(Rejected, map[], {});
    }
    var claimed := executed != {} || exists o :: o in members && o !in p.needs;
    ClaimedIffSaved(v, ci, members, p, executed);
    var verdict := Rejected;
    if ci.post == Some(v.current) {
      verdict := PortfolioSaved;
    } else if ci.pre == Some(v.current) && !claimed {
      verdict := PortfolioUnsaved;
    }
    VerdictAside(p, verdict, executed, v, ci, |ci.fills|);
    p := p.(verdict := verdict);
  }

  /** What was recorded does not depend on the verdict. */
  lemma VerdictAside(p: Preflight, verdict: Verdict, executed: set<string>, v: View, ci: Body, j: nat)
    requires ci.CommitIntent? && j <= |ci.fills| && Recorded(p, executed, v, ci, j)
    ensures Recorded(p.(verdict := verdict), executed, v, ci, j)
  {
  }

  method ValidateRefs(v: View, ci: Body) returns (fits: bool, p: Preflight, executed: set<string>)
    requires ci.CommitIntent?
    ensures fits <==> BatchFits(v, ci)
    ensures fits ==> Recorded(p, executed, v, ci, |ci.fills|)
  {
    hide RefFits, Markers, ResolveFromIntent, Due, IntentOf;
    p, executed := Preflight(Rejected, map[], {}), {};
    if ci.version != CURRENT_VERSION {
      return false, p, executed;
    }
    for j := 0 to |ci.fills|
      invariant Recorded(p, executed, v, ci, j)
    {
      var ref := ci.fills[j];
      if !RefFits(v, ci, ref) {
        assert ref in ci.fills;
        return false, p, executed;
      }
      p, executed := RecordRef(v, ci, j, p, executed);
    }
    fits := true;
  }

  method RecordRef(v: View, ci: Body, j: nat, p: Preflight, executed: set<string>)
    returns (p': Preflight, executed': set<string>)
    requires ci.CommitIntent? && j < |ci.fills| && Recorded(p, executed, v, ci, j) && RefFits(v, ci, ci.fills[j])
    ensures Recorded(p', executed', v, ci, j + 1) && p'.verdict == p.verdict
  {
    hide RefFits, ResolveFromIntent, Markers, Events, IntentOf, ChainLeadsTo;
    FitFacts(v, ci, ci.fills[j]);
    p', executed' := p, executed;
    var o := ci.fills[j].order;
    var filling := ResolveFromIntent(o, Events(v.wal, o), ci, CURRENT_VERSION).value.filling;
    p' := p'.(fillings := p'.fillings[o := filling]);
    if v.orders[o].status == Executed {
      executed' := executed + {o};
    } else if Markers(Events(v.wal, o)) == [] {
      p' := p'.(needs := p'.needs + {o});
    }
    assert forall x :: NamedUpTo(ci, j + 1, x) <==> NamedUpTo(ci, j, x) || x == o;
  }

  lemma MembersAreNamed(v: View, ci: Body)
    requires ci.CommitIntent?
    ensures forall o :: InBatch(v, ci, o) ==> NamedUpTo(ci, |ci.fills|, o)
  {
    forall o | InBatch(v, ci, o)
      ensures NamedUpTo(ci, |ci.fills|, o)
    {
      assert NamesOrder(ci, o);
    }
  }

  lemma ClaimedIffSaved(v: View, ci: Body, members: seq<string>, p: Preflight, executed: set<string>)
    requires ci.CommitIntent? && Recorded(p, executed, v, ci, |ci.fills|)
    requires forall o :: o in members <==> InBatch(v, ci, o)
    ensures (executed != {} || exists o :: o in members && o !in p.needs) <==> ClaimsSaved(v, ci)
  {
    hide RefFits, ResolveFromIntent, IntentOf;
    MembersAreNamed(v, ci);
    assert forall o :: InBatch(v, ci, o) ==> Due(v, o);
    if r :| r in ci.fills && r.order in v.orders && v.orders[r.order].status == Executed {
      RefsAreOrders(v, ci, r);
      assert r.order in executed;
    }
    if o :| o in executed {
      var k :| 0 <= k < |ci.fills| && ci.fills[k].order == o;
      assert ci.fills[k] in ci.fills;
    }
  }

  lemma FitFacts(v: View, ci: Body, r: FillRef)
    requires ci.CommitIntent? && RefFits(v, ci, r)
    ensures r.order != "" && ResolveFromIntent(r.order, Events(v.wal, r.order), ci, CURRENT_VERSION).Ok?
    ensures r.order in v.orders
    ensures v.orders[r.order].status == Settling || v.orders[r.order].status == Executed
  {
  }

  lemma RefsAreOrders(v: View, ci: Body, r: FillRef)
    requires ci.CommitIntent? && r in ci.fills && forall k :: 0 <= k < |ci.fills| ==> RefFits(v, ci, ci.fills[k])
    ensures NamedUpTo(ci, |ci.fills|, r.order)
  {
    assert RefFits(v, ci, r);
  }

  // -------------------------------------------------------------------------
  // Overlap check and Phase 1 for all batches
  // -------------------------------------------------------------------------

  function OrdersNamed(ci: Body): set<string>
    requires ci.CommitIntent?
  {
    set r | r in ci.fills && r.order != "" :: r.order
  }

  /** `byId` finds the commit intents of the log by their id. */
  ghost predicate Indexes(byId: map<string, Body>, v: View) {
    && (forall ci :: ci in Intents(v.wal) ==> ci.CommitIntent? && ci.commitId in byId && byId[ci.commitId] == ci)
    && (forall c :: c in byId ==> byId[c] in Intents(v.wal) && byId[c].CommitIntent? && byId[c].commitId == c)
  }

  lemma BatchesAreActive(v: View, listing: seq<string>, b: Batches, byId: map<string, Body>)
    requires Groups(b, v, listing) && Indexes(byId, v) && forall o :: o in listing <==> o in v.orders
    ensures forall c :: c in b.members ==>
              c in byId && Active(v, byId[c]) && forall o :: o in b.members[c] <==> InBatch(v, byId[c], o)
    ensures forall ci :: Active(v, ci) ==> ci.CommitIntent? && ci.commitId in b.members && byId[ci.commitId] == ci
  {
    forall c | c in b.members
      ensures c in byId && Active(v, byId[c])
      ensures forall o :: o in b.members[c] <==> InBatch(v, byId[c], o)
    {
      var o := b.members[c][0];
      assert o in b.members[c];
      assert InBatch(v, IntentOf(v, o).value, o);
    }
  }

  lemma OverlapIsContest(v: View, listing: seq<string>, b: Batches, byId: map<string, Body>, claims: Claims)
    requires Groups(b, v, listing) && Indexes(byId, v) && forall o :: o in listing <==> o in v.orders
    requires claims.Keys == b.members.Keys
    requires forall c :: c in claims ==> c in byId && byId[c].CommitIntent? && claims[c] == OrdersNamed(byId[c])
    ensures forall c :: c in claims ==>
              (Contested(v, byId[c]) <==> exists d :: d in claims && Overlapping(claims, c, d))
  {
    BatchesAreActive(v, listing, b, byId);
    forall c, d | c in claims && d in claims && c != d
      ensures Overlapping(claims, c, d) <==> SharesOrder(byId[c], byId[d])
    {
      SharedIffMeets(byId[c], byId[d]);
    }
    forall c | c in claims && Contested(v, byId[c])
      ensures exists d :: d in claims && Overlapping(claims, c, d)
    {
      var other :| Active(v, other) && other != byId[c] && other.CommitIntent? && SharesOrder(byId[c], other);
      assert Overlapping(claims, c, other.commitId);
    }
  }

  lemma SharedIffMeets(a: Body, b: Body)
    requires a.CommitIntent? && b.CommitIntent?
    ensures SharesOrder(a, b) <==> OrdersNamed(a) * OrdersNamed(b) != {}
  {
    if r :| r in a.fills && NamesOrder(b, r.order) {
      assert r.order in OrdersNamed(a) * OrdersNamed(b);
    }
    if o :| o in OrdersNamed(a) * OrdersNamed(b) {
      var r :| r in a.fills && r.order == o;
      assert NamesOrder(b, r.order);
    }
  }

  /** A preflight that Phase 2 can carry out. */
  ghost predicate Usable(p: Preflight, v: View, ci: Body)
    requires ci.CommitIntent?
  {
    && p.verdict == Decide(v, ci)
    && (p.verdict != Rejected ==> exists executed :: Recorded(p, executed, v, ci, |ci.fills|))
  }

  /** The global overlap check, then Phase 1 for every batch it left alone. */
  method PreflightAll(v: View, ghost listing: seq<string>, b: Batches, byId: map<string, Body>)
    returns (preflight: map<string, Preflight>)
    requires Groups(b, v, listing) && Indexes(byId, v) && forall o :: o in listing <==> o in v.orders
    ensures preflight.Keys == b.members.Keys
    ensures forall c :: c in preflight ==> c in byId && Usable(preflight[c], v, byId[c])
  {
    hide Alone, Recorded, Contested, IntentOf, Due, Groups, Indexes, Usable;
    BatchesAreActive(v, listing, b, byId);
    CidsAreKeys(v, listing, b);
    var overlapping := FindContested(v, listing, b, byId);
    preflight := map[];
    for i := 0 to |b.cids|
      invariant forall c :: c in preflight <==> c in b.cids[..i]
      invariant forall c :: c in preflight ==> c in byId && Usable(preflight[c], v, byId[c])
    {
      var c := b.cids[i];
      assert c in b.cids && b.cids[..i + 1] == b.cids[..i] + [c];
      var p := PreflightOne(v, byId[c], b.members[c], c in overlapping);
      preflight := preflight[c := p];
    }
    assert b.cids[..|b.cids|] == b.cids;
  }

  method PreflightOne(v: View, ci: Body, members: seq<string>, contested: bool) returns (p: Preflight)
    requires ci.CommitIntent? && (forall o :: o in members <==> InBatch(v, ci, o))
    requires contested <==> Contested(v, ci)
    ensures Usable(p, v, ci)
  {
    if contested {
      p := Preflight(Rejected, map[], {});
    } else {
      p := PreflightBatch(v, ci, members);
    }
  }

  method FindContested(v: View, ghost listing: seq<string>, b: Batches, byId: map<string, Body>)
    returns (contested: set<string>)
    requires Groups(b, v, listing) && Indexes(byId, v) && forall o :: o in listing <==> o in v.orders
    ensures forall c :: c in b.members ==> c in byId && (c in contested <==> Contested(v, byId[c]))
  {
    BatchesAreActive(v, listing, b, byId);
    var claims := map c | c in b.members :: OrdersNamed(byId[c]);
    contested := FindOverlaps(claims);
    OverlapIsContest(v, listing, b, byId, claims);
  }

  /** Everything recovery works out before its first write. */
  method DecideAll(v: View, listing: seq<string>, intents: seq<Body>)
    returns (b: Batches, byId: map<string, Body>, preflight: map<string, Preflight>)
    requires Accepted(v.wal) && intents == Intents(v.wal)
    requires Distinct(listing) && forall o :: o in listing <==> o in v.orders
    ensures Groups(b, v, listing) && Indexes(byId, v)
    ensures preflight.Keys == b.members.Keys
    ensures forall c :: c in preflight ==> c in byId && Usable(preflight[c], v, byId[c])
  {
    hide Accepted, Groups, Usable, Mapped, Intents;
    IntentMembers(v.wal);
    IntentIdsDiffer(v.wal);
    var mapped := MapIntents(intents, v.strategy);
    byId := IndexIntents(intents);
    b := GroupOrders(v, v.orders, v.strategy, listing, mapped);
    preflight := PreflightAll(v, listing, b, byId);
  }

  // -------------------------------------------------------------------------
  // The process: orders in memory, files on disk
  // -------------------------------------------------------------------------

  lemma {:induction false} StampedIsKept(wal: seq<Body>)
    ensures LinesOk(Stamped(wal)) && Kept(Stamped(wal)) == wal
  {
    if wal != [] {
      var front := wal[..|wal| - 1];
      StampedIsKept(front);
      assert Stamped(wal)[..|wal| - 1] == Stamped(front);
    }
  }

  function Stamped(wal: seq<Body>): seq<Line> {
    seq(|wal|, i requires 0 <= i < |wal| => Stamp(wal[i]))
  }

  lemma MarkedOrder(wal: seq<Body>, o: string)
    ensures Markers(Events(wal, o)) != [] <==> o != "" && exists b :: b in wal && b.Persisted? && b.order == o
  {
    EventMembers(wal, o);
    FilterMembers(Events(wal, o), IsPersisted());
    if Markers(Events(wal, o)) != [] {
      var m := Markers(Events(wal, o))[0];
      assert m in Markers(Events(wal, o));
    }
    if b :| b in wal && b.Persisted? && b.order == o && o != "" {
      assert b in Events(wal, o) && b in Markers(Events(wal, o));
    }
  }

  class Desk {
    var orders: map<string, Order>
    var log: seq<Order>
    var wal: seq<Body>
    var saved: map<string, Portfolio>
    /** Every durable write so far, in order, starting from the disk the process found. */
    ghost var writes: seq<Write>
    ghost const found: Disk

    ghost function Now(): Disk
      reads this
    {
      Disk(log, wal, saved)
    }

    /** Memory mirrors the order file, and the disk is what the recorded writes made of it. */
    ghost predicate Valid()
      reads this
    {
      orders == Current(log) && Now() == ApplyAll(found, writes)
    }

    constructor (disk: Disk)
      ensures Valid() && Now() == disk && found == disk && writes == []
    {
      log, wal, saved := disk.log, disk.wal, disk.saved;
      found, writes := disk, [];
      new;
      orders := LoadOrders(disk.log);
    }

    /** save_order: append a snapshot and keep the dictionary in step. */
    method SaveOrder(order: Order)
      requires Valid()
      modifies this
      ensures Valid() && writes == old(writes) + [Write.SaveOrder(order)]
      ensures orders == old(orders)[order.id := order]
    {
      ApplySnoc(found, writes, Write.SaveOrder(order));
      CurrentAfterSave(log, order);
      log := log + [order];
      orders := orders[order.id := order];
      writes := writes + [Write.SaveOrder(order)];
    }

    method AppendRecord(body: Body)
      requires Valid()
      modifies this
      ensures Valid() && writes == old(writes) + [AppendFill(body)] && orders == old(orders)
    {
      ApplySnoc(found, writes, AppendFill(body));
      wal := wal + [body];
      writes := writes + [AppendFill(body)];
    }

    /** save_strategy_state: the portfolio file is replaced atomically. */
    method SavePortfolio(strategy: string, portfolio: Portfolio)
      requires Valid()
      modifies this
      ensures Valid() && orders == old(orders) && writes == old(writes) + [Write.SavePortfolio(strategy, portfolio)]
    {
      ApplySnoc(found, writes, Write.SavePortfolio(strategy, portfolio));
      saved := saved[strategy := portfolio];
      writes := writes + [Write.SavePortfolio(strategy, portfolio)];
    }

    /** mark_fill_persisted: refuses a marker without a commit id. */
    method MarkFillPersisted(order: string, attempt: string, fillingHash: Digest, commitId: string,
                             post: Option<StateHash>)
      returns (ok: bool)
      requires Valid()
      modifies this
      ensures Valid() && orders == old(orders) && ok == (commitId != "")
      ensures writes == if ok then
                old(writes) + [AppendFill(Persisted(order, attempt, MakeFillId(order), Some(fillingHash),
                                                    commitId, post, CURRENT_VERSION))]
              else old(writes)
    {
      if commitId == "" {
        return false;
      }
      AppendRecord(Persisted(order, attempt, MakeFillId(order), Some(fillingHash), commitId, post, CURRENT_VERSION));
      return true;
    }

    /** One snapshot per order, all with this status. */
    static function Snapshots(orders: map<string, Order>, ids: seq<string>, status: Status): seq<Write>
      requires forall o :: o in ids ==> o in orders
    {
      seq(|ids|, k requires 0 <= k < |ids| => Write.SaveOrder(orders[ids[k]].(status := status)))
    }

    static lemma SnapshotsGrow(orders: map<string, Order>, ids: seq<string>, o: string, status: Status)
      requires o in orders && forall x :: x in ids ==> x in orders
      ensures Snapshots(orders, ids + [o], status)
              == Snapshots(orders, ids, status) + [Write.SaveOrder(orders[o].(status := status))]
    {
    }

    /**
     * expire_stale_orders: writes one EXPIRED snapshot for every order queued for a session that is over,
     * in the order of the listing, and nothing else.
     * `closed` says whether today's session has closed, None if the calendar cannot tell.
     */
    method ExpireStaleOrders(today: string, closed: Option<bool>, listing: seq<string>)
      returns (expired: seq<string>)
      requires Valid() && Distinct(listing) && forall o :: o in listing <==> o in orders
      modifies this
      ensures Valid() && orders.Keys == old(orders).Keys
      ensures forall o :: o in orders ==>
                orders[o] == if o in expired then old(orders)[o].(status := Expired) else old(orders)[o]
      ensures Distinct(expired)
      ensures forall o :: o in expired <==>
                && o in old(orders) && old(orders)[o].status == PendingPrice
                && (Before(old(orders)[o].session, today)
                    || (old(orders)[o].session == today && closed == Some(true)))
      ensures writes == old(writes) + Snapshots(old(orders), expired, Expired)
    {
      hide ApplyAll, Current, Stale, Snapshots, Distinct, Retired;
      ghost var before := orders;
      assert forall o :: o in before ==> before[o].id == o;
      expired := [];
      NoneRetired(before, today, closed);
      for i := 0 to |listing|
        invariant Valid() && Retired(before, orders, listing[..i], expired, today, closed)
        invariant forall x :: x in expired ==> x in before
        invariant writes == old(writes) + Snapshots(before, expired, Expired)
      {
        var o := listing[i];
        assert o in listing;
        NextToRetire(before, orders, listing, i, expired, today, closed);
        if Stale(orders[o], today, closed) {
          SnapshotsGrow(before, expired, o, Expired);
          SaveOrder(orders[o].(status := Expired));
          expired := expired + [o];
        }
      }
      RetiredAll(before, orders, listing, expired, today, closed);
      assert forall o :: Stale(o, today, closed) <==>
        o.status == PendingPrice && (Before(o.session, today) || (o.session == today && closed == Some(true)))
        by { StaleMeans(today, closed); }
    }

    static lemma StaleMeans(today: string, closed: Option<bool>)
      ensures forall o :: Stale(o, today, closed) <==>
                o.status == PendingPrice && (Before(o.session, today) || (o.session == today && closed == Some(true)))
    {
    }

    /** Of the orders in `front` exactly the stale ones have been retired, each once. */
    static ghost predicate Retired(before: map<string, Order>, now: map<string, Order>, front: seq<string>,
                                   expired: seq<string>, today: string, closed: Option<bool>) {
      && now.Keys == before.Keys && Distinct(expired)
      && (forall o :: o in expired <==> o in front && o in before && Stale(before[o], today, closed))
      && (forall o :: o in now ==> now[o] == if o in expired then before[o].(status := Expired) else before[o])
    }

    static lemma NoneRetired(before: map<string, Order>, today: string, closed: Option<bool>)
      ensures Retired(before, before, [], [], today, closed) && Snapshots(before, [], Expired) == []
    {
    }

    static lemma NextToRetire(before: map<string, Order>, now: map<string, Order>, listing: seq<string>, i: nat,
                              expired: seq<string>, today: string, closed: Option<bool>)
      requires Distinct(listing) && i < |listing| && listing[i] in before && before[listing[i]].id == listing[i]
      requires Retired(before, now, listing[..i], expired, today, closed)
      ensures var o := listing[i];
        && (forall x :: x in expired ==> x in before) && o in now && now[o] == before[o]
        && (if Stale(before[o], today, closed) then
              Retired(before, now[o := now[o].(status := Expired)], listing[..i + 1], expired + [o], today, closed)
            else Retired(before, now, listing[..i + 1], expired, today, closed))
    {
      hide Stale;
      var o := listing[i];
      assert o !in listing[..i];
      assert listing[..i + 1] == listing[..i] + [o];
      assert forall k :: 0 <= k < |expired| ==> expired[k] in expired;
    }

    static lemma RetiredAll(before: map<string, Order>, now: map<string, Order>, listing: seq<string>,
                            expired: seq<string>, today: string, closed: Option<bool>)
      requires Retired(before, now, listing[..|listing|], expired, today, closed)
      requires forall o :: o in listing <==> o in before
      ensures now.Keys == before.Keys && Distinct(expired)
      ensures forall o :: o in expired <==> o in before && Stale(before[o], today, closed)
      ensures forall o :: o in now ==>
                now[o] == if Stale(before[o], today, closed) then before[o].(status := Expired) else before[o]
    {
      hide Stale;
      assert listing[..|listing|] == listing;
    }

    /** get_pending_for_session. */
    predicate Queued(o: string, strategy: string, session: string)
      reads this
    {
      && o in orders && orders[o].status == PendingPrice
      && orders[o].strategy == strategy && orders[o].session == session
    }

    /** An order queued for retry in the session although its log holds a persisted marker. */
    predicate Blocked(o: string, strategy: string, session: string)
      reads this
    {
      Queued(o, strategy, session) && Markers(Events(wal, o)) != []
    }

    /**
     * check_pending_price_guard: fails without a write if the log is refused; otherwise stops at the first
     * blocked order after failing it durably; if it does not stop, no order of the session is blocked and
     * nothing was written.
     */
    method CheckPendingPriceGuard(strategy: string, session: string, listing: seq<string>)
      returns (loaded: bool, blocked: Option<string>)
      requires Valid() && Distinct(listing) && forall o :: o in listing <==> o in orders
      modifies this
      ensures Valid()
      ensures loaded <==> Accepted(old(wal))
      ensures loaded && blocked.None? ==>
        forall o :: (o in old(orders) && old(orders)[o].status == PendingPrice && o != ""
                     && old(orders)[o].strategy == strategy && old(orders)[o].session == session) ==>
          forall b :: b in old(wal) && b.Persisted? ==> b.order != o
      ensures !loaded ==> blocked.None?
      ensures blocked.None? ==> writes == old(writes)
      ensures blocked.Some? ==>
        var o := blocked.value;
        && o in old(orders) && old(orders)[o].status == PendingPrice
        && old(orders)[o].strategy == strategy && old(orders)[o].session == session
        && (exists b :: b in old(wal) && b.Persisted? && b.order == o)
        && writes == old(writes) + [Write.SaveOrder(old(orders)[o].(status := FailedReconciliation))]
    {
      hide Accepted, LinesOk, Current, ApplyAll, Events, Markers;
      StampedIsKept(wal);
      var events, intents, lines;
      loaded, events, intents, lines := LoadFillEvents(Stamped(wal));
      if !loaded {
        return false, None;
      }
      for i := 0 to |listing|
        invariant Valid() && writes == old(writes) && orders == old(orders) && wal == old(wal)
        invariant forall o :: o in listing[..i] ==> !Blocked(o, strategy, session)
      {
        var o := listing[i];
        assert o in listing;
        var mine := if o in events then events[o] else [];
        assert mine == Events(wal, o);
        if Queued(o, strategy, session) && Markers(mine) != [] {
          assert orders[o].id == o;
          MarkedOrder(wal, o);
          SaveOrder(orders[o].(status := FailedReconciliation));
          return true, Some(o);
        }
        assert listing[..i + 1] == listing[..i] + [o];
      }
      assert listing[..|listing|] == listing;
      forall o | (o in old(orders) && old(orders)[o].status == PendingPrice && o != ""
                  && old(orders)[o].strategy == strategy && old(orders)[o].session == session)
        ensures forall b :: b in old(wal) && b.Persisted? ==> b.order != o
      {
        assert o in listing && Queued(o, strategy, session) && !Blocked(o, strategy, session);
        MarkedOrder(wal, o);
      }
      return true, None;
    }

    // -----------------------------------------------------------------------
    // Phase 2
    // -----------------------------------------------------------------------

    /** The orders of `todo` have been decided; all others are as Phase 1 saw them. */
    ghost predicate Decided(v: View, todo: seq<string>)
      reads this
    {
      orders.Keys == v.orders.Keys
      && forall o :: o in v.orders ==>
           orders[o] == if o in todo then v.orders[o].(status := Outcome(v, o)) else v.orders[o]
    }

    lemma DecidedGrows(v: View, todo: seq<string>, o: string, before: map<string, Order>)
      requires o in v.orders && before.Keys == v.orders.Keys
      requires forall x :: x in v.orders ==>
           before[x] == if x in todo then v.orders[x].(status := Outcome(v, x)) else v.orders[x]
      requires orders == before[o := v.orders[o].(status := Outcome(v, o))]
      ensures Decided(v, todo + [o])
    {
      assert forall x :: x in todo + [o] <==> x in todo || x == o;
    }

    /** Phase 2 for one order of a batch. */
    method SettleMember(v: View, ci: Body, p: Preflight, o: string, ghost todo: seq<string>)
      returns (ok: bool)
      requires Valid() && Decided(v, todo) && o !in todo && o in v.orders && v.orders[o].id == o
      requires ci.CommitIntent? && InBatch(v, ci, o) && Usable(p, v, ci)
      modifies this
      ensures Valid() && (ok || ci.commitId == "")
      ensures ok ==> Decided(v, todo + [o]) && writes == old(writes) + WritesFor(v, o)
    {
      hide Outcome, WritesFor, Usable, Due, IntentOf, Current, ApplyAll;
      var order := v.orders[o];
      ghost var before := orders;
      MemberDecision(v, ci, p, o);
      if p.verdict == PortfolioSaved && o in p.needs {
        var filling := p.fillings[o];
        ok := MarkFillPersisted(o, filling.attempt, Sha256(filling), ci.commitId, ci.post);
        if !ok {
          return;
        }
      }
      SaveOrder(order.(status := StatusFor(p.verdict)));
      DecidedGrows(v, todo, o, before);
      return true;
    }

    /** Phase 2 for an order that no commit intent names. */
    method SettleLooseOrder(v: View, o: string, ghost todo: seq<string>)
      requires Valid() && Decided(v, todo) && o !in todo && o in v.orders && v.orders[o].id == o
      requires Due(v, o) && IntentOf(v, o).None?
      modifies this
      ensures Valid() && Decided(v, todo + [o]) && writes == old(writes) + WritesFor(v, o)
    {
      ghost var before, start := orders, writes;
      var events := Events(v.wal, o);
      var untrusted := exists b :: b in events && Untrusted(b);
      SaveOrder(v.orders[o].(status := if untrusted then FailedReconciliation else PendingPrice));
      DecidedGrows(v, todo, o, before);
      assert writes == start + WritesFor(v, o);
    }

    /** Phase 2 for the next order of the listing `full`, a member of the batch of `ci`. */
    method SettleNextMember(v: View, ci: Body, p: Preflight, o: string,
                            ghost full: seq<string>, ghost todo: seq<string>, ghost start: seq<Write>)
      returns (ok: bool)
      requires Valid() && Progress(v, full, todo, start) && Lists(v, full) && todo + [o] <= full
      requires ci.CommitIntent? && Usable(p, v, ci) && InBatch(v, ci, o)
      requires forall x :: x in v.orders ==> v.orders[x].id == x
      modifies this
      ensures Valid() && (ok || ci.commitId == "")
      ensures ok ==> Progress(v, full, todo + [o], start)
    {
      hide Usable, Plan, Outcome, WritesFor, IntentOf, Grouped, Current, ApplyAll;
      NextInLine(v, full, todo, o);
      ok := SettleMember(v, ci, p, o, todo);
      PlanGrows(v, full, todo, o);
    }

    /** Phase 2 for the next order of the listing `full`, one without a commit intent. */
    method SettleNextLoose(v: View, o: string,
                           ghost full: seq<string>, ghost todo: seq<string>, ghost start: seq<Write>)
      requires Valid() && Progress(v, full, todo, start) && Lists(v, full) && todo + [o] <= full
      requires Due(v, o) && IntentOf(v, o).None?
      requires forall x :: x in v.orders ==> v.orders[x].id == x
      modifies this
      ensures Valid() && Progress(v, full, todo + [o], start)
    {
      hide Plan, Outcome, WritesFor, IntentOf, Grouped, Current, ApplyAll;
      NextInLine(v, full, todo, o);
      SettleLooseOrder(v, o, todo);
      PlanGrows(v, full, todo, o);
    }

    /** Phase 2 for one batch. */
    method SettleBatch(v: View, ci: Body, p: Preflight, members: seq<string>,
                       ghost full: seq<string>, ghost front: seq<string>, ghost start: seq<Write>)
      returns (ok: bool)
      requires Valid() && Progress(v, full, front, start) && Lists(v, full) && front + members <= full
      requires ci.CommitIntent? && Usable(p, v, ci) && forall o :: o in members ==> InBatch(v, ci, o)
      requires forall o :: o in v.orders ==> v.orders[o].id == o
      modifies this
      ensures Valid() && (ok || ci.commitId == "")
      ensures ok ==> Progress(v, full, front + members, start)
    {
      hide *;
      assert front + members[..0] == front;
      for j := 0 to |members|
        invariant Valid() && Progress(v, full, front + members[..j], start)
      {
        ghost var todo := front + members[..j];
        assert members[j] in members;
        assert todo + [members[j]] == front + members[..j + 1];
        PrefixOfPrefix(full, front, members, j + 1);
        ok := SettleNextMember(v, ci, p, members[j], full, todo, start);
        if !ok {
          return;
        }
      }
      assert members[..|members|] == members;
      return true;
    }

    /** Phase 2 for the orders without a commit intent. */
    method SettleLoose(v: View, loose: seq<string>, ghost full: seq<string>, ghost front: seq<string>,
                       ghost start: seq<Write>)
      requires Valid() && Progress(v, full, front, start) && Lists(v, full) && front + loose <= full
      requires forall o :: o in loose ==> Due(v, o) && IntentOf(v, o).None?
      requires forall o :: o in v.orders ==> v.orders[o].id == o
      modifies this
      ensures Valid() && Progress(v, full, front + loose, start)
    {
      hide *;
      assert front + loose[..0] == front;
      for j := 0 to |loose|
        invariant Valid() && Progress(v, full, front + loose[..j], start)
      {
        ghost var todo := front + loose[..j];
        assert loose[j] in loose;
        assert todo + [loose[j]] == front + loose[..j + 1];
        PrefixOfPrefix(full, front, loose, j + 1);
        SettleNextLoose(v, loose[j], full, todo, start);
      }
      assert loose[..|loose|] == loose;
    }

    /** Phase 2: all batches, then the orders without a commit intent. */
    method SettleAll(v: View, b: Batches, byId: map<string, Body>, preflight: map<string, Preflight>,
                     ghost listing: seq<string>)
      returns (ok: bool)
      requires Valid() && orders == v.orders && Groups(b, v, listing) && Indexes(byId, v)
      requires forall o :: o in listing <==> o in v.orders
      requires forall o :: o in v.orders ==> v.orders[o].id == o
      requires preflight.Keys == b.members.Keys
      requires forall c :: c in preflight ==> c in byId && Usable(preflight[c], v, byId[c])
      modifies this
      ensures Valid() && (ok || exists c :: c in byId && c == "")
      ensures Lists(v, Flat(b, |b.cids|) + b.loose)
      ensures ok ==> Decided(v, Flat(b, |b.cids|) + b.loose)
                     && writes == old(writes) + Plan(v, Flat(b, |b.cids|) + b.loose)
    {
      hide *;
      BatchesAreActive(v, listing, b, byId);
      FlatLists(v, listing, b, byId);
      CidsAreKeys(v, listing, b);
      ghost var full, start := Flat(b, |b.cids|) + b.loose, writes;
      NoProgressYet(v, full);
      FlatStarts(b);
      for i := 0 to |b.cids|
        invariant Valid() && Progress(v, full, Flat(b, i), start)
      {
        var c := b.cids[i];
        assert c in b.cids;
        FlatGrows(b, i, |b.cids|);
        ok := SettleBatch(v, byId[c], preflight[c], b.members[c], full, Flat(b, i), start);
        if !ok {
          return;
        }
      }
      SettleLoose(v, b.loose, full, Flat(b, |b.cids|), start);
      ProgressComplete(v, full, start);
      return true;
    }

    lemma ProgressComplete(v: View, full: seq<string>, start: seq<Write>)
      requires Progress(v, full, full, start)
      ensures forall o :: o in full ==> Due(v, o)
      ensures Decided(v, full) && writes == start + Plan(v, full)
    {
    }

    lemma NoProgressYet(v: View, full: seq<string>)
      requires orders == v.orders
      ensures Progress(v, full, [], writes)
    {
    }

    /** Phase 2 has carried out exactly the first part `todo` of the listing `full`. */
    ghost predicate Progress(v: View, full: seq<string>, todo: seq<string>, start: seq<Write>)
      reads this
    {
      && todo <= full && (forall o :: o in todo ==> Due(v, o))
      && Decided(v, todo) && writes == start + Plan(v, todo)
    }

    /**
     * reconcile_settling_orders. Fails closed without a write when the log is not acceptable;
     * otherwise decides every order in flight from the state before the first write, whatever the
     * iteration order of the dictionary, and reports the orders it rejected.
     */
    method ReconcileSettlingOrders(strategy: string, listing: seq<string>)
      returns (loaded: bool, completed: bool, failed: set<string>, ghost todo: seq<string>)
      requires Valid() && Distinct(listing) && forall o :: o in listing <==> o in orders
      modifies this
      ensures Valid() && (completed ==> loaded)
      ensures loaded <==> Accepted(old(wal))
      ensures !loaded ==> orders == old(orders) && writes == old(writes)
      ensures loaded && !completed ==> !IdsPresent(old(wal))
      ensures completed ==>
        var v := old(ViewOf(Now(), strategy));
        && Lists(v, todo) && writes == old(writes) + Plan(v, todo)
        && (forall o :: o in failed <==> Due(v, o) && Outcome(v, o) == FailedReconciliation)
    {
      hide Accepted, Plan, Outcome, Lists, Current, ApplyAll, Usable, Decided, IdsPresent, Groups, Indexes, Flat;
      StampedIsKept(wal);
      failed, todo, completed := {}, [], false;
      var events, intents, lines;
      loaded, events, intents, lines := LoadFillEvents(Stamped(wal));
      if !loaded {
        return;
      }
      var v := View(orders, wal, strategy, StateHash(if strategy in saved then saved[strategy] else FRESH_PORTFOLIO));
      assert v == ViewOf(Now(), strategy);
      KnownOrders(log);
      var b, byId, preflight := DecideAll(v, listing, intents);
      completed := SettleAll(v, b, byId, preflight, listing);
      CidsAreKeys(v, listing, b);
      todo := Flat(b, |b.cids|) + b.loose;
      if completed {
        FailedOrders(v, todo);
        failed := set o | o in v.orders && v.orders[o].status == Settling && orders[o].status == FailedReconciliation;
      } else {
        IdMissing(v, byId);
      }
    }

    /** After Phase 2 the orders that moved from SETTLING to FAILED_RECONCILIATION are the rejected ones. */
    lemma FailedOrders(v: View, todo: seq<string>)
      requires Decided(v, todo) && Lists(v, todo)
      ensures orders.Keys == v.orders.Keys
      ensures forall o :: o in v.orders ==>
                (v.orders[o].status == Settling && orders[o].status == FailedReconciliation
                 <==> Due(v, o) && Outcome(v, o) == FailedReconciliation)
    {
      hide Outcome;
    }
  }

  lemma KnownOrders(log: seq<Order>)
    ensures forall o :: o in Current(log) ==> Current(log)[o].id == o
  {
  }

  /** In an accepted log no two commit intents share an id. */
  lemma IntentIdsDiffer(wal: seq<Body>)
    requires Accepted(wal)
    ensures forall i, j :: 0 <= i < j < |Intents(wal)| ==>
              Intents(wal)[i].CommitIntent? && Intents(wal)[j].CommitIntent?
              && Intents(wal)[i].commitId != Intents(wal)[j].commitId
  {
    IntentMembers(wal);
    forall i, j | 0 <= i < j < |Intents(wal)|
      ensures Intents(wal)[i].CommitIntent? && Intents(wal)[j].CommitIntent?
      ensures Intents(wal)[i].commitId != Intents(wal)[j].commitId
    {
      assert Intents(wal)[i] in Intents(wal) && Intents(wal)[j] in Intents(wal);
      var k, l := FilterOrder(wal, IsIntent(), i, j);
      assert CommitIdsDiffer(wal[k], wal[l]);
    }
  }

  lemma IdMissing(v: View, byId: map<string, Body>)
    requires Indexes(byId, v) && exists c :: c in byId && c == ""
    ensures !IdsPresent(v.wal)
  {
    IntentMembers(v.wal);
  }

  // -------------------------------------------------------------------------
  // The listing Phase 2 follows
  // -------------------------------------------------------------------------

  /** The members of the first `n` batches, batch by batch. */
  function Flat(b: Batches, n: nat): seq<string>
    requires n <= |b.cids| && forall c :: c in b.cids ==> c in b.members
  {
    if n == 0 then [] else Flat(b, n - 1) + b.members[b.cids[n - 1]]
  }

  lemma FlatStarts(b: Batches)
    requires forall c :: c in b.cids ==> c in b.members
    ensures Flat(b, 0) == []
  {
  }

  lemma CidsAreKeys(v: View, listing: seq<string>, b: Batches)
    requires Groups(b, v, listing)
    ensures forall c :: c in b.cids <==> c in b.members
    ensures forall o :: o in b.loose ==> Due(v, o) && IntentOf(v, o).None?
  {
    hide Due, IntentOf;
  }

  lemma {:induction false} FlatGrows(b: Batches, i: nat, n: nat)
    requires i < n <= |b.cids| && forall c :: c in b.cids ==> c in b.members
    ensures Flat(b, i + 1) == Flat(b, i) + b.members[b.cids[i]] <= Flat(b, n)
  {
    if i + 1 < n {
      FlatGrows(b, i, n - 1);
    }
  }

  lemma PrefixOfPrefix(full: seq<string>, front: seq<string>, back: seq<string>, j: nat)
    requires front + back <= full && j <= |back|
    ensures front + back[..j] <= full
  {
    assert front + back == (front + back[..j]) + back[j..];
  }

  lemma NextInLine(v: View, full: seq<string>, todo: seq<string>, o: string)
    requires todo + [o] <= full && Lists(v, full)
    ensures o !in todo && Due(v, o) && todo <= full
  {
    assert full[|todo|] == o && full[..|todo|] == todo;
    assert o in full;
    forall x | x in todo
      ensures x != o
    {
      var k :| 0 <= k < |todo| && todo[k] == x;
      assert full[k] == x;
    }
  }

  lemma PlanGrows(v: View, full: seq<string>, todo: seq<string>, o: string)
    requires todo + [o] <= full && forall x :: x in todo + [o] ==> Due(v, x)
    ensures forall x :: x in todo ==> Due(v, x)
    ensures Plan(v, todo + [o]) == Plan(v, todo) + WritesFor(v, o)
  {
    assert forall x :: x in todo ==> x in todo + [o];
    assert (todo + [o])[..|todo|] == todo;
  }

  lemma {:induction false} FlatMembers(v: View, listing: seq<string>, b: Batches, byId: map<string, Body>, n: nat)
    requires Groups(b, v, listing) && Indexes(byId, v) && n <= |b.cids|
    ensures Distinct(Flat(b, n))
    ensures forall o :: o in Flat(b, n) <==> exists k :: 0 <= k < n && o in b.members[b.cids[k]]
    ensures forall o :: o in Flat(b, n) ==> IntentOf(v, o).Some? && IntentOf(v, o).value.commitId in b.cids[..n]
    ensures forall i, j, k :: 0 <= i < j < k < |Flat(b, n)| ==>
              IntentOf(v, Flat(b, n)[i]) == IntentOf(v, Flat(b, n)[k]) ==>
                IntentOf(v, Flat(b, n)[j]) == IntentOf(v, Flat(b, n)[i])
  {
    if n > 0 {
      FlatMembers(v, listing, b, byId, n - 1);
      AppendBatch(v, listing, b, byId, Flat(b, n - 1), n);
    }
  }

  lemma AppendBatch(v: View, listing: seq<string>, b: Batches, byId: map<string, Body>, front: seq<string>, n: nat)
    requires Groups(b, v, listing) && Indexes(byId, v) && 0 < n <= |b.cids|
    requires Distinct(front)
    requires forall o :: o in front ==> IntentOf(v, o).Some? && IntentOf(v, o).value.commitId in b.cids[..n - 1]
    requires forall i, j, k :: 0 <= i < j < k < |front| ==>
              IntentOf(v, front[i]) == IntentOf(v, front[k]) ==> IntentOf(v, front[j]) == IntentOf(v, front[i])
    ensures
      var s := front + b.members[b.cids[n - 1]];
      && Distinct(s)
      && (forall o :: o in s <==> o in front || o in b.members[b.cids[n - 1]])
      && (forall o :: o in s ==> IntentOf(v, o).Some? && IntentOf(v, o).value.commitId in b.cids[..n])
      && (forall i, j, k :: 0 <= i < j < k < |s| ==>
            IntentOf(v, s[i]) == IntentOf(v, s[k]) ==> IntentOf(v, s[j]) == IntentOf(v, s[i]))
  {
    hide IntentOf, Due;
    var c := b.cids[n - 1];
    var batch := b.members[c];
    var s := front + batch;
    assert c in b.cids && c !in b.cids[..n - 1];
    assert forall x :: x in b.cids[..n] <==> x in b.cids[..n - 1] || x == c;
    forall i | 0 <= i < |s|
      ensures i < |front| ==> s[i] in front
      ensures i >= |front| ==> s[i] in batch && IntentOf(v, s[i]).Some? && c in byId && byId[c] == IntentOf(v, s[i]).value
    {
      if i >= |front| {
        assert s[i] == batch[i - |front|];
        IntentInLog(v, s[i]);
      }
    }
  }

  lemma IntentInLog(v: View, o: string)
    ensures IntentOf(v, o).Some? ==> IntentOf(v, o).value in Intents(v.wal)
  {
  }

  lemma DueKnown(v: View)
    ensures forall o :: Due(v, o) ==> o in v.orders
  {
  }

  lemma FlatLists(v: View, listing: seq<string>, b: Batches, byId: map<string, Body>)
    requires Groups(b, v, listing) && Indexes(byId, v) && forall o :: o in listing <==> o in v.orders
    ensures Lists(v, Flat(b, |b.cids|) + b.loose)
  {
    hide Due, IntentOf, Groups, Indexes, Grouped;
    FlatMembers(v, listing, b, byId, |b.cids|);
    CidsAreKeys(v, listing, b);
    var flat := Flat(b, |b.cids|);
    FlatCovers(v, listing, b, byId);
    FlatThenLoose(v, flat, b.loose);
  }

  /** Every order in flight is in its batch or among the loose ones. */
  lemma FlatCovers(v: View, listing: seq<string>, b: Batches, byId: map<string, Body>)
    requires Groups(b, v, listing) && Indexes(byId, v) && forall o :: o in listing <==> o in v.orders
    ensures Distinct(b.loose) && forall o :: o in Flat(b, |b.cids|) || o in b.loose <==> Due(v, o)
  {
    hide Due, IntentOf, Indexes;
    DueKnown(v);
    FlatMembers(v, listing, b, byId, |b.cids|);
    forall o | Due(v, o) && IntentOf(v, o).Some?
      ensures o in Flat(b, |b.cids|)
    {
      var c := IntentOf(v, o).value.commitId;
      assert c in b.cids;
    }
    forall c | c in b.cids
      ensures forall o :: o in b.members[c] ==> Due(v, o)
    {
    }
  }

  lemma FlatThenLoose(v: View, flat: seq<string>, loose: seq<string>)
    requires Distinct(flat) && Distinct(loose)
    requires forall o :: o in flat ==> IntentOf(v, o).Some?
    requires forall o :: o in loose ==> IntentOf(v, o).None?
    requires forall o :: o in flat || o in loose <==> Due(v, o)
    requires forall i, j, k :: 0 <= i < j < k < |flat| ==>
              IntentOf(v, flat[i]) == IntentOf(v, flat[k]) ==> IntentOf(v, flat[j]) == IntentOf(v, flat[i])
    ensures Lists(v, flat + loose)
  {
    hide Due, IntentOf;
    var full := flat + loose;
    forall i | 0 <= i < |full|
      ensures i < |flat| ==> full[i] == flat[i] && full[i] in flat && IntentOf(v, full[i]).Some?
      ensures i >= |flat| ==> full[i] == loose[i - |flat|] && full[i] in loose && IntentOf(v, full[i]).None?
    {
    }
    assert forall o :: o in full <==> o in flat || o in loose;
  }

  function StatusFor(verdict: Verdict): Status {
    match verdict
    case PortfolioSaved => Executed
    case PortfolioUnsaved => PendingPrice
    case Rejected => FailedReconciliation
  }

  /** What the preflight tells Phase 2 about one member is what the decision says. */
  lemma MemberDecision(v: View, ci: Body, p: Preflight, o: string)
    requires ci.CommitIntent? && InBatch(v, ci, o) && Usable(p, v, ci)
    ensures Outcome(v, o) == StatusFor(p.verdict)
    ensures p.verdict == PortfolioSaved && o in p.needs ==> o in p.fillings && p.fillings[o].Filling?
    ensures WritesFor(v, o) ==
      (if p.verdict == PortfolioSaved && o in p.needs then [AppendFill(MarkerFor(o, p.fillings[o], ci))] else [])
      + [Write.SaveOrder(v.orders[o].(status := StatusFor(p.verdict)))]
  {
    MembersAreNamed(v, ci);
    if p.verdict == PortfolioSaved {
      var executed :| Recorded(p, executed, v, ci, |ci.fills|);
      assert NamedUpTo(ci, |ci.fills|, o) && o in v.orders;
      assert o in p.needs <==> NeedsMarker(v, o);
    }
  }
}
