/** project_fills_to_trades: replaying persisted fills into the trade table. */
module Projection {
  import opened Sequences
  import opened Rounding
  import opened FillRecords
  import opened FillLoader
  import opened FillChain

  /**
   * A row of trades.csv; `net`, `executionSession` and the ids may be missing in old rows. The columns that
   * repeat others (gross price, commission, gross value) are left aside.
   */
  datatype Row = Row(
    date: string, strategy: string, action: Action, ticker: string,
    shares: real, price: real, value: real, cost: real, totalCost: real, net: Option<real>,
    executionSession: Option<string>, order: Option<string>, tradeId: Option<string>, recovered: bool)

  /** What identifies a trade that has no id. */
  datatype ContentKey = ContentKey(strategy: string, sold: bool, ticker: string, day: string, shares: real)

  function Day(session: string): string {
    if |session| <= 10 then session else session[..10]
  }

  function KeyOf(strategy: string, action: Action, ticker: string, session: string, shares: real): ContentKey {
    ContentKey(strategy, action == Sell, ticker, Day(session), Round4(shares))
  }

  function RowKey(r: Row): ContentKey {
    var session := if r.executionSession.Some? && r.executionSession.value != "" then r.executionSession.value
                   else r.date;
    KeyOf(r.strategy, r.action, r.ticker, session, r.shares)
  }

  function FillingKey(f: Body): ContentKey
    requires f.Filling?
  {
    KeyOf(f.strategy, f.action, f.ticker, f.actual, f.amounts.shares)
  }

  function RowOf(f: Body): Row
    requires f.Filling?
  {
    var m := f.amounts;
    Row(f.actual, f.strategy, f.action, f.ticker, m.shares, m.price, m.grossValue, m.commission, m.totalCost,
        Some(m.netCash), Some(f.actual), Some(f.order), Some(f.tradeId), true)
  }

  function TradeIds(rows: seq<Row>): set<string> {
    set r | r in rows && r.tradeId.Some? :: r.tradeId.value
  }

  function ContentKeys(rows: seq<Row>): set<ContentKey> {
    set r | r in rows :: RowKey(r)
  }

  /** What the log says about one order: nothing to replay, a filling to replay, or a broken chain. */
  function Replayable(order: string, events: seq<Body>, intents: seq<Body>): (r: Result<Option<Body>>)
    ensures r.Ok? && r.value.Some? ==> r.value.value.Filling?
  {
    var markers := Markers(events);
    if markers == [] || markers[0].version != CURRENT_VERSION then Ok(None) else
    var chain := ResolveFill(order, events, intents, None, true);
    if chain.Err? then Err(chain.reason) else
    if chain.value.marker.commitId == "" || chain.value.filling.tradeId == "" then Ok(None) else
    Ok(Some(chain.value.filling))
  }

  /** The filling that the log says to replay for an order, if any. */
  function FillFor(wal: seq<Body>, o: string): (f: Option<Body>)
    ensures f.Some? ==> f.value.Filling?
  {
    var fill := Replayable(o, Events(wal, o), Intents(wal));
    if fill.Ok? then fill.value else None
  }

  /** The trade of a filling is in the table, by id or by content. */
  predicate Represented(f: Body, rows: seq<Row>)
    requires f.Filling?
  {
    f.tradeId in TradeIds(rows) || FillingKey(f) in ContentKeys(rows)
  }

  /** The rows after replaying the orders of `listing` one by one. */
  function Project(wal: seq<Body>, listing: seq<string>, rows: seq<Row>): Result<seq<Row>> {
    if listing == [] then Ok(rows)
    else
      var before := Project(wal, listing[..|listing| - 1], rows);
      if before.Err? then before else
      var order := listing[|listing| - 1];
      var fill := Replayable(order, Events(wal, order), Intents(wal));
      if fill.Err? then Err(fill.reason) else
      if fill.value.None? || Represented(fill.value.value, before.value) then before else
      Ok(before.value + [RowOf(fill.value.value)])
  }

  /** project_fills_to_trades: loading the log comes first and may refuse it. */
  ghost function LoadAndProject(wal: seq<Body>, listing: seq<string>, rows: seq<Row>): Result<seq<Row>> {
    if !Accepted(wal) then Err("fill ledger refused") else Project(wal, listing, rows)
  }

  /** Loads the log and replays it, in whatever order the dictionary yields. */
  method ProjectFillsToTrades(lines: seq<Line>, rows: seq<Row>)
    returns (ok: bool, result: seq<Row>, ghost listing: seq<string>)
    ensures !LoaderAccepts(lines) ==> !ok && result == rows
    ensures LoaderAccepts(lines) ==>
              && Distinct(listing) && (forall o :: o in listing <==> Events(Kept(lines), o) != [])
              && (ok <==> LoadAndProject(Kept(lines), listing, rows).Ok?)
              && (ok ==> LoadAndProject(Kept(lines), listing, rows) == Ok(result))
  {
    hide Accepted, LinesOk, Project;
    var loaded, events, intents, left := LoadFillEvents(lines);
    listing := [];
    if !loaded {
      return false, rows, [];
    }
    var todo, order := events.Keys, [];
    while todo != {}
      invariant Distinct(order) && todo <= events.Keys
      invariant forall o :: o in order <==> o in events.Keys - todo
    {
      var o :| o in todo;
      assert forall i :: 0 <= i < |order| ==> order[i] in order;
      order := order + [o];
      todo := todo - {o};
    }
    listing := order;
    ok, result := ProjectFills(Kept(lines), events, intents, order, rows);
    if !ok {
      result := rows;
    }
  }

  /** The loop over the loaded events. */
  method ProjectFills(wal: seq<Body>, events: map<string, seq<Body>>, intents: seq<Body>,
                      listing: seq<string>, rows: seq<Row>)
    returns (ok: bool, result: seq<Row>)
    requires forall o :: o in listing <==> o in events
    requires forall o :: o in events ==> events[o] == Events(wal, o)
    requires intents == Intents(wal)
    ensures ok <==> Project(wal, listing, rows).Ok?
    ensures ok ==> Project(wal, listing, rows) == Ok(result)
  {
    hide Replayable, TradeIds, ContentKeys, RowKey, FillingKey, RowOf, Events, Intents;
    var knownIds, knownKeys := TradeIds(rows), ContentKeys(rows);
    result := rows;
    for i := 0 to |listing|
      invariant Project(wal, listing[..i], rows) == Ok(result)
      invariant knownIds == TradeIds(result) && knownKeys == ContentKeys(result)
    {
      var order := listing[i];
      assert listing[..i + 1][..i] == listing[..i];
      var fill := Replayable(order, events[order], intents);
      if fill.Err? {
        FailurePersists(wal, listing, i + 1, rows);
        return false, rows;
      }
      if fill.value.Some? {
        var f := fill.value.value;
        if f.tradeId !in knownIds && FillingKey(f) !in knownKeys {
          RowOfFilling(f, result);
          result := result + [RowOf(f)];
          knownIds := knownIds + {f.tradeId};
          knownKeys := knownKeys + {FillingKey(f)};
        }
      }
    }
    assert listing[..|listing|] == listing;
    return true, result;
  }

  lemma {:induction false} FailurePersists(wal: seq<Body>, listing: seq<string>, k: nat, rows: seq<Row>)
    requires k <= |listing| && Project(wal, listing[..k], rows).Err?
    ensures Project(wal, listing, rows).Err?
  {
    if k < |listing| {
      var front := listing[..|listing| - 1];
      assert front[..k] == listing[..k];
      FailurePersists(wal, front, k, rows);
    } else {
      assert listing[..k] == listing;
    }
  }

  /** The row written for a filling is found again under the filling's own id and content key. */
  lemma RowOfFilling(f: Body, rows: seq<Row>)
    requires f.Filling?
    ensures RowKey(RowOf(f)) == FillingKey(f)
    ensures TradeIds(rows + [RowOf(f)]) == TradeIds(rows) + {f.tradeId}
    ensures ContentKeys(rows + [RowOf(f)]) == ContentKeys(rows) + {FillingKey(f)}
  {
    var row, all := RowOf(f), rows + [RowOf(f)];
    assert forall r :: r in all <==> r in rows || r == row;
    assert row in all;
  }

  /**
   * Replaying keeps the existing rows, adds only rows of replayable orders whose trades are not yet in the
   * table, and leaves every replayable order of the listing represented.
   */
  lemma {:induction false} ProjectionIsComplete(wal: seq<Body>, listing: seq<string>, rows: seq<Row>)
    requires Project(wal, listing, rows).Ok?
    ensures
      var result := Project(wal, listing, rows).value;
      && rows <= result
      && (forall k :: |rows| <= k < |result| ==>
            result[k].tradeId.Some? && result[k].tradeId.value !in TradeIds(result[..k])
            && RowKey(result[k]) !in ContentKeys(result[..k])
            && exists o :: o in listing && FillFor(wal, o).Some? && result[k] == RowOf(FillFor(wal, o).value))
      && (forall o :: o in listing ==>
            var fill := Replayable(o, Events(wal, o), Intents(wal));
            fill.Ok? && (fill.value.Some? ==> Represented(fill.value.value, result)))
  {
    hide Replayable, TradeIds, ContentKeys, RowKey, FillingKey, Events, Intents;
    if listing != [] {
      var front := listing[..|listing| - 1];
      ProjectionIsComplete(wal, front, rows);
      var before := Project(wal, front, rows).value;
      var result := Project(wal, listing, rows).value;
      var order := listing[|listing| - 1];
      var fill := Replayable(order, Events(wal, order), Intents(wal));
      assert listing == front + [order];
      if result != before {
        RowOfFilling(fill.value.value, before);
        assert forall k :: 0 <= k <= |before| ==> result[..k] == before[..k];
        assert before[..|before|] == before;
        assert FillFor(wal, order) == fill.value;
      }
    }
  }

  /** Nothing is added for a listing whose orders are all represented already. */
  lemma {:induction false} NothingLeftToReplay(wal: seq<Body>, listing: seq<string>, rows: seq<Row>)
    requires forall o :: o in listing ==>
      var fill := Replayable(o, Events(wal, o), Intents(wal));
      fill.Ok? && (fill.value.Some? ==> Represented(fill.value.value, rows))
    ensures Project(wal, listing, rows) == Ok(rows)
  {
    if listing != [] {
      var front := listing[..|listing| - 1];
      assert forall o :: o in front ==> o in listing;
      NothingLeftToReplay(wal, front, rows);
      assert listing[|listing| - 1] in listing;
    }
  }

  /** Projecting twice equals projecting once, even when the second pass lists the orders differently. */
  lemma ProjectionIsIdempotent(wal: seq<Body>, listing: seq<string>, again: seq<string>, rows: seq<Row>)
    requires Project(wal, listing, rows).Ok?
    requires forall o :: o in again ==> o in listing
    ensures var once := Project(wal, listing, rows).value;
            Project(wal, again, once) == Ok(once)
  {
    ProjectionIsComplete(wal, listing, rows);
    NothingLeftToReplay(wal, again, Project(wal, listing, rows).value);
  }

  // -------------------------------------------------------------------------
  // Which trades get a row of their own
  // -------------------------------------------------------------------------

  /** The order is to be replayed and its trade id is not in the table. */
  predicate Missing(wal: seq<Body>, o: string, rows: seq<Row>) {
    FillFor(wal, o).Some? && FillFor(wal, o).value.tradeId !in TradeIds(rows)
  }

  ghost predicate IdsApart(wal: seq<Body>, listing: seq<string>) {
    forall a, b :: a in listing && b in listing && a != b && FillFor(wal, a).Some? && FillFor(wal, b).Some? ==>
      FillFor(wal, a).value.tradeId != FillFor(wal, b).value.tradeId
  }

  /** Every order to be replayed has a row under its own trade id. */
  ghost predicate AllOwn(wal: seq<Body>, listing: seq<string>, rows: seq<Row>) {
    forall o :: o in listing && FillFor(wal, o).Some? ==> FillFor(wal, o).value.tradeId in TradeIds(rows)
  }

  /** No missing trade has the content of a row in the table, or of another missing trade. */
  ghost predicate NoClash(wal: seq<Body>, listing: seq<string>, rows: seq<Row>) {
    && (forall o :: o in listing && Missing(wal, o, rows) ==> FillingKey(FillFor(wal, o).value) !in ContentKeys(rows))
    && (forall a, b :: a in listing && b in listing && a != b && Missing(wal, a, rows) && Missing(wal, b, rows) ==>
          FillingKey(FillFor(wal, a).value) != FillingKey(FillFor(wal, b).value))
  }

  /** A missing trade of the listing with this content. */
  ghost predicate MissingWith(wal: seq<Body>, listing: seq<string>, rows: seq<Row>, key: ContentKey) {
    exists o :: o in listing && Missing(wal, o, rows) && FillingKey(FillFor(wal, o).value) == key
  }

  ghost predicate IdFrom(wal: seq<Body>, listing: seq<string>, id: string) {
    exists o :: o in listing && FillFor(wal, o).Some? && FillFor(wal, o).value.tradeId == id
  }

  /**
   * Because rows are also recognised by content, two trades of one strategy, side, ticker, day and share
   * count pass for one. Every replayed order gets a row under its own trade id exactly if no missing trade
   * has the content of a row in the table or of another missing trade.
   */
  lemma {:induction false} OwnRowsIff(wal: seq<Body>, listing: seq<string>, rows: seq<Row>)
    requires Project(wal, listing, rows).Ok? && Distinct(listing) && IdsApart(wal, listing)
    ensures var result := Project(wal, listing, rows).value;
      && (AllOwn(wal, listing, result) <==> NoClash(wal, listing, rows))
      && (forall id :: id in TradeIds(result) ==> id in TradeIds(rows) || IdFrom(wal, listing, id))
      && (forall key :: key in ContentKeys(result) <==> key in ContentKeys(rows) || MissingWith(wal, listing, rows, key))
  {
    hide Replayable, TradeIds, ContentKeys, RowKey, FillingKey, Events, Intents, AllOwn, NoClash, IdsApart,
         MissingWith, IdFrom;
    if listing == [] {
      NothingReplayed(wal, rows);
    } else {
      var front, o := listing[..|listing| - 1], listing[|listing| - 1];
      assert listing == front + [o];
      assert forall x :: x in front ==> x in listing;
      ApartBefore(wal, front, o);
      OwnRowsIff(wal, front, rows);
      var before := Project(wal, front, rows).value;
      ProjectionIsComplete(wal, front, rows);
      IdsKept(rows, before);
      OneMoreRow(wal, front, o, rows, before);
    }
  }

  lemma NothingReplayed(wal: seq<Body>, rows: seq<Row>)
    ensures AllOwn(wal, [], rows) && NoClash(wal, [], rows)
    ensures forall key :: !MissingWith(wal, [], rows, key)
  {
  }

  lemma IdsKept(rows: seq<Row>, more: seq<Row>)
    requires rows <= more
    ensures TradeIds(rows) <= TradeIds(more) && ContentKeys(rows) <= ContentKeys(more)
  {
    assert forall r :: r in rows ==> r in more;
  }

  lemma ApartBefore(wal: seq<Body>, front: seq<string>, o: string)
    requires Distinct(front + [o]) && IdsApart(wal, front + [o])
    ensures Distinct(front) && IdsApart(wal, front) && o !in front
  {
    var all := front + [o];
    assert forall x :: x in front ==> x in all;
    assert forall k :: 0 <= k < |front| ==> all[k] == front[k];
    assert all[|front|] == o;
  }

  /** What one more order adds to the conditions on a listing. */
  lemma ListingGrows(wal: seq<Body>, front: seq<string>, o: string, rows: seq<Row>)
    requires o !in front
    ensures forall id :: IdFrom(wal, front + [o], id) <==>
              IdFrom(wal, front, id) || (FillFor(wal, o).Some? && FillFor(wal, o).value.tradeId == id)
    ensures forall key :: MissingWith(wal, front + [o], rows, key) <==>
              MissingWith(wal, front, rows, key) || (Missing(wal, o, rows) && FillingKey(FillFor(wal, o).value) == key)
  {
    hide Missing, FillFor, FillingKey, TradeIds;
    assert forall x :: x in front + [o] <==> x in front || x == o;
  }

  lemma ClashGrows(wal: seq<Body>, front: seq<string>, o: string, rows: seq<Row>)
    requires o !in front
    ensures NoClash(wal, front + [o], rows) <==>
              && NoClash(wal, front, rows)
              && (Missing(wal, o, rows) ==>
                    var key := FillingKey(FillFor(wal, o).value);
                    key !in ContentKeys(rows) && !MissingWith(wal, front, rows, key))
  {
    hide FillFor, FillingKey, TradeIds, ContentKeys;
    assert forall x :: x in front + [o] <==> x in front || x == o;
  }

  lemma OwnGrows(wal: seq<Body>, front: seq<string>, o: string, rows: seq<Row>)
    ensures AllOwn(wal, front + [o], rows) <==>
              AllOwn(wal, front, rows) && (FillFor(wal, o).Some? ==> FillFor(wal, o).value.tradeId in TradeIds(rows))
  {
    hide FillFor, TradeIds;
    assert forall x :: x in front + [o] <==> x in front || x == o;
  }

  /** Another order's row is no row of the earlier orders. */
  lemma OwnApart(wal: seq<Body>, front: seq<string>, o: string, before: seq<Row>, after: seq<Row>)
    requires IdsApart(wal, front + [o]) && o !in front && FillFor(wal, o).Some?
    requires TradeIds(after) == TradeIds(before) + {FillFor(wal, o).value.tradeId}
    ensures AllOwn(wal, front, after) <==> AllOwn(wal, front, before)
    ensures !IdFrom(wal, front, FillFor(wal, o).value.tradeId)
  {
    hide FillFor, TradeIds;
    assert forall x :: x in front + [o] <==> x in front || x == o;
  }

  /** What one more order of the listing does to the table. */
  lemma OneMoreRow(wal: seq<Body>, front: seq<string>, o: string, rows: seq<Row>, before: seq<Row>)
    requires IdsApart(wal, front + [o]) && o !in front
    requires AllOwn(wal, front, before) <==> NoClash(wal, front, rows)
    requires forall id :: id in TradeIds(before) ==> id in TradeIds(rows) || IdFrom(wal, front, id)
    requires forall key :: key in ContentKeys(before) <==> key in ContentKeys(rows) || MissingWith(wal, front, rows, key)
    requires TradeIds(rows) <= TradeIds(before)
    ensures var fill := FillFor(wal, o);
      var result := if fill.None? || Represented(fill.value, before) then before else before + [RowOf(fill.value)];
      && (AllOwn(wal, front + [o], result) <==> NoClash(wal, front + [o], rows))
      && (forall id :: id in TradeIds(result) ==> id in TradeIds(rows) || IdFrom(wal, front + [o], id))
      && (forall key :: key in ContentKeys(result) <==>
                        key in ContentKeys(rows) || MissingWith(wal, front + [o], rows, key))
  {
    hide FillFor, TradeIds, ContentKeys, RowOf, FillingKey, AllOwn, NoClash, IdsApart, MissingWith, IdFrom;
    ListingGrows(wal, front, o, rows);
    ClashGrows(wal, front, o, rows);
    OwnGrows(wal, front, o, before);
    var fill := FillFor(wal, o);
    if fill.Some? {
      var after := before + [RowOf(fill.value)];
      RowOfFilling(fill.value, before);
      OwnApart(wal, front, o, before, after);
      OwnGrows(wal, front, o, after);
    }
  }

  /** A trade whose content is in the table already never gets a row of its own. */
  lemma {:induction false} EchoIsNotReplayed(wal: seq<Body>, listing: seq<string>, rows: seq<Row>, o: string)
    requires Project(wal, listing, rows).Ok? && IdsApart(wal, listing + [o]) && FillFor(wal, o).Some?
    requires FillingKey(FillFor(wal, o).value) in ContentKeys(rows) && FillFor(wal, o).value.tradeId !in TradeIds(rows)
    ensures FillFor(wal, o).value.tradeId !in TradeIds(Project(wal, listing, rows).value)
  {
    hide Replayable, TradeIds, ContentKeys, RowKey, FillingKey, Events, Intents, RowOf;
    if listing != [] {
      var front, last := listing[..|listing| - 1], listing[|listing| - 1];
      assert listing == front + [last];
      assert forall x :: x in front + [o] ==> x in listing + [o];
      EchoIsNotReplayed(wal, front, rows, o);
      ProjectionIsComplete(wal, front, rows);
      var before := Project(wal, front, rows).value;
      IdsKept(rows, before);
      assert last in listing + [o] && o in listing + [o];
      if FillFor(wal, last).Some? {
        RowOfFilling(FillFor(wal, last).value, before);
      }
    }
  }

  // -------------------------------------------------------------------------
  // What is recognised, and what is restored
  // -------------------------------------------------------------------------

  /**
   * A row passes for the trade of a filling exactly if strategy, side, ticker and day agree and the share
   * counts do to four decimals; the day is the first ten characters of the session, or of the date in old rows.
   */
  lemma RecognisedIff(f: Body, r: Row)
    requires f.Filling?
    ensures
      var session := if r.executionSession.Some? && r.executionSession.value != "" then r.executionSession.value else r.date;
      RowKey(r) == FillingKey(f) <==>
        && r.strategy == f.strategy && r.ticker == f.ticker && (r.action == Sell <==> f.action == Sell)
        && (if |session| <= 10 then session else session[..10]) == (if |f.actual| <= 10 then f.actual else f.actual[..10])
        && Round4(r.shares) == Round4(f.amounts.shares)
  {
  }

  /**
   * Only what was committed is restored: the first marker of the order, of version 2, names a filling with its
   * hash, and a commit intent on record names that filling and has the marker's post state.
   */
  lemma RestoredWasCommitted(wal: seq<Body>, o: string) returns (marker: Body, ci: Body)
    requires Coherent(wal) && FillFor(wal, o).Some?
    ensures var f := FillFor(wal, o).value;
      && f in wal && f.Filling? && f.order == o && f.tradeId != "" && f.version == IntVersion(2)
      && Markers(Events(wal, o)) != [] && marker == Markers(Events(wal, o))[0] && marker.Persisted?
      && marker.version == IntVersion(2) && marker.attempt == f.attempt && marker.fillingHash == Some(Sha256(f))
      && ci in wal && ci.CommitIntent? && ci.commitId == marker.commitId && ci.post == marker.post
      && ci.version == IntVersion(2) && FillRef(o, f.attempt, Some(Sha256(f))) in ci.fills
  {
    var chain := ResolveFill(o, Events(wal, o), Intents(wal), None, true).value;
    ChainIsRecorded(wal, o, None, true);
    ResolversAgree(wal, o, None);
    FirstMarkerOk(wal, o);
    marker := chain.marker;
    FirstNamedIntent(wal, marker.commitId);
    ci := chain.intent.value;
    FilterMembers(Intents(wal), IntentNamed(marker.commitId));
    assert ci in Filter(Intents(wal), IntentNamed(marker.commitId));
    NamedReference(o, Events(wal, o), ci);
  }

  lemma NamedReference(o: string, events: seq<Body>, ci: Body)
    requires ci.CommitIntent? && ResolveFromIntent(o, events, ci, CURRENT_VERSION).Ok?
    ensures var named := ResolveFromIntent(o, events, ci, CURRENT_VERSION).value;
            named.ref in ci.fills && named.ref.order == o
  {
    FilterMembers(ci.fills, RefOf(o));
    assert Filter(ci.fills, RefOf(o))[0] in Filter(ci.fills, RefOf(o));
  }

  /** An order whose first marker is from before versions is passed over, whatever else the log says of it. */
  lemma OldMarkersSkipped(wal: seq<Body>, o: string)
    requires Markers(Events(wal, o)) != [] && Markers(Events(wal, o))[0].version != IntVersion(2)
    ensures Replayable(o, Events(wal, o), Intents(wal)) == Ok(None)
  {
  }
}
