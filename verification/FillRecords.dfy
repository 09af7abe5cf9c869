/** The records of the fill write-ahead log (fills.jsonl) and the checks on one record. */
module FillRecords {
  import opened Sequences
  import opened Rounding

  /** `record_version` as stored: missing, an int, or some other JSON value. */
  datatype Version = Versionless | IntVersion(n: int) | BadVersion

  const CURRENT_VERSION := IntVersion(2)

  datatype Action = Buy | Sell | PyramidFill | UnknownAction

  datatype PriceSource = NextSessionOpen | OtherSource

  /** An instant: the opening bell of a session, or any other text. */
  datatype Timestamp = SessionOpen(session: string) | OtherInstant(text: string)

  /**
   * What a portfolio hash can see of a portfolio: the trades applied since the start and the
   * remaining canonical content (prices marked, cash rounding, ...).
   */
  datatype Portfolio = Portfolio(trades: seq<Trade>, content: int)
  datatype Trade = Trade(order: string, attempt: string)
  datatype StateHash = StateHash(of: Portfolio)

  /** SHA-256 of a record without its content_hash field; constructors are injective. */
  datatype Digest = Sha256(body: Body)

  datatype FillRef = FillRef(order: string, attempt: string, hash: Option<Digest>)

  datatype Amounts = Amounts(
    shares: real, price: real, grossPrice: real, slippageBps: int, slippage: real,
    commission: real, grossValue: real, totalCost: real, netCash: real,
    cashBefore: real, cashAfter: real)

  /** A record without its content_hash. An empty string stands for a missing or null value. */
  datatype Body =
    | Filling(
        order: string, attempt: string, fillId: string, tradeId: string, strategy: string,
        portfolioId: string, portfolioVersion: string, ticker: string, action: Action,
        amounts: Amounts, intended: string, actual: string, pricedAt: Option<Timestamp>,
        source: PriceSource, version: Version)
    | Persisted(
        order: string, attempt: string, fillId: string, fillingHash: Option<Digest>,
        commitId: string, post: Option<StateHash>, version: Version)
    | CommitIntent(
        commitId: string, strategy: string, portfolioId: string, portfolioVersion: string,
        pre: Option<StateHash>, post: Option<StateHash>, fills: seq<FillRef>, version: Version)
    | Unrecognised(order: string)

  /** A line of the file: a record and the content_hash stored with it, or text that does not parse. */
  datatype Line = Line(body: Body, stored: Option<Digest>) | Garbled

  function Stamp(b: Body): Line { Line(b, Some(Sha256(b))) }

  /** The stored hash is that of the record. */
  predicate Intact(line: Line) { line.Line? && line == Stamp(line.body) }

  function MakeFillId(order: string): string { "fill-" + order }

  /** One trade id per order, the same for every fill attempt. */
  function MakeTradeId(order: string): string { "trd-" + order }

  predicate Readable(v: Version) { v == Versionless || v == CURRENT_VERSION }

  // -------------------------------------------------------------------------
  // Checks on one record
  // -------------------------------------------------------------------------

  const TOLERANCE := 0.02
  const COST_TOLERANCE := 0.001

  predicate IsBuying(a: Action) { a == Buy || a == PyramidFill }

  function ExpectedNet(action: Action, gross: real, cost: real): real {
    if IsBuying(action) then Round2(-(gross + cost)) else Round2(gross - cost)
  }

  predicate CashOk(action: Action, m: Amounts) {
    && (IsBuying(action) ==> m.cashAfter <= m.cashBefore + TOLERANCE)
    && (action == Sell ==> m.cashAfter >= m.cashBefore - TOLERANCE)
    && Abs(m.cashAfter - Round2(m.cashBefore + m.netCash)) <= TOLERANCE
  }

  function Worth(shares: real, price: real): real { shares * price }

  predicate GrossOk(m: Amounts) {
    Abs(m.grossValue - Round2(Worth(m.shares, m.price))) <= TOLERANCE
  }

  predicate CostOk(action: Action, m: Amounts) {
    && m.totalCost >= m.commission - COST_TOLERANCE
    && Abs(m.totalCost - Round4(m.commission + m.slippage)) <= COST_TOLERANCE
    && Abs(m.netCash - ExpectedNet(action, m.grossValue, m.totalCost)) <= TOLERANCE
  }

  predicate SlippageOk(source: PriceSource, m: Amounts) {
    source == NextSessionOpen ==> m.slippageBps == 0 && m.slippage == 0.0
  }

  /** Every numeric check the loader makes on a filling record. */
  predicate AmountsOk(action: Action, source: PriceSource, m: Amounts) {
    && m.shares > 0.0 && m.price > 0.0
    && CashOk(action, m) && CostOk(action, m) && GrossOk(m) && SlippageOk(source, m)
  }

  /** Every check on a filling record but the numeric ones. */
  predicate FillingShaped(b: Body)
    requires b.Filling?
  {
    && Readable(b.version)
    && b.fillId == MakeFillId(b.order)
    && b.action != UnknownAction
    && b.intended == b.actual
    && b.pricedAt == Some(SessionOpen(b.intended))
  }

  predicate PersistedOk(b: Body)
    requires b.Persisted?
  {
    && Readable(b.version)
    && b.fillId == MakeFillId(b.order)
    && b.fillingHash.Some? && b.post.Some?
    && (b.version != Versionless ==> b.commitId != "")
  }

  predicate RefComplete(r: FillRef) { r.order != "" && r.attempt != "" && r.hash.Some? }

  ghost predicate RefsOk(fills: seq<FillRef>) {
    && (forall i :: 0 <= i < |fills| ==> RefComplete(fills[i]))
    && (forall i, j :: 0 <= i < j < |fills| ==>
          fills[i].order != fills[j].order && fills[i].attempt != fills[j].attempt)
  }

  ghost predicate IntentOk(b: Body)
    requires b.CommitIntent?
  {
    Readable(b.version) && b.post.Some? && b.fills != [] && RefsOk(b.fills)
  }

  /** Every check on a record but the numeric ones on a filling. */
  ghost predicate BodyShaped(b: Body) {
    match b
    case Filling(_, _, _, _, _, _, _, _, _, _, _, _, _, _, _) => FillingShaped(b)
    case Persisted(_, _, _, _, _, _, _) => PersistedOk(b)
    case CommitIntent(_, _, _, _, _, _, _, _) => IntentOk(b)
    case Unrecognised(_) => true
  }

  /** The numeric checks, which only filling records have. */
  predicate Priced(b: Body) {
    b.Filling? ==> AmountsOk(b.action, b.source, b.amounts)
  }

  ghost predicate BodyOk(b: Body) { BodyShaped(b) && Priced(b) }

  // -------------------------------------------------------------------------
  // Views of the log
  // -------------------------------------------------------------------------

  predicate ConcernsOrder(b: Body, order: string) {
    !b.CommitIntent? && order != "" && b.order == order
  }

  function AboutOrder(order: string): Body -> bool { b => ConcernsOrder(b, order) }

  function IsIntent(): Body -> bool { (b: Body) => b.CommitIntent? }

  function IsPersisted(): Body -> bool { (b: Body) => b.Persisted? }

  function FillingOf(attempt: string): Body -> bool {
    (b: Body) => b.Filling? && b.attempt == attempt
  }

  function RefOf(order: string): FillRef -> bool { (r: FillRef) => r.order == order }

  /** `events_by_order[order]`: the order's records in the order they were written. */
  function Events(wal: seq<Body>, order: string): seq<Body> { Filter(wal, AboutOrder(order)) }

  /** The commit intents in chronological order. */
  function Intents(wal: seq<Body>): seq<Body> { Filter(wal, IsIntent()) }

  function Markers(events: seq<Body>): seq<Body> { Filter(events, IsPersisted()) }

  function Fillings(events: seq<Body>, attempt: string): seq<Body> {
    Filter(events, FillingOf(attempt))
  }

  lemma EventMembers(wal: seq<Body>, order: string)
    ensures forall b :: b in Events(wal, order) <==> b in wal && ConcernsOrder(b, order)
  {
    FilterMembers(wal, AboutOrder(order));
  }

  lemma IntentMembers(wal: seq<Body>)
    ensures forall b :: b in Intents(wal) <==> b in wal && b.CommitIntent?
  {
    FilterMembers(wal, IsIntent());
  }

  /** One more record joins the commit intents, or the records of its order. */
  lemma GroupingGrows(wal: seq<Body>, b: Body)
    ensures Intents(wal + [b]) == if b.CommitIntent? then Intents(wal) + [b] else Intents(wal)
    ensures forall o :: Events(wal + [b], o) ==
                        if ConcernsOrder(b, o) then Events(wal, o) + [b] else Events(wal, o)
  {
    FilterSnoc(wal, b, IsIntent());
    forall o
      ensures Events(wal + [b], o) ==
        if ConcernsOrder(b, o) then Events(wal, o) + [b] else Events(wal, o)
    {
      FilterSnoc(wal, b, AboutOrder(o));
    }
  }

  // -------------------------------------------------------------------------
  // Checks across records
  // -------------------------------------------------------------------------

  /** Two filling records of real orders never share an attempt id unless they are identical. */
  predicate NoTwins(a: Body, b: Body) {
    a.Filling? && b.Filling? && a.order != "" && b.order != "" && a.attempt != "" ==>
      a.attempt == b.attempt ==> a == b
  }

  /** Persisted markers of one order repeat each other. */
  predicate MarkersAgree(a: Body, b: Body) {
    a.Persisted? && b.Persisted? && a.order != "" && a.order == b.order ==>
      a.attempt == b.attempt && a.commitId == b.commitId
      && a.post == b.post && a.fillingHash == b.fillingHash
  }

  predicate CommitIdsDiffer(a: Body, b: Body) {
    a.CommitIntent? && b.CommitIntent? ==> a.commitId != b.commitId
  }

  /** A fill reference names exactly one filling record, by content and by portfolio. */
  predicate RefResolves(wal: seq<Body>, ci: Body, r: FillRef)
    requires ci.CommitIntent?
  {
    var found := Fillings(Events(wal, r.order), r.attempt);
    && |found| == 1 && found[0].Filling?
    && r.hash == Some(Sha256(found[0]))
    && found[0].strategy == ci.strategy
    && found[0].portfolioId == ci.portfolioId
    && found[0].portfolioVersion == ci.portfolioVersion
  }

  /** Everything the loader asks of a log but the numeric checks on its filling records. */
  ghost predicate Coherent(wal: seq<Body>) {
    && (forall b :: b in wal ==> BodyShaped(b))
    && (forall i, j :: 0 <= i < j < |wal| ==> NoTwins(wal[i], wal[j]))
    && (forall i, j :: 0 <= i < j < |wal| ==> MarkersAgree(wal[i], wal[j]))
    && (forall i, j :: 0 <= i < j < |wal| ==> CommitIdsDiffer(wal[i], wal[j]))
    && (forall ci, r :: ci in wal && ci.CommitIntent? && r in ci.fills ==> RefResolves(wal, ci, r))
  }

  ghost predicate AllPriced(wal: seq<Body>) { forall b :: b in wal ==> Priced(b) }

  /** The logs the loader accepts. */
  ghost predicate Accepted(wal: seq<Body>) { Coherent(wal) && AllPriced(wal) }
}
