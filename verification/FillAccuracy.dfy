/** Whether the fill events written for executed trades pass the numeric checks made when they are read. */
module FillAccuracy {
  import opened Sequences
  import opened Rounding
  import opened FillRecords
  import opened Trading

  /** The amounts write_fill_event records for a trade, given the cash before and after it. */
  function Recorded(t: Ticket, cashBefore: real, cashAfter: real): Amounts {
    Amounts(Round6(t.shares), Round4(t.price), Round4(t.price), 0, Round4(0.0), Round4(t.cost),
            Round2(t.value), Round4(t.cost), Round2(t.net), Round2(cashBefore), Round2(cashAfter))
  }

  /** Rounding the amounts of a trade again on writing changes none of them. */
  lemma RecordedTwiceRounded(action: Action, ticker: string, s: real, p: real, v: real, session: string,
                             before: real, after: real)
    ensures var c := TradeCost(v, action == Sell);
            var net := if action == Sell then v - c else -(v + c);
            Recorded(Stub(action, ticker, s, p, v, session), before, after)
            == Amounts(Round6(s), Round2(p), Round2(p), 0, 0.0, Round2(c), Round2(v), Round2(c), Round2(net),
                       Round2(before), Round2(after))
  {
    hide Round2, Round4, Round6, RoundToInt;
    var c := TradeCost(v, action == Sell);
    var net := if action == Sell then v - c else -(v + c);
    Round6Idempotent(s);
    RoundedCents(p);
    RoundedCents(c);
    RoundedCents(v);
    RoundedCents(net);
    CentsCounted(0.0, 0);
    RoundKeepsCents(0.0);
  }

  lemma RoundedCents(x: real)
    ensures WholeCents(Round2(x)) && Round2(Round2(x)) == Round2(x) && Round4(Round2(x)) == Round2(x)
  {
    RoundIsWholeCents(x);
    RoundKeepsCents(Round2(x));
  }

  /** Costs: three roundings are off by at most one and a half cents. */
  lemma CostAlwaysOk(action: Action, m: Amounts, v: real, c: real)
    requires action != UnknownAction && m.slippage == 0.0 && m.commission == m.totalCost == Round2(c)
    requires m.grossValue == Round2(v) && m.netCash == Round2(if action == Sell then v - c else -(v + c))
    ensures CostOk(action, m)
  {
    hide Round2, Round4, RoundToInt;
    RoundedCents(c);
    RoundedCents(v);
    CentsArithmetic(Round2(v), Round2(c));
    CentsArithmetic(Round2(v) + Round2(c), 0.0) by { CentsCounted(0.0, 0); }
    RoundKeepsCents(Round2(v) - Round2(c));
    RoundKeepsCents(-(Round2(v) + Round2(c)));
    RoundError(v);
    RoundError(c);
    RoundError(v - c);
    RoundError(-(v + c));
  }

  /** Cash: the rounded balance moves by the rounded effect, up to one and a half cents. */
  lemma CashAlwaysOk(action: Action, m: Amounts, before: real, net: real)
    requires action == Sell ==> net >= 0.0
    requires action != Sell ==> net <= 0.0
    requires m.cashBefore == Round2(before) && m.cashAfter == Round2(before + net) && m.netCash == Round2(net)
    ensures CashOk(action, m)
  {
    hide Round2, RoundToInt;
    RoundedCents(before);
    RoundedCents(net);
    CentsArithmetic(Round2(before), Round2(net));
    RoundKeepsCents(Round2(before) + Round2(net));
    RoundError(before);
    RoundError(net);
    RoundError(before + net);
    if net >= 0.0 {
      RoundMonotone(before, before + net);
    } else {
      RoundMonotone(before + net, before);
    }
  }

  /** The event written for the trade an operation makes. */
  function EventOf(a: Account, op: Op): Amounts
    requires Perform(a, op).ticket.Some?
  {
    Recorded(Perform(a, op).ticket.value, a.cash, Perform(a, op).account.cash)
  }

  /** The exact value of the trade, before rounding. */
  function ValueTraded(a: Account, op: Op): real
    requires Perform(a, op).ticket.Some?
  {
    match op
    case DoBuy(_, target, price, signal, move, _, _) => SizeBuy(a.cash, target, price, signal, move).value
    case DoSell(ticker, price, _) => Worth(a.positions[ticker].shares, price.value)
    case DoFill(ticker, _, _, _) => SizeFill(a.cash, a.positions[ticker].remaining).value
  }

  /** The exact number of shares traded. */
  function SharesTraded(a: Account, op: Op): real
    requires Perform(a, op).ticket.Some?
  {
    if op.DoSell? then a.positions[op.ticker].shares else ValueTraded(a, op) / op.price.value
  }

  function ActionOf(op: Op): Action { if op.DoBuy? then Buy else if op.DoSell? then Sell else PyramidFill }

  function NetOf(op: Op, v: real): real {
    var c := TradeCost(v, op.DoSell?);
    if op.DoSell? then v - c else -(v + c)
  }

  lemma TradeMade(a: Account, op: Op)
    requires Perform(a, op).ticket.Some?
    ensures op.price.Some?
    ensures var s, v := SharesTraded(a, op), ValueTraded(a, op);
            && v == Worth(s, op.price.value)
            && Perform(a, op).ticket.value == Stub(ActionOf(op), op.ticker, s, op.price.value, v, op.session)
            && Perform(a, op).account.cash == a.cash + NetOf(op, v)
    ensures !op.DoSell? ==> ValueTraded(a, op) >= MIN_POSITION_VALUE
  {
    hide Round2, Round4, Round6, Gap, Topped, Opened, RoundToInt, SizeBuy, SizeFill;
    if op.DoBuy? {
      BuyMade(a, op);
    } else if op.DoFill? {
      FillMade(a, op);
    } else {
      SellMade(a, op);
    }
  }

  lemma SellMade(a: Account, op: Op)
    requires op.DoSell? && Perform(a, op).ticket.Some?
    ensures op.price.Some?
    ensures var s, v := SharesTraded(a, op), ValueTraded(a, op);
            && v == Worth(s, op.price.value)
            && Perform(a, op).ticket.value == Stub(Sell, op.ticker, s, op.price.value, v, op.session)
            && Perform(a, op).account.cash == a.cash + (v - TradeCost(v, true))
  {
    hide Round2, Round4, Round6, RoundToInt, Worth;
  }

  lemma BuyMade(a: Account, op: Op)
    requires op.DoBuy? && Perform(a, op).ticket.Some?
    ensures op.price.Some?
    ensures var s, v := SharesTraded(a, op), ValueTraded(a, op);
            && v == Worth(s, op.price.value)
            && Perform(a, op).ticket.value == Stub(Buy, op.ticker, s, op.price.value, v, op.session)
            && Perform(a, op).account.cash == a.cash - (v + TradeCost(v, false))
            && v >= MIN_POSITION_VALUE
  {
    hide Round2, Round4, Round6, TradeCost, Gap, Opened, RoundToInt;
    WorthOfQuotient(ValueTraded(a, op), op.price.value);
  }

  lemma FillMade(a: Account, op: Op)
    requires op.DoFill? && Perform(a, op).ticket.Some?
    ensures op.price.Some?
    ensures var s, v := SharesTraded(a, op), ValueTraded(a, op);
            && v == Worth(s, op.price.value)
            && Perform(a, op).ticket.value == Stub(PyramidFill, op.ticker, s, op.price.value, v, op.session)
            && Perform(a, op).account.cash == a.cash - (v + TradeCost(v, false))
            && v >= MIN_POSITION_VALUE
  {
    hide Round2, Round4, Round6, TradeCost, Topped, RoundToInt;
    WorthOfQuotient(ValueTraded(a, op), op.price.value);
  }

  /**
   * Of all the numeric checks made on reading, an executed trade can only fail those on the share
   * count, the price, and gross value against shares times price; the rest always pass.
   */
  lemma OnlyGrossCanFail(a: Account, op: Op)
    requires Perform(a, op).ticket.Some?
    requires op.DoSell? ==> a.positions[op.ticker].shares >= 0.0
    ensures var m := EventOf(a, op);
            AmountsOk(ActionOf(op), NextSessionOpen, m)
            <==> m.shares > 0.0 && m.price > 0.0 && GrossOk(m)
  {
    hide Round2, Round4, Round6, RoundToInt, Perform, GrossOk, CostOk, CashOk, TradeCost, ValueTraded, SharesTraded, Stub;
    TradeMade(a, op);
    var s, p, v := SharesTraded(a, op), op.price.value, ValueTraded(a, op);
    var after := Perform(a, op).account.cash;
    RecordedTwiceRounded(ActionOf(op), op.ticker, s, p, v, op.session, a.cash, after);
    CostAlwaysOk(ActionOf(op), EventOf(a, op), v, TradeCost(v, op.DoSell?));
    NetSign(a, op);
    CashAlwaysOk(ActionOf(op), EventOf(a, op), a.cash, NetOf(op, v));
  }

  lemma NetSign(a: Account, op: Op)
    requires Perform(a, op).ticket.Some?
    requires op.DoSell? ==> a.positions[op.ticker].shares >= 0.0
    ensures var net := NetOf(op, ValueTraded(a, op));
            if op.DoSell? then net >= 0.0 else net <= 0.0
  {
    TradeMade(a, op);
    if op.DoSell? {
      ProductSign(a.positions[op.ticker].shares, op.price.value);
    }
  }

  lemma ProductSign(s: real, p: real)
    requires s >= 0.0 && p >= 0.0
    ensures s * p >= 0.0
  {
  }

  /** The error the recorded share count and price leave in the gross value. */
  function GrossError(s: real, p: real): real { Abs(Worth(s, p) - Worth(Round6(s), Round2(p))) }

  /** shares·|p − round(p, 2)| + 5e-7·round(p, 2). */
  function GrossBound(s: real, p: real): real { Worth(s, Abs(p - Round2(p))) + 0.0000005 * Round2(p) }

  lemma GrossWithinBound(s: real, p: real)
    requires s >= 0.0 && p > 0.0
    ensures GrossError(s, p) <= GrossBound(s, p)
  {
    hide Round2, Round6, RoundToInt, Worth;
    RoundError(s);
    CentsCounted(0.0, 0);
    RoundKeepsCents(0.0);
    RoundMonotone(0.0, p);
    ErrorInParts(s, p, Round6(s), Round2(p));
  }

  lemma ErrorInParts(s: real, p: real, r: real, q: real)
    requires s >= 0.0 && q >= 0.0 && Abs(s - r) <= 0.0000005
    ensures Abs(Worth(s, p) - Worth(r, q)) <= Worth(s, Abs(p - q)) + 0.0000005 * q
  {
    hide Worth;
    SplitError(s, p, r, q);
    ProductBound(s, p - q);
    ScaleBound(s - r, q);
    Triangle(Worth(s, p - q), Worth(s - r, q));
  }

  lemma SplitError(s: real, p: real, r: real, q: real)
    ensures Worth(s, p) - Worth(r, q) == Worth(s, p - q) + Worth(s - r, q)
  {
  }

  lemma Triangle(x: real, y: real)
    ensures Abs(x + y) <= Abs(x) + Abs(y)
  {
  }

  lemma ProductBound(s: real, d: real)
    requires s >= 0.0
    ensures Abs(Worth(s, d)) == Worth(s, Abs(d))
  {
  }

  lemma ScaleBound(e: real, q: real)
    requires Abs(e) <= 0.0000005 && q >= 0.0
    ensures Abs(Worth(e, q)) <= 0.0000005 * q
  {
    ProductSign(0.0000005 - e, q);
    ProductSign(0.0000005 + e, q);
  }

  /** The check passes below an error of one cent and fails above three. */
  lemma GrossDecidedByError(m: Amounts, s: real, p: real)
    requires m.shares == Round6(s) && m.price == Round2(p) && m.grossValue == Round2(Worth(s, p))
    ensures GrossError(s, p) <= 0.01 ==> GrossOk(m)
    ensures GrossOk(m) ==> GrossError(s, p) <= 0.03
  {
    hide Round2, Round6, RoundToInt, Worth;
    RoundedApart(Worth(s, p), Worth(Round6(s), Round2(p)));
  }

  lemma RoundedApart(x: real, y: real)
    ensures Abs(x - y) <= 0.01 ==> Abs(Round2(x) - Round2(y)) <= 0.02
    ensures Abs(Round2(x) - Round2(y)) <= 0.02 ==> Abs(x - y) <= 0.03
  {
    hide Round2, Round4, Round6, RoundToInt;
    RoundError(x);
    RoundError(y);
  }

  /** At a price within the bound, at least the minimum value is neither at price zero nor of zero shares. */
  lemma MinimumIsRecorded(s: real, p: real)
    requires s >= 0.0 && p > 0.0 && Worth(s, p) >= MIN_POSITION_VALUE && GrossBound(s, p) <= 0.01
    ensures Round6(s) > 0.0 && Round2(p) > 0.0
  {
    hide Round2, Round6, RoundToInt, Worth;
    RoundError(s);
    RoundError(p);
    CentsCounted(0.0, 0);
    RoundKeepsCents(0.0);
    RoundMonotone(0.0, p);
    var q := Round2(p);
    NonNegativeWorth(s, Abs(p - q));
    assert q == 0.0 ==> Abs(p - q) == p;
    WorthBounded(s, p, 20000.005);
  }

  lemma NonNegativeWorth(s: real, p: real)
    requires s >= 0.0 && p >= 0.0
    ensures Worth(s, p) >= 0.0
  {
    ProductSign(s, p);
  }

  lemma WorthBounded(s: real, p: real, bound: real)
    requires s >= 0.0 && p <= bound && bound > 0.0
    ensures Worth(s, p) <= s * bound
  {
    ProductSign(s, bound - p);
    assert s * bound - s * p == s * (bound - p);
  }

  /**
   * Writer and reader agree: an event is accepted when shares·|p − round(p, 2)| + 5e-7·round(p, 2) is at
   * most a cent and, for a sale, neither share count nor price rounds to zero; it is refused when the
   * gross value is off by more than three cents.
   */
  lemma WrittenEventsAccepted(a: Account, op: Op)
    requires Perform(a, op).ticket.Some?
    requires op.DoSell? ==> a.positions[op.ticker].shares >= 0.0
    ensures var s, p, m := SharesTraded(a, op), op.price.value, EventOf(a, op);
            && (GrossBound(s, p) <= 0.01 && (op.DoSell? ==> m.shares > 0.0 && m.price > 0.0) ==>
                  AmountsOk(ActionOf(op), NextSessionOpen, m))
            && (AmountsOk(ActionOf(op), NextSessionOpen, m) ==> GrossError(s, p) <= 0.03)
  {
    hide Round2, Round4, Round6, RoundToInt, Perform, AmountsOk, GrossOk, TradeCost, ValueTraded, SharesTraded, GrossError, GrossBound;
    OnlyGrossCanFail(a, op);
    TradeMade(a, op);
    var s, p, v := SharesTraded(a, op), op.price.value, ValueTraded(a, op);
    RecordedTwiceRounded(ActionOf(op), op.ticker, s, p, v, op.session, a.cash, Perform(a, op).account.cash);
    NonNegativeShares(a, op);
    assert EventOf(a, op).grossValue == Round2(v) && v == Worth(s, p);
    GrossWithinBound(s, p);
    GrossDecidedByError(EventOf(a, op), s, p);
    if !op.DoSell? && GrossBound(s, p) <= 0.01 {
      MinimumIsRecorded(s, p);
    }
  }

  lemma NonNegativeShares(a: Account, op: Op)
    requires Perform(a, op).ticket.Some?
    requires op.DoSell? ==> a.positions[op.ticker].shares >= 0.0
    ensures SharesTraded(a, op) >= 0.0
  {
    hide Perform;
    TradeMade(a, op);
    if !op.DoSell? {
      QuotientSign(ValueTraded(a, op), op.price.value);
    }
  }

  lemma QuotientSign(v: real, p: real)
    requires v >= 0.0 && p > 0.0
    ensures v / p >= 0.0
  {
  }

  /**
   * In particular every buy and every pyramid fill at a whole-cent price of at most 20,000 is accepted,
   * and every sale of a share count that does not round to zero.
   */
  lemma WholeCentFillsAccepted(a: Account, op: Op)
    requires Perform(a, op).ticket.Some?
    requires op.DoSell? ==> a.positions[op.ticker].shares >= 0.0
    requires op.price.Some? && WholeCents(op.price.value) && op.price.value <= 20000.0
    requires op.DoSell? ==> EventOf(a, op).shares > 0.0
    ensures AmountsOk(ActionOf(op), NextSessionOpen, EventOf(a, op))
  {
    hide Round2, Round4, Round6, RoundToInt, Perform, AmountsOk, TradeCost, ValueTraded, SharesTraded;
    var p := op.price.value;
    RoundKeepsCents(p);
    TradeMade(a, op);
    RecordedTwiceRounded(ActionOf(op), op.ticker, SharesTraded(a, op), p, ValueTraded(a, op), op.session, a.cash,
                         Perform(a, op).account.cash);
    WrittenEventsAccepted(a, op);
  }

  const SUB_CENT := DoBuy("XYZ", 1000.4, Some(10.004), None, None, 0.0, "2026-01-05")

  const START := Account(10000.0, map[], map[], 0)

  /** 100 shares at 10.004: recorded as 1000.40 for 100 shares at 10.00, which the reader refuses. */
  lemma SubCentBuyRefused()
    ensures Perform(START, SUB_CENT).ticket.Some?
    ensures !AmountsOk(Buy, NextSessionOpen, EventOf(START, SUB_CENT))
  {
    hide Perform, Round2, Round4, Round6, RoundToInt, AmountsOk, GrossOk, TradeCost, GrossError;
    SubCentSized();
    SubCentRounded();
    TradeMade(START, SUB_CENT);
    RecordedTwiceRounded(Buy, "XYZ", 100.0, 10.004, 1000.4, "2026-01-05", 10000.0, Perform(START, SUB_CENT).account.cash);
    WrittenEventsAccepted(START, SUB_CENT);
  }

  lemma SubCentSized()
    ensures Perform(START, SUB_CENT).ticket.Some?
    ensures ValueTraded(START, SUB_CENT) == 1000.4 && SharesTraded(START, SUB_CENT) == 100.0
  {
    hide Round2, Round4, Round6, RoundToInt;
    assert SizeBuy(10000.0, 1000.4, Some(10.004), None, None) == Spend(1000.4);
    assert 1000.4 / 10.004 == 100.0;
  }

  lemma SubCentRounded()
    ensures Round2(10.004) == 10.0 && Round6(100.0) == 100.0 && GrossError(100.0, 10.004) == 0.4
  {
    assert (10.004 * 100.0).Floor == 1000;
    assert (100.0 * 1000000.0).Floor == 100000000;
  }
}
