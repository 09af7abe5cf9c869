/** Executing trades on a strategy's portfolio state, at the opening price of a session. */
module Trading {
  import opened Sequences
  import opened Rounding
  import opened FillRecords

  /** An opening price; the price cache holds positive ones only. */
  type Price = x: real | x > 0.0 witness 1.0

  const MIN_POSITION_VALUE := 500.0

  datatype Position = Position(
    shares: real, avgPrice: real, lastPrice: real, highestPrice: real, marketValue: real,
    buyDate: string, partial: bool, remaining: real, minPrice: real)

  /** The portfolio state as far as trades change it. */
  datatype Account = Account(
    cash: real, positions: map<string, Position>, cooldowns: map<string, string>, buysThisWeek: int)

  /** The trade record; its amounts are rounded. */
  datatype Ticket = Ticket(
    action: Action, ticker: string, shares: real, price: real, value: real, cost: real, net: real, session: string)

  /** estimate_trade_cost. */
  function TradeCost(value: real, selling: bool): real {
    Abs(value) * 0.001 + if selling then Abs(value) * 0.00003 else 0.0
  }

  function Stub(action: Action, ticker: string, shares: real, price: real, value: real, session: string): Ticket {
    var cost := TradeCost(value, action == Sell);
    var net := if action == Sell then value - cost else -(value + cost);
    Ticket(action, ticker, Round6(shares), Round2(price), Round2(value), Round2(cost), Round2(net), session)
  }

  // -------------------------------------------------------------------------
  // How much to trade
  // -------------------------------------------------------------------------

  datatype Sizing = Skip(code: string) | Spend(value: real)

  function Gap(price: Price, signal: Option<real>): real {
    if signal.Some? && signal.value > 0.0 then price / signal.value - 1.0 else 0.0
  }

  predicate Moved(move: Option<real>) { move.Some? && Abs(move.value) > 0.04 }

  /** The filters on a buy: half after a large pre-market move, half again after a gap, none after a larger gap. */
  function SizeBuy(cash: real, target: real, price: Option<Price>, signal: Option<real>, move: Option<real>): Sizing {
    if price.None? then Skip("missing_execution_price") else
    var moved := if Moved(move) then target * 0.5 else target;
    if Gap(price.value, signal) > 0.05 then Skip("open_gap_too_large") else
    var gapped := if Gap(price.value, signal) > 0.025 then moved * 0.5 else moved;
    var capped := Min(gapped, cash);
    if capped < MIN_POSITION_VALUE then Skip("below_min_position") else
    var value := if capped + TradeCost(capped, false) > cash then cash * 0.995 else capped;
    if value < MIN_POSITION_VALUE then Skip("below_min_position") else Spend(value)
  }

  /** The second part of a partial position, as far as cash allows. */
  function SizeFill(cash: real, remaining: real): Option<real> {
    var capped := Min(remaining, cash * 0.995);
    var cost := TradeCost(capped, false);
    var value := if capped + cost > cash then cash * 0.995 - cost else capped;
    if value < MIN_POSITION_VALUE then None else Some(value)
  }

  function SizeLimit(target: real, price: Price, signal: Option<real>, move: Option<real>): real {
    target * (if Moved(move) then 0.5 else 1.0) * (if Gap(price, signal) > 0.025 then 0.5 else 1.0)
  }

  /**
   * A buy spends the filtered target if cash covers it with costs, else all but half a percent of the
   * cash; it is skipped without a price, more than 5% above the signal price, or below 500. The target is
   * halved after a pre-market move of over 4% either way, and again more than 2.5% above the signal price.
   */
  lemma BuyOutcome(cash: real, target: real, price: Option<Price>, signal: Option<real>, move: Option<real>)
    ensures
      var known := signal.Some? && signal.value > 0.0;
      var sizing := SizeBuy(cash, target, price, signal, move);
      if price.None? then sizing == Skip("missing_execution_price")
      else if known && price.value > 1.05 * signal.value then sizing == Skip("open_gap_too_large")
      else
        var moved := move.Some? && (move.value > 0.04 || move.value < -0.04);
        var gapped := known && price.value > 1.025 * signal.value;
        var limit := target * (if moved && gapped then 0.25 else if moved || gapped then 0.5 else 1.0);
        sizing == if limit < 500.0 || cash < 500.0 then Skip("below_min_position")
                  else if limit * 1.001 <= cash then Spend(limit)
                  else if cash * 0.995 >= 500.0 then Spend(cash * 0.995)
                  else Skip("below_min_position")
  {
    if price.Some? {
      hide Gap;
      GapIs(price.value, signal);
    }
  }

  /** The gap in terms of prices. */
  lemma GapIs(price: Price, signal: Option<real>)
    ensures signal.Some? && signal.value > 0.0 ==>
              && (Gap(price, signal) > 0.05 <==> price > 1.05 * signal.value)
              && (Gap(price, signal) > 0.025 <==> price > 1.025 * signal.value)
    ensures !(signal.Some? && signal.value > 0.0) ==> Gap(price, signal) == 0.0
  {
    if signal.Some? && signal.value > 0.0 {
      QuotientAbove(price, signal.value, 1.05);
      QuotientAbove(price, signal.value, 1.025);
    }
  }

  lemma QuotientAbove(x: real, y: real, k: real)
    requires y > 0.0
    ensures x / y > k <==> x > k * y
  {
    var q := x / y;
    assert q * y == x;
    if q > k {
      assert (q - k) * y > 0.0;
    } else {
      assert (k - q) * y >= 0.0;
    }
  }

  /** A buy never spends more than the filtered target, nor cash that is not there, nor less than the minimum. */
  lemma BuyAffordable(cash: real, target: real, price: Option<Price>, signal: Option<real>, move: Option<real>)
    requires SizeBuy(cash, target, price, signal, move).Spend?
    ensures var v := SizeBuy(cash, target, price, signal, move).value;
            && MIN_POSITION_VALUE <= v <= SizeLimit(target, price.value, signal, move)
            && v + TradeCost(v, false) <= cash && Gap(price.value, signal) <= 0.05
  {
  }

  /** The second cap of a fill never binds, and the fill is affordable. */
  lemma FillAffordable(cash: real, remaining: real)
    ensures SizeFill(cash, remaining) ==
            if remaining < 500.0 || cash * 0.995 < 500.0 then None
            else if remaining < cash * 0.995 then Some(remaining) else Some(cash * 0.995)
    ensures SizeFill(cash, remaining).Some? ==>
              var v := SizeFill(cash, remaining).value;
              v + TradeCost(v, false) <= cash
  {
    var capped := Min(remaining, cash * 0.995);
    if capped >= 0.0 {
      assert capped + TradeCost(capped, false) <= cash;
    }
  }

  // -------------------------------------------------------------------------
  // The three operations on values
  // -------------------------------------------------------------------------

  datatype Op =
    | DoBuy(ticker: string, target: real, price: Option<Price>, signal: Option<real>, move: Option<real>,
            pyramid: real, session: string)
    | DoSell(ticker: string, price: Option<Price>, session: string)
    | DoFill(ticker: string, price: Option<Price>, daysHeld: int, session: string)

  datatype Outcome = Outcome(account: Account, ticket: Option<Ticket>)

  function Opened(shares: real, price: Price, pyramid: real, session: string): Position {
    Position(shares, price, price, price, Worth(shares, price), session, pyramid > 0.0,
             if pyramid > 0.0 then Round2(pyramid) else 0.0,
             if pyramid > 0.0 then Round4(price * 1.02) else 0.0)
  }

  function Perform(a: Account, op: Op): Outcome {
    match op
    case DoBuy(ticker, target, price, signal, move, pyramid, session) => (
      match SizeBuy(a.cash, target, price, signal, move)
      case Skip(_) => Outcome(a, None)
      case Spend(v) =>
        Outcome(
          a.(cash := a.cash - (v + TradeCost(v, false)),
             positions := a.positions[ticker := Opened(v / price.value, price.value, pyramid, session)],
             buysThisWeek := a.buysThisWeek + 1),
          Some(Stub(Buy, ticker, v / price.value, price.value, v, session))))
    case DoSell(ticker, price, session) =>
      if ticker !in a.positions || price.None? then Outcome(a, None)
      else
        var v := Worth(a.positions[ticker].shares, price.value);
        Outcome(
          a.(cash := a.cash + (v - TradeCost(v, true)), positions := a.positions - {ticker},
             cooldowns := a.cooldowns[ticker := session]),
          Some(Stub(Sell, ticker, a.positions[ticker].shares, price.value, v, session)))
    case DoFill(ticker, price, daysHeld, session) =>
      if ticker !in a.positions || !a.positions[ticker].partial || daysHeld < 5 then Outcome(a, None)
      else
        var pos := a.positions[ticker];
        if pos.remaining < MIN_POSITION_VALUE then
          Outcome(a.(positions := a.positions[ticker := pos.(partial := false, remaining := 0.0)]), None)
        else if price.None? || price.value < pos.minPrice || SizeFill(a.cash, pos.remaining).None? then
          Outcome(a, None)
        else
          var v := SizeFill(a.cash, pos.remaining).value;
          Outcome(
            a.(cash := a.cash - (v + TradeCost(v, false)),
               positions := a.positions[ticker := Topped(pos, v, price.value)]),
            Some(Stub(PyramidFill, ticker, v / price.value, price.value, v, session)))
  }

  /** Buying and selling again at the same price costs 0.203% of the value, and nothing is held afterwards. */
  lemma RoundTripCost(a: Account, buy: Op, sell: Op)
    requires buy.DoBuy? && sell.DoSell? && sell.ticker == buy.ticker && sell.price == buy.price
    requires buy.ticker !in a.positions && Perform(a, buy).ticket.Some?
    ensures
      var v := SizeBuy(a.cash, buy.target, buy.price, buy.signal, buy.move);
      var bought := Perform(a, buy).account;
      var sold := Perform(bought, sell).account;
      && v.Spend? && sold.cash == a.cash - v.value * 0.00203
      && sold.positions == a.positions && sold.buysThisWeek == a.buysThisWeek + 1
      && sold.cooldowns == a.cooldowns[buy.ticker := sell.session]
  {
    hide Round2, Round4, Round6, Gap, Worth;
    var v, p := SizeBuy(a.cash, buy.target, buy.price, buy.signal, buy.move).value, buy.price.value;
    BuyAffordable(a.cash, buy.target, buy.price, buy.signal, buy.move);
    WorthOfQuotient(v, p);
    assert Perform(a, buy).account.positions - {buy.ticker} == a.positions;
  }

  lemma WorthOfQuotient(v: real, p: real)
    requires p != 0.0
    ensures Worth(v / p, p) == v
  {
  }

  /** The average price is cost over shares; a position without shares cannot be averaged. */
  function Topped(pos: Position, v: real, price: Price): Position {
    var shares := pos.shares + v / price;
    pos.(shares := shares,
         avgPrice := if shares != 0.0 then (pos.shares * pos.avgPrice + v) / shares else 0.0,
         marketValue := Worth(shares, price), lastPrice := price, highestPrice := Max(pos.highestPrice, price),
         partial := false, remaining := 0.0)
  }

  /** What is bought is held at its price: value, average, last and highest price; a part may be planned for later. */
  lemma BoughtPosition(a: Account, op: Op)
    requires op.DoBuy? && Perform(a, op).ticket.Some?
    ensures
      var spent := SizeBuy(a.cash, op.target, op.price, op.signal, op.move);
      var after := Perform(a, op).account;
      && spent.Spend? && op.price.Some? && op.ticker in after.positions
      && after.cash == a.cash - spent.value * 1.001 && after.positions - {op.ticker} == a.positions - {op.ticker}
      && var pos, p := after.positions[op.ticker], op.price.value;
         && pos.shares * p == spent.value == pos.marketValue
         && pos.avgPrice == pos.lastPrice == pos.highestPrice == p && pos.buyDate == op.session
         && (pos.partial <==> op.pyramid > 0.0)
         && (pos.partial ==> pos.remaining == Round2(op.pyramid) && pos.minPrice == Round4(1.02 * p))
         && (!pos.partial ==> pos.remaining == 0.0 && pos.minPrice == 0.0)
  {
    hide Round2, Round4, Round6, Gap;
    BuyAffordable(a.cash, op.target, op.price, op.signal, op.move);
    WorthOfQuotient(SizeBuy(a.cash, op.target, op.price, op.signal, op.move).value, op.price.value);
  }

  /**
   * A pyramid fill happens exactly if the position is partial, five days old and not below its minimum price,
   * and both the rest and 99.5% of the cash reach 500. Below 500 the rest is given up; otherwise nothing changes.
   */
  lemma FillHappensIff(a: Account, op: Op)
    requires op.DoFill?
    ensures
      var due := op.ticker in a.positions && a.positions[op.ticker].partial && op.daysHeld >= 5;
      && (Perform(a, op).ticket.Some? <==>
            && due && a.positions[op.ticker].remaining >= 500.0 && a.cash * 0.995 >= 500.0
            && op.price.Some? && op.price.value >= a.positions[op.ticker].minPrice)
      && (Perform(a, op).ticket.None? ==>
            Perform(a, op).account ==
            if due && a.positions[op.ticker].remaining < 500.0 then
              a.(positions := a.positions[op.ticker := a.positions[op.ticker].(partial := false, remaining := 0.0)])
            else a)
  {
    hide Round2, Round4, Round6, Topped, SizeFill;
    if op.ticker in a.positions {
      FillAffordable(a.cash, a.positions[op.ticker].remaining);
    }
  }

  /** What was paid for a position is shares times average price; a fill adds what it spends to it. */
  lemma FilledPosition(a: Account, op: Op)
    requires op.DoFill? && Perform(a, op).ticket.Some? && a.positions[op.ticker].shares >= 0.0
    ensures
      var held, after := a.positions[op.ticker], Perform(a, op).account;
      && op.price.Some? && op.ticker in after.positions
      && var v, p, pos := Min(held.remaining, a.cash * 0.995), op.price.value, after.positions[op.ticker];
         && after.cash == a.cash - v * 1.001 && after.positions - {op.ticker} == a.positions - {op.ticker}
         && (pos.shares - held.shares) * p == v
         && pos.shares * pos.avgPrice == held.shares * held.avgPrice + v
         && pos.marketValue == pos.shares * p && pos.lastPrice == p
         && pos.highestPrice == (if p > held.highestPrice then p else held.highestPrice)
         && !pos.partial && pos.remaining == 0.0 && pos.minPrice == held.minPrice && pos.buyDate == held.buyDate
  {
    hide Round2, Round4, Round6, SizeFill, Topped;
    FillAffordable(a.cash, a.positions[op.ticker].remaining);
    ToppedAverages(a.positions[op.ticker], Min(a.positions[op.ticker].remaining, a.cash * 0.995), op.price.value);
  }

  lemma ToppedAverages(pos: Position, v: real, price: Price)
    requires v > 0.0 && pos.shares >= 0.0
    ensures var after := Topped(pos, v, price);
      && (after.shares - pos.shares) * price == v
      && after.shares * after.avgPrice == pos.shares * pos.avgPrice + v
      && after == pos.(shares := after.shares, avgPrice := after.avgPrice, marketValue := after.shares * price,
                       lastPrice := price, highestPrice := if price > pos.highestPrice then price else pos.highestPrice,
                       partial := false, remaining := 0.0)
  {
    WorthOfQuotient(v, price);
    PositiveQuotient(v, price);
    var shares := pos.shares + v / price;
    TimesQuotient(pos.shares * pos.avgPrice + v, shares);
  }

  lemma PositiveQuotient(v: real, p: real)
    requires v > 0.0 && p > 0.0
    ensures v / p > 0.0
  {
  }

  lemma TimesQuotient(x: real, y: real)
    requires y != 0.0
    ensures y * (x / y) == x
  {
  }

  /** A sale takes the whole position at the price, less 0.103% of its value, and starts the cooldown. */
  lemma SoldPosition(a: Account, op: Op)
    requires op.DoSell?
    ensures Perform(a, op).ticket.Some? <==> op.ticker in a.positions && op.price.Some?
    ensures Perform(a, op).ticket.None? ==> Perform(a, op).account == a
    ensures Perform(a, op).ticket.Some? && a.positions[op.ticker].shares >= 0.0 ==>
      var v := a.positions[op.ticker].shares * op.price.value;
      Perform(a, op).account == Account(a.cash + v * 0.99897, a.positions - {op.ticker},
                                        a.cooldowns[op.ticker := op.session], a.buysThisWeek)
  {
    hide Round2, Round4, Round6;
    if op.ticker in a.positions && op.price.Some? && a.positions[op.ticker].shares >= 0.0 {
      WorthNonNegative(a.positions[op.ticker].shares, op.price.value);
    }
  }

  lemma WorthNonNegative(shares: real, price: Price)
    requires shares >= 0.0
    ensures Worth(shares, price) == shares * price >= 0.0
  {
  }

  /**
   * Buying a part and topping it up: the fill is made exactly from the fifth day on, if the rest and the
   * cash reach 500 and the price is at least 2% above that of the buy, rounded to four decimals.
   */
  lemma PartThenFill(a: Account, buy: Op, fill: Op)
    requires buy.DoBuy? && fill.DoFill? && fill.ticker == buy.ticker && Perform(a, buy).ticket.Some?
    requires buy.pyramid > 0.0 && fill.price.Some?
    ensures Perform(Perform(a, buy).account, fill).ticket.Some? <==>
            && fill.daysHeld >= 5 && fill.price.value >= Round4(1.02 * buy.price.value)
            && Round2(buy.pyramid) >= 500.0 && Perform(a, buy).account.cash * 0.995 >= 500.0
  {
    hide Perform, Round2, Round4;
    BoughtPosition(a, buy);
    FillHappensIff(Perform(a, buy).account, fill);
  }

  /** The ticket of a trade of `s` shares for `v` in all, in rounded amounts. */
  lemma TicketSays(action: Action, ticker: string, s: real, p: Price, v: real, session: string)
    requires v >= 0.0
    ensures Stub(action, ticker, s, p, v, session) ==
            if action == Sell then Ticket(Sell, ticker, Round6(s), Round2(p), Round2(v), Round2(v * 0.00103), Round2(v * 0.99897), session)
            else Ticket(action, ticker, Round6(s), Round2(p), Round2(v), Round2(v * 0.001), Round2(-v * 1.001), session)
  {
    hide Round2, Round4, Round6;
  }

  // -------------------------------------------------------------------------
  // The operations in place
  // -------------------------------------------------------------------------

  class Book {
    var cash: real
    var positions: map<string, Position>
    var cooldowns: map<string, string>
    var buysThisWeek: int

    constructor (cash: real)
      ensures Value() == Account(cash, map[], map[], 0)
    {
      this.cash, positions, cooldowns, buysThisWeek := cash, map[], map[], 0;
    }

    function Value(): Account
      reads this
    {
      Account(cash, positions, cooldowns, buysThisWeek)
    }

    method ExecuteSell(ticker: string, price: Option<Price>, session: string) returns (trade: Option<Ticket>)
      modifies this
      ensures Outcome(Value(), trade) == Perform(old(Value()), DoSell(ticker, price, session))
    {
      hide Round2, Round4, Round6, Worth, SizeBuy, SizeFill;
      if ticker !in positions || price.None? {
        return None;
      }
      var shares := positions[ticker].shares;
      var value := Worth(shares, price.value);
      var cost := TradeCost(value, true);
      var net := value - cost;
      cash := cash + net;
      trade := Some(Ticket(Sell, ticker, Round6(shares), Round2(price.value), Round2(value), Round2(cost),
                           Round2(net), session));
      positions := positions - {ticker};
      cooldowns := cooldowns[ticker := session];
    }

    /** `skip` is the reason code when no trade happens. */
    method ExecuteBuy(ticker: string, target: real, price: Option<Price>, signal: Option<real>, move: Option<real>,
                      pyramid: real, session: string)
      returns (trade: Option<Ticket>, skip: string)
      modifies this
      ensures Outcome(Value(), trade)
              == Perform(old(Value()), DoBuy(ticker, target, price, signal, move, pyramid, session))
      ensures trade.None? ==> SizeBuy(old(cash), target, price, signal, move) == Skip(skip)
    {
      hide Round2, Round4, Round6, Opened, TradeCost, Min, Abs;
      if price.None? {
        return None, "missing_execution_price";
      }
      var value := target;
      if move.Some? && Abs(move.value) > 0.04 {
        value := value * 0.5;
      }
      if signal.Some? && signal.value > 0.0 {
        var gap := price.value / signal.value - 1.0;
        if gap > 0.05 {
          return None, "open_gap_too_large";
        }
        if gap > 0.025 {
          value := value * 0.5;
        }
      }
      value := Min(value, cash);
      if value < MIN_POSITION_VALUE {
        return None, "below_min_position";
      }
      var cost := TradeCost(value, false);
      if value + cost > cash {
        value := cash * 0.995;
        cost := TradeCost(value, false);
      }
      if value < MIN_POSITION_VALUE {
        return None, "below_min_position";
      }
      var shares := value / price.value;
      cash := cash - (value + cost);
      positions := positions[ticker := Opened(shares, price.value, pyramid, session)];
      buysThisWeek := buysThisWeek + 1;
      trade := Some(Ticket(Buy, ticker, Round6(shares), Round2(price.value), Round2(value), Round2(cost),
                           Round2(-(value + cost)), session));
      skip := "";
    }

    method ExecutePyramidFill(ticker: string, price: Option<Price>, daysHeld: int, session: string)
      returns (trade: Option<Ticket>)
      modifies this
      ensures Outcome(Value(), trade) == Perform(old(Value()), DoFill(ticker, price, daysHeld, session))
    {
      hide Round2, Round4, Round6, Topped, SizeBuy;
      if ticker !in positions || !positions[ticker].partial {
        return None;
      }
      if daysHeld < 5 {
        return None;
      }
      var pos := positions[ticker];
      var remaining := pos.remaining;
      if remaining < MIN_POSITION_VALUE {
        positions := positions[ticker := pos.(partial := false, remaining := 0.0)];
        return None;
      }
      if price.None? || price.value < pos.minPrice {
        return None;
      }
      remaining := Min(remaining, cash * 0.995);
      var cost := TradeCost(remaining, false);
      if remaining + cost > cash {
        remaining := cash * 0.995 - cost;
      }
      if remaining < MIN_POSITION_VALUE {
        return None;
      }
      var bought := remaining / price.value;
      cash := cash - (remaining + cost);
      positions := positions[ticker := Topped(pos, remaining, price.value)];
      trade := Some(Ticket(PyramidFill, ticker, Round6(bought), Round2(price.value), Round2(remaining), Round2(cost),
                           Round2(-(remaining + cost)), session));
    }
  }
}
