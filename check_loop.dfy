/** The loop of `check` as the program runs it: one mutable ledger of lots,
    the carried totals, and the rows visited from the last (oldest) to the
    first. */
module CheckLoop {
  import opened Outcomes
  import opened Lots
  import opened Ledger
  import opened Rates
  import opened Validation
  import opened Processing
  import opened StepProperties

  /** The body of the loop of `check` for one row: the row checks and the
      rate walk of `get_eurusd`, then `BookRow`. The new ledger and carry are
      those of `Step`, and a failing row fails with the error of `Step`. */
  method ProcessRow(ledger: FifoLedger, carry: Carry, row: Row, env: Env) returns (r: Result<Carry>)
    modifies ledger
    ensures match Step(State(old(ledger.fifos), carry), row, env)
      case Ok(s) => r == Ok(s.carry) && ledger.fifos == s.fifos
      case Err(e) => r == Err(e)
  {
    var admitted := Admit(carry, ledger.fifos, row);
    if admitted.Err? {
      return Err(admitted.error);
    }
    var a := admitted.value;
    var found := GetEurUsd(env.rates, row.day);
    if found.Err? {
      return Err(found.error);
    }
    var rate := found.value;
    if rate == 0.0 {
      return Err(ZeroRate);
    }
    r := BookRow(ledger, a, row, rate, env);
  }

  /** The loop body once the row is admitted and its rate is known: the two
      calls of `fifo_add` on the ledger (USD cash, then the trade) and the
      booking. The new ledger and carry are those of `Book`. */
  method BookRow(ledger: FifoLedger, a: Admitted, row: Row, rate: real, env: Env) returns (r: Result<Carry>)
    requires rate != 0.0
    modifies ledger
    ensures match Book(old(ledger.fifos), a, row, rate, env)
      case Ok(s) => r == Ok(s.carry) && ledger.fifos == s.fifos
      case Err(e) => r == Err(e)
  {
    ghost var expected := Book(ledger.fifos, a, row, rate, env);
    var eur := Usd2Eur(row.amount - row.fees, rate, env.convertCurrency);
    // USD as a whole number of 1/10000 dollars
    var usdPnl, usdTermLoss := ledger.Add(CashUnits(row), 1.0 / rate, AccountUsd);
    var usdGains := usdPnl / 10000.0;
    var c := Accrue(a.carry, row, rate, env.convertCurrency, usdGains);
    var quantity := ParseQuantity(row.quantity);
    if quantity.Err? {
      return Err(quantity.error);
    }
    var price := ParsePrice(row.price);
    if price.Err? {
      return Err(price.error);
    }
    var line := OutRow(a.datetime, None, usdGains, eur, row.amount, row.fees, rate,
                       quantity.value, "", row.symbol, "", c.total, 0.0);
    if row.tcode == MoneyMovement {
      var booked := BookMoneyMovement(c.totals, row, eur);
      if booked.Err? {
        return Err(booked.error);
      }
      var b := booked.value;
      return Ok(c.(totals := b.totals,
        out := c.out + [line.(pnl := b.pnl, asset := b.asset, description := b.description)]));
    }
    var order := PlaceOrder(ledger.fifos, row, quantity.value, price.value, rate, env);
    if order.Err? {
      return Err(order.error);
    }
    var o := order.value;
    var pnl, termLoss := ledger.Add(o.quantity, o.price, o.asset);
    return Ok(c.(totals := BookTrade(c.totals, o.checkStock, pnl, termLoss),
      out := c.out + [line.(pnl := Some(pnl), quantity := o.quantity, asset := o.asset, termLoss := termLoss)]));
  }

  /** `check`: processes the rows oldest first on a fresh ledger, stops at
      the first failing row, and closes with the summary of the last year. */
  method Check(rows: seq<Row>, env: Env) returns (r: Result<Report>)
    ensures r == Finish(rows, env)
  {
    var ledger := new FifoLedger();
    var carry := Start.carry;
    var i := |rows|;
    assert rows[|rows|..] == [];
    while i > 0
      invariant 0 <= i <= |rows|
      invariant Run(rows[i..], env) == Ok(State(ledger.fifos, carry))
      decreases i
    {
      assert rows[i - 1..][1..] == rows[i..];
      var next := ProcessRow(ledger, carry, rows[i - 1], env);
      if next.Err? {
        RunAbort(rows, env, i - 1);
        return Err(next.error);
      }
      carry := next.value;
      i := i - 1;
    }
    assert rows[0..] == rows;
    r := Ok(Report(carry.out, carry.summaries + [YearSummary(carry.year, carry.totals, carry.total, ledger.fifos)]));
  }
}
