/** What one step of `check` and a whole run guarantee. */
module StepProperties {
  import opened Outcomes
  import opened Lots
  import opened Rates
  import opened Validation
  import opened AssetKeys
  import opened Processing

  // ---------------------------------------------------------------------
  // A step as the booking of its admitted row

  /** A step that goes through admits the row, finds a nonzero rate for its
      day and books it; admission enters the row's year and fixes the
      account reference. */
  lemma StepIsBook(s: State, row: Row, env: Env)
    requires Step(s, row, env).Ok?
    ensures var a := Admit(s.carry, s.fifos, row); var rate := RateOn(env.rates, row.day);
      a.Ok? && rate.Ok? && rate.value != 0.0 &&
      Step(s, row, env) == Book(s.fifos, a.value, row, rate.value, env) &&
      a.value.datetime == Take(row.datetime, 16) &&
      a.value.carry == EnterYear(s.carry, s.fifos, Take(row.datetime, 4)).(accountRef := Some(row.accountRef))
  {
    assert Take(Take(row.datetime, 16), 4) == Take(row.datetime, 4);
  }

  /** Booking appends one output row carrying the row's minute, amounts and
      symbol and the new account total. */
  lemma BookOut(fifos: Fifos, a: Admitted, row: Row, rate: real, env: Env)
    requires rate != 0.0 && Book(fifos, a, row, rate, env).Ok?
    ensures var c := Book(fifos, a, row, rate, env).value.carry; var n := |a.carry.out|;
      |c.out| == n + 1 && c.out[..n] == a.carry.out &&
      c.total == a.carry.total + (row.amount - row.fees) &&
      c.out[n].accountTotal == c.total && c.out[n].datetime == a.datetime &&
      c.out[n].amount == row.amount && c.out[n].fees == row.fees && c.out[n].symbol == row.symbol
  {
    var c := Book(fifos, a, row, rate, env).value.carry;
    var n := |a.carry.out|;
    if row.tcode == MoneyMovement {
      assert c.out[..n] == a.carry.out;
    } else {
      assert c.out[..n] == a.carry.out;
    }
  }

  /** Booking keeps the year, the account reference and the closed years. */
  lemma BookKeeps(fifos: Fifos, a: Admitted, row: Row, rate: real, env: Env)
    requires rate != 0.0 && Book(fifos, a, row, rate, env).Ok?
    ensures var c := Book(fifos, a, row, rate, env).value.carry;
      c.year == a.carry.year && c.accountRef == a.carry.accountRef && c.summaries == a.carry.summaries
  {
    if row.tcode == MoneyMovement {
    } else {
    }
  }

  /** Both `fifo_add` calls of a booking keep the lots well formed. */
  lemma BookKeepsLedgerOk(fifos: Fifos, a: Admitted, row: Row, rate: real, env: Env)
    requires rate != 0.0 && LedgerOk(fifos) && Book(fifos, a, row, rate, env).Ok?
    ensures LedgerOk(Book(fifos, a, row, rate, env).value.fifos)
  {
    var usd := FifoAdd(fifos, CashUnits(row), 1.0 / rate, AccountUsd);
    assert LedgerOk(usd.fifos);
    if row.tcode != MoneyMovement {
      var o := PlaceOrder(usd.fifos, row, ParseQuantity(row.quantity).value, ParsePrice(row.price).value, rate, env).value;
      assert Book(fifos, a, row, rate, env).value.fifos == FifoAdd(usd.fifos, o.quantity, o.price, o.asset).fifos;
    }
  }

  /** The lots and output row of a money movement. */
  lemma BookCashLots(fifos: Fifos, a: Admitted, row: Row, rate: real, env: Env)
    requires rate != 0.0 && row.tcode == MoneyMovement && Book(fifos, a, row, rate, env).Ok?
    ensures var r := Book(fifos, a, row, rate, env).value;
      r.fifos == FifoAdd(fifos, CashUnits(row), 1.0 / rate, AccountUsd).fifos &&
      |r.carry.out| == |a.carry.out| + 1 && r.carry.out[|a.carry.out|].termLoss == 0.0
  {
  }

  /** The lots and output row of a trade. */
  lemma BookTradeLots(fifos: Fifos, a: Admitted, row: Row, rate: real, env: Env)
    requires rate != 0.0 && row.tcode != MoneyMovement && Book(fifos, a, row, rate, env).Ok?
    ensures var usd := FifoAdd(fifos, CashUnits(row), 1.0 / rate, AccountUsd);
      var quantity := ParseQuantity(row.quantity);
      var price := ParsePrice(row.price);
      quantity.Ok? && price.Ok? &&
      var order := PlaceOrder(usd.fifos, row, quantity.value, price.value, rate, env);
      order.Ok? &&
      var r := Book(fifos, a, row, rate, env).value;
      |r.carry.out| == |a.carry.out| + 1 &&
      var o := r.carry.out[|a.carry.out|];
      o.asset == order.value.asset && o.quantity == order.value.quantity && o.pnl.Some? &&
      r.fifos == FifoAdd(usd.fifos, o.quantity, order.value.price, o.asset).fifos &&
      (row.expire.None? ==> o.asset == row.symbol) &&
      (row.expire.Some? ==>
        row.strike.Fin? && o.asset == OptionKey(row.symbol, row.callPut, row.strike.value, row.expire.value))
  {
  }

  /** A call/put cell that passes `check_param` prints as a nonempty text. */
  lemma CallPutPrints(buySell: Option<string>, openClose: Option<string>, callPut: Option<string>)
    requires CheckParam(buySell, openClose, callPut) == Pass
    ensures Str(callPut) != ""
  {
    assert CellIn(callPut, {"nan", "C", "P"});
  }

  // ---------------------------------------------------------------------
  // What a step guarantees

  /** Each accepted row appends exactly one output row, which carries the
      row's minute, amounts and symbol and the new account total; the total
      grows by the net amount. */
  lemma StepRecordsRow(s: State, row: Row, env: Env)
    requires Step(s, row, env).Ok?
    ensures var c := Step(s, row, env).value.carry; var n := |s.carry.out|;
      |c.out| == n + 1 && c.out[..n] == s.carry.out &&
      c.total == s.carry.total + (row.amount - row.fees) &&
      c.out[n].accountTotal == c.total && c.out[n].datetime == Take(row.datetime, 16) &&
      c.out[n].amount == row.amount && c.out[n].fees == row.fees && c.out[n].symbol == row.symbol
  {
    StepIsBook(s, row, env);
    BookOut(s.fifos, Admit(s.carry, s.fifos, row).value, row, RateOn(env.rates, row.day).value, env);
  }

  /** The year of a row becomes the current year; leaving a year writes its
      summary with its accumulators, the account total and the open lots. */
  lemma StepYear(s: State, row: Row, env: Env)
    requires Step(s, row, env).Ok?
    ensures var c := Step(s, row, env).value.carry;
      c.year == Some(Take(row.datetime, 4)) &&
      c.summaries == s.carry.summaries +
        (if s.carry.year != None && s.carry.year != c.year
         then [YearSummary(s.carry.year, s.carry.totals, s.carry.total, s.fifos)] else [])
  {
    StepIsBook(s, row, env);
    BookKeeps(s.fifos, Admit(s.carry, s.fifos, row).value, row, RateOn(env.rates, row.day).value, env);
  }

  /** The first row fixes the account reference and every accepted row
      carries it. */
  lemma StepAccount(s: State, row: Row, env: Env)
    requires Step(s, row, env).Ok?
    ensures row.accountRef.Some?
    ensures Step(s, row, env).value.carry.accountRef == Some(row.accountRef)
    ensures s.carry.accountRef != None ==> s.carry.accountRef == Some(row.accountRef)
  {
    StepIsBook(s, row, env);
    BookKeeps(s.fifos, Admit(s.carry, s.fifos, row).value, row, RateOn(env.rates, row.day).value, env);
  }

  /** The lots stay well formed: every queue is nonempty, of one sign and
      without zero lots. */
  lemma StepKeepsLedgerOk(s: State, row: Row, env: Env)
    requires LedgerOk(s.fifos) && Step(s, row, env).Ok?
    ensures LedgerOk(Step(s, row, env).value.fifos)
  {
    StepIsBook(s, row, env);
    BookKeepsLedgerOk(s.fifos, Admit(s.carry, s.fifos, row).value, row, RateOn(env.rates, row.day).value, env);
  }

  /** A money movement touches only the USD cash lots, which grow by the
      row's net cash, and books no term loss. */
  lemma StepMoneyMovement(s: State, row: Row, env: Env)
    requires row.tcode == MoneyMovement && Step(s, row, env).Ok?
    ensures var s' := Step(s, row, env).value;
      (forall a :: a != AccountUsd ==> Queue(s'.fifos, a) == Queue(s.fifos, a)) &&
      SumQty(Queue(s'.fifos, AccountUsd)) == SumQty(Queue(s.fifos, AccountUsd)) + CashUnits(row) &&
      |s'.carry.out| == |s.carry.out| + 1 && s'.carry.out[|s.carry.out|].termLoss == 0.0
  {
    StepIsBook(s, row, env);
    BookCashLots(s.fifos, Admit(s.carry, s.fifos, row).value, row, RateOn(env.rates, row.day).value, env);
  }

  /** A trade changes the USD cash lots and the lots of its own asset only,
      by its net cash and by its signed quantity. An option trade is booked
      under its option key, which `fifo_add` treats as an option; any other
      trade under its symbol. */
  lemma StepTrade(s: State, row: Row, env: Env)
    requires row.tcode != MoneyMovement && Step(s, row, env).Ok?
    ensures var s' := Step(s, row, env).value;
      |s'.carry.out| == |s.carry.out| + 1 &&
      var o := s'.carry.out[|s.carry.out|];
      (forall a :: a != AccountUsd && a != o.asset ==> Queue(s'.fifos, a) == Queue(s.fifos, a)) &&
      (o.asset != AccountUsd ==>
        SumQty(Queue(s'.fifos, o.asset)) == SumQty(Queue(s.fifos, o.asset)) + o.quantity &&
        SumQty(Queue(s'.fifos, AccountUsd)) == SumQty(Queue(s.fifos, AccountUsd)) + CashUnits(row)) &&
      o.pnl.Some? && o.quantity != 0 &&
      (row.expire.None? ==> o.asset == row.symbol) &&
      (row.expire.Some? && |row.expire.value| == 8 ==> IsOption(o.asset))
  {
    StepIsBook(s, row, env);
    BookTradeLots(s.fifos, Admit(s.carry, s.fifos, row).value, row, RateOn(env.rates, row.day).value, env);
    if row.expire.Some? && |row.expire.value| == 8 {
      CallPutPrints(row.buySell, row.openClose, row.callPut);
      OptionKeyIsOption(row.symbol, row.callPut, row.strike.value, row.expire.value);
    }
  }

  /** An expiration, assignment or exercise that is not marked as a sell
      closes the open position: the asset must have open lots, and a positive
      quantity is booked against their direction. */
  lemma StepSettlement(s: State, row: Row, env: Env)
    requires row.tcode != MoneyMovement && row.tsubcode in Settlements && Str(row.buySell) != "Sell"
    requires row.quantity == NaN || (row.quantity.Fin? && row.quantity.value > 0.0)
    requires LedgerOk(s.fifos) && Step(s, row, env).Ok?
    ensures var out := Step(s, row, env).value.carry.out;
      |out| == |s.carry.out| + 1 &&
      var o := out[|s.carry.out|];
      o.asset != AccountUsd ==>
        SumQty(Queue(s.fifos, o.asset)) != 0 &&
        (SumQty(Queue(s.fifos, o.asset)) > 0 <==> o.quantity < 0)
  {
    StepIsBook(s, row, env);
    var a := Admit(s.carry, s.fifos, row).value;
    var rate := RateOn(env.rates, row.day).value;
    BookTradeLots(s.fifos, a, row, rate, env);
    var usd := FifoAdd(s.fifos, CashUnits(row), 1.0 / rate, AccountUsd);
    var quantity := ParseQuantity(row.quantity).value;
    var order := PlaceOrder(usd.fifos, row, quantity, ParsePrice(row.price).value, rate, env).value;
    assert quantity > 0;
    if order.asset != AccountUsd {
      assert Queue(usd.fifos, order.asset) == Queue(s.fifos, order.asset);
      assert Direction(usd.fifos, row, order.asset, quantity) == Ok(order.quantity);
      SameSignSum(s.fifos[order.asset]);
    }
  }

  // ---------------------------------------------------------------------
  // Signs of the accumulators

  /** Gains, term losses, dividends and received interest are never
      negative; losses, withholding tax, paid interest and withdrawals never
      positive. */
  predicate SignsOk(t: Totals)
  {
    t.stockGains >= 0.0 && t.stockLosses <= 0.0 && t.termLosses >= 0.0 &&
    t.dividends >= 0.0 && t.withholdingTax <= 0.0 &&
    t.interestRecv >= 0.0 && t.interestPaid <= 0.0 && t.withdrawal <= 0.0
  }

  /** The current accumulators and those of every closed year have the right
      signs. */
  predicate SummariesOk(c: Carry)
  {
    SignsOk(c.totals) && forall i :: 0 <= i < |c.summaries| ==> SignsOk(c.summaries[i].totals)
  }

  /** Every rate of the table is positive. */
  predicate PositiveRates(rates: RateTable)
  {
    forall d :: d in rates && rates[d].Fin? ==> rates[d].value > 0.0
  }

  /** A money movement books a positive EUR amount exactly where the USD
      amount is positive, so it keeps the signs. */
  lemma BookingKeepsSigns(t: Totals, row: Row, rate: real, convertCurrency: bool)
    requires rate > 0.0 && SignsOk(t)
    ensures var r := BookMoneyMovement(t, row, Usd2Eur(row.amount - row.fees, rate, convertCurrency));
      r.Ok? ==> SignsOk(r.value.totals)
  {
  }

  /** Under positive rates, a step keeps every accumulator on its side of
      zero. */
  lemma StepKeepsSigns(s: State, row: Row, env: Env)
    requires PositiveRates(env.rates) && SummariesOk(s.carry) && Step(s, row, env).Ok?
    ensures SummariesOk(Step(s, row, env).value.carry)
  {
    StepIsBook(s, row, env);
    var a := Admit(s.carry, s.fifos, row).value;
    var rate := RateOn(env.rates, row.day).value;
    var found := RateOnSource(env.rates, row.day);
    assert SummariesOk(a.carry);
    BookKeepsSigns(s.fifos, a, row, rate, env);
  }

  lemma BookKeepsSigns(fifos: Fifos, a: Admitted, row: Row, rate: real, env: Env)
    requires rate > 0.0 && SummariesOk(a.carry) && Book(fifos, a, row, rate, env).Ok?
    ensures SummariesOk(Book(fifos, a, row, rate, env).value.carry)
  {
    if row.tcode == MoneyMovement {
      BookCashKeepsSigns(fifos, a, row, rate, env);
    } else {
      BookTradeKeepsSigns(fifos, a, row, rate, env);
    }
  }

  lemma BookCashKeepsSigns(fifos: Fifos, a: Admitted, row: Row, rate: real, env: Env)
    requires rate > 0.0 && SummariesOk(a.carry) && row.tcode == MoneyMovement
    requires Book(fifos, a, row, rate, env).Ok?
    ensures SummariesOk(Book(fifos, a, row, rate, env).value.carry)
  {
    var usd := FifoAdd(fifos, CashUnits(row), 1.0 / rate, AccountUsd);
    var c := Accrue(a.carry, row, rate, env.convertCurrency, usd.pnl / 10000.0);
    var r := Book(fifos, a, row, rate, env).value;
    var b := BookMoneyMovement(c.totals, row, Usd2Eur(row.amount - row.fees, rate, env.convertCurrency)).value;
    assert r.carry.summaries == c.summaries && r.carry.totals == b.totals;
    BookingKeepsSigns(c.totals, row, rate, env.convertCurrency);
  }

  lemma BookTradeKeepsSigns(fifos: Fifos, a: Admitted, row: Row, rate: real, env: Env)
    requires rate > 0.0 && SummariesOk(a.carry) && row.tcode != MoneyMovement
    requires Book(fifos, a, row, rate, env).Ok?
    ensures SummariesOk(Book(fifos, a, row, rate, env).value.carry)
  {
    BookKeeps(fifos, a, row, rate, env);
    var c, checkStock, pnl, termLoss := BookTradeTotals(fifos, a, row, rate, env);
    assert SummariesOk(c);
    TradeKeepsSigns(c, Book(fifos, a, row, rate, env).value.carry, checkStock, pnl, termLoss);
  }

  /** The accumulators after a trade: the fees and currency gains of the row
      touch only their own two accumulators, then the P&L and the
      nonnegative term loss of the trade's `fifo_add` are booked. */
  lemma BookTradeTotals(fifos: Fifos, a: Admitted, row: Row, rate: real, env: Env)
    returns (c: Carry, checkStock: bool, pnl: real, termLoss: real)
    requires rate != 0.0 && row.tcode != MoneyMovement && Book(fifos, a, row, rate, env).Ok?
    ensures c.totals == a.carry.totals.(totalFees := c.totals.totalFees, accountUsd := c.totals.accountUsd)
    ensures c.summaries == a.carry.summaries && termLoss >= 0.0
    ensures Book(fifos, a, row, rate, env).value.carry.totals == BookTrade(c.totals, checkStock, pnl, termLoss)
  {
    var usd := FifoAdd(fifos, CashUnits(row), 1.0 / rate, AccountUsd);
    c := Accrue(a.carry, row, rate, env.convertCurrency, usd.pnl / 10000.0);
    var o := PlaceOrder(usd.fifos, row, ParseQuantity(row.quantity).value, ParsePrice(row.price).value, rate, env).value;
    var added := FifoAdd(usd.fifos, o.quantity, o.price, o.asset);
    checkStock, pnl, termLoss := o.checkStock, added.pnl, added.termLoss;
  }

  /** Booking a trade's P&L and a nonnegative term loss keeps the signs. */
  lemma TradeKeepsSigns(c: Carry, r: Carry, checkStock: bool, pnl: real, termLoss: real)
    requires SummariesOk(c) && termLoss >= 0.0
    requires r.summaries == c.summaries && r.totals == BookTrade(c.totals, checkStock, pnl, termLoss)
    ensures SummariesOk(r)
  {
  }

  // ---------------------------------------------------------------------
  // Whole runs

  /** The net cash of all rows. */
  function NetSum(rows: seq<Row>): real
  {
    if rows == [] then 0.0 else NetSum(rows[1..]) + (rows[0].amount - rows[0].fees)
  }

  /** A run that goes through leaves the lots well formed. */
  lemma {:induction false} RunKeepsLedgerOk(rows: seq<Row>, env: Env)
    requires Run(rows, env).Ok?
    ensures LedgerOk(Run(rows, env).value.fifos)
    decreases |rows|
  {
    if rows != [] {
      RunKeepsLedgerOk(rows[1..], env);
      StepKeepsLedgerOk(Run(rows[1..], env).value, rows[0], env);
    }
  }

  /** A run that goes through writes one output row per input row, and its
      account total is the net cash of all rows. */
  lemma {:induction false} RunRecordsRows(rows: seq<Row>, env: Env)
    requires Run(rows, env).Ok?
    ensures |Run(rows, env).value.carry.out| == |rows|
    ensures Run(rows, env).value.carry.total == NetSum(rows)
    decreases |rows|
  {
    if rows != [] {
      RunRecordsRows(rows[1..], env);
      StepRecordsRow(Run(rows[1..], env).value, rows[0], env);
    }
  }

  /** The k-th output row was written for the k-th row from the end of
      the file. */
  predicate InOrder(out: seq<OutRow>, rows: seq<Row>)
  {
    |out| == |rows| &&
    forall k :: 0 <= k < |rows| ==>
      out[k].datetime == Take(rows[|rows| - 1 - k].datetime, 16) &&
      out[k].amount == rows[|rows| - 1 - k].amount
  }

  /** The output rows follow the input rows, oldest first. */
  lemma {:induction false} RunRowOrder(rows: seq<Row>, env: Env)
    requires Run(rows, env).Ok?
    ensures InOrder(Run(rows, env).value.carry.out, rows)
    decreases |rows|
  {
    if rows != [] {
      RunRowOrder(rows[1..], env);
      var s := Run(rows[1..], env).value;
      StepRecordsRow(s, rows[0], env);
      InOrderStep(s.carry.out, Run(rows, env).value.carry.out, rows);
    }
  }

  lemma InOrderStep(prev: seq<OutRow>, out: seq<OutRow>, rows: seq<Row>)
    requires rows != [] && InOrder(prev, rows[1..])
    requires |out| == |prev| + 1 && out[..|prev|] == prev
    requires out[|prev|].datetime == Take(rows[0].datetime, 16) && out[|prev|].amount == rows[0].amount
    ensures InOrder(out, rows)
  {
    forall k | 0 <= k < |rows| - 1
      ensures out[k].datetime == Take(rows[|rows| - 1 - k].datetime, 16)
      ensures out[k].amount == rows[|rows| - 1 - k].amount
    {
      assert out[k] == prev[k];
      assert rows[1..][|rows[1..]| - 1 - k] == rows[|rows| - 1 - k];
    }
  }

  /** All rows of a run that goes through carry the first row's account
      reference. */
  lemma {:induction false} RunAccount(rows: seq<Row>, env: Env)
    requires Run(rows, env).Ok?
    ensures forall i :: 0 <= i < |rows| ==> Run(rows, env).value.carry.accountRef == Some(rows[i].accountRef)
    decreases |rows|
  {
    if rows != [] {
      RunAccount(rows[1..], env);
      StepAccount(Run(rows[1..], env).value, rows[0], env);
      forall i | 0 < i < |rows|
        ensures Run(rows, env).value.carry.accountRef == Some(rows[i].accountRef)
      {
        assert rows[i] == rows[1..][i - 1];
      }
    }
  }

  /** Under positive rates, every accumulator of a run that goes through,
      and of each year it closed, has its sign. */
  lemma {:induction false} RunSigns(rows: seq<Row>, env: Env)
    requires PositiveRates(env.rates) && Run(rows, env).Ok?
    ensures SummariesOk(Run(rows, env).value.carry)
    decreases |rows|
  {
    if rows != [] {
      RunSigns(rows[1..], env);
      StepKeepsSigns(Run(rows[1..], env).value, rows[0], env);
    }
  }

  /** The first failing row, counted from the oldest, stops the run with its
      error. */
  lemma {:induction false} RunAbort(rows: seq<Row>, env: Env, k: nat)
    requires k <= |rows| && Run(rows[k..], env).Err?
    ensures Run(rows, env).Err? && Run(rows, env).error == Run(rows[k..], env).error
    decreases k
  {
    if k == 0 {
      assert rows[0..] == rows;
    } else {
      assert rows[k - 1..][1..] == rows[k..];
      RunAbort(rows, env, k - 1);
    }
  }
}
