/** The per-row step of `check`: each ledger row, oldest first, is validated,
    converted to EUR, fed to the USD cash ledger for currency gains, and then
    booked either as a money movement (transfer, interest, dividend, fee,
    withdrawal) or as a trade against the FIFO lots of its asset. */
module Processing {
  import opened Outcomes
  import opened Lots
  import opened Rates
  import opened Validation
  import opened AssetKeys

  /** One row of the account history. `day` is the day number of the date of
      `datetime`, the key of the rate table; `expire` is the expiry date
      already written as `yy-mm-dd`. Text cells that may be empty are
      optional; numeric cells that may be empty are `Num`. */
  datatype Row = Row(
    datetime: string, day: int, tcode: string, tsubcode: string, symbol: string,
    buySell: Option<string>, openClose: Option<string>, quantity: Num,
    expire: Option<string>, strike: Num, callPut: Option<string>, price: Num,
    fees: real, amount: real, description: string, accountRef: Option<string>)

  /** The rate table and the two command-line switches
      `--usd` (no conversion) and `--assume-individual-stock`. */
  datatype Env = Env(rates: RateTable, convertCurrency: bool, assumeStock: bool)

  /** The yearly accumulators. */
  datatype Totals = Totals(
    stockGains: real, stockLosses: real, pnl: real, accountUsd: real,
    dividends: real, withholdingTax: real, interestRecv: real, interestPaid: real,
    withdrawal: real, feeAdjustments: real, totalFees: real, termLosses: real)

  const NoTotals: Totals :=
    Totals(0.0, 0.0, 0.0, 0.0, 0.0, 0.0, 0.0, 0.0, 0.0, 0.0, 0.0, 0.0)

  /** What the yearly summary reports: the year, its accumulators, the
      account total so far and the open positions at that point. */
  datatype YearSummary = YearSummary(year: Option<string>, totals: Totals, accountTotal: real, fifos: Fifos)

  /** One output row; `pnl` is `None` for a transfer, whose P&L cell is empty. */
  datatype OutRow = OutRow(
    datetime: string, pnl: Option<real>, usdGains: real, eurAmount: real,
    amount: real, fees: real, rate: real, quantity: int, asset: string,
    symbol: string, description: string, accountTotal: real, termLoss: real)

  /** Everything `check` threads from row to row besides the lots. */
  datatype Carry = Carry(
    total: real, totals: Totals, year: Option<string>,
    accountRef: Option<Option<string>>, out: seq<OutRow>, summaries: seq<YearSummary>)

  datatype State = State(fifos: Fifos, carry: Carry)

  const Start: State := State(map[], Carry(0.0, NoTotals, None, None, [], []))

  // ---------------------------------------------------------------------
  // Python slicing

  /** `s[:n]`. */
  function Take(s: string, n: nat): (r: string)
    ensures |r| == Min(n, |s|) && r == s[..|r|]
  {
    if |s| <= n then s else s[..n]
  }

  /** `s[n:]`. */
  function Drop(s: string, n: nat): (r: string)
    ensures s == Take(s, n) + r
  {
    if |s| <= n then "" else s[n..]
  }

  // ---------------------------------------------------------------------
  // Admission of a row

  /** A change of year closes the previous year with a summary and restarts
      the accumulators; the account total runs on. */
  function EnterYear(c: Carry, fifos: Fifos, year: string): (r: Carry)
    ensures r.year == Some(year)
    ensures r.total == c.total && r.out == c.out && r.accountRef == c.accountRef
    ensures c.year == None || c.year == Some(year) ==> r.totals == c.totals && r.summaries == c.summaries
    ensures c.year != None && c.year != Some(year) ==>
      r.totals == NoTotals && r.summaries == c.summaries + [YearSummary(c.year, c.totals, c.total, fifos)]
  {
    if c.year == Some(year) then c
    else if c.year == None then c.(year := Some(year))
    else c.(totals := NoTotals, year := Some(year),
            summaries := c.summaries + [YearSummary(c.year, c.totals, c.total, fifos)])
  }

  /** The first row fixes the account reference, and every row must carry
      that reference. An empty cell is NaN, which equals nothing. */
  function CheckAccount(c: Carry, accountRef: Option<string>): (r: Result<Carry>)
    ensures r.Ok? <==> accountRef.Some? && (c.accountRef == None || c.accountRef == Some(accountRef))
    ensures r.Ok? ==> r.value == c.(accountRef := Some(accountRef))
    ensures r.Err? ==> r.error == AccountChanged
  {
    var fixed := if c.accountRef == None then Some(accountRef) else c.accountRef;
    if accountRef == None || fixed != Some(accountRef) then Err(AccountChanged)
    else Ok(c.(accountRef := fixed))
  }

  datatype Admitted = Admitted(carry: Carry, datetime: string)

  /** The checks before any amount is used: whole minutes, the year change,
      the closed vocabularies and the account reference. */
  function Admit(c: Carry, fifos: Fifos, row: Row): (r: Result<Admitted>)
    ensures r.Ok? <==>
      Drop(row.datetime, 16) == ":00" &&
      CheckTcode(row.tcode, row.tsubcode, row.description) == Pass &&
      CheckParam(row.buySell, row.openClose, row.callPut) == Pass &&
      row.accountRef.Some? && (c.accountRef == None || c.accountRef == Some(row.accountRef))
    ensures r.Ok? ==> r.value.datetime == Take(row.datetime, 16)
  {
    if Drop(row.datetime, 16) != ":00" then Err(BadTimestamp)
    else
      var datetime := Take(row.datetime, 16);
      var c1 := EnterYear(c, fifos, Take(datetime, 4));
      match CheckTcode(row.tcode, row.tsubcode, row.description)
      case Fail(e) => Err(e)
      case Pass =>
        match CheckParam(row.buySell, row.openClose, row.callPut)
        case Fail(e) => Err(e)
        case Pass =>
          var c2 :- CheckAccount(c1, row.accountRef);
          Ok(Admitted(c2, datetime))
  }

  // ---------------------------------------------------------------------
  // Amounts

  /** `usd2eur(x, date, conv)`. */
  function Usd2Eur(x: real, rate: real, convertCurrency: bool): (r: real)
    requires rate != 0.0
    ensures rate > 0.0 ==> (r > 0.0 <==> x > 0.0) && (r < 0.0 <==> x < 0.0)
    ensures !convertCurrency ==> r == x
    ensures convertCurrency ==> r * rate == x
  {
    if convertCurrency then x / rate else x
  }

  /** The net cash of a row as a whole number of 1/10000 USD, the quantity
      fed to the `account-usd` lots. */
  function CashUnits(row: Row): (n: int)
    ensures var cash := (row.amount - row.fees) * 10000.0;
            RealAbs(n as real) <= RealAbs(cash) < RealAbs(n as real) + 1.0
    ensures n == 0 || (n > 0 <==> row.amount > row.fees)
  {
    Trunc((row.amount - row.fees) * 10000.0)
  }

  /** The running total, the fees and the currency gains of one row. */
  function Accrue(c: Carry, row: Row, rate: real, convertCurrency: bool, usdGains: real): (r: Carry)
    requires rate != 0.0
    ensures r.total == c.total + (row.amount - row.fees)
    ensures r.totals == c.totals.(totalFees := c.totals.totalFees + Usd2Eur(row.fees, rate, convertCurrency),
                                  accountUsd := c.totals.accountUsd + usdGains)
    ensures r.year == c.year && r.accountRef == c.accountRef && r.out == c.out && r.summaries == c.summaries
  {
    c.(total := c.total + (row.amount - row.fees),
       totals := c.totals.(totalFees := c.totals.totalFees + Usd2Eur(row.fees, rate, convertCurrency),
                           accountUsd := c.totals.accountUsd + usdGains))
  }

  /** An empty quantity counts as one unit; otherwise it must be whole. */
  function ParseQuantity(quantity: Num): (r: Result<int>)
    ensures r.Err? <==> quantity.Fin? && !IsIntegral(quantity.value)
    ensures r.Err? ==> r.error == FractionalQuantity
    ensures r.Ok? && quantity.Fin? ==> r.value as real == quantity.value
    ensures quantity == NaN ==> r == Ok(1)
  {
    match quantity
    case NaN => Ok(1)
    case Fin(v) => if !IsIntegral(v) then Err(FractionalQuantity) else Ok(Trunc(v))
  }

  /** An empty price is zero; a negative price is refused. */
  function ParsePrice(price: Num): (r: Result<real>)
    ensures r.Err? <==> price.Fin? && price.value < 0.0
    ensures r.Err? ==> r.error == NegativePrice
    ensures r.Ok? ==> r.value >= 0.0 && r.value == (if price.Fin? then price.value else 0.0)
  {
    var p := if price.Fin? then price.value else 0.0;
    if p < 0.0 then Err(NegativePrice) else Ok(p)
  }

  // ---------------------------------------------------------------------
  // Money movements

  /** How a money movement is labelled and accumulated; `pnl` is `None` for
      a transfer. */
  datatype Booked = Booked(totals: Totals, asset: string, description: string, pnl: Option<real>)

  const InterestDescription: string := "INTEREST ON CREDIT BALANCE"

  /** The accumulators that only trades touch are the same in `a` and `b`. */
  predicate SameTradeTotals(a: Totals, b: Totals)
  {
    a.stockGains == b.stockGains && a.stockLosses == b.stockLosses &&
    a.pnl == b.pnl && a.termLosses == b.termLosses && a.accountUsd == b.accountUsd
  }

  /** The money-movement subcodes the branch books something for. */
  const MoneyMovementKinds: set<string> :=
    {"Transfer", "Deposit", "Credit Interest", "Balance Adjustment", "Fee", "Withdrawal", "Dividend"}

  /** The Money Movement branch, given the row's net EUR amount. */
  function BookMoneyMovement(t: Totals, row: Row, eur: real): (r: Result<Booked>)
    ensures r.Err? <==>
      (row.tsubcode != "Transfer" && row.fees != 0.0) ||
      (row.tsubcode in {"Fee", "Withdrawal"} && row.amount >= 0.0)
    ensures r.Ok? ==> r.value.pnl == (if row.tsubcode == "Transfer" then None else Some(eur))
    ensures r.Ok? ==> SameTradeTotals(t, r.value.totals)
    ensures r.Ok? && row.tsubcode == "Transfer" ==>
      r.value == Booked(t, "transfer", row.description, None)
    ensures r.Ok? && row.tsubcode in {"Deposit", "Credit Interest"} && row.description == InterestDescription ==>
      r.value.asset == "interest" && r.value.description == "" &&
      r.value.totals == (if row.amount > 0.0 then t.(interestRecv := t.interestRecv + eur)
                         else t.(interestPaid := t.interestPaid + eur))
    ensures r.Ok? && (row.tsubcode == "Dividend" ||
                      (row.tsubcode in {"Deposit", "Credit Interest"} && row.description != InterestDescription)) ==>
      r.value.description == row.description &&
      (row.amount > 0.0 ==>
        r.value.asset == "dividends for " + row.symbol && r.value.totals == t.(dividends := t.dividends + eur)) &&
      (row.amount <= 0.0 ==>
        r.value.asset == "withholding tax for " + row.symbol &&
        r.value.totals == t.(withholdingTax := t.withholdingTax + eur))
    ensures r.Ok? && row.tsubcode in {"Balance Adjustment", "Fee"} ==>
      r.value.totals == t.(feeAdjustments := t.feeAdjustments + eur, totalFees := t.totalFees + eur) &&
      r.value.asset == (if row.tsubcode == "Fee" then "fees for " + row.symbol else "balance adjustment")
    ensures r.Ok? && row.tsubcode == "Withdrawal" ==>
      r.value.asset == "dividends paid for " + row.symbol && r.value.description == row.description &&
      r.value.totals == t.(withdrawal := t.withdrawal + eur)
    ensures r.Ok? && row.tsubcode !in MoneyMovementKinds ==> r.value.totals == t
  {
    if row.tsubcode != "Transfer" && row.fees != 0.0 then Err(FeeOnMoneyMovement)
    else if row.tsubcode == "Transfer" then
      Ok(Booked(t, "transfer", row.description, None))
    else if row.tsubcode in ["Deposit", "Credit Interest"] then
      if row.description == InterestDescription then
        if row.amount > 0.0 then
          Ok(Booked(t.(interestRecv := t.interestRecv + eur), "interest", "", Some(eur)))
        else
          Ok(Booked(t.(interestPaid := t.interestPaid + eur), "interest", "", Some(eur)))
      else if row.amount > 0.0 then
        Ok(Booked(t.(dividends := t.dividends + eur), "dividends for " + row.symbol, row.description, Some(eur)))
      else
        Ok(Booked(t.(withholdingTax := t.withholdingTax + eur), "withholding tax for " + row.symbol,
                  row.description, Some(eur)))
    else if row.tsubcode == "Balance Adjustment" then
      Ok(Booked(t.(feeAdjustments := t.feeAdjustments + eur, totalFees := t.totalFees + eur),
                "balance adjustment", "", Some(eur)))
    else if row.tsubcode == "Fee" then
      if row.amount >= 0.0 then Err(NonNegativeFee)
      else
        Ok(Booked(t.(feeAdjustments := t.feeAdjustments + eur, totalFees := t.totalFees + eur),
                  "fees for " + row.symbol, row.description, Some(eur)))
    else if row.tsubcode == "Withdrawal" then
      if row.amount >= 0.0 then Err(NonNegativeWithdrawal)
      else
        Ok(Booked(t.(withdrawal := t.withdrawal + eur), "dividends paid for " + row.symbol,
                  row.description, Some(eur)))
    else if row.tsubcode == "Dividend" then
      if row.amount > 0.0 then
        Ok(Booked(t.(dividends := t.dividends + eur), "dividends for " + row.symbol, row.description, Some(eur)))
      else
        Ok(Booked(t.(withholdingTax := t.withholdingTax + eur), "withholding tax for " + row.symbol,
                  row.description, Some(eur)))
    else
      Ok(Booked(t, "", "", Some(eur)))
  }

  // ---------------------------------------------------------------------
  // Trades

  /** The asset a trade is booked under, its price per unit of the asset and
      whether its P&L counts as stock gains or losses. */
  datatype Key = Key(asset: string, price: real, checkStock: bool)

  /** An option (a row with an expiry) is booked under its option key at 100
      times the quoted price and never as a stock; anything else under its
      symbol, as a stock when `is_stock` says so. */
  function TradeKey(row: Row, price: real, assumeStock: bool): (r: Result<Key>)
    ensures row.expire.Some? ==>
      (r.Err? <==> row.strike == NaN) &&
      (r.Ok? ==> r.value == Key(OptionKey(row.symbol, row.callPut, row.strike.value, row.expire.value),
                                price * 100.0, false))
    ensures row.expire.None? ==>
      (r.Err? <==> IsStock(row.symbol, assumeStock).Err?) &&
      (r.Ok? ==> r.value == Key(row.symbol, price, IsStock(row.symbol, assumeStock).value))
    ensures r.Err? ==> r.error in {BadStrike, UnknownSymbol}
  {
    match row.expire
    case Some(expire) =>
      if row.strike == NaN then Err(BadStrike)
      else Ok(Key(OptionKey(row.symbol, row.callPut, row.strike.value, expire), price * 100.0, false))
    case None =>
      var stock :- IsStock(row.symbol, assumeStock);
      Ok(Key(row.symbol, price, stock))
  }

  /** The signed quantity of a trade: a sell is negative, and an expiration,
      assignment or exercise closes whatever position is open. */
  function Direction(fifos: Fifos, row: Row, asset: string, quantity: int): (r: Result<int>)
    ensures r.Ok? ==> r.value == quantity || r.value == -quantity
    ensures Str(row.buySell) == "Sell" ==> r == Ok(-quantity)
    ensures Str(row.buySell) != "Sell" && row.tsubcode !in Settlements ==> r == Ok(quantity)
    ensures Str(row.buySell) != "Sell" && row.tsubcode in Settlements ==>
      (r.Err? <==> Queue(fifos, asset) == []) &&
      (r.Err? ==> r.error == NoPosition) &&
      (LedgerOk(fifos) && r.Ok? ==>
        r.value == (if SumQty(fifos[asset]) > 0 then -quantity else quantity))
  {
    if Str(row.buySell) == "Sell" then Ok(-quantity)
    else if row.tsubcode in Settlements then
      var long :- IsLong(fifos, asset);
      Ok(if long then -quantity else quantity)
    else Ok(quantity)
  }

  /** The unit price of a trade of `quantity` units with net amount `net`:
      `abs(net / quantity)`, converted to EUR. The lots the trade opens or
      closes cost, at that price, exactly the net amount paid or received. */
  function UnitPrice(net: real, quantity: int, rate: real, convertCurrency: bool): (p: real)
    requires quantity != 0 && rate != 0.0
    ensures convertCurrency ==> Premium(Abs(quantity), p) * rate == RealAbs(net)
    ensures !convertCurrency ==> Premium(Abs(quantity), p) == RealAbs(net)
    ensures rate > 0.0 ==> p >= 0.0
  {
    var unit := RealAbs(net / quantity as real);
    SpreadOverUnits(net, quantity);
    var p := Usd2Eur(unit, rate, convertCurrency);
    assert convertCurrency ==> Premium(Abs(quantity), p) * rate == Abs(quantity) as real * (p * rate);
    p
  }

  /** What `fifo_add` is called with for a trade. */
  datatype Order = Order(asset: string, quantity: int, price: real, checkStock: bool)

  /** The trade branch up to the call of `fifo_add`: the key, the signed
      quantity, the amount check, and the unit price recomputed from the net
      amount. */
  function PlaceOrder(fifos: Fifos, row: Row, quantity: int, price: real, rate: real, env: Env): (r: Result<Order>)
    requires rate != 0.0
    ensures r.Ok? ==> r.value.quantity != 0
    ensures r.Ok? && rate > 0.0 ==> r.value.price >= 0.0
    ensures r.Ok? ==> r.value.quantity == quantity || r.value.quantity == -quantity
    ensures r.Ok? ==> (
      var key := TradeKey(row, price, env.assumeStock);
      key.Ok? && r.value.asset == key.value.asset && r.value.checkStock == key.value.checkStock &&
      Direction(fifos, row, r.value.asset, quantity) == Ok(r.value.quantity) &&
      CheckTrade(row.tsubcode, Fin(-Premium(r.value.quantity, key.value.price)), Fin(row.amount)) == Pass)
    ensures r.Err? <==> (
      var key := TradeKey(row, price, env.assumeStock);
      key.Err? ||
      (var q := Direction(fifos, row, key.value.asset, quantity);
       q.Err? || q.value == 0 ||
       CheckTrade(row.tsubcode, Fin(-Premium(q.value, key.value.price)), Fin(row.amount)) != Pass))
    ensures r.Ok? ==> r.value.price == UnitPrice(row.amount - row.fees, r.value.quantity, rate, env.convertCurrency)
  {
    var key :- TradeKey(row, price, env.assumeStock);
    var q :- Direction(fifos, row, key.asset, quantity);
    match CheckTrade(row.tsubcode, Fin(-Premium(q, key.price)), Fin(row.amount))
    case Fail(e) => Err(e)
    case Pass =>
      if q == 0 then Err(ZeroQuantity)
      else
        Ok(Order(key.asset, q, UnitPrice(row.amount - row.fees, q, rate, env.convertCurrency), key.checkStock))
  }

  /** `|x / q|` per unit over `|q|` units is `|x|`. */
  lemma SpreadOverUnits(x: real, q: int)
    requires q != 0
    ensures Abs(q) as real * RealAbs(x / q as real) == RealAbs(x)
  {
    var d := x / q as real;
    assert d * q as real == x;
    if q > 0 {
      if x < 0.0 { assert d < 0.0; }
    } else {
      if x > 0.0 { assert d < 0.0; } else if x < 0.0 { assert d > 0.0; }
    }
  }

  /** Books the P&L of a trade: stock gains and losses apart, everything else
      (options, ETFs) together; term losses on their own. */
  function BookTrade(t: Totals, checkStock: bool, pnl: real, termLoss: real): (r: Totals)
    ensures r.termLosses == t.termLosses + termLoss
    ensures r.stockGains + r.stockLosses + r.pnl == t.stockGains + t.stockLosses + t.pnl + pnl
    ensures checkStock && pnl > 0.0 ==> r.stockGains == t.stockGains + pnl
    ensures checkStock && pnl <= 0.0 ==> r.stockLosses == t.stockLosses + pnl
    ensures !checkStock ==> r.pnl == t.pnl + pnl
    ensures !checkStock ==> r.stockGains == t.stockGains && r.stockLosses == t.stockLosses
    ensures checkStock ==> r.pnl == t.pnl
    ensures checkStock && pnl > 0.0 ==> r.stockLosses == t.stockLosses
    ensures checkStock && pnl <= 0.0 ==> r.stockGains == t.stockGains
    ensures r.dividends == t.dividends && r.withholdingTax == t.withholdingTax &&
            r.interestRecv == t.interestRecv && r.interestPaid == t.interestPaid &&
            r.withdrawal == t.withdrawal && r.feeAdjustments == t.feeAdjustments &&
            r.totalFees == t.totalFees && r.accountUsd == t.accountUsd
  {
    var t1 := t.(termLosses := t.termLosses + termLoss);
    if !checkStock then t1.(pnl := t1.pnl + pnl)
    else if pnl > 0.0 then t1.(stockGains := t1.stockGains + pnl)
    else t1.(stockLosses := t1.stockLosses + pnl)
  }

  // ---------------------------------------------------------------------
  // The step

  /** One iteration of the loop of `check`. */
  function Step(s: State, row: Row, env: Env): Result<State>
  {
    var a :- Admit(s.carry, s.fifos, row);
    var rate :- RateOn(env.rates, row.day);
    if rate == 0.0 then Err(ZeroRate) else Book(s.fifos, a, row, rate, env)
  }

  /** The step once the row is admitted and its rate is known: the cash
      bookkeeping, the USD currency gains, then the money movement or trade. */
  function Book(fifos: Fifos, a: Admitted, row: Row, rate: real, env: Env): Result<State>
    requires rate != 0.0
  {
    var eur := Usd2Eur(row.amount - row.fees, rate, env.convertCurrency);
    var usd := FifoAdd(fifos, CashUnits(row), 1.0 / rate, AccountUsd);
    var usdGains := usd.pnl / 10000.0;
    var c := Accrue(a.carry, row, rate, env.convertCurrency, usdGains);
    var quantity :- ParseQuantity(row.quantity);
    var price :- ParsePrice(row.price);
    var line := OutRow(a.datetime, None, usdGains, eur, row.amount, row.fees, rate,
                       quantity, "", row.symbol, "", c.total, 0.0);
    if row.tcode == MoneyMovement then
      var b :- BookMoneyMovement(c.totals, row, eur);
      Ok(State(usd.fifos, c.(totals := b.totals,
        out := c.out + [line.(pnl := b.pnl, asset := b.asset, description := b.description)])))
    else
      var o :- PlaceOrder(usd.fifos, row, quantity, price, rate, env);
      var added := FifoAdd(usd.fifos, o.quantity, o.price, o.asset);
      Ok(State(added.fifos, c.(totals := BookTrade(c.totals, o.checkStock, added.pnl, added.termLoss),
        out := c.out + [line.(pnl := Some(added.pnl), quantity := o.quantity, asset := o.asset,
                              termLoss := added.termLoss)])))
  }

  /** The rows in file order (newest first), processed oldest first; the
      first failing row stops the run. */
  function Run(rows: seq<Row>, env: Env): Result<State>
    decreases |rows|
  {
    if rows == [] then Ok(Start)
    else
      var s :- Run(rows[1..], env);
      Step(s, rows[0], env)
  }

  /** The output rows and the yearly summaries, the last one written after
      the loop for the current year. */
  datatype Report = Report(rows: seq<OutRow>, summaries: seq<YearSummary>)

  function Finish(rows: seq<Row>, env: Env): Result<Report>
  {
    var s :- Run(rows, env);
    Ok(Report(s.carry.out,
              s.carry.summaries + [YearSummary(s.carry.year, s.carry.totals, s.carry.total, s.fifos)]))
  }
}
