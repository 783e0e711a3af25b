/** The closed-vocabulary checks of a ledger row (`check_tcode`,
    `check_param`, `check_trade`) and the stock classifier `is_stock`. */
module Validation {
  import opened Outcomes

  const MoneyMovement: string := "Money Movement"
  const Trade: string := "Trade"
  const ReceiveDeliver: string := "Receive Deliver"

  /** The subcodes that settle an option position without a trade. */
  const Settlements: seq<string> := ["Expiration", "Assignment", "Exercise"]

  /** The transaction vocabulary as a table: each code with the subcodes it allows. */
  const Vocabulary: map<string, set<string>> := map[
    MoneyMovement := {"Transfer", "Deposit", "Credit Interest", "Balance Adjustment",
                      "Fee", "Withdrawal", "Dividend"},
    Trade := {"Sell to Open", "Buy to Close", "Buy to Open", "Sell to Close"},
    ReceiveDeliver := {"Sell to Open", "Buy to Close", "Buy to Open", "Sell to Close",
                       "Expiration", "Assignment", "Exercise"}]

  /** The (code, subcode) pairs whose rows must carry one fixed description. */
  const Descriptions: map<(string, string), string> := map[
    (MoneyMovement, "Balance Adjustment") := "Regulatory fee adjustment",
    (ReceiveDeliver, "Assignment") := "Removal of option due to assignment",
    (ReceiveDeliver, "Exercise") := "Removal of option due to exercise"]

  /** `check_tcode(tcode, tsubcode, description)`: a row passes exactly when
      its code and subcode are in the vocabulary table and its description is
      the one the table fixes for that pair, if any. */
  function CheckTcode(tcode: string, tsubcode: string, description: string): (r: Outcome)
    ensures r == Pass <==>
      tcode in Vocabulary && tsubcode in Vocabulary[tcode] &&
      ((tcode, tsubcode) in Descriptions ==> description == Descriptions[(tcode, tsubcode)])
    ensures r == Fail(UnknownCode) <==> tcode !in Vocabulary
    ensures r == Fail(UnknownSubcode) <==> tcode in Vocabulary && tsubcode !in Vocabulary[tcode]
    ensures r.Fail? ==> r.error in {UnknownCode, UnknownSubcode, BadDescription}
  {
    if tcode !in [MoneyMovement, Trade, ReceiveDeliver] then Fail(UnknownCode)
    else if tcode == MoneyMovement then
      if tsubcode !in ["Transfer", "Deposit", "Credit Interest", "Balance Adjustment",
                       "Fee", "Withdrawal", "Dividend"] then Fail(UnknownSubcode)
      else if tsubcode == "Balance Adjustment" && description != "Regulatory fee adjustment" then
        Fail(BadDescription)
      else Pass
    else if tcode == Trade then
      if tsubcode !in ["Sell to Open", "Buy to Close", "Buy to Open", "Sell to Close"] then
        Fail(UnknownSubcode)
      else Pass
    else
      if tsubcode !in ["Sell to Open", "Buy to Close", "Buy to Open", "Sell to Close",
                       "Expiration", "Assignment", "Exercise"] then Fail(UnknownSubcode)
      else if tsubcode == "Assignment" && description != "Removal of option due to assignment" then
        Fail(BadDescription)
      else if tsubcode == "Exercise" && description != "Removal of option due to exercise" then
        Fail(BadDescription)
      else Pass
  }

  /** An optional cell is empty or holds one of `words`. */
  predicate CellIn(cell: Option<string>, words: set<string>)
  {
    cell.None? || cell.value in words
  }

  /** `check_param(buysell, openclose, callput)`: each cell must be empty or
      one of its two words (a cell holding the text "nan" prints like an empty
      one and passes too). */
  function CheckParam(buySell: Option<string>, openClose: Option<string>, callPut: Option<string>): (r: Outcome)
    ensures r == Pass <==>
      CellIn(buySell, {"nan", "Buy", "Sell"}) && CellIn(openClose, {"nan", "Open", "Close"}) &&
      CellIn(callPut, {"nan", "C", "P"})
    ensures r == Fail(BadBuySell) <==> !CellIn(buySell, {"nan", "Buy", "Sell"})
    ensures r.Fail? ==> r.error in {BadBuySell, BadOpenClose, BadCallPut}
  {
    if Str(buySell) !in ["nan", "Buy", "Sell"] then Fail(BadBuySell)
    else if Str(openClose) !in ["nan", "Open", "Close"] then Fail(BadOpenClose)
    else if Str(callPut) !in ["nan", "C", "P"] then Fail(BadCallPut)
    else Pass
  }

  const AbsTol: real := 0.00001
  const RelTol: real := 0.000000001

  /** `math.isclose(a, b, abs_tol=0.00001)` on exact numbers, with the default
      relative tolerance of 1e-9. NaN is close to nothing, itself included. */
  predicate IsClose(a: Num, b: Num)
    ensures IsClose(a, b) ==> a != NaN && b != NaN
    ensures a == b && a != NaN ==> IsClose(a, b)
  {
    match (a, b)
    case (Fin(x), Fin(y)) =>
      x == y || (var diff := RealAbs(y - x);
                 diff <= RealAbs(RelTol * y) || diff <= RealAbs(RelTol * x) || diff <= AbsTol)
    case _ => false
  }

  /** A missing cell or an exact zero. */
  predicate ZeroOrNaN(x: Num)
  {
    x == NaN || x == Fin(0.0)
  }

  /** `check_trade(tsubcode, check_amount, amount)`: a settlement row
      (expiration, assignment, exercise) must move no cash; any other trade
      must move `check_amount` up to the tolerance of `IsClose`. */
  function CheckTrade(tsubcode: string, checkAmount: Num, amount: Num): (r: Outcome)
    ensures tsubcode !in Settlements ==> (r == Pass <==> IsClose(checkAmount, amount))
    ensures tsubcode in Settlements ==> (r == Pass <==> ZeroOrNaN(amount) && ZeroOrNaN(checkAmount))
    ensures r.Fail? ==> r.error == (if tsubcode in Settlements then AmountNotZero else AmountMismatch)
  {
    if tsubcode !in ["Expiration", "Assignment", "Exercise"] then
      if !IsClose(checkAmount, amount) then Fail(AmountMismatch) else Pass
    else if amount != NaN && amount != Fin(0.0) then Fail(AmountNotZero)
    else if checkAmount != NaN && checkAmount != Fin(0.0) then Fail(AmountNotZero)
    else Pass
  }

  /** `IsClose` does not depend on the order of its arguments. */
  lemma IsCloseSymmetric(a: Num, b: Num)
    ensures IsClose(a, b) <==> IsClose(b, a)
  {
    if a.Fin? && b.Fin? {
      assert RealAbs(b.value - a.value) == RealAbs(a.value - b.value);
    }
  }

  /** Amounts within the absolute tolerance are close; amounts farther apart
      than the tolerances allow are not. */
  lemma IsCloseWithinTolerance(x: real, y: real)
    ensures RealAbs(x - y) <= AbsTol ==> IsClose(Fin(x), Fin(y))
    ensures (RealAbs(x - y) > AbsTol && RealAbs(x - y) > RelTol * RealAbs(x) &&
             RealAbs(x - y) > RelTol * RealAbs(y)) ==> !IsClose(Fin(x), Fin(y))
  {
    assert RealAbs(y - x) == RealAbs(x - y);
    assert RealAbs(RelTol * y) == RelTol * RealAbs(y);
    assert RealAbs(RelTol * x) == RelTol * RealAbs(x);
  }

  /** A trade whose amount is exactly `check_amount` passes, and one with a
      missing amount fails, whatever the trade. */
  lemma CheckTradeExact(tsubcode: string, x: real)
    requires tsubcode !in Settlements
    ensures CheckTrade(tsubcode, Fin(x), Fin(x)) == Pass
    ensures CheckTrade(tsubcode, Fin(x), NaN) == Fail(AmountMismatch)
  {
  }

  /** Well known ETFs (the program's list names EFA twice). */
  const Etfs: seq<string> := [
    "DXJ", "EEM", "EFA", "EFA", "EWZ", "FEZ", "FXB", "FXE", "FXI",
    "GDX", "GDXJ", "GLD", "HYG", "IEF", "IWM", "IYR", "KRE", "OIH", "QQQ",
    "RSX", "SLV", "SMH", "SPY", "TLT", "UNG", "USO", "VXX", "XBI", "XHB", "XLB",
    "XLE", "XLF", "XLI", "XLK", "XLP", "XLU", "XLV", "XME", "XOP", "XRT"]

  /** Well known individual stocks. */
  const KnownStocks: seq<string> := ["M", "AAPL", "TSLA"]

  /** `is_stock(symbol)` with the `--assume-individual-stock` flag as a
      parameter: ETFs are not stocks, the known stocks are, and any other
      symbol is a stock under the flag and an error without it. */
  function IsStock(symbol: string, assumeStock: bool): (r: Result<bool>)
    ensures symbol in Etfs ==> r == Ok(false)
    ensures symbol in KnownStocks ==> r == Ok(true)
    ensures symbol !in Etfs && symbol !in KnownStocks ==>
      r == (if assumeStock then Ok(true) else Err(UnknownSymbol))
  {
    if symbol in Etfs then Ok(false)
    else if symbol in KnownStocks then Ok(true)
    else if !assumeStock then Err(UnknownSymbol)
    else Ok(true)
  }

  /** The two tables are disjoint, so the order of the checks is immaterial. */
  lemma TablesDisjoint()
    ensures forall symbol :: symbol in KnownStocks ==> symbol !in Etfs
  {
    forall i | 0 <= i < |Etfs|
      ensures Etfs[i] != "M" && Etfs[i] != "AAPL" && Etfs[i] != "TSLA"
    {
      assert |Etfs[i]| >= 3;
      assert (Etfs[i][0] != 'A' && Etfs[i][0] != 'T') || |Etfs[i]| == 3;
    }
  }

  /** The flag only answers what the tables leave open: it never changes an
      answer given without it, and with it no symbol is rejected. */
  lemma AssumeStockOnlyWidens(symbol: string)
    ensures IsStock(symbol, false).Ok? ==> IsStock(symbol, true) == IsStock(symbol, false)
    ensures IsStock(symbol, true).Ok?
    ensures IsStock(symbol, false).Err? ==> IsStock(symbol, true) == Ok(true)
  {
  }
}
