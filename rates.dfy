/** The EUR/USD reference rates and the walk-back of `get_eurusd`: a day
    whose rate cell is empty takes the rate of the day before, and so on,
    until a day with a rate is found or the table has no entry for the day. */
module Rates {
  import opened Outcomes

  /** Day number (consecutive integers for consecutive calendar days) to the
      rate cell of that day; a cell without a number is NaN. */
  type RateTable = map<int, Num>

  /** The days of the table up to and including `day`. */
  function Upto(rates: RateTable, day: int): set<int>
  {
    set d | d in rates.Keys && d <= day
  }

  /** Every day after `lo` up to `hi` is in the table with an empty cell. */
  ghost predicate EmptyBetween(rates: RateTable, lo: int, hi: int)
  {
    forall d :: lo < d <= hi ==> d in rates && rates[d] == NaN
  }

  /** `get_eurusd(date)`: the rate of `day`, or of the nearest earlier day
      reached through empty cells only. A day missing from the table is the
      program's KeyError. */
  function RateOn(rates: RateTable, day: int): (r: Result<real>)
    ensures r.Ok? ==> day in rates
    ensures r.Err? ==> r.error == MissingRate
    decreases |Upto(rates, day)|
  {
    if day !in rates then Err(MissingRate)
    else match rates[day]
      case Fin(v) => Ok(v)
      case NaN =>
        UptoShrinks(rates, day);
        RateOn(rates, day - 1)
  }

  lemma UptoShrinks(rates: RateTable, day: int)
    requires day in rates
    ensures |Upto(rates, day - 1)| < |Upto(rates, day)|
  {
    assert Upto(rates, day) == Upto(rates, day - 1) + {day};
  }

  /** The loop of `get_eurusd`, stepping back one day per empty cell. */
  method GetEurUsd(rates: RateTable, day: int) returns (r: Result<real>)
    ensures r == RateOn(rates, day)
  {
    var d := day;
    while true
      invariant RateOn(rates, d) == RateOn(rates, day)
      decreases |Upto(rates, d)|
    {
      if d !in rates {
        return Err(MissingRate);
      }
      match rates[d] {
        case Fin(v) =>
          return Ok(v);
        case NaN =>
      }
      UptoShrinks(rates, d);
      d := d - 1;
    }
  }

  /** The walk stops at the first day with a rate: if every day after `found`
      up to `day` has an empty cell and `found` has rate `v`, the result is `v`. */
  lemma {:induction false} RateOnFound(rates: RateTable, day: int, found: int, v: real)
    requires found <= day && found in rates && rates[found] == Fin(v)
    requires EmptyBetween(rates, found, day)
    ensures RateOn(rates, day) == Ok(v)
    decreases day - found
  {
    if day > found {
      RateOnFound(rates, day - 1, found, v);
    }
  }

  /** The walk fails at the first day missing from the table. */
  lemma {:induction false} RateOnMissing(rates: RateTable, day: int, gap: int)
    requires gap <= day && gap !in rates
    requires EmptyBetween(rates, gap, day)
    ensures RateOn(rates, day) == Err(MissingRate)
    decreases day - gap
  {
    if day > gap {
      RateOnMissing(rates, day - 1, gap);
    }
  }

  /** Conversely, a rate that is found is the cell of a day reached through
      empty cells only. */
  lemma {:induction false} RateOnSource(rates: RateTable, day: int) returns (found: int)
    requires RateOn(rates, day).Ok?
    ensures found <= day && found in rates && rates[found] == Fin(RateOn(rates, day).value)
    ensures EmptyBetween(rates, found, day)
    decreases |Upto(rates, day)|
  {
    if rates[day].Fin? {
      found := day;
    } else {
      UptoShrinks(rates, day);
      found := RateOnSource(rates, day - 1);
    }
  }
}
