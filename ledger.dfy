/** The FIFO ledger as the program keeps it: one mutable dictionary from asset
    key to its deque of open lots, changed in place by `fifo_add`. */
module Ledger {
  import opened Outcomes
  import opened Lots

  class FifoLedger {
    /** Asset key to the queue of open lots, oldest first. */
    var fifos: Fifos

    /** The ledger invariant of module Lots on the current dictionary. */
    ghost predicate Valid()
      reads this
    {
      LedgerOk(fifos)
    }

    /** A ledger with no open position. */
    constructor ()
      ensures fifos == map[]
      ensures Valid()
    {
      fifos := map[];
    }

    /** `fifo_add(fifos, quantity, price, asset)`: books `quantity` units at
        `price` and returns the realized P&L and the option term loss. The new
        dictionary and both results are those of `FifoAdd`, so every property
        proved about `FifoAdd` and `Match` holds of this method, and a valid
        ledger stays valid. */
    method Add(quantity: int, price: real, asset: string) returns (pnl: real, termLoss: real)
      modifies this
      ensures Added(fifos, pnl, termLoss) == FifoAdd(old(fifos), quantity, price, asset)
      ensures old(Valid()) ==> Valid()
      ensures quantity != 0 && asset in fifos ==> fifos[asset] != []
    {
      pnl, termLoss := 0.0, 0.0;
      if quantity == 0 {
        return;
      }
      var isOption := |asset| > 10 && asset != AccountUsd;
      if asset !in fifos {
        fifos := fifos[asset := []];
      }
      var fifo;
      fifo, pnl, termLoss := MatchLots(fifos[asset], quantity, price, isOption);
      Overwrite(old(fifos), asset, fifos[asset], fifo);
      if |fifo| == 0 {
        fifos := fifos - {asset};
      } else {
        fifos := fifos[asset := fifo];
      }
    }
  }

  /** The `while` loop of `fifo_add` on one asset's deque: consumes the oldest
      opposite lots, reduces the one that absorbs the rest, or appends what is
      left; the new deque and both amounts are those of `Match`. */
  method MatchLots(lots: seq<Lot>, quantity: int, price: real, isOption: bool)
    returns (fifo: seq<Lot>, pnl: real, termLoss: real)
    requires quantity != 0
    ensures Matched(fifo, pnl, termLoss) == Match(lots, quantity, price, isOption)
  {
    pnl, termLoss := 0.0, 0.0;
    fifo := lots;
    var q := quantity;
    while |fifo| > 0
      invariant q != 0
      invariant Match(fifo, q, price, isOption).queue == Match(lots, quantity, price, isOption).queue
      invariant pnl + Match(fifo, q, price, isOption).pnl == Match(lots, quantity, price, isOption).pnl
      invariant termLoss + Match(fifo, q, price, isOption).termLoss ==
                Match(lots, quantity, price, isOption).termLoss
      decreases |fifo|
    {
      if Sign(fifo[0].quantity) == Sign(q) {
        break;
      }
      if Abs(fifo[0].quantity) >= Abs(q) {
        // the head lot absorbs what is left of the quantity
        MatchAbsorbStep(fifo, q, price, isOption);
        var c := Closing(-q, fifo[0].price, price, isOption, q);
        pnl, termLoss := pnl + c.pnl, termLoss + c.termLoss;
        ghost var tail := fifo[1..];
        fifo := fifo[0 := Lot(fifo[0].price, fifo[0].quantity + q)];
        assert fifo == [fifo[0]] + tail;
        if fifo[0].quantity == 0 {
          fifo := fifo[1..];
        }
        return;
      }
      // the head lot is consumed whole
      MatchConsumeStep(fifo, q, price, isOption);
      var c := Closing(fifo[0].quantity, fifo[0].price, price, isOption, q);
      pnl, termLoss := pnl + c.pnl, termLoss + c.termLoss;
      q := q + fifo[0].quantity;
      fifo := fifo[1..];
    }
    fifo := fifo + [Lot(price, q)];
    // selling an option is taxed as income when it is received
    if isOption && q < 0 {
      pnl := pnl + Premium(-q, price);
    }
  }

  /** Writing a key twice keeps the second value; deleting it forgets both. */
  lemma Overwrite(m: Fifos, a: string, x: seq<Lot>, y: seq<Lot>)
    ensures m[a := x][a := y] == m[a := y]
    ensures m[a := x] - {a} == m - {a}
  {
  }
}
