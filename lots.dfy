/** The FIFO lot ledger of `fifo_add`, as values: a map from asset key to the
    queue of open lots, oldest first. `Match` is the matching loop written as a
    recursive function (one call per loop iteration); `FifoAdd` is the whole
    call on the map. The imperative loop in module Ledger is proved equal to it. */
module Lots {
  import opened Outcomes

  /** One open lot: unit price and signed quantity (positive long, negative short). */
  datatype Lot = Lot(price: real, quantity: int)

  type Fifos = map<string, seq<Lot>>

  /** The reserved key under which USD cash is tracked, in units of 1/10^4 USD. */
  const AccountUsd: string := "account-usd"

  /** `sign(x)`: the direction of a quantity, 1 for long (and for zero), -1 for short. */
  function Sign(x: int): (r: int)
    ensures r == 1 || r == -1
    ensures r == 1 <==> x >= 0
  {
    if x >= 0 then 1 else -1
  }

  /** An asset key longer than ten characters, other than the cash key, is an option. */
  predicate IsOption(asset: string)
  {
    |asset| > 10 && asset != AccountUsd
  }

  /** The queue of an asset, empty when the asset has no entry. */
  function Queue(fifos: Fifos, asset: string): seq<Lot>
  {
    if asset in fifos then fifos[asset] else []
  }

  /** Net position of a queue. */
  function SumQty(lots: seq<Lot>): int
  {
    if lots == [] then 0 else lots[0].quantity + SumQty(lots[1..])
  }

  /** What `held` units (signed as held) of a lot opened at `lotPrice` have
      gained when marked at `price`. */
  function Gain(held: int, lotPrice: real, price: real): real
  {
    held as real * (price - lotPrice)
  }

  /** What `size` units cost or bring at `price`. */
  function Premium(size: int, price: real): real
  {
    size as real * price
  }

  /** Unrealized P&L of a queue marked at `price`. */
  function Unrealized(lots: seq<Lot>, price: real): real
  {
    if lots == [] then 0.0
    else Gain(lots[0].quantity, lots[0].price, price) + Unrealized(lots[1..], price)
  }

  /** The queue invariant: no zero lot, and one direction for every lot. */
  ghost predicate QueueOk(lots: seq<Lot>)
  {
    forall i :: 0 <= i < |lots| ==>
      lots[i].quantity != 0 && Sign(lots[i].quantity) == Sign(lots[0].quantity)
  }

  /** The ledger invariant: every present key has a nonempty, well-formed queue. */
  ghost predicate LedgerOk(fifos: Fifos)
  {
    forall a :: a in fifos ==> fifos[a] != [] && QueueOk(fifos[a])
  }

  /** What one matching pass leaves: the new queue, the realized P&L and the
      loss amount of options sold below their purchase price ("term losses"). */
  datatype Matched = Matched(queue: seq<Lot>, pnl: real, termLoss: real)

  /** What closing one matched portion realizes. */
  datatype Closed = Closed(pnl: real, termLoss: real)

  /** The part of a realized amount that is a loss: `p` when positive, else 0. */
  function LossOf(p: real): (r: real)
    ensures r >= 0.0
    ensures r == 0.0 || r == p
    ensures p > 0.0 ==> r == p
  {
    if p > 0.0 then p else 0.0
  }

  /** Closing `held` units (signed as they were held) of a lot opened at
      `lotPrice`, by an incoming `quantity` at `price`. Buying back options
      realizes only the price paid (the premium was income when received);
      anything else realizes the price difference, and an option sold below
      its purchase price is also a term loss. */
  function Closing(held: int, lotPrice: real, price: real, isOption: bool, quantity: int): (c: Closed)
    ensures c.termLoss >= 0.0
    ensures !(isOption && quantity < 0) ==> c.termLoss == 0.0
    ensures isOption && quantity > 0 ==> c.pnl == Premium(held, price)
    ensures !isOption ==> c.pnl == Gain(held, lotPrice, price)
    ensures isOption && quantity < 0 ==>
      c.pnl == Gain(held, lotPrice, price) && c.termLoss == LossOf(-c.pnl)
  {
    if isOption && quantity > 0 then Closed(Premium(held, price), 0.0)
    else
      var p := Gain(held, lotPrice, price);
      Closed(p, if isOption && quantity < 0 then LossOf(-p) else 0.0)
  }

  /** The matching loop of `fifo_add` on one queue, for a nonzero quantity. */
  function Match(fifo: seq<Lot>, quantity: int, price: real, isOption: bool): (m: Matched)
    ensures m.termLoss >= 0.0
    ensures !isOption ==> m.termLoss == 0.0
    ensures fifo == [] || Sign(fifo[0].quantity) == Sign(quantity) ==>
      m.queue == fifo + [Lot(price, quantity)] && m.termLoss == 0.0 &&
      m.pnl == (if isOption && quantity < 0 then Premium(-quantity, price) else 0.0)
    decreases |fifo|
  {
    if fifo == [] || Sign(fifo[0].quantity) == Sign(quantity) then
      // same direction (or nothing to match): append; a sold option is income now
      Matched(fifo + [Lot(price, quantity)],
              if isOption && quantity < 0 then Premium(-quantity, price) else 0.0,
              0.0)
    else if Abs(fifo[0].quantity) >= Abs(quantity) then
      // the head lot absorbs the whole quantity
      var rest := fifo[0].quantity + quantity;
      var queue := if rest == 0 then fifo[1..] else [Lot(fifo[0].price, rest)] + fifo[1..];
      var c := Closing(-quantity, fifo[0].price, price, isOption, quantity);
      Matched(queue, c.pnl, c.termLoss)
    else
      // the head lot is consumed entirely; continue with the remainder
      var c := Closing(fifo[0].quantity, fifo[0].price, price, isOption, quantity);
      var m := Match(fifo[1..], quantity + fifo[0].quantity, price, isOption);
      Matched(m.queue, c.pnl + m.pnl, c.termLoss + m.termLoss)
  }

  /** The result of `fifo_add`: the new ledger, the P&L and the term loss. */
  datatype Added = Added(fifos: Fifos, pnl: real, termLoss: real)

  /** `fifo_add(fifos, quantity, price, asset)`. */
  function FifoAdd(fifos: Fifos, quantity: int, price: real, asset: string): (r: Added)
    ensures quantity == 0 ==> r == Added(fifos, 0.0, 0.0)
    ensures forall a :: a != asset ==> (a in r.fifos <==> a in fifos) && Queue(r.fifos, a) == Queue(fifos, a)
    ensures SumQty(Queue(r.fifos, asset)) == SumQty(Queue(fifos, asset)) + quantity
    ensures LedgerOk(fifos) ==> LedgerOk(r.fifos)
    ensures r.termLoss >= 0.0
    ensures !IsOption(asset) ==> r.termLoss == 0.0
    ensures quantity != 0 && (Queue(fifos, asset) == [] || Sign(Queue(fifos, asset)[0].quantity) == Sign(quantity)) ==>
      Queue(r.fifos, asset) == Queue(fifos, asset) + [Lot(price, quantity)] && r.termLoss == 0.0 &&
      r.pnl == (if IsOption(asset) && quantity < 0 then Premium(-quantity, price) else 0.0)
  {
    if quantity == 0 then Added(fifos, 0.0, 0.0)
    else
      var m := Match(Queue(fifos, asset), quantity, price, IsOption(asset));
      MatchConserves(Queue(fifos, asset), quantity, price, IsOption(asset));
      var fifos' := if m.queue == [] then fifos - {asset} else fifos[asset := m.queue];
      assert LedgerOk(fifos) ==> LedgerOk(fifos') by {
        if LedgerOk(fifos) {
          MatchKeepsQueueOk(Queue(fifos, asset), quantity, price, IsOption(asset));
        }
      }
      Added(fifos', m.pnl, m.termLoss)
  }

  /** `fifo_add` never leaves an emptied queue behind: after a booking the
      asset either has open lots or no entry at all. */
  lemma FifoAddDropsEmptied(fifos: Fifos, quantity: int, price: real, asset: string)
    requires quantity != 0
    ensures var r := FifoAdd(fifos, quantity, price, asset);
            asset in r.fifos ==> r.fifos[asset] != []
  {
  }

  /** For a nonzero quantity, `fifo_add` is one matching pass over the asset's
      queue: the asset's new queue, the P&L and the term loss are the pass's. */
  lemma FifoAddIsMatch(fifos: Fifos, quantity: int, price: real, asset: string)
    requires quantity != 0
    ensures var r, m := FifoAdd(fifos, quantity, price, asset),
                        Match(Queue(fifos, asset), quantity, price, IsOption(asset));
            Queue(r.fifos, asset) == m.queue && r.pnl == m.pnl && r.termLoss == m.termLoss
  {
  }

  /** `fifos_islong(fifos, asset)`: whether the oldest lot of the asset is long.
      A missing key is the program's KeyError. */
  function IsLong(fifos: Fifos, asset: string): (r: Result<bool>)
    ensures r.Err? <==> Queue(fifos, asset) == []
    ensures LedgerOk(fifos) && r.Ok? ==> (r.value <==> SumQty(fifos[asset]) > 0)
    ensures LedgerOk(fifos) && r.Ok? ==> (!r.value <==> SumQty(fifos[asset]) < 0)
  {
    if asset !in fifos || fifos[asset] == [] then Err(NoPosition)
    else
      assert LedgerOk(fifos) ==>
        SumQty(fifos[asset]) != 0 && fifos[asset][0].quantity != 0 &&
        Sign(SumQty(fifos[asset])) == Sign(fifos[asset][0].quantity) by {
        if LedgerOk(fifos) { SameSignSum(fifos[asset]); }
      }
      Ok(fifos[asset][0].quantity > 0)
  }

  // ---------------------------------------------------------------------
  // Arithmetic of gains and premiums

  /** Gains and premiums add up over the units. */
  lemma Linear(a: int, b: int, lotPrice: real, price: real)
    ensures Gain(a + b, lotPrice, price) == Gain(a, lotPrice, price) + Gain(b, lotPrice, price)
    ensures Premium(a + b, price) == Premium(a, price) + Premium(b, price)
    ensures Gain(-a, lotPrice, price) == -Gain(a, lotPrice, price)
    ensures Premium(-a, price) == -Premium(a, price)
  {
  }

  /** Nothing is gained at the lot's own price, and nothing is worth nothing. */
  lemma Zero(a: int, price: real)
    ensures Gain(a, price, price) == 0.0 && Gain(0, price, price) == 0.0 && Premium(0, price) == 0.0
  {
  }

  // ---------------------------------------------------------------------
  // Facts about queues

  lemma {:induction false} SumQtyAppend(lots: seq<Lot>, lot: Lot)
    ensures SumQty(lots + [lot]) == SumQty(lots) + lot.quantity
    ensures Unrealized(lots + [lot], lot.price) == Unrealized(lots, lot.price)
    decreases |lots|
  {
    if lots == [] {
      Zero(lot.quantity, lot.price);
    } else {
      assert (lots + [lot])[1..] == lots[1..] + [lot];
      SumQtyAppend(lots[1..], lot);
    }
  }

  /** Both sums split over a concatenation. */
  lemma {:induction false} SumsSplit(a: seq<Lot>, b: seq<Lot>, price: real)
    ensures SumQty(a + b) == SumQty(a) + SumQty(b)
    ensures Unrealized(a + b, price) == Unrealized(a, price) + Unrealized(b, price)
    decreases |a|
  {
    if a == [] {
      assert a + b == b;
    } else {
      assert (a + b)[1..] == a[1..] + b;
      SumsSplit(a[1..], b, price);
    }
  }

  lemma QueueOkTail(lots: seq<Lot>)
    requires QueueOk(lots) && lots != []
    ensures QueueOk(lots[1..])
  {
    forall i | 0 <= i < |lots| - 1
      ensures lots[1..][i].quantity != 0 && Sign(lots[1..][i].quantity) == Sign(lots[1..][0].quantity)
    {
      assert lots[1..][i] == lots[i + 1];
      assert Sign(lots[1].quantity) == Sign(lots[0].quantity);
    }
  }

  /** In a well-formed queue the net position has the direction of every lot,
      and its size is the sum of the lots' sizes. */
  lemma {:induction false} SameSignSum(lots: seq<Lot>)
    requires QueueOk(lots) && lots != []
    ensures SumQty(lots) != 0 && Sign(SumQty(lots)) == Sign(lots[0].quantity)
    ensures Abs(SumQty(lots)) == Abs(lots[0].quantity) + Abs(SumQty(lots[1..]))
    decreases |lots|
  {
    QueueOkTail(lots);
    if |lots| > 1 {
      SameSignSum(lots[1..]);
      assert Sign(lots[1].quantity) == Sign(lots[0].quantity);
    }
  }

  // ---------------------------------------------------------------------
  // Properties of the matching loop

  /** One unfolding of `Match` where the head lot absorbs the whole quantity. */
  lemma MatchAbsorbStep(fifo: seq<Lot>, quantity: int, price: real, isOption: bool)
    requires fifo != [] && Sign(fifo[0].quantity) != Sign(quantity)
    requires Abs(fifo[0].quantity) >= Abs(quantity)
    ensures var m := Match(fifo, quantity, price, isOption);
      var rest := fifo[0].quantity + quantity;
      var c := Closing(-quantity, fifo[0].price, price, isOption, quantity);
      m == Matched(if rest == 0 then fifo[1..] else [Lot(fifo[0].price, rest)] + fifo[1..],
                   c.pnl, c.termLoss)
  {
  }

  /** One unfolding of `Match` where the head lot is consumed whole. */
  lemma MatchConsumeStep(fifo: seq<Lot>, quantity: int, price: real, isOption: bool)
    requires fifo != [] && Sign(fifo[0].quantity) != Sign(quantity)
    requires Abs(fifo[0].quantity) < Abs(quantity)
    ensures var m := Match(fifo, quantity, price, isOption);
      var rest := Match(fifo[1..], quantity + fifo[0].quantity, price, isOption);
      var c := Closing(fifo[0].quantity, fifo[0].price, price, isOption, quantity);
      m == Matched(rest.queue, c.pnl + rest.pnl, c.termLoss + rest.termLoss)
  {
  }

  /** Net quantity is conserved: the new queue holds the old net position plus
      the incoming quantity. */
  lemma {:induction false} MatchConserves(fifo: seq<Lot>, quantity: int, price: real, isOption: bool)
    ensures SumQty(Match(fifo, quantity, price, isOption).queue) == SumQty(fifo) + quantity
    decreases |fifo|
  {
    if fifo == [] || Sign(fifo[0].quantity) == Sign(quantity) {
      SumQtyAppend(fifo, Lot(price, quantity));
    } else if Abs(fifo[0].quantity) >= Abs(quantity) {
      var rest := fifo[0].quantity + quantity;
      if rest != 0 {
        assert ([Lot(fifo[0].price, rest)] + fifo[1..])[1..] == fifo[1..];
      }
    } else {
      MatchConserves(fifo[1..], quantity + fifo[0].quantity, price, isOption);
    }
  }

  /** The queue invariant is preserved: no zero lot, one direction. */
  lemma {:induction false} MatchKeepsQueueOk(fifo: seq<Lot>, quantity: int, price: real, isOption: bool)
    requires QueueOk(fifo) && quantity != 0
    ensures QueueOk(Match(fifo, quantity, price, isOption).queue)
    decreases |fifo|
  {
    var m := Match(fifo, quantity, price, isOption);
    if fifo == [] || Sign(fifo[0].quantity) == Sign(quantity) {
      forall i | 0 <= i < |m.queue|
        ensures m.queue[i].quantity != 0 && Sign(m.queue[i].quantity) == Sign(m.queue[0].quantity)
      {
        if i < |fifo| { assert m.queue[i] == fifo[i]; }
      }
    } else if Abs(fifo[0].quantity) >= Abs(quantity) {
      QueueOkTail(fifo);
      var rest := fifo[0].quantity + quantity;
      if rest != 0 {
        assert Sign(rest) == Sign(fifo[0].quantity);
        forall i | 0 <= i < |m.queue|
          ensures m.queue[i].quantity != 0 && Sign(m.queue[i].quantity) == Sign(m.queue[0].quantity)
        {
          if i > 0 { assert m.queue[i] == fifo[i]; }
        }
      }
    } else {
      QueueOkTail(fifo);
      MatchKeepsQueueOk(fifo[1..], quantity + fifo[0].quantity, price, isOption);
    }
  }

  /** Matching is strict FIFO. If the first `k` lots together are smaller than
      the incoming quantity and the first `k + 1` are not, those `k` lots are
      consumed whole, lot `k` is reduced by the remainder (and dropped when it
      reaches zero) and every later lot is kept as it was; when the whole queue
      is smaller, the remainder becomes the only lot. */
  lemma {:induction false} MatchIsFifo(fifo: seq<Lot>, quantity: int, price: real, isOption: bool, k: nat)
    requires QueueOk(fifo) && quantity != 0
    requires fifo != [] ==> Sign(fifo[0].quantity) != Sign(quantity)
    requires k <= |fifo| && Abs(SumQty(fifo[..k])) < Abs(quantity)
    requires k < |fifo| ==> Abs(quantity) <= Abs(SumQty(fifo[..k + 1]))
    ensures var m := Match(fifo, quantity, price, isOption);
      var rest := quantity + SumQty(fifo[..k]);
      if k == |fifo| then m.queue == [Lot(price, rest)]
      else
        var left := fifo[k].quantity + rest;
        m.queue == (if left == 0 then [] else [Lot(fifo[k].price, left)]) + fifo[k + 1..] &&
        (left == 0 || Sign(left) == Sign(fifo[k].quantity))
    decreases k
  {
    if fifo == [] {
      assert fifo[..k] == [];
      assert Match(fifo, quantity, price, isOption).queue == [Lot(price, quantity)];
    } else if k == 0 {
      assert fifo[..1] == [fifo[0]];
      assert fifo[..0] == [];
      AbsorbedByHead(fifo, quantity, price, isOption);
      assert quantity + SumQty(fifo[..k]) == quantity;
    } else {
      var q', tail := quantity + fifo[0].quantity, fifo[1..];
      FifoStep(fifo, quantity, k);
      MatchConsumeStep(fifo, quantity, price, isOption);
      MatchIsFifo(tail, q', price, isOption, k - 1);
      var queue := Match(tail, q', price, isOption).queue;
      assert Match(fifo, quantity, price, isOption).queue == queue;
      var rest := quantity + SumQty(fifo[..k]);
      assert q' + SumQty(tail[..k - 1]) == rest;
      if k < |fifo| {
        var left := fifo[k].quantity + rest;
        assert queue == (if left == 0 then [] else [Lot(fifo[k].price, left)]) + fifo[k + 1..];
      } else {
        assert queue == [Lot(price, rest)];
      }
    }
  }

  /** The head lot absorbs a smaller opposite quantity: it is reduced, or
      dropped when nothing is left of it, and the rest of the queue stays. */
  lemma AbsorbedByHead(fifo: seq<Lot>, quantity: int, price: real, isOption: bool)
    requires fifo != [] && Sign(fifo[0].quantity) != Sign(quantity)
    requires Abs(quantity) <= Abs(fifo[0].quantity)
    ensures var left := fifo[0].quantity + quantity;
      Match(fifo, quantity, price, isOption).queue ==
        (if left == 0 then [] else [Lot(fifo[0].price, left)]) + fifo[1..] &&
      (left == 0 || Sign(left) == Sign(fifo[0].quantity))
  {
    var left := fifo[0].quantity + quantity;
    MatchAbsorbStep(fifo, quantity, price, isOption);
    if left == 0 {
      assert [] + fifo[1..] == fifo[1..];
    }
  }

  /** When `k > 0` lots are consumed whole, the head lot is one of them and the
      rest of the match is the same situation on the tail with `k - 1` lots. */
  lemma FifoStep(fifo: seq<Lot>, quantity: int, k: nat)
    requires QueueOk(fifo) && quantity != 0 && fifo != [] && Sign(fifo[0].quantity) != Sign(quantity)
    requires 0 < k <= |fifo| && Abs(SumQty(fifo[..k])) < Abs(quantity)
    requires k < |fifo| ==> Abs(quantity) <= Abs(SumQty(fifo[..k + 1]))
    ensures var q', tail := quantity + fifo[0].quantity, fifo[1..];
      Abs(fifo[0].quantity) < Abs(quantity) && QueueOk(tail) && q' != 0 &&
      (tail != [] ==> Sign(tail[0].quantity) != Sign(q')) &&
      k - 1 <= |tail| && Abs(SumQty(tail[..k - 1])) < Abs(q') &&
      (k - 1 < |tail| ==> Abs(q') <= Abs(SumQty(tail[..k]))) &&
      q' + SumQty(tail[..k - 1]) == quantity + SumQty(fifo[..k]) &&
      (k < |fifo| ==> tail[k - 1] == fifo[k] && tail[k..] == fifo[k + 1..])
  {
    var q', tail := quantity + fifo[0].quantity, fifo[1..];
    PrefixSplit(fifo, k);
    PrefixQueueOk(fifo, k);
    SameSignSum(fifo[..k]);
    assert fifo[..k][0] == fifo[0];
    QueueOkTail(fifo);
    if tail != [] {
      assert tail[0] == fifo[1];
    }
    if k < |fifo| {
      PrefixSplit(fifo, k + 1);
      PrefixQueueOk(fifo, k + 1);
      SameSignSum(fifo[..k + 1]);
      assert fifo[..k + 1][0] == fifo[0];
      assert tail[k..] == fifo[k + 1..];
    }
  }

  /** The prefix of `k` lots is the head followed by the tail's prefix of `k - 1`. */
  lemma PrefixSplit(lots: seq<Lot>, k: nat)
    requires 0 < k <= |lots|
    ensures SumQty(lots[..k]) == lots[0].quantity + SumQty(lots[1..][..k - 1])
    ensures lots[..k][1..] == lots[1..][..k - 1]
  {
    assert lots[..k][1..] == lots[1..][..k - 1];
  }

  /** A prefix of a well-formed queue is well formed. */
  lemma PrefixQueueOk(lots: seq<Lot>, k: nat)
    requires QueueOk(lots) && k <= |lots|
    ensures QueueOk(lots[..k])
  {
    forall i | 0 <= i < k
      ensures lots[..k][i].quantity != 0 && Sign(lots[..k][i].quantity) == Sign(lots[..k][0].quantity)
    {
      assert lots[..k][i] == lots[i] && lots[..k][0] == lots[0];
    }
  }

  /** Realized P&L of a stock match is what the matched lots had gained at the
      trade price: the queue's unrealized P&L before, less the one after. */
  lemma {:induction false} MatchRealizes(fifo: seq<Lot>, quantity: int, price: real)
    ensures var m := Match(fifo, quantity, price, false);
      m.pnl == Unrealized(fifo, price) - Unrealized(m.queue, price)
    decreases |fifo|
  {
    if fifo == [] || Sign(fifo[0].quantity) == Sign(quantity) {
      SumQtyAppend(fifo, Lot(price, quantity));
    } else if Abs(fifo[0].quantity) >= Abs(quantity) {
      RealizesAbsorbed(fifo, quantity, price, false);
    } else {
      MatchRealizes(fifo[1..], quantity + fifo[0].quantity, price);
      MatchConsumeStep(fifo, quantity, price, false);
    }
  }

  /** The step where the head lot absorbs a quantity that is not an option
      buy: the realized amount is the gain of the absorbed units. */
  lemma RealizesAbsorbed(fifo: seq<Lot>, quantity: int, price: real, isOption: bool)
    requires fifo != [] && Sign(fifo[0].quantity) != Sign(quantity)
    requires Abs(fifo[0].quantity) >= Abs(quantity) && !(isOption && quantity > 0)
    ensures var m := Match(fifo, quantity, price, isOption);
      m.pnl == Unrealized(fifo, price) - Unrealized(m.queue, price)
  {
    var q0, p0 := fifo[0].quantity, fifo[0].price;
    var rest := q0 + quantity;
    var m := Match(fifo, quantity, price, isOption);
    MatchAbsorbStep(fifo, quantity, price, isOption);
    assert m.pnl == Gain(-quantity, p0, price);
    if rest != 0 {
      assert m.queue[1..] == fifo[1..];
      Linear(rest, -quantity, p0, price);
    }
  }

  /** The P&L of a stock match, lot by lot: the full gain of each lot consumed
      whole plus the gain of the part taken from the lot that absorbs the rest. */
  lemma MatchRealizesFifo(fifo: seq<Lot>, quantity: int, price: real, k: nat)
    requires QueueOk(fifo) && quantity != 0
    requires fifo != [] ==> Sign(fifo[0].quantity) != Sign(quantity)
    requires k <= |fifo| && Abs(SumQty(fifo[..k])) < Abs(quantity)
    requires k < |fifo| ==> Abs(quantity) <= Abs(SumQty(fifo[..k + 1]))
    ensures var m := Match(fifo, quantity, price, false);
      m.pnl == Unrealized(fifo[..k], price) +
        (if k == |fifo| then 0.0 else Gain(-(quantity + SumQty(fifo[..k])), fifo[k].price, price))
  {
    var m := Match(fifo, quantity, price, false);
    var rest := quantity + SumQty(fifo[..k]);
    MatchIsFifo(fifo, quantity, price, false, k);
    MatchRealizes(fifo, quantity, price);
    if k == |fifo| {
      assert fifo[..k] == fifo;
      Zero(rest, price);
      assert Unrealized(m.queue, price) == 0.0;
    } else {
      UnrealizedAtSplit(fifo, k, rest, price);
    }
  }

  /** Marked at one price, a queue whose lot `k` is reduced by `-rest` (and
      dropped when nothing is left of it) has lost the gain of the first `k`
      lots and of the `-rest` units taken from lot `k`. */
  lemma UnrealizedAtSplit(fifo: seq<Lot>, k: nat, rest: int, price: real)
    requires k < |fifo|
    ensures var left := fifo[k].quantity + rest;
      var kept := if left == 0 then [] else [Lot(fifo[k].price, left)];
      Unrealized(fifo, price) - Unrealized(kept + fifo[k + 1..], price) ==
        Unrealized(fifo[..k], price) + Gain(-rest, fifo[k].price, price)
  {
    var left := fifo[k].quantity + rest;
    var kept := if left == 0 then [] else [Lot(fifo[k].price, left)];
    assert fifo == fifo[..k] + ([fifo[k]] + fifo[k + 1..]);
    SumsSplit(fifo[..k], [fifo[k]] + fifo[k + 1..], price);
    SumsSplit(kept, fifo[k + 1..], price);
    assert Unrealized([fifo[k]] + fifo[k + 1..], price) ==
      Gain(fifo[k].quantity, fifo[k].price, price) + Unrealized(fifo[k + 1..], price);
    if left == 0 {
      assert fifo[k].quantity == -rest;
    } else {
      assert Unrealized(kept, price) == Gain(left, fifo[k].price, price);
      Linear(left, -rest, fifo[k].price, price);
    }
  }


  /** Size of the part of a closing quantity that finds an opposite lot. */
  function MatchedSize(fifo: seq<Lot>, quantity: int): nat
  {
    if fifo == [] || Sign(fifo[0].quantity) == Sign(quantity) then 0
    else Min(Abs(quantity), Abs(SumQty(fifo)))
  }

  /** The matched size of a well-formed queue whose head lot is consumed whole
      is that lot's size plus what the rest of the queue matches. */
  lemma MatchedSizeStep(fifo: seq<Lot>, quantity: int)
    requires QueueOk(fifo) && fifo != [] && Sign(fifo[0].quantity) != Sign(quantity)
    requires Abs(fifo[0].quantity) < Abs(quantity)
    ensures MatchedSize(fifo, quantity) ==
      Abs(fifo[0].quantity) + MatchedSize(fifo[1..], quantity + fifo[0].quantity)
  {
    SameSignSum(fifo);
    if fifo[1..] != [] {
      QueueOkTail(fifo);
      assert fifo[1..][0] == fifo[1];
      SameSignSum(fifo[1..]);
    }
  }

  /** Buying an option against short lots costs only the closing price of the
      matched size: the premium was income when the position was opened. */
  lemma {:induction false} OptionBuyPaysClose(fifo: seq<Lot>, quantity: int, price: real)
    requires QueueOk(fifo) && quantity > 0
    ensures var m := Match(fifo, quantity, price, true);
      m.pnl == -Premium(MatchedSize(fifo, quantity), price) && m.termLoss == 0.0
    decreases |fifo|
  {
    if fifo == [] || Sign(fifo[0].quantity) == Sign(quantity) {
      Zero(0, price);
    } else if Abs(fifo[0].quantity) >= Abs(quantity) {
      SameSignSum(fifo);
      assert MatchedSize(fifo, quantity) == quantity;
      MatchAbsorbStep(fifo, quantity, price, true);
      Linear(quantity, 0, 0.0, price);
    } else {
      var q' := quantity + fifo[0].quantity;
      QueueOkTail(fifo);
      OptionBuyPaysClose(fifo[1..], q', price);
      MatchConsumeStep(fifo, quantity, price, true);
      MatchedSizeStep(fifo, quantity);
      Linear(-fifo[0].quantity, MatchedSize(fifo[1..], q'), 0.0, price);
    }
  }

  /** Selling an option realizes the stock-like P&L of the matched long lots,
      plus the premium of whatever part opens a short position. */
  lemma {:induction false} OptionSellIncome(fifo: seq<Lot>, quantity: int, price: real)
    requires QueueOk(fifo) && quantity < 0
    ensures var m := Match(fifo, quantity, price, true);
      m.pnl == Unrealized(fifo, price) - Unrealized(m.queue, price)
               + Premium(Abs(quantity) - MatchedSize(fifo, quantity), price)
    decreases |fifo|
  {
    if fifo == [] || Sign(fifo[0].quantity) == Sign(quantity) {
      SumQtyAppend(fifo, Lot(price, quantity));
    } else if Abs(fifo[0].quantity) >= Abs(quantity) {
      SameSignSum(fifo);
      assert MatchedSize(fifo, quantity) == Abs(quantity);
      Zero(0, price);
      RealizesAbsorbed(fifo, quantity, price, true);
    } else {
      var q' := quantity + fifo[0].quantity;
      QueueOkTail(fifo);
      OptionSellIncome(fifo[1..], q', price);
      MatchConsumeStep(fifo, quantity, price, true);
      MatchedSizeStep(fifo, quantity);
    }
  }

  /** The term losses of closing `lots` by an option sell at `price`: for each
      lot, the amount by which the sale falls short of what was paid. */
  function Losses(lots: seq<Lot>, price: real): (r: real)
    ensures r >= 0.0
  {
    if lots == [] then 0.0
    else LossOf(-Gain(lots[0].quantity, lots[0].price, price)) + Losses(lots[1..], price)
  }

  /** Every queue that an opposite quantity meets has a FIFO split point: the
      number of lots the quantity consumes whole, as `MatchIsFifo` and
      `MatchRealizesFifo` use it. */
  lemma {:induction false} SplitPoint(fifo: seq<Lot>, quantity: int) returns (k: nat)
    requires QueueOk(fifo) && quantity != 0
    requires fifo != [] ==> Sign(fifo[0].quantity) != Sign(quantity)
    ensures k <= |fifo| && Abs(SumQty(fifo[..k])) < Abs(quantity)
    ensures k < |fifo| ==> Abs(quantity) <= Abs(SumQty(fifo[..k + 1]))
    decreases |fifo|
  {
    if fifo == [] {
      k := 0;
    } else if Abs(quantity) <= Abs(fifo[0].quantity) {
      assert fifo[..0] == [];
      assert fifo[..1] == [fifo[0]];
      k := 0;
    } else {
      var q', tail := quantity + fifo[0].quantity, fifo[1..];
      QueueOkTail(fifo);
      if tail != [] {
        assert tail[0] == fifo[1];
      }
      var j := SplitPoint(tail, q');
      k := j + 1;
      PrefixSplit(fifo, k);
      PrefixQueueOk(fifo, k);
      SameSignSum(fifo[..k]);
      assert fifo[..k][0] == fifo[0];
      if k < |fifo| {
        PrefixSplit(fifo, k + 1);
        PrefixQueueOk(fifo, k + 1);
        SameSignSum(fifo[..k + 1]);
        assert fifo[..k + 1][0] == fifo[0];
      }
    }
  }

  /** The term loss of an option sell, lot by lot: what each long lot consumed
      whole lost, plus what the part taken from the lot that absorbs the rest
      lost. */
  lemma {:induction false} OptionSellLosses(fifo: seq<Lot>, quantity: int, price: real, k: nat)
    requires QueueOk(fifo) && quantity < 0
    requires fifo != [] ==> Sign(fifo[0].quantity) != Sign(quantity)
    requires k <= |fifo| && Abs(SumQty(fifo[..k])) < Abs(quantity)
    requires k < |fifo| ==> Abs(quantity) <= Abs(SumQty(fifo[..k + 1]))
    ensures var m := Match(fifo, quantity, price, true);
      m.termLoss == Losses(fifo[..k], price) +
        (if k == |fifo| then 0.0 else LossOf(-Gain(-(quantity + SumQty(fifo[..k])), fifo[k].price, price)))
    decreases k
  {
    if fifo == [] {
      assert fifo[..k] == [];
    } else if k == 0 {
      assert fifo[..0] == [];
      MatchAbsorbStep(fifo, quantity, price, true);
    } else {
      var q', tail := quantity + fifo[0].quantity, fifo[1..];
      FifoStep(fifo, quantity, k);
      MatchConsumeStep(fifo, quantity, price, true);
      OptionSellLosses(tail, q', price, k - 1);
      LossesStep(fifo, k, price);
    }
  }

  /** The losses of the first `k` lots are the head lot's and those of the
      tail's first `k - 1`. */
  lemma LossesStep(lots: seq<Lot>, k: nat, price: real)
    requires 0 < k <= |lots|
    ensures Losses(lots[..k], price) ==
      LossOf(-Gain(lots[0].quantity, lots[0].price, price)) + Losses(lots[1..][..k - 1], price)
  {
    PrefixSplit(lots, k);
    assert lots[..k][0] == lots[0];
  }


}
