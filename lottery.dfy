/** The `simulate` command of the first Discord bot (src/bot.py): ticket boundaries for the
    outcomes of a trade up, the lookup of a drawn ticket, and the profit and average return
    over a sequence of draws. Random draws are an input. */
module Lottery {
  import opened Wrappers
  import Bot

  /** The largest number of draws the command accepts. */
  const MaxIterations: int := 10000

  // ----------------------------------------------------------------- ticket boundaries

  /** The number of boundaries laid out for crate 1: one even when crate 1 has no outcomes,
      because the list starts with one entry before the loop. */
  function Slots1(n1: nat): nat
  {
    if n1 == 0 then 1 else n1
  }

  /** The tickets the as-written layout gives slot `i`: `count` in the crate-1 slots, `10 -
      count` after them. */
  function SlotWeight(count: int, n1: nat, i: nat): int
  {
    if i < Slots1(n1) then count else Bot.Inputs - count
  }

  /** The `i`-th entry of `chance_range`: the running total of the slot weights. */
  function Boundary(count: int, n1: nat, i: nat): int
  {
    if i == 0 then count else Boundary(count, n1, i - 1) + SlotWeight(count, n1, i)
  }

  /** The two loops that build `chance_range`. */
  method ChanceRange(count: int, n1: nat, n2: nat) returns (ranges: seq<int>)
    ensures |ranges| == Slots1(n1) + n2
    ensures forall i :: 0 <= i < |ranges| ==> ranges[i] == Boundary(count, n1, i)
  {
    ranges := [count];
    var i := 0;
    while i < n1 - 1
      invariant 0 <= i && (n1 >= 1 ==> i <= n1 - 1) && (n1 == 0 ==> i == 0)
      invariant |ranges| == i + 1
      invariant forall k :: 0 <= k < |ranges| ==> ranges[k] == Boundary(count, n1, k)
    {
      ranges := ranges + [ranges[|ranges| - 1] + count];
      i := i + 1;
    }
    for j := 0 to n2
      invariant |ranges| == Slots1(n1) + j
      invariant forall k :: 0 <= k < |ranges| ==> ranges[k] == Boundary(count, n1, k)
    {
      ranges := ranges + [ranges[|ranges| - 1] + (Bot.Inputs - count)];
    }
  }

  /** For a valid split the boundaries never decrease. */
  lemma {:induction false} BoundaryMonotone(count: int, n1: nat, i: nat, j: nat)
    requires 0 <= count <= Bot.Inputs && i <= j
    ensures Boundary(count, n1, i) <= Boundary(count, n1, j)
    decreases j
  {
    if i < j {
      BoundaryMonotone(count, n1, i, j - 1);
    }
  }

  /** With both crates sharing the inputs, the boundaries strictly increase. */
  lemma {:induction false} BoundaryStrict(count: int, n1: nat, i: nat, j: nat)
    requires 0 < count < Bot.Inputs && i < j
    ensures Boundary(count, n1, i) < Boundary(count, n1, j)
    decreases j
  {
    if i < j - 1 {
      BoundaryStrict(count, n1, i, j - 1);
    }
  }

  /** The boundaries in closed form: `(i + 1) * count` within crate 1, then `10 - count`
      more per crate-2 slot. */
  lemma {:induction false} BoundaryClosedForm(count: int, n1: nat, i: nat)
    ensures var m := Slots1(n1);
      Boundary(count, n1, i) == if i < m then (i + 1) * count
                                else m * count + (i - m + 1) * (Bot.Inputs - count)
  {
    var m := Slots1(n1);
    if i > 0 {
      BoundaryClosedForm(count, n1, i - 1);
      if i < m {
        assert (i + 1) * count == i * count + count;
      } else if i == m {
        assert m * count == (m - 1 + 1) * count;
      } else {
        assert (i - m + 1) * (Bot.Inputs - count) == (i - 1 - m + 1) * (Bot.Inputs - count) + (Bot.Inputs - count);
      }
    }
  }

  /** When crate 1 has outcomes, the last boundary is the ticket total, so every draw in
      [1, total] lands at or below it. */
  lemma LastBoundaryIsTotal(count: int, n1: nat, n2: nat)
    requires n1 >= 1
    ensures Boundary(count, n1, n1 + n2 - 1) == Bot.TotalTickets(n1, n2, count)
  {
    BoundaryClosedForm(count, n1, n1 + n2 - 1);
    if n2 == 0 {
      assert (n1 - 1 + 1) * count == n1 * count;
    }
  }

  // ----------------------------------------------------------------- the lookup as written

  /** Where the as-written lookup lands: the `r <= chance_range[0]` branch, the first `j`
      with `chance_range[j] < r <= chance_range[j + 1]`, or the loop's `else`. */
  datatype Pick = Head | Between(j: nat) | Fallthrough

  /** The scan of the lookup loop from index `j` on. */
  function ScanFrom(ranges: seq<int>, r: int, j: nat): (p: Pick)
    requires j <= |ranges|
    ensures !p.Head?
    ensures p.Between? ==>
      && j <= p.j && p.j + 1 < |ranges| && ranges[p.j] < r <= ranges[p.j + 1]
      && forall k :: j <= k < p.j ==> !(ranges[k] < r <= ranges[k + 1])
    ensures p.Fallthrough? ==> forall k :: j <= k && k + 1 < |ranges| ==> !(ranges[k] < r <= ranges[k + 1])
    decreases |ranges| - j
  {
    if j + 1 >= |ranges| then Fallthrough
    else if ranges[j] < r <= ranges[j + 1] then Between(j)
    else ScanFrom(ranges, r, j + 1)
  }

  function AsWrittenPick(ranges: seq<int>, r: int): Pick
    requires |ranges| >= 1
  {
    if r <= ranges[0] then Head else ScanFrom(ranges, r, 0)
  }

  /** The price index a pick reads: 0, `j`, or `-1` (the last price). */
  function PickIndex(p: Pick, n: nat): int
  {
    match p
    case Head => 0
    case Between(j) => j
    case Fallthrough => n - 1
  }

  /** The price the as-written lookup reads (IndexError when the index is out of range). */
  function AsWrittenPrice(allPrices: seq<real>, ranges: seq<int>, r: int): Result<real>
    requires |ranges| >= 1
  {
    var k := PickIndex(AsWrittenPick(ranges, r), |allPrices|);
    if 0 <= k < |allPrices| then Ok(allPrices[k]) else Err(IndexOutOfRange)
  }

  /** The lookup of one drawn ticket as the command writes it: a for loop with `break` and an
      `else` branch. */
  method LookupAsWritten(allPrices: seq<real>, ranges: seq<int>, r: int) returns (price: Result<real>)
    requires |ranges| >= 1
    ensures price == AsWrittenPrice(allPrices, ranges, r)
  {
    var k: int;
    if r <= ranges[0] {
      k := 0;
    } else {
      var j := 0;
      k := |allPrices| - 1;
      while j < |ranges| - 1
        invariant 0 <= j <= |ranges| - 1
        invariant ScanFrom(ranges, r, 0) == ScanFrom(ranges, r, j)
      {
        if ranges[j] < r <= ranges[j + 1] {
          k := j;
          break;
        }
        j := j + 1;
      }
    }
    price := if 0 <= k < |allPrices| then Ok(allPrices[k]) else Err(IndexOutOfRange);
  }

  // ----------------------------------------------------------------- the intended lookup

  /** The outcome a ticket belongs to: the first slot whose boundary is at least `r`. */
  function BucketFrom(ranges: seq<int>, r: int, b: nat): (k: Option<nat>)
    requires b <= |ranges|
    ensures k.Some? ==> b <= k.value < |ranges| && r <= ranges[k.value]
                        && forall i :: b <= i < k.value ==> ranges[i] < r
    ensures k.None? ==> forall i :: b <= i < |ranges| ==> ranges[i] < r
    decreases |ranges| - b
  {
    if b == |ranges| then None
    else if r <= ranges[b] then Some(b)
    else BucketFrom(ranges, r, b + 1)
  }

  function Bucket(ranges: seq<int>, r: int): Option<nat>
  {
    BucketFrom(ranges, r, 0)
  }

  predicate NonDecreasing(ranges: seq<int>)
  {
    forall i, j :: 0 <= i <= j < |ranges| ==> ranges[i] <= ranges[j]
  }

  /** Over non-decreasing boundaries, ticket `r` belongs to slot `b` exactly when it lies in
      (ranges[b - 1], ranges[b]] (in [.., ranges[0]] for slot 0): slot `b` owns
      `ranges[b] - ranges[b - 1]` tickets, its weight. */
  lemma BucketOwnsItsTickets(ranges: seq<int>, r: int, b: nat)
    requires NonDecreasing(ranges)
    ensures Bucket(ranges, r) == Some(b)
        <==> b < |ranges| && r <= ranges[b] && (b == 0 || ranges[b - 1] < r)
  {
  }

  /** The defect of the as-written lookup: a ticket above the first boundary that belongs to
      slot `b` is priced with slot `b - 1`'s price. */
  lemma AsWrittenShift(ranges: seq<int>, r: int)
    requires |ranges| >= 1 && r > ranges[0] && Bucket(ranges, r).Some?
    ensures var b := Bucket(ranges, r).value;
      b >= 1 && AsWrittenPick(ranges, r) == Between(b - 1)
  {
    var b := Bucket(ranges, r).value;
    ScanAgrees(ranges, r, 0, b - 1);
  }

  lemma {:induction false} ScanAgrees(ranges: seq<int>, r: int, j: nat, k: nat)
    requires j <= k && k + 1 < |ranges|
    requires ranges[k] < r <= ranges[k + 1]
    requires forall i :: j <= i <= k ==> ranges[i] < r
    ensures ScanFrom(ranges, r, j) == Between(k)
    decreases k - j
  {
    if j < k {
      assert ranges[j + 1] < r;
      ScanAgrees(ranges, r, j + 1, k);
    }
  }

  /** As written, a ticket in [1, last boundary] is never priced as the last outcome when
      there are two or more slots (the first outcome gets its own and the second slot's
      tickets instead). */
  lemma AsWrittenNeverPicksLast(ranges: seq<int>, r: int)
    requires |ranges| >= 2 && r <= ranges[|ranges| - 1]
    ensures PickIndex(AsWrittenPick(ranges, r), |ranges|) < |ranges| - 1
  {
    if r > ranges[0] {
      assert Bucket(ranges, r).Some?;
      AsWrittenShift(ranges, r);
    }
  }

  /** Two outcomes, five tickets each ([5, 10]), ticket 7: it belongs to the second outcome
      (price 2) but the as-written lookup reads the first (price 1). */
  lemma OffByOneWitness()
    ensures AsWrittenPrice([1.0, 2.0], [5, 10], 7) == Ok(1.0)
    ensures IntendedPrice([1.0, 2.0], [5, 10], 7) == Ok(2.0)
  {
  }

  /** The price of the outcome a ticket belongs to (IndexError past the last price). */
  function IntendedPrice(allPrices: seq<real>, ranges: seq<int>, r: int): Result<real>
  {
    match Bucket(ranges, r)
    case None => Err(IndexOutOfRange)
    case Some(b) => if b < |allPrices| then Ok(allPrices[b]) else Err(IndexOutOfRange)
  }

  /** The intended lookup as a loop: the first boundary at or above the ticket. */
  method Lookup(allPrices: seq<real>, ranges: seq<int>, r: int) returns (price: Result<real>)
    ensures price == IntendedPrice(allPrices, ranges, r)
  {
    var b := 0;
    while b < |ranges| && ranges[b] < r
      invariant 0 <= b <= |ranges|
      invariant BucketFrom(ranges, r, 0) == BucketFrom(ranges, r, b)
    {
      b := b + 1;
    }
    price := if b < |ranges| && b < |allPrices| then Ok(allPrices[b]) else Err(IndexOutOfRange);
  }

  /** When crate 1 has outcomes, every ticket in [1, total] belongs to an outcome that has a
      price. */
  lemma IntendedPriceDefined(count: int, n1: nat, n2: nat, allPrices: seq<real>, ranges: seq<int>, r: int)
    requires n1 >= 1 && 0 <= count <= Bot.Inputs
    requires |ranges| == n1 + n2 && |allPrices| == n1 + n2
    requires forall i :: 0 <= i < |ranges| ==> ranges[i] == Boundary(count, n1, i)
    requires 1 <= r <= Bot.TotalTickets(n1, n2, count)
    ensures IntendedPrice(allPrices, ranges, r).Ok?
  {
    LastBoundaryIsTotal(count, n1, n2);
    assert ranges[|ranges| - 1] >= r;
  }

  // ----------------------------------------------------------------- the simulation

  /** The input cost the command charges as written: one unit of each skin, a fifth of the
      cost of five inputs of each. */
  function LegacyInputCost(price1: real, price2: real): (c: real)
    ensures 5.0 * c == Bot.InputPrice(price1, price2, 5)
  {
    price1 + price2
  }

  /** The as-written input cost is not the cost of the ten inputs: five of each at 1 and 2
      cost 15, not 3. */
  lemma LegacyInputCostWitness()
    ensures LegacyInputCost(1.0, 2.0) == 3.0
    ensures Bot.InputPrice(1.0, 2.0, 5) == 15.0
  {
  }

  function SumOf(xs: seq<real>): real
  {
    if xs == [] then 0.0 else SumOf(xs[..|xs| - 1]) + xs[|xs| - 1]
  }

  /** The price of each draw in order, or the first error: no tickets (ValueError from
      `randint`), a ticket with no price (IndexError), a zero input cost (ZeroDivisionError). */
  function DrawPrices(allPrices: seq<real>, ranges: seq<int>, total: int, cost: real, draws: seq<int>): (r: Result<seq<real>>)
    ensures r.Ok? ==> |r.value| == |draws|
  {
    if draws == [] then Ok([])
    else
      match DrawPrices(allPrices, ranges, total, cost, draws[..|draws| - 1])
      case Err(f) => Err(f)
      case Ok(prices) =>
        if total < 1 then Err(EmptyRange)
        else match IntendedPrice(allPrices, ranges, draws[|draws| - 1])
          case Err(f) => Err(f)
          case Ok(p) => if cost == 0.0 then Err(ZeroDivision) else Ok(prices + [p])
  }

  /** The return of every draw, the total profit and the average return. */
  datatype SimOutcome = SimOutcome(profit: real, roiAverage: real, rois: seq<real>)

  function Returns(prices: seq<real>, cost: real): (rois: seq<real>)
    requires cost != 0.0
    ensures |rois| == |prices|
  {
    seq(|prices|, i requires 0 <= i < |prices| => prices[i] / cost)
  }

  /** The outcome of a list of draws over laid-out boundaries and a known input cost: no
      draws at all leaves `sum(roi) / len(roi)` dividing by zero. */
  function OutcomeOf(allPrices: seq<real>, ranges: seq<int>, total: int, cost: real, draws: seq<int>): (r: Result<SimOutcome>)
    ensures r.Ok? <==> draws != [] && DrawPrices(allPrices, ranges, total, cost, draws).Ok?
    ensures draws == [] ==> r == Err(ZeroDivision)
    ensures r.Ok? ==> |r.value.rois| == |draws|
  {
    match DrawPrices(allPrices, ranges, total, cost, draws)
    case Err(f) => Err(f)
    case Ok(prices) =>
      if prices == [] then Err(ZeroDivision)
      else
        var rois := Returns(prices, cost);
        Ok(SimOutcome(SumOf(prices) - Bot.Times(|prices|, cost), SumOf(rois) / |rois| as real, rois))
  }

  /** The boundaries `ChanceRange` lays out. */
  function Ranges(count: int, n1: nat, n2: nat): seq<int>
  {
    seq(Slots1(n1) + n2, i requires 0 <= i < Slots1(n1) + n2 => Boundary(count, n1, i))
  }

  /** The simulation as a function of the draws, with the corrected lookup and the input
      cost of the ten inputs. */
  function SimulationOf(case1Prices: seq<real>, case2Prices: seq<real>, count: int, price1: real,
                        price2: real, draws: seq<int>): (r: Result<SimOutcome>)
    ensures |draws| > MaxIterations ==> r == Err(Refused("The max iterations is 10,000."))
    ensures r.Ok? ==> 0 < |draws| <= MaxIterations && |r.value.rois| == |draws|
  {
    var n1 := |case1Prices|;
    var n2 := |case2Prices|;
    if |draws| > MaxIterations then Err(Refused("The max iterations is 10,000."))
    else OutcomeOf(case1Prices + case2Prices, Ranges(count, n1, n2), Bot.TotalTickets(n1, n2, count),
                   Bot.InputPrice(price1, price2, count), draws)
  }

  /** `simulate` with the lookup and input cost corrected. */
  method Simulate(case1Prices: seq<real>, case2Prices: seq<real>, count: int, price1: real,
                  price2: real, draws: seq<int>) returns (res: Result<SimOutcome>)
    ensures res == SimulationOf(case1Prices, case2Prices, count, price1, price2, draws)
  {
    if |draws| > MaxIterations {
      return Err(Refused("The max iterations is 10,000."));
    }
    var ranges := ChanceRange(count, |case1Prices|, |case2Prices|);
    assert ranges == Ranges(count, |case1Prices|, |case2Prices|);
    var total := Bot.TotalTickets(|case1Prices|, |case2Prices|, count);
    var cost := Bot.InputPrice(price1, price2, count);
    res := RunDraws(case1Prices + case2Prices, ranges, total, cost, draws);
  }

  /** The draw loop: look up each ticket's price, record its return on the input cost and
      add its profit; then average the returns. */
  method RunDraws(allPrices: seq<real>, ranges: seq<int>, total: int, cost: real, draws: seq<int>)
    returns (res: Result<SimOutcome>)
    ensures res == OutcomeOf(allPrices, ranges, total, cost, draws)
  {
    var rois: seq<real> := [];
    var profit := 0.0;
    ghost var prices: seq<real> := [];
    for i := 0 to |draws|
      invariant DrawPrices(allPrices, ranges, total, cost, draws[..i]) == Ok(prices)
      invariant cost != 0.0 ==> rois == Returns(prices, cost)
      invariant |rois| == |prices| == i
      invariant profit == SumOf(prices) - Bot.Times(|prices|, cost)
    {
      DrawStops(allPrices, ranges, total, cost, draws, i, prices);
      if total < 1 {
        return Err(EmptyRange);
      }
      var price := Lookup(allPrices, ranges, draws[i]);
      if price.Err? {
        return Err(price.failure);
      }
      if cost == 0.0 {
        return Err(ZeroDivision);
      }
      DrawStep(allPrices, ranges, total, cost, draws, i, prices, price.value);
      rois := rois + [price.value / cost];
      profit := profit + (-1.0 * cost + price.value);
      prices := prices + [price.value];
    }
    assert draws[..|draws|] == draws;
    if |rois| == 0 {
      return Err(ZeroDivision);
    }
    res := Ok(SimOutcome(profit, SumOf(rois) / |rois| as real, rois));
  }

  /** The draws all have prices exactly when there are tickets, every ticket lands on a
      price and (with at least one draw) the cost is not zero; the i-th price is then the
      price of the i-th ticket. */
  lemma {:induction false} DrawPricesOk(allPrices: seq<real>, ranges: seq<int>, total: int, cost: real, draws: seq<int>)
    ensures DrawPrices(allPrices, ranges, total, cost, draws).Ok? <==>
      draws == [] || (total >= 1 && cost != 0.0 && forall i :: 0 <= i < |draws| ==> IntendedPrice(allPrices, ranges, draws[i]).Ok?)
    ensures DrawPrices(allPrices, ranges, total, cost, draws).Ok? ==>
      forall i :: 0 <= i < |draws| ==> Ok(DrawPrices(allPrices, ranges, total, cost, draws).value[i]) == IntendedPrice(allPrices, ranges, draws[i])
    decreases |draws|
  {
    if draws != [] {
      var prefix := draws[..|draws| - 1];
      DrawPricesOk(allPrices, ranges, total, cost, prefix);
      assert forall k :: 0 <= k < |prefix| ==> prefix[k] == draws[k];
    }
  }

  /** A draw that fails ends the whole run with its error. */
  lemma DrawStops(allPrices: seq<real>, ranges: seq<int>, total: int, cost: real, draws: seq<int>,
                  i: nat, prices: seq<real>)
    requires i < |draws|
    requires DrawPrices(allPrices, ranges, total, cost, draws[..i]) == Ok(prices)
    ensures total < 1 ==> OutcomeOf(allPrices, ranges, total, cost, draws) == Err(EmptyRange)
    ensures total >= 1 && IntendedPrice(allPrices, ranges, draws[i]).Err? ==>
      OutcomeOf(allPrices, ranges, total, cost, draws)
        == Err(IntendedPrice(allPrices, ranges, draws[i]).failure)
    ensures total >= 1 && IntendedPrice(allPrices, ranges, draws[i]).Ok? && cost == 0.0 ==>
      OutcomeOf(allPrices, ranges, total, cost, draws) == Err(ZeroDivision)
  {
    assert draws[..i + 1][..i] == draws[..i];
    var p := IntendedPrice(allPrices, ranges, draws[i]);
    if total < 1 {
      DrawErrorPersists(allPrices, ranges, total, cost, draws, i + 1, EmptyRange);
    } else if p.Err? {
      DrawErrorPersists(allPrices, ranges, total, cost, draws, i + 1, p.failure);
    } else if cost == 0.0 {
      DrawErrorPersists(allPrices, ranges, total, cost, draws, i + 1, ZeroDivision);
    }
  }

  /** One more successful draw appends its price, its return and its profit. */
  lemma DrawStep(allPrices: seq<real>, ranges: seq<int>, total: int, cost: real, draws: seq<int>,
                 i: nat, prices: seq<real>, p: real)
    requires i < |draws| && total >= 1 && cost != 0.0
    requires DrawPrices(allPrices, ranges, total, cost, draws[..i]) == Ok(prices)
    requires IntendedPrice(allPrices, ranges, draws[i]) == Ok(p)
    ensures DrawPrices(allPrices, ranges, total, cost, draws[..i + 1]) == Ok(prices + [p])
    ensures Returns(prices + [p], cost) == Returns(prices, cost) + [p / cost]
    ensures SumOf(prices + [p]) - Bot.Times(|prices + [p]|, cost)
         == SumOf(prices) - Bot.Times(|prices|, cost) + (-1.0 * cost + p)
  {
    assert draws[..i + 1][..i] == draws[..i];
    assert (prices + [p])[..|prices|] == prices;
  }

  lemma {:induction false} DrawErrorPersists(allPrices: seq<real>, ranges: seq<int>, total: int, cost: real,
                                             draws: seq<int>, n: nat, f: Failure)
    requires n <= |draws|
    requires DrawPrices(allPrices, ranges, total, cost, draws[..n]) == Err(f)
    ensures DrawPrices(allPrices, ranges, total, cost, draws) == Err(f)
    decreases |draws| - n
  {
    if n == |draws| {
      assert draws[..n] == draws;
    } else {
      assert draws[..n + 1][..n] == draws[..n];
      DrawErrorPersists(allPrices, ranges, total, cost, draws, n + 1, f);
    }
  }

  lemma {:induction false} SumOfReturns(prices: seq<real>, cost: real)
    requires cost != 0.0
    ensures SumOf(Returns(prices, cost)) == SumOf(prices) / cost
  {
    if prices != [] {
      var prefix := prices[..|prices| - 1];
      SumOfReturns(prefix, cost);
      var rois := Returns(prices, cost);
      assert rois[..|rois| - 1] == Returns(prefix, cost);
      assert rois[|rois| - 1] == prices[|prices| - 1] / cost;
      DivDistributes(SumOf(prefix), prices[|prices| - 1], cost);
    }
  }

  lemma DivDistributes(a: real, b: real, c: real)
    requires c != 0.0
    ensures (a + b) / c == a / c + b / c
  {
  }

  lemma DivUnique(x: real, d: real, y: real)
    requires d != 0.0 && y * d == x
    ensures x / d == y
  {
  }

  lemma CountTimesCost(k: nat, c: real, t: real, n: real)
    requires k > 0 && t == Bot.Times(k, c) && n == k as real
    ensures t == n * c && n > 0.0
  {
    Bot.TimesIsProduct(k, c);
  }

  lemma ReturnsSum(prices: seq<real>, cost: real, r: real, s: real)
    requires cost != 0.0
    requires r == SumOf(Returns(prices, cost)) && s == SumOf(prices)
    ensures r == s / cost
  {
    SumOfReturns(prices, cost);
  }

  lemma RateAlgebra(r: real, s: real, t: real, n: real, c: real)
    requires n > 0.0
    requires c != 0.0
    requires r == s / c
    requires t == n * c
    ensures t != 0.0 && r / n == 1.0 + (s - t) / t
  {
    var q := s / t;
    assert q * t == s;
    DivUnique(s - t, t, q - 1.0);
    assert r * c == s;
    assert (r / n) * n == r;
    assert (r / n) * t == ((r / n) * n) * c;
    DivUnique(s, t, r / n);
  }

  /** The average return of the draws is one plus the profit per unit of money put in. */
  lemma ReturnIsProfitRate(prices: seq<real>, cost: real)
    requires cost != 0.0 && prices != []
    ensures Bot.Times(|prices|, cost) != 0.0
    ensures SumOf(Returns(prices, cost)) / |prices| as real
         == 1.0 + (SumOf(prices) - Bot.Times(|prices|, cost)) / Bot.Times(|prices|, cost)
  {
    var r, s, t, n := SumOf(Returns(prices, cost)), SumOf(prices), Bot.Times(|prices|, cost), |prices| as real;
    CountTimesCost(|prices|, cost, t, n);
    ReturnsSum(prices, cost, r, s);
    RateAlgebra(r, s, t, n, cost);
  }

  lemma OutcomeRate(allPrices: seq<real>, ranges: seq<int>, total: int, cost: real, draws: seq<int>)
    requires OutcomeOf(allPrices, ranges, total, cost, draws).Ok?
    ensures Bot.Times(|draws|, cost) != 0.0
    ensures var o := OutcomeOf(allPrices, ranges, total, cost, draws).value;
      o.roiAverage == 1.0 + o.profit / Bot.Times(|draws|, cost)
  {
    var prices := DrawPrices(allPrices, ranges, total, cost, draws).value;
    assert cost != 0.0 && prices != [] && |prices| == |draws|;
    ReturnIsProfitRate(prices, cost);
  }

  /** The command's two figures are two views of the same draws: the average return is one
      plus the total profit per unit of money put in over all draws. */
  lemma AverageReturnIsProfitRate(case1Prices: seq<real>, case2Prices: seq<real>, count: int, price1: real,
                                   price2: real, draws: seq<int>)
    requires SimulationOf(case1Prices, case2Prices, count, price1, price2, draws).Ok?
    ensures Bot.Times(|draws|, Bot.InputPrice(price1, price2, count)) != 0.0
    ensures var o := SimulationOf(case1Prices, case2Prices, count, price1, price2, draws).value;
      o.roiAverage == 1.0 + o.profit / Bot.Times(|draws|, Bot.InputPrice(price1, price2, count))
  {
    var n1 := |case1Prices|;
    var n2 := |case2Prices|;
    OutcomeRate(case1Prices + case2Prices, Ranges(count, n1, n2), Bot.TotalTickets(n1, n2, count),
                Bot.InputPrice(price1, price2, count), draws);
  }
}
