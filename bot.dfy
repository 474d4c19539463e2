/** The arithmetic of the current Discord bot (bot/bot.py): the input price of a trade up,
    its tickets and average input wear, the per-skin profit rule and the profit breakdown. */
module Bot {
  import opened Wrappers
  import opened Records
  import opened Store
  import opened WeaponClassifiers
  import opened TradeUpRecord

  /** The number of input skins of every trade up. */
  const Inputs: int := 10

  /** The share of a sale the market keeps is 5%: a skin sold at `q` earns `0.95 * q`. */
  const AfterFee: real := 0.95

  function Min(a: real, b: real): real { if a <= b then a else b }
  function Max(a: real, b: real): real { if a <= b then b else a }

  /** The cost of the ten inputs: `count` of skin 1 and the rest of skin 2, each at its unit
      price. */
  function InputPrice(price1: real, price2: real, count: int): (total: real)
    ensures count == Inputs ==> total == 10.0 * price1
    ensures count == 0 ==> total == 10.0 * price2
  {
    price1 * count as real + price2 * (Inputs - count) as real
  }

  /** A product of two numbers of the same sign is not negative. */
  lemma MulSameSign(a: real, b: real)
    requires (a >= 0.0 && b >= 0.0) || (a <= 0.0 && b <= 0.0)
    ensures a * b >= 0.0
  {
  }

  /** For a valid split the input price lies between ten times the cheaper and ten times the
      dearer unit price. */
  lemma InputPriceBounds(price1: real, price2: real, count: int)
    requires 0 <= count <= Inputs
    ensures 10.0 * Min(price1, price2) <= InputPrice(price1, price2, count) <= 10.0 * Max(price1, price2)
  {
    var c := count as real;
    var d := price1 - price2;
    assert InputPrice(price1, price2, count) == 10.0 * price2 + c * d;
    MulSameSign(c, if d >= 0.0 then d else -d);
    MulSameSign(10.0 - c, if d >= 0.0 then d else -d);
    assert c * d - 10.0 * d == (c - 10.0) * d;
  }

  /** A trade up without a second skin and without a second price costs `count` times the
      first price. */
  lemma InputPriceWithoutSecondSkin(row: Row, skin: Skin)
    requires row.skin2Price.None?
    ensures var t := Decode(row, [skin]).value;
      t.skin2.None? && InputPrice(t.skin1Price, t.skin2Price, t.skin1Count) == t.skin1Price * t.skin1Count as real
  {
  }

  /** The profit a listing shows: the goal skin's first quote after the fee, less the input
      price; nothing without a quote. */
  function ListedProfit(book: PriceBook, t: TradeUp): (p: Option<real>)
    ensures p.Some? <==> GetPrices(book, t.goalSkin.internalId, t.goalWear).Some?
  {
    match GetPrices(book, t.goalSkin.internalId, t.goalWear)
    case None => None
    case Some(rows) => Some(rows[0].price * AfterFee - InputPrice(t.skin1Price, t.skin2Price, t.skin1Count))
  }

  /** The profit the detail view shows: the same quote without the fee. */
  function DetailProfit(book: PriceBook, t: TradeUp): (p: Option<real>)
    ensures p.Some? <==> GetPrices(book, t.goalSkin.internalId, t.goalWear).Some?
  {
    match GetPrices(book, t.goalSkin.internalId, t.goalWear)
    case None => None
    case Some(rows) => Some(rows[0].price - InputPrice(t.skin1Price, t.skin2Price, t.skin1Count))
  }

  /** The two views differ by exactly the fee on the quote: the detail view shows the larger
      profit whenever the quote is positive. */
  lemma DetailProfitOmitsFee(book: PriceBook, t: TradeUp)
    requires GetPrices(book, t.goalSkin.internalId, t.goalWear).Some?
    ensures var q := book[(t.goalSkin.internalId, t.goalWear)][0].price;
      DetailProfit(book, t).value - ListedProfit(book, t).value == 0.05 * q
  {
  }

  /** The tier named beside an input's maximum wear: `get_valid_wears(0, max)[-1]`. The list
      is never empty, so the last entry always exists, and it is the tier `max` falls in. */
  function InputWearTier(maxWear: real): (w: Wear)
    ensures w == TierOf(maxWear)
  {
    LastTierFromZero(maxWear, false);
    var ls := ValidWears(0.0, maxWear, false);
    ls[|ls| - 1].tier
  }

  /** The tickets of a trade up: `count` per outcome of the first crate and `10 - count` per
      outcome of the second. */
  function TotalTickets(outcomes1: int, outcomes2: int, count: int): (total: int)
    ensures 0 <= count <= Inputs && outcomes1 >= 0 && outcomes2 >= 0 ==> total >= 0
    ensures 0 < count < Inputs && outcomes1 >= 0 && outcomes2 >= 0 ==>
      (total == 0 <==> outcomes1 == 0 && outcomes2 == 0)
  {
    outcomes1 * count + outcomes2 * (Inputs - count)
  }

  /** The average of the ten input wears: a weighted mean of the two maximum wears. */
  function AverageWear(maxWear1: real, maxWear2: real, count: int): (avg: real)
    ensures count == Inputs ==> avg == maxWear1
    ensures count == 0 ==> avg == maxWear2
  {
    (maxWear1 * count as real + (Inputs - count) as real * maxWear2) / 10.0
  }

  /** For a valid split the average lies between the two maximum wears. */
  lemma AverageWearBounds(maxWear1: real, maxWear2: real, count: int)
    requires 0 <= count <= Inputs
    ensures Min(maxWear1, maxWear2) <= AverageWear(maxWear1, maxWear2, count) <= Max(maxWear1, maxWear2)
  {
    InputPriceBounds(maxWear1, maxWear2, count);
    assert AverageWear(maxWear1, maxWear2, count) == InputPrice(maxWear1, maxWear2, count) / 10.0;
  }

  /** The possibility lists and ticket total the `simulate` command hands to the simulator
      (the simulator itself is not part of this model). Both crates are searched at the
      rarity of their own input skin. */
  datatype SimulationSetup = SimulationSetup(
    case1: seq<Possibility>, case2: seq<Possibility>, totalTickets: int, average: real)

  function SimulateSetup(catalog: seq<Skin>, t: TradeUp, maxWear1: real, maxWear2: real): (s: SimulationSetup)
    ensures var skins1 := SkinsByCrateAndRarity(catalog, t.skin1.crateId, t.skin1.rarity);
      && |s.case1| == |skins1|
      && forall i :: 0 <= i < |skins1| ==> s.case1[i] == PossibilityOf(skins1[i])
    ensures forall p :: p in s.case1 ==> p.caseId == t.skin1.crateId && p.rarity == t.skin1.rarity
    ensures t.skin2.None? ==> s.case2 == []
    ensures t.skin2.Some? ==>
      var skins2 := SkinsByCrateAndRarity(catalog, t.skin2.value.crateId, t.skin2.value.rarity);
      && |s.case2| == |skins2|
      && forall i :: 0 <= i < |skins2| ==> s.case2[i] == PossibilityOf(skins2[i])
    ensures t.skin2.Some? ==>
      forall p :: p in s.case2 ==> p.caseId == t.skin2.value.crateId && p.rarity == t.skin2.value.rarity
    ensures s.totalTickets == TotalTickets(|s.case1|, |s.case2|, t.skin1Count)
    ensures s.average == AverageWear(maxWear1, maxWear2, t.skin1Count)
  {
    var skins1 := SkinsByCrateAndRarity(catalog, t.skin1.crateId, t.skin1.rarity);
    var case1 := seq(|skins1|, i requires 0 <= i < |skins1| => PossibilityOf(skins1[i]));
    var case2 := match t.skin2
      case None => []
      case Some(s2) =>
        var skins2 := SkinsByCrateAndRarity(catalog, s2.crateId, s2.rarity);
        seq(|skins2|, i requires 0 <= i < |skins2| => PossibilityOf(skins2[i]));
    assert forall p :: p in case1 ==> exists i :: 0 <= i < |skins1| && p == PossibilityOf(skins1[i]);
    assert forall i :: 0 <= i < |skins1| ==> skins1[i] in skins1;
    SimulationSetup(case1, case2, TotalTickets(|case1|, |case2|, t.skin1Count),
                    AverageWear(maxWear1, maxWear2, t.skin1Count))
  }

  // ----------------------------------------------------------------- per-skin profit

  /** What `format_skin_profit` decides for one outcome skin. */
  datatype SkinProfit = SkinProfit(wear: Wear, salePrice: Option<real>, profit: real, hasProfit: bool)

  /** The last tier `get_valid_wears(min, estimate)` lists is the greatest tier the range
      reaches. */
  lemma LastListedIsHighest(minWear: real, maxWear: real, w: Wear)
    requires |ValidWears(minWear, maxWear, false)| > 0
    ensures var ls := ValidWears(minWear, maxWear, false);
      Reaches(ls[|ls| - 1].tier, minWear, maxWear)
      && (Reaches(w, minWear, maxWear) ==> WearValue(w) <= WearValue(ls[|ls| - 1].tier))
  {
    var ls := ValidWears(minWear, maxWear, false);
    var t := ls[|ls| - 1].tier;
    ValidWearsMembers(minWear, maxWear, false, t);
    ValidWearsMembers(minWear, maxWear, false, w);
    ValidWearsOrdered(minWear, maxWear, false);
    assert t == Tiers(ls)[|ls| - 1];
    if Reaches(w, minWear, maxWear) {
      var i :| 0 <= i < |ls| && Tiers(ls)[i] == w;
      assert i == |ls| - 1 || WearValue(ls[i].tier) < WearValue(t);
    }
  }

  /** `format_skin_profit`: price the skin at the last tier its wear range reaches, sell at
      the first quote less the fee, and call it profitable when that beats the input price. */
  function FormatSkinProfit(skin: Skin, estimate: real, book: PriceBook, inputPrice: real): (r: Result<SkinProfit>)
  {
    var ls := ValidWears(skin.minWear, estimate, false);
    if ls == [] then Err(IndexOutOfRange)
    else
      var wear := ls[|ls| - 1].tier;
      match GetPrices(book, skin.internalId, WearValue(wear))
      case Some(rows) =>
        var price := rows[0].price * AfterFee;
        var profit := price - inputPrice;
        Ok(SkinProfit(wear, Some(price), profit, profit > 0.0))
      case None =>
        Ok(SkinProfit(wear, None, 0.0, false))
  }

  /** An empty wear range raises IndexError. Otherwise the skin is priced at the highest tier
      its range reaches; a quote is sold less the fee and is profitable exactly when that
      beats the input price; a skin without a quote shows profit 0 and is never profitable. */
  lemma FormatSkinProfitSpec(skin: Skin, estimate: real, book: PriceBook, inputPrice: real)
    ensures var r := FormatSkinProfit(skin, estimate, book, inputPrice);
      var ls := ValidWears(skin.minWear, estimate, false);
      && (r.Err? <==> ls == [])
      && (r.Err? ==> r.failure == IndexOutOfRange)
      && (r.Ok? ==>
        var quote := GetPrices(book, skin.internalId, WearValue(r.value.wear));
        && Reaches(r.value.wear, skin.minWear, estimate)
        && (forall w :: Reaches(w, skin.minWear, estimate) ==> WearValue(w) <= WearValue(r.value.wear))
        && (r.value.salePrice.Some? <==> quote.Some?)
        && (quote.Some? ==> r.value.salePrice.value == AfterFee * quote.value[0].price
                            && r.value.profit == r.value.salePrice.value - inputPrice)
        && (quote.None? ==> r.value.profit == 0.0)
        && (r.value.hasProfit <==> quote.Some? && AfterFee * quote.value[0].price > inputPrice))
  {
    var r := FormatSkinProfit(skin, estimate, book, inputPrice);
    if r.Ok? {
      forall w | Reaches(w, skin.minWear, estimate)
        ensures WearValue(w) <= WearValue(r.value.wear)
      {
        LastListedIsHighest(skin.minWear, estimate, w);
      }
      LastListedIsHighest(skin.minWear, estimate, r.value.wear);
    }
  }

  /** An estimate at or above the skin's minimum always names a tier when the minimum is
      below 1. */
  lemma FormatSkinProfitDefined(skin: Skin, estimate: real, book: PriceBook, inputPrice: real)
    requires skin.minWear <= estimate && skin.minWear < 1.0
    ensures FormatSkinProfit(skin, estimate, book, inputPrice).Ok?
  {
    ValidWearsNonEmpty(skin.minWear, estimate, false);
  }

  // ----------------------------------------------------------------- profit breakdown

  /** The number of profitable skins among `skins`, or the first error met. */
  function ProfitableCount(skins: seq<Skin>, average: real, book: PriceBook, inputPrice: real,
                           estimate: (Skin, real) -> real): (r: Result<nat>)
    ensures r.Ok? ==> r.value <= |skins|
  {
    if skins == [] then Ok(0)
    else
      var last := skins[|skins| - 1];
      match ProfitableCount(skins[..|skins| - 1], average, book, inputPrice, estimate)
      case Err(f) => Err(f)
      case Ok(n) =>
        match FormatSkinProfit(last, estimate(last, average), book, inputPrice)
        case Err(f) => Err(f)
        case Ok(sp) => Ok(if sp.hasProfit then n + 1 else n)
  }

  /** `c` added `n` times. */
  function Times(n: nat, c: real): real
  {
    if n == 0 then 0.0 else Times(n - 1, c) + c
  }

  lemma {:induction false} TimesIsProduct(n: nat, c: real)
    ensures Times(n, c) == n as real * c
  {
    if n > 0 {
      TimesIsProduct(n - 1, c);
      assert n as real * c == (n - 1) as real * c + c;
    }
  }

  lemma {:induction false} TimesMonotone(n: nat, m: nat, c: real)
    requires n <= m && c >= 0.0
    ensures 0.0 <= Times(n, c) <= Times(m, c)
    decreases m
  {
    if m > 0 {
      if n == m {
        TimesMonotone(n - 1, m - 1, c);
      } else {
        TimesMonotone(n, m - 1, c);
      }
    }
  }

  /** The two percentages `profit_breakdown` reports. */
  datatype Breakdown = Breakdown(profitChance: real, lossChance: real)

  /** The chance of one outcome of crate 1, in percent. */
  function Chance1(count: int, total: int): real
    requires total != 0
  {
    (count as real / total as real) * 100.0
  }

  /** The chance of one outcome of crate 2, in percent. */
  function Chance2(count: int, total: int): real
    requires total != 0
  {
    ((Inputs - count) as real / total as real) * 100.0
  }

  /** The chance of profit for `n1` profitable outcomes of crate 1 and `n2` of crate 2. */
  function ProfitChance(n1: nat, n2: nat, count: int, total: int): real
    requires total != 0
  {
    Times(n1, Chance1(count, total)) + Times(n2, Chance2(count, total))
  }

  /** `start` plus `chance` for every profitable skin of `skins`, or the first error met. */
  function ProfitAdded(skins: seq<Skin>, chance: real, start: real, average: real, book: PriceBook,
                       inputPrice: real, estimate: (Skin, real) -> real): Result<real>
  {
    if skins == [] then Ok(start)
    else
      var last := skins[|skins| - 1];
      match ProfitAdded(skins[..|skins| - 1], chance, start, average, book, inputPrice, estimate)
      case Err(f) => Err(f)
      case Ok(p) =>
        match FormatSkinProfit(last, estimate(last, average), book, inputPrice)
        case Err(f) => Err(f)
        case Ok(sp) => Ok(if sp.hasProfit then p + chance else p)
  }

  /** Adding the chance once per profitable skin is adding it as many times as there are
      profitable skins; both fail on the same first error. */
  lemma {:induction false} ProfitAddedIsCount(skins: seq<Skin>, chance: real, start: real, average: real,
                                              book: PriceBook, inputPrice: real, estimate: (Skin, real) -> real)
    ensures ProfitableCount(skins, average, book, inputPrice, estimate).Err? ==>
      ProfitAdded(skins, chance, start, average, book, inputPrice, estimate)
        == Err(ProfitableCount(skins, average, book, inputPrice, estimate).failure)
    ensures ProfitableCount(skins, average, book, inputPrice, estimate).Ok? ==>
      ProfitAdded(skins, chance, start, average, book, inputPrice, estimate)
        == Ok(start + Times(ProfitableCount(skins, average, book, inputPrice, estimate).value, chance))
    decreases |skins|
  {
    if skins != [] {
      ProfitAddedIsCount(skins[..|skins| - 1], chance, start, average, book, inputPrice, estimate);
    }
  }

  /** The breakdown as a function of its inputs: the chances of crate 1's profitable
      outcomes added to 0, then crate 2's added to that. */
  function BreakdownOf(case1: seq<Skin>, case2: Option<seq<Skin>>, count: int, average: real,
                       inputPrice: real, book: PriceBook, estimate: (Skin, real) -> real): Result<Breakdown>
  {
    var skins2 := case2.GetOr([]);
    var total := TotalTickets(|case1|, |skins2|, count);
    if total == 0 then Err(ZeroDivision)
    else
      match ProfitAdded(case1, Chance1(count, total), 0.0, average, book, inputPrice, estimate)
      case Err(f) => Err(f)
      case Ok(p1) =>
        match ProfitAdded(skins2, Chance2(count, total), p1, average, book, inputPrice, estimate)
        case Err(f) => Err(f)
        case Ok(p2) => Ok(Breakdown(p2, 100.0 - p2))
  }

  /** The reported chance of profit is, per crate, the number of profitable outcomes times
      that crate's per-outcome chance; the breakdown fails exactly when there are no tickets
      or some outcome fails. */
  lemma BreakdownCounts(case1: seq<Skin>, case2: Option<seq<Skin>>, count: int, average: real,
                        inputPrice: real, book: PriceBook, estimate: (Skin, real) -> real)
    ensures var skins2 := case2.GetOr([]);
      var total := TotalTickets(|case1|, |skins2|, count);
      var n1 := ProfitableCount(case1, average, book, inputPrice, estimate);
      var n2 := ProfitableCount(skins2, average, book, inputPrice, estimate);
      var b := BreakdownOf(case1, case2, count, average, inputPrice, book, estimate);
      && (b.Ok? <==> total != 0 && n1.Ok? && n2.Ok?)
      && (b.Ok? ==> b.value.profitChance == ProfitChance(n1.value, n2.value, count, total)
                    && b.value.lossChance == 100.0 - b.value.profitChance)
  {
    var skins2 := case2.GetOr([]);
    var total := TotalTickets(|case1|, |skins2|, count);
    if total != 0 {
      var c1 := Chance1(count, total);
      ProfitAddedIsCount(case1, c1, 0.0, average, book, inputPrice, estimate);
      if ProfitableCount(case1, average, book, inputPrice, estimate).Ok? {
        var p1 := 0.0 + Times(ProfitableCount(case1, average, book, inputPrice, estimate).value, c1);
        ProfitAddedIsCount(skins2, Chance2(count, total), p1, average, book, inputPrice, estimate);
      }
    }
  }

  /** The ticket shares of all outcomes add up to 100%. */
  lemma ChancesAddUp(outcomes1: nat, outcomes2: nat, count: int)
    requires TotalTickets(outcomes1, outcomes2, count) != 0
    ensures ProfitChance(outcomes1, outcomes2, count, TotalTickets(outcomes1, outcomes2, count)) == 100.0
  {
    var total := TotalTickets(outcomes1, outcomes2, count);
    TimesIsProduct(outcomes1, Chance1(count, total));
    TimesIsProduct(outcomes2, Chance2(count, total));
    calc {
      outcomes1 as real * Chance1(count, total) + outcomes2 as real * Chance2(count, total);
      (outcomes1 as real * count as real + outcomes2 as real * (Inputs - count) as real) / total as real * 100.0;
      { assert outcomes1 as real * count as real + outcomes2 as real * (Inputs - count) as real == total as real; }
      100.0;
    }
  }

  /** With at most as many profitable outcomes as outcomes, the chance of profit is a
      percentage. */
  lemma ProfitShareBounds(n1: nat, n2: nat, outcomes1: nat, outcomes2: nat, count: int)
    requires n1 <= outcomes1 && n2 <= outcomes2 && 0 <= count <= Inputs
    requires TotalTickets(outcomes1, outcomes2, count) != 0
    ensures 0.0 <= ProfitChance(n1, n2, count, TotalTickets(outcomes1, outcomes2, count)) <= 100.0
  {
    var total := TotalTickets(outcomes1, outcomes2, count);
    ChancesAddUp(outcomes1, outcomes2, count);
    assert total > 0;
    assert Chance1(count, total) >= 0.0 by {
      assert count as real / total as real >= 0.0;
    }
    assert Chance2(count, total) >= 0.0 by {
      assert (Inputs - count) as real / total as real >= 0.0;
    }
    TimesMonotone(n1, outcomes1, Chance1(count, total));
    TimesMonotone(n2, outcomes2, Chance2(count, total));
  }

  /** For a valid split of the ten inputs both reported chances are percentages, and they
      add up to 100. */
  lemma BreakdownIsPercentage(case1: seq<Skin>, case2: Option<seq<Skin>>, count: int, average: real,
                              inputPrice: real, book: PriceBook, estimate: (Skin, real) -> real)
    requires 0 <= count <= Inputs
    requires BreakdownOf(case1, case2, count, average, inputPrice, book, estimate).Ok?
    ensures var b := BreakdownOf(case1, case2, count, average, inputPrice, book, estimate).value;
      0.0 <= b.profitChance <= 100.0 && 0.0 <= b.lossChance <= 100.0
      && b.profitChance + b.lossChance == 100.0
  {
    var skins2 := case2.GetOr([]);
    BreakdownCounts(case1, case2, count, average, inputPrice, book, estimate);
    var n1 := ProfitableCount(case1, average, book, inputPrice, estimate).value;
    var n2 := ProfitableCount(skins2, average, book, inputPrice, estimate).value;
    ProfitShareBounds(n1, n2, |case1|, |skins2|, count);
  }

  /** The loop over one crate's outcomes in `profit_breakdown`: starting from `start`, each
      profitable outcome adds `chance`; the first outcome that fails ends the command. */
  method AccumulateProfit(skins: seq<Skin>, chance: real, start: real, average: real, book: PriceBook,
                          inputPrice: real, estimate: (Skin, real) -> real) returns (r: Result<real>)
    ensures r == ProfitAdded(skins, chance, start, average, book, inputPrice, estimate)
  {
    var profit := start;
    for i := 0 to |skins|
      invariant ProfitAdded(skins[..i], chance, start, average, book, inputPrice, estimate) == Ok(profit)
    {
      assert skins[..i + 1][..i] == skins[..i];
      var sp := FormatSkinProfit(skins[i], estimate(skins[i], average), book, inputPrice);
      if sp.Err? {
        AddedErrorPersists(skins, i + 1, chance, start, average, book, inputPrice, estimate, sp.failure);
        return Err(sp.failure);
      }
      if sp.value.hasProfit {
        profit := profit + chance;
      }
    }
    assert skins[..|skins|] == skins;
    r := Ok(profit);
  }

  /** Once a prefix fails, every longer prefix fails with the same error. */
  lemma {:induction false} AddedErrorPersists(skins: seq<Skin>, n: nat, chance: real, start: real, average: real,
                                              book: PriceBook, inputPrice: real, estimate: (Skin, real) -> real,
                                              f: Failure)
    requires n <= |skins|
    requires ProfitAdded(skins[..n], chance, start, average, book, inputPrice, estimate) == Err(f)
    ensures ProfitAdded(skins, chance, start, average, book, inputPrice, estimate) == Err(f)
    decreases |skins| - n
  {
    if n == |skins| {
      assert skins[..n] == skins;
    } else {
      assert skins[..n + 1][..n] == skins[..n];
      AddedErrorPersists(skins, n + 1, chance, start, average, book, inputPrice, estimate, f);
    }
  }

  /** The outcome lists `profit_breakdown` reads: each input skin's crate at the trade up's
      goal rarity (not at the input skin's own rarity, as `SimulateSetup` does). */
  function GoalCases(catalog: seq<Skin>, t: TradeUp): (c: (seq<Skin>, Option<seq<Skin>>))
    ensures forall s :: s in c.0 <==> s in catalog && s.crateId == t.skin1.crateId && s.rarity == t.goalRarity
    ensures c.1.Some? <==> t.skin2.Some?
    ensures t.skin2.Some? ==> forall s :: s in c.1.value <==>
      s in catalog && s.crateId == t.skin2.value.crateId && s.rarity == t.goalRarity
  {
    (SkinsByCrateAndRarity(catalog, t.skin1.crateId, t.goalRarity),
     if t.skin2.Some? then Some(SkinsByCrateAndRarity(catalog, t.skin2.value.crateId, t.goalRarity)) else None)
  }

  /** `profit_breakdown`: the first crate's outcomes at the goal rarity, then the second
      crate's when the trade up has a second skin; each profitable outcome adds its crate's
      chance. No tickets at all raise ZeroDivisionError; an outcome whose range names no tier
      raises IndexError. */
  method ProfitBreakdown(catalog: seq<Skin>, t: TradeUp, maxWear1: real, maxWear2: real,
                         book: PriceBook, estimate: (Skin, real) -> real) returns (r: Result<Breakdown>)
    ensures var c := GoalCases(catalog, t);
      r == BreakdownOf(c.0, c.1, t.skin1Count, AverageWear(maxWear1, maxWear2, t.skin1Count),
                       t.inputPrice, book, estimate)
  {
    var count := t.skin1Count;
    var inputPrice := t.inputPrice;
    var case1 := SkinsByCrateAndRarity(catalog, t.skin1.crateId, t.goalRarity);
    var case2: Option<seq<Skin>> := None;
    var skins2: seq<Skin> := [];
    if t.skin2.Some? {
      skins2 := SkinsByCrateAndRarity(catalog, t.skin2.value.crateId, t.goalRarity);
      case2 := Some(skins2);
    }
    var total := TotalTickets(|case1|, |skins2|, count);
    var average := AverageWear(maxWear1, maxWear2, count);
    if total == 0 {
      return Err(ZeroDivision);
    }
    var chance1 := Chance1(count, total);
    var profit := AccumulateProfit(case1, chance1, 0.0, average, book, inputPrice, estimate);
    if profit.Err? {
      return Err(profit.failure);
    }
    if case2.Some? {
      var chance2 := Chance2(count, total);
      profit := AccumulateProfit(skins2, chance2, profit.value, average, book, inputPrice, estimate);
      if profit.Err? {
        return Err(profit.failure);
      }
    }
    r := Ok(Breakdown(profit.value, 100.0 - profit.value));
  }
}
