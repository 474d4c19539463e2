/** `find_cheapest`: for every crate, rarity and wear, walk each skin's stored order book to
    the first row that is at least ten deep and keep the cheapest skin under the rule "the
    first priced skin seeds; a later skin replaces the choice only when it is deep enough and
    strictly cheaper". */
module MarketHandler {
  import opened Wrappers
  import opened Records
  import opened Store

  // ----------------------------------------------------------------- depth walk

  /** The count at which the walk stops. */
  const DeepCount: int := 10

  /** What the walk over one order book yields: the summed count and the last price read. */
  datatype Depth = Depth(total: int, price: real)

  /** The index of the first row with count >= 10, or the number of rows when there is none. */
  function FirstDeep(rows: seq<PriceRow>): (k: nat)
    ensures k <= |rows|
    ensures forall i :: 0 <= i < k ==> rows[i].count < DeepCount
    ensures k < |rows| ==> rows[k].count >= DeepCount
  {
    if rows == [] then 0
    else if rows[0].count >= DeepCount then 0
    else 1 + FirstDeep(rows[1..])
  }

  function SumCounts(rows: seq<PriceRow>): int
  {
    if rows == [] then 0 else SumCounts(rows[..|rows| - 1]) + rows[|rows| - 1].count
  }

  /** The number of rows the walk reads: up to and including the first deep row, else all. */
  function WalkLength(rows: seq<PriceRow>): nat
  {
    if FirstDeep(rows) < |rows| then FirstDeep(rows) + 1 else |rows|
  }

  /** The outcome of the walk: the counts of the rows read summed, and the price of the last
      row read (0 for an empty book). */
  function Walked(rows: seq<PriceRow>): (d: Depth)
    ensures rows != [] ==> d.price == rows[WalkLength(rows) - 1].price
  {
    var n := WalkLength(rows);
    Depth(SumCounts(rows[..n]), if n == 0 then 0.0 else rows[n - 1].price)
  }

  /** The inner loop of `find_cheapest`: add up counts row by row and stop after the first
      row whose own count is at least ten. */
  method WalkDepth(rows: seq<PriceRow>) returns (d: Depth)
    ensures d == Walked(rows)
  {
    var total := 0;
    var currentPrice := 0.0;
    var i := 0;
    while i < |rows|
      invariant 0 <= i <= FirstDeep(rows)
      invariant total == SumCounts(rows[..i])
      invariant currentPrice == if i == 0 then 0.0 else rows[i - 1].price
    {
      var row := rows[i];
      assert rows[..i + 1][..i] == rows[..i];
      total := total + row.count;
      currentPrice := row.price;
      if row.count >= DeepCount {
        assert i == FirstDeep(rows) && WalkLength(rows) == i + 1;
        return Depth(total, currentPrice);
      }
      i := i + 1;
    }
    assert rows[..i] == rows;
    d := Depth(total, currentPrice);
  }

  // ----------------------------------------------------------------- cheapest skin of a group

  /** Skin `i` of the group has a stored book at this wear. */
  predicate Priced(group: seq<Skin>, book: PriceBook, wear: int, i: int)
    requires 0 <= i < |group|
  {
    GetPrices(book, group[i].internalId, wear).Some?
  }

  /** The walk over skin `i`'s book. */
  function WalkAt(group: seq<Skin>, book: PriceBook, wear: int, i: int): Depth
    requires 0 <= i < |group| && Priced(group, book, wear, i)
  {
    Walked(GetPrices(book, group[i].internalId, wear).value)
  }

  /** Skin `i` is the first priced skin of the group. */
  predicate IsSeed(group: seq<Skin>, book: PriceBook, wear: int, i: int)
    requires 0 <= i < |group|
  {
    Priced(group, book, wear, i) && forall j :: 0 <= j < i ==> !Priced(group, book, wear, j)
  }

  /** Skin `i` may be chosen: it is the seed, or it is priced and its walk is deep enough. */
  predicate Candidate(group: seq<Skin>, book: PriceBook, wear: int, i: int)
    requires 0 <= i < |group|
  {
    Priced(group, book, wear, i)
    && (IsSeed(group, book, wear, i) || WalkAt(group, book, wear, i).total >= DeepCount)
  }

  /** The index chosen after the first `n` skins: the seed/replace rule applied left to right. */
  function PickUpTo(group: seq<Skin>, book: PriceBook, wear: int, n: nat): (k: Option<nat>)
    requires n <= |group|
    ensures k.Some? ==> k.value < n && Priced(group, book, wear, k.value)
  {
    if n == 0 then None
    else
      var prev := PickUpTo(group, book, wear, n - 1);
      var i := n - 1;
      if !Priced(group, book, wear, i) then prev
      else match prev
        case None => Some(i)
        case Some(k) =>
          if WalkAt(group, book, wear, i).total >= DeepCount
             && WalkAt(group, book, wear, i).price < WalkAt(group, book, wear, k).price
          then Some(i) else prev
  }

  /** The rule picks the first skin of least price among the candidates: none exactly when
      no skin is priced; otherwise a candidate no dearer than any candidate, and strictly
      cheaper than every earlier candidate (so ties keep the earlier skin). */
  lemma {:induction false} PickIsFirstCheapest(group: seq<Skin>, book: PriceBook, wear: int, n: nat)
    requires n <= |group|
    ensures PickUpTo(group, book, wear, n).None?
        <==> forall j :: 0 <= j < n ==> !Priced(group, book, wear, j)
    ensures PickUpTo(group, book, wear, n).Some? ==>
      var k := PickUpTo(group, book, wear, n).value;
      && Candidate(group, book, wear, k)
      && (forall j :: 0 <= j < n && Candidate(group, book, wear, j) ==>
            WalkAt(group, book, wear, k).price <= WalkAt(group, book, wear, j).price)
      && (forall j :: 0 <= j < k && Candidate(group, book, wear, j) ==>
            WalkAt(group, book, wear, j).price > WalkAt(group, book, wear, k).price)
  {
    if n > 0 {
      PickIsFirstCheapest(group, book, wear, n - 1);
      var i := n - 1;
      var prev := PickUpTo(group, book, wear, n - 1);
      if Priced(group, book, wear, i) && prev.Some? {
        assert !IsSeed(group, book, wear, i);
      }
    }
  }

  /** The chosen skin and the price recorded for it. */
  datatype Choice = Choice(skin: Skin, price: real)

  function ChoiceOf(group: seq<Skin>, book: PriceBook, wear: int, pick: Option<nat>): Option<Choice>
    requires pick.Some? ==> pick.value < |group| && Priced(group, book, wear, pick.value)
  {
    match pick
    case None => None
    case Some(k) => Some(Choice(group[k], WalkAt(group, book, wear, k).price))
  }

  /** The choice for one group and wear. */
  function Cheapest(group: seq<Skin>, book: PriceBook, wear: int): Option<Choice>
  {
    ChoiceOf(group, book, wear, PickUpTo(group, book, wear, |group|))
  }

  /** The loop over the skins of one group at one wear: unpriced skins are skipped, the first
      priced skin seeds, and a deep enough, strictly cheaper skin replaces the choice. */
  method SelectCheapest(group: seq<Skin>, book: PriceBook, wear: int) returns (cheapest: Option<Choice>)
    ensures cheapest == Cheapest(group, book, wear)
  {
    cheapest := None;
    for i := 0 to |group|
      invariant cheapest == ChoiceOf(group, book, wear, PickUpTo(group, book, wear, i))
    {
      var prices := GetPrices(book, group[i].internalId, wear);
      if prices.None? {
        continue;
      }
      var d := WalkDepth(prices.value);
      if cheapest.None? || (d.total >= DeepCount && d.price < cheapest.value.price) {
        cheapest := Some(Choice(group[i], d.price));
      }
    }
  }

  // ----------------------------------------------------------------- grouping by rarity

  /** The distinct rarities of `skins` in order of first occurrence: the key order of the
      `skins_by_rarity` dictionary. */
  function Rarities(skins: seq<Skin>): (rs: seq<int>)
    ensures forall r :: r in rs <==> exists i :: 0 <= i < |skins| && skins[i].rarity == r
    ensures forall i, j :: 0 <= i < j < |rs| ==> rs[i] != rs[j]
    decreases |skins|
  {
    if skins == [] then []
    else
      var prefix := skins[..|skins| - 1];
      var last := skins[|skins| - 1];
      var rs := Rarities(prefix);
      assert forall i :: 0 <= i < |prefix| ==> prefix[i] == skins[i];
      if last.rarity in rs then rs else rs + [last.rarity]
  }

  /** The skins of one rarity, in catalog order. */
  function OfRarity(skins: seq<Skin>, rarity: int): (g: seq<Skin>)
    ensures forall s :: s in g <==> s in skins && s.rarity == rarity
    decreases |skins|
  {
    if skins == [] then []
    else
      var prefix := skins[..|skins| - 1];
      var last := skins[|skins| - 1];
      assert skins == prefix + [last];
      if last.rarity == rarity then OfRarity(prefix, rarity) + [last] else OfRarity(prefix, rarity)
  }


  /** A rarity with at least one skin is one of the keys. */
  lemma OfRarityNonEmpty(skins: seq<Skin>, rarity: int)
    ensures OfRarity(skins, rarity) != [] ==> rarity in Rarities(skins)
  {
    var g := OfRarity(skins, rarity);
    if g != [] {
      assert g[0] in g;
      var k :| 0 <= k < |skins| && skins[k] == g[0];
    }
  }

  /** The first loop of `find_cheapest` for one crate: append each skin to the list of its
      rarity, creating the list on first sight. The dictionary is its key order and its map. */
  method GroupByRarity(skins: seq<Skin>) returns (order: seq<int>, groups: map<int, seq<Skin>>)
    ensures order == Rarities(skins)
    ensures forall r :: r in groups <==> r in order
    ensures forall r :: r in groups ==> groups[r] == OfRarity(skins, r)
  {
    order, groups := [], map[];
    for i := 0 to |skins|
      invariant order == Rarities(skins[..i])
      invariant forall r :: r in groups <==> r in order
      invariant forall r :: r in groups ==> groups[r] == OfRarity(skins[..i], r)
    {
      var skin := skins[i];
      assert skins[..i + 1][..i] == skins[..i];
      assert skins[..i + 1][i] == skin;
      if skin.rarity in groups {
        groups := groups[skin.rarity := groups[skin.rarity] + [skin]];
      } else {
        OfRarityNonEmpty(skins[..i], skin.rarity);
        groups := groups[skin.rarity := [skin]];
        order := order + [skin.rarity];
      }
    }
    assert skins[..|skins|] == skins;
  }

  // ----------------------------------------------------------------- cheapest records

  /** A row added to the `cheapest` table. */
  datatype CheapestRecord = CheapestRecord(crateId: int, skinId: int, rarity: int, wear: int, price: real)

  /** The record for one (crate, rarity, wear) given the group's choice there, if any. */
  function RecordOf(crateId: int, rarity: int, wear: int, choice: Option<Choice>): seq<CheapestRecord>
  {
    match choice
    case None => []
    case Some(c) => [CheapestRecord(crateId, c.skin.internalId, rarity, wear, c.price)]
  }

  /** The group's choice at each wear 0 .. 4. */
  function Choices(group: seq<Skin>, book: PriceBook): (cs: seq<Option<Choice>>)
    ensures |cs| == WearCount
    ensures forall w :: 0 <= w < WearCount ==> cs[w] == Cheapest(group, book, w)
  {
    seq(WearCount, w requires 0 <= w < WearCount => Cheapest(group, book, w))
  }

  /** The records for wears 0 .. n-1, in wear order, given the choice at each wear. */
  function RecordsUpTo(crateId: int, rarity: int, cs: seq<Option<Choice>>, n: nat): seq<CheapestRecord>
    requires n <= |cs|
  {
    if n == 0 then []
    else RecordsUpTo(crateId, rarity, cs, n - 1) + RecordOf(crateId, rarity, n - 1, cs[n - 1])
  }

  /** The records for wears 0 .. n-1 of one group. */
  function WearRecords(crateId: int, group: seq<Skin>, book: PriceBook, rarity: int, n: nat): seq<CheapestRecord>
    requires n <= WearCount
  {
    RecordsUpTo(crateId, rarity, Choices(group, book), n)
  }

  /** The wear values 0 (Factory New) .. 4 (Battle-Scarred) that every group is tried at. */
  const WearCount: nat := 5

  /** The records of the rarities `rs` of one crate, rarity by rarity. */
  function RarityRecords(crateId: int, skins: seq<Skin>, book: PriceBook, rs: seq<int>): seq<CheapestRecord>
  {
    if rs == [] then []
    else
      var r := rs[|rs| - 1];
      RarityRecords(crateId, skins, book, rs[..|rs| - 1])
        + WearRecords(crateId, OfRarity(skins, r), book, r, WearCount)
  }

  /** One more rarity appends that rarity's records. */
  lemma RarityRecordsStep(crateId: int, skins: seq<Skin>, book: PriceBook, rs: seq<int>, r: nat)
    requires r < |rs|
    ensures RarityRecords(crateId, skins, book, rs[..r + 1])
         == RarityRecords(crateId, skins, book, rs[..r]) + WearRecords(crateId, OfRarity(skins, rs[r]), book, rs[r], WearCount)
  {
    assert rs[..r + 1][..r] == rs[..r];
  }

  /** The records one crate contributes. */
  function CrateRecords(catalog: seq<Skin>, book: PriceBook, crate: Crate): seq<CheapestRecord>
  {
    var skins := SkinsByCrate(catalog, crate.internalId);
    RarityRecords(crate.internalId, skins, book, Rarities(skins))
  }

  /** The records of all crates, crate by crate. */
  function AllRecords(catalog: seq<Skin>, book: PriceBook, crates: seq<Crate>): seq<CheapestRecord>
  {
    if crates == [] then []
    else AllRecords(catalog, book, crates[..|crates| - 1]) + CrateRecords(catalog, book, crates[|crates| - 1])
  }

  /** The innermost loop of `find_cheapest`: one group tried at every wear in turn. */
  method GroupCheapest(crateId: int, group: seq<Skin>, book: PriceBook, rarity: int)
    returns (added: seq<CheapestRecord>)
    ensures added == WearRecords(crateId, group, book, rarity, WearCount)
  {
    added := [];
    for wear := 0 to WearCount
      invariant added == WearRecords(crateId, group, book, rarity, wear)
    {
      var cheapest := SelectCheapest(group, book, wear);
      assert cheapest == Choices(group, book)[wear];
      if cheapest.Some? {
        added := added + [CheapestRecord(crateId, cheapest.value.skin.internalId, rarity, wear, cheapest.value.price)];
      }
    }
  }

  /** The body of `find_cheapest` for one crate: group its skins, then every rarity in key order. */
  method CrateCheapest(catalog: seq<Skin>, book: PriceBook, crate: Crate) returns (added: seq<CheapestRecord>)
    ensures added == CrateRecords(catalog, book, crate)
  {
    var skins := SkinsByCrate(catalog, crate.internalId);
    var order, groups := GroupByRarity(skins);
    added := [];
    for r := 0 to |order|
      invariant added == RarityRecords(crate.internalId, skins, book, order[..r])
    {
      var rarity := order[r];
      RarityRecordsStep(crate.internalId, skins, book, order, r);
      var more := GroupCheapest(crate.internalId, groups[rarity], book, rarity);
      added := added + more;
    }
    assert order[..|order|] == order;
  }

  /** `find_cheapest`: the records added to the `cheapest` table, in the order they are added. */
  method FindCheapest(catalog: seq<Skin>, crates: seq<Crate>, book: PriceBook) returns (added: seq<CheapestRecord>)
    ensures added == AllRecords(catalog, book, crates)
  {
    added := [];
    for c := 0 to |crates|
      invariant added == AllRecords(catalog, book, crates[..c])
    {
      assert crates[..c + 1][..c] == crates[..c];
      var more := CrateCheapest(catalog, book, crates[c]);
      added := added + more;
    }
    assert crates[..|crates|] == crates;
  }

  // ----------------------------------------------------------------- what the table holds

  /** The number of records for one (rarity, wear) key. */
  function KeyCount(recs: seq<CheapestRecord>, rarity: int, wear: int): nat
  {
    if recs == [] then 0
    else
      var last := recs[|recs| - 1];
      KeyCount(recs[..|recs| - 1], rarity, wear) + (if last.rarity == rarity && last.wear == wear then 1 else 0)
  }

  lemma {:induction false} KeyCountAppend(a: seq<CheapestRecord>, b: seq<CheapestRecord>, rarity: int, wear: int)
    ensures KeyCount(a + b, rarity, wear) == KeyCount(a, rarity, wear) + KeyCount(b, rarity, wear)
    decreases |b|
  {
    if b == [] {
      assert a + b == a;
    } else {
      assert (a + b)[..|a + b| - 1] == a + b[..|b| - 1];
      assert (a + b)[|a + b| - 1] == b[|b| - 1];
      KeyCountAppend(a, b[..|b| - 1], rarity, wear);
    }
  }

  /** Some skin of the group is priced at this wear. */
  predicate AnyPriced(group: seq<Skin>, book: PriceBook, wear: int)
  {
    exists i :: 0 <= i < |group| && Priced(group, book, wear, i)
  }

  /** A group has a choice at a wear exactly when one of its skins is priced there. */
  lemma CheapestExists(group: seq<Skin>, book: PriceBook, wear: int)
    ensures Cheapest(group, book, wear).Some? <==> AnyPriced(group, book, wear)
  {
    PickIsFirstCheapest(group, book, wear, |group|);
  }

  lemma KeyCountRecordOf(crateId: int, rarity: int, wear: int, choice: Option<Choice>, r: int, w: int)
    ensures KeyCount(RecordOf(crateId, rarity, wear, choice), r, w)
         == if r == rarity && w == wear && choice.Some? then 1 else 0
  {
    var recs := RecordOf(crateId, rarity, wear, choice);
    if choice.Some? {
      assert recs[..0] == [];
    }
  }

  /** At most one record per wear, and only for its own key. */
  lemma {:induction false} RecordsUpToCount(crateId: int, rarity: int, cs: seq<Option<Choice>>, n: nat, r: int, w: int)
    requires n <= |cs|
    ensures KeyCount(RecordsUpTo(crateId, rarity, cs, n), r, w)
         == if r == rarity && 0 <= w < n && cs[w].Some? then 1 else 0
  {
    if n > 0 {
      var prev := RecordsUpTo(crateId, rarity, cs, n - 1);
      var last := RecordOf(crateId, rarity, n - 1, cs[n - 1]);
      RecordsUpToCount(crateId, rarity, cs, n - 1, r, w);
      KeyCountAppend(prev, last, r, w);
      KeyCountRecordOf(crateId, rarity, n - 1, cs[n - 1], r, w);
    }
  }

  lemma WearRecordsCount(crateId: int, group: seq<Skin>, book: PriceBook, rarity: int, r: int, w: int)
    ensures KeyCount(WearRecords(crateId, group, book, rarity, WearCount), r, w)
         == if r == rarity && 0 <= w < WearCount && Cheapest(group, book, w).Some? then 1 else 0
  {
    RecordsUpToCount(crateId, rarity, Choices(group, book), WearCount, r, w);
  }

  lemma {:induction false} RarityRecordsCount(crateId: int, skins: seq<Skin>, book: PriceBook, rs: seq<int>, r: int, w: int)
    requires forall i, j :: 0 <= i < j < |rs| ==> rs[i] != rs[j]
    ensures KeyCount(RarityRecords(crateId, skins, book, rs), r, w)
         == if r in rs && 0 <= w < WearCount && Cheapest(OfRarity(skins, r), book, w).Some? then 1 else 0
    decreases |rs|
  {
    if rs != [] {
      var last := rs[|rs| - 1];
      var prefix := rs[..|rs| - 1];
      RarityRecordsCount(crateId, skins, book, prefix, r, w);
      KeyCountAppend(RarityRecords(crateId, skins, book, prefix),
                     WearRecords(crateId, OfRarity(skins, last), book, last, WearCount), r, w);
      WearRecordsCount(crateId, OfRarity(skins, last), book, last, r, w);
      assert rs == prefix + [last];
      assert last !in prefix;
    }
  }

  /** Exactly one record is added for each (rarity, wear) of a crate whose group has a priced
      skin at that wear, and none for any other key. */
  lemma CrateRecordsExactlyOne(catalog: seq<Skin>, book: PriceBook, crate: Crate, rarity: int, wear: int)
    ensures var group := OfRarity(SkinsByCrate(catalog, crate.internalId), rarity);
      KeyCount(CrateRecords(catalog, book, crate), rarity, wear)
        == if 0 <= wear < WearCount && AnyPriced(group, book, wear) then 1 else 0
  {
    var skins := SkinsByCrate(catalog, crate.internalId);
    RarityRecordsCount(crate.internalId, skins, book, Rarities(skins), rarity, wear);
    OfRarityNonEmpty(skins, rarity);
    CheapestExists(OfRarity(skins, rarity), book, wear);
  }

  /** A record of the crate belongs to that crate and records the group's choice at its wear. */
  predicate IsChoiceRecord(rec: CheapestRecord, crateId: int, skins: seq<Skin>, book: PriceBook)
  {
    && rec.crateId == crateId
    && 0 <= rec.wear < WearCount
    && var c := Cheapest(OfRarity(skins, rec.rarity), book, rec.wear);
       c.Some? && rec.skinId == c.value.skin.internalId && rec.price == c.value.price
  }

  lemma {:induction false} WearRecordsSound(crateId: int, skins: seq<Skin>, book: PriceBook, r: int, n: nat)
    requires n <= WearCount
    ensures forall rec :: rec in WearRecords(crateId, OfRarity(skins, r), book, r, n) ==>
      IsChoiceRecord(rec, crateId, skins, book)
  {
    if n > 0 {
      WearRecordsSound(crateId, skins, book, r, n - 1);
    }
  }

  lemma {:induction false} RarityRecordsSound(crateId: int, skins: seq<Skin>, book: PriceBook, rs: seq<int>)
    ensures forall rec :: rec in RarityRecords(crateId, skins, book, rs) ==> IsChoiceRecord(rec, crateId, skins, book)
    decreases |rs|
  {
    if rs != [] {
      RarityRecordsSound(crateId, skins, book, rs[..|rs| - 1]);
      WearRecordsSound(crateId, skins, book, rs[|rs| - 1], WearCount);
    }
  }

  /** Every record of a crate states its group's choice: the recorded skin is the first priced
      skin or a deep enough one, and its price is no higher than the walked price of any skin
      of the group that is priced at that wear and at least ten deep. */
  lemma CrateRecordsSound(catalog: seq<Skin>, book: PriceBook, crate: Crate, rec: CheapestRecord)
    requires rec in CrateRecords(catalog, book, crate)
    ensures var group := OfRarity(SkinsByCrate(catalog, crate.internalId), rec.rarity);
      && rec.crateId == crate.internalId
      && 0 <= rec.wear < WearCount
      && (forall j :: (0 <= j < |group| && Priced(group, book, rec.wear, j)
                       && WalkAt(group, book, rec.wear, j).total >= DeepCount) ==>
            rec.price <= WalkAt(group, book, rec.wear, j).price)
      && (exists k :: 0 <= k < |group| && Candidate(group, book, rec.wear, k)
            && group[k].internalId == rec.skinId && WalkAt(group, book, rec.wear, k).price == rec.price)
  {
    var skins := SkinsByCrate(catalog, crate.internalId);
    RarityRecordsSound(crate.internalId, skins, book, Rarities(skins));
    var group := OfRarity(skins, rec.rarity);
    PickIsFirstCheapest(group, book, rec.wear, |group|);
    var k := PickUpTo(group, book, rec.wear, |group|).value;
    assert group[k].internalId == rec.skinId;
  }
}
