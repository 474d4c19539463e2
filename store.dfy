/** The read side of the relational store (src/db_handler.py) as plain values: the skins
    table as a sequence in row order, and the stored order books keyed by (skin, wear). */
module Store {
  import opened Wrappers
  import opened Records

  /** `prices.price_data` decoded, keyed by (skin internal id, wear value). */
  type PriceBook = map<(int, int), seq<PriceRow>>

  /** `get_prices`: no stored row, and a stored but empty book, are both "no price". */
  function GetPrices(book: PriceBook, skinId: int, wear: int): (r: Option<seq<PriceRow>>)
    ensures r.None? <==> (skinId, wear) !in book || book[(skinId, wear)] == []
    ensures r.Some? ==> r.value == book[(skinId, wear)] && |r.value| > 0
  {
    if (skinId, wear) in book && book[(skinId, wear)] != [] then Some(book[(skinId, wear)])
    else None
  }

  /** The skins of one rarity, in row order (`get_skins_by_rarity`). */
  function SkinsByRarity(skins: seq<Skin>, rarity: int): (r: seq<Skin>)
    ensures forall s :: s in r <==> s in skins && s.rarity == rarity
    decreases |skins|
  {
    if skins == [] then []
    else
      var rest := SkinsByRarity(skins[..|skins| - 1], rarity);
      var last := skins[|skins| - 1];
      assert skins == skins[..|skins| - 1] + [last];
      if last.rarity == rarity then rest + [last] else rest
  }

  /** The skins of one crate, in row order (`get_skins_by_crate`). */
  function SkinsByCrate(skins: seq<Skin>, crateId: int): (r: seq<Skin>)
    ensures forall s :: s in r <==> s in skins && s.crateId == crateId
    decreases |skins|
  {
    if skins == [] then []
    else
      var rest := SkinsByCrate(skins[..|skins| - 1], crateId);
      var last := skins[|skins| - 1];
      assert skins == skins[..|skins| - 1] + [last];
      if last.crateId == crateId then rest + [last] else rest
  }

  /** The skins of one crate and rarity, in row order (`get_skins_by_crate_and_rarity`). */
  function SkinsByCrateAndRarity(skins: seq<Skin>, crateId: int, rarity: int): (r: seq<Skin>)
    ensures forall s :: s in r <==> s in skins && s.crateId == crateId && s.rarity == rarity
    decreases |skins|
  {
    if skins == [] then []
    else
      var rest := SkinsByCrateAndRarity(skins[..|skins| - 1], crateId, rarity);
      var last := skins[|skins| - 1];
      assert skins == skins[..|skins| - 1] + [last];
      if last.crateId == crateId && last.rarity == rarity then rest + [last] else rest
  }

  /** The queries return the matching rows in table order, repeats included: the result over
      two stretches of the table is the result over each, joined (`...Append`), and a single
      row is kept exactly when it matches (`...One`). Together these fix the result for
      every table. */
  lemma {:induction false} SkinsByRarityAppend(a: seq<Skin>, b: seq<Skin>, rarity: int)
    ensures SkinsByRarity(a + b, rarity) == SkinsByRarity(a, rarity) + SkinsByRarity(b, rarity)
    decreases |b|
  {
    if b == [] {
      assert a + b == a;
    } else {
      var front := b[..|b| - 1];
      assert (a + b)[..|a + b| - 1] == a + front;
      SkinsByRarityAppend(a, front, rarity);
    }
  }

  lemma SkinsByRarityOne(s: Skin, rarity: int)
    ensures SkinsByRarity([s], rarity) == if s.rarity == rarity then [s] else []
  {
    assert [s][..0] == [];
  }

  lemma {:induction false} SkinsByCrateAppend(a: seq<Skin>, b: seq<Skin>, crateId: int)
    ensures SkinsByCrate(a + b, crateId) == SkinsByCrate(a, crateId) + SkinsByCrate(b, crateId)
    decreases |b|
  {
    if b == [] {
      assert a + b == a;
    } else {
      var front := b[..|b| - 1];
      assert (a + b)[..|a + b| - 1] == a + front;
      SkinsByCrateAppend(a, front, crateId);
    }
  }

  lemma SkinsByCrateOne(s: Skin, crateId: int)
    ensures SkinsByCrate([s], crateId) == if s.crateId == crateId then [s] else []
  {
    assert [s][..0] == [];
  }

  lemma {:induction false} SkinsByCrateAndRarityAppend(a: seq<Skin>, b: seq<Skin>, crateId: int, rarity: int)
    ensures SkinsByCrateAndRarity(a + b, crateId, rarity) == SkinsByCrateAndRarity(a, crateId, rarity) + SkinsByCrateAndRarity(b, crateId, rarity)
    decreases |b|
  {
    if b == [] {
      assert a + b == a;
    } else {
      var front := b[..|b| - 1];
      assert (a + b)[..|a + b| - 1] == a + front;
      SkinsByCrateAndRarityAppend(a, front, crateId, rarity);
    }
  }

  lemma SkinsByCrateAndRarityOne(s: Skin, crateId: int, rarity: int)
    ensures SkinsByCrateAndRarity([s], crateId, rarity) == if s.crateId == crateId && s.rarity == rarity then [s] else []
  {
    assert [s][..0] == [];
  }

  /** The first quoted price of a skin at a wear, or 0 when none is stored: the substitution
      `get_skin_prices_by_crate_rarity_and_wear` makes for every listed skin. */
  function QuotedOrZero(book: PriceBook, skinId: int, wear: int): (p: real)
    ensures GetPrices(book, skinId, wear).None? ==> p == 0.0
    ensures GetPrices(book, skinId, wear).Some? ==> p == book[(skinId, wear)][0].price
  {
    match GetPrices(book, skinId, wear)
    case Some(rows) => rows[0].price
    case None => 0.0
  }

  /** `get_skin_prices_by_crate_rarity_and_wear`: one id and one price per listed skin, so
      the two lists always have the same length. */
  method SkinPricesByCrateRarityAndWear(skins: seq<Skin>, book: PriceBook, crateId: int, rarity: int, wear: int)
    returns (ids: seq<int>, prices: seq<real>)
    ensures var listed := SkinsByCrateAndRarity(skins, crateId, rarity);
      && |ids| == |prices| == |listed|
      && (forall i :: 0 <= i < |listed| ==> ids[i] == listed[i].internalId)
      && (forall i :: 0 <= i < |listed| ==> prices[i] == QuotedOrZero(book, ids[i], wear))
  {
    var listed := SkinsByCrateAndRarity(skins, crateId, rarity);
    ids, prices := [], [];
    for i := 0 to |listed|
      invariant |ids| == |prices| == i
      invariant forall k :: 0 <= k < i ==> ids[k] == listed[k].internalId
      invariant forall k :: 0 <= k < i ==> prices[k] == QuotedOrZero(book, ids[k], wear)
    {
      var id := listed[i].internalId;
      ids := ids + [id];
      prices := prices + [QuotedOrZero(book, id, wear)];
    }
  }
}
