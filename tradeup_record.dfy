/** The trade-up record (src/models/tradeup.py): a stored row of fourteen columns and the
    input skins it was built from, decoded into one value. */
module TradeUpRecord {
  import opened Wrappers
  import opened Records

  /** The columns of a stored trade up, in column order. Column 12 (the price of the second
      input skin) may be NULL. */
  datatype Row = Row(
    internalId: int,
    goalSkin: Skin,
    goalWear: int,
    goalRarity: int,
    goalWeapon: int,
    skin1Count: int,
    chance: real,
    roi10: real,
    profit10: real,
    roi100: real,
    profit100: real,
    skin1Price: real,
    skin2Price: Option<real>,
    inputPrice: real)

  /** A decoded trade up: the row's values, the second price defaulted, and the input skins. */
  datatype TradeUp = TradeUp(
    internalId: int,
    goalSkin: Skin,
    goalWear: int,
    goalRarity: int,
    goalWeapon: int,
    skin1Count: int,
    chance: real,
    roi10: real,
    profit10: real,
    roi100: real,
    profit100: real,
    skin1Price: real,
    skin2Price: real,
    inputPrice: real,
    skin1: Skin,
    skin2: Option<Skin>)

  /** `TradeUp.__init__`: the first skin is required (an empty list raises IndexError), the
      second is present exactly when there are two or more, a NULL second price becomes 0,
      and every other column is copied unchanged. */
  function Decode(row: Row, skins: seq<Skin>): (r: Result<TradeUp>)
    ensures r.Err? <==> |skins| == 0
    ensures r.Err? ==> r.failure == IndexOutOfRange
    ensures r.Ok? ==>
      var t := r.value;
      && t.skin1 == skins[0]
      && (t.skin2.Some? <==> |skins| > 1)
      && (t.skin2.Some? ==> t.skin2.value == skins[1])
      && (row.skin2Price.Some? ==> t.skin2Price == row.skin2Price.value)
      && (row.skin2Price.None? ==> t.skin2Price == 0.0)
      && t.internalId == row.internalId && t.goalSkin == row.goalSkin
      && t.goalWear == row.goalWear && t.goalRarity == row.goalRarity
      && t.goalWeapon == row.goalWeapon && t.skin1Count == row.skin1Count
      && t.chance == row.chance && t.roi10 == row.roi10 && t.profit10 == row.profit10
      && t.roi100 == row.roi100 && t.profit100 == row.profit100
      && t.skin1Price == row.skin1Price && t.inputPrice == row.inputPrice
  {
    if |skins| == 0 then Err(IndexOutOfRange)
    else
      Ok(TradeUp(row.internalId, row.goalSkin, row.goalWear, row.goalRarity, row.goalWeapon,
                 row.skin1Count, row.chance, row.roi10, row.profit10, row.roi100, row.profit100,
                 row.skin1Price, row.skin2Price.GetOr(0.0), row.inputPrice,
                 skins[0], if |skins| > 1 then Some(skins[1]) else None))
  }

  /** The row and skin list a trade up decodes from: the second price always stored. */
  function EncodeRow(t: TradeUp): Row
  {
    Row(t.internalId, t.goalSkin, t.goalWear, t.goalRarity, t.goalWeapon, t.skin1Count,
        t.chance, t.roi10, t.profit10, t.roi100, t.profit100, t.skin1Price,
        Some(t.skin2Price), t.inputPrice)
  }

  function EncodeSkins(t: TradeUp): seq<Skin>
  {
    match t.skin2
    case None => [t.skin1]
    case Some(s) => [t.skin1, s]
  }

  /** Decoding what a trade up encodes to gives the trade up back. */
  lemma DecodeEncode(t: TradeUp)
    ensures Decode(EncodeRow(t), EncodeSkins(t)) == Ok(t)
  {
  }

  /** Only the first two skins are read: further skins do not change the result. */
  lemma DecodeReadsTwoSkins(row: Row, skins: seq<Skin>, extra: seq<Skin>)
    requires |skins| >= 2
    ensures Decode(row, skins + extra) == Decode(row, skins)
  {
  }

  /** A NULL second price and a stored 0 decode alike. */
  lemma NullPriceIsZero(row: Row, skins: seq<Skin>)
    requires row.skin2Price.None?
    ensures Decode(row, skins) == Decode(row.(skin2Price := Some(0.0)), skins)
  {
  }
}
