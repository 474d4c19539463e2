/** The catalog records read from the store: skins, crates, order-book rows and the
    simulation possibilities built from skins. They carry no logic of their own. */
module Records {

  /** A skin row of the `skins` table (src/models/skin.py). */
  datatype Skin = Skin(
    internalId: int,
    skinId: string,
    skinTag: string,
    skinName: string,
    weaponType: int,
    rarity: int,
    minWear: real,
    maxWear: real,
    crateId: int)

  /** A crate row of the `crates` table (src/models/crate.py); `rarityCounts` lists the six
      per-rarity counts in column order. */
  datatype Crate = Crate(
    internalId: int,
    crateName: string,
    crateId: string,
    setId: string,
    rarityCounts: seq<int>)

  /** One row of a stored sell-order book: price, count, and a text tag the core ignores. */
  datatype PriceRow = PriceRow(price: real, count: int, tag: string)

  /** A possible outcome of a trade up, copied from a skin (src/models/simulation_possibility.py). */
  datatype Possibility = Possibility(skinId: int, caseId: int, minWear: real, maxWear: real, rarity: int)

  function PossibilityOf(skin: Skin): Possibility
  {
    Possibility(skin.internalId, skin.crateId, skin.minWear, skin.maxWear, skin.rarity)
  }
}
