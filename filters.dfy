/** The argument normalisation of the two `list_trade_ups` commands (src/bot.py and
    bot/bot.py): defaults for missing bounds, ROI percentages as fractions, and the rarity,
    wear and weapon names turned into the numbers the store keys on. */
module Filters {
  import opened Wrappers
  import opened Text
  import opened WeaponClassifiers

  /** The upper bound stored when none is given, for prices and for ROI. */
  const Unbounded: real := 9999999999.0

  const MinWearMessage: string := "Min wear cannot be greater than max wear."
  const WeaponMessage: string := "Invalid weapon."

  /** The options both commands share, as the command receives them. */
  datatype Query = Query(rarity: Option<string>, wear: Option<string>, weapon: Option<string>,
                         minWear: real, maxWear: real, lowerPrice: Option<real>, upperPrice: Option<real>)

  /** The same options after normalisation. */
  datatype Filters = Filters(rarity: Option<int>, wear: Option<int>, weapon: Option<int>,
                             minWear: real, maxWear: real, lowerPrice: real, upperPrice: real)

  /** The first position of `x` in `xs` (`list.index`), or None where Python raises ValueError. */
  function IndexOf(xs: seq<string>, x: string): (k: Option<nat>)
    ensures k.Some? ==> k.value < |xs| && xs[k.value] == x && forall i :: 0 <= i < k.value ==> xs[i] != x
    ensures k.None? ==> x !in xs
  {
    if xs == [] then None
    else if xs[0] == x then Some(0)
    else match IndexOf(xs[1..], x)
      case None => None
      case Some(k) => Some(k + 1)
  }

  /** A rarity filter given in the game's words, as its number (KeyError when unknown). */
  function RarityFilter(name: string): (r: Result<int>)
    ensures r.Ok? <==> Lower(name) in GameRarityToRarity
    ensures r.Err? ==> r.failure == KeyNotFound
  {
    var key := Lower(name);
    if key in GameRarityToRarity then Ok(RarityValue(GameRarityToRarity[key])) else Err(KeyNotFound)
  }

  /** A wear filter given by its display name, as its number (KeyError when unknown). */
  function WearFilter(name: string): (r: Result<int>)
    ensures r.Ok? <==> name in StrToWear
    ensures r.Err? ==> r.failure == KeyNotFound
  {
    if name in StrToWear then Ok(WearValue(StrToWear[name])) else Err(KeyNotFound)
  }

  /** A weapon filter given by its display name, as one more than its position in the name
      list; an unknown name ends the command with a reply. */
  function WeaponFilter(name: string): (r: Result<int>)
    ensures r.Ok? <==> name in WeaponNames
    ensures r.Ok? ==> 1 <= r.value <= |WeaponNames| && WeaponNames[r.value - 1] == name
    ensures r.Err? ==> r.failure == Refused(WeaponMessage)
  {
    match IndexOf(WeaponNames, name)
    case None => Err(Refused(WeaponMessage))
    case Some(k) => Ok(k + 1)
  }

  /** Applies `f` to an optional argument, keeping None as None. */
  function MapOption(x: Option<string>, f: string -> Result<int>): Result<Option<int>>
  {
    match x
    case None => Ok(None)
    case Some(s) => match f(s) case Err(e) => Err(e) case Ok(v) => Ok(Some(v))
  }

  /** The normalisation of src/bot.py `list_trade_ups`, in the order the command applies it:
      the wear check, the price defaults, then the rarity, wear and weapon lookups. */
  function Normalise(q: Query): (r: Result<Filters>)
    ensures q.minWear > q.maxWear ==> r == Err(Refused(MinWearMessage))
    ensures r.Ok? <==>
      && q.minWear <= q.maxWear
      && (q.rarity.Some? ==> Lower(q.rarity.value) in GameRarityToRarity)
      && (q.wear.Some? ==> q.wear.value in StrToWear)
      && (q.weapon.Some? ==> q.weapon.value in WeaponNames)
    ensures r.Ok? ==>
      && r.value.minWear == q.minWear && r.value.maxWear == q.maxWear
      && r.value.lowerPrice == q.lowerPrice.GetOr(0.0)
      && r.value.upperPrice == q.upperPrice.GetOr(Unbounded)
      && r.value.rarity.Some? == q.rarity.Some?
      && r.value.wear.Some? == q.wear.Some?
      && r.value.weapon.Some? == q.weapon.Some?
      && (q.rarity.Some? ==> r.value.rarity.value == RarityFilter(q.rarity.value).value)
      && (q.wear.Some? ==> r.value.wear.value == WearFilter(q.wear.value).value)
      && (q.weapon.Some? ==> r.value.weapon.value == WeaponFilter(q.weapon.value).value)
    // the lookups fail in the order the command makes them: rarity, wear, then weapon
    ensures q.minWear <= q.maxWear && q.rarity.Some? && RarityFilter(q.rarity.value).Err?
      ==> r == Err(KeyNotFound)
    ensures q.minWear <= q.maxWear && (q.rarity.Some? ==> RarityFilter(q.rarity.value).Ok?)
      && q.wear.Some? && WearFilter(q.wear.value).Err?
      ==> r == Err(KeyNotFound)
    ensures q.minWear <= q.maxWear && (q.rarity.Some? ==> RarityFilter(q.rarity.value).Ok?)
      && (q.wear.Some? ==> WearFilter(q.wear.value).Ok?)
      && q.weapon.Some? && WeaponFilter(q.weapon.value).Err?
      ==> r == Err(Refused(WeaponMessage))
  {
    if q.minWear > q.maxWear then Err(Refused(MinWearMessage))
    else
      var lower := if q.lowerPrice.None? then 0.0 else q.lowerPrice.value;
      var upper := if q.upperPrice.None? then Unbounded else q.upperPrice.value;
      match MapOption(q.rarity, RarityFilter)
      case Err(e) => Err(e)
      case Ok(rarity) =>
        match MapOption(q.wear, WearFilter)
        case Err(e) => Err(e)
        case Ok(wear) =>
          match MapOption(q.weapon, WeaponFilter)
          case Err(e) => Err(e)
          case Ok(weapon) => Ok(Filters(rarity, wear, weapon, q.minWear, q.maxWear, lower, upper))
  }

  /** The extra options of bot/bot.py `list_trade_ups`, normalised: ROI bounds as fractions
      and the sort column. */
  datatype Ranking = Ranking(roiMin: real, roiMax: real, sortBy: string)

  /** A ROI bound given in percent, as a fraction, or its default: a given bound, read back
      in percent, is the bound the user typed. */
  function RoiBound(percent: Option<real>, default: real): (b: real)
    ensures percent.Some? ==> b * 100.0 == percent.value
    ensures percent.None? ==> b == default
  {
    match percent
    case None => default
    case Some(p) => p / 100.0
  }

  /** The column a sort choice names: "profit" is stored as "profit_10"; no choice is left
      as "profit", and every other choice is kept. */
  function SortColumn(choice: string): (c: string)
    ensures c != "profit"
    ensures c == choice <==> choice != "profit"
  {
    if choice == "profit" then "profit_10" else choice
  }

  /** The normalisation of bot/bot.py `list_trade_ups`: the shared options as in src/bot.py
      (the ROI step has no error path, so its place in the order does not matter), then the
      ROI bounds and the sort column. */
  function NormaliseRanked(q: Query, roiMin: Option<real>, roiMax: Option<real>, sortBy: string): (r: Result<(Filters, Ranking)>)
    ensures r.Ok? <==> Normalise(q).Ok?
    ensures r.Err? ==> r.failure == Normalise(q).failure
    ensures r.Ok? ==> r.value.0 == Normalise(q).value
    ensures r.Ok? ==>
      var k := r.value.1;
      && (roiMin.None? ==> k.roiMin == 0.0)
      && (roiMin.Some? ==> k.roiMin * 100.0 == roiMin.value)
      && (roiMax.None? ==> k.roiMax == Unbounded)
      && (roiMax.Some? ==> k.roiMax * 100.0 == roiMax.value)
      && (sortBy == "profit" ==> k.sortBy == "profit_10")
      && (sortBy != "profit" ==> k.sortBy == sortBy)
  {
    match Normalise(q)
    case Err(e) => Err(e)
    case Ok(f) => Ok((f, Ranking(RoiBound(roiMin, 0.0), RoiBound(roiMax, Unbounded), SortColumn(sortBy))))
  }

  // ----------------------------------------------------------------- properties

  /** The weapon filter inverts the store's weapon table: each display name gives back its
      key, and each key its display name. */
  lemma WeaponFilterRoundTrip(k: int)
    requires 1 <= k <= 37
    ensures k in WeaponIntToStr && WeaponFilter(WeaponIntToStr[k]) == Ok(k)
  {
    WeaponKeysArePositions();
    WeaponNamesDistinct();
    IndexOfDistinct(WeaponNames, k - 1);
  }

  /** In a list without repeats, the first position of an element is its position. */
  lemma IndexOfDistinct(xs: seq<string>, i: nat)
    requires i < |xs|
    requires forall a, b :: 0 <= a < b < |xs| ==> xs[a] != xs[b]
    ensures IndexOf(xs, xs[i]) == Some(i)
  {
    var k := IndexOf(xs, xs[i]);
    assert k.Some?;
    assert !(k.value < i) && !(i < k.value);
  }

  lemma WeaponFilterNames(name: string)
    requires WeaponFilter(name).Ok?
    ensures WeaponFilter(name).value in WeaponIntToStr
    ensures WeaponIntToStr[WeaponFilter(name).value] == name
  {
    WeaponKeysArePositions();
  }

  /** The rarity filter inverts the stored rarity names, whatever their case. */
  lemma RarityFilterRoundTrip(i: int)
    requires 0 <= i <= 6
    ensures i in RarityIntToGameRarity && RarityFilter(RarityIntToGameRarity[i]) == Ok(i)
  {
    GameRarityRoundTrip(i);
  }

  lemma RarityFilterIgnoresCase(name: string)
    ensures RarityFilter(name) == RarityFilter(Lower(name))
  {
    LowerIdempotent(name);
  }

  /** The wear filter inverts the display names of the tiers. */
  lemma WearFilterRoundTrip(w: Wear)
    ensures WearFilter(WearName(w)) == Ok(WearValue(w))
  {
    WearTablesRoundTrip(w);
  }

  /** With no filter given the command stores the widest bounds. */
  lemma DefaultsAreWidest(minWear: real, maxWear: real)
    requires minWear <= maxWear
    ensures Normalise(Query(None, None, None, minWear, maxWear, None, None))
         == Ok(Filters(None, None, None, minWear, maxWear, 0.0, Unbounded))
  {
  }
}
