/** The classifier tables of the catalog: weapons, rarities and the five wear tiers, the
    case-insensitive name lookups, and the wear-range classifier `ValidWears`. */
module WeaponClassifiers {
  import opened Wrappers
  import opened Text

  // ---------------------------------------------------------------- weapons

  /** The members of `WeaponToInt`. */
  datatype Weapon =
    | P2000 | USPS | GLOCK | P250 | FIVESEVEN | TEC9 | CZ75 | DUALBERETTAS | DEAGLE | R8
    | NOVA | XM1014 | MAG7 | SAWEDOFF | MP9 | MAC10 | PPBIZON | MP7 | UMP45 | P90
    | MP5 | FAMAS | GALIL | M4A1 | M4A1S | AK47 | AUG | SG553 | SSG08 | AWP
    | SCAR20 | G3SG1 | M249 | NEGEV | MP5SD | ZEUS | KNIFE

  /** `WeaponToInt.X.value` */
  function WeaponValue(w: Weapon): (v: int)
    ensures 1 <= v <= 37
  {
    match w
    case P2000 => 1 case USPS => 2 case GLOCK => 3 case P250 => 4 case FIVESEVEN => 5
    case TEC9 => 6 case CZ75 => 7 case DUALBERETTAS => 8 case DEAGLE => 9 case R8 => 10
    case NOVA => 11 case XM1014 => 12 case MAG7 => 13 case SAWEDOFF => 14 case MP9 => 15
    case MAC10 => 16 case PPBIZON => 17 case MP7 => 18 case UMP45 => 19 case P90 => 20
    case MP5 => 21 case FAMAS => 22 case GALIL => 23 case M4A1 => 24 case M4A1S => 25
    case AK47 => 26 case AUG => 27 case SG553 => 28 case SSG08 => 29 case AWP => 30
    case SCAR20 => 31 case G3SG1 => 32 case M249 => 33 case NEGEV => 34 case MP5SD => 35
    case ZEUS => 36 case KNIFE => 37
  }

  /** `list(WeaponIntToStr.values())`: the display names in the dictionary's insertion order. */
  const WeaponNames: seq<string> := [
    "P2000", "USP-S", "Glock-18", "P250", "Five-SeveN", "Tec-9", "CZ75-Auto",
    "Dual Berettas", "Desert Eagle", "R8 Revolver", "Nova", "XM1014", "MAG-7", "Sawed-Off",
    "MP9", "MAC-10", "PP-Bizon", "MP7", "UMP-45", "P90", "MP5", "FAMAS", "Galil AR",
    "M4A4", "M4A1-S", "AK-47", "AUG", "SG 553", "SSG 08", "AWP", "SCAR-20", "G3SG1",
    "M249", "Negev", "MP5-SD", "ZEUS", "Knife"]

  /** `WeaponIntToStr`: key k, inserted k-th, holds the k-th display name. */
  const WeaponIntToStr: map<int, string> := map k | 1 <= k <= 37 :: WeaponNames[k - 1]

  /** The keys of `WeaponIntToStr` are exactly 1..37 and each key is one more than the
      position of its name in the value list. */
  lemma WeaponKeysArePositions()
    ensures |WeaponNames| == 37
    ensures forall k :: k in WeaponIntToStr <==> 1 <= k <= 37
    ensures forall k :: 1 <= k <= 37 ==> WeaponIntToStr[k] == WeaponNames[k - 1]
  {
  }

  /** No display name occurs twice, so a name determines its key. */
  lemma WeaponNamesDistinct()
    ensures forall i, j :: 0 <= i < j < |WeaponNames| ==> WeaponNames[i] != WeaponNames[j]
  {
    NamesDistinctFrom0();
    NamesDistinctFrom2();
    NamesDistinctFrom6();
    NamesDistinctFrom15();
  }

  // The distinctness proof, split by the position of the earlier name.
  lemma NamesDistinctFrom0()
    ensures forall i, j :: 0 <= i < 2 && i < j < |WeaponNames| ==> WeaponNames[i] != WeaponNames[j]
  {
  }

  lemma NamesDistinctFrom2()
    ensures forall i, j :: 2 <= i < 6 && i < j < |WeaponNames| ==> WeaponNames[i] != WeaponNames[j]
  {
  }

  lemma NamesDistinctFrom6()
    ensures forall i, j :: 6 <= i < 15 && i < j < |WeaponNames| ==> WeaponNames[i] != WeaponNames[j]
  {
  }

  lemma NamesDistinctFrom15()
    ensures forall i, j :: 15 <= i < |WeaponNames| && i < j < |WeaponNames| ==> WeaponNames[i] != WeaponNames[j]
  {
  }

  /** `str_to_weapon`: game-file weapon tokens to weapons. */
  const StrToWeapon: map<string, Weapon> := map[
    "tec9" := TEC9, "ssg08" := SSG08, "elite" := DUALBERETTAS, "galilar" := GALIL,
    "p90" := P90, "cz75a" := CZ75, "hkp2000" := P2000, "aug" := AUG, "bizon" := PPBIZON,
    "mac10" := MAC10, "xm1014" := XM1014, "m4a1_silencer" := M4A1S, "scar20" := SCAR20,
    "usp_silencer" := USPS, "ak47" := AK47, "m4a1" := M4A1, "mp7" := MP7, "sg556" := SG553,
    "glock" := GLOCK, "deagle" := DEAGLE, "awp" := AWP, "mag7" := MAG7, "famas" := FAMAS,
    "sawedoff" := SAWEDOFF, "p250" := P250, "nova" := NOVA, "ump45" := UMP45,
    "g3sg1" := G3SG1, "fiveseven" := FIVESEVEN, "mp9" := MP9, "m249" := M249,
    "negev" := NEGEV, "revolver" := R8, "mp5sd" := MP5SD, "taser" := ZEUS]

  /** `get_weapon`: look the lower-cased token up in `str_to_weapon`. */
  function GetWeapon(input: string): (r: Option<Weapon>)
    ensures r.Some? <==> Lower(input) in StrToWeapon
    ensures r.Some? ==> r.value == StrToWeapon[Lower(input)]
  {
    var key := Lower(input);
    if key in StrToWeapon then Some(StrToWeapon[key]) else None
  }

  /** The lookup ignores ASCII case: a token and its lower-cased form classify alike. */
  lemma GetWeaponIgnoresCase(input: string)
    ensures GetWeapon(input) == GetWeapon(Lower(input))
  {
    LowerIdempotent(input);
  }

  // ---------------------------------------------------------------- rarities

  /** The members of `RarityToInt`. */
  datatype Rarity = Common | Uncommon | Rare | Mythical | Legendary | Ancient | Immortal

  /** `RarityToInt.X.value` */
  function RarityValue(r: Rarity): (v: int)
    ensures 0 <= v <= 6
  {
    match r
    case Common => 0 case Uncommon => 1 case Rare => 2 case Mythical => 3
    case Legendary => 4 case Ancient => 5 case Immortal => 6
  }

  /** `str_to_rarity`: loot-list rarity tokens to rarities. */
  const StrToRarity: map<string, Rarity> := map[
    "common" := Common, "uncommon" := Uncommon, "rare" := Rare, "mythical" := Mythical,
    "legendary" := Legendary, "ancient" := Ancient, "immortal" := Immortal]

  /** `game_rarity_to_rarity`: lower-cased in-game rarity names to rarities. */
  const GameRarityToRarity: map<string, Rarity> := map[
    "consumer" := Common, "industrial" := Uncommon, "mil-spec" := Rare,
    "restricted" := Mythical, "classified" := Legendary, "covert" := Ancient,
    "exceedingly rare" := Immortal]

  /** `rarity_int_to_game_rarity`: rarity values to in-game rarity names. */
  const RarityIntToGameRarity: map<int, string> := map[
    0 := "Consumer", 1 := "Industrial", 2 := "Mil-Spec", 3 := "Restricted",
    4 := "Classified", 5 := "Covert", 6 := "Exceedingly Rare"]

  /** `get_rarity`: look the lower-cased token up in `str_to_rarity`. */
  function GetRarity(input: string): (r: Option<Rarity>)
    ensures r.Some? <==> Lower(input) in StrToRarity
    ensures r.Some? ==> r.value == StrToRarity[Lower(input)]
  {
    var key := Lower(input);
    if key in StrToRarity then Some(StrToRarity[key]) else None
  }

  /** The lookup ignores ASCII case. */
  lemma GetRarityIgnoresCase(input: string)
    ensures GetRarity(input) == GetRarity(Lower(input))
  {
    LowerIdempotent(input);
  }

  /** Naming a rarity value in the game's words and reading the lower-cased name back gives
      the same value, for every value 0..6. */
  lemma GameRarityRoundTrip(i: int)
    requires 0 <= i <= 6
    ensures i in RarityIntToGameRarity
    ensures Lower(RarityIntToGameRarity[i]) in GameRarityToRarity
    ensures RarityValue(GameRarityToRarity[Lower(RarityIntToGameRarity[i])]) == i
  {
    if i <= 3 { GameRarityRoundTripLow(i); } else { GameRarityRoundTripHigh(i); }
  }

  // The round trip, split into the lower and the upper half of the values.
  lemma GameRarityRoundTripLow(i: int)
    requires 0 <= i <= 3
    ensures i in RarityIntToGameRarity
    ensures Lower(RarityIntToGameRarity[i]) in GameRarityToRarity
    ensures RarityValue(GameRarityToRarity[Lower(RarityIntToGameRarity[i])]) == i
  {
    var name := RarityIntToGameRarity[i];
    if i == 0 { assert Lower(name) == "consumer"; }
    else if i == 1 { assert Lower(name) == "industrial"; }
    else if i == 2 { assert Lower(name) == "mil-spec"; }
    else { assert Lower(name) == "restricted"; }
  }

  lemma GameRarityRoundTripHigh(i: int)
    requires 4 <= i <= 6
    ensures i in RarityIntToGameRarity
    ensures Lower(RarityIntToGameRarity[i]) in GameRarityToRarity
    ensures RarityValue(GameRarityToRarity[Lower(RarityIntToGameRarity[i])]) == i
  {
    var name := RarityIntToGameRarity[i];
    if i == 4 { assert Lower(name) == "classified"; }
    else if i == 5 { assert Lower(name) == "covert"; }
    else { assert Lower(name) == "exceedingly rare"; }
  }

  // ---------------------------------------------------------------- wears

  /** The five wear tiers; a tier is a member of `WearsToInt`. */
  datatype Wear = FactoryNew | MinimalWear | FieldTested | WellWorn | BattleScarred

  /** `WearsToInt.X.value` */
  function WearValue(w: Wear): (v: int)
    ensures 0 <= v <= 4
  {
    match w
    case FactoryNew => 0 case MinimalWear => 1 case FieldTested => 2
    case WellWorn => 3 case BattleScarred => 4
  }

  /** `WearsToStr.X.value`, which `wear_int_enum_to_str_enum` attaches to each tier. */
  function WearName(w: Wear): string
  {
    match w
    case FactoryNew => "Factory New" case MinimalWear => "Minimal Wear"
    case FieldTested => "Field-Tested" case WellWorn => "Well-Worn"
    case BattleScarred => "Battle-Scarred"
  }

  /** `wear_int_to_enum`; a key outside 0..4 is missing. */
  function WearFromInt(i: int): (r: Option<Wear>)
    ensures r.Some? <==> 0 <= i <= 4
    ensures r.Some? ==> WearValue(r.value) == i
  {
    if i == 0 then Some(FactoryNew)
    else if i == 1 then Some(MinimalWear)
    else if i == 2 then Some(FieldTested)
    else if i == 3 then Some(WellWorn)
    else if i == 4 then Some(BattleScarred)
    else None
  }

  /** `str_to_wear`: display names to tiers. */
  const StrToWear: map<string, Wear> := map[
    "Factory New" := FactoryNew, "Minimal Wear" := MinimalWear,
    "Field-Tested" := FieldTested, "Well-Worn" := WellWorn,
    "Battle-Scarred" := BattleScarred]

  /** The wear tables invert each other: value to tier to value, and tier to name to tier. */
  lemma WearTablesRoundTrip(w: Wear)
    ensures WearFromInt(WearValue(w)) == Some(w)
    ensures WearName(w) in StrToWear && StrToWear[WearName(w)] == w
  {
  }

  /** The upper breakpoint of a tier. */
  function UpperBound(w: Wear): real
  {
    match w
    case FactoryNew => 0.07 case MinimalWear => 0.15 case FieldTested => 0.38
    case WellWorn => 0.45 case BattleScarred => 1.0
  }

  /** The breakpoint below a tier: the previous tier's upper bound, 0 for Factory New. */
  function LowerBound(w: Wear): real
  {
    match w
    case FactoryNew => 0.0 case MinimalWear => 0.07 case FieldTested => 0.15
    case WellWorn => 0.38 case BattleScarred => 0.45
  }

  /** A member of the list `get_valid_wears` returns: a `WearsToInt` member when `as_int`
      is set, a `WearsToStr` member otherwise; `tier` is its position either way. */
  datatype WearLabel = IntLabel(tier: Wear) | StrLabel(tier: Wear)

  function Label(w: Wear, asInt: bool): WearLabel
  {
    if asInt then IntLabel(w) else StrLabel(w)
  }

  /** `get_valid_wears`: five conditional appends, one per tier, in tier order. */
  function ValidWears(minWear: real, maxWear: real, asInt: bool): seq<WearLabel>
  {
    Labels(
      minWear < 0.07 || 0.07 >= maxWear,
      minWear < 0.15 && (maxWear >= 0.15 || 0.07 <= maxWear),
      minWear < 0.38 && (maxWear >= 0.38 || 0.15 <= maxWear),
      minWear < 0.45 && (maxWear >= 0.45 || 0.38 <= maxWear),
      minWear < 1.0 && (maxWear >= 1.0 || 0.45 <= maxWear), asInt)
  }

  /** The list built by appending each tier whose flag is set, in tier order. */
  function Labels(fn: bool, mw: bool, ft: bool, ww: bool, bs: bool, asInt: bool): seq<WearLabel>
  {
    Piece(fn, FactoryNew, asInt) + Piece(mw, MinimalWear, asInt) + Piece(ft, FieldTested, asInt)
    + Piece(ww, WellWorn, asInt) + Piece(bs, BattleScarred, asInt)
  }

  /** The tier positions of a list of labels. */
  function Tiers(labels: seq<WearLabel>): (ts: seq<Wear>)
    ensures |ts| == |labels|
    ensures forall i :: 0 <= i < |labels| ==> ts[i] == labels[i].tier
  {
    seq(|labels|, i requires 0 <= i < |labels| => labels[i].tier)
  }

  /** The inclusion rule of one tier, with `max >= ub || lb <= max` collapsed to `max >= lb`:
      Factory New needs `min < 0.07` or `max <= 0.07`; every later tier needs `min` below
      its upper bound and `max` at or above the previous bound. */
  predicate Reaches(w: Wear, minWear: real, maxWear: real)
  {
    if w == FactoryNew then minWear < 0.07 || maxWear <= 0.07
    else minWear < UpperBound(w) && maxWear >= LowerBound(w)
  }

  /** The tiers of five optional appends, one flag per tier. */
  function Pieces(fn: bool, mw: bool, ft: bool, ww: bool, bs: bool): seq<Wear>
  {
    (if fn then [FactoryNew] else []) + (if mw then [MinimalWear] else [])
    + (if ft then [FieldTested] else []) + (if ww then [WellWorn] else [])
    + (if bs then [BattleScarred] else [])
  }

  /** A tier is among the pieces exactly when its own flag is set. */
  lemma PiecesMembers(fn: bool, mw: bool, ft: bool, ww: bool, bs: bool, w: Wear)
    ensures w in Pieces(fn, mw, ft, ww, bs) <==>
      match w
      case FactoryNew => fn case MinimalWear => mw case FieldTested => ft
      case WellWorn => ww case BattleScarred => bs
  {
    var a, b, c, d, e := (if fn then [FactoryNew] else []), (if mw then [MinimalWear] else []),
      (if ft then [FieldTested] else []), (if ww then [WellWorn] else []),
      (if bs then [BattleScarred] else []);
    assert Pieces(fn, mw, ft, ww, bs) == a + b + c + d + e;
    assert w in a + b + c + d + e <==> w in a || w in b || w in c || w in d || w in e;
  }

  /** The tiers `get_valid_wears` selects, one condition per tier as the source writes it. */
  lemma TiersOfValidWears(minWear: real, maxWear: real, asInt: bool)
    ensures Tiers(ValidWears(minWear, maxWear, asInt)) == Pieces(
      minWear < 0.07 || 0.07 >= maxWear,
      minWear < 0.15 && (maxWear >= 0.15 || 0.07 <= maxWear),
      minWear < 0.38 && (maxWear >= 0.38 || 0.15 <= maxWear),
      minWear < 0.45 && (maxWear >= 0.45 || 0.38 <= maxWear),
      minWear < 1.0 && (maxWear >= 1.0 || 0.45 <= maxWear))
  {
    LabelsTiers(
      minWear < 0.07 || 0.07 >= maxWear,
      minWear < 0.15 && (maxWear >= 0.15 || 0.07 <= maxWear),
      minWear < 0.38 && (maxWear >= 0.38 || 0.15 <= maxWear),
      minWear < 0.45 && (maxWear >= 0.45 || 0.38 <= maxWear),
      minWear < 1.0 && (maxWear >= 1.0 || 0.45 <= maxWear), asInt);
  }

  /** The tiers of the labels are the pieces of the same flags. */
  lemma LabelsTiers(fn: bool, mw: bool, ft: bool, ww: bool, bs: bool, asInt: bool)
    ensures Tiers(Labels(fn, mw, ft, ww, bs, asInt)) == Pieces(fn, mw, ft, ww, bs)
  {
    var a, b, c := Piece(fn, FactoryNew, asInt), Piece(mw, MinimalWear, asInt), Piece(ft, FieldTested, asInt);
    var d, e := Piece(ww, WellWorn, asInt), Piece(bs, BattleScarred, asInt);
    PieceTiers(fn, FactoryNew, asInt);
    PieceTiers(mw, MinimalWear, asInt);
    PieceTiers(ft, FieldTested, asInt);
    PieceTiers(ww, WellWorn, asInt);
    PieceTiers(bs, BattleScarred, asInt);
    TiersAppend(a, b);
    TiersAppend(a + b, c);
    TiersAppend(a + b + c, d);
    TiersAppend(a + b + c + d, e);
  }

  /** One conditional append: the tier's label when its flag is set, nothing otherwise. */
  function Piece(flag: bool, w: Wear, asInt: bool): seq<WearLabel>
  {
    if flag then [Label(w, asInt)] else []
  }

  /** A piece holds its tier exactly when its flag is set, in the asked-for representation. */
  lemma PieceTiers(flag: bool, w: Wear, asInt: bool)
    ensures Tiers(Piece(flag, w, asInt)) == if flag then [w] else []
    ensures Labelled(Piece(flag, w, asInt), asInt)
  {
  }

  /** Tiers distribute over concatenation. */
  lemma TiersAppend(a: seq<WearLabel>, b: seq<WearLabel>)
    ensures Tiers(a + b) == Tiers(a) + Tiers(b)
  {
  }

  /** A tier is listed exactly when its inclusion rule holds. */
  lemma ValidWearsMembers(minWear: real, maxWear: real, asInt: bool, w: Wear)
    ensures w in Tiers(ValidWears(minWear, maxWear, asInt)) <==> Reaches(w, minWear, maxWear)
  {
    TiersOfValidWears(minWear, maxWear, asInt);
    PiecesMembers(
      minWear < 0.07 || 0.07 >= maxWear,
      minWear < 0.15 && (maxWear >= 0.15 || 0.07 <= maxWear),
      minWear < 0.38 && (maxWear >= 0.38 || 0.15 <= maxWear),
      minWear < 0.45 && (maxWear >= 0.45 || 0.38 <= maxWear),
      minWear < 1.0 && (maxWear >= 1.0 || 0.45 <= maxWear), w);
  }

  /** Tiers come in the fixed order Factory New .. Battle-Scarred, each at most once, and
      every label has the representation `as_int` asks for. */
  lemma ValidWearsOrdered(minWear: real, maxWear: real, asInt: bool)
    ensures var ls := ValidWears(minWear, maxWear, asInt);
      && (forall i, j :: 0 <= i < j < |ls| ==> WearValue(ls[i].tier) < WearValue(ls[j].tier))
      && (forall i :: 0 <= i < |ls| ==> ls[i] == Label(ls[i].tier, asInt))
  {
    var ls := ValidWears(minWear, maxWear, asInt);
    ValidWearsContiguous(minWear, maxWear, asInt);
    forall i, j | 0 <= i < j < |ls|
      ensures WearValue(ls[i].tier) < WearValue(ls[j].tier)
    {
      RunValues(Tiers(ls), i, j);
    }
    LabelsForm(
      minWear < 0.07 || 0.07 >= maxWear,
      minWear < 0.15 && (maxWear >= 0.15 || 0.07 <= maxWear),
      minWear < 0.38 && (maxWear >= 0.38 || 0.15 <= maxWear),
      minWear < 0.45 && (maxWear >= 0.45 || 0.38 <= maxWear),
      minWear < 1.0 && (maxWear >= 1.0 || 0.45 <= maxWear), asInt);
  }

  /** Every label built from flags has the asked-for representation. */
  lemma LabelsForm(fn: bool, mw: bool, ft: bool, ww: bool, bs: bool, asInt: bool)
    ensures Labelled(Labels(fn, mw, ft, ww, bs, asInt), asInt)
  {
    var a, b, c := Piece(fn, FactoryNew, asInt), Piece(mw, MinimalWear, asInt), Piece(ft, FieldTested, asInt);
    var d, e := Piece(ww, WellWorn, asInt), Piece(bs, BattleScarred, asInt);
    PieceTiers(fn, FactoryNew, asInt);
    PieceTiers(mw, MinimalWear, asInt);
    PieceTiers(ft, FieldTested, asInt);
    PieceTiers(ww, WellWorn, asInt);
    PieceTiers(bs, BattleScarred, asInt);
    LabelledAppend(a, b, asInt);
    LabelledAppend(a + b, c, asInt);
    LabelledAppend(a + b + c, d, asInt);
    LabelledAppend(a + b + c + d, e, asInt);
  }

  /** Every label in the list has the representation `asInt` selects. */
  predicate Labelled(ls: seq<WearLabel>, asInt: bool)
  {
    forall i :: 0 <= i < |ls| ==> ls[i] == Label(ls[i].tier, asInt)
  }

  lemma LabelledAppend(a: seq<WearLabel>, b: seq<WearLabel>, asInt: bool)
    requires Labelled(a, asInt) && Labelled(b, asInt)
    ensures Labelled(a + b, asInt)
  {
  }

  /** Each tier in the list is one past the previous one. */
  predicate Adjacent(ts: seq<Wear>)
  {
    forall k :: 0 <= k < |ts| - 1 ==> WearValue(ts[k + 1]) == WearValue(ts[k]) + 1
  }

  /** In an adjacent run, positions and values move together. */
  lemma {:induction false} RunValues(ts: seq<Wear>, i: nat, j: nat)
    requires Adjacent(ts) && i <= j < |ts|
    ensures WearValue(ts[j]) == WearValue(ts[i]) + (j - i)
    decreases j - i
  {
    if i < j {
      RunValues(ts, i, j - 1);
    }
  }

  /** No tier is skipped between two selected ones. */
  predicate Gapless(fn: bool, mw: bool, ft: bool, ww: bool, bs: bool)
  {
    && (fn && ft ==> mw) && (fn && ww ==> mw && ft) && (fn && bs ==> mw && ft && ww)
    && (mw && ww ==> ft) && (mw && bs ==> ft && ww) && (ft && bs ==> ww)
  }

  /** Gapless flags select an adjacent run of tiers. */
  lemma PiecesAdjacent(fn: bool, mw: bool, ft: bool, ww: bool, bs: bool)
    requires Gapless(fn, mw, ft, ww, bs)
    ensures Adjacent(Pieces(fn, mw, ft, ww, bs))
  {
  }

  /** `as_int` changes only the representation: the same tiers are selected either way. */
  lemma ValidWearsRepresentation(minWear: real, maxWear: real)
    ensures Tiers(ValidWears(minWear, maxWear, true)) == Tiers(ValidWears(minWear, maxWear, false))
  {
    TiersOfValidWears(minWear, maxWear, true);
    TiersOfValidWears(minWear, maxWear, false);
  }

  /** The tiers form one contiguous run (for every range, ordered or not). */
  lemma ValidWearsContiguous(minWear: real, maxWear: real, asInt: bool)
    ensures var ls := ValidWears(minWear, maxWear, asInt);
      forall i :: 0 <= i < |ls| - 1 ==> WearValue(ls[i + 1].tier) == WearValue(ls[i].tier) + 1
  {
    var fn := minWear < 0.07 || 0.07 >= maxWear;
    var mw := minWear < 0.15 && (maxWear >= 0.15 || 0.07 <= maxWear);
    var ft := minWear < 0.38 && (maxWear >= 0.38 || 0.15 <= maxWear);
    var ww := minWear < 0.45 && (maxWear >= 0.45 || 0.38 <= maxWear);
    var bs := minWear < 1.0 && (maxWear >= 1.0 || 0.45 <= maxWear);
    assert Gapless(fn, mw, ft, ww, bs);
    TiersOfValidWears(minWear, maxWear, asInt);
    PiecesAdjacent(fn, mw, ft, ww, bs);
  }

  /** An ordered range that starts below 1 reaches at least one tier. */
  lemma ValidWearsNonEmpty(minWear: real, maxWear: real, asInt: bool)
    requires minWear <= maxWear && minWear < 1.0
    ensures |ValidWears(minWear, maxWear, asInt)| > 0
  {
  }

  /** The full range [0, 1] reaches all five tiers. */
  lemma FullRangeReachesAll(asInt: bool)
    ensures Tiers(ValidWears(0.0, 1.0, asInt))
         == [FactoryNew, MinimalWear, FieldTested, WellWorn, BattleScarred]
  {
  }

  /** The tier a single wear value falls in: the last tier whose lower breakpoint it reaches. */
  function TierOf(x: real): (w: Wear)
    ensures x >= 0.0 && w != BattleScarred ==> LowerBound(w) <= x < UpperBound(w)
    ensures w == BattleScarred <==> x >= 0.45
  {
    if x >= 0.45 then BattleScarred
    else if x >= 0.38 then WellWorn
    else if x >= 0.15 then FieldTested
    else if x >= 0.07 then MinimalWear
    else FactoryNew
  }

  /** `get_valid_wears(0, x)[-1]`, used to name the tier of a maximum wear, is the tier
      `x` falls in. */
  lemma LastTierFromZero(x: real, asInt: bool)
    ensures var ls := ValidWears(0.0, x, asInt);
      |ls| > 0 && ls[|ls| - 1].tier == TierOf(x)
  {
  }
}
