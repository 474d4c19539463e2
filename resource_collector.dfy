/** The catalog builder (src/resource_collector.py) over already-parsed game files: paint
    kits to names and wear ranges, the names' encoding repairs, the skins of each item set,
    rarities from the loot lists and the manual overrides, and the per-crate rarity counts.
    The game files arrive as values; the store's tables are sequences passed in and out. */
module ResourceCollector {
  import opened Wrappers
  import opened Text
  import opened Records
  import opened WeaponClassifiers
  import Store

  // ----------------------------------------------------------------- paint kits

  /** The fields of one `paint_kits` entry the collector reads; a missing field is None. */
  datatype PaintKit = PaintKit(name: Option<string>, descriptionTag: Option<string>,
                               wearRemapMin: Option<real>, wearRemapMax: Option<real>)

  /** What `items_by_name` holds for a kit: its display name and wear range. */
  datatype KitInfo = KitInfo(displayName: string, minWear: real, maxWear: real)

  /** The wear range of a kit: a missing bound is 0 below and 1 above. */
  function WearRange(kit: PaintKit): (range: (real, real))
    ensures kit.wearRemapMin.None? ==> range.0 == 0.0
    ensures kit.wearRemapMin.Some? ==> range.0 == kit.wearRemapMin.value
    ensures kit.wearRemapMax.None? ==> range.1 == 1.0
    ensures kit.wearRemapMax.Some? ==> range.1 == kit.wearRemapMax.value
  {
    (kit.wearRemapMin.GetOr(0.0), kit.wearRemapMax.GetOr(1.0))
  }

  /** A kit without wear bounds can be traded up into every tier. */
  lemma DefaultRangeReachesAll(kit: PaintKit, asInt: bool)
    requires kit.wearRemapMin.None? && kit.wearRemapMax.None?
    ensures Tiers(ValidWears(WearRange(kit).0, WearRange(kit).1, asInt))
         == [FactoryNew, MinimalWear, FieldTested, WellWorn, BattleScarred]
  {
    FullRangeReachesAll(asInt);
  }

  /** The translation key of a description tag: lower-cased, without `#`. */
  function TranslationKey(tag: string): (key: string)
    ensures '#' !in key
  {
    var k := ReplaceAll(Lower(tag), "#", "");
    RemovedCharAbsent(Lower(tag), '#');
    k
  }

  lemma {:induction false} RemovedCharAbsent(s: string, c: char)
    ensures c !in ReplaceAll(s, [c], "")
    decreases |s|
  {
    if |s| >= 1 {
      RemovedCharAbsent(s[1..], c);
    }
  }

  /** The `items_by_name` entry of one kit, or None where the collector's KeyError handler
      skips it: no name, no description tag, or no translation for the tag. */
  function KitEntry(kit: PaintKit, tokens: map<string, string>): (e: Option<(string, KitInfo)>)
    ensures e.None? <==> kit.name.None? || kit.descriptionTag.None?
                         || TranslationKey(kit.descriptionTag.value) !in tokens
    ensures e.Some? ==>
      && e.value.0 == Lower(kit.name.value)
      && e.value.1 == KitInfo(tokens[TranslationKey(kit.descriptionTag.value)], WearRange(kit).0, WearRange(kit).1)
  {
    if kit.name.None? || kit.descriptionTag.None? then None
    else
      var key := TranslationKey(kit.descriptionTag.value);
      if key !in tokens then None
      else
        var range := WearRange(kit);
        Some((Lower(kit.name.value), KitInfo(tokens[key], range.0, range.1)))
  }

  /** `items_by_name` after the kit loop: each accepted kit stored under its lower-cased
      name, a later kit replacing an earlier one of the same name. */
  function ItemsByName(kits: seq<PaintKit>, tokens: map<string, string>): map<string, KitInfo>
  {
    if kits == [] then map[]
    else
      var before := ItemsByName(kits[..|kits| - 1], tokens);
      match KitEntry(kits[|kits| - 1], tokens)
      case None => before
      case Some(e) => before[e.0 := e.1]
  }

  /** The kit loop of `collect_skins`. */
  method CollectKits(kits: seq<PaintKit>, tokens: map<string, string>) returns (items: map<string, KitInfo>)
    ensures items == ItemsByName(kits, tokens)
  {
    items := map[];
    for i := 0 to |kits|
      invariant items == ItemsByName(kits[..i], tokens)
    {
      assert kits[..i + 1][..i] == kits[..i];
      var kit := kits[i];
      if kit.name.Some? && kit.descriptionTag.Some? {
        var key := TranslationKey(kit.descriptionTag.value);
        if key in tokens {
          var range := WearRange(kit);
          items := items[Lower(kit.name.value) := KitInfo(tokens[key], range.0, range.1)];
        }
      }
    }
    assert kits[..|kits|] == kits;
  }

  /** A name is in `items_by_name` exactly when some accepted kit has it, and it holds the
      entry of the last such kit. */
  lemma {:induction false} ItemsByNameLastWins(kits: seq<PaintKit>, tokens: map<string, string>, name: string)
    ensures name in ItemsByName(kits, tokens)
        <==> exists i :: 0 <= i < |kits| && KitEntry(kits[i], tokens).Some? && KitEntry(kits[i], tokens).value.0 == name
    ensures forall i :: 0 <= i < |kits| && KitEntry(kits[i], tokens).Some? && KitEntry(kits[i], tokens).value.0 == name
                        && (forall j :: i < j < |kits| && KitEntry(kits[j], tokens).Some? ==> KitEntry(kits[j], tokens).value.0 != name)
                        ==> ItemsByName(kits, tokens)[name] == KitEntry(kits[i], tokens).value.1
  {
    if kits != [] {
      var prefix := kits[..|kits| - 1];
      ItemsByNameLastWins(prefix, tokens, name);
      assert forall i :: 0 <= i < |prefix| ==> prefix[i] == kits[i];
    }
  }

  // ----------------------------------------------------------------- names

  /** The badly decoded sequences found in translated names, each with its repair, applied
      in this order. */
  const Mojibake: seq<(string, string)> := [
    ("\U{c3}\U{b6}", "\U{f6}"),
    ("\U{e9}\U{be}\U{e7}\U{17d}\U{2039}", "\U{9f8d}\U{738b}"),
    ("\U{e5}\U{a3}\U{b1}", "\U{58f1}"),
    ("\U{e5}\U{bc}", "\U{5f10}")]

  predicate Patterns(pairs: seq<(string, string)>)
  {
    forall i :: 0 <= i < |pairs| ==> |pairs[i].0| > 0
  }

  /** Each pair in turn replaces all its occurrences. */
  function ApplyReplacements(name: string, pairs: seq<(string, string)>): string
    requires Patterns(pairs)
    decreases |pairs|
  {
    if pairs == [] then name
    else ApplyReplacements(ReplaceAll(name, pairs[0].0, pairs[0].1), pairs[1..])
  }

  /** The replacement loop of `collect_skins`. */
  method FixMojibake(name: string) returns (fixed: string)
    ensures fixed == ApplyReplacements(name, Mojibake)
  {
    fixed := name;
    for i := 0 to |Mojibake|
      invariant ApplyReplacements(fixed, Mojibake[i..]) == ApplyReplacements(name, Mojibake)
    {
      assert Mojibake[i..][1..] == Mojibake[i + 1..];
      fixed := ReplaceAll(fixed, Mojibake[i].0, Mojibake[i].1);
    }
  }

  /** A name holding none of the patterns (nor any a repair could produce) comes back as
      it is. */
  lemma {:induction false} CleanNameUnchanged(name: string, pairs: seq<(string, string)>)
    requires Patterns(pairs)
    requires forall i :: 0 <= i < |pairs| ==> !Contains(name, pairs[i].0)
    ensures ApplyReplacements(name, pairs) == name
  {
    if pairs != [] {
      ReplaceAbsent(name, pairs[0].0, pairs[0].1);
      CleanNameUnchanged(name, pairs[1..]);
    }
  }

  /** The first badly decoded sequence on its own becomes the letter it stands for, and no
      later pair touches that letter. */
  lemma RepairsUmlaut()
    ensures ApplyReplacements(Mojibake[0].0, Mojibake) == "\U{f6}"
  {
    var fixed := "\U{f6}";
    var p := Mojibake[0].0;
    assert p[..|p|] == p && p[|p|..] == [];
    assert ReplaceAll(p, p, Mojibake[0].1) == fixed;
    var rest := Mojibake[1..];
    forall i | 0 <= i < |rest|
      ensures !Contains(fixed, rest[i].0)
    {
      assert |rest[i].0| >= 2;
    }
    CleanNameUnchanged(fixed, rest);
  }

  // ----------------------------------------------------------------- skins of a set

  /** An `item_sets` id as the crates table stores it: lower-cased, without `#`. */
  function CleanSetId(setId: string): (id: string)
    ensures '#' !in id
  {
    TranslationKey(setId)
  }

  /** One item of a set: its key and, when the key has the `[kit]weapon_token` shape, the
      two captured parts. */
  datatype SetItem = SetItem(key: string, groups: Option<(string, string)>)

  /** The row `add_skin` inserts: no rarity yet (-1). */
  datatype NewSkin = NewSkin(skinId: string, skinTag: string, skinName: string, weaponType: int,
                             rarity: int, minWear: real, maxWear: real, crateId: int)

  const Unassigned: int := -1

  /** The skin row for one item of a set stored as crate `crateId`: AttributeError when the
      key does not match, KeyError for an unknown weapon token or kit name. */
  function SkinFor(item: SetItem, items: map<string, KitInfo>, crateId: int): (r: Result<NewSkin>)
    ensures r.Ok? <==> item.groups.Some? && item.groups.value.1 in StrToWeapon && item.groups.value.0 in items
    ensures r.Ok? ==>
      var info := items[item.groups.value.0];
      r.value == NewSkin(item.key, item.groups.value.0, ApplyReplacements(info.displayName, Mojibake),
                         WeaponValue(StrToWeapon[item.groups.value.1]), Unassigned, info.minWear, info.maxWear, crateId)
  {
    match item.groups
    case None => Err(NoneAttribute)
    case Some((kitName, token)) =>
      if token !in StrToWeapon then Err(KeyNotFound)
      else if kitName !in items then Err(KeyNotFound)
      else
        var info := items[kitName];
        Ok(NewSkin(item.key, kitName, ApplyReplacements(info.displayName, Mojibake),
                   WeaponValue(StrToWeapon[token]), Unassigned, info.minWear, info.maxWear, crateId))
  }

  /** The rows added for one set: none when no crate has the set's id, otherwise one per item
      in order, or the first item's error. */
  function SetSkins(setId: string, setItems: seq<SetItem>, items: map<string, KitInfo>,
                    crateBySet: map<string, int>): (r: Result<seq<NewSkin>>)
    ensures CleanSetId(setId) !in crateBySet ==> r == Ok([])
    ensures r.Ok? && CleanSetId(setId) in crateBySet ==> |r.value| == |setItems|
    decreases |setItems|
  {
    var id := CleanSetId(setId);
    if id !in crateBySet || setItems == [] then Ok([])
    else
      match SetSkins(setId, setItems[..|setItems| - 1], items, crateBySet)
      case Err(f) => Err(f)
      case Ok(rows) =>
        match SkinFor(setItems[|setItems| - 1], items, crateBySet[id])
        case Err(f) => Err(f)
        case Ok(row) => Ok(rows + [row])
  }

  /** The item loop of `collect_skins` for one set. */
  method CollectSet(setId: string, setItems: seq<SetItem>, items: map<string, KitInfo>,
                    crateBySet: map<string, int>) returns (r: Result<seq<NewSkin>>)
    ensures r == SetSkins(setId, setItems, items, crateBySet)
  {
    var id := CleanSetId(setId);
    if id !in crateBySet {
      return Ok([]);
    }
    var crate := crateBySet[id];
    var rows: seq<NewSkin> := [];
    for i := 0 to |setItems|
      invariant SetSkins(setId, setItems[..i], items, crateBySet) == Ok(rows)
    {
      assert setItems[..i + 1][..i] == setItems[..i];
      var row := SkinFor(setItems[i], items, crate);
      if row.Err? {
        SetErrorPersists(setId, setItems, items, crateBySet, i + 1, row.failure);
        return Err(row.failure);
      }
      rows := rows + [row.value];
    }
    assert setItems[..|setItems|] == setItems;
    r := Ok(rows);
  }

  lemma {:induction false} SetErrorPersists(setId: string, setItems: seq<SetItem>, items: map<string, KitInfo>,
                                            crateBySet: map<string, int>, n: nat, f: Failure)
    requires n <= |setItems|
    requires SetSkins(setId, setItems[..n], items, crateBySet) == Err(f)
    ensures SetSkins(setId, setItems, items, crateBySet) == Err(f)
    decreases |setItems| - n
  {
    if n == |setItems| {
      assert setItems[..n] == setItems;
    } else {
      assert setItems[..n + 1][..n] == setItems[..n];
      SetErrorPersists(setId, setItems, items, crateBySet, n + 1, f);
    }
  }

  /** Item `i` is the first item of the set whose row fails, and it fails with `f`. */
  predicate FirstFailure(setItems: seq<SetItem>, items: map<string, KitInfo>, crateId: int, i: int, f: Failure)
  {
    && 0 <= i < |setItems|
    && SkinFor(setItems[i], items, crateId) == Err(f)
    && forall k :: 0 <= k < i ==> SkinFor(setItems[k], items, crateId).Ok?
  }

  /** For a set with a crate the rows fail exactly when some item fails, and then with the
      error of the first item that fails. */
  lemma {:induction false} SetSkinsFirstError(setId: string, setItems: seq<SetItem>, items: map<string, KitInfo>,
                                              crateBySet: map<string, int>)
    ensures CleanSetId(setId) in crateBySet ==>
      var crateId := crateBySet[CleanSetId(setId)];
      var r := SetSkins(setId, setItems, items, crateBySet);
      && (r.Err? <==> exists i :: 0 <= i < |setItems| && SkinFor(setItems[i], items, crateId).Err?)
      && (r.Err? ==> exists i :: FirstFailure(setItems, items, crateId, i, r.failure))
    decreases |setItems|
  {
    if CleanSetId(setId) in crateBySet && setItems != [] {
      var crateId := crateBySet[CleanSetId(setId)];
      var n := |setItems| - 1;
      var prefix := setItems[..n];
      SetSkinsFirstError(setId, prefix, items, crateBySet);
      SetSkinsStep(setId, setItems, items, crateBySet);
      assert forall k :: 0 <= k < n ==> prefix[k] == setItems[k];
      var rp := SetSkins(setId, prefix, items, crateBySet);
      if rp.Err? {
        var i :| FirstFailure(prefix, items, crateId, i, rp.failure);
        assert FirstFailure(setItems, items, crateId, i, rp.failure);
      } else {
        assert forall k :: 0 <= k < n ==> SkinFor(setItems[k], items, crateId).Ok?;
        var last := SkinFor(setItems[n], items, crateId);
        if last.Err? {
          assert FirstFailure(setItems, items, crateId, n, last.failure);
        }
      }
    }
  }

  /** One more item of a set with a crate: the earlier error, else this item's error, else
      one more row. */
  lemma SetSkinsStep(setId: string, setItems: seq<SetItem>, items: map<string, KitInfo>,
                     crateBySet: map<string, int>)
    requires CleanSetId(setId) in crateBySet && setItems != []
    ensures var rp := SetSkins(setId, setItems[..|setItems| - 1], items, crateBySet);
      var last := SkinFor(setItems[|setItems| - 1], items, crateBySet[CleanSetId(setId)]);
      SetSkins(setId, setItems, items, crateBySet)
        == if rp.Err? then Err(rp.failure) else if last.Err? then Err(last.failure) else Ok(rp.value + [last.value])
  {
  }

  /** Every added row belongs to the set's crate, has no rarity yet, and carries the kit's
      wear range; the i-th row is made from the i-th item. */
  lemma {:induction false} SetSkinsRows(setId: string, setItems: seq<SetItem>, items: map<string, KitInfo>,
                                        crateBySet: map<string, int>)
    requires SetSkins(setId, setItems, items, crateBySet).Ok? && CleanSetId(setId) in crateBySet
    ensures var rows := SetSkins(setId, setItems, items, crateBySet).value;
      forall i :: 0 <= i < |rows| ==>
        && SkinFor(setItems[i], items, crateBySet[CleanSetId(setId)]) == Ok(rows[i])
        && rows[i].crateId == crateBySet[CleanSetId(setId)] && rows[i].rarity == Unassigned
        && rows[i].skinId == setItems[i].key
    decreases |setItems|
  {
    if setItems != [] {
      var prefix := setItems[..|setItems| - 1];
      SetSkinsRows(setId, prefix, items, crateBySet);
    }
  }

  // ----------------------------------------------------------------- loot lists

  /** A `client_loot_lists` key split at `_`: the last part read as a rarity and the rest
      joined back as the set name; None when the last part names no rarity. */
  function ParseLootKey(key: string): Option<(string, Rarity)>
  {
    var parts := Split(key, '_');
    var rarity := GetRarity(parts[|parts| - 1]);
    if rarity.None? then None
    else Some((Join(parts[..|parts| - 1], '_'), rarity.value))
  }

  /** A key either has no `_` and is a rarity name alone (the set name is empty), or is the
      set name, one `_`, and a rarity name without `_`. */
  lemma LootKeyShape(key: string)
    requires ParseLootKey(key).Some?
    ensures var (setName, rarity) := ParseLootKey(key).value;
      || (setName == "" && '_' !in key && GetRarity(key) == Some(rarity))
      || (exists token :: key == setName + "_" + token && '_' !in token && GetRarity(token) == Some(rarity))
  {
    var parts := Split(key, '_');
    JoinSplit(key, '_');
    var token := parts[|parts| - 1];
    if |parts| >= 2 {
      JoinSnoc(parts, '_');
      assert key == Join(parts[..|parts| - 1], '_') + "_" + token;
    } else {
      assert key == token;
    }
  }

  /** A rarity name with no separator, put after a set name, parses back to both. */
  lemma LootKeyRoundTrip(setName: string, token: string)
    requires '_' !in token && GetRarity(token).Some?
    ensures ParseLootKey(setName + "_" + token) == Some((setName, GetRarity(token).value))
  {
    SplitAppend(setName, token, '_');
    var parts := Split(setName, '_') + [token];
    assert parts[..|parts| - 1] == Split(setName, '_');
    JoinSplit(setName, '_');
  }

  /** Splitting `s + [sep] + t`, where `t` holds no separator, splits `s` and adds `t`. */
  lemma {:induction false} SplitAppend(s: string, t: string, sep: char)
    requires sep !in t
    ensures Split(s + [sep] + t, sep) == Split(s, sep) + [t]
    decreases |s|
  {
    if |s| == 0 {
      assert s + [sep] + t == [sep] + t;
      SplitNoSep(t, sep);
      assert ([sep] + t)[1..] == t;
    } else {
      SplitAppend(s[1..], t, sep);
      assert (s + [sep] + t)[1..] == s[1..] + [sep] + t;
    }
  }

  lemma {:induction false} SplitNoSep(t: string, sep: char)
    requires sep !in t
    ensures Split(t, sep) == [t]
    decreases |t|
  {
    if |t| > 0 {
      SplitNoSep(t[1..], sep);
      assert t == [t[0]] + t[1..];
    }
  }

  /** The set id a loot list's set name is looked up by. */
  function SetLookupKey(setName: string): string
  {
    Lower(ReplaceAll(setName, "crate", "set"))
  }

  /** A loot list: its key and the skin ids it names. */
  datatype LootList = LootList(key: string, skinIds: seq<string>)

  /** The rarity a loot list assigns, or None when it is skipped: its key names no rarity,
      or no crate holds the set it names. */
  function ListRarity(list: LootList, crateBySet: map<string, int>): (r: Option<Rarity>)
    ensures r.Some? <==> ParseLootKey(list.key).Some? && SetLookupKey(ParseLootKey(list.key).value.0) in crateBySet
    ensures r.Some? ==> r == Some(ParseLootKey(list.key).value.1)
  {
    match ParseLootKey(list.key)
    case None => None
    case Some((setName, rarity)) => if SetLookupKey(setName) in crateBySet then Some(rarity) else None
  }

  /** `update_skin_rarity`: every row with the skin id gets the new rarity. */
  function SetRarity(table: seq<Skin>, skinId: string, rarity: int): (t: seq<Skin>)
    ensures |t| == |table|
    ensures forall i :: 0 <= i < |t| ==> t[i] == if table[i].skinId == skinId then table[i].(rarity := rarity) else table[i]
  {
    seq(|table|, i requires 0 <= i < |table| => if table[i].skinId == skinId then table[i].(rarity := rarity) else table[i])
  }

  /** The rows after updating each listed id in turn. */
  function AssignIds(table: seq<Skin>, ids: seq<string>, rarity: int): (t: seq<Skin>)
    ensures |t| == |table|
  {
    if ids == [] then table else SetRarity(AssignIds(table, ids[..|ids| - 1], rarity), ids[|ids| - 1], rarity)
  }

  /** The rows after the loot-list loop of `collect_rarities`. */
  function LootRarities(table: seq<Skin>, lists: seq<LootList>, crateBySet: map<string, int>): (t: seq<Skin>)
    ensures |t| == |table|
  {
    if lists == [] then table
    else
      var before := LootRarities(table, lists[..|lists| - 1], crateBySet);
      match ListRarity(lists[|lists| - 1], crateBySet)
      case None => before
      case Some(r) => AssignIds(before, lists[|lists| - 1].skinIds, RarityValue(r))
  }

  /** The loot-list loop of `collect_rarities`. */
  method AssignLootRarities(table: seq<Skin>, lists: seq<LootList>, crateBySet: map<string, int>) returns (out: seq<Skin>)
    ensures out == LootRarities(table, lists, crateBySet)
  {
    out := table;
    for i := 0 to |lists|
      invariant out == LootRarities(table, lists[..i], crateBySet)
    {
      assert lists[..i + 1][..i] == lists[..i];
      var rarity := ListRarity(lists[i], crateBySet);
      if rarity.Some? {
        ghost var before := out;
        var ids := lists[i].skinIds;
        for k := 0 to |ids|
          invariant out == AssignIds(before, ids[..k], RarityValue(rarity.value))
        {
          assert ids[..k + 1][..k] == ids[..k];
          out := SetRarity(out, ids[k], RarityValue(rarity.value));
        }
        assert ids[..|ids|] == ids;
      }
    }
    assert lists[..|lists|] == lists;
  }

  /** Rows differ at most in their rarity. */
  predicate SameButRarity(a: seq<Skin>, b: seq<Skin>)
  {
    |a| == |b| && forall i :: 0 <= i < |a| ==> b[i] == a[i].(rarity := b[i].rarity)
  }

  /** Some list that is not skipped names the skin id. */
  predicate NamedByAccepted(lists: seq<LootList>, crateBySet: map<string, int>, skinId: string)
  {
    exists l :: 0 <= l < |lists| && ListRarity(lists[l], crateBySet).Some? && skinId in lists[l].skinIds
  }

  /** Updating the listed ids gives them the list's rarity, and leaves every other row as
      it was. */
  lemma {:induction false} AssignIdsEffect(table: seq<Skin>, ids: seq<string>, rarity: int)
    ensures SameButRarity(table, AssignIds(table, ids, rarity))
    ensures forall i :: 0 <= i < |table| ==>
      AssignIds(table, ids, rarity)[i] == if table[i].skinId in ids then table[i].(rarity := rarity) else table[i]
  {
    if ids != [] {
      AssignIdsEffect(table, ids[..|ids| - 1], rarity);
      assert forall x :: x in ids <==> x in ids[..|ids| - 1] || x == ids[|ids| - 1];
    }
  }

  /** The loot lists change only rarities; a skin no accepted list names keeps its rarity,
      and a skin the last list names gets that list's rarity when the list is accepted. */
  lemma {:induction false} LootRaritiesEffect(table: seq<Skin>, lists: seq<LootList>, crateBySet: map<string, int>)
    ensures SameButRarity(table, LootRarities(table, lists, crateBySet))
    ensures forall i :: 0 <= i < |table| && !NamedByAccepted(lists, crateBySet, table[i].skinId) ==>
      LootRarities(table, lists, crateBySet)[i] == table[i]
    ensures lists != [] && ListRarity(lists[|lists| - 1], crateBySet).Some? ==>
      forall i :: 0 <= i < |table| && table[i].skinId in lists[|lists| - 1].skinIds ==>
        LootRarities(table, lists, crateBySet)[i].rarity == RarityValue(ListRarity(lists[|lists| - 1], crateBySet).value)
  {
    if lists != [] {
      var prefix := lists[..|lists| - 1];
      var before := LootRarities(table, prefix, crateBySet);
      LootRaritiesEffect(table, prefix, crateBySet);
      assert forall l :: 0 <= l < |prefix| ==> prefix[l] == lists[l];
      match ListRarity(lists[|lists| - 1], crateBySet)
      case None =>
      case Some(r) =>
        AssignIdsEffect(before, lists[|lists| - 1].skinIds, RarityValue(r));
        assert forall i :: 0 <= i < |table| ==> before[i].skinId == table[i].skinId;
    }
  }

  // ----------------------------------------------------------------- rarity overrides

  /** Skins whose rarity the game files get wrong, with the rarity they are given instead. */
  const RarityOverrides: map<string, Rarity> := map[
    "[cu_usp_spitfire]weapon_usps_silencer" := Legendary,
    "[hy_blam_simple]weapon_awp" := Legendary]

  /** The rarity of a skin still without one: the override when it has one, otherwise its
      kit's rarity name (KeyError without one, AttributeError when it names no rarity). */
  function ResolveRarity(skin: Skin, kitRarity: map<string, string>): (r: Result<Rarity>)
    ensures skin.skinId in RarityOverrides ==> r == Ok(RarityOverrides[skin.skinId])
    ensures skin.skinId !in RarityOverrides ==>
      && (r == Err(KeyNotFound) <==> skin.skinTag !in kitRarity)
      && (r == Err(NoneAttribute) <==> skin.skinTag in kitRarity && GetRarity(kitRarity[skin.skinTag]).None?)
      && (r.Ok? ==> Some(r.value) == GetRarity(kitRarity[skin.skinTag]))
  {
    if skin.skinId in RarityOverrides then Ok(RarityOverrides[skin.skinId])
    else if skin.skinTag !in kitRarity then Err(KeyNotFound)
    else match GetRarity(kitRarity[skin.skinTag])
      case None => Err(NoneAttribute)
      case Some(rarity) => Ok(rarity)
  }

  /** The rows after resolving each pending skin in turn, or the first error. */
  function Resolved(table: seq<Skin>, pending: seq<Skin>, kitRarity: map<string, string>): (r: Result<seq<Skin>>)
    ensures r.Ok? ==> |r.value| == |table|
  {
    if pending == [] then Ok(table)
    else
      match Resolved(table, pending[..|pending| - 1], kitRarity)
      case Err(f) => Err(f)
      case Ok(t) =>
        match ResolveRarity(pending[|pending| - 1], kitRarity)
        case Err(f) => Err(f)
        case Ok(rarity) => Ok(SetRarity(t, pending[|pending| - 1].skinId, RarityValue(rarity)))
  }

  /** The second loop of `collect_rarities`: every skin still at -1 is resolved. */
  method ApplyOverrides(table: seq<Skin>, kitRarity: map<string, string>) returns (r: Result<seq<Skin>>)
    ensures r == Resolved(table, Store.SkinsByRarity(table, Unassigned), kitRarity)
  {
    var pending := Store.SkinsByRarity(table, Unassigned);
    var out := table;
    for i := 0 to |pending|
      invariant Resolved(table, pending[..i], kitRarity) == Ok(out)
    {
      assert pending[..i + 1][..i] == pending[..i];
      var rarity := ResolveRarity(pending[i], kitRarity);
      if rarity.Err? {
        ResolvedErrorPersists(table, pending, kitRarity, i + 1, rarity.failure);
        return Err(rarity.failure);
      }
      out := SetRarity(out, pending[i].skinId, RarityValue(rarity.value));
    }
    assert pending[..|pending|] == pending;
    r := Ok(out);
  }

  lemma {:induction false} ResolvedErrorPersists(table: seq<Skin>, pending: seq<Skin>, kitRarity: map<string, string>,
                                                 n: nat, f: Failure)
    requires n <= |pending|
    requires Resolved(table, pending[..n], kitRarity) == Err(f)
    ensures Resolved(table, pending, kitRarity) == Err(f)
    decreases |pending| - n
  {
    if n == |pending| {
      assert pending[..n] == pending;
    } else {
      assert pending[..n + 1][..n] == pending[..n];
      ResolvedErrorPersists(table, pending, kitRarity, n + 1, f);
    }
  }

  /** A row still without a rarity after resolving was without one before and shares its
      id with no resolved skin. */
  lemma {:induction false} ResolvedLeavesOnlyUnnamed(table: seq<Skin>, pending: seq<Skin>, kitRarity: map<string, string>)
    requires Resolved(table, pending, kitRarity).Ok?
    ensures SameButRarity(table, Resolved(table, pending, kitRarity).value)
    ensures forall i :: 0 <= i < |table| && Resolved(table, pending, kitRarity).value[i].rarity == Unassigned ==>
      table[i].rarity == Unassigned && forall k :: 0 <= k < |pending| ==> pending[k].skinId != table[i].skinId
  {
    if pending != [] {
      var prefix := pending[..|pending| - 1];
      ResolvedLeavesOnlyUnnamed(table, prefix, kitRarity);
      assert forall k :: 0 <= k < |prefix| ==> prefix[k] == pending[k];
    }
  }

  /** When the override loop finishes, no skin is left without a rarity. */
  lemma OverridesAssignAll(table: seq<Skin>, kitRarity: map<string, string>)
    requires Resolved(table, Store.SkinsByRarity(table, Unassigned), kitRarity).Ok?
    ensures var out := Resolved(table, Store.SkinsByRarity(table, Unassigned), kitRarity).value;
      forall i :: 0 <= i < |out| ==> out[i].rarity != Unassigned
  {
    var pending := Store.SkinsByRarity(table, Unassigned);
    var out := Resolved(table, pending, kitRarity).value;
    ResolvedLeavesOnlyUnnamed(table, pending, kitRarity);
    forall i | 0 <= i < |out|
      ensures out[i].rarity != Unassigned
    {
      if table[i].rarity == Unassigned {
        assert table[i] in pending;
        var k :| 0 <= k < |pending| && pending[k] == table[i];
        assert pending[k].skinId == table[i].skinId;
      }
    }
  }

  // ----------------------------------------------------------------- rarity counts

  /** The six counters of `collect_rarities`, one per rarity 0..5. */
  const CounterCount: int := 6

  /** The counter `counts[x]` names, Python's negative indices counting from the end. */
  function Slot(x: int): int
  {
    if x < 0 then x + CounterCount else x
  }

  predicate Indexable(x: int)
  {
    -CounterCount <= x < CounterCount
  }

  /** The number of rarities that land on counter `j`. */
  function CountSlot(rarities: seq<int>, j: int): nat
  {
    if rarities == [] then 0
    else CountSlot(rarities[..|rarities| - 1], j) + (if Slot(rarities[|rarities| - 1]) == j then 1 else 0)
  }

  /** The six counts, or IndexError once a rarity is outside the list's indices (rarity 6,
      or anything below -6). */
  function Histogram(rarities: seq<int>): Result<seq<int>>
  {
    if forall i :: 0 <= i < |rarities| ==> Indexable(rarities[i])
    then Ok(seq(CounterCount, j requires 0 <= j < CounterCount => CountSlot(rarities, j)))
    else Err(IndexOutOfRange)
  }

  function RaritiesOf(skins: seq<Skin>): (rs: seq<int>)
    ensures |rs| == |skins| && forall i :: 0 <= i < |skins| ==> rs[i] == skins[i].rarity
  {
    seq(|skins|, i requires 0 <= i < |skins| => skins[i].rarity)
  }

  /** The counting loop for one crate's skins, over a six-slot array. */
  method CountRarities(skins: seq<Skin>) returns (r: Result<seq<int>>)
    ensures r == Histogram(RaritiesOf(skins))
  {
    var rarities := RaritiesOf(skins);
    var counts := new int[CounterCount](_ => 0);
    for i := 0 to |skins|
      invariant forall j :: 0 <= j < CounterCount ==> counts[j] == CountSlot(rarities[..i], j)
      invariant forall k :: 0 <= k < i ==> Indexable(rarities[k])
    {
      assert rarities[..i + 1][..i] == rarities[..i];
      var x := skins[i].rarity;
      if !Indexable(x) {
        assert !Indexable(rarities[i]);
        return Err(IndexOutOfRange);
      }
      counts[Slot(x)] := counts[Slot(x)] + 1;
    }
    assert rarities[..|skins|] == rarities;
    assert counts[..] == seq(CounterCount, j requires 0 <= j < CounterCount => CountSlot(rarities, j));
    r := Ok(counts[..]);
  }

  function SumCounts(counts: seq<int>): int
  {
    if counts == [] then 0 else SumCounts(counts[..|counts| - 1]) + counts[|counts| - 1]
  }

  /** Every skin is counted exactly once. */
  lemma {:induction false} HistogramCountsAll(rarities: seq<int>)
    requires Histogram(rarities).Ok?
    ensures SumCounts(Histogram(rarities).value) == |rarities|
  {
    var h := Histogram(rarities).value;
    SlotsAddUp(rarities);
    assert SumCounts(h[..1]) == h[0] by { assert h[..1][..0] == []; }
    assert SumCounts(h[..2]) == h[0] + h[1] by { assert h[..2][..1] == h[..1]; }
    assert SumCounts(h[..3]) == h[0] + h[1] + h[2] by { assert h[..3][..2] == h[..2]; }
    assert SumCounts(h[..4]) == h[0] + h[1] + h[2] + h[3] by { assert h[..4][..3] == h[..3]; }
    assert SumCounts(h[..5]) == h[0] + h[1] + h[2] + h[3] + h[4] by { assert h[..5][..4] == h[..4]; }
    assert h[..6][..5] == h[..5] && h[..6] == h;
  }

  lemma {:induction false} SlotsAddUp(rarities: seq<int>)
    requires forall i :: 0 <= i < |rarities| ==> Indexable(rarities[i])
    ensures CountSlot(rarities, 0) + CountSlot(rarities, 1) + CountSlot(rarities, 2)
          + CountSlot(rarities, 3) + CountSlot(rarities, 4) + CountSlot(rarities, 5) == |rarities|
  {
    if rarities != [] {
      SlotsAddUp(rarities[..|rarities| - 1]);
    }
  }

  /** Once every rarity is assigned and below 6, counter `j` counts the skins of rarity `j`. */
  lemma {:induction false} AssignedCountsByRarity(rarities: seq<int>, j: int)
    requires forall i :: 0 <= i < |rarities| ==> 0 <= rarities[i] < CounterCount
    ensures CountSlot(rarities, j) == |set i | 0 <= i < |rarities| && rarities[i] == j|
  {
    if rarities != [] {
      var prefix := rarities[..|rarities| - 1];
      AssignedCountsByRarity(prefix, j);
      var n := |rarities| - 1;
      var before := set i | 0 <= i < |prefix| && prefix[i] == j;
      var after := set i | 0 <= i < |rarities| && rarities[i] == j;
      if rarities[n] == j {
        assert after == before + {n};
      } else {
        assert after == before;
      }
    }
  }

  /** The counts `collect_rarities` stores for each crate in order, or the first error. */
  function CrateCounts(table: seq<Skin>, crates: seq<Crate>): Result<seq<seq<int>>>
  {
    if crates == [] then Ok([])
    else
      match CrateCounts(table, crates[..|crates| - 1])
      case Err(f) => Err(f)
      case Ok(rows) =>
        match Histogram(RaritiesOf(Store.SkinsByCrate(table, crates[|crates| - 1].internalId)))
        case Err(f) => Err(f)
        case Ok(h) => Ok(rows + [h])
  }

  /** The crate loop of `collect_rarities`. */
  method CountAllCrates(table: seq<Skin>, crates: seq<Crate>) returns (r: Result<seq<seq<int>>>)
    ensures r == CrateCounts(table, crates)
  {
    var rows: seq<seq<int>> := [];
    for i := 0 to |crates|
      invariant CrateCounts(table, crates[..i]) == Ok(rows)
    {
      assert crates[..i + 1][..i] == crates[..i];
      var h := CountRarities(Store.SkinsByCrate(table, crates[i].internalId));
      if h.Err? {
        CrateErrorPersists(table, crates, i + 1, h.failure);
        return Err(h.failure);
      }
      rows := rows + [h.value];
    }
    assert crates[..|crates|] == crates;
    r := Ok(rows);
  }

  lemma {:induction false} CrateErrorPersists(table: seq<Skin>, crates: seq<Crate>, n: nat, f: Failure)
    requires n <= |crates|
    requires CrateCounts(table, crates[..n]) == Err(f)
    ensures CrateCounts(table, crates) == Err(f)
    decreases |crates| - n
  {
    if n == |crates| {
      assert crates[..n] == crates;
    } else {
      assert crates[..n + 1][..n] == crates[..n];
      CrateErrorPersists(table, crates, n + 1, f);
    }
  }
}
