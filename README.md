# CS Trade-Up Analyzer, modelled in Dafny

This project models the deterministic core of a Counter-Strike trade-up analyser:

- the wear, rarity and weapon tables and the wear-range classifier;
- the search for the cheapest skin of each (crate, rarity, wear) group;
- the decoding of stored trade-up rows;
- the arithmetic of the two Discord bots: input price, tickets, average wear, per-skin profit, chance of profit, query normalisation and the ticket lottery of the older bot's `simulate` command;
- the catalog builder that turns the game's item files into skins, crates and rarities.

Each module corresponds to one source file:

| module | models |
|---|---|
| `Wrappers` | Option and Result values; Python exceptions as `Failure` values |
| `Text` | the Python string operations the code uses (`lower`, `split`, `join`, `replace`) |
| `Records` | the skin, crate, price-row and simulation-possibility records |
| `WeaponClassifiers` | src/models/weapon_classifiers.py |
| `Store` | the query semantics of src/db_handler.py, over sequences and maps |
| `MarketHandler` | src/market_handler.py `find_cheapest` |
| `TradeUpRecord` | src/models/tradeup.py |
| `Filters` | the option handling of `list_trade_ups` in src/bot.py and bot/bot.py |
| `Lottery` | src/bot.py `simulate` |
| `Bot` | the arithmetic of bot/bot.py |
| `ResourceCollector` | src/resource_collector.py `collect_skins` and `collect_rarities` |

Modelling choices:

- Wear values and money are `real`.
- The database is abstract. An order book is a map from (skin id, wear) to price rows, and tables are sequences of records.
- A drawn ticket and the wear estimate of a skin are inputs.
- Loops that build lists or accumulate totals in the source are methods with loop invariants. Each is proved equal to a function, and the lemmas state the properties of that function.

## Model

| member | source | states |
|---|---|---|
| WeaponClassifiers.WeaponKeysArePositions | src/models/weapon_classifiers.py:57-95 | the weapon table has exactly the keys 1..37, and key k holds the k-th name |
| WeaponClassifiers.WeaponNamesDistinct | src/models/weapon_classifiers.py:57-95 | no weapon name occurs twice in the table |
| WeaponClassifiers.GetWeapon | src/models/weapon_classifiers.py:218-230 | a weapon is returned exactly when the lower-cased name is a key of `str_to_weapon`, and it is that entry |
| WeaponClassifiers.GetWeaponIgnoresCase | src/models/weapon_classifiers.py:226-230 | `get_weapon(s) == get_weapon(lower(s))` |
| WeaponClassifiers.GetRarity | src/models/weapon_classifiers.py:233-245 | a rarity is returned exactly when the lower-cased name is a key of `str_to_rarity`, and it is that entry |
| WeaponClassifiers.GetRarityIgnoresCase | src/models/weapon_classifiers.py:241-245 | `get_rarity(s) == get_rarity(lower(s))` |
| WeaponClassifiers.GameRarityRoundTrip | src/models/weapon_classifiers.py:158-176 | for 0 <= i <= 6 the game name of rarity i, lower-cased, maps back to a rarity of value i |
| WeaponClassifiers.WearFromInt | src/models/weapon_classifiers.py:140-146 | an integer has a wear exactly when it is in 0..4, and that wear's value is the integer |
| WeaponClassifiers.WearTablesRoundTrip | src/models/weapon_classifiers.py:116-146 | int to wear and back is the identity; a wear's display name maps back to the same wear |
| WeaponClassifiers.ValidWearsMembers | src/models/weapon_classifiers.py:261-293 | a tier is listed exactly when the range reaches it: FN iff min < 0.07 or max <= 0.07; a later tier iff min < its upper bound and max >= its lower bound |
| WeaponClassifiers.ValidWearsOrdered | src/models/weapon_classifiers.py:261-293 | the listed tiers strictly increase from FN to BS, so each appears at most once, and every entry is in the requested form (name or number) |
| WeaponClassifiers.ValidWearsRepresentation | src/models/weapon_classifiers.py:261-293 | `as_int` changes only the form; the same tiers are selected either way |
| WeaponClassifiers.ValidWearsContiguous | src/models/weapon_classifiers.py:261-293 | for every range the listed tiers are consecutive, with no tier skipped between two listed ones |
| WeaponClassifiers.ValidWearsNonEmpty | src/models/weapon_classifiers.py:261-293 | when min <= max and min < 1 at least one tier is listed |
| WeaponClassifiers.FullRangeReachesAll | src/models/weapon_classifiers.py:261-293 | the range [0, 1] lists all five tiers in order |
| WeaponClassifiers.LastTierFromZero | src/models/weapon_classifiers.py:261-293 | for x >= 0 the last tier of `get_valid_wears(0, x)` is the tier whose interval contains x |
| Text.LowerIdempotent | src/models/weapon_classifiers.py:226-230 | lower-casing twice is lower-casing once |
| Text.JoinSplit | src/resource_collector.py:190-197 | joining the parts of a split with the same separator gives back the string |
| Text.ReplaceAbsent | src/resource_collector.py:180-181 | replacing a pattern that does not occur leaves the string unchanged |
| Store.GetPrices | src/db_handler.py:265-281 | None exactly when the skin has no rows at that wear, or they are empty; otherwise the stored rows |
| Store.SkinsByRarity | src/db_handler.py:216-227 | the skins listed are exactly the skins of that rarity |
| Store.SkinsByCrate | src/db_handler.py:230-241 | the skins listed are exactly the skins of that crate |
| Store.SkinsByCrateAndRarity | src/db_handler.py:247 | the skins listed are exactly the skins of that crate and rarity |
| Store.SkinsByRarityAppend | src/db_handler.py:216-227 | the query over two stretches of the table is the query over each, joined: matching rows come in table order, repeats included |
| Store.SkinsByRarityOne | src/db_handler.py:216-227 | a single row is returned exactly when it has the rarity |
| Store.SkinsByCrateAppend | src/db_handler.py:230-241 | the query over two stretches of the table is the query over each, joined: matching rows come in table order, repeats included |
| Store.SkinsByCrateOne | src/db_handler.py:230-241 | a single row is returned exactly when it belongs to the crate |
| Store.SkinsByCrateAndRarityAppend | src/db_handler.py:247 | the query over two stretches of the table is the query over each, joined: matching rows come in table order, repeats included |
| Store.SkinsByCrateAndRarityOne | src/db_handler.py:247 | a single row is returned exactly when it has the crate and the rarity |
| Store.QuotedOrZero | src/db_handler.py:252-262 | a skin without prices is priced 0; otherwise its first stored price |
| Store.SkinPricesByCrateRarityAndWear | src/db_handler.py:244-262 | one id and one price per listed skin, in order, so the two lists have equal length |
| MarketHandler.FirstDeep | src/market_handler.py:42-52 | the walk stops at the first row with count >= 10; every row before it is shallower |
| MarketHandler.Walked | src/market_handler.py:42-52 | the price used is that of the last row read: the first deep row, or the last row when none is deep |
| MarketHandler.WalkDepth | src/market_handler.py:42-52 | the loop with `break` computes the sum of counts up to and including the first deep row, and that row's price |
| MarketHandler.PickIsFirstCheapest | src/market_handler.py:33-57 | no pick exactly when no skin is priced; otherwise the pick is a candidate (the first priced skin, or a priced skin with depth >= 10), its price is <= every candidate's, and it comes before every other candidate of equal price, so ties keep the earlier skin |
| MarketHandler.SelectCheapest | src/market_handler.py:34-57 | the skin loop skips unpriced skins, seeds with the first priced skin and replaces it by the seed/replace rule |
| MarketHandler.CheapestExists | src/market_handler.py:36-61 | a group has a choice at a wear exactly when some skin of it is priced there |
| MarketHandler.Rarities | src/market_handler.py:19-24 | the group keys are exactly the rarities that occur, each listed once |
| MarketHandler.GroupByRarity | src/market_handler.py:19-24 | the groups map each occurring rarity to its skins in catalog order |
| MarketHandler.GroupCheapest | src/market_handler.py:29-61 | the group is tried at every wear 0..4 in order, adding that wear's record when it has a choice |
| MarketHandler.CrateCheapest | src/market_handler.py:19-61 | one crate: its skins grouped by rarity, then every group at every wear in key order |
| MarketHandler.FindCheapest | src/market_handler.py:12-63 | the records added, crate by crate, are those of `AllRecords` |
| MarketHandler.CrateRecordsExactlyOne | src/market_handler.py:60-61 | per crate, exactly one record for each (rarity, wear) whose group has a priced skin there, and none otherwise |
| MarketHandler.CrateRecordsSound | src/market_handler.py:55-61 | every record of a crate names that crate and a wear in 0..4; its skin is a candidate of its group (the seed or one at least ten deep) at its walked price, and that price is <= the walked price of every priced skin of the group with depth >= 10 |
| TradeUpRecord.Decode | src/models/tradeup.py:16-41 | an empty skin list raises IndexError; otherwise skin_1 is skins[0], skin_2 is skins[1] exactly when there are two or more, a NULL second price becomes 0, and every other column is copied |
| TradeUpRecord.DecodeEncode | src/models/tradeup.py:16-41 | decoding the row and skins of a trade up gives the trade up back |
| TradeUpRecord.DecodeReadsTwoSkins | src/models/tradeup.py:36-41 | skins after the second do not affect the decoded trade up |
| TradeUpRecord.NullPriceIsZero | src/models/tradeup.py:29-32 | a NULL second price decodes as a stored 0 does |
| Bot.InputPrice | bot/bot.py:149-150 | ten of skin 1 cost ten times its price, and none of skin 1 costs ten times skin 2's price |
| Bot.InputPriceBounds | bot/bot.py:149-150 | for 0 <= count <= 10 the input price lies between ten times the cheaper and ten times the dearer unit price |
| Bot.InputPriceWithoutSecondSkin | bot/bot.py:149-150 | a decoded trade up with no second skin and no second price costs count times skin 1's price |
| Bot.ListedProfit | bot/bot.py:152-155 | a listing shows a profit exactly when the goal skin has a price at the goal wear |
| Bot.DetailProfit | bot/bot.py:175-178 | the detail view shows a profit exactly when the goal skin has a price at the goal wear |
| Bot.DetailProfitOmitsFee | bot/bot.py:175-178 | the detail view's profit exceeds the listing's by exactly the 5% fee on the quote |
| Bot.InputWearTier | bot/bot.py:193-196 | the tier shown beside an input is the tier whose interval holds its maximum wear |
| Bot.TotalTickets | bot/bot.py:233-234 | never negative for a valid split; when both crates share the inputs it is zero exactly when neither crate has outcomes |
| Bot.AverageWear | bot/bot.py:237-238 | ten inputs of skin 1 average its maximum wear; none of skin 1 averages skin 2's |
| Bot.AverageWearBounds | bot/bot.py:237-238 | for a valid split the average lies between the two maximum wears |
| Bot.SimulateSetup | bot/bot.py:215-238 | crate 1's list holds one possibility per skin of that crate at skin 1's rarity, in table order; crate 2's list likewise for skin 2, and is empty without a second skin; the ticket total and the average follow from those lengths and the two maximum wears |
| Bot.FormatSkinProfitSpec | bot/bot.py:331-366 | an empty wear range raises IndexError; otherwise the skin is priced at the highest tier reached, a missing price gives profit 0 and no profit, and a profit exists exactly when 0.95 times the price exceeds the input price |
| Bot.FormatSkinProfitDefined | bot/bot.py:336 | an estimate at or above the skin's minimum wear, with that minimum below 1, always names a tier |
| Bot.ProfitAddedIsCount | bot/bot.py:295-301 | adding the chance once per profitable skin adds it as many times as there are profitable skins, and fails exactly when counting them fails |
| Bot.BreakdownCounts | bot/bot.py:291-318 | the chance of profit is the number of profitable crate-1 outcomes times count/total*100 plus the number of profitable crate-2 outcomes times (10-count)/total*100 |
| Bot.ChancesAddUp | bot/bot.py:291-308 | the chances of all outcomes add up to 100% |
| Bot.BreakdownIsPercentage | bot/bot.py:318 | for a valid split the chance of profit and the chance of loss lie in [0, 100] and add up to 100 |
| Bot.AccumulateProfit | bot/bot.py:295-301 | the loop over one crate's outcomes computes `ProfitAdded` |
| Bot.GoalCases | bot/bot.py:274-278 | the outcome lists are exactly the catalog skins of each input skin's crate at the goal rarity; the second list exists exactly when there is a second skin |
| Bot.ProfitBreakdown | bot/bot.py:274-318 | computed from the catalog and the trade up: crate 1's goal-rarity outcomes, then crate 2's when there is a second skin, over the weighted average wear and the trade up's input price |
| Lottery.ChanceRange | src/bot.py:211-219 | the boundary list has max(1, n1) + n2 entries, and entry i is the running total of the slot weights |
| Lottery.BoundaryMonotone | src/bot.py:211-219 | for 0 <= count <= 10 the boundaries never decrease |
| Lottery.BoundaryStrict | src/bot.py:211-219 | for 1 <= count <= 9 the boundaries strictly increase |
| Lottery.BoundaryClosedForm | src/bot.py:211-219 | entry i is (i+1)*count among crate 1's slots, and then each later entry adds 10-count |
| Lottery.LastBoundaryIsTotal | src/bot.py:214-221 | when crate 1 has outcomes the last boundary equals the ticket total |
| Lottery.LookupAsWritten | src/bot.py:230-240 | the lookup as written: r <= the first boundary reads price 0; otherwise the first j with boundary j < r <= boundary j+1 reads price j; no match reads the last price |
| Lottery.AsWrittenShift | src/bot.py:236-237 | a ticket above the first boundary that belongs to outcome b is priced as outcome b-1 |
| Lottery.AsWrittenNeverPicksLast | src/bot.py:230-240 | with two or more outcomes, a ticket up to the last boundary never reads the last price |
| Lottery.OffByOneWitness | src/bot.py:236-237 | prices [1, 2] with boundaries [5, 10]: ticket 7 reads 1 as written, but it belongs to the outcome priced 2 |
| Lottery.BucketOwnsItsTickets | src/bot.py:211-240 | over non-decreasing boundaries a ticket belongs to slot b exactly when it is above the previous boundary and at most boundary b |
| Lottery.Lookup | src/bot.py:230-240 | the corrected lookup loop reads the price of the first slot whose boundary is at least the ticket |
| Lottery.IntendedPriceDefined | src/bot.py:211-240 | when crate 1 has outcomes, every ticket in [1, total] lands on an outcome that has a price |
| Lottery.LegacyInputCost | src/bot.py:222 | the cost as written is one unit of each skin, a fifth of the cost of five inputs of each |
| Lottery.LegacyInputCostWitness | src/bot.py:222 | the cost as written adds one unit of each skin: prices 1 and 2 give 3, while five of each cost 15 |
| Lottery.Simulate | src/bot.py:189-250 | more than 10000 draws are refused; otherwise the draws run over the laid-out boundaries, the ticket total and the cost of the ten inputs |
| Lottery.DrawPrices | src/bot.py:225-240 | with every draw priced, there is one price per draw |
| Lottery.DrawPricesOk | src/bot.py:225-244 | the draws are all priced exactly when there are none, or there are tickets, the cost is not zero and every ticket lands on a price; the i-th price is then the i-th ticket's |
| Lottery.OutcomeOf | src/bot.py:225-250 | an outcome exists exactly when there is at least one draw and every draw is priced; no draws divide by zero; one return per draw |
| Lottery.SimulationOf | src/bot.py:189-250 | more than 10000 draws are refused; a result has between 1 and 10000 draws and one return per draw |
| Lottery.RunDraws | src/bot.py:225-250 | no tickets raises ValueError, a ticket past the prices raises IndexError, a zero cost raises ZeroDivisionError; otherwise the prices, returns, profit and average return of `OutcomeOf` |
| Lottery.AverageReturnIsProfitRate | src/bot.py:243-250 | the average return equals 1 plus the total profit divided by the total cost |
| Filters.IndexOf | bot/bot.py:117 | the first position of the name, or None exactly when it is absent |
| Filters.RarityFilter | src/bot.py:86-87 | a rarity filter is accepted exactly when its lower-cased name is a game rarity; otherwise KeyError |
| Filters.WearFilter | src/bot.py:89-90 | a wear filter is accepted exactly when it is a wear display name; otherwise KeyError |
| Filters.WeaponFilter | bot/bot.py:115-120 | a weapon filter is accepted exactly when it is a weapon name, and gives one more than its position; otherwise "Invalid weapon." |
| Filters.Normalise | src/bot.py:76-97 | min wear > max wear is refused before anything else; otherwise missing price bounds become 0 and 9999999999; each given rarity, wear and weapon is stored as its filter's number; the lookups fail in the command's order: an unknown rarity, then an unknown wear, raises KeyError, then an unknown weapon replies "Invalid weapon." |
| Filters.NormaliseRanked | bot/bot.py:89-126 | the shared options as in `Normalise`, with the same outcome; a missing ROI bound is 0 below and 9999999999 above, a given one is divided by 100; "profit" is stored as "profit_10" and every other sort choice is kept |
| Filters.RoiBound | bot/bot.py:99-107 | a given ROI bound, read back in percent, is the bound typed; a missing one is the default |
| Filters.SortColumn | bot/bot.py:125-126 | no choice is stored as "profit", and every choice other than "profit" is kept unchanged |
| Filters.WeaponFilterRoundTrip | bot/bot.py:115-120 | each weapon table entry filters back to its own key |
| Filters.WeaponFilterNames | bot/bot.py:115-120 | an accepted weapon filter is a key of the weapon table whose name is the given one |
| Filters.RarityFilterRoundTrip | src/bot.py:86-87 | each game rarity name filters back to its number |
| Filters.RarityFilterIgnoresCase | src/bot.py:86-87 | the rarity filter ignores case |
| Filters.WearFilterRoundTrip | src/bot.py:89-90 | each wear display name filters back to its number |
| Filters.DefaultsAreWidest | src/bot.py:76-84 | with no filters and min wear <= max wear the stored bounds are 0 and 9999999999 with no other filter |
| ResourceCollector.WearRange | src/resource_collector.py:130-138 | a missing minimum wear is 0 and a missing maximum is 1; given bounds are kept |
| ResourceCollector.DefaultRangeReachesAll | src/resource_collector.py:130-138 | a kit without wear bounds can be traded into all five tiers |
| ResourceCollector.TranslationKey | src/resource_collector.py:142 | the key of a description tag holds no `#` |
| ResourceCollector.KitEntry | src/resource_collector.py:129-147 | a kit is skipped exactly when its name or description tag is missing or its tag has no translation; otherwise it is stored under its lower-cased name with its translated name and wear range |
| ResourceCollector.CollectKits | src/resource_collector.py:125-147 | the kit loop builds `ItemsByName` |
| ResourceCollector.ItemsByNameLastWins | src/resource_collector.py:141-145 | a name is stored exactly when some accepted kit has it, and it holds the entry of the last such kit |
| ResourceCollector.FixMojibake | src/resource_collector.py:173-181 | the four replacements are applied to the name in list order |
| ResourceCollector.CleanNameUnchanged | src/resource_collector.py:180-181 | a name holding none of the patterns comes back unchanged |
| ResourceCollector.RepairsUmlaut | src/resource_collector.py:174 | the first badly decoded sequence on its own is repaired to an o-umlaut |
| ResourceCollector.CleanSetId | src/resource_collector.py:155 | a cleaned set id holds no `#` |
| ResourceCollector.SkinFor | src/resource_collector.py:166-183 | a row is made exactly when the key has the weapon shape, the weapon token is known and the kit is in `items_by_name`; it has rarity -1, the kit's wear range and the set's crate |
| ResourceCollector.SetSkins | src/resource_collector.py:155-183 | a set with no crate adds nothing; a result for a set with a crate has one row per item |
| ResourceCollector.SetSkinsFirstError | src/resource_collector.py:164-183 | for a set with a crate the item loop fails exactly when some item fails, and with the error of the first item that fails |
| ResourceCollector.CollectSet | src/resource_collector.py:164-183 | the item loop computes `SetSkins` |
| ResourceCollector.SetSkinsRows | src/resource_collector.py:164-183 | the i-th added row is made from the i-th item, belongs to the set's crate and has no rarity yet |
| ResourceCollector.LootKeyShape | src/resource_collector.py:190-197 | the last `_`-separated segment names the rarity, and the rest rejoined with `_` is the set name |
| ResourceCollector.LootKeyRoundTrip | src/resource_collector.py:190-197 | a set name followed by `_` and a rarity name parses back to that set name and rarity |
| ResourceCollector.ListRarity | src/resource_collector.py:192-202 | a loot list is used exactly when its key names a rarity and its set key, with "crate" replaced by "set" and lower-cased, is a key of the same set-to-crate table `SetSkins` reads |
| ResourceCollector.SetRarity | src/db_handler.py:191-199 | every row with the skin id gets the new rarity, and the other rows are unchanged |
| ResourceCollector.AssignLootRarities | src/resource_collector.py:189-205 | the loot-list loop computes `LootRarities` |
| ResourceCollector.AssignIdsEffect | src/resource_collector.py:204-205 | only rarities change; the listed ids get the list's rarity and the rest keep theirs |
| ResourceCollector.LootRaritiesEffect | src/resource_collector.py:189-205 | only rarities change; a skin no used list names keeps its rarity; the last used list wins |
| ResourceCollector.ResolveRarity | src/resource_collector.py:207-212 | an override wins over `paint_kits_rarity`; a missing tag raises KeyError, and an unknown rarity name reads `.value` on None |
| ResourceCollector.ApplyOverrides | src/resource_collector.py:207-212 | the override loop resolves every skin still at -1, in table order |
| ResourceCollector.ResolvedLeavesOnlyUnnamed | src/resource_collector.py:207-212 | only rarities change, and a row still at -1 was at -1 before |
| ResourceCollector.OverridesAssignAll | src/resource_collector.py:207-212 | after the override loop no skin is left at -1 |
| ResourceCollector.CountRarities | src/resource_collector.py:215-220 | the counting loop computes `Histogram`: six counters, or IndexError for a rarity outside the list's indices |
| ResourceCollector.HistogramCountsAll | src/resource_collector.py:215-220 | the six counts add up to the number of skins |
| ResourceCollector.AssignedCountsByRarity | src/resource_collector.py:215-220 | when every rarity lies in 0..5, counter j is the number of skins of rarity j |
| ResourceCollector.CountAllCrates | src/resource_collector.py:214-223 | the crate loop computes each crate's counts in order, or the first error |

## Left out

- Network and storage: scraping Steam prices (src/market_handler.py:66-156), the sqlite calls and commits, and reading files and JSON. The store is modelled as sequences and maps.
- Discord: command decorators, embeds, colours, replies, autocomplete and every formatted string or `round` call.
- The regex `\[(.*)\]weapon_(.*)` of `collect_skins`: its two groups are an input of each set item, and None when the key does not match.
- Randomness: the tickets drawn by `random.randint` are an input.
- Floating point: money and wear are `real`, so IEEE rounding is not modelled.
- Text.Lower: lower-cases ASCII letters only. Python's `lower` also folds other alphabets.
- `tradeup_generator.estimate_wear` and `tradeup_generator.simulate` are not part of this model. The wear estimate is a function parameter, and the inputs' maximum wears are parameters.
- Lottery.Simulate: the command returns at src/bot.py:180-181 before this code is reached. The lottery is modelled standalone, as if the return were not there.
- Lottery.Simulate: uses the corrected lookup and input cost; the code as written is modelled by `LookupAsWritten` and `LegacyInputCost` (see Findings).
- Lottery: when crate 1 has no outcomes the layout still holds one crate-1 slot. This is modelled as written, but no lemma about tickets covers that case.
- The defaults of the Discord option declarations (the `min_wear` and `max_wear` choices) belong to the command framework.
- The skin-name search (`get_skins_by_search_name`) and `get_tradeups_by_criteria` are storage queries and are not modelled.
- `get_skins_by_crate_and_rarity` is not part of this model; it is modelled as the crate-and-rarity filter of src/db_handler.py:247.
- MarketHandler: the `current_price is not None` test of src/market_handler.py:55 is always true once a skin is priced, so it is folded into the seed rule.
- ResourceCollector: the histogram's IndexError for rarity 6 and Python's negative-index wrap for -1 are modelled as written. Only `AssignedCountsByRarity` assumes rarities in 0..5.
- The crate list of `collect_crates` and the manual set table are data loading, not modelled.
- Bot.SimulateSetup: searches each crate at its input skin's own rarity (bot/bot.py:218, 227), while `profit_breakdown` searches at the goal rarity (bot/bot.py:274, 278); the contracts of `SimulateSetup` and `GoalCases` show the difference. The simulator that receives these lists is not part of this model, so whether it expects the inputs' rarity cannot be decided here. The code is modelled as written, and no finding is claimed.

## Findings

| source | as written | input that shows it | evidently intended | confidence | as-written member | corrected member |
|---|---|---|---|---|---|---|
| src/bot.py:236-237 | a ticket r with chance_range[j] < r <= chance_range[j+1] reads all_prices[j] | prices [1, 2], boundaries [5, 10], ticket 7: reads 1 | the ticket belongs to outcome j+1 and should read all_prices[j+1], which is 2 | not executed | Lottery.LookupAsWritten, Lottery.OffByOneWitness | Lottery.Lookup, Lottery.BucketOwnsItsTickets |
| src/bot.py:222 | input_costs = skin_1_price + skin_2_price, one unit of each skin | unit prices 1 and 2 with count 5: cost 3 | the cost of the ten inputs, 1*5 + 2*5 = 15, as bot/bot.py:149-150 computes it | not executed | Lottery.LegacyInputCost, Lottery.LegacyInputCostWitness | Bot.InputPrice, Lottery.Simulate |
