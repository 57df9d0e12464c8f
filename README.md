# Cookie clicker economy in Dafny

A verified model of the economy of a browser cookie-clicker game (`script.js`):
- the static tables of producer kinds ("autoclickers") and one-time upgrades;
- the mutable game state and the defaults of a new game;
- the exponential price of a producer;
- buying a producer, buying an upgrade, a manual click;
- the once-a-second production tick, choosing a theme, and resetting the save.

## Modules
- `catalog.dfy` (`Catalog`): the two tables and the lookups the game does with `Array.prototype.find`.
  Well-formedness lemmas state that ids are distinct, every base price is at least 15, every multiplier is at least 2, and every producer upgrade targets a listed producer.
- `economy.dfy` (`Economy`): the price and production arithmetic, and JavaScript's `m[k] || d` defaulting on the two dictionaries.
  The price `Math.floor(auto.baseCost * Math.pow(1.15, owned))` is computed in exact integers as `baseCost * 115^owned / 100^owned`; a lemma proves this equal to the floor of the real-valued product.
  Production is the sum over the table of rate × owned × multiplier, accumulated in table order.
- `rules.dfy` (`Rules`): the game state as a value (`Snapshot`) and one pure transition per operation.
  These transitions are the specification of the imperative operations.
  The lemmas prove the properties of the economy about them: price growth, exact production gains from a purchase, idempotence of upgrade purchases, and preservation of the state invariant `Valid`.
- `game.dfy` (`Game`): the classes `GameState` (the seven mutable fields) and `CookieGame` (a reference to the current state).
  Each state-changing method except `OnResetSave` updates the fields in place and is proved to leave `state.View()` equal to the `Rules` transition of the old view.
  `OnResetSave` replaces the state object with a new one whose view is `Rules.Fresh()`, and `GetAutoCost` and `ComputeProduction` read the state without changing it.
  The tick closure of `startLoop` is lifted into `Tick`. Its `forEach` accumulation is the `while` loop of `ComputeProduction`, proved equal to the `Production` sum.
- `scenarios.dfy` (`Scenarios`): worked examples on concrete states (the first cursor costs 15, the second 17; Double Cursors doubles one cursor's yield to 2 per second), and one play on the game object.

## Model

| member | source | states |
|---|---|---|
| Catalog.FindAuto | script.js:121 | the index of the first producer with the given id; None exactly when no producer has that id |
| Catalog.FindUpgrade | script.js:136 | the index of the first upgrade with the given id; None exactly when no upgrade has that id |
| Catalog.UpgradeOf | script.js:136 | on success the result is the first table entry with the requested id, as `UPGRADES.find` returns it; None exactly when the table lists no such id |
| Catalog.AutoOf | script.js:121 | the result is the first table entry with the requested id, as `AUTOS.find` returns it |
| Catalog.IsAuto | script.js:121 | the producer lookup finds an entry: the id names a producer of the table |
| Catalog.AutosWellFormed | script.js:1-10 | producer ids are pairwise distinct and every base price is at least 15 |
| Catalog.AutoOfBaseCost | script.js:2-9 | the base price of any listed producer is at least 15 |
| Catalog.UpgradesWellFormed | script.js:12-18 | upgrade ids are pairwise distinct; every multiplier is at least 2 and every price positive; every producer upgrade targets a listed producer |
| Catalog.UpgradeOfWellFormed | script.js:13-17 | the upgrade a lookup finds multiplies by at least 2, has a positive price, and, if it boosts a producer, that producer is in the table |
| Economy.AutoCost | script.js:123 | the price formula floor(baseCost × 1.15^owned), in exact integers; its properties are the lemmas below |
| Economy.Or | script.js:122 | JavaScript's `m[k] or d` on a dictionary of numbers: a missing key or a stored 0 yields the default |
| Economy.Owned | script.js:161 | the owned count of a producer, read with default 0 |
| Economy.Contribution | script.js:161-163 | one producer's share: baseRate × owned (default 0) × multiplier (default 1) |
| Economy.Production | script.js:159-164 | the sum over the table, in table order, of rate × owned × multiplier; its properties are the lemmas below |
| Economy.AutoCostAtZero | script.js:122-123 | with none owned the price is the base price |
| Economy.AutoCostIsFloor | script.js:123 | the integer price equals floor(baseCost × 1.15^owned) computed over the reals |
| Economy.AutoCostStep | script.js:123 | owning one more unit never makes the next one cheaper |
| Economy.AutoCostMonotone | script.js:120-124 | the price is non-decreasing in the number owned |
| Economy.AutoCostAtLeastBase | script.js:120-124 | the price is never below the base price |
| Economy.Mult | script.js:162 | a multiplier read with default 1 for a missing or zero entry is at least 1 |
| Economy.ContributionNonNegative | script.js:163 | one producer's share rate × owned × multiplier is not negative |
| Economy.ContributionOneMore | script.js:163 | one more unit owned adds exactly rate × multiplier to that producer's share |
| Economy.ProductionNonNegative | script.js:159-164 | the production sum is not negative |
| Economy.ProductionNoneOwned | script.js:159-164 | with none of the producers owned the sum is 0 |
| Economy.ProductionUnaffected | script.js:159-164 | changing the count or multiplier of an unlisted id leaves the sum unchanged |
| Economy.ProductionPointUpdate | script.js:159-164 | changing only one listed producer's count or multiplier changes the sum by exactly the change of its share |
| Economy.ProductionOneMore | script.js:159-164 | one more unit of one listed producer raises the sum by exactly its rate × multiplier |
| Economy.ProductionMultiplied | script.js:159-164 | scaling one listed producer's multiplier by f raises the sum by (f − 1) × its old share |
| Rules.Fresh | script.js:23-31 | the defaults of a new game: 0 cookies, click yield 1, rate 0, empty dictionaries, no upgrades, theme `default` |
| Rules.Valid | script.js:22-31 | the invariant the operations keep: a non-negative balance, a click yield of at least 1 and a non-negative rate |
| Rules.UpgradeRefused | script.js:137 | the guard of `buyUpgrade`: the id is unknown, already purchased, or costs more than the balance |
| Rules.RepeatBuyUpgrade | script.js:135-147 | n attempts in a row to buy the same upgrade |
| Rules.AutoIndex | script.js:121 | the index in the table of a listed producer, whose entry is the one the lookup returns |
| Rules.ProductionOf | script.js:159-164 | the production of a state is not negative |
| Rules.CostOf | script.js:120-124 | the price of the next unit is at least the base price, itself at least 15, and equals it with none owned |
| Rules.BuyAuto | script.js:126-130 | below the price nothing changes; otherwise exactly the price is debited, the count of that id goes up by 1 from its default 0, every other count and every other field stays, and `Valid` is preserved |
| Rules.ApplyEffect | script.js:140-144 | a click effect multiplies the click yield; a producer effect multiplies its target's multiplier, read with default 1, and no other multiplier; no other field changes |
| Rules.BuyUpgrade | script.js:135-144 | an unknown, already purchased or unaffordable upgrade changes nothing; otherwise the cost is debited, the id marked, and the effect applied once; afterwards the id is marked exactly when it was before or the purchase succeeded; `Valid` is preserved |
| Rules.ClickCookie | script.js:151 | the balance rises by exactly the click yield and nothing else changes; `Valid` is preserved |
| Rules.Tick | script.js:159-166 | the balance rises by the production, which is recorded as the rate; nothing else changes; `Valid` is preserved and the balance does not fall |
| Rules.ChangeTheme | script.js:218-219 | only the theme changes, to the chosen one |
| Rules.FreshState | script.js:23-31 | a new game satisfies `Valid`, produces nothing, and a tick leaves it unchanged |
| Rules.TickWithoutProducers | script.js:159-166 | with no producer owned a tick credits nothing and records rate 0 |
| Rules.ProductionOfOneMore | script.js:159-164 | one more unit of a listed producer and no other change raises production by its rate × multiplier |
| Rules.BuyAutoProductionGain | script.js:130 | a successful producer purchase raises production by exactly its rate × its multiplier |
| Rules.ProductionOfMultiplied | script.js:159-164 | scaling only one producer's multiplier by f raises production by (f − 1) × its old share |
| Rules.BuyUpgradeEffect | script.js:138-143 | a successful upgrade debits its cost, leaving the balance non-negative, and marks the id; a click upgrade multiplies the click yield and keeps multipliers; a producer upgrade multiplies its target's multiplier (default 1), no other, and keeps the click yield; counts, rate and theme stay |
| Rules.BuyUpgradeScalesTarget | script.js:143 | a successful producer upgrade scales only its target's multiplier and keeps every count |
| Rules.BuyUpgradeProductionGain | script.js:143 | a successful producer upgrade raises production by exactly (multiplier − 1) × what its target yielded before |
| Rules.BuyClickUpgradeKeepsProduction | script.js:141 | a click upgrade multiplies the click yield and leaves production unchanged |
| Rules.BuyUpgradeIdempotent | script.js:137-139 | buying the same upgrade twice in a row is buying it once |
| Rules.BuyUpgradeRepeated | script.js:137-139 | any positive number of attempts to buy an upgrade has the effect of one attempt |
| Rules.OwnedNeverDecreases | script.js:130 | no operation except reset lowers a producer count; buying any upgrade, known or not, a click, a tick and a theme change keep every count, and a producer purchase never lowers one |
| Game.GameState.constructor | script.js:23-31 | a new state holds 0 cookies, click yield 1, rate 0, empty dictionaries, no upgrades and theme `default` |
| Game.CookieGame.constructor | script.js:45-48 | the game starts from a new state |
| Game.CookieGame.GetAutoCost | script.js:120-124 | returns the price of the rules on the current state, at least the base price and equal to it with none owned |
| Game.CookieGame.BuyAuto | script.js:126-133 | the in-place update performs exactly `Rules.BuyAuto` on the state |
| Game.CookieGame.BuyUpgrade | script.js:135-147 | the in-place update performs exactly `Rules.BuyUpgrade` on the state |
| Game.CookieGame.ApplyEffect | script.js:140-144 | the in-place update performs exactly `Rules.ApplyEffect` on the state |
| Game.CookieGame.OnClickCookie | script.js:150-154 | the in-place update performs exactly `Rules.ClickCookie` on the state |
| Game.CookieGame.ComputeProduction | script.js:159-164 | the loop over the table returns the production sum of the current state, which is not negative |
| Game.CookieGame.Tick | script.js:158-166 | one timer firing performs exactly `Rules.Tick` on the state |
| Game.CookieGame.OnChangeTheme | script.js:217-222 | the in-place update performs exactly `Rules.ChangeTheme` on the state |
| Game.CookieGame.OnResetSave | script.js:224-231 | on confirmation the state is replaced by a new one holding the defaults; otherwise the game keeps the same state object |
| Scenarios.CursorPrices | script.js:123 | the first cursor costs 15, the second 17 |
| Scenarios.SecondUnitPrices | script.js:123 | the exact-floor price of the second grandma, bank and temple is 115, 57500 and 230000 |
| Scenarios.SecondGrandmaAt114 | script.js:126-128 | with one grandma and 114 cookies the second grandma costs 115 and its purchase is refused without change |
| Scenarios.ClickThenCannotAffordCursor | script.js:126-128 | after one click of a new game the balance is 1 and a cursor purchase is refused without change |
| Scenarios.BuyFirstCursor | script.js:126-130 | with 15 cookies the first cursor is bought, the balance drops to 0 and the next costs 17 |
| Scenarios.TickWithOneCursor | script.js:159-166 | with one cursor a tick credits 1 and records rate 1 |
| Scenarios.CursorEntries | script.js:1-18 | the table entries for `cursor` and `doubleCursor` |
| Scenarios.DoubleCursorsUpgrade | script.js:135-147 | Double Cursors bought with 1000 cookies and one cursor leaves 0 cookies, doubles production to 2, and a second purchase changes nothing |
| Scenarios.PlayFromNewGame | script.js:150-154 | on the game object: a click, a refused producer purchase, a refused upgrade purchase and a reset, each with the state the rules give |

## Left out
- Rendering and input wiring (`buildShop`, `buildUpgrades`, `updateUI`, `createFloating`, `showMessage`, `bindUI`, `init`, and the `setAttribute` call in `onChangeTheme`): user-interface plumbing with no effect on the state.
- The `setInterval` timer of `startLoop` and the `interval` field: wall-clock scheduling. `Tick` models one firing.
- Persistence (`toJSON`, `load`, `saveState`, `loadState`, and the `localStorage` removal in `onResetSave`): browser and JSON library calls. A loaded save could hold values the model cannot represent, such as fractional balances or strings; the model only covers states reached through the modelled operations.
- `confirm` in `onResetSave` is a browser dialog; its answer is the `confirmed` parameter of `Game.CookieGame.OnResetSave`.
- Rules.CostOf: requires the id to be a listed producer. With an unknown id the source reads a field of `undefined` and throws; that crash is not modelled.
- Rules.BuyAuto: requires a listed producer, for the same reason. The source's `buyAuto` has no id guard, unlike `buyUpgrade`.
- Game.CookieGame.GetAutoCost: requires a listed producer, as `Rules.CostOf` does.
- Game.CookieGame.BuyAuto: requires a listed producer, as `Rules.BuyAuto` does.
- Rules.ApplyEffect: the clause that a producer upgrade scales its target's multiplier is stated for multipliers of at least 1. With a multiplier of 0 the stored 0 would read back as 1 through the `|| 1` default. Every upgrade in the table multiplies by 2 or 3.
- Economy.AutoCost: the price is the exact mathematical floor of baseCost × 1.15^owned. script.js computes it in IEEE doubles, where the literal 1.15 is stored as a value slightly below 1.15, so the price already differs at one unit owned: 100 × 1.15 evaluates to 114.99999999999999, and the source charges 114 for the second grandma, 57499 for the second bank and 229999 for the second temple where the model gives 115, 57500 and 230000 (Scenarios.SecondUnitPrices). For larger counts `Math.pow` rounds as well.
- Rules.CostOf: returns the exact-floor price, so it is one above the source's price in the cases above.
- Game.CookieGame.GetAutoCost: returns `Rules.CostOf`, with the same difference.
- Rules.BuyAuto: compares the balance with the exact-floor price. With one grandma owned and exactly 114 cookies the source sells the second grandma and the model refuses it (Scenarios.SecondGrandmaAt114).
- Game.CookieGame.BuyAuto: performs `Rules.BuyAuto`, with the same difference.
- Numbers: balances, yields and rates are unbounded integers. The source uses doubles, which stay integral here because every rate, price and multiplier in the tables is an integer; precision loss above 2^53 is not modelled.
- The upgrades dictionary of `true` flags is modelled as a set of ids. Only the marking operation exists, so the two are interchangeable.
- The source's upgrade `type` string becomes the two-case `Effect` datatype. An upgrade of any other type would be debited and marked with no effect; the table has no such upgrade.
