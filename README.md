# Startup Hustle economy, in Dafny

A model of the economy behind the Startup Hustle clicker game (`src/index.ts`):
a per-user game state held in a process-wide map, six tool handlers that read
or change it, the cost curve of the two purchase tracks, the widget's local
copy of the same math, the widget's stage and currency-icon lookups, and the
fixed `tools/list` reply.

- `economy.dfy` (module `Economy`): the game state (`clicks`, `multiplier`,
  `autoClickerLevel`, `lastUpdated`), the base-cost tables, the cost curve
  `floor(base[min(tier, N-1)] * 1.5^tier)`, and each action as a pure
  function. `Step` applies one action to a stored state. `Run` applies a
  sequence of actions. The lemmas about these functions state the
  invariant, the monotonicity of the levels and costs, and the all-or-nothing
  purchases.
- `server.dfy` (module `Server`, class `GameServer`): the `gameStates` map,
  `getState`'s lazy creation, and the six handler bodies. Each handler returns
  its narrative and the post-action state. Each is proved to update exactly
  the default user's entry, and to update it as `Economy.Step` says.
- `widget.dfy` (module `Widget`): the widget's own `upgrades`, `hires` and
  `stages` tables, the clamped indices of `getCurrentUpgrade` and
  `getCurrentHire`, `getStage` as its descending loop, `getCurrencyIcon`,
  the buttons' `disabled` predicates, and the class `WidgetState` with
  `localClick`, `localBuyMultiplier`, `localBuyAutoClicker` and
  `localAutoClick`. Each local fallback is specified by the server's economy
  function, so its proof shows that the widget's copy of the math matches the
  server's.
- `protocol.dfy` (module `Protocol`): the six tool names, the `tools/list`
  reply, and `handleMCP`'s switch on the request's `method`.
- `decimal.dfy` (module `Decimal`): how a number is printed inside a
  narrative (`Total: $${state.clicks}`), with the parser that inverts it.
- `wrappers.dfy` (module `Wrappers`): `Option`.

Assumptions:
- `Math.pow(1.5, t)` is computed exactly, as `base * 3^t / 2^t` with
  integer division. This is the JavaScript double arithmetic as long as
  `base * 3^t` stays below 2^53.
- `Date.now()` is the parameter `now` of each handler.
- The moment the module is loaded is the constructor's `loadTime`.
  `defaultState.lastUpdated` takes this value.
- Every handler uses the fixed user id `"default"`, as the source does.

Behaviour of src/index.ts the model keeps:
- A reset does not stamp the current time. The stored entry is a copy of
  `defaultState`, whose `lastUpdated` was fixed at load time
  (src/index.ts:14, 731). The reply carries that shared default object
  (src/index.ts:734).
- The growth factor is 1.5 on both tracks (src/index.ts:663, 690).
- `handleMCP` answers `tools/list` with the list and every other request with
  a plain `OK` (src/index.ts:741-778). The six handlers are registered with
  an `McpServer`, and src/index.ts never connects that server to the
  request. A tool call reaches a handler only through that library, which is
  not part of this model. The handlers are modelled as the bodies they are.

## Model

| member | source | states |
|---|---|---|
| `Economy.Default` | src/index.ts:10-15 | the default state has 0 clicks, multiplier 1, no auto clickers, and the load time as its timestamp |
| `Economy.GrowthCost` | src/index.ts:663 | the cost is the floor of `base * 1.5^tier`: the unique r with r <= base * 1.5^tier < r + 1 |
| `Economy.TierIndex` | src/index.ts:662 | `min(tier, n-1)` is within the table; it is the tier itself below n and the last entry from n on |
| `Economy.GrowthCostAtLeastBase` | src/index.ts:663 | a tier never costs less than its base cost |
| `Economy.GrowthCostStep` | src/index.ts:663 | one tier further, from a base of at least 2 to a base no smaller, the cost strictly rises |
| `Economy.MultiplierCost` | src/index.ts:661-663 | the multiplier cost is the floor of `base * 1.5^(multiplier-1)`, with `base` the table entry at `min(multiplier - 1, 7)` |
| `Economy.AutoClickerCost` | src/index.ts:688-690 | the auto-clicker cost is the floor of `base * 1.5^level`, with `base` the table entry at `min(level, 5)` |
| `Economy.MultiplierCostIncreasing` | src/index.ts:661-663 | each multiplier costs strictly more than the one before, including after the table's last entry |
| `Economy.AutoClickerCostIncreasing` | src/index.ts:688-690 | each auto clicker costs strictly more than the one before, including after the table's last entry |
| `Economy.CostsPositive` | src/index.ts:661-663 | a multiplier always costs at least 15 and an auto clicker at least 20 |
| `Economy.FirstCosts` | src/index.ts:661-690 | multiplier costs 15 then 112; auto-clicker costs 20 then 225 |
| `Economy.BaseCostTablesAscending` | src/index.ts:661-690 | both base-cost tables ascend and have no entry below 2 |
| `Economy.AfterClick` | src/index.ts:627 | `click` adds exactly `multiplier` to `clicks`, keeps both levels, keeps the invariant and strictly raises `clicks` |
| `Economy.AfterAutoClick` | src/index.ts:643-646 | `auto_click` adds exactly `autoClickerLevel` when it is positive and changes nothing otherwise |
| `Economy.PurchaseMultiplier` | src/index.ts:661-677 | bought iff `clicks >= cost`; on success `clicks` drops by exactly the cost, the multiplier rises by 1, the other level stays; on failure nothing changes and the cost is reported |
| `Economy.PurchaseAutoClicker` | src/index.ts:688-704 | bought iff `clicks >= cost`; on success `clicks` drops by exactly the cost, the level rises by 1, the multiplier stays; on failure nothing changes and the cost is reported |
| `Economy.PurchaseAllOrNothing` | src/index.ts:665-667 | a purchase either changes nothing or both spends clicks and raises its level, never one without the other |
| `Economy.Step` | src/index.ts:620-737 | every action keeps the invariant; `get_game_state` is the identity; reset gives the default; no other action lowers a level; a changed state carries `now` |
| `Economy.Run` | src/index.ts:620-737 | any sequence of actions keeps `clicks >= 0`, `multiplier >= 1`, `autoClickerLevel >= 0` |
| `Economy.ReachableInv` | src/index.ts:10-15 | every state reachable from the default state keeps the invariant |
| `Economy.LevelsNeverDecrease` | src/index.ts:665-694 | without a reset, neither the multiplier nor the auto-clicker level ever decreases |
| `Economy.ResetIdempotent` | src/index.ts:730-735 | two resets give the same state as one |
| `Decimal.NatToString` | src/index.ts:630 | a number prints as a non-empty string of digits with no leading zero, and 0 prints as the single digit `0` |
| `Decimal.ParseNatToString` | src/index.ts:630 | reading back a printed number gives the number |
| `Decimal.NatToStringInjective` | src/index.ts:630 | two different numbers never print alike |
| `Decimal.IntToString` | src/index.ts:630 | a whole number prints as its digits with no leading zero and never as the empty string (0 prints as `0` alone), after a minus sign when negative, and reads back as itself |
| `Server.Narrated` | src/index.ts:629-632 | a reply holds exactly one text item, the narrative, and the whole state as its structured content |
| `Server.GameServer.constructor` | src/index.ts:10-17 | at load the default state carries the load time and no user has an entry |
| `Server.GameServer.GetState` | src/index.ts:19-24 | a known user's entry is returned and nothing changes; an unknown user gets a stored copy of the default; no other entry changes |
| `Server.GameServer.Click` | src/index.ts:620-634 | only the default user's entry changes, as `click` says; the reply narrates the new total and carries the new state |
| `Server.GameServer.AutoClick` | src/index.ts:636-652 | only the default user's entry changes, as `auto_click` says; with no auto clickers it is left as it was, timestamp included |
| `Server.GameServer.BuyMultiplier` | src/index.ts:654-679 | only the default user's entry changes, as `buy_multiplier` says; the reply names the new multiplier, or the cost still needed with the state unchanged |
| `Server.GameServer.BuyAutoClicker` | src/index.ts:681-706 | only the default user's entry changes, as `buy_auto_clicker` says; the reply names the new team size, or the cost still needed with the state unchanged |
| `Server.GameServer.GetGameState` | src/index.ts:708-723 | no stored state changes; a missing entry is created by `getState`; the reply reports all three counters |
| `Server.GameServer.ResetGame` | src/index.ts:725-737 | the entry becomes the default state, stamped with the load time rather than `now`; the reply carries the shared default |
| `Widget.TablesMatchServer` | src/index.ts:310-328 | the widget's upgrade and hire tables carry the server's base costs, entry for entry |
| `Widget.UpgradeIndex` | src/index.ts:360-363 | the index is within the table: `multiplier - 1` for multipliers 1 to 8, the last entry otherwise |
| `Widget.HireIndex` | src/index.ts:365-368 | the index is within the table: the level for levels 0 to 5, the last entry otherwise |
| `Widget.UpgradeCost` | src/index.ts:413 | the widget's upgrade cost is the floor of `cost * 1.5^(multiplier-1)` for the entry `getCurrentUpgrade` picks |
| `Widget.HireCost` | src/index.ts:423 | the widget's hire cost is the floor of `cost * 1.5^level` for the entry `getCurrentHire` picks |
| `Widget.CostsMatchServer` | src/index.ts:411-428 | the widget's upgrade and hire costs equal the server's at every reachable level |
| `Widget.UpgradeDisabled` | src/index.ts:378-384 | the upgrade button is disabled exactly when `clicks` is below the server's multiplier cost |
| `Widget.HireDisabled` | src/index.ts:385-391 | the hire button is disabled exactly when `clicks` is below the server's auto-clicker cost |
| `Widget.ButtonsMatchPurchases` | src/index.ts:378-391 | a purchase button is disabled exactly when the server would refuse the purchase |
| `Widget.StageSearch` | src/index.ts:353-358 | among the first n stages it picks one whose threshold is reached (or the first) above which none is reached |
| `Widget.StageOf` | src/index.ts:353-358 | the stage shown is the highest one whose threshold the amount reaches, or the first stage when none is reached |
| `Widget.StageOfUnique` | src/index.ts:353-358 | only one stage fits an amount |
| `Widget.StageBands` | src/index.ts:330-337 | with thresholds ascending from 0, each amount >= 0 shows stage k exactly when it lies in [threshold k, threshold k+1); a negative amount shows the first stage |
| `Widget.GetStage` | src/index.ts:353-358 | the descending scan returns the name of the stage `StageOf` picks |
| `Widget.CurrencyIcon` | src/index.ts:346-351 | each icon is returned exactly on its band: below 1000, up to a million, up to a billion, and beyond |
| `Widget.WidgetState.constructor` | src/index.ts:304-308 | the widget starts from the host's tool output when there is one, and from 0 clicks, multiplier 1, no auto clickers otherwise |
| `Widget.WidgetState.CurrentUpgrade` | src/index.ts:360-363 | the upgrade shown is a table entry, and on every reachable multiplier its cost is the base cost the server charges |
| `Widget.WidgetState.CurrentHire` | src/index.ts:365-368 | the hire shown is a table entry, and on every reachable level its cost is the base cost the server charges |
| `Widget.WidgetState.LocalClick` | src/index.ts:406-409 | the local click moves the counters exactly as the server's `click` does |
| `Widget.WidgetState.LocalBuyMultiplier` | src/index.ts:411-419 | the local upgrade purchase moves the counters exactly as the server's `buy_multiplier` does |
| `Widget.WidgetState.LocalBuyAutoClicker` | src/index.ts:421-429 | the local hire moves the counters exactly as the server's `buy_auto_clicker` does |
| `Widget.WidgetState.LocalAutoClick` | src/index.ts:431-436 | the local passive tick moves the counters exactly as the server's `auto_click` does |
| `Protocol.ToolName` | src/index.ts:620-737 | each action is registered under its own name, which reads back as that action |
| `Protocol.ParseToolName` | src/index.ts:620-775 | exactly the six registered (and listed) names stand for an action |
| `Protocol.ParseToolNameSound` | src/index.ts:741-775 | a name that reads as an action is that action's name, so names and actions correspond one to one |
| `Protocol.ToolList` | src/index.ts:741-775 | the list has six tools and none of them takes a parameter |
| `Protocol.ToolListNamesActions` | src/index.ts:741-775 | the listed names are distinct, each stands for an action, and every action is listed |
| `Protocol.HandleMcp` | src/index.ts:739-778 | a `tools/list` request, and only that request, gets the tool list; anything else gets `OK` |

## Left out

- HTML and CSS: the widget markup, the privacy page and the terms page are static text.
- HTTP routing: the `fetch` handler, the demo redirect and the verification-token echo are I/O.
- The MCP library: `McpServer`, registering the tools and the widget resource, and parsing the request body with `request.json()`. `HandleMcp` takes the parsed `method` field. A body that does not parse is not modelled, and neither is a body that parses to something other than an object (such as `null`), on which reading `body.method` throws.
- `formatMoney`: it formats with floating-point division and `toFixed`.
- Doubles: costs beyond the range where `base * 3^tier` stays below 2^53 are exact here, where `Math.pow` would round. `clicks` is modelled as an unbounded integer rather than a double.
- Browser code: `createFloatingDollar` uses `Math.random`. Also left out are the DOM writes in `updateUI`, the asynchronous `callTool` paths that replace the widget's state with a reply's `structuredContent`, and the one-second `setInterval` tick.
- Concurrency: handlers run one at a time. The race between two overlapping requests for one user is not modelled.
- Aliasing: the map holds values, and each handler writes the new value back to the map. The source instead changes the object the map holds. This is the same here, because nothing else keeps a reference to that object between calls.
- `Widget.WidgetState.constructor`: requires that the host's tool output, when present, keeps the state invariant (clicks at least 0, multiplier at least 1, no negative level). The source takes whatever the host supplies; every state the server sends back keeps the invariant.
- `WidgetState`: the widget's state may also carry a `lastUpdated` copied from a reply. The widget never reads or writes it, so the model leaves it out.
- `Economy.PurchaseMultiplier`: requires `multiplier >= 1`, and `Economy.PurchaseAutoClicker` requires `autoClickerLevel >= 0`. Outside these bounds the source indexes the cost table with a negative index and computes `NaN`. The state invariant rules that out.
- `Widget.UpgradeCost`, `Widget.HireCost`: require the same bounds, because JavaScript's power with a negative exponent gives a fraction, which the model does not represent. The widget's fallback to the last table entry is modelled in `UpgradeIndex` and `HireIndex`.
- The Playwright tests and their configuration: they test the browser rendering. They also expect markup ("Clicker Game", `#clickBtn`) that this widget does not have.
