# Crazy-Trade game engine, modelled in Dafny

This project models the state-transition function of the trading-and-politics simulation game:
`gameReducer` in `game/engine.ts`, with its helper `addLog`, and the reference data it reads in
`game/database.ts`. That data is the country table, the company-type table, the asset table and
the initial game state.

The model has two layers:

- **`Engine`** (Engine.dfy) gives every command of the reducer as a pure function on a `State`
  value.
  - A function's contract says whether the command is rejected, in which case the state is
    unchanged and no log entry is added. Otherwise it gives the exact effect on cash,
    quantities, levels and the date.
  - `Reduce` dispatches a command. It yields `Thrown` when the source's run reads a property of
    a table row under an id that is not an own key of the table. Such a run throws a `TypeError` inside immer's `produce`, so
    the draft is discarded and the caller keeps its state.
- **`GameMachine`** (Game.dfy) is the reducer as the source runs it: a class `Game`, holding a
  class `Player`, whose fields each command updates step by step.
  - Each `forEach` of the source is a loop with invariants. These are the price noise, the
    liquidation check over the margin positions, the income sum and the base-price reset of a
    rollover, and the trend boost of lobbying.
  - Every method is proved to leave the game in the state the matching `Engine` function
    describes. So every property proved about those functions holds of the mutable game too.

The other modules hold the rest:

- **GameTypes** (Types.dfy) holds the entities: the state, the player, assets, holdings, margin
  positions, companies, the loan, the log and the commands.
- **Database** holds the tables and the initial state, with their well-formedness facts.
- **EngineProperties** holds the clock, the liquidation loop and the settlement of a month.
- **LedgerProperties** holds the round trips and cumulative effects of the ledgers.
- **Invariants** holds an invariant that the initial state satisfies and every admissible
  command keeps.
- **Findings** models the two counters the initial state leaves undefined.

Inputs beyond the state:

- A tick's random draws: one `r` in [-1, 1] per asset, where the source computes
  `(Math.random() - 0.5) * 2`.
- The fresh id of a new company, which the source takes from `uuidv4()`.

Numbers are `real`. Log messages are a datatype carrying the names and amounts the source's text
interpolates.

## Model

| member | source | states |
|---|---|---|
| `Database.Countries` | game/database.ts:3-16 | every country row is keyed by its own id and has a positive company cost modifier and a positive immigration cost |
| `Database.CountryIds` | game/database.ts:3-16 | the table's keys are exactly the twelve country ids of the source, no more and no fewer |
| `Database.CountryMarkets` | game/database.ts:4-15 | each country lists exactly the local markets of the source, in the source's order |
| `Database.LocalMarketsListed` | game/database.ts:4-15 | every local market a country lists is an asset of the asset table |
| `Database.ListedMarkets` | game/database.ts:25-82 | every id named as a local market is a key of the asset table |
| `Database.CompanyTypes` | game/database.ts:18-23 | every company type costs a positive amount and earns a twentieth of its cost as its base monthly income |
| `Database.Assets` | game/database.ts:25-82 | every asset is keyed by its own id, starts with price equal to its reference price and positive, has volatility in (0, 0.2] and trend in [0, 1] |
| `Database.Commodities` | game/database.ts:26-32 | the commodity rows are well formed in the sense above |
| `Database.TechStocks` | game/database.ts:33-40 | the tech-stock rows are well formed |
| `Database.Cryptocurrencies` | game/database.ts:41-49 | the crypto rows are well formed |
| `Database.PharmaStocks` | game/database.ts:50-57 | the pharma rows are well formed |
| `Database.RealEstateMarkets` | game/database.ts:58-63 | the real-estate rows are well formed |
| `Database.GlobalStocks` | game/database.ts:64-74 | the global-stock rows are well formed |
| `Database.IndustrialStocks` | game/database.ts:75-78 | the industrial rows are well formed |
| `Database.ConsumerStocks` | game/database.ts:79-82 | the consumer rows are well formed |
| `Database.InitialGlobalFactors` | game/database.ts:101-107 | every initial macro factor lies in [0, 1] |
| `Database.InitialState` | game/database.ts:84-111 | cash 1,000,000; empty portfolio, margin book, companies, permits and political capital; loan 0 at 5% within a 100,000 facility; 2024-01-01 with tick count and day progress 0; paused, not started, speed 1; the asset table as listed; empty log with the id counter at 0. The tick count 0 (game/database.ts:96) and the counter 0 are additions: the source literal sets neither, and the two Findings rows below show what follows from that |
| `Engine.Remove` | game/engine.ts:74 | deleting a key keeps every other key and drops only that one, so the enumeration order never grows |
| `Engine.JsRemainder` | game/engine.ts:55 | JavaScript's `%`: the remainder has the sign of the dividend, lies within one modulus of 0, differs from the dividend by a whole multiple of the modulus, and is the dividend itself when that is already in range |
| `Engine.DayProgress` | game/engine.ts:55 | the day progress of a non-negative tick count lies in [0, 1) and differs from ticks / 1000 by a whole number of days; within the first day it is ticks / 1000 |
| `Engine.AddLog` | game/engine.ts:10-20 | exactly one entry is prepended, carrying the current id and date; the oldest entry drops out once the log passes 200; the counter advances by one and nothing else changes |
| `Engine.LiquidateIfDue` | game/engine.ts:66-75 | one iteration of the liquidation loop touches only the player and the log |
| `Engine.Liquidations` | game/engine.ts:65-76 | the liquidation loop touches only the player and the log |
| `Engine.CreditIncome` | game/engine.ts:87-93 | the month wrap credits exactly the sum of all companies' monthly incomes |
| `Engine.ChargeInterest` | game/engine.ts:95-99 | interest of amount × rate / 12 is charged only when a loan is outstanding |
| `Engine.MonthWrap` | game/engine.ts:84-105 | the date moves to day 1 of the next month, into January of the next year after December |
| `Engine.TickRollover` | game/engine.ts:79-111 | a rollover restarts the ticks, advances the day by one (with the month wrap past day 30) and makes every reference price the current price |
| `Engine.Move` | game/engine.ts:53-62 | a running tick adds deltaTime × speed to the ticks, updates the day progress, moves every price by its draw, and changes nothing else |
| `Engine.Advance` | game/engine.ts:50-76 | a running tick up to its rollover changes only the clock, the prices, the player and the log |
| `Engine.StartGame` | game/engine.ts:24-31 | the game starts unpaused with residency, a permit and a zero political-capital account in the chosen country, and one log entry naming that country; the rest of the player, the assets, the clock, the speed and every other field stay as they were |
| `Engine.DismissEventPopup` | game/engine.ts:46-48 | the head of the event queue, if any, is dropped and nothing else changes |
| `Engine.AddToHolding` | game/engine.ts:141-145 | the quantities add up and the average cost is the quantity-weighted mean of the old average and the price |
| `Engine.Buy` | game/engine.ts:138-149 | rejected exactly when cash is below quantity × price; otherwise the cost is debited, the holding grows by the quantity, its cost basis grows by exactly the cost, a new holding is keyed by its asset id with average cost equal to the price, no other holding changes, and one entry is logged |
| `Engine.Sell` | game/engine.ts:150-158 | rejected exactly when the holding is absent or smaller than the quantity; otherwise the proceeds are credited and the holding shrinks by the quantity, or is deleted when at most 1e-5 is left, and one entry is logged |
| `Engine.LiquidationPrice` | game/engine.ts:170-173 | a long's liquidation price lies strictly between 0 and the entry price, and a short's lies above it |
| `Engine.OpenMarginPosition` | game/engine.ts:162-186 | rejected exactly when cash is below quantity × price / leverage; otherwise that margin is debited and the position replaces any earlier one on the asset; a new key is appended to the enumeration order and a replaced key keeps its place |
| `Engine.CompanyName` | game/engine.ts:199 | a given name is kept, and the name is never empty |
| `Engine.Establish` | game/engine.ts:188-208 | rejected exactly when cash is below base cost × country modifier; otherwise that cost is debited and one company is appended: the fresh id, level 1, the type's base income, an upgrade cost of twice the base cost |
| `Engine.FindCompany` | game/engine.ts:211 | the index of the first company with the id, and none exactly when no company has it |
| `Engine.Upgraded` | game/engine.ts:215-217 | the company gains one level and keeps its id, name and type; positive income and upgrade cost strictly grow |
| `Engine.UpgradeCompany` | game/engine.ts:210-220 | rejected exactly for an unknown id or cash below the upgrade cost; otherwise the upgrade cost is debited and only that company is upgraded |
| `Engine.DonateToParty` | game/engine.ts:222-231 | rejected exactly when cash is below the amount; otherwise the amount is debited and the country gains amount / 10000 political capital, every other country's capital unchanged |
| `Engine.Lobby` | game/engine.ts:233-248 | rejected exactly when the country's capital is below 100; otherwise 100 is deducted, only the assets of the industry get a trend 0.1 higher, capped at 1, and no trend passes 1 |
| `Engine.ApplyImmigration` | game/engine.ts:250-268 | with a permit only the residency moves; without one it is rejected exactly when cash is below the immigration cost, and otherwise the cost is debited, the permit is appended once, the residency stays, a missing or zero capital account is set to 0 and any other is kept, one entry is logged, and every other field stays as it was |
| `Engine.TakeLoan` | game/engine.ts:270-278 | rejected exactly when the loan would pass its maximum; otherwise loan and cash both grow by the amount, so the loan stays within the facility |
| `Engine.RepayLoan` | game/engine.ts:280-289 | repays min(amount, debt, cash); does nothing when that is at most 0; neither cash nor debt can go negative |
| `Engine.Reduce` | game/engine.ts:22-291 | the reducer throws exactly on the commands that read a table row under an id that is not an own key of the table; otherwise its result is the command's case applied to the state |
| `Engine.Apply` | game/engine.ts:34-44 | PAUSE_GAME and RESUME_GAME set only the pause flag, and SET_SPEED sets only the speed |
| `Engine.Noise` | game/engine.ts:58-62 | the asset's price is multiplied by 1 + volatility × r / 50 and nothing else of it changes |
| `Engine.ApplyNoise` | game/engine.ts:58-62 | every asset, and no other key, gets its own draw's noise |
| `Engine.ResetBasePrices` | game/engine.ts:108-110 | every asset, and no other key, gets its reference price set to its current price, all else kept |
| `Engine.TotalIncome` | game/engine.ts:88-91 | companies with non-negative incomes have a non-negative total |
| `Engine.NextDay` | game/engine.ts:115-131 | NEXT_DAY clears the ticks and the day progress, resets the reference prices and changes only the date and the assets |
| `Engine.ExecuteTrade` | game/engine.ts:133-160 | a trade either changes nothing or logs exactly one entry, and it touches only the cash and the portfolio of the player |
| `Engine.EstablishCompany` | game/engine.ts:188-194 | rejected exactly when cash is below base cost × the residency's modifier, and otherwise debits exactly that cost |
| `Engine.CapitalOf` | game/engine.ts:236 | the source's fallback to 0 for a missing account: the stored amount when the key exists, and 0 exactly when it is missing or 0 |
| `Engine.Boost` | game/engine.ts:242-244 | only the trend of an asset of the industry changes, and a trend at most 1 rises but stays at most 1 |
| `Engine.BoostIndustry` | game/engine.ts:241-245 | every asset, and no other key, is boosted for the industry |
| `EngineProperties.IdsBelowOrdered` | game/engine.ts:10-20 | log ids decrease strictly from the newest entry, so they are pairwise distinct |
| `EngineProperties.AddLogKeepsLogSane` | game/engine.ts:10-20 | adding an entry keeps the log within 200 entries and its ids fresh |
| `EngineProperties.RemoveKeepsDistinct` | game/engine.ts:74 | deleting a position's key keeps the keys of the enumeration order distinct |
| `EngineProperties.LiquidateIfDueEffect` | game/engine.ts:66-75 | a position past its threshold costs its margin, leaves the book and adds one log entry; any other leaves the state as it is |
| `EngineProperties.LiquidationsEffect` | game/engine.ts:65-76 | the loop deletes exactly the positions whose threshold was crossed and charges exactly their margins |
| `EngineProperties.SnapshotOnce` | game/engine.ts:65 | with the enumeration order matching the keys, every open position is visited, and no two visits are to the same asset, so each is visited once |
| `EngineProperties.FreshPositionSafe` | game/engine.ts:170-173 | a position just opened at a positive price with leverage at least 1 is not due for liquidation at that price |
| `EngineProperties.ThrowPoints` | game/engine.ts:24-257 | TICK throws exactly when a running game holds a position on an asset id that is not an own key of the asset table; a trade or margin opening throws exactly when its guard accepts such an asset id; START_GAME, APPLY_IMMIGRATION and ESTABLISH_COMPANY throw exactly on a country id that is not an own key of the country table; no other command throws |
| `EngineProperties.SnapshotLiquidated` | game/engine.ts:65-76 | a key is liquidated exactly when its position's threshold is crossed: a long at or below its liquidation price, a short at or above it |
| `EngineProperties.LiquidatedMembers` | game/engine.ts:67-71 | a key is liquidated exactly when some visited position on it crossed its threshold |
| `EngineProperties.CreditIncomeEffect` | game/engine.ts:87-93 | income is credited, its entry carries the current date, and the log stays sane |
| `EngineProperties.ChargeInterestEffect` | game/engine.ts:95-99 | the month's interest is charged and the log stays sane |
| `EngineProperties.MonthWrapEffect` | game/engine.ts:83-105 | the month wrap changes cash by total income minus the month's interest and moves the date to the first of the next month; the entries it logs carry the month before the year wraps |
| `EngineProperties.TickRolloverDate` | game/engine.ts:79-105 | a rollover advances the date by exactly one calendar day, keeps day in [1, 30] and month in [1, 12], and restarts the ticks |
| `EngineProperties.TickRolloverEffect` | game/engine.ts:79-111 | a rollover settles income and interest only when the day passes 30, and sets every reference price to the current price |
| `EngineProperties.TickFrame` | game/engine.ts:50-113 | TICK of a paused or unstarted game changes nothing; a running one keeps the asset keys and changes only the player, the date, the assets and the log |
| `EngineProperties.TickClock` | game/engine.ts:50-111 | a paused or unstarted tick changes nothing; otherwise the ticks grow by deltaTime × speed, and once they reach 1000 the date advances by exactly one day and the ticks restart at 0, the date staying valid |
| `EngineProperties.AdvanceEffect` | game/engine.ts:50-76 | the part of a tick before the rollover liquidates exactly the positions crossed at the new prices and charges exactly their margins |
| `EngineProperties.TickPrices` | game/engine.ts:58-62 | a running tick sets every price to price × (1 + volatility × r / 50) and, on a rollover, the reference price to the new price |
| `EngineProperties.TickPositions` | game/engine.ts:65-76 | a position survives a tick exactly when its asset's new price has not crossed its threshold, and a survivor is untouched |
| `EngineProperties.TickCash` | game/engine.ts:50-111 | a tick's cash effect is minus the liquidated margins plus, only on a month wrap, income minus interest |
| `EngineProperties.NextDayEffect` | game/engine.ts:115-130 | NEXT_DAY advances the date by exactly one day, restarts ticks and progress, resets every reference price, and settles nothing |
| `LedgerProperties.NoiseBounds` | game/engine.ts:58-62 | with a draw in [-1, 1] and volatility at most 0.2, a tick moves a price by at most 0.4%, so a positive price stays positive |
| `LedgerProperties.BuyThenSell` | game/engine.ts:138-158 | buying then selling the same quantity at the same price restores cash and every other holding, and this holding's quantity, up to dust |
| `LedgerProperties.SellAll` | game/engine.ts:150-157 | selling a whole holding deletes it and credits its value |
| `LedgerProperties.OpenThenLiquidate` | game/engine.ts:162-186 | opening a position and liquidating it costs twice its margin |
| `LedgerProperties.TotalIncomeAppend` | game/engine.ts:88-91 | the income of two lists of companies together is the sum of their incomes |
| `LedgerProperties.TotalIncomeReplace` | game/engine.ts:88-91 | replacing one company changes the total income by the difference of their incomes |
| `LedgerProperties.TotalIncomeSign` | game/engine.ts:88-92 | companies with positive incomes have a positive total, so an income entry is logged whenever there is a company |
| `LedgerProperties.EstablishAddsIncome` | game/engine.ts:188-208 | an established company adds its type's base income to every later month's income |
| `LedgerProperties.UpgradeAddsIncome` | game/engine.ts:210-220 | an upgrade raises every later month's income by half the company's income |
| `LedgerProperties.TakeThenRepay` | game/engine.ts:270-289 | a loan taken and repaid in full restores cash and loan, and only the log differs |
| `LedgerProperties.RepayClears` | game/engine.ts:280-289 | with the cash to cover it, repaying at least the debt clears the loan |
| `Invariants.InitialInv` | game/database.ts:84-111 | the initial state satisfies the invariant |
| `Invariants.InvRulesOutCrashes` | game/engine.ts:65-68 | under the invariant neither a tick nor a sale can throw |
| `Invariants.InvTickMarket` | game/engine.ts:58-62 | a tick keeps every price and reference price positive |
| `Invariants.InvTickPlayer` | game/engine.ts:50-111 | a tick keeps the calendar valid, the log sane and the margin book keyed by the enumeration order, and only removes positions |
| `Invariants.InvTick` | game/engine.ts:50-113 | a tick keeps the invariant |
| `Invariants.InvNextDay` | game/engine.ts:115-131 | NEXT_DAY keeps the invariant |
| `Invariants.InvBuy` | game/engine.ts:138-149 | a buy of a positive quantity keeps the invariant |
| `Invariants.InvSell` | game/engine.ts:150-158 | a sale keeps the invariant |
| `Invariants.InvOpenMargin` | game/engine.ts:162-186 | opening a margin position keeps the invariant |
| `Invariants.InvEstablish` | game/engine.ts:188-208 | establishing a company keeps the invariant |
| `Invariants.InvUpgrade` | game/engine.ts:210-220 | upgrading a company keeps the invariant |
| `Invariants.InvDonate` | game/engine.ts:222-231 | a donation keeps the invariant |
| `Invariants.InvLobby` | game/engine.ts:233-248 | lobbying keeps every trend at most 1 and the invariant |
| `Invariants.InvImmigration` | game/engine.ts:250-268 | an immigration command keeps the invariant |
| `Invariants.InvStartGame` | game/engine.ts:24-31 | starting the game keeps the invariant |
| `Invariants.InvTakeLoan` | game/engine.ts:270-278 | a loan of a positive amount keeps the loan within its facility |
| `Invariants.InvRepayLoan` | game/engine.ts:280-289 | a repayment keeps the invariant |
| `Invariants.InvSession` | game/engine.ts:34-48 | pause, resume, speed and dismissal keep the invariant |
| `Invariants.InvPreserved` | game/engine.ts:22-291 | every admissible command that does not throw keeps the invariant |
| `Invariants.InvMarketCommands` | game/engine.ts:50-186 | the clock, trade and margin commands keep the invariant |
| `Invariants.InvCompanyAndBankCommands` | game/engine.ts:188-289 | the company and bank commands keep the invariant |
| `Invariants.InvPoliticsCommands` | game/engine.ts:222-268 | the start, donation, lobbying and immigration commands keep the invariant |
| `GameMachine.Player.constructor` | game/database.ts:85-94 | the player object holds exactly the given player state |
| `GameMachine.Game.constructor` | game/database.ts:84-111 | a new game object is in the initial state |
| `GameMachine.Game.AddLog` | game/engine.ts:10-20 | `unshift` and `pop` on the log field leave the game in the state `Engine.AddLog` describes |
| `GameMachine.Game.StartGame` | game/engine.ts:24-31 | the in-place START_GAME reaches `Engine.StartGame`'s state |
| `GameMachine.Game.DismissEventPopup` | game/engine.ts:46-48 | `shift` on the queue reaches `Engine.DismissEventPopup`'s state |
| `GameMachine.Game.Tick` | game/engine.ts:50-113 | the in-place TICK reaches `Engine.Tick`'s state |
| `GameMachine.Game.AdvanceClock` | game/engine.ts:53-76 | the in-place clock, price and liquidation steps of a running tick reach `Engine.Advance`'s state |
| `GameMachine.Game.MoveClock` | game/engine.ts:53-62 | the in-place clock and price steps reach `Engine.Move`'s state |
| `GameMachine.Game.MovePrices` | game/engine.ts:58-62 | the price loop sets every asset's price to its noised price and changes nothing else |
| `GameMachine.Game.CheckLiquidations` | game/engine.ts:65-76 | the liquidation loop over the positions as they stood reaches `Engine.Liquidations`' state |
| `GameMachine.Game.LiquidateIfDue` | game/engine.ts:66-75 | one iteration of the liquidation loop reaches `Engine.LiquidateIfDue`'s state |
| `GameMachine.Game.RolloverDay` | game/engine.ts:79-111 | the in-place rollover reaches `Engine.TickRollover`'s state |
| `GameMachine.Game.MonthWrap` | game/engine.ts:84-105 | the in-place month wrap reaches `Engine.MonthWrap`'s state |
| `GameMachine.Game.Settle` | game/engine.ts:88-105 | income, then interest, then the year wrap, in the source's order |
| `GameMachine.Game.CreditIncome` | game/engine.ts:87-93 | the income loop and credit reach `Engine.CreditIncome`'s state |
| `GameMachine.Game.ChargeInterest` | game/engine.ts:95-99 | the interest charge reaches `Engine.ChargeInterest`'s state |
| `GameMachine.Game.SumIncome` | game/engine.ts:88-91 | the accumulating loop returns the total income of the companies |
| `GameMachine.Game.ResetBasePrices` | game/engine.ts:108-110 | the loop sets every reference price to the current price and changes nothing else |
| `GameMachine.Game.NextDay` | game/engine.ts:115-131 | the in-place NEXT_DAY reaches `Engine.NextDay`'s state |
| `GameMachine.Game.ExecuteTrade` | game/engine.ts:133-160 | the in-place EXECUTE_TRADE reaches `Engine.ExecuteTrade`'s state |
| `GameMachine.Game.Buy` | game/engine.ts:138-149 | the buying branch reaches `Engine.Buy`'s state |
| `GameMachine.Game.BuyHolding` | game/engine.ts:140-149 | an accepted purchase reaches `Engine.Buy`'s state |
| `GameMachine.Game.Sell` | game/engine.ts:150-158 | the selling branch reaches `Engine.Sell`'s state |
| `GameMachine.Game.SellHolding` | game/engine.ts:152-157 | an accepted sale reaches `Engine.Sell`'s state |
| `GameMachine.Game.OpenMarginPosition` | game/engine.ts:162-186 | the in-place OPEN_MARGIN_POSITION reaches `Engine.OpenMarginPosition`'s state |
| `GameMachine.Game.OpenPosition` | game/engine.ts:168-185 | an accepted opening reaches `Engine.OpenMarginPosition`'s state |
| `GameMachine.Game.EstablishCompany` | game/engine.ts:188-208 | the in-place ESTABLISH_COMPANY reaches `Engine.EstablishCompany`'s state |
| `GameMachine.Game.Establish` | game/engine.ts:192-207 | the guarded rest of ESTABLISH_COMPANY reaches `Engine.Establish`'s state |
| `GameMachine.Game.AddCompany` | game/engine.ts:195-206 | an affordable establishment (`push` onto the companies) reaches `Engine.Establish`'s state |
| `GameMachine.Game.FindCompany` | game/engine.ts:211 | the scan returns `Engine.FindCompany`'s index |
| `GameMachine.Game.UpgradeCompany` | game/engine.ts:210-220 | the in-place upgrade of the found company reaches `Engine.UpgradeCompany`'s state |
| `GameMachine.Game.DonateToParty` | game/engine.ts:222-231 | the in-place donation reaches `Engine.DonateToParty`'s state |
| `GameMachine.Game.Lobby` | game/engine.ts:233-248 | the in-place LOBBY reaches `Engine.Lobby`'s state |
| `GameMachine.Game.BoostTrends` | game/engine.ts:241-245 | the trend loop boosts exactly the industry's assets, capped at 1 |
| `GameMachine.Game.ApplyImmigration` | game/engine.ts:250-268 | the in-place APPLY_IMMIGRATION reaches `Engine.ApplyImmigration`'s state |
| `GameMachine.Game.TakeLoan` | game/engine.ts:270-278 | the in-place TAKE_LOAN reaches `Engine.TakeLoan`'s state |
| `GameMachine.Game.RepayLoan` | game/engine.ts:280-289 | the in-place REPAY_LOAN reaches `Engine.RepayLoan`'s state |
| `GameMachine.Game.Dispatch` | game/engine.ts:22-291 | running a command on the game gives `Engine.Reduce`'s outcome; a command that throws leaves the game as it was |
| `GameMachine.Game.Perform` | game/engine.ts:23-290 | the switch over the commands reaches `Engine.Apply`'s state |
| `Findings.JsAdd` | game/engine.ts:54 | adding to a number gives a number; adding to `undefined` or NaN gives NaN |
| `Findings.JsPostIncrement` | game/engine.ts:12 | `x++` yields the old number and stores the next, and from `undefined` yields and stores NaN |
| `Findings.AsWrittenNeverRollsOver` | game/engine.ts:54-79 | from an undefined tick count no run of ticks rolls a day over, until a NEXT_DAY resets the count |
| `Findings.AsWrittenCounterexample` | game/database.ts:96 | one tick of a full day rolls over from a count of 0 but not from the initial literal's missing count |
| `Findings.CorrectedRollsOver` | game/engine.ts:54-79 | from a count below a day, ticks whose deltas add up to the rest of the day roll it over at least once |
| `Findings.CorrectedFirstDayRollsOver` | game/engine.ts:50-111 | in a game started from the model's initial state, a first tick of a day's worth rolls the date over by one day |
| `Findings.IssuedIds` | game/engine.ts:12 | `n` log entries receive `n` ids |
| `Findings.AsWrittenIdsAreNaN` | game/engine.ts:12 | from an undefined counter every issued id is NaN |
| `Findings.AsWrittenIdsCollide` | game/database.ts:84-111 | the first two log entries of a new game share the id NaN |
| `Findings.CorrectedIdsCount` | game/engine.ts:12 | from a counter of k the ids are k, k + 1, and so on |
| `Findings.CorrectedIdsDistinct` | game/database.ts:84-111 | with the counter at 0 in the initial state, the ids of a new game's entries are pairwise distinct |

## Left out

- Price noise source: `Math.random` is replaced by one draw per asset, passed in. `uuidv4` is replaced by a fresh company id, passed in.
- Floating point: numbers are exact reals. Rounding, the purpose of the 1e-5 dust threshold, and NaN or infinity in the engine's own arithmetic are not modelled. `Findings` models NaN only for the two counters the initial literal leaves undefined.
- Leverage 0: `Engine.OpenMarginPosition` requires a non-zero leverage. With leverage 0 the source divides by zero, and the result is floating-point infinity. The trade screen offers only leverages 2, 5 and 10 (components/TradeModal.tsx:20).
- Engine.Buy: a buy that brings an existing holding to quantity 0 (a negative quantity) divides by zero in the source. That case is excluded by `TradeDefined` and not modelled.
- Log text: messages are a datatype carrying the values the text interpolates. `formatCurrency`, `toFixed` and the template strings are left out. `Engine.NatToString` renders only the company number in a default company name.
- The asset `dna` sensitivities, event and news generation, `incomeFrozenUntil`, and the daily news and event headline: the engine never reads or writes them. They are carried in the state (except `dna`) and never changed.
- Unknown command types: the reducer's `switch` has no default. The command datatype covers exactly the sixteen command types, so no other can be dispatched.
- Inherited keys: the tables, the portfolio and the political-capital accounts are plain JavaScript objects, modelled as maps of their own keys. Ids inherited from `Object.prototype` (`toString`, `constructor` and the like) are not modelled. The source finds such an id, so it does not throw where the model yields `Thrown` (START_GAME, APPLY_IMMIGRATION, ESTABLISH_COMPANY), and a sale of one passes the guard and is credited where `Engine.Sell` rejects it. The screens dispatch only ids taken from the tables.
- The immer draft: `produce` applies a case to a copy and discards it when the case throws. `GameMachine.Game.Dispatch` checks `Engine.Throws` first and leaves the game untouched in that case. It does not model a throw that happens halfway through a case.
- Invariants.InvPreserved: covers the commands the game's screens can dispatch. These have a positive trade quantity (components/TradeModal.tsx:37) and a positive loan amount (components/ views/BankView.tsx:17), and the tick draws lie in [-1, 1]. A command with a negative amount can break the invariant, and the reducer does not guard against it.
- Quirks the model keeps as written:
  - a rollover inside TICK keeps the day progress computed before the ticks restart;
  - the month's income and interest entries carry month 13 at a year's end;
  - NEXT_DAY settles no income or interest;
  - PAUSE_GAME and RESUME_GAME do not check that the game has started;
  - START_GAME appends a permit even when one exists.
- The React components, the formatting utilities and the net-worth sum are display code. They are not part of this model.

## Findings

| source | as written | input that shows it | evidently intended | confidence | as-written member | corrected member |
|---|---|---|---|---|---|---|
| game/database.ts:96 | the initial date has no `ticks`, so the first TICK adds to `undefined` and the count becomes NaN; NaN is never at least 1000, so no run of TICKs rolls the day over until a NEXT_DAY (game/engine.ts:117) resets the count to 0 | a new game, started, then TICK with deltaTime 1000 at speed 1: the date stays 2024-01-01 | the initial date has `ticks: 0`, so the first day rolls over after 1000 ticks | not executed | `Findings.AsWrittenCounterexample` | `Findings.CorrectedFirstDayRollsOver` |
| game/database.ts:84-111 | the initial state has no `nextLogId`, so `addLog`'s `state.nextLogId++` stamps every entry with NaN; the log screen keys its rows by this id | a new game, START_GAME then TAKE_LOAN 1000: both entries have id NaN | the initial state has `nextLogId: 0`, so ids are 0, 1, 2, ... and distinct | not executed | `Findings.AsWrittenIdsCollide` | `Findings.CorrectedIdsDistinct` |
