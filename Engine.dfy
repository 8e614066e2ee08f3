/** The game's state-transition function as a pure function on state values: one function per
    command of the reducer, in the order the reducer's cases mutate its draft, and `Reduce`, which
    dispatches a command. The random draw of every asset on a tick and the id of a new company are
    inputs. A command whose run in the source throws (a lookup of a missing table row) yields
    `Thrown`: the draft is discarded and the caller keeps its state. */
module Engine {
  import opened GameTypes
  import Database

  const TicksPerDay: real := 1000.0
  const DaysPerMonth: int := 30
  const MonthsPerYear: int := 12
  const LogCapacity: int := 200
  /** A holding whose quantity falls to this or below is deleted. */
  const DustQuantity: real := 0.00001
  /** The fraction of the margin a position may lose before it is liquidated. */
  const LiquidationBuffer: real := 0.9
  const LobbyCost: real := 100.0
  const LobbyTrendBoost: real := 0.1
  const TrendCap: real := 1.0
  /** Cash donated per unit of political capital gained. */
  const DonationPerCapital: real := 10000.0

  datatype Outcome = Next(state: State) | Thrown

  // ---------------------------------------------------------------- helpers

  function Min(a: real, b: real): real { if a <= b then a else b }

  function Stamp(d: GameDate): LogDate { LogDate(d.year, d.month, d.day) }

  /** `s` without the occurrences of `x`: a key deleted from a JavaScript object leaves its
      enumeration order. */
  function Remove(s: seq<string>, x: string): (r: seq<string>)
    ensures forall y :: y in r <==> y in s && y != x
    ensures |r| <= |s|
  {
    if s == [] then []
    else if s[0] == x then Remove(s[1..], x)
    else [s[0]] + Remove(s[1..], x)
  }

  function DigitChar(d: nat): char
    requires d < 10
  {
    "0123456789"[d]
  }

  /** The decimal numeral of `n`, as a template literal prints it. */
  function NatToString(n: nat): (r: string)
    ensures |r| > 0
    decreases n
  {
    if n < 10 then [DigitChar(n)] else NatToString(n / 10) + [DigitChar(n % 10)]
  }

  /** A fraction of a positive modulus is non-negative and below the modulus. */
  lemma ScaledFraction(d: real, m: real)
    requires 0.0 <= d < 1.0 && m > 0.0
    ensures 0.0 <= d * m < m
  {
    assert m - d * m == (1.0 - d) * m;
  }

  /** The remainder of `y` modulo `m` for non-negative `y`. */
  function FloorRemainder(y: real, m: real): (r: real)
    requires y >= 0.0 && m > 0.0
    ensures 0.0 <= r < m
    ensures y < m ==> r == y
    ensures ((y - r) / m).Floor >= 0 && ((y - r) / m).Floor as real == (y - r) / m
  {
    var q := y / m;
    var d := q - q.Floor as real;
    var r := y - (q.Floor as real) * m;
    assert r == d * m;
    ScaledFraction(d, m);
    assert (y - r) / m == q.Floor as real;
    if y < m then y else r
  }

  /** When `y - f` is a whole multiple of `m`, so is `-y - -f`. */
  lemma NegatedMultiple(y: real, f: real, m: real)
    requires m > 0.0 && ((y - f) / m).Floor as real == (y - f) / m
    ensures ((-y - -f) / m).Floor as real == (-y - -f) / m
  {
    var k := ((y - f) / m).Floor;
    assert (-y - -f) / m == (-k) as real;
  }

  /** JavaScript's `%` on numbers: the remainder of the division truncated toward zero, which has
      the sign of the dividend. */
  function JsRemainder(x: real, m: real): (r: real)
    requires m > 0.0
    ensures x >= 0.0 ==> 0.0 <= r < m
    ensures x <= 0.0 ==> -m < r <= 0.0
    ensures 0.0 <= x < m ==> r == x
    ensures ((x - r) / m).Floor as real == (x - r) / m
  {
    if x >= 0.0 then FloorRemainder(x, m)
    else
      var f := FloorRemainder(-x, m);
      NegatedMultiple(-x, f, m);
      -f
  }

  // ---------------------------------------------------------------- the audit log

  /** `addLog`: prepend one entry stamped with the current date and the next id, drop the oldest
      entry when the log grows past its capacity, and advance the id counter. */
  function AddLog(s: State, kind: LogType, msg: Message): (r: State)
    ensures |r.log| > 0 && r.log[0] == LogEntry(s.nextLogId, Stamp(s.date), kind, msg)
    ensures |r.log| == if |s.log| < LogCapacity then |s.log| + 1 else |s.log|
    ensures r.log[1..] == s.log[..|r.log| - 1]
    ensures r == s.(log := r.log, nextLogId := s.nextLogId + 1)
  {
    var log := [LogEntry(s.nextLogId, Stamp(s.date), kind, msg)] + s.log;
    s.(log := if |log| > LogCapacity then log[..|log| - 1] else log, nextLogId := s.nextLogId + 1)
  }

  // ---------------------------------------------------------------- which commands throw

  /** A spot trade throws when it succeeds on an asset that is not in the market: its log
      message reads the asset's name. */
  predicate TradeThrows(s: State, assetId: string, quantity: real, price: real, isBuy: bool)
  {
    assetId !in s.assets &&
    if isBuy then s.player.cash >= quantity * price
    else assetId in s.player.portfolio && s.player.portfolio[assetId].quantity >= quantity
  }

  /** Opening a margin position throws when it succeeds on an asset that is not in the market. */
  predicate MarginThrows(s: State, assetId: string, quantity: real, price: real, leverage: real)
  {
    leverage != 0.0 && assetId !in s.assets && s.player.cash >= quantity * price / leverage
  }

  /** A running tick throws when an open position is on an asset that is not in the market: the
      liquidation check reads that asset's price. */
  predicate TickThrows(s: State)
  {
    Running(s) && !PositionsListed(s)
  }

  /** The clock runs: the game has started and is not paused. */
  predicate Running(s: State)
  {
    !s.isPaused && s.hasStarted
  }

  /** Every open position is on an asset of the market. */
  predicate PositionsListed(s: State)
  {
    forall k :: k in s.player.marginPositions ==> s.player.marginPositions[k].assetId in s.assets
  }

  /** The commands whose run in the source reads a property of an undefined table row: a running
      tick with a position on an unlisted asset, a spot trade or margin opening on an unlisted
      asset (see above), establishing a company while the residency is not a listed country, and
      starting the game in or immigrating to an unlisted country. */
  predicate Throws(s: State, a: Action)
  {
    match a
    case Tick(_) => TickThrows(s)
    case StartGame(c) => c !in Database.Countries()
    case ExecuteTrade(id, q, p, isBuy) => TradeThrows(s, id, q, p, isBuy)
    case OpenMarginPosition(id, q, p, leverage, _) => MarginThrows(s, id, q, p, leverage)
    case EstablishCompany(_, _) => s.player.currentResidency !in Database.Countries()
    case ApplyImmigration(c) => c !in Database.Countries()
    case _ => false
  }

  /** A buy that brings a holding to quantity 0 divides by zero in the source; its floating-point
      result is not modelled. */
  predicate TradeDefined(s: State, assetId: string, quantity: real, isBuy: bool)
  {
    isBuy && assetId in s.player.portfolio ==> s.player.portfolio[assetId].quantity + quantity != 0.0
  }

  /** The commands the model gives a meaning to: a margin position with leverage 0 and a buy
      covered by `TradeDefined` are left out. */
  predicate Defined(s: State, a: Action)
  {
    match a
    case OpenMarginPosition(_, _, _, leverage, _) => leverage != 0.0
    case ExecuteTrade(id, q, _, isBuy) => TradeDefined(s, id, q, isBuy)
    case _ => true
  }

  // ---------------------------------------------------------------- clock and market

  /** The price of one asset after one tick's noise: `price += price * volatility * (r / 50)`. */
  function Noise(a: Asset, draw: real): (r: Asset)
    ensures r == a.(price := r.price)
    ensures r.price == a.price * (1.0 + a.volatility * draw / 50.0)
  {
    a.(price := a.price + a.price * a.volatility * (draw / 50.0))
  }

  function ApplyNoise(assets: map<string, Asset>, draws: map<string, real>): (r: map<string, Asset>)
    requires assets.Keys <= draws.Keys
    ensures r.Keys == assets.Keys
    ensures forall id :: id in r ==> r[id] == Noise(assets[id], draws[id])
  {
    map id | id in assets :: Noise(assets[id], draws[id])
  }

  /** Every reference price becomes the current price. */
  function ResetBasePrices(assets: map<string, Asset>): (r: map<string, Asset>)
    ensures r.Keys == assets.Keys
    ensures forall id :: id in r ==> r[id].basePrice == r[id].price && r[id] == assets[id].(basePrice := r[id].basePrice)
  {
    map id | id in assets :: assets[id].(basePrice := assets[id].price)
  }

  predicate ShouldLiquidate(pos: MarginPosition, price: real)
  {
    if pos.isShort then price >= pos.liquidationPrice else price <= pos.liquidationPrice
  }

  /** `Object.values(marginPositions)`: the positions in key order. The contract only exposes
      the sequence to callers; what the visit promises (every open position once) is
      `EngineProperties.SnapshotOnce`. */
  function Snapshot(p: PlayerState): (r: seq<MarginPosition>)
    requires forall k :: k in p.marginOrder ==> k in p.marginPositions
    ensures |r| == |p.marginOrder|
    ensures forall i :: 0 <= i < |r| ==> r[i] == p.marginPositions[p.marginOrder[i]]
  {
    seq(|p.marginOrder|, i requires 0 <= i < |p.marginOrder| => p.marginPositions[p.marginOrder[i]])
  }

  /** One iteration of the liquidation loop, for the position `pos` taken from the snapshot. */
  function LiquidateIfDue(s: State, pos: MarginPosition): (r: State)
    requires pos.assetId in s.assets
    ensures r == s.(player := r.player, log := r.log, nextLogId := r.nextLogId)
  {
    var asset := s.assets[pos.assetId];
    if !ShouldLiquidate(pos, asset.price) then s
    else
      var s1 := s.(player := s.player.(cash := s.player.cash - pos.initialMargin));
      var s2 := AddLog(s1, Margin, PositionLiquidated(asset.name, pos.initialMargin));
      s2.(player := s2.player.(marginPositions := s2.player.marginPositions - {pos.assetId},
                               marginOrder := Remove(s2.player.marginOrder, pos.assetId)))
  }

  /** The liquidation loop over the remaining positions of the snapshot. */
  function Liquidations(s: State, positions: seq<MarginPosition>): (r: State)
    requires forall i :: 0 <= i < |positions| ==> positions[i].assetId in s.assets
    ensures r == s.(player := r.player, log := r.log, nextLogId := r.nextLogId)
    decreases |positions|
  {
    if positions == [] then s
    else Liquidations(LiquidateIfDue(s, positions[0]), positions[1..])
  }

  /** The sum of the companies' monthly incomes. */
  function TotalIncome(companies: seq<Company>): (r: real)
    ensures (forall i :: 0 <= i < |companies| ==> companies[i].monthlyIncome >= 0.0) ==> r >= 0.0
  {
    if companies == [] then 0.0
    else TotalIncome(companies[..|companies| - 1]) + companies[|companies| - 1].monthlyIncome
  }

  /** Month-wrap income: every company's monthly income is credited, and logged when positive. */
  function CreditIncome(s: State): (r: State)
    ensures r.player == s.player.(cash := s.player.cash + TotalIncome(s.player.companies))
    ensures r == s.(player := r.player, log := r.log, nextLogId := r.nextLogId)
  {
    var total := TotalIncome(s.player.companies);
    var s1 := s.(player := s.player.(cash := s.player.cash + total));
    if total > 0.0 then AddLog(s1, Corporate, IncomeReceived(total)) else s1
  }

  /** Month-wrap interest: a twelfth of the annual rate on an outstanding loan. */
  function ChargeInterest(s: State): (r: State)
    ensures s.player.loan.amount <= 0.0 ==> r == s
    ensures s.player.loan.amount > 0.0 ==>
      r.player == s.player.(cash := s.player.cash - s.player.loan.amount * (s.player.loan.interestRate / 12.0))
    ensures r == s.(player := r.player, log := r.log, nextLogId := r.nextLogId)
  {
    if s.player.loan.amount > 0.0 then
      var interest := s.player.loan.amount * (s.player.loan.interestRate / 12.0);
      AddLog(s.(player := s.player.(cash := s.player.cash - interest)), Bank, InterestPaid(interest))
    else s
  }

  /** The month wrap of a tick's day rollover: the day becomes 1 and the month advances, income
      and interest are settled (their log entries carry this intermediate date), then the year
      wraps. */
  function MonthWrap(s: State): (r: State)
    ensures r.date == if s.date.month + 1 > MonthsPerYear
                      then s.date.(day := 1, month := 1, year := s.date.year + 1)
                      else s.date.(day := 1, month := s.date.month + 1)
    ensures r == s.(player := r.player, date := r.date, log := r.log, nextLogId := r.nextLogId)
  {
    var s1 := s.(date := s.date.(day := 1, month := s.date.month + 1));
    var s2 := ChargeInterest(CreditIncome(s1));
    if s2.date.month > MonthsPerYear then s2.(date := s2.date.(month := 1, year := s2.date.year + 1))
    else s2
  }

  /** The day rollover of a tick: the tick count restarts, the day advances (with the month wrap
      when it passes 30), and every asset's reference price becomes its current price. The day
      progress computed earlier in the tick is left as it is. */
  function TickRollover(s: State): (r: State)
    ensures r.date.ticks == 0.0 && r.date.dayProgress == s.date.dayProgress
    ensures s.date.day + 1 <= DaysPerMonth ==> r.date == s.date.(ticks := 0.0, day := s.date.day + 1)
    ensures s.date.day + 1 > DaysPerMonth ==> r.date == MonthWrap(s.(date := s.date.(ticks := 0.0, day := s.date.day + 1))).date
    ensures r.assets == ResetBasePrices(s.assets)
    ensures r == s.(player := r.player, date := r.date, assets := r.assets, log := r.log, nextLogId := r.nextLogId)
  {
    var s1 := s.(date := s.date.(ticks := 0.0, day := s.date.day + 1));
    var s2 := if s1.date.day > DaysPerMonth then MonthWrap(s1) else s1;
    s2.(assets := ResetBasePrices(s2.assets))
  }

  /** No key occurs twice. */
  predicate Distinct(s: seq<string>)
  {
    forall i, j :: 0 <= i < j < |s| ==> s[i] != s[j]
  }

  /** The recorded enumeration order lists every open position's key exactly once. */
  predicate OrderMatches(p: PlayerState)
  {
    Distinct(p.marginOrder) &&
    (forall k :: k in p.marginOrder ==> k in p.marginPositions) &&
    (forall k :: k in p.marginPositions ==> k in p.marginOrder)
  }

  /** What the model of a tick needs: a draw for every asset, and the enumeration order of the
      positions. */
  predicate TickReady(s: State, draws: map<string, real>)
  {
    s.assets.Keys <= draws.Keys && OrderMatches(s.player)
  }

  /** A command's inputs beyond the state: a running tick needs its draws. */
  predicate InputsReady(s: State, a: Action, draws: map<string, real>)
  {
    a.Tick? && Running(s) ==> TickReady(s, draws)
  }

  /** TICK: nothing while paused or before the start; otherwise advance the ticks by the scaled
      elapsed time, move every price by its draw, liquidate the positions whose threshold the new
      price crossed, and roll the day over once the day's ticks are used up. */
  function Tick(s: State, deltaTime: real, draws: map<string, real>): State
    requires Running(s) ==> TickReady(s, draws)
    requires !TickThrows(s)
  {
    if s.isPaused || !s.hasStarted then s
    else
      var s1 := Advance(s, deltaTime, draws);
      if s1.date.ticks >= TicksPerDay then TickRollover(s1) else s1
  }

  /** The fraction of the day elapsed after `ticks` ticks: `(ticks % 1000) / 1000` with the
      remainder of JavaScript's `%`. */
  function DayProgress(ticks: real): (p: real)
    ensures ticks >= 0.0 ==> 0.0 <= p < 1.0
    ensures 0.0 <= ticks < 1000.0 ==> p == ticks / 1000.0
    ensures (ticks / 1000.0 - p).Floor as real == ticks / 1000.0 - p
  {
    var r := JsRemainder(ticks, 1000.0);
    assert ticks / 1000.0 - r / 1000.0 == (ticks - r) / 1000.0;
    r / 1000.0
  }

  /** A running tick up to the day rollover: the clock and the prices move, then the liquidation
      loop runs over the positions in key order at the new prices. */
  function Advance(s: State, deltaTime: real, draws: map<string, real>): (r: State)
    requires TickReady(s, draws) && PositionsListed(s)
    ensures var ticks := s.date.ticks + deltaTime * s.gameSpeed;
      r.date == s.date.(ticks := ticks, dayProgress := DayProgress(ticks))
    ensures r.assets == ApplyNoise(s.assets, draws)
    ensures r == s.(player := r.player, date := r.date, assets := r.assets, log := r.log, nextLogId := r.nextLogId)
  {
    var s1 := Move(s, deltaTime, draws);
    var r := Liquidations(s1, Snapshot(s1.player));
    var t := s.date.ticks + deltaTime * s.gameSpeed;
    assert s1.date.ticks == t;
    assert s1.date.dayProgress == DayProgress(t);
    assert r.date == s1.date;
    r
  }

  /** The first steps of a running tick: the ticks advance by the scaled elapsed time and the day
      progress follows them, and every price moves by its draw. */
  function Move(s: State, deltaTime: real, draws: map<string, real>): (r: State)
    requires s.assets.Keys <= draws.Keys
    ensures var ticks := s.date.ticks + deltaTime * s.gameSpeed;
      r.date == s.date.(ticks := ticks, dayProgress := DayProgress(ticks))
    ensures r.assets == ApplyNoise(s.assets, draws) && r.assets.Keys == s.assets.Keys
    ensures r == s.(date := r.date, assets := r.assets)
  {
    var ticks := s.date.ticks + deltaTime * s.gameSpeed;
    s.(date := s.date.(ticks := ticks, dayProgress := DayProgress(ticks)),
       assets := ApplyNoise(s.assets, draws))
  }

  /** NEXT_DAY: advance the date by one day, clear the day's ticks and progress, and reset every
      reference price; no settlement takes place. */
  function NextDay(s: State): (r: State)
    ensures r.date.ticks == 0.0 && r.date.dayProgress == 0.0
    ensures r.assets == ResetBasePrices(s.assets)
    ensures r == s.(date := r.date, assets := r.assets)
  {
    var d := s.date.(day := s.date.day + 1, ticks := 0.0, dayProgress := 0.0);
    var d1 := if d.day > DaysPerMonth then d.(day := 1, month := d.month + 1) else d;
    var d2 := if d1.month > MonthsPerYear then d1.(month := 1, year := d1.year + 1) else d1;
    s.(date := if d.day > DaysPerMonth then d2 else d, assets := ResetBasePrices(s.assets))
  }

  // ---------------------------------------------------------------- session

  function StartGame(s: State, countryId: string): (r: State)
    requires countryId in Database.Countries()
    ensures r.hasStarted && !r.isPaused
    ensures r.player.currentResidency == countryId
    ensures r.player.residencyPermits == s.player.residencyPermits + [countryId]
    ensures r.player.politicalCapital == s.player.politicalCapital[countryId := 0.0]
    ensures r == AddLog(s.(hasStarted := true, isPaused := false, player := r.player), System,
                        SimulationStarted(Database.Countries()[countryId].name))
    ensures r.player == s.player.(currentResidency := r.player.currentResidency,
                                  residencyPermits := r.player.residencyPermits,
                                  politicalCapital := r.player.politicalCapital)
  {
    var p := s.player;
    var s1 := s.(hasStarted := true, isPaused := false,
                 player := p.(currentResidency := countryId,
                              residencyPermits := p.residencyPermits + [countryId],
                              politicalCapital := p.politicalCapital[countryId := 0.0]));
    AddLog(s1, System, SimulationStarted(Database.Countries()[countryId].name))
  }

  function DismissEventPopup(s: State): (r: State)
    ensures s.majorEventQueue == [] ==> r == s
    ensures s.majorEventQueue != [] ==> s.majorEventQueue == [s.majorEventQueue[0]] + r.majorEventQueue
    ensures r == s.(majorEventQueue := r.majorEventQueue)
  {
    if s.majorEventQueue == [] then s else s.(majorEventQueue := s.majorEventQueue[1..])
  }

  // ---------------------------------------------------------------- spot ledger

  /** The quantity of the asset held, 0 when there is no holding. */
  function Held(p: PlayerState, assetId: string): real
  {
    if assetId in p.portfolio then p.portfolio[assetId].quantity else 0.0
  }

  /** What the holding cost in total at its average cost, 0 when there is no holding. */
  function CostBasis(p: PlayerState, assetId: string): real
  {
    if assetId in p.portfolio then p.portfolio[assetId].avgCost * p.portfolio[assetId].quantity else 0.0
  }

  /** A holding topped up by a purchase: the quantities add up and the average cost becomes the
      quantity-weighted mean of the old average and the price paid. */
  function AddToHolding(cur: PortfolioItem, quantity: real, price: real): (r: PortfolioItem)
    requires cur.quantity + quantity != 0.0
    ensures r.assetId == cur.assetId && r.quantity == cur.quantity + quantity
    ensures r.avgCost * r.quantity == cur.avgCost * cur.quantity + quantity * price
  {
    var newQuantity := cur.quantity + quantity;
    cur.(avgCost := (cur.avgCost * cur.quantity + quantity * price) / newQuantity, quantity := newQuantity)
  }

  /** EXECUTE_TRADE: a buy or a sell. A rejected trade leaves the state as it is, without a log
      entry. */
  function ExecuteTrade(s: State, assetId: string, quantity: real, price: real, isBuy: bool): (r: State)
    requires !TradeThrows(s, assetId, quantity, price, isBuy) && TradeDefined(s, assetId, quantity, isBuy)
    ensures r == s || r.nextLogId == s.nextLogId + 1
    ensures r.player == s.player.(cash := r.player.cash, portfolio := r.player.portfolio)
    ensures r == s.(player := r.player, log := r.log, nextLogId := r.nextLogId)
  {
    if isBuy then Buy(s, assetId, quantity, price) else Sell(s, assetId, quantity, price)
  }

  /** A buy needs the full cost in cash; it debits it and merges the quantity into the holding at
      the weighted-average cost, so the holding's cost basis grows by exactly the cost. */
  function Buy(s: State, assetId: string, quantity: real, price: real): (r: State)
    requires !TradeThrows(s, assetId, quantity, price, true) && TradeDefined(s, assetId, quantity, true)
    ensures r == s <==> s.player.cash < quantity * price
    ensures r != s ==>
      r.player.cash == s.player.cash - quantity * price &&
      assetId in r.player.portfolio &&
      r.player.portfolio[assetId].quantity == Held(s.player, assetId) + quantity &&
      (assetId in s.player.portfolio ==> r.player.portfolio[assetId].assetId == s.player.portfolio[assetId].assetId) &&
      (assetId !in s.player.portfolio ==> r.player.portfolio[assetId] == PortfolioItem(assetId, quantity, price)) &&
      CostBasis(r.player, assetId) == CostBasis(s.player, assetId) + quantity * price &&
      r == AddLog(s.(player := r.player), Trade, Bought(quantity, s.assets[assetId].name, quantity * price))
    ensures r == s || r.player.portfolio == s.player.portfolio[assetId := r.player.portfolio[assetId]]
    ensures r.player == s.player.(cash := r.player.cash, portfolio := r.player.portfolio)
  {
    var cost := quantity * price;
    var p := s.player;
    if p.cash < cost then s
    else
      var holding :=
        if assetId in p.portfolio then AddToHolding(p.portfolio[assetId], quantity, price)
        else PortfolioItem(assetId, quantity, price);
      var s1 := s.(player := p.(cash := p.cash - cost, portfolio := p.portfolio[assetId := holding]));
      AddLog(s1, Trade, Bought(quantity, s.assets[assetId].name, cost))
  }

  /** A sell needs a holding of at least the quantity; it credits the proceeds and takes the
      quantity off the holding at an unchanged average cost, deleting a holding left with dust. */
  function Sell(s: State, assetId: string, quantity: real, price: real): (r: State)
    requires !TradeThrows(s, assetId, quantity, price, false)
    ensures r == s <==> assetId !in s.player.portfolio || s.player.portfolio[assetId].quantity < quantity
    ensures r != s ==>
      r.player.cash == s.player.cash + quantity * price &&
      var left := s.player.portfolio[assetId].quantity - quantity;
      r.player.portfolio ==
        (if left <= DustQuantity then s.player.portfolio - {assetId}
         else s.player.portfolio[assetId := s.player.portfolio[assetId].(quantity := left)]) &&
      r == AddLog(s.(player := r.player), Trade, Sold(quantity, s.assets[assetId].name, quantity * price))
    ensures r.player == s.player.(cash := r.player.cash, portfolio := r.player.portfolio)
  {
    var cost := quantity * price;
    var p := s.player;
    if assetId !in p.portfolio || p.portfolio[assetId].quantity < quantity then s
    else
      var cur := p.portfolio[assetId];
      var left := cur.quantity - quantity;
      var portfolio := if left <= DustQuantity then p.portfolio - {assetId}
                       else p.portfolio[assetId := cur.(quantity := left)];
      var s1 := s.(player := p.(cash := p.cash + cost, portfolio := portfolio));
      AddLog(s1, Trade, Sold(quantity, s.assets[assetId].name, cost))
  }

  // ---------------------------------------------------------------- margin engine

  /** The price at which a position opened at `price` is liquidated: 90% of the margin's worth
      of adverse movement away from the entry. */
  function LiquidationPrice(price: real, leverage: real, isShort: bool): (lp: real)
    requires leverage != 0.0
    ensures price > 0.0 && leverage >= 1.0 && !isShort ==> 0.0 < lp < price
    ensures price > 0.0 && leverage > 0.0 && isShort ==> lp > price
  {
    if isShort then price * (1.0 + (1.0 / leverage) * LiquidationBuffer)
    else price * (1.0 - (1.0 / leverage) * LiquidationBuffer)
  }

  /** OPEN_MARGIN_POSITION: needs the margin (the position's value over the leverage) in cash,
      debits it and stores the position under its asset, replacing any position there. */
  function OpenMarginPosition(s: State, assetId: string, quantity: real, price: real,
                              leverage: real, isShort: bool): (r: State)
    requires leverage != 0.0 && !MarginThrows(s, assetId, quantity, price, leverage)
    ensures r == s <==> s.player.cash < quantity * price / leverage
    ensures r != s ==>
      var margin := quantity * price / leverage;
      r.player.cash == s.player.cash - margin &&
      r.player.marginPositions == s.player.marginPositions[assetId :=
        MarginPosition(assetId, quantity, price, leverage, isShort,
                       LiquidationPrice(price, leverage, isShort), margin)] &&
      r == AddLog(s.(player := r.player), Margin, PositionOpened(isShort, s.assets[assetId].name, quantity * price))
    ensures OrderMatches(s.player) ==> OrderMatches(r.player)
    ensures r != s ==>
      r.player.marginOrder == if assetId in s.player.marginPositions then s.player.marginOrder
                              else s.player.marginOrder + [assetId]
    ensures r.player == s.player.(cash := r.player.cash, marginPositions := r.player.marginPositions,
                                  marginOrder := r.player.marginOrder)
  {
    var positionValue := quantity * price;
    var marginRequired := positionValue / leverage;
    var p := s.player;
    if p.cash < marginRequired then s
    else
      var pos := MarginPosition(assetId, quantity, price, leverage, isShort,
                                LiquidationPrice(price, leverage, isShort), marginRequired);
      var order := if assetId in p.marginPositions then p.marginOrder else p.marginOrder + [assetId];
      var s1 := s.(player := p.(cash := p.cash - marginRequired,
                                marginPositions := p.marginPositions[assetId := pos],
                                marginOrder := order));
      AddLog(s1, Margin, PositionOpened(isShort, s.assets[assetId].name, positionValue))
  }

  // ---------------------------------------------------------------- companies

  /** The name a new company gets: the given one, or the type's name numbered after the
      companies already owned. */
  function CompanyName(name: string, typeName: string, owned: nat): (r: string)
    ensures name != "" ==> r == name
    ensures r != ""
  {
    if name != "" then name else typeName + " #" + NatToString(owned + 1)
  }

  /** ESTABLISH_COMPANY: looks up the residency country's cost modifier; `Establish` does the
      rest. */
  function EstablishCompany(s: State, companyType: CompanyType, name: string, freshId: string): (r: State)
    requires s.player.currentResidency in Database.Countries()
    ensures var cost := Database.CompanyTypes(companyType).baseCost *
                        Database.Countries()[s.player.currentResidency].companyCostModifier;
      (r == s <==> s.player.cash < cost) && (r != s ==> r.player.cash == s.player.cash - cost)
  {
    Establish(s, companyType, name, freshId, Database.Countries()[s.player.currentResidency].companyCostModifier)
  }

  /** ESTABLISH_COMPANY once the residency's cost modifier is looked up: needs the type's base
      cost times the modifier in cash, debits it and appends a level-1 company earning the type's
      base income, with an upgrade cost of twice the base cost. */
  function Establish(s: State, companyType: CompanyType, name: string, freshId: string, modifier: real): (r: State)
    requires modifier > 0.0
    ensures var data := Database.CompanyTypes(companyType);
      var cost := data.baseCost * modifier;
      cost > 0.0 &&
      (r == s <==> s.player.cash < cost) &&
      (r != s ==>
         r.player.cash == s.player.cash - cost &&
         |r.player.companies| == |s.player.companies| + 1 &&
         var c := r.player.companies[|s.player.companies|];
         r.player.companies == s.player.companies + [c] &&
         c.id == freshId && c.name != "" && c.companyType == companyType && c.level == 1 &&
         c.monthlyIncome == data.baseIncome && c.upgradeCost == 2.0 * data.baseCost &&
         r == AddLog(s.(player := r.player), Corporate, CompanyEstablished(c.name)))
    ensures r.player == s.player.(cash := r.player.cash, companies := r.player.companies)
  {
    var data := Database.CompanyTypes(companyType);
    var cost := data.baseCost * modifier;
    var p := s.player;
    if p.cash < cost then s
    else
      var company := Company(freshId, CompanyName(name, data.name, |p.companies|), companyType, 1,
                             data.baseIncome, data.baseCost * 2.0);
      var s1 := s.(player := p.(cash := p.cash - cost, companies := p.companies + [company]));
      AddLog(s1, Corporate, CompanyEstablished(company.name))
  }

  /** `companies.find`: the index of the first company with the id. */
  function FindCompany(companies: seq<Company>, id: string): (r: Option<nat>)
    ensures r.Some? ==> r.value < |companies| && companies[r.value].id == id
    ensures r.Some? ==> forall j :: 0 <= j < r.value ==> companies[j].id != id
    ensures r.None? <==> forall j :: 0 <= j < |companies| ==> companies[j].id != id
  {
    if companies == [] then None
    else if companies[0].id == id then Some(0)
    else match FindCompany(companies[1..], id)
      case None => None
      case Some(k) => Some(k + 1)
  }

  /** A company one level up: half again its monthly income and twice its upgrade cost. */
  function Upgraded(c: Company): (u: Company)
    ensures u.id == c.id && u.name == c.name && u.companyType == c.companyType && u.level == c.level + 1
    ensures c.monthlyIncome > 0.0 ==> u.monthlyIncome > c.monthlyIncome
    ensures c.upgradeCost > 0.0 ==> u.upgradeCost > c.upgradeCost
  {
    c.(level := c.level + 1, monthlyIncome := c.monthlyIncome * 1.5, upgradeCost := c.upgradeCost * 2.0)
  }

  /** UPGRADE_COMPANY: an unknown company or too little cash leaves the state as it is; otherwise
      the upgrade cost is debited and the company gains a level, half again its income, and a
      doubled upgrade cost. */
  function UpgradeCompany(s: State, companyId: string): (r: State)
    ensures r == s <==>
      match FindCompany(s.player.companies, companyId)
      case None => true
      case Some(i) => s.player.cash < s.player.companies[i].upgradeCost
    ensures r != s ==>
      var i := FindCompany(s.player.companies, companyId).value;
      var c := s.player.companies[i];
      r.player.cash == s.player.cash - c.upgradeCost &&
      r.player.companies == s.player.companies[i := Upgraded(c)] &&
      r == AddLog(s.(player := r.player), Corporate, CompanyUpgraded(c.name, c.level + 1))
    ensures r.player == s.player.(cash := r.player.cash, companies := r.player.companies)
  {
    var p := s.player;
    match FindCompany(p.companies, companyId)
    case None => s
    case Some(i) =>
      var c := p.companies[i];
      if p.cash < c.upgradeCost then s
      else
        var upgraded := Upgraded(c);
        var s1 := s.(player := p.(cash := p.cash - c.upgradeCost, companies := p.companies[i := upgraded]));
        AddLog(s1, Corporate, CompanyUpgraded(upgraded.name, upgraded.level))
  }

  // ---------------------------------------------------------------- politics

  /** `politicalCapital[countryId] || 0`: a missing account reads as 0. */
  function CapitalOf(pc: map<string, real>, countryId: string): (r: real)
    ensures countryId in pc ==> r == pc[countryId]
    ensures r == 0.0 <==> countryId !in pc || pc[countryId] == 0.0
  {
    if countryId in pc then pc[countryId] else 0.0
  }

  /** DONATE_TO_PARTY: cash converts to political capital in the country at 10000 to 1. */
  function DonateToParty(s: State, countryId: string, amount: real): (r: State)
    ensures r == s <==> s.player.cash < amount
    ensures r != s ==>
      r.player.cash == s.player.cash - amount &&
      CapitalOf(r.player.politicalCapital, countryId) ==
        CapitalOf(s.player.politicalCapital, countryId) + amount / DonationPerCapital &&
      r.player.politicalCapital.Keys == s.player.politicalCapital.Keys + {countryId} &&
      (forall c :: c != countryId && c in s.player.politicalCapital ==>
         r.player.politicalCapital[c] == s.player.politicalCapital[c]) &&
      r == AddLog(s.(player := r.player), Politics, Donated(amount, amount / DonationPerCapital))
    ensures r.player == s.player.(cash := r.player.cash, politicalCapital := r.player.politicalCapital)
  {
    var p := s.player;
    if p.cash < amount then s
    else
      var gained := amount / DonationPerCapital;
      var s1 := s.(player := p.(cash := p.cash - amount,
                                politicalCapital := p.politicalCapital[countryId := CapitalOf(p.politicalCapital, countryId) + gained]));
      AddLog(s1, Politics, Donated(amount, gained))
  }

  /** One asset under lobbying for an industry: only an asset of that industry changes, and only
      its trend, which rises without passing the cap. */
  function Boost(a: Asset, industry: AssetCategory): (r: Asset)
    ensures r == a.(trend := r.trend)
    ensures a.category != industry ==> r == a
    ensures a.category == industry && a.trend <= TrendCap ==> a.trend <= r.trend <= TrendCap
  {
    if a.category == industry then a.(trend := Min(TrendCap, a.trend + LobbyTrendBoost)) else a
  }

  function BoostIndustry(assets: map<string, Asset>, industry: AssetCategory): (r: map<string, Asset>)
    ensures r.Keys == assets.Keys
    ensures forall id :: id in r ==> r[id] == Boost(assets[id], industry)
  {
    map id | id in assets :: Boost(assets[id], industry)
  }

  /** LOBBY: spends 100 political capital in the country to raise the trend of every asset of
      the industry by 0.1, up to 1. */
  function Lobby(s: State, countryId: string, industry: AssetCategory): (r: State)
    ensures r == s <==> CapitalOf(s.player.politicalCapital, countryId) < LobbyCost
    ensures r != s ==>
      CapitalOf(r.player.politicalCapital, countryId) == CapitalOf(s.player.politicalCapital, countryId) - LobbyCost &&
      r.player.politicalCapital.Keys == s.player.politicalCapital.Keys &&
      (forall c :: c != countryId && c in s.player.politicalCapital ==>
         r.player.politicalCapital[c] == s.player.politicalCapital[c]) &&
      r.assets.Keys == s.assets.Keys &&
      (forall id :: id in s.assets ==>
         r.assets[id] == if s.assets[id].category == industry
                         then s.assets[id].(trend := Min(TrendCap, s.assets[id].trend + LobbyTrendBoost))
                         else s.assets[id]) &&
      r == AddLog(s.(player := r.player, assets := r.assets), Politics, Lobbied(industry, LobbyCost))
    ensures forall id :: id in s.assets && s.assets[id].trend <= TrendCap ==> r.assets[id].trend <= TrendCap
    ensures r.player == s.player.(politicalCapital := r.player.politicalCapital)
  {
    var p := s.player;
    if CapitalOf(p.politicalCapital, countryId) < LobbyCost then s
    else
      var s1 := s.(player := p.(politicalCapital := p.politicalCapital[countryId := p.politicalCapital[countryId] - LobbyCost]),
                   assets := BoostIndustry(s.assets, industry));
      AddLog(s1, Politics, Lobbied(industry, LobbyCost))
  }

  /** APPLY_IMMIGRATION: with a permit for the country, move residency there; without one, buy
      the permit (residency stays where it is) and open a zero political-capital account there
      if there is none. */
  function ApplyImmigration(s: State, countryId: string): (r: State)
    requires countryId in Database.Countries()
    ensures var name := Database.Countries()[countryId].name;
      countryId in s.player.residencyPermits ==>
        r == AddLog(s.(player := s.player.(currentResidency := countryId)), Politics, ResidencyMoved(name))
    ensures var cost := Database.Countries()[countryId].immigrationCost;
      var name := Database.Countries()[countryId].name;
      countryId !in s.player.residencyPermits ==>
        (r == s <==> s.player.cash < cost) &&
        (r != s ==>
           r.player.cash == s.player.cash - cost &&
           r.player.residencyPermits == s.player.residencyPermits + [countryId] &&
           r.player.currentResidency == s.player.currentResidency &&
           r.player.politicalCapital ==
             (if CapitalOf(s.player.politicalCapital, countryId) == 0.0
              then s.player.politicalCapital[countryId := 0.0] else s.player.politicalCapital) &&
           r == AddLog(s.(player := r.player), Politics, PermitAcquired(name)))
    ensures r.player == s.player.(cash := r.player.cash, currentResidency := r.player.currentResidency,
                                  residencyPermits := r.player.residencyPermits,
                                  politicalCapital := r.player.politicalCapital)
  {
    var country := Database.Countries()[countryId];
    var p := s.player;
    if countryId in p.residencyPermits then
      AddLog(s.(player := p.(currentResidency := countryId)), Politics, ResidencyMoved(country.name))
    else if p.cash < country.immigrationCost then s
    else
      var pc := if countryId !in p.politicalCapital || p.politicalCapital[countryId] == 0.0
                then p.politicalCapital[countryId := 0.0] else p.politicalCapital;
      var s1 := s.(player := p.(cash := p.cash - country.immigrationCost,
                                residencyPermits := p.residencyPermits + [countryId],
                                politicalCapital := pc));
      AddLog(s1, Politics, PermitAcquired(country.name))
  }

  // ---------------------------------------------------------------- bank

  /** TAKE_LOAN: refused when it would take the loan past the facility's maximum. */
  function TakeLoan(s: State, amount: real): (r: State)
    ensures r == s <==> s.player.loan.amount + amount > s.player.loan.maxLoan
    ensures r != s ==>
      r.player.loan == s.player.loan.(amount := s.player.loan.amount + amount) &&
      r.player.cash == s.player.cash + amount &&
      r == AddLog(s.(player := r.player), Bank, LoanTaken(amount))
    ensures s.player.loan.amount <= s.player.loan.maxLoan ==> r.player.loan.amount <= r.player.loan.maxLoan
    ensures r.player == s.player.(cash := r.player.cash, loan := r.player.loan)
  {
    var p := s.player;
    if p.loan.amount + amount > p.loan.maxLoan then s
    else
      var s1 := s.(player := p.(loan := p.loan.(amount := p.loan.amount + amount), cash := p.cash + amount));
      AddLog(s1, Bank, LoanTaken(amount))
  }

  /** REPAY_LOAN: repays what is asked, capped by the debt and by the cash at hand. */
  function RepayLoan(s: State, amount: real): (r: State)
    ensures var repay := Min(Min(amount, s.player.loan.amount), s.player.cash);
      (r == s <==> repay <= 0.0) &&
      (r != s ==>
         repay <= amount && repay <= s.player.loan.amount && repay <= s.player.cash &&
         r.player.cash == s.player.cash - repay &&
         r.player.loan == s.player.loan.(amount := s.player.loan.amount - repay) &&
         r == AddLog(s.(player := r.player), Bank, LoanRepaid(repay)))
    ensures s.player.cash >= 0.0 ==> r.player.cash >= 0.0
    ensures s.player.loan.amount >= 0.0 ==> r.player.loan.amount >= 0.0
    ensures r.player == s.player.(cash := r.player.cash, loan := r.player.loan)
  {
    var p := s.player;
    var repay := Min(Min(amount, p.loan.amount), p.cash);
    if repay <= 0.0 then s
    else
      var s1 := s.(player := p.(cash := p.cash - repay, loan := p.loan.(amount := p.loan.amount - repay)));
      AddLog(s1, Bank, LoanRepaid(repay))
  }

  // ---------------------------------------------------------------- the reducer

  /** What every reachable state satisfies (see `EngineProperties`). */
  ghost predicate Inv(s: State)
  {
    DateValid(s.date) && |s.log| <= LogCapacity && LogIdsFresh(s) &&
    MarketSane(s.assets) && OrderMatches(s.player) && PositionsKeyed(s) && HoldingsKeyed(s) &&
    CompaniesSane(s.player.companies) && LoanWithinFacility(s.player.loan) &&
    FactorsInRange(s.globalFactors)
  }

  ghost predicate DateValid(d: GameDate)
  {
    1 <= d.day <= DaysPerMonth && 1 <= d.month <= MonthsPerYear
  }

  /** Log ids run strictly downwards from the newest entry, below the next id to be issued. */
  ghost predicate LogIdsFresh(s: State)
  {
    IdsBelow(s.log, s.nextLogId)
  }

  /** The ids of the entries decrease strictly along the log and stay below `bound`. */
  ghost predicate IdsBelow(log: seq<LogEntry>, bound: int)
    decreases |log|
  {
    log == [] || (log[0].id < bound && IdsBelow(log[1..], log[0].id))
  }

  ghost predicate MarketSane(assets: map<string, Asset>)
  {
    forall id :: id in assets ==>
      assets[id].id == id && assets[id].price > 0.0 && assets[id].basePrice > 0.0 &&
      0.0 < assets[id].volatility <= 0.2 && assets[id].trend <= TrendCap
  }

  ghost predicate PositionsKeyed(s: State)
  {
    forall k :: k in s.player.marginPositions ==>
      s.player.marginPositions[k].assetId == k && k in s.assets
  }

  ghost predicate HoldingsKeyed(s: State)
  {
    forall k :: k in s.player.portfolio ==>
      s.player.portfolio[k].assetId == k && s.player.portfolio[k].quantity > 0.0 && k in s.assets
  }

  ghost predicate CompaniesSane(companies: seq<Company>)
  {
    forall i :: 0 <= i < |companies| ==>
      companies[i].level >= 1 && companies[i].monthlyIncome > 0.0 && companies[i].upgradeCost > 0.0
  }

  ghost predicate LoanWithinFacility(l: Loan)
  {
    0.0 <= l.amount <= l.maxLoan
  }

  ghost predicate FactorsInRange(f: map<string, real>)
  {
    forall k :: k in f ==> 0.0 <= f[k] <= 1.0
  }

  /** The reducer's cases, for a command that does not throw. */
  function Apply(s: State, a: Action, draws: map<string, real>, freshId: string): (r: State)
    requires InputsReady(s, a, draws) && Defined(s, a) && !Throws(s, a)
    ensures a.PauseGame? ==> r == s.(isPaused := true)
    ensures a.ResumeGame? ==> r == s.(isPaused := false)
    ensures a.SetSpeed? ==> r == s.(gameSpeed := a.speed)
  {
    match a
    case StartGame(c) => StartGame(s, c)
    case PauseGame => s.(isPaused := true)
    case ResumeGame => s.(isPaused := false)
    case SetSpeed(speed) => s.(gameSpeed := speed)
    case DismissEventPopup => DismissEventPopup(s)
    case Tick(dt) => Tick(s, dt, draws)
    case NextDay => NextDay(s)
    case ExecuteTrade(id, q, p, isBuy) => ExecuteTrade(s, id, q, p, isBuy)
    case OpenMarginPosition(id, q, p, lev, isShort) => OpenMarginPosition(s, id, q, p, lev, isShort)
    case EstablishCompany(t, name) => EstablishCompany(s, t, name, freshId)
    case UpgradeCompany(id) => UpgradeCompany(s, id)
    case DonateToParty(c, _, amount) => DonateToParty(s, c, amount)
    case Lobby(c, industry) => Lobby(s, c, industry)
    case ApplyImmigration(c) => ApplyImmigration(s, c)
    case TakeLoan(amount) => TakeLoan(s, amount)
    case RepayLoan(amount) => RepayLoan(s, amount)
  }

  /** `gameReducer`: the command applied to the state, or `Thrown` when the source's run throws. */
  function Reduce(s: State, a: Action, draws: map<string, real>, freshId: string): (o: Outcome)
    requires InputsReady(s, a, draws) && Defined(s, a)
    ensures o.Thrown? <==> Throws(s, a)
    ensures o.Next? ==> o.state == Apply(s, a, draws, freshId)
  {
    if Throws(s, a) then Thrown else Next(Apply(s, a, draws, freshId))
  }
}
