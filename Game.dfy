/** The reducer as the source runs it: a mutable game whose fields each command updates step by
    step, as the draft of `gameReducer` is updated in place. Every method is proved to leave the
    game in the state the matching function of `Engine` describes, so everything proved about
    those functions holds of the game. */
module GameMachine {
  import opened GameTypes
  import opened Engine
  import Database

  /** The player's side of the draft: cash, the spot and margin books, companies, the loan, and
      residency. */
  class Player {
    var cash: real
    var portfolio: map<string, PortfolioItem>
    var marginPositions: map<string, MarginPosition>
    var marginOrder: seq<string>
    var companies: seq<Company>
    var loan: Loan
    var currentResidency: string
    var residencyPermits: seq<string>
    var politicalCapital: map<string, real>

    function View(): PlayerState
      reads this
    {
      PlayerState(cash, portfolio, marginPositions, marginOrder, companies, loan,
                  currentResidency, residencyPermits, politicalCapital)
    }

    constructor (p: PlayerState)
      ensures View() == p
    {
      cash := p.cash;
      portfolio := p.portfolio;
      marginPositions := p.marginPositions;
      marginOrder := p.marginOrder;
      companies := p.companies;
      loan := p.loan;
      currentResidency := p.currentResidency;
      residencyPermits := p.residencyPermits;
      politicalCapital := p.politicalCapital;
    }
  }

  /** The game state the reducer updates. */
  class Game {
    const player: Player
    var assets: map<string, Asset>
    var date: GameDate
    var dailyNews: seq<NewsItem>
    var majorEventHeadline: Option<NewsItem>
    var majorEventQueue: seq<GameEvent>
    var log: seq<LogEntry>
    var nextLogId: int
    var globalFactors: map<string, real>
    var gameSpeed: real
    var isPaused: bool
    var hasStarted: bool

    function View(): State
      reads this, player
    {
      State(player.View(), assets, date, dailyNews, majorEventHeadline, majorEventQueue, log,
            nextLogId, globalFactors, gameSpeed, isPaused, hasStarted)
    }

    /** A new game, in the initial state. */
    constructor ()
      ensures View() == Database.InitialState()
    {
      var s := Database.InitialState();
      player := new Player(s.player);
      assets := s.assets;
      date := s.date;
      dailyNews := s.dailyNews;
      majorEventHeadline := s.majorEventHeadline;
      majorEventQueue := s.majorEventQueue;
      log := s.log;
      nextLogId := s.nextLogId;
      globalFactors := s.globalFactors;
      gameSpeed := s.gameSpeed;
      isPaused := s.isPaused;
      hasStarted := s.hasStarted;
    }

    // -------------------------------------------------------------- the audit log

    /** `addLog`: unshift the entry, pop the oldest past the capacity. */
    method AddLog(kind: LogType, msg: Message)
      modifies this
      ensures View() == Engine.AddLog(old(View()), kind, msg)
    {
      log := [LogEntry(nextLogId, Stamp(date), kind, msg)] + log;
      nextLogId := nextLogId + 1;
      if |log| > LogCapacity {
        log := log[..|log| - 1];
      }
    }

    // -------------------------------------------------------------- session

    method StartGame(countryId: string)
      requires countryId in Database.Countries()
      modifies this, player
      ensures View() == Engine.StartGame(old(View()), countryId)
    {
      ghost var s := View();
      hasStarted := true;
      isPaused := false;
      player.currentResidency := countryId;
      player.residencyPermits := player.residencyPermits + [countryId];
      player.politicalCapital := player.politicalCapital[countryId := 0.0];
      assert View() == s.(hasStarted := true, isPaused := false,
                          player := s.player.(currentResidency := countryId,
                                              residencyPermits := s.player.residencyPermits + [countryId],
                                              politicalCapital := s.player.politicalCapital[countryId := 0.0]));
      AddLog(System, SimulationStarted(Database.Countries()[countryId].name));
    }

    method DismissEventPopup()
      modifies this
      ensures View() == Engine.DismissEventPopup(old(View()))
    {
      if majorEventQueue != [] {
        majorEventQueue := majorEventQueue[1..];
      }
    }

    // -------------------------------------------------------------- the clock

    /** TICK. */
    method Tick(deltaTime: real, draws: map<string, real>)
      requires Running(View()) ==> TickReady(View(), draws)
      requires !TickThrows(View())
      modifies this, player
      ensures View() == Engine.Tick(old(View()), deltaTime, draws)
    {
      if isPaused || !hasStarted {
        return;
      }
      AdvanceClock(deltaTime, draws);
      if date.ticks >= TicksPerDay {
        RolloverDay();
      }
    }

    /** A running tick up to the day rollover: the clock and the prices move, then the
        liquidation loop runs at the new prices. */
    method AdvanceClock(deltaTime: real, draws: map<string, real>)
      requires TickReady(View(), draws) && PositionsListed(View())
      modifies this, player
      ensures View() == Advance(old(View()), deltaTime, draws)
    {
      MoveClock(deltaTime, draws);
      CheckLiquidations();
    }

    /** The first steps of a running tick: the clock advances by the scaled elapsed time, then
        every price moves by its draw. */
    method MoveClock(deltaTime: real, draws: map<string, real>)
      requires assets.Keys <= draws.Keys
      modifies this
      ensures View() == Move(old(View()), deltaTime, draws)
    {
      var effectiveDeltaTime := deltaTime * gameSpeed;
      var ticks := date.ticks + effectiveDeltaTime;
      date := date.(ticks := ticks, dayProgress := DayProgress(ticks));
      ghost var d := date;
      MovePrices(draws);
      assert date == d;
      ghost var moved := Move(old(View()), deltaTime, draws);
      assert old(View()).date == old(date);
      assert moved.date.ticks == ticks && moved.date.dayProgress == DayProgress(ticks);
    }

    /** Every asset's price moves by its draw, one asset at a time. */
    method MovePrices(draws: map<string, real>)
      requires assets.Keys <= draws.Keys
      modifies this
      ensures View() == old(View()).(assets := ApplyNoise(old(assets), draws))
    {
      var moved := assets;
      var pending := assets.Keys;
      while pending != {}
        invariant pending <= assets.Keys && moved.Keys == assets.Keys
        invariant forall id :: id in assets ==>
          moved[id] == if id in pending then assets[id] else Noise(assets[id], draws[id])
        decreases pending
      {
        var id :| id in pending;
        var asset := moved[id];
        var randomFactor := draws[id];
        var priceChange := asset.price * asset.volatility * (randomFactor / 50.0);
        moved := moved[id := asset.(price := asset.price + priceChange)];
        pending := pending - {id};
      }
      assert moved == ApplyNoise(assets, draws);
      assets := moved;
    }

    /** The liquidation loop over the positions as they stood when it began. */
    method CheckLiquidations()
      requires OrderMatches(player.View()) && PositionsListed(View())
      modifies this, player
      ensures View() == Liquidations(old(View()), Snapshot(old(player.View())))
    {
      var positions := Snapshot(player.View());
      ghost var target := Liquidations(View(), positions);
      var i := 0;
      while i < |positions|
        invariant 0 <= i <= |positions|
        invariant assets == old(assets)
        invariant forall j :: 0 <= j < |positions| ==> positions[j].assetId in assets
        invariant Liquidations(View(), positions[i..]) == target
      {
        assert positions[i..][1..] == positions[i + 1..];
        LiquidateIfDue(positions[i]);
        i := i + 1;
      }
    }

    /** One position of the loop: charged, logged and deleted once the price crossed its
        threshold. */
    method LiquidateIfDue(pos: MarginPosition)
      requires pos.assetId in assets
      modifies this, player
      ensures View() == Engine.LiquidateIfDue(old(View()), pos)
    {
      var asset := assets[pos.assetId];
      var shouldLiquidate := if pos.isShort then asset.price >= pos.liquidationPrice
                             else asset.price <= pos.liquidationPrice;
      if shouldLiquidate {
        player.cash := player.cash - pos.initialMargin;
        AddLog(Margin, PositionLiquidated(asset.name, pos.initialMargin));
        player.marginPositions := player.marginPositions - {pos.assetId};
        player.marginOrder := Remove(player.marginOrder, pos.assetId);
      }
    }

    /** A new day within a tick. */
    method RolloverDay()
      modifies this, player
      ensures View() == TickRollover(old(View()))
    {
      date := date.(ticks := 0.0);
      date := date.(day := date.day + 1);
      if date.day > DaysPerMonth {
        MonthWrap();
      }
      ResetBasePrices();
    }

    /** The month wrap: income, interest, then the year. */
    method MonthWrap()
      modifies this, player
      ensures View() == Engine.MonthWrap(old(View()))
    {
      date := date.(day := 1);
      date := date.(month := date.month + 1);
      Settle();
    }

    /** The month wrap after the date moved: income and interest are settled, then the year
        wraps. */
    method Settle()
      modifies this, player
      ensures var s := Engine.ChargeInterest(Engine.CreditIncome(old(View())));
        View() == if s.date.month > MonthsPerYear then s.(date := s.date.(month := 1, year := s.date.year + 1)) else s
    {
      CreditIncome();
      ChargeInterest();
      if date.month > MonthsPerYear {
        date := date.(month := 1);
        date := date.(year := date.year + 1);
      }
    }

    /** The companies' income is credited, and logged when positive. */
    method CreditIncome()
      modifies this, player
      ensures View() == Engine.CreditIncome(old(View()))
    {
      var totalIncome := SumIncome();
      player.cash := player.cash + totalIncome;
      if totalIncome > 0.0 {
        AddLog(Corporate, IncomeReceived(totalIncome));
      }
    }

    /** The month's interest on an outstanding loan is charged and logged. */
    method ChargeInterest()
      modifies this, player
      ensures View() == Engine.ChargeInterest(old(View()))
    {
      if player.loan.amount > 0.0 {
        var interest := player.loan.amount * (player.loan.interestRate / 12.0);
        player.cash := player.cash - interest;
        AddLog(Bank, InterestPaid(interest));
      }
    }

    /** The sum of the companies' monthly incomes, accumulated company by company. */
    method SumIncome() returns (total: real)
      ensures total == TotalIncome(player.companies)
    {
      total := 0.0;
      var i := 0;
      while i < |player.companies|
        invariant 0 <= i <= |player.companies|
        invariant total == TotalIncome(player.companies[..i])
      {
        assert player.companies[..i + 1][..i] == player.companies[..i];
        total := total + player.companies[i].monthlyIncome;
        i := i + 1;
      }
      assert player.companies[..i] == player.companies;
    }

    /** Every asset's reference price becomes its current price, one asset at a time. */
    method ResetBasePrices()
      modifies this
      ensures View() == old(View()).(assets := Engine.ResetBasePrices(old(assets)))
    {
      var reset := assets;
      var pending := assets.Keys;
      while pending != {}
        invariant pending <= assets.Keys && reset.Keys == assets.Keys
        invariant forall id :: id in assets ==>
          reset[id] == if id in pending then assets[id] else assets[id].(basePrice := assets[id].price)
        decreases pending
      {
        var id :| id in pending;
        reset := reset[id := reset[id].(basePrice := reset[id].price)];
        pending := pending - {id};
      }
      assert reset == Engine.ResetBasePrices(assets);
      assets := reset;
    }

    /** NEXT_DAY. */
    method NextDay()
      modifies this
      ensures View() == Engine.NextDay(old(View()))
    {
      date := date.(day := date.day + 1);
      date := date.(ticks := 0.0);
      date := date.(dayProgress := 0.0);
      if date.day > DaysPerMonth {
        date := date.(day := 1);
        date := date.(month := date.month + 1);
        if date.month > MonthsPerYear {
          date := date.(month := 1);
          date := date.(year := date.year + 1);
        }
      }
      ResetBasePrices();
    }

    // -------------------------------------------------------------- spot ledger

    /** EXECUTE_TRADE. */
    method ExecuteTrade(assetId: string, quantity: real, price: real, isBuy: bool)
      requires !TradeThrows(View(), assetId, quantity, price, isBuy)
      requires TradeDefined(View(), assetId, quantity, isBuy)
      modifies this, player
      ensures View() == Engine.ExecuteTrade(old(View()), assetId, quantity, price, isBuy)
    {
      if isBuy {
        Buy(assetId, quantity, price);
      } else {
        Sell(assetId, quantity, price);
      }
    }

    /** The buying branch: a purchase the cash does not cover is rejected. */
    method Buy(assetId: string, quantity: real, price: real)
      requires !TradeThrows(View(), assetId, quantity, price, true)
      requires TradeDefined(View(), assetId, quantity, true)
      modifies this, player
      ensures View() == Engine.Buy(old(View()), assetId, quantity, price)
    {
      var cost := quantity * price;
      if player.cash < cost {
        return;
      }
      BuyHolding(assetId, quantity, price);
    }

    /** An accepted purchase: the cost is debited and the holding is merged at the
        weighted-average cost. */
    method BuyHolding(assetId: string, quantity: real, price: real)
      requires assetId in assets && player.cash >= quantity * price
      requires TradeDefined(View(), assetId, quantity, true)
      modifies this, player
      ensures View() == Engine.Buy(old(View()), assetId, quantity, price)
    {
      var cost := quantity * price;
      player.cash := player.cash - cost;
      if assetId in player.portfolio {
        player.portfolio := player.portfolio[assetId := AddToHolding(player.portfolio[assetId], quantity, price)];
      } else {
        player.portfolio := player.portfolio[assetId := PortfolioItem(assetId, quantity, price)];
      }
      AddLog(Trade, Bought(quantity, assets[assetId].name, cost));
    }

    /** The selling branch: a sale larger than the holding is rejected. */
    method Sell(assetId: string, quantity: real, price: real)
      requires !TradeThrows(View(), assetId, quantity, price, false)
      modifies this, player
      ensures View() == Engine.Sell(old(View()), assetId, quantity, price)
    {
      if assetId !in player.portfolio || player.portfolio[assetId].quantity < quantity {
        return;
      }
      SellHolding(assetId, quantity, price);
    }

    /** An accepted sale: the proceeds are credited and the holding shrinks, and is deleted once
        only dust is left. */
    method SellHolding(assetId: string, quantity: real, price: real)
      requires assetId in assets && assetId in player.portfolio && player.portfolio[assetId].quantity >= quantity
      modifies this, player
      ensures View() == Engine.Sell(old(View()), assetId, quantity, price)
    {
      var cost := quantity * price;
      player.cash := player.cash + cost;
      var currentPosition := player.portfolio[assetId];
      player.portfolio := player.portfolio[assetId := currentPosition.(quantity := currentPosition.quantity - quantity)];
      if player.portfolio[assetId].quantity <= DustQuantity {
        player.portfolio := player.portfolio - {assetId};
      }
      AddLog(Trade, Sold(quantity, assets[assetId].name, cost));
    }

    // -------------------------------------------------------------- margin engine

    /** OPEN_MARGIN_POSITION: a position whose margin the cash does not cover is rejected. */
    method OpenMarginPosition(assetId: string, quantity: real, price: real, leverage: real, isShort: bool)
      requires leverage != 0.0 && !MarginThrows(View(), assetId, quantity, price, leverage)
      modifies this, player
      ensures View() == Engine.OpenMarginPosition(old(View()), assetId, quantity, price, leverage, isShort)
    {
      var positionValue := quantity * price;
      var marginRequired := positionValue / leverage;
      if player.cash < marginRequired {
        return;
      }
      OpenPosition(assetId, quantity, price, leverage, isShort);
    }

    /** An accepted OPEN_MARGIN_POSITION: the margin is debited and the position, with its
        liquidation price, is stored under its asset in place of any earlier one. */
    method OpenPosition(assetId: string, quantity: real, price: real, leverage: real, isShort: bool)
      requires leverage != 0.0 && assetId in assets && player.cash >= quantity * price / leverage
      modifies this, player
      ensures View() == Engine.OpenMarginPosition(old(View()), assetId, quantity, price, leverage, isShort)
    {
      var positionValue := quantity * price;
      var marginRequired := positionValue / leverage;
      player.cash := player.cash - marginRequired;
      var liquidationPrice := LiquidationPrice(price, leverage, isShort);
      if assetId !in player.marginPositions {
        player.marginOrder := player.marginOrder + [assetId];
      }
      player.marginPositions := player.marginPositions[assetId :=
        MarginPosition(assetId, quantity, price, leverage, isShort, liquidationPrice, marginRequired)];
      AddLog(Margin, PositionOpened(isShort, assets[assetId].name, positionValue));
    }

    // -------------------------------------------------------------- companies

    /** ESTABLISH_COMPANY: looks up the residency country's cost modifier. */
    method EstablishCompany(companyType: CompanyType, name: string, freshId: string)
      requires player.currentResidency in Database.Countries()
      modifies this, player
      ensures View() == Engine.EstablishCompany(old(View()), companyType, name, freshId)
    {
      var countryModifier := Database.Countries()[player.currentResidency].companyCostModifier;
      Establish(companyType, name, freshId, countryModifier);
    }

    /** The rest of ESTABLISH_COMPANY, given the cost modifier: a company the player cannot
        afford is not established. */
    method Establish(companyType: CompanyType, name: string, freshId: string, countryModifier: real)
      requires countryModifier > 0.0
      modifies this, player
      ensures View() == Engine.Establish(old(View()), companyType, name, freshId, countryModifier)
    {
      var typeData := Database.CompanyTypes(companyType);
      var cost := typeData.baseCost * countryModifier;
      if player.cash < cost {
        return;
      }
      AddCompany(companyType, name, freshId, countryModifier);
    }

    /** An affordable ESTABLISH_COMPANY: pays for the new company, appends it and logs it. */
    method AddCompany(companyType: CompanyType, name: string, freshId: string, countryModifier: real)
      requires countryModifier > 0.0
      requires player.cash >= Database.CompanyTypes(companyType).baseCost * countryModifier
      modifies this, player
      ensures View() == Engine.Establish(old(View()), companyType, name, freshId, countryModifier)
    {
      var typeData := Database.CompanyTypes(companyType);
      player.cash := player.cash - typeData.baseCost * countryModifier;
      var newCompany := Company(freshId, CompanyName(name, typeData.name, |player.companies|),
                                companyType, 1, typeData.baseIncome, typeData.baseCost * 2.0);
      player.companies := player.companies + [newCompany];
      AddLog(Corporate, CompanyEstablished(newCompany.name));
    }

    /** `companies.find`, as a scan from the front. */
    method FindCompany(companyId: string) returns (found: Option<nat>)
      ensures found == Engine.FindCompany(player.companies, companyId)
    {
      var i := 0;
      while i < |player.companies| && player.companies[i].id != companyId
        invariant 0 <= i <= |player.companies|
        invariant forall j :: 0 <= j < i ==> player.companies[j].id != companyId
      {
        i := i + 1;
      }
      found := if i < |player.companies| then Some(i) else None;
    }

    /** UPGRADE_COMPANY. */
    method UpgradeCompany(companyId: string)
      modifies this, player
      ensures View() == Engine.UpgradeCompany(old(View()), companyId)
    {
      var found := FindCompany(companyId);
      if found.None? || player.cash < player.companies[found.value].upgradeCost {
        return;
      }
      var i := found.value;
      var company := player.companies[i];
      player.cash := player.cash - company.upgradeCost;
      company := company.(level := company.level + 1);
      company := company.(monthlyIncome := company.monthlyIncome * 1.5);
      company := company.(upgradeCost := company.upgradeCost * 2.0);
      player.companies := player.companies[i := company];
      AddLog(Corporate, CompanyUpgraded(company.name, company.level));
    }

    // -------------------------------------------------------------- politics

    /** DONATE_TO_PARTY. */
    method DonateToParty(countryId: string, amount: real)
      modifies this, player
      ensures View() == Engine.DonateToParty(old(View()), countryId, amount)
    {
      if player.cash < amount {
        return;
      }
      player.cash := player.cash - amount;
      var capitalGained := amount / DonationPerCapital;
      player.politicalCapital := player.politicalCapital[countryId :=
        CapitalOf(player.politicalCapital, countryId) + capitalGained];
      AddLog(Politics, Donated(amount, capitalGained));
    }

    /** LOBBY. */
    method Lobby(countryId: string, industry: AssetCategory)
      modifies this, player
      ensures View() == Engine.Lobby(old(View()), countryId, industry)
    {
      ghost var s := View();
      var currentCapital := CapitalOf(player.politicalCapital, countryId);
      if currentCapital < LobbyCost {
        return;
      }
      player.politicalCapital := player.politicalCapital[countryId := player.politicalCapital[countryId] - LobbyCost];
      BoostTrends(industry);
      assert View() == s.(player := s.player.(politicalCapital := player.politicalCapital),
                          assets := BoostIndustry(s.assets, industry));
      AddLog(Politics, Lobbied(industry, LobbyCost));
    }

    /** The trend of every asset of the industry rises, one asset at a time. */
    method BoostTrends(industry: AssetCategory)
      modifies this
      ensures View() == old(View()).(assets := BoostIndustry(old(assets), industry))
    {
      var boosted := assets;
      var pending := assets.Keys;
      while pending != {}
        invariant pending <= assets.Keys && boosted.Keys == assets.Keys
        invariant forall id :: id in assets ==>
          boosted[id] == if id in pending then assets[id] else Boost(assets[id], industry)
        decreases pending
      {
        var id :| id in pending;
        if boosted[id].category == industry {
          boosted := boosted[id := boosted[id].(trend := Min(TrendCap, boosted[id].trend + LobbyTrendBoost))];
        }
        pending := pending - {id};
      }
      assert boosted == BoostIndustry(assets, industry);
      assets := boosted;
    }

    /** APPLY_IMMIGRATION. */
    method ApplyImmigration(countryId: string)
      requires countryId in Database.Countries()
      modifies this, player
      ensures View() == Engine.ApplyImmigration(old(View()), countryId)
    {
      var country := Database.Countries()[countryId];
      var isPermitHolder := countryId in player.residencyPermits;
      if isPermitHolder {
        player.currentResidency := countryId;
        AddLog(Politics, ResidencyMoved(country.name));
      } else {
        if player.cash < country.immigrationCost {
          return;
        }
        player.cash := player.cash - country.immigrationCost;
        player.residencyPermits := player.residencyPermits + [countryId];
        if countryId !in player.politicalCapital || player.politicalCapital[countryId] == 0.0 {
          player.politicalCapital := player.politicalCapital[countryId := 0.0];
        }
        AddLog(Politics, PermitAcquired(country.name));
      }
    }

    // -------------------------------------------------------------- bank

    /** TAKE_LOAN. */
    method TakeLoan(amount: real)
      modifies this, player
      ensures View() == Engine.TakeLoan(old(View()), amount)
    {
      if player.loan.amount + amount > player.loan.maxLoan {
        return;
      }
      player.loan := player.loan.(amount := player.loan.amount + amount);
      player.cash := player.cash + amount;
      AddLog(Bank, LoanTaken(amount));
    }

    /** REPAY_LOAN. */
    method RepayLoan(amount: real)
      modifies this, player
      ensures View() == Engine.RepayLoan(old(View()), amount)
    {
      var repayAmount := Min(Min(amount, player.loan.amount), player.cash);
      if repayAmount <= 0.0 {
        return;
      }
      player.cash := player.cash - repayAmount;
      player.loan := player.loan.(amount := player.loan.amount - repayAmount);
      AddLog(Bank, LoanRepaid(repayAmount));
    }

    // -------------------------------------------------------------- the reducer

    /** `gameReducer`: run the command on the game. A command whose run in the source throws
        leaves the game as it was and reports it. */
    method Dispatch(a: Action, draws: map<string, real>, freshId: string) returns (thrown: bool)
      requires InputsReady(View(), a, draws) && Defined(View(), a)
      modifies this, player
      ensures Reduce(old(View()), a, draws, freshId) == if thrown then Thrown else Next(View())
      ensures thrown ==> View() == old(View())
    {
      if Throws(View(), a) {
        return true;
      }
      thrown := false;
      Perform(a, draws, freshId);
    }

    /** The reducer's cases, for a command that does not throw. */
    method Perform(a: Action, draws: map<string, real>, freshId: string)
      requires InputsReady(View(), a, draws) && Defined(View(), a) && !Throws(View(), a)
      modifies this, player
      ensures View() == Apply(old(View()), a, draws, freshId)
    {
      match a
      case StartGame(c) => StartGame(c);
      case PauseGame => isPaused := true;
      case ResumeGame => isPaused := false;
      case SetSpeed(speed) => gameSpeed := speed;
      case DismissEventPopup => DismissEventPopup();
      case Tick(dt) => Tick(dt, draws);
      case NextDay => NextDay();
      case ExecuteTrade(id, q, p, isBuy) => ExecuteTrade(id, q, p, isBuy);
      case OpenMarginPosition(id, q, p, lev, isShort) => OpenMarginPosition(id, q, p, lev, isShort);
      case EstablishCompany(t, name) => EstablishCompany(t, name, freshId);
      case UpgradeCompany(id) => UpgradeCompany(id);
      case DonateToParty(c, _, amount) => DonateToParty(c, amount);
      case Lobby(c, industry) => Lobby(c, industry);
      case ApplyImmigration(c) => ApplyImmigration(c);
      case TakeLoan(amount) => TakeLoan(amount);
      case RepayLoan(amount) => RepayLoan(amount);
    }
  }
}
