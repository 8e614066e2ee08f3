/** The invariant `Engine.Inv` holds of the initial state and every command the game's screens
    can dispatch keeps it: the calendar stays valid, the loan within its facility, the log within
    its capacity with fresh ids, prices positive, and every holding and position keyed by a listed
    asset. Under it, neither a tick nor a sale can throw. */
module Invariants {
  import opened GameTypes
  import opened Engine
  import opened EngineProperties
  import opened LedgerProperties
  import Database

  /** Every draw lies in [-1, 1], as `(Math.random() - 0.5) * 2` does. */
  predicate DrawsInRange(assets: map<string, Asset>, draws: map<string, real>)
  {
    forall id :: id in assets ==> id in draws && -1.0 <= draws[id] <= 1.0
  }

  /** What the game's screens guarantee of the commands they dispatch: a positive trade quantity
      and a positive loan amount; and a tick's draws are in range. */
  predicate Admissible(s: State, a: Action, draws: map<string, real>)
  {
    match a
    case Tick(_) => DrawsInRange(s.assets, draws)
    case ExecuteTrade(_, quantity, _, _) => quantity > 0.0
    case TakeLoan(amount) => amount > 0.0
    case _ => true
  }

  /** A new game satisfies the invariant. */
  lemma InitialInv()
    ensures Inv(Database.InitialState())
  {
    var s := Database.InitialState();
    assert Database.WellFormedAssets(s.assets);
  }

  /** Under the invariant a tick and a sale never throw: every position and every holding is on
      a listed asset. */
  lemma InvRulesOutCrashes(s: State, deltaTime: real, assetId: string, quantity: real, price: real)
    requires Inv(s)
    ensures !Throws(s, Action.Tick(deltaTime))
    ensures !Throws(s, Action.ExecuteTrade(assetId, quantity, price, false))
  {
  }

  // ---------------------------------------------------------------- the clock

  /** A tick keeps prices positive, the reference prices positive and the listing unchanged. */
  lemma InvTickMarket(s: State, deltaTime: real, draws: map<string, real>)
    requires Inv(s) && DrawsInRange(s.assets, draws)
    ensures var r := Engine.Tick(s, deltaTime, draws);
      r.assets.Keys == s.assets.Keys && MarketSane(r.assets)
  {
    if !s.isPaused && s.hasStarted {
      TickPrices(s, deltaTime, draws);
      forall id | id in s.assets
        ensures NoisedPrice(s.assets[id], draws[id]) > 0.0
      {
        NoiseBounds(s.assets[id], draws[id]);
      }
    }
  }

  /** A tick keeps the player's side of the invariant: the calendar, the log, and the keying of
      holdings and positions. */
  lemma InvTickPlayer(s: State, deltaTime: real, draws: map<string, real>)
    requires Inv(s) && DrawsInRange(s.assets, draws)
    ensures var r := Engine.Tick(s, deltaTime, draws);
      DateValid(r.date) && LogSane(r) && OrderMatches(r.player) &&
      r.player.portfolio == s.player.portfolio && r.player.companies == s.player.companies &&
      r.player.loan == s.player.loan && r.globalFactors == s.globalFactors &&
      (forall k :: k in r.player.marginPositions ==>
         k in s.player.marginPositions && r.player.marginPositions[k] == s.player.marginPositions[k])
  {
    TickClock(s, deltaTime, draws);
    if !s.isPaused && s.hasStarted {
      var s1 := Advance(s, deltaTime, draws);
      AdvanceEffect(s, deltaTime, draws);
      TickPositions(s, deltaTime, draws);
      if s1.date.ticks >= TicksPerDay {
        TickRolloverEffect(s1);
      }
    }
  }

  lemma InvTick(s: State, deltaTime: real, draws: map<string, real>)
    requires Inv(s) && DrawsInRange(s.assets, draws)
    ensures Inv(Engine.Tick(s, deltaTime, draws))
  {
    InvTickMarket(s, deltaTime, draws);
    InvTickPlayer(s, deltaTime, draws);
  }

  /** NEXT_DAY keeps the invariant. */
  lemma InvNextDay(s: State)
    requires Inv(s)
    ensures Inv(Engine.NextDay(s))
  {
    NextDayEffect(s);
  }

  // ---------------------------------------------------------------- spot ledger

  /** A buy of a positive quantity keeps every holding positive and keyed by a listed asset. */
  lemma InvBuy(s: State, assetId: string, quantity: real, price: real)
    requires Inv(s) && quantity > 0.0
    requires !TradeThrows(s, assetId, quantity, price, true) && TradeDefined(s, assetId, quantity, true)
    ensures Inv(Buy(s, assetId, quantity, price))
  {
    var r := Buy(s, assetId, quantity, price);
    if r != s {
      AddLogKeepsLogSane(s.(player := r.player), Trade, Bought(quantity, s.assets[assetId].name, quantity * price));
      assert r.player.portfolio[assetId].assetId == assetId;
    }
  }

  /** A sale keeps every remaining holding above the dust threshold. */
  lemma InvSell(s: State, assetId: string, quantity: real, price: real)
    requires Inv(s)
    ensures Inv(Sell(s, assetId, quantity, price))
  {
    var r := Sell(s, assetId, quantity, price);
    if r != s {
      AddLogKeepsLogSane(s.(player := r.player), Trade, Sold(quantity, s.assets[assetId].name, quantity * price));
    }
  }

  // ---------------------------------------------------------------- margin engine

  /** An opened position is stored under its own listed asset, in the enumeration order. */
  lemma InvOpenMargin(s: State, assetId: string, quantity: real, price: real, leverage: real, isShort: bool)
    requires Inv(s) && leverage != 0.0 && !MarginThrows(s, assetId, quantity, price, leverage)
    ensures Inv(Engine.OpenMarginPosition(s, assetId, quantity, price, leverage, isShort))
  {
    var r := Engine.OpenMarginPosition(s, assetId, quantity, price, leverage, isShort);
    if r != s {
      AddLogKeepsLogSane(s.(player := r.player), Margin, PositionOpened(isShort, s.assets[assetId].name, quantity * price));
    }
  }

  // ---------------------------------------------------------------- companies

  /** A new company starts at level 1 with a positive income and upgrade cost. */
  lemma InvEstablish(s: State, companyType: CompanyType, name: string, freshId: string)
    requires Inv(s) && s.player.currentResidency in Database.Countries()
    ensures Inv(Engine.EstablishCompany(s, companyType, name, freshId))
  {
    var r := Engine.EstablishCompany(s, companyType, name, freshId);
    if r != s {
      var n := |s.player.companies|;
      AddLogKeepsLogSane(s.(player := r.player), Corporate, CompanyEstablished(r.player.companies[n].name));
      forall i | 0 <= i < |r.player.companies|
        ensures r.player.companies[i].level >= 1 && r.player.companies[i].monthlyIncome > 0.0 &&
                r.player.companies[i].upgradeCost > 0.0
      {
        if i < n {
          assert r.player.companies[i] == r.player.companies[..n][i];
        }
      }
    }
  }

  /** An upgraded company keeps a positive income and upgrade cost. */
  lemma InvUpgrade(s: State, companyId: string)
    requires Inv(s)
    ensures Inv(Engine.UpgradeCompany(s, companyId))
  {
    var r := Engine.UpgradeCompany(s, companyId);
    if r != s {
      var i := FindCompany(s.player.companies, companyId).value;
      var c := s.player.companies[i];
      AddLogKeepsLogSane(s.(player := r.player), Corporate, CompanyUpgraded(c.name, c.level + 1));
    }
  }

  // ---------------------------------------------------------------- politics

  lemma InvDonate(s: State, countryId: string, amount: real)
    requires Inv(s)
    ensures Inv(Engine.DonateToParty(s, countryId, amount))
  {
    var r := Engine.DonateToParty(s, countryId, amount);
    if r != s {
      AddLogKeepsLogSane(s.(player := r.player), Politics, Donated(amount, amount / DonationPerCapital));
    }
  }

  /** Lobbying keeps every trend at most 1 and changes nothing else of an asset. */
  lemma InvLobby(s: State, countryId: string, industry: AssetCategory)
    requires Inv(s)
    ensures Inv(Engine.Lobby(s, countryId, industry))
  {
    var r := Engine.Lobby(s, countryId, industry);
    if r != s {
      AddLogKeepsLogSane(s.(player := r.player, assets := r.assets), Politics, Lobbied(industry, LobbyCost));
    }
  }

  lemma InvImmigration(s: State, countryId: string)
    requires Inv(s) && countryId in Database.Countries()
    ensures Inv(Engine.ApplyImmigration(s, countryId))
  {
    var r := Engine.ApplyImmigration(s, countryId);
    var name := Database.Countries()[countryId].name;
    if countryId in s.player.residencyPermits {
      AddLogKeepsLogSane(s.(player := s.player.(currentResidency := countryId)), Politics, ResidencyMoved(name));
    } else if r != s {
      AddLogKeepsLogSane(s.(player := r.player), Politics, PermitAcquired(name));
    }
  }

  lemma InvStartGame(s: State, countryId: string)
    requires Inv(s) && countryId in Database.Countries()
    ensures Inv(Engine.StartGame(s, countryId))
  {
    var r := Engine.StartGame(s, countryId);
    AddLogKeepsLogSane(r.(log := s.log, nextLogId := s.nextLogId), System,
                       SimulationStarted(Database.Countries()[countryId].name));
  }

  // ---------------------------------------------------------------- bank

  /** A loan of a positive amount stays within the facility. */
  lemma InvTakeLoan(s: State, amount: real)
    requires Inv(s) && amount > 0.0
    ensures Inv(Engine.TakeLoan(s, amount))
  {
    var r := Engine.TakeLoan(s, amount);
    if r != s {
      AddLogKeepsLogSane(s.(player := r.player), Bank, LoanTaken(amount));
    }
  }

  lemma InvRepayLoan(s: State, amount: real)
    requires Inv(s)
    ensures Inv(Engine.RepayLoan(s, amount))
  {
    var r := Engine.RepayLoan(s, amount);
    if r != s {
      var repay := Min(Min(amount, s.player.loan.amount), s.player.cash);
      AddLogKeepsLogSane(s.(player := r.player), Bank, LoanRepaid(repay));
    }
  }

  // ---------------------------------------------------------------- the reducer

  /** Pausing, resuming, changing the speed and dismissing an event touch nothing the invariant
      constrains. */
  lemma InvSession(s: State, a: Action, draws: map<string, real>, freshId: string)
    requires Inv(s) && (a.PauseGame? || a.ResumeGame? || a.SetSpeed? || a.DismissEventPopup?)
    ensures Inv(Apply(s, a, draws, freshId))
  {
  }

  /** Every admissible command that does not throw keeps the invariant; with the invariant, the
      draws of a tick in range are all the input the reducer needs. */
  lemma InvPreserved(s: State, a: Action, draws: map<string, real>, freshId: string)
    requires Inv(s) && Admissible(s, a, draws) && Defined(s, a) && !Throws(s, a)
    ensures InputsReady(s, a, draws)
    ensures Inv(Apply(s, a, draws, freshId))
  {
    if a.Tick? || a.NextDay? || a.ExecuteTrade? || a.OpenMarginPosition? {
      InvMarketCommands(s, a, draws, freshId);
    } else if a.EstablishCompany? || a.UpgradeCompany? || a.TakeLoan? || a.RepayLoan? {
      InvCompanyAndBankCommands(s, a, draws, freshId);
    } else if a.StartGame? || a.DonateToParty? || a.Lobby? || a.ApplyImmigration? {
      InvPoliticsCommands(s, a, draws, freshId);
    } else {
      InvSession(s, a, draws, freshId);
    }
  }

  /** The commands of the clock, the spot ledger and the margin engine. */
  lemma InvMarketCommands(s: State, a: Action, draws: map<string, real>, freshId: string)
    requires Inv(s) && Admissible(s, a, draws) && Defined(s, a) && !Throws(s, a)
    requires a.Tick? || a.NextDay? || a.ExecuteTrade? || a.OpenMarginPosition?
    ensures InputsReady(s, a, draws)
    ensures Inv(Apply(s, a, draws, freshId))
  {
    match a
    case Tick(dt) => InvTick(s, dt, draws);
    case NextDay => InvNextDay(s);
    case ExecuteTrade(id, q, p, isBuy) =>
      if isBuy { InvBuy(s, id, q, p); } else { InvSell(s, id, q, p); }
    case OpenMarginPosition(id, q, p, lev, isShort) => InvOpenMargin(s, id, q, p, lev, isShort);
  }

  /** The commands of the companies and of the bank. */
  lemma InvCompanyAndBankCommands(s: State, a: Action, draws: map<string, real>, freshId: string)
    requires Inv(s) && Admissible(s, a, draws) && !Throws(s, a)
    requires a.EstablishCompany? || a.UpgradeCompany? || a.TakeLoan? || a.RepayLoan?
    ensures Inv(Apply(s, a, draws, freshId))
  {
    match a
    case EstablishCompany(t, name) => InvEstablish(s, t, name, freshId);
    case UpgradeCompany(id) => InvUpgrade(s, id);
    case TakeLoan(amount) => InvTakeLoan(s, amount);
    case RepayLoan(amount) => InvRepayLoan(s, amount);
  }

  /** The commands of residency and politics. */
  lemma InvPoliticsCommands(s: State, a: Action, draws: map<string, real>, freshId: string)
    requires Inv(s) && !Throws(s, a)
    requires a.StartGame? || a.DonateToParty? || a.Lobby? || a.ApplyImmigration?
    ensures Inv(Apply(s, a, draws, freshId))
  {
    match a
    case StartGame(c) => InvStartGame(s, c);
    case DonateToParty(c, _, amount) => InvDonate(s, c, amount);
    case Lobby(c, industry) => InvLobby(s, c, industry);
    case ApplyImmigration(c) => InvImmigration(s, c);
  }
}
