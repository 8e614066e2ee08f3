/** The value types of the simulation: the entities of a game state, the reference-table rows,
    the log, and the commands the reducer accepts. Money, prices, quantities and ticks are `real`
    (the source uses IEEE doubles; rounding is not modelled). */
module GameTypes {

  datatype Option<+T> = None | Some(value: T)

  datatype AssetCategory = Commodity | Tech | Crypto | Pharma | RealEstate | Global | Industrial | Consumer

  datatype CompanyType = Tech | Mining | Pharma | Media

  /** One tradable asset. The per-factor sensitivities (`dna`) are not part of the model: the engine
      never reads them. */
  datatype Asset = Asset(id: string, name: string, category: AssetCategory,
                         price: real, basePrice: real, volatility: real, trend: real)

  datatype PortfolioItem = PortfolioItem(assetId: string, quantity: real, avgCost: real)

  datatype MarginPosition = MarginPosition(assetId: string, quantity: real, entryPrice: real,
                                           leverage: real, isShort: bool,
                                           liquidationPrice: real, initialMargin: real)

  /** A company. The optional `effects.incomeFrozenUntil` of the declared type is never set or read
      by the engine and is left out. */
  datatype Company = Company(id: string, name: string, companyType: CompanyType, level: int,
                             monthlyIncome: real, upgradeCost: real)

  datatype Loan = Loan(amount: real, interestRate: real, maxLoan: real)

  /** The clock. `ticks` accumulates scaled elapsed time within the current day. */
  datatype GameDate = GameDate(year: int, month: int, day: int, dayProgress: real, ticks: real)

  /** The date stamp a log entry carries: year, month and day only. */
  datatype LogDate = LogDate(year: int, month: int, day: int)

  datatype LogType = System | Trade | Margin | Corporate | Politics | Bank

  /** What a log entry says. The text the source formats from these values (currency formatting,
      `toFixed`) is not modelled; each message keeps the names and amounts it interpolates. */
  datatype Message =
    | SimulationStarted(countryName: string)
    | PositionLiquidated(assetName: string, loss: real)
    | IncomeReceived(total: real)
    | InterestPaid(interest: real)
    | Bought(quantity: real, assetName: string, cost: real)
    | Sold(quantity: real, assetName: string, proceeds: real)
    | PositionOpened(isShort: bool, assetName: string, positionValue: real)
    | CompanyEstablished(companyName: string)
    | CompanyUpgraded(companyName: string, level: int)
    | Donated(amount: real, capitalGained: real)
    | Lobbied(industry: AssetCategory, cost: real)
    | ResidencyMoved(countryName: string)
    | PermitAcquired(countryName: string)
    | LoanTaken(amount: real)
    | LoanRepaid(amount: real)

  datatype LogEntry = LogEntry(id: int, date: LogDate, kind: LogType, message: Message)

  datatype NewsItem = NewsItem(id: string, headline: string, date: GameDate, isMajor: bool)

  datatype GameEvent = GameEvent(id: string, title: string, description: string,
                                 effects: map<string, real>)

  datatype Party = Party(id: string, name: string)

  datatype Country = Country(id: string, name: string, taxRate: real, companyCostModifier: real,
                             localMarkets: seq<string>, immigrationCost: real, parties: seq<Party>)

  datatype CompanyTypeData = CompanyTypeData(name: string, baseCost: real, baseIncome: real)

  /** The player. `marginOrder` lists the keys of `marginPositions` in the order a JavaScript
      object enumerates them (insertion order), which fixes the order of liquidation log entries. */
  datatype PlayerState = PlayerState(
    cash: real,
    portfolio: map<string, PortfolioItem>,
    marginPositions: map<string, MarginPosition>,
    marginOrder: seq<string>,
    companies: seq<Company>,
    loan: Loan,
    currentResidency: string,
    residencyPermits: seq<string>,
    politicalCapital: map<string, real>)

  datatype State = State(
    player: PlayerState,
    assets: map<string, Asset>,
    date: GameDate,
    dailyNews: seq<NewsItem>,
    majorEventHeadline: Option<NewsItem>,
    majorEventQueue: seq<GameEvent>,
    log: seq<LogEntry>,
    nextLogId: int,
    globalFactors: map<string, real>,
    gameSpeed: real,
    isPaused: bool,
    hasStarted: bool)

  /** The commands of the reducer. `Tick`'s random draws and `EstablishCompany`'s fresh id are
      not part of the command: the engine takes them as separate inputs. */
  datatype Action =
    | Tick(deltaTime: real)
    | PauseGame
    | ResumeGame
    | SetSpeed(speed: real)
    | NextDay
    | StartGame(countryId: string)
    | ExecuteTrade(assetId: string, quantity: real, price: real, isBuy: bool)
    | OpenMarginPosition(assetId: string, quantity: real, price: real, leverage: real, isShort: bool)
    | EstablishCompany(companyType: CompanyType, name: string)
    | UpgradeCompany(companyId: string)
    | TakeLoan(amount: real)
    | RepayLoan(amount: real)
    | ApplyImmigration(countryId: string)
    | DonateToParty(countryId: string, partyId: string, amount: real)
    | Lobby(countryId: string, industry: AssetCategory)
    | DismissEventPopup
}
