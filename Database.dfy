/** The reference tables the engine consults and the state a new game starts from. Each table is
    written as a map display in the order of the source's object literal; the contracts state what
    the engine relies on in the rows. */
module Database {
  import opened GameTypes

  /** A country row is well formed when it is keyed by its own id and its company cost modifier
      and its immigration cost are positive. */
  predicate CountryRow(id: string, c: Country)
  {
    id == c.id && c.companyCostModifier > 0.0 && c.immigrationCost > 0.0
  }

  /** The country table, keyed by country id. */
  function Countries(): (t: map<string, Country>)
    ensures forall id :: id in t ==> CountryRow(id, t[id])
  {
    map[
      "USA" := Country("USA", "United States", 0.25, 1.0,
                       ["AAPL", "GOOGL", "NVDA", "TSLA", "MSFT", "AMZN", "PFE", "MRNA", "JNJ", "CAT", "PG", "NY_RealEstate"],
                       10000000.0, [Party("D", "Democrats"), Party("R", "Republicans")]),
      "CHN" := Country("CHN", "China", 0.20, 0.7,
                       ["TCEHY", "BABA"],
                       15000000.0, [Party("CCP", "Communist Party")]),
      "DEU" := Country("DEU", "Germany", 0.30, 1.2,
                       ["VOW3", "SIE"],
                       8000000.0, [Party("CDU", "CDU/CSU"), Party("SPD", "SPD")]),
      "JPN" := Country("JPN", "Japan", 0.28, 1.1,
                       ["TM", "TYO_RealEstate"],
                       12000000.0, [Party("LDP", "Liberal Democratic Party")]),
      "IND" := Country("IND", "India", 0.18, 0.6,
                       ["TATA"],
                       5000000.0, [Party("BJP", "Bharatiya Janata Party"), Party("INC", "Indian National Congress")]),
      "RUS" := Country("RUS", "Russia", 0.15, 0.8,
                       [],
                       20000000.0, [Party("UR", "United Russia")]),
      "FRA" := Country("FRA", "France", 0.32, 1.3,
                       ["LVMH"],
                       9000000.0, [Party("RE", "Renaissance"), Party("RN", "National Rally")]),
      "KOR" := Country("KOR", "South Korea", 0.22, 0.9,
                       ["SSNLF"],
                       11000000.0, [Party("DP", "Democratic Party"), Party("PPP", "People Power Party")]),
      "NLD" := Country("NLD", "Netherlands", 0.26, 1.2,
                       ["ASML"],
                       7000000.0, [Party("VVD", "VVD"), Party("PVV", "PVV")]),
      "CHE" := Country("CHE", "Switzerland", 0.18, 1.5,
                       ["ROG", "NVS"],
                       18000000.0, [Party("SVP", "Swiss People's Party")]),
      "CAN" := Country("CAN", "Canada", 0.27, 1.0,
                       ["VAN_RealEstate"],
                       6000000.0, [Party("LIB", "Liberal Party"), Party("CON", "Conservative Party")]),
      "ARE" := Country("ARE", "UAE", 0.09, 1.4,
                       ["SAOC", "DXB_RealEstate"],
                       16000000.0, [])
    ]
  }

  /** Every market a country lists as local is an asset of the asset table. */
  lemma LocalMarketsListed(id: string)
    requires id in Countries()
    ensures forall m :: m in Countries()[id].localMarkets ==> m in Assets()
  {
    CountryIdListed(id);
    ListedMarkets();
    CountryMarkets();
    if id == "USA" {
      assert Countries()[id].localMarkets == ["AAPL", "GOOGL", "NVDA", "TSLA", "MSFT", "AMZN", "PFE", "MRNA", "JNJ", "CAT", "PG", "NY_RealEstate"];
    }
    else if id == "CHN" {
      assert Countries()[id].localMarkets == ["TCEHY", "BABA"];
    }
    else if id == "DEU" {
      assert Countries()[id].localMarkets == ["VOW3", "SIE"];
    }
    else if id == "JPN" {
      assert Countries()[id].localMarkets == ["TM", "TYO_RealEstate"];
    }
    else if id == "IND" {
      assert Countries()[id].localMarkets == ["TATA"];
    }
    else if id == "RUS" {
      assert Countries()[id].localMarkets == [];
    }
    else if id == "FRA" {
      assert Countries()[id].localMarkets == ["LVMH"];
    }
    else if id == "KOR" {
      assert Countries()[id].localMarkets == ["SSNLF"];
    }
    else if id == "NLD" {
      assert Countries()[id].localMarkets == ["ASML"];
    }
    else if id == "CHE" {
      assert Countries()[id].localMarkets == ["ROG", "NVS"];
    }
    else if id == "CAN" {
      assert Countries()[id].localMarkets == ["VAN_RealEstate"];
    }
    else if id == "ARE" {
      assert Countries()[id].localMarkets == ["SAOC", "DXB_RealEstate"];
    }
  }

  /** Every country id is one of the twelve of the source. */
  lemma CountryIdListed(id: string)
    requires id in Countries()
    ensures id in {"USA", "CHN", "DEU", "JPN", "IND", "RUS", "FRA", "KOR", "NLD", "CHE", "CAN", "ARE"}
  {
  }

  /** The country table has exactly the twelve ids of the source. */
  lemma CountryIds()
    ensures Countries().Keys == {"USA", "CHN", "DEU", "JPN", "IND", "RUS", "FRA", "KOR", "NLD", "CHE", "CAN", "ARE"}
  {
  }

  /** The ids named as local markets are keys of the asset table. */
  lemma ListedMarkets()
    ensures "AAPL" in Assets() &&
      "GOOGL" in Assets() &&
      "NVDA" in Assets() &&
      "TSLA" in Assets() &&
      "MSFT" in Assets() &&
      "AMZN" in Assets() &&
      "PFE" in Assets() &&
      "MRNA" in Assets() &&
      "JNJ" in Assets() &&
      "CAT" in Assets() &&
      "PG" in Assets() &&
      "NY_RealEstate" in Assets() &&
      "TCEHY" in Assets() &&
      "BABA" in Assets() &&
      "VOW3" in Assets() &&
      "SIE" in Assets() &&
      "TM" in Assets() &&
      "TYO_RealEstate" in Assets() &&
      "TATA" in Assets() &&
      "LVMH" in Assets() &&
      "SSNLF" in Assets() &&
      "ASML" in Assets() &&
      "ROG" in Assets() &&
      "NVS" in Assets() &&
      "VAN_RealEstate" in Assets() &&
      "SAOC" in Assets() &&
      "DXB_RealEstate" in Assets()
  {
    ListedMarketsFirst();
  }

  /** The first half of `ListedMarkets`, proved apart to keep each proof small. */
  lemma ListedMarketsFirst()
    ensures "AAPL" in Assets() &&
      "GOOGL" in Assets() &&
      "NVDA" in Assets() &&
      "TSLA" in Assets() &&
      "MSFT" in Assets() &&
      "AMZN" in Assets() &&
      "PFE" in Assets() &&
      "MRNA" in Assets() &&
      "JNJ" in Assets() &&
      "CAT" in Assets() &&
      "PG" in Assets() &&
      "NY_RealEstate" in Assets() &&
      "TCEHY" in Assets()
  {
  }

  /** The local markets of each country, as listed in the table. */
  lemma CountryMarkets()
    ensures Countries()["USA"].localMarkets == ["AAPL", "GOOGL", "NVDA", "TSLA", "MSFT", "AMZN", "PFE", "MRNA", "JNJ", "CAT", "PG", "NY_RealEstate"] &&
            Countries()["CHN"].localMarkets == ["TCEHY", "BABA"] &&
            Countries()["DEU"].localMarkets == ["VOW3", "SIE"] &&
            Countries()["JPN"].localMarkets == ["TM", "TYO_RealEstate"] &&
            Countries()["IND"].localMarkets == ["TATA"] &&
            Countries()["RUS"].localMarkets == [] &&
            Countries()["FRA"].localMarkets == ["LVMH"] &&
            Countries()["KOR"].localMarkets == ["SSNLF"] &&
            Countries()["NLD"].localMarkets == ["ASML"] &&
            Countries()["CHE"].localMarkets == ["ROG", "NVS"] &&
            Countries()["CAN"].localMarkets == ["VAN_RealEstate"] &&
            Countries()["ARE"].localMarkets == ["SAOC", "DXB_RealEstate"]
  {
  }

  /** The company-type table: display name, establishment cost and starting monthly income. */
  function CompanyTypes(t: CompanyType): (d: CompanyTypeData)
    ensures d.baseCost > 0.0 && d.baseIncome == d.baseCost / 20.0
  {
    match t
    case Tech => CompanyTypeData("Tech Startup", 1500000.0, 75000.0)
    case Mining => CompanyTypeData("Mining Operation", 2000000.0, 100000.0)
    case Pharma => CompanyTypeData("Pharma Lab", 1800000.0, 90000.0)
    case Media => CompanyTypeData("Media Group", 1000000.0, 50000.0)
  }

  /** An asset table is well formed when every row is keyed by its own id, starts with its daily
      reference price equal to a positive price, and has a volatility in (0, 0.2] and a trend in
      [0, 1]. */
  predicate WellFormedAssets(t: map<string, Asset>)
  {
    forall id :: id in t ==>
      t[id].id == id && 0.0 < t[id].price == t[id].basePrice &&
      0.0 < t[id].volatility <= 0.2 && 0.0 <= t[id].trend <= 1.0
  }

  /** The union of two well-formed asset tables is well formed. */
  function Join(a: map<string, Asset>, b: map<string, Asset>): (t: map<string, Asset>)
    requires WellFormedAssets(a) && WellFormedAssets(b)
    ensures WellFormedAssets(t) && t.Keys == a.Keys + b.Keys
  {
    a + b
  }

  /** The asset templates, keyed by asset id: the source's groups, in its order. */
  function Assets(): (t: map<string, Asset>)
    ensures WellFormedAssets(t)
  {
    Join(Join(Join(Join(Join(Join(Join(Commodities(), TechStocks()), Cryptocurrencies()),
      PharmaStocks()), RealEstateMarkets()), GlobalStocks()), IndustrialStocks()), ConsumerStocks())
  }

  function Commodities(): (t: map<string, Asset>)
    ensures WellFormedAssets(t)
  {
    map[
      "OIL" := Asset("OIL", "Crude Oil", Commodity, 80.0, 80.0, 0.03, 0.0001),
      "GOLD" := Asset("GOLD", "Gold", Commodity, 2300.0, 2300.0, 0.015, 0.0002),
      "SILVER" := Asset("SILVER", "Silver", Commodity, 29.0, 29.0, 0.025, 0.0001),
      "COPPER" := Asset("COPPER", "Copper", Commodity, 4.5, 4.5, 0.02, 0.0003),
      "PLATINUM" := Asset("PLATINUM", "Platinum", Commodity, 1000.0, 1000.0, 0.022, 0.0001)
    ]
  }

  function TechStocks(): (t: map<string, Asset>)
    ensures WellFormedAssets(t)
  {
    map[
      "AAPL" := Asset("AAPL", "Apple Inc.", AssetCategory.Tech, 190.0, 190.0, 0.018, 0.0005),
      "GOOGL" := Asset("GOOGL", "Alphabet Inc.", AssetCategory.Tech, 175.0, 175.0, 0.017, 0.0006),
      "NVDA" := Asset("NVDA", "NVIDIA Corp.", AssetCategory.Tech, 120.0, 120.0, 0.035, 0.001),
      "TSLA" := Asset("TSLA", "Tesla, Inc.", AssetCategory.Tech, 180.0, 180.0, 0.04, 0.0008),
      "MSFT" := Asset("MSFT", "Microsoft Corp.", AssetCategory.Tech, 440.0, 440.0, 0.015, 0.0004),
      "AMZN" := Asset("AMZN", "Amazon.com, Inc.", AssetCategory.Tech, 185.0, 185.0, 0.019, 0.0003)
    ]
  }

  function Cryptocurrencies(): (t: map<string, Asset>)
    ensures WellFormedAssets(t)
  {
    map[
      "BTC" := Asset("BTC", "Bitcoin", Crypto, 68000.0, 68000.0, 0.05, 0.0007),
      "ETH" := Asset("ETH", "Ethereum", Crypto, 3800.0, 3800.0, 0.06, 0.0008),
      "XRP" := Asset("XRP", "Ripple", Crypto, 0.5, 0.5, 0.08, 0.0001),
      "SOL" := Asset("SOL", "Solana", Crypto, 165.0, 165.0, 0.09, 0.0012),
      "ADA" := Asset("ADA", "Cardano", Crypto, 0.45, 0.45, 0.07, 0.0005),
      "DOGE" := Asset("DOGE", "Dogecoin", Crypto, 0.16, 0.16, 0.15, 0.0),
      "SHIB" := Asset("SHIB", "Shiba Inu", Crypto, 0.000025, 0.000025, 0.20, 0.0)
    ]
  }

  function PharmaStocks(): (t: map<string, Asset>)
    ensures WellFormedAssets(t)
  {
    map[
      "PFE" := Asset("PFE", "Pfizer Inc.", AssetCategory.Pharma, 28.0, 28.0, 0.012, 0.0001),
      "MRNA" := Asset("MRNA", "Moderna, Inc.", AssetCategory.Pharma, 150.0, 150.0, 0.04, 0.0002),
      "JNJ" := Asset("JNJ", "Johnson & Johnson", AssetCategory.Pharma, 145.0, 145.0, 0.01, 0.0001),
      "ROG" := Asset("ROG", "Roche Holding AG", AssetCategory.Pharma, 250.0, 250.0, 0.011, 0.0002),
      "NVS" := Asset("NVS", "Novartis AG", AssetCategory.Pharma, 105.0, 105.0, 0.01, 0.0001),
      "AZN" := Asset("AZN", "AstraZeneca PLC", AssetCategory.Pharma, 79.0, 79.0, 0.013, 0.0001)
    ]
  }

  function RealEstateMarkets(): (t: map<string, Asset>)
    ensures WellFormedAssets(t)
  {
    map[
      "NY_RealEstate" := Asset("NY_RealEstate", "New York Real Estate", RealEstate, 1500.0, 1500.0, 0.005, 0.0003),
      "VAN_RealEstate" := Asset("VAN_RealEstate", "Vancouver Real Estate", RealEstate, 1200.0, 1200.0, 0.006, 0.0004),
      "DXB_RealEstate" := Asset("DXB_RealEstate", "Dubai Real Estate", RealEstate, 1000.0, 1000.0, 0.008, 0.0005),
      "TYO_RealEstate" := Asset("TYO_RealEstate", "Tokyo Real Estate", RealEstate, 1300.0, 1300.0, 0.004, 0.0002)
    ]
  }

  function GlobalStocks(): (t: map<string, Asset>)
    ensures WellFormedAssets(t)
  {
    map[
      "TCEHY" := Asset("TCEHY", "Tencent Holdings", Global, 48.0, 48.0, 0.025, 0.0004),
      "BABA" := Asset("BABA", "Alibaba Group", Global, 80.0, 80.0, 0.03, 0.0003),
      "SAOC" := Asset("SAOC", "Saudi Aramco", Global, 7.5, 7.5, 0.015, 0.0001),
      "TM" := Asset("TM", "Toyota Motor Corp", Global, 200.0, 200.0, 0.012, 0.0002),
      "SSNLF" := Asset("SSNLF", "Samsung Electronics", Global, 1500.0, 1500.0, 0.02, 0.0005),
      "LVMH" := Asset("LVMH", "LVMH", Global, 780.0, 780.0, 0.015, 0.0003),
      "ASML" := Asset("ASML", "ASML Holding", Global, 1050.0, 1050.0, 0.028, 0.0009),
      "VOW3" := Asset("VOW3", "Volkswagen AG", Global, 120.0, 120.0, 0.018, 0.0001),
      "TATA" := Asset("TATA", "Tata Group", Global, 115.0, 115.0, 0.02, 0.0006)
    ]
  }

  function IndustrialStocks(): (t: map<string, Asset>)
    ensures WellFormedAssets(t)
  {
    map[
      "CAT" := Asset("CAT", "Caterpillar Inc.", Industrial, 330.0, 330.0, 0.014, 0.0002),
      "SIE" := Asset("SIE", "Siemens AG", Industrial, 170.0, 170.0, 0.013, 0.0002)
    ]
  }

  function ConsumerStocks(): (t: map<string, Asset>)
    ensures WellFormedAssets(t)
  {
    map[
      "PG" := Asset("PG", "Procter & Gamble", Consumer, 168.0, 168.0, 0.008, 0.0001),
      "NEST" := Asset("NEST", "NestlÃ© S.A.", Consumer, 102.0, 102.0, 0.007, 0.0001)
    ]
  }

  /** The macro factors a new game starts with, keyed by factor name. */
  function InitialGlobalFactors(): (f: map<string, real>)
    ensures forall k :: k in f ==> 0.0 <= f[k] <= 1.0
  {
    map[
      "globalStability" := 0.5,
      "usEconomy" := 0.6,
      "chinaEconomy" := 0.7,
      "euEconomy" := 0.5,
      "japanEconomy" := 0.4,
      "indiaEconomy" := 0.6,
      "russiaEconomy" := 0.3,
      "middleEastTension" := 0.4,
      "asiaTensions" := 0.3,
      "techInnovation" := 0.6,
      "globalSupplyChain" := 0.7,
      "oilSupply" := 0.5,
      "usFedPolicy" := 0.5,
      "secRegulation" := 0.5,
      "usJobGrowth" := 0.6,
      "publicSentiment" := 0.5,
      "climateChangeImpact" := 0.2,
      "pharmaDemand" := 0.4,
      "industrial" := 0.5
    ]
  }

  /** The state a new game starts from: the source's initial literal, with the two counters it
      omits (the clock's tick count and the next log id) started at 0. */
  function InitialState(): (s: State)
    ensures s.player.cash == 1000000.0
    ensures s.player.portfolio == map[] && s.player.marginPositions == map[] && s.player.marginOrder == []
    ensures s.player.companies == [] && s.player.residencyPermits == [] && s.player.politicalCapital == map[]
    ensures s.player.loan == Loan(0.0, 0.05, 100000.0) && 0.0 <= s.player.loan.amount <= s.player.loan.maxLoan
    ensures s.date == GameDate(2024, 1, 1, 0.0, 0.0)
    ensures s.isPaused && !s.hasStarted && s.gameSpeed == 1.0
    ensures s.assets == Assets() && s.log == [] && s.nextLogId == 0 && s.majorEventQueue == []
    ensures forall k :: k in s.globalFactors ==> 0.0 <= s.globalFactors[k] <= 1.0
  {
    State(
      player := PlayerState(
        cash := 1000000.0,
        portfolio := map[],
        marginPositions := map[],
        marginOrder := [],
        companies := [],
        loan := Loan(0.0, 0.05, 100000.0),
        currentResidency := "",
        residencyPermits := [],
        politicalCapital := map[]),
      assets := Assets(),
      date := GameDate(2024, 1, 1, 0.0, 0.0),
      dailyNews := [NewsItem("1", "Market opens for the new year!", GameDate(2024, 1, 1, 0.0, 0.0), false)],
      majorEventHeadline := None,
      majorEventQueue := [],
      log := [],
      nextLogId := 0,
      globalFactors := InitialGlobalFactors(),
      gameSpeed := 1.0,
      isPaused := true,
      hasStarted := false)
  }
}
