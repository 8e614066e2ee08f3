/** The round trips and cumulative effects of the ledger commands: a buy undone by a sell, a
    loan undone by a repayment, a margin position opened and liquidated, the companies' income
    under establishment and upgrade, and the bounds of one tick's price noise. */
module LedgerProperties {
  import opened GameTypes
  import opened Engine
  import opened EngineProperties
  import Database

  // ---------------------------------------------------------------- market noise

  /** A draw in [-1, 1] on an asset of volatility at most 0.2 moves its price by at most 0.4% in
      either direction, so a positive price stays positive. */
  lemma NoiseBounds(a: Asset, r: real)
    requires a.price > 0.0 && 0.0 < a.volatility <= 0.2 && -1.0 <= r <= 1.0
    ensures Noise(a, r) == a.(price := NoisedPrice(a, r))
    ensures 0.996 * a.price <= NoisedPrice(a, r) <= 1.004 * a.price
    ensures NoisedPrice(a, r) > 0.0
  {
    var x := r / 50.0;
    var m := a.volatility * x;
    if x >= 0.0 {
      assert (0.2 - a.volatility) * x >= 0.0;
      assert 0.0 <= m <= 0.2 * x <= 0.004;
    } else {
      assert (0.2 - a.volatility) * (-x) >= 0.0;
      assert -0.004 <= 0.2 * x <= m <= 0.0;
    }
    assert NoisedPrice(a, r) == a.price + a.price * m;
    ProductNonNegative(a.price, m + 0.004);
    ProductNonNegative(a.price, 0.004 - m);
  }

  /** The product of two non-negative reals is non-negative. */
  lemma ProductNonNegative(x: real, y: real)
    requires x >= 0.0 && y >= 0.0
    ensures x * y >= 0.0
  {
  }

  // ---------------------------------------------------------------- spot ledger

  /** Buying a quantity and selling it back at the same price restores the cash, leaves every
      other holding as it was, and leaves this holding at its old quantity (or removes it when
      that was dust); two entries are logged. */
  lemma BuyThenSell(s: State, assetId: string, quantity: real, price: real)
    requires assetId in s.assets && quantity > 0.0 && s.player.cash >= quantity * price
    requires Held(s.player, assetId) >= 0.0 && TradeDefined(s, assetId, quantity, true)
    ensures var b := Buy(s, assetId, quantity, price);
      var r := Sell(b, assetId, quantity, price);
      b != s && r != b &&
      r.player.cash == s.player.cash &&
      Held(r.player, assetId) == (if Held(s.player, assetId) <= DustQuantity then 0.0 else Held(s.player, assetId)) &&
      r.player.portfolio - {assetId} == s.player.portfolio - {assetId} &&
      r.nextLogId == s.nextLogId + 2
  {
    var b := Buy(s, assetId, quantity, price);
    assert b.player.portfolio[assetId].quantity == Held(s.player, assetId) + quantity;
    var r := Sell(b, assetId, quantity, price);
    var left := b.player.portfolio[assetId].quantity - quantity;
    assert left == Held(s.player, assetId);
    assert r.player.portfolio - {assetId} == b.player.portfolio - {assetId};
  }

  /** A sale of the whole holding removes it and credits its market value. */
  lemma SellAll(s: State, assetId: string, price: real)
    requires assetId in s.assets && assetId in s.player.portfolio
    ensures var q := s.player.portfolio[assetId].quantity;
      var r := Sell(s, assetId, q, price);
      r != s && r.player.cash == s.player.cash + q * price && r.player.portfolio == s.player.portfolio - {assetId}
  {
  }

  // ---------------------------------------------------------------- margin engine

  /** A position opened and then liquidated costs its margin twice over: once when it is opened
      and once more when it is liquidated; it leaves the book, and any position the asset had
      before is gone too. */
  lemma OpenThenLiquidate(s: State, assetId: string, quantity: real, price: real, leverage: real, isShort: bool)
    requires leverage != 0.0 && assetId in s.assets
    requires s.player.cash >= quantity * price / leverage
    ensures var o := Engine.OpenMarginPosition(s, assetId, quantity, price, leverage, isShort);
      var margin := quantity * price / leverage;
      o != s && assetId in o.player.marginPositions &&
      var pos := o.player.marginPositions[assetId];
      pos.initialMargin == margin && pos.assetId == assetId &&
      var r := LiquidateIfDue(o, pos);
      (ShouldLiquidate(pos, s.assets[assetId].price) ==>
         r.player.cash == s.player.cash - 2.0 * margin &&
         r.player.marginPositions == s.player.marginPositions - {assetId}) &&
      (!ShouldLiquidate(pos, s.assets[assetId].price) ==> r == o)
  {
    var o := Engine.OpenMarginPosition(s, assetId, quantity, price, leverage, isShort);
    var pos := o.player.marginPositions[assetId];
    LiquidateIfDueEffect(o, pos);
    assert o.assets == s.assets;
  }

  // ---------------------------------------------------------------- companies

  /** The income of two lists of companies together is the sum of their incomes. */
  lemma {:induction false} TotalIncomeAppend(a: seq<Company>, b: seq<Company>)
    ensures TotalIncome(a + b) == TotalIncome(a) + TotalIncome(b)
    decreases |b|
  {
    if b == [] {
      assert a + b == a;
    } else {
      var init := b[..|b| - 1];
      assert (a + b)[..|a + b| - 1] == a + init;
      assert (a + b)[|a + b| - 1] == b[|b| - 1];
      TotalIncomeAppend(a, init);
    }
  }

  /** Replacing one company changes the total income by the difference of the two incomes. */
  lemma TotalIncomeReplace(cs: seq<Company>, i: nat, c: Company)
    requires i < |cs|
    ensures TotalIncome(cs[i := c]) == TotalIncome(cs) - cs[i].monthlyIncome + c.monthlyIncome
  {
    assert cs == cs[..i] + [cs[i]] + cs[i + 1..];
    assert cs[i := c] == cs[..i] + [c] + cs[i + 1..];
    TotalIncomeAppend(cs[..i] + [cs[i]], cs[i + 1..]);
    TotalIncomeAppend(cs[..i], [cs[i]]);
    TotalIncomeAppend(cs[..i] + [c], cs[i + 1..]);
    TotalIncomeAppend(cs[..i], [c]);
    assert TotalIncome([cs[i]]) == cs[i].monthlyIncome by {
      assert [cs[i]][..0] == [];
    }
    assert TotalIncome([c]) == c.monthlyIncome by {
      assert [c][..0] == [];
    }
  }

  /** Companies that all earn a positive income earn a positive total, and none earn 0. */
  lemma {:induction false} TotalIncomeSign(cs: seq<Company>)
    requires CompaniesSane(cs)
    ensures cs == [] ==> TotalIncome(cs) == 0.0
    ensures cs != [] ==> TotalIncome(cs) > 0.0
    decreases |cs|
  {
    if cs != [] {
      var init := cs[..|cs| - 1];
      assert CompaniesSane(init) by {
        forall i | 0 <= i < |init|
          ensures init[i].level >= 1 && init[i].monthlyIncome > 0.0 && init[i].upgradeCost > 0.0
        {
          assert init[i] == cs[i];
        }
      }
      TotalIncomeSign(init);
    }
  }

  /** An established company adds its type's base income to the income credited at every month
      wrap. */
  lemma EstablishAddsIncome(s: State, companyType: CompanyType, name: string, freshId: string)
    requires s.player.currentResidency in Database.Countries()
    ensures var r := Engine.EstablishCompany(s, companyType, name, freshId);
      r != s ==>
        TotalIncome(r.player.companies) == TotalIncome(s.player.companies) + Database.CompanyTypes(companyType).baseIncome
  {
    var r := Engine.EstablishCompany(s, companyType, name, freshId);
    if r != s {
      var n := |s.player.companies|;
      assert r.player.companies == s.player.companies + [r.player.companies[n]];
      TotalIncomeAppend(s.player.companies, [r.player.companies[n]]);
      assert [r.player.companies[n]][..0] == [];
    }
  }

  /** An upgrade raises the income credited at every month wrap by half the upgraded company's
      income. */
  lemma UpgradeAddsIncome(s: State, companyId: string)
    ensures var r := Engine.UpgradeCompany(s, companyId);
      r != s ==>
        var c := s.player.companies[FindCompany(s.player.companies, companyId).value];
        TotalIncome(r.player.companies) == TotalIncome(s.player.companies) + c.monthlyIncome / 2.0
  {
    var r := Engine.UpgradeCompany(s, companyId);
    if r != s {
      var i := FindCompany(s.player.companies, companyId).value;
      TotalIncomeReplace(s.player.companies, i, Upgraded(s.player.companies[i]));
    }
  }

  // ---------------------------------------------------------------- bank

  /** A loan taken and repaid in full right away restores the cash and the loan; only the log
      differs, by two entries. */
  lemma TakeThenRepay(s: State, amount: real)
    requires amount > 0.0 && s.player.loan.amount >= 0.0 && s.player.cash >= 0.0
    requires s.player.loan.amount + amount <= s.player.loan.maxLoan
    ensures var t := Engine.TakeLoan(s, amount);
      var r := Engine.RepayLoan(t, amount);
      t != s && r != t &&
      r.player == s.player &&
      r == s.(log := r.log, nextLogId := s.nextLogId + 2)
  {
    var t := Engine.TakeLoan(s, amount);
    assert Min(Min(amount, t.player.loan.amount), t.player.cash) == amount;
  }

  /** With the cash to cover it, a repayment of at least the debt clears the loan. */
  lemma RepayClears(s: State, amount: real)
    requires 0.0 < s.player.loan.amount <= amount && s.player.loan.amount <= s.player.cash
    ensures var r := Engine.RepayLoan(s, amount);
      r.player.loan.amount == 0.0 && r.player.cash == s.player.cash - s.player.loan.amount
  {
  }
}
