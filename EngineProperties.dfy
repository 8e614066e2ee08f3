/** What the reducer promises, stated over the functions of `Engine`: the clock, the market noise
    and the liquidation loop of a tick, the round trips of the ledgers, and the invariant every
    state reached from the initial one keeps. */
module EngineProperties {
  import opened GameTypes
  import opened Engine
  import Database

  // ---------------------------------------------------------------- the audit log

  /** The log's length is within its capacity and its ids are fresh. */
  ghost predicate LogSane(s: State)
  {
    |s.log| <= LogCapacity && LogIdsFresh(s)
  }

  /** A prefix of a log whose ids decrease below a bound keeps that property. */
  lemma {:induction false} IdsBelowPrefix(log: seq<LogEntry>, bound: int, n: nat)
    requires IdsBelow(log, bound) && n <= |log|
    ensures IdsBelow(log[..n], bound)
    decreases n
  {
    if n > 0 {
      assert log[..n][1..] == log[1..][..n - 1];
      IdsBelowPrefix(log[1..], log[0].id, n - 1);
    }
  }

  /** Ids that decrease along the log below a bound are all below the bound and pairwise
      distinct: the newest entry has the highest id. */
  lemma {:induction false} IdsBelowOrdered(log: seq<LogEntry>, bound: int)
    requires IdsBelow(log, bound)
    ensures forall i :: 0 <= i < |log| ==> log[i].id < bound
    ensures forall i, j :: 0 <= i < j < |log| ==> log[i].id > log[j].id
    decreases |log|
  {
    if log != [] {
      IdsBelowOrdered(log[1..], log[0].id);
      forall i, j | 0 <= i < j < |log|
        ensures log[i].id > log[j].id
      {
        assert log[j] == log[1..][j - 1];
        if i > 0 {
          assert log[i] == log[1..][i - 1];
        }
      }
      forall i | 0 <= i < |log|
        ensures log[i].id < bound
      {
        if i > 0 {
          assert log[i] == log[1..][i - 1];
        }
      }
    }
  }

  /** An entry added to a sane log keeps it sane: it takes the highest id so far and the counter
      moves past it. */
  lemma AddLogKeepsLogSane(s: State, kind: LogType, msg: Message)
    requires LogSane(s)
    ensures LogSane(AddLog(s, kind, msg))
  {
    var full := [LogEntry(s.nextLogId, Stamp(s.date), kind, msg)] + s.log;
    assert full[1..] == s.log;
    assert IdsBelow(full, s.nextLogId + 1);
    if |full| > LogCapacity {
      IdsBelowPrefix(full, s.nextLogId + 1, |full| - 1);
    }
  }

  // ---------------------------------------------------------------- enumeration order

  /** Deleting a key from the enumeration order keeps the remaining keys distinct. */
  lemma {:induction false} RemoveKeepsDistinct(s: seq<string>, x: string)
    requires Distinct(s)
    ensures Distinct(Remove(s, x))
  {
    if s != [] {
      assert Distinct(s[1..]) by {
        forall i, j | 0 <= i < j < |s[1..]|
          ensures s[1..][i] != s[1..][j]
        {
          assert s[1..][i] == s[i + 1] && s[1..][j] == s[j + 1];
        }
      }
      RemoveKeepsDistinct(s[1..], x);
      if s[0] != x {
        var r := Remove(s[1..], x);
        assert s[0] !in s[1..];
        assert s[0] !in r;
        forall i, j | 0 <= i < j < |[s[0]] + r|
          ensures ([s[0]] + r)[i] != ([s[0]] + r)[j]
        {
          if i > 0 {
            assert ([s[0]] + r)[i] == r[i - 1];
          }
          assert ([s[0]] + r)[j] == r[j - 1];
        }
      }
    }
  }

  // ---------------------------------------------------------------- liquidation

  /** The keys the liquidation loop deletes when it runs over `positions` at the given prices:
      those of the positions whose threshold the price has crossed. */
  function Liquidated(positions: seq<MarginPosition>, assets: map<string, Asset>): (ids: set<string>)
    requires forall i :: 0 <= i < |positions| ==> positions[i].assetId in assets
    ensures forall k :: k in ids ==> exists i :: 0 <= i < |positions| && positions[i].assetId == k
    decreases |positions|
  {
    if positions == [] then {}
    else
      var pos := positions[0];
      var rest := Liquidated(positions[1..], assets);
      assert forall k :: k in rest ==> exists i :: 0 <= i < |positions| && positions[i].assetId == k by {
        forall k | k in rest
          ensures exists i :: 0 <= i < |positions| && positions[i].assetId == k
        {
          var i :| 0 <= i < |positions[1..]| && positions[1..][i].assetId == k;
          assert positions[i + 1].assetId == k;
        }
      }
      (if ShouldLiquidate(pos, assets[pos.assetId].price) then {pos.assetId} else {}) + rest
  }

  /** The cash the liquidation loop charges: the margin of every position it liquidates. */
  function Loss(positions: seq<MarginPosition>, assets: map<string, Asset>): real
    requires forall i :: 0 <= i < |positions| ==> positions[i].assetId in assets
    decreases |positions|
  {
    if positions == [] then 0.0
    else
      var pos := positions[0];
      (if ShouldLiquidate(pos, assets[pos.assetId].price) then pos.initialMargin else 0.0) +
      Loss(positions[1..], assets)
  }

  /** One iteration of the loop: a position past its threshold costs its margin, leaves the book
      and the enumeration order, and adds one entry to the log; any other leaves the state as it
      is. */
  lemma LiquidateIfDueEffect(s: State, pos: MarginPosition)
    requires pos.assetId in s.assets
    ensures var r := LiquidateIfDue(s, pos);
      var due := ShouldLiquidate(pos, s.assets[pos.assetId].price);
      r.player.cash == s.player.cash - (if due then pos.initialMargin else 0.0) &&
      r.player.marginPositions == s.player.marginPositions - (if due then {pos.assetId} else {}) &&
      r.player == s.player.(cash := r.player.cash, marginPositions := r.player.marginPositions,
                            marginOrder := r.player.marginOrder) &&
      r == s.(player := r.player, log := r.log, nextLogId := r.nextLogId) &&
      (OrderMatches(s.player) ==> OrderMatches(r.player)) &&
      (LogSane(s) ==> LogSane(r))
  {
    var r := LiquidateIfDue(s, pos);
    if ShouldLiquidate(pos, s.assets[pos.assetId].price) {
      var s1 := s.(player := s.player.(cash := s.player.cash - pos.initialMargin));
      var s2 := AddLog(s1, Margin, PositionLiquidated(s.assets[pos.assetId].name, pos.initialMargin));
      if LogSane(s) {
        AddLogKeepsLogSane(s1, Margin, PositionLiquidated(s.assets[pos.assetId].name, pos.initialMargin));
        assert LogSane(r) by {
          assert r.log == s2.log && r.nextLogId == s2.nextLogId;
        }
      }
      if OrderMatches(s.player) {
        RemoveKeepsDistinct(s.player.marginOrder, pos.assetId);
      }
    }
  }

  /** The liquidation loop over a snapshot of positions deletes exactly the positions whose
      threshold the price has crossed and charges exactly their margins; nothing else of the
      state but the log changes. */
  lemma {:induction false} LiquidationsEffect(s: State, positions: seq<MarginPosition>)
    requires forall i :: 0 <= i < |positions| ==> positions[i].assetId in s.assets
    ensures var r := Liquidations(s, positions);
      r.player.marginPositions == s.player.marginPositions - Liquidated(positions, s.assets) &&
      r.player.cash == s.player.cash - Loss(positions, s.assets) &&
      r.player == s.player.(cash := r.player.cash, marginPositions := r.player.marginPositions,
                            marginOrder := r.player.marginOrder) &&
      r == s.(player := r.player, log := r.log, nextLogId := r.nextLogId) &&
      (OrderMatches(s.player) ==> OrderMatches(r.player)) &&
      (LogSane(s) ==> LogSane(r))
    decreases |positions|
  {
    if positions != [] {
      var pos := positions[0];
      var s1 := LiquidateIfDue(s, pos);
      LiquidateIfDueEffect(s, pos);
      LiquidationsEffect(s1, positions[1..]);
    }
  }

  /** With the enumeration order consistent and every position stored under its own asset, the
      snapshot visits every open position exactly once. */
  lemma SnapshotOnce(p: PlayerState)
    requires OrderMatches(p)
    requires forall k :: k in p.marginPositions ==> p.marginPositions[k].assetId == k
    ensures forall k :: k in p.marginPositions ==>
      exists i :: 0 <= i < |Snapshot(p)| && Snapshot(p)[i] == p.marginPositions[k]
    ensures forall i, j :: 0 <= i < j < |Snapshot(p)| ==> Snapshot(p)[i].assetId != Snapshot(p)[j].assetId
  {
    var snap := Snapshot(p);
    forall k | k in p.marginPositions
      ensures exists i :: 0 <= i < |snap| && snap[i] == p.marginPositions[k]
    {
      var i :| 0 <= i < |p.marginOrder| && p.marginOrder[i] == k;
      assert snap[i] == p.marginPositions[k];
    }
    forall i, j | 0 <= i < j < |snap|
      ensures snap[i].assetId != snap[j].assetId
    {
      assert snap[i].assetId == p.marginOrder[i] && snap[j].assetId == p.marginOrder[j];
    }
  }

  /** A position is never liquidated at its entry price when its leverage is at least 1: a long's
      threshold lies below the entry and a short's above it. */
  lemma FreshPositionSafe(assetId: string, quantity: real, price: real, leverage: real, isShort: bool)
    requires price > 0.0 && leverage >= 1.0
    ensures var pos := MarginPosition(assetId, quantity, price, leverage, isShort,
                                      LiquidationPrice(price, leverage, isShort), quantity * price / leverage);
      !ShouldLiquidate(pos, price)
  {
  }

  /** A command throws exactly where its run reads a property of a missing row, and only after
      its guard has accepted it: a rejected command never throws. */
  lemma ThrowPoints(s: State, a: Action)
    ensures a.Tick? ==>
      (Throws(s, a) <==> Running(s) &&
                         exists k :: k in s.player.marginPositions && s.player.marginPositions[k].assetId !in s.assets)
    ensures a.ExecuteTrade? && a.isBuy ==>
      (Throws(s, a) <==> a.assetId !in s.assets && s.player.cash >= a.quantity * a.price)
    ensures a.ExecuteTrade? && !a.isBuy ==>
      (Throws(s, a) <==> a.assetId !in s.assets && Held(s.player, a.assetId) >= a.quantity &&
                         a.assetId in s.player.portfolio)
    ensures a.OpenMarginPosition? && a.leverage != 0.0 ==>
      (Throws(s, a) <==> a.assetId !in s.assets && s.player.cash >= a.quantity * a.price / a.leverage)
    ensures a.EstablishCompany? ==> (Throws(s, a) <==> s.player.currentResidency !in Database.Countries())
    ensures a.StartGame? || a.ApplyImmigration? ==> (Throws(s, a) <==> a.countryId !in Database.Countries())
    ensures (a.PauseGame? || a.ResumeGame? || a.SetSpeed? || a.NextDay? || a.UpgradeCompany? ||
             a.TakeLoan? || a.RepayLoan? || a.DonateToParty? || a.Lobby? || a.DismissEventPopup?) ==>
      !Throws(s, a)
  {
  }

  /** A snapshot taken in key order, with every position stored under its own asset, liquidates
      a key exactly when it holds a position whose threshold the price has crossed. */
  lemma SnapshotLiquidated(p: PlayerState, assets: map<string, Asset>)
    requires OrderMatches(p)
    requires forall k :: k in p.marginPositions ==> p.marginPositions[k].assetId == k && k in assets
    ensures forall i :: 0 <= i < |Snapshot(p)| ==> Snapshot(p)[i].assetId in assets
    ensures forall k :: k in Liquidated(Snapshot(p), assets) <==>
      k in p.marginPositions && ShouldLiquidate(p.marginPositions[k], assets[k].price)
  {
    var snap := Snapshot(p);
    LiquidatedMembers(snap, assets);
    forall k | k in p.marginPositions && ShouldLiquidate(p.marginPositions[k], assets[k].price)
      ensures k in Liquidated(snap, assets)
    {
      var i :| 0 <= i < |p.marginOrder| && p.marginOrder[i] == k;
      assert snap[i] == p.marginPositions[k];
    }
  }

  /** A key is liquidated exactly when some position of the snapshot with that asset has crossed
      its threshold. */
  lemma {:induction false} LiquidatedMembers(positions: seq<MarginPosition>, assets: map<string, Asset>)
    requires forall i :: 0 <= i < |positions| ==> positions[i].assetId in assets
    ensures forall i :: 0 <= i < |positions| && ShouldLiquidate(positions[i], assets[positions[i].assetId].price) ==>
      positions[i].assetId in Liquidated(positions, assets)
    ensures forall k :: k in Liquidated(positions, assets) ==>
      exists i :: 0 <= i < |positions| && positions[i].assetId == k &&
                  ShouldLiquidate(positions[i], assets[k].price)
    decreases |positions|
  {
    if positions != [] {
      var rest := positions[1..];
      LiquidatedMembers(rest, assets);
      forall i | 0 <= i < |positions| && ShouldLiquidate(positions[i], assets[positions[i].assetId].price)
        ensures positions[i].assetId in Liquidated(positions, assets)
      {
        if i > 0 {
          assert positions[i] == rest[i - 1];
        }
      }
      forall k | k in Liquidated(positions, assets)
        ensures exists i :: 0 <= i < |positions| && positions[i].assetId == k &&
                            ShouldLiquidate(positions[i], assets[k].price)
      {
        if k in Liquidated(rest, assets) {
          var j :| 0 <= j < |rest| && rest[j].assetId == k && ShouldLiquidate(rest[j], assets[k].price);
          assert positions[j + 1] == rest[j];
        }
      }
    }
  }

  // ---------------------------------------------------------------- clock and settlement

  /** The number of days from the start of year 0 to the date, in the game's calendar of twelve
      30-day months: the reference against which a day's advance is measured. */
  function DayIndex(d: GameDate): int
  {
    d.year * 360 + (d.month - 1) * 30 + d.day - 1
  }

  /** The interest a month wrap charges on the loan: a twelfth of the annual rate, and nothing
      when no loan is outstanding. */
  function MonthlyInterest(loan: Loan): real
  {
    if loan.amount > 0.0 then loan.amount * (loan.interestRate / 12.0) else 0.0
  }

  /** The price an asset moves to on a tick with the draw `r` in [-1, 1]. */
  function NoisedPrice(a: Asset, r: real): real
  {
    a.price * (1.0 + a.volatility * (r / 50.0))
  }

  /** Month-wrap income: the companies' total income is credited and nothing else but the log
      changes. */
  lemma CreditIncomeEffect(s: State)
    ensures var r := CreditIncome(s);
      r.player == s.player.(cash := s.player.cash + TotalIncome(s.player.companies)) &&
      r == s.(player := r.player, log := r.log, nextLogId := r.nextLogId) &&
      (r.nextLogId != s.nextLogId ==> r.log[0].date == Stamp(s.date)) &&
      (LogSane(s) ==> LogSane(r))
  {
    var total := TotalIncome(s.player.companies);
    var s1 := s.(player := s.player.(cash := s.player.cash + total));
    if total > 0.0 && LogSane(s) {
      AddLogKeepsLogSane(s1, Corporate, IncomeReceived(total));
    }
  }

  /** Month-wrap interest: the month's interest is charged and nothing else but the log
      changes. */
  lemma ChargeInterestEffect(s: State)
    ensures var r := ChargeInterest(s);
      r.player == s.player.(cash := s.player.cash - MonthlyInterest(s.player.loan)) &&
      r == s.(player := r.player, log := r.log, nextLogId := r.nextLogId) &&
      (r.nextLogId != s.nextLogId ==> r.log[0].date == Stamp(s.date)) &&
      (LogSane(s) ==> LogSane(r))
  {
    if s.player.loan.amount > 0.0 && LogSane(s) {
      var interest := s.player.loan.amount * (s.player.loan.interestRate / 12.0);
      AddLogKeepsLogSane(s.(player := s.player.(cash := s.player.cash - interest)), Bank, InterestPaid(interest));
    }
  }

  /** The month wrap credits the income of every company and charges the month's interest; the
      date moves to the first of the next month, into the next year after December; the entries it
      logs carry the month before the year wraps. */
  lemma MonthWrapEffect(s: State)
    ensures var r := MonthWrap(s);
      r.player.cash == s.player.cash + TotalIncome(s.player.companies) - MonthlyInterest(s.player.loan) &&
      r.player == s.player.(cash := r.player.cash) &&
      r == s.(player := r.player, date := r.date, log := r.log, nextLogId := r.nextLogId) &&
      r.date == (if s.date.month + 1 > MonthsPerYear
                 then s.date.(day := 1, month := 1, year := s.date.year + 1)
                 else s.date.(day := 1, month := s.date.month + 1)) &&
      (r.nextLogId != s.nextLogId ==> r.log[0].date == LogDate(s.date.year, s.date.month + 1, 1)) &&
      (LogSane(s) ==> LogSane(r))
  {
    var s1 := s.(date := s.date.(day := 1, month := s.date.month + 1));
    CreditIncomeEffect(s1);
    ChargeInterestEffect(CreditIncome(s1));
  }

  /** A tick's day rollover restarts the ticks at 0 and advances the date by exactly one day,
      keeping it a valid calendar date; the day progress computed before it is left as it was. */
  lemma TickRolloverDate(s: State)
    requires DateValid(s.date)
    ensures var r := TickRollover(s);
      DateValid(r.date) && DayIndex(r.date) == DayIndex(s.date) + 1 &&
      r.date.ticks == 0.0 && r.date.dayProgress == s.date.dayProgress
  {
    var s1 := s.(date := s.date.(ticks := 0.0, day := s.date.day + 1));
    if s1.date.day > DaysPerMonth {
      MonthWrapEffect(s1);
    }
  }

  /** A tick's day rollover settles the month (income and interest) only when the day passes 30,
      and makes every reference price the current price. */
  lemma TickRolloverEffect(s: State)
    ensures var r := TickRollover(s);
      r.player.cash == s.player.cash +
        (if s.date.day + 1 > DaysPerMonth
         then TotalIncome(s.player.companies) - MonthlyInterest(s.player.loan) else 0.0) &&
      r.player == s.player.(cash := r.player.cash) &&
      r.assets == ResetBasePrices(s.assets) &&
      r == s.(player := r.player, date := r.date, assets := r.assets, log := r.log, nextLogId := r.nextLogId) &&
      (LogSane(s) ==> LogSane(r))
  {
    var s1 := s.(date := s.date.(ticks := 0.0, day := s.date.day + 1));
    if s1.date.day > DaysPerMonth {
      MonthWrapEffect(s1);
    }
  }

  /** TICK does nothing while the game is paused or not started. Otherwise it adds the scaled
      elapsed time to the day's ticks and, once they reach a day's worth, rolls the date over by
      exactly one day and restarts the ticks at 0; the date stays a valid calendar date. */
  lemma TickClock(s: State, deltaTime: real, draws: map<string, real>)
    requires (Running(s) ==> TickReady(s, draws)) && !TickThrows(s) && DateValid(s.date)
    ensures s.isPaused || !s.hasStarted ==> Engine.Tick(s, deltaTime, draws) == s
    ensures var r := Engine.Tick(s, deltaTime, draws);
      var ticks := s.date.ticks + deltaTime * s.gameSpeed;
      DateValid(r.date) &&
      (!s.isPaused && s.hasStarted ==>
         r.date.dayProgress == DayProgress(ticks) &&
         if ticks >= TicksPerDay then r.date.ticks == 0.0 && DayIndex(r.date) == DayIndex(s.date) + 1
         else r.date.ticks == ticks && DayIndex(r.date) == DayIndex(s.date))
  {
    if !s.isPaused && s.hasStarted {
      var ticks := s.date.ticks + deltaTime * s.gameSpeed;
      var s1 := Advance(s, deltaTime, draws);
      assert s1.date.ticks == ticks && s1.date.dayProgress == DayProgress(ticks);
      assert s1.date.(ticks := s.date.ticks, dayProgress := s.date.dayProgress) == s.date;
      assert Engine.Tick(s, deltaTime, draws) == if ticks >= TicksPerDay then TickRollover(s1) else s1;
      if ticks >= TicksPerDay {
        TickRolloverDate(s1);
      }
    }
  }

  /** The part of a running tick before the day rollover liquidates exactly the positions whose
      threshold the new prices crossed and charges exactly their margins. */
  lemma AdvanceEffect(s: State, deltaTime: real, draws: map<string, real>)
    requires TickReady(s, draws) && PositionsListed(s)
    ensures Advance(s, deltaTime, draws).player.marginPositions ==
      s.player.marginPositions - Liquidated(Snapshot(s.player), ApplyNoise(s.assets, draws))
    ensures Advance(s, deltaTime, draws).player.cash ==
      s.player.cash - Loss(Snapshot(s.player), ApplyNoise(s.assets, draws))
    ensures var r := Advance(s, deltaTime, draws);
      r.player == s.player.(cash := r.player.cash, marginPositions := r.player.marginPositions,
                            marginOrder := r.player.marginOrder)
    ensures OrderMatches(Advance(s, deltaTime, draws).player)
    ensures LogSane(s) ==> LogSane(Advance(s, deltaTime, draws))
  {
    var s1 := Move(s, deltaTime, draws);
    LiquidationsEffect(s1, Snapshot(s1.player));
  }

  /** TICK changes nothing while paused or before the start; a running tick changes only the
      player, the clock, the prices and the log, and never lists or delists an asset. */
  lemma TickFrame(s: State, deltaTime: real, draws: map<string, real>)
    requires (Running(s) ==> TickReady(s, draws)) && !TickThrows(s)
    ensures !Running(s) ==> Engine.Tick(s, deltaTime, draws) == s
    ensures var r := Engine.Tick(s, deltaTime, draws);
      r.assets.Keys == s.assets.Keys &&
      r == s.(player := r.player, date := r.date, assets := r.assets, log := r.log, nextLogId := r.nextLogId)
  {
  }

  /** A running tick moves every asset's price to `price * (1 + volatility * r / 50)` for its draw
      `r`, keeps every other attribute, and on a day rollover sets the reference price to the new
      price. */
  lemma TickPrices(s: State, deltaTime: real, draws: map<string, real>)
    requires TickReady(s, draws) && !TickThrows(s) && !s.isPaused && s.hasStarted
    ensures var r := Engine.Tick(s, deltaTime, draws);
      var rollover := s.date.ticks + deltaTime * s.gameSpeed >= TicksPerDay;
      r.assets.Keys == s.assets.Keys &&
      forall id :: id in s.assets ==>
        r.assets[id] == s.assets[id].(price := NoisedPrice(s.assets[id], draws[id]),
                                      basePrice := if rollover then NoisedPrice(s.assets[id], draws[id])
                                                   else s.assets[id].basePrice)
  {
    var ticks := s.date.ticks + deltaTime * s.gameSpeed;
    var s1 := Advance(s, deltaTime, draws);
    assert s1.date.ticks == ticks;
    assert s1.assets == ApplyNoise(s.assets, draws);
    if ticks >= TicksPerDay {
      TickRolloverEffect(s1);
      assert Engine.Tick(s, deltaTime, draws).assets == ResetBasePrices(s1.assets);
    } else {
      assert Engine.Tick(s, deltaTime, draws) == s1;
    }
  }

  /** On a running tick an open position survives exactly when the new price of its asset has not
      crossed its liquidation threshold, and a surviving position is untouched. */
  lemma TickPositions(s: State, deltaTime: real, draws: map<string, real>)
    requires TickReady(s, draws) && !TickThrows(s) && !s.isPaused && s.hasStarted
    requires PositionsKeyed(s)
    ensures var r := Engine.Tick(s, deltaTime, draws);
      (forall k :: k in r.player.marginPositions <==>
         k in s.player.marginPositions &&
         !ShouldLiquidate(s.player.marginPositions[k], NoisedPrice(s.assets[k], draws[k]))) &&
      (forall k :: k in r.player.marginPositions ==> r.player.marginPositions[k] == s.player.marginPositions[k])
  {
    var s1 := Advance(s, deltaTime, draws);
    AdvanceEffect(s, deltaTime, draws);
    SnapshotLiquidated(s.player, s1.assets);
    if s1.date.ticks >= TicksPerDay {
      TickRolloverEffect(s1);
    }
  }

  /** A running tick charges the margins of the liquidated positions and, only when its rollover
      wraps the month, credits the companies' income and charges the month's interest. */
  lemma TickCash(s: State, deltaTime: real, draws: map<string, real>)
    requires TickReady(s, draws) && !TickThrows(s) && !s.isPaused && s.hasStarted
    ensures var r := Engine.Tick(s, deltaTime, draws);
      var wraps := s.date.ticks + deltaTime * s.gameSpeed >= TicksPerDay && s.date.day + 1 > DaysPerMonth;
      r.player.cash == s.player.cash - Loss(Snapshot(s.player), ApplyNoise(s.assets, draws)) +
        (if wraps then TotalIncome(s.player.companies) - MonthlyInterest(s.player.loan) else 0.0)
  {
    var s1 := Advance(s, deltaTime, draws);
    AdvanceEffect(s, deltaTime, draws);
    if s1.date.ticks >= TicksPerDay {
      TickRolloverEffect(s1);
    }
  }

  /** NEXT_DAY advances the date by exactly one day, restarts the day's ticks and progress, sets
      every reference price to the current price, and changes nothing else: no income and no
      interest. */
  lemma NextDayEffect(s: State)
    requires DateValid(s.date)
    ensures var r := Engine.NextDay(s);
      DateValid(r.date) && DayIndex(r.date) == DayIndex(s.date) + 1 &&
      r.date.ticks == 0.0 && r.date.dayProgress == 0.0 &&
      r.assets.Keys == s.assets.Keys &&
      (forall id :: id in s.assets ==> r.assets[id] == s.assets[id].(basePrice := s.assets[id].price)) &&
      r == s.(date := r.date, assets := r.assets)
  {
  }
}
