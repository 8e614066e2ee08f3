/** Two counters a new game starts without. The initial literal of `getInitialState` sets neither
    the clock's tick count nor the next log id, so JavaScript reads both as `undefined`: the tick
    count becomes NaN on the first tick, so no run of ticks reaches a day's worth until a NEXT_DAY
    resets the count to 0, and every log entry gets the id NaN. This module models the counters as written, exhibits both effects, and
    proves that the initial state the rest of the model uses (both counters at 0) has the
    intended behaviour. */
module Findings {
  import opened GameTypes
  import opened Engine
  import EngineProperties
  import Database

  /** A JavaScript number, as far as these counters need one: a missing property reads as
      `undefined`, and arithmetic on it gives NaN. */
  datatype JsNumber = Undefined | NaN | Num(value: real)

  /** `x + d` for a number `d`. */
  function JsAdd(x: JsNumber, d: real): (r: JsNumber)
    ensures r.Num? <==> x.Num?
    ensures x.Num? ==> r == Num(x.value + d)
  {
    match x
    case Num(v) => Num(v + d)
    case _ => NaN
  }

  /** `x >= c` for a number `c`: every comparison with NaN or `undefined` is false. */
  predicate JsAtLeast(x: JsNumber, c: real)
  {
    x.Num? && x.value >= c
  }

  /** `x++`: the value it yields (the old value converted to a number) and the value it stores. */
  function JsPostIncrement(x: JsNumber): (r: (JsNumber, JsNumber))
    ensures x.Num? ==> r == (x, Num(x.value + 1.0))
    ensures !x.Num? ==> r == (NaN, NaN)
  {
    match x
    case Num(v) => (x, Num(v + 1.0))
    case _ => (NaN, NaN)
  }

  // ---------------------------------------------------------------- the clock

  /** The day rollovers of a run of TICKs with the given effective deltas, starting from the tick
      count `ticks`: each tick adds its delta, and a count that reaches a day's worth of ticks
      rolls the day over and restarts at 0. */
  function Rollovers(ticks: JsNumber, deltas: seq<real>): nat
    decreases |deltas|
  {
    if deltas == [] then 0
    else
      var t := JsAdd(ticks, deltas[0]);
      if JsAtLeast(t, TicksPerDay) then 1 + Rollovers(Num(0.0), deltas[1..])
      else Rollovers(t, deltas[1..])
  }

  /** As written: from the missing tick count, no run of ticks, however long, rolls a day
      over; only a NEXT_DAY, which sets the count to 0, ends this. */
  lemma {:induction false} AsWrittenNeverRollsOver(ticks: JsNumber, deltas: seq<real>)
    requires !ticks.Num?
    ensures Rollovers(ticks, deltas) == 0
    decreases |deltas|
  {
    if deltas != [] {
      assert JsAdd(ticks, deltas[0]) == NaN;
      AsWrittenNeverRollsOver(NaN, deltas[1..]);
    }
  }

  /** The input that shows it: one tick of a full day's worth rolls the day over from a count of
      0 but not from the missing count of the initial literal. */
  lemma AsWrittenCounterexample()
    ensures Rollovers(Undefined, [TicksPerDay]) == 0
    ensures Rollovers(Num(0.0), [TicksPerDay]) == 1
  {
    AsWrittenNeverRollsOver(Undefined, [TicksPerDay]);
    assert [TicksPerDay][1..] == [];
  }

  /** The sum of the deltas. */
  function Total(deltas: seq<real>): real
    decreases |deltas|
  {
    if deltas == [] then 0.0 else deltas[0] + Total(deltas[1..])
  }

  /** Corrected: from a count below a day, ticks with non-negative deltas that bring it to a day's worth
      roll the day over at least once. */
  lemma {:induction false} CorrectedRollsOver(t: real, deltas: seq<real>)
    requires 0.0 <= t < TicksPerDay && forall i :: 0 <= i < |deltas| ==> deltas[i] >= 0.0
    requires t + Total(deltas) >= TicksPerDay
    ensures Rollovers(Num(t), deltas) >= 1
    decreases |deltas|
  {
    if deltas != [] {
      var next := t + deltas[0];
      if next < TicksPerDay {
        assert forall i :: 0 <= i < |deltas[1..]| ==> deltas[1..][i] == deltas[i + 1];
        CorrectedRollsOver(next, deltas[1..]);
      }
    }
  }

  /** Corrected, on the model itself: in a game started from the initial state, whose tick count
      is 0, a first tick of a day's worth of ticks rolls the day over. */
  lemma CorrectedFirstDayRollsOver(countryId: string, deltaTime: real, draws: map<string, real>)
    requires countryId in Database.Countries()
    requires var s := Engine.StartGame(Database.InitialState(), countryId); TickReady(s, draws)
    requires deltaTime >= TicksPerDay
    ensures var s := Engine.StartGame(Database.InitialState(), countryId);
      var r := Engine.Tick(s, deltaTime, draws);
      r.date.ticks == 0.0 && EngineProperties.DayIndex(r.date) == EngineProperties.DayIndex(s.date) + 1
  {
    var s := Engine.StartGame(Database.InitialState(), countryId);
    assert s.player.marginPositions == map[];
    assert s.date == GameDate(2024, 1, 1, 0.0, 0.0) && s.gameSpeed == 1.0;
    EngineProperties.TickClock(s, deltaTime, draws);
  }

  // ---------------------------------------------------------------- the log ids

  /** The ids `addLog` stamps on `n` entries in a row, starting from the counter `next`. */
  function IssuedIds(next: JsNumber, n: nat): (ids: seq<JsNumber>)
    ensures |ids| == n
    decreases n
  {
    if n == 0 then []
    else
      var (id, after) := JsPostIncrement(next);
      [id] + IssuedIds(after, n - 1)
  }

  /** As written: from the missing counter of the initial literal every id is NaN, so no two
      entries can be told apart by id. */
  lemma {:induction false} AsWrittenIdsAreNaN(next: JsNumber, n: nat)
    requires !next.Num?
    ensures forall i :: 0 <= i < n ==> IssuedIds(next, n)[i] == NaN
    decreases n
  {
    if n > 0 {
      AsWrittenIdsAreNaN(NaN, n - 1);
      var ids := IssuedIds(next, n);
      assert ids == [NaN] + IssuedIds(NaN, n - 1);
    }
  }

  /** The input that shows it: the first two entries of a new game share the id NaN. */
  lemma AsWrittenIdsCollide()
    ensures var ids := IssuedIds(Undefined, 2); ids[0] == ids[1] == NaN
  {
    AsWrittenIdsAreNaN(Undefined, 2);
  }

  /** Corrected: from a counter of `k` the ids are k, k + 1, ..., so they are all distinct. */
  lemma {:induction false} CorrectedIdsCount(k: real, n: nat)
    ensures forall i :: 0 <= i < n ==> IssuedIds(Num(k), n)[i] == Num(k + i as real)
    decreases n
  {
    if n > 0 {
      CorrectedIdsCount(k + 1.0, n - 1);
      var ids := IssuedIds(Num(k), n);
      assert ids == [Num(k)] + IssuedIds(Num(k + 1.0), n - 1);
      forall i | 0 < i < n
        ensures ids[i] == Num(k + i as real)
      {
        assert ids[i] == IssuedIds(Num(k + 1.0), n - 1)[i - 1];
      }
    }
  }

  /** Corrected, on the model itself: the initial state starts the counter at 0, so the ids of
      the entries `addLog` adds to a new game are pairwise distinct. */
  lemma CorrectedIdsDistinct(n: nat)
    ensures var ids := IssuedIds(Num(Database.InitialState().nextLogId as real), n);
      forall i, j :: 0 <= i < j < n ==> ids[i] != ids[j]
  {
    CorrectedIdsCount(0.0, n);
  }
}
