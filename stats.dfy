// Player statistics (js/core/StatsManager.js): high score per mode, longest streak, and a
// counter and level per operation. Saving to and loading from local storage are not modelled.
module Stats {
  import opened Common

  const OperationNames: set<string> := {"ADDITION", "SUBTRACTION", "MULTIPLICATION", "DIVISION"}

  /** Correct answers of one operation and the level derived from them. */
  datatype OperationStats = OperationStats(count: int, level: int)

  /** The level rule: one level per ten correct answers, starting at 1. */
  function LevelFor(count: int): int
  {
    1 + count / 10
  }

  /** The shape of `this.data`. */
  datatype StatsData = StatsData(
    highScores: map<string, int>,
    maxStreak: int,
    operations: map<string, OperationStats>)
  {
    /** Every operation's level agrees with its (non-negative) count. */
    predicate LevelsConsistent()
    {
      forall t | t in operations :: operations[t].count >= 0 && operations[t].level == LevelFor(operations[t].count)
    }

    /** `score > this.data.highScores[mode]`; false for a mode without a score (`undefined`). */
    predicate IsNewRecord(mode: string, score: int)
    {
      mode in highScores && score > highScores[mode]
    }

    /** The data after `updateHighScore(mode, score)`. */
    function WithHighScore(mode: string, score: int): (r: StatsData)
      ensures IsNewRecord(mode, score) ==> r == this.(highScores := highScores[mode := score])
      ensures !IsNewRecord(mode, score) ==> r == this
      ensures r.highScores.Keys == highScores.Keys
      ensures forall m | m in highScores :: r.highScores[m] >= highScores[m]
      ensures mode in highScores ==> r.highScores[mode] == Max(highScores[mode], score)
    {
      if IsNewRecord(mode, score) then this.(highScores := highScores[mode := score]) else this
    }

    /** The data after `updateMaxStreak(streak)`. */
    function WithMaxStreak(streak: int): (r: StatsData)
      ensures r == this.(maxStreak := r.maxStreak)
      ensures r.maxStreak == Max(maxStreak, streak)
    {
      if streak > maxStreak then this.(maxStreak := streak) else this
    }

    /** The data after `registerCorrectOperation(t)`. */
    function WithCorrectOperation(t: string): (r: StatsData)
      ensures t !in operations ==> r == this
      ensures t in operations ==>
                r.highScores == highScores && r.maxStreak == maxStreak &&
                r.operations.Keys == operations.Keys &&
                r.operations[t].count == operations[t].count + 1 &&
                r.operations[t].level == LevelFor(operations[t].count + 1) &&
                (forall u | u in operations && u != t :: r.operations[u] == operations[u])
      ensures LevelsConsistent() ==> r.LevelsConsistent()
      ensures LevelsConsistent() && t in operations ==> r.operations[t].level >= operations[t].level
    {
      if t !in operations then this
      else
        var count := operations[t].count + 1;
        this.(operations := operations[t := OperationStats(count, LevelFor(count))])
    }

    /** The data after `k` calls of `registerCorrectOperation(t)`. */
    function RegisteredTimes(t: string, k: nat): StatsData
    {
      if k == 0 then this else RegisteredTimes(t, k - 1).WithCorrectOperation(t)
    }
  }

  /** `getDefaultData`. */
  function DefaultData(): (d: StatsData)
    ensures d.highScores.Keys == {Solo, Campagne} && d.highScores[Solo] == 0 && d.highScores[Campagne] == 0
    ensures d.maxStreak == 0
    ensures d.operations.Keys == OperationNames
    ensures forall t | t in d.operations :: d.operations[t] == OperationStats(0, 1)
    ensures d.LevelsConsistent()
  {
    StatsData(
      map[Solo := 0, Campagne := 0],
      0,
      map["ADDITION" := OperationStats(0, 1), "SUBTRACTION" := OperationStats(0, 1),
          "MULTIPLICATION" := OperationStats(0, 1), "DIVISION" := OperationStats(0, 1)])
  }

  /** k registrations of a known operation add k to its count and keep its level consistent. */
  lemma {:induction false} RegisteredTimesCounts(d: StatsData, t: string, k: nat)
    requires d.LevelsConsistent() && t in d.operations
    ensures var r := d.RegisteredTimes(t, k);
            r.LevelsConsistent() && t in r.operations &&
            r.operations[t].count == d.operations[t].count + k &&
            r.operations[t].level == LevelFor(d.operations[t].count + k) &&
            r.operations.Keys == d.operations.Keys &&
            r.highScores == d.highScores && r.maxStreak == d.maxStreak
  {
    if k > 0 {
      RegisteredTimesCounts(d, t, k - 1);
    }
  }

  /** From the defaults, k correct answers of an operation reach level 1 + k / 10. */
  lemma LevelAfterCorrectAnswers(t: string, k: nat)
    requires t in OperationNames
    ensures var r := DefaultData().RegisteredTimes(t, k);
            t in r.operations && r.operations[t] == OperationStats(k, 1 + k / 10)
  {
    RegisteredTimesCounts(DefaultData(), t, k);
  }

  /** The statistics object; its methods update `this.data` in place. */
  class StatsManager {
    var data: StatsData

    ghost predicate Valid()
      reads this
    {
      data.LevelsConsistent()
    }

    /** The constructor when local storage holds nothing: the default data. */
    constructor ()
      ensures Valid() && data == DefaultData()
    {
      data := DefaultData();
    }

    method ResetData()
      modifies this
      ensures Valid() && data == DefaultData()
    {
      data := DefaultData();
    }

    method UpdateHighScore(mode: string, score: int) returns (isRecord: bool)
      modifies this
      ensures old(Valid()) ==> Valid()
      ensures isRecord == old(data).IsNewRecord(mode, score)
      ensures data == old(data).WithHighScore(mode, score)
    {
      if mode in data.highScores && score > data.highScores[mode] {
        data := data.(highScores := data.highScores[mode := score]);
        return true;
      }
      return false;
    }

    method UpdateMaxStreak(streak: int)
      modifies this
      ensures old(Valid()) ==> Valid()
      ensures data == old(data).WithMaxStreak(streak)
    {
      if streak > data.maxStreak {
        data := data.(maxStreak := streak);
      }
    }

    method RegisterCorrectOperation(t: string)
      modifies this
      ensures old(Valid()) ==> Valid()
      ensures data == old(data).WithCorrectOperation(t)
    {
      if t !in data.operations {
        return;
      }
      var count := data.operations[t].count + 1;
      data := data.(operations := data.operations[t := data.operations[t].(count := count)]);
      var newLevel := 1 + count / 10;
      data := data.(operations := data.operations[t := data.operations[t].(level := newLevel)]);
    }

    /** `getStats`: the current data, returned as a value. */
    method GetStats() returns (stats: StatsData)
      ensures stats == data
      ensures Valid() ==> stats.LevelsConsistent()
    {
      stats := data;
    }
  }
}
