/** The streak tiers of the session: a static table of (threshold, name,
    multiplier) rows, highest threshold first, searched for the first row
    whose threshold the current streak reaches. */
module Streak {

  datatype StreakLevel = StreakLevel(threshold: nat, name: string, multiplier: nat)

  const StreakLevels: seq<StreakLevel> := [
    StreakLevel(12, "Max!", 16),
    StreakLevel(8, "x8!", 8),
    StreakLevel(4, "x4!", 4),
    StreakLevel(2, "x2", 2),
    StreakLevel(0, "x1", 1)
  ]

  /** The first row whose threshold `streak` reaches; when none does, the
      last row. */
  function LevelFor(levels: seq<StreakLevel>, streak: nat): (l: StreakLevel)
    requires |levels| > 0
    ensures l in levels
  {
    if |levels| == 1 || streak >= levels[0].threshold then levels[0]
    else LevelFor(levels[1..], streak)
  }

  /** The multiplier of the tier `LevelFor` picks. */
  function MultiplierFor(levels: seq<StreakLevel>, streak: nat): (m: nat)
    requires |levels| > 0
    ensures exists l :: l in levels && l.multiplier == m
  {
    LevelFor(levels, streak).multiplier
  }

  /** Thresholds strictly decrease down the table. */
  predicate Descending(levels: seq<StreakLevel>) {
    forall i, j :: 0 <= i < j < |levels| ==> levels[j].threshold < levels[i].threshold
  }

  /** On a table ordered highest threshold first and ending at threshold 0,
      the first match is the row with the greatest threshold the streak
      reaches, and a match always exists. */
  lemma {:induction false} LevelForIsHighestMatch(levels: seq<StreakLevel>, streak: nat)
    requires |levels| > 0 && Descending(levels) && levels[|levels| - 1].threshold == 0
    ensures LevelFor(levels, streak).threshold <= streak
    ensures forall l :: l in levels && l.threshold <= streak ==> l.threshold <= LevelFor(levels, streak).threshold
  {
    if |levels| == 1 || streak >= levels[0].threshold {
      forall l | l in levels
        ensures l.threshold <= levels[0].threshold
      {
        var i :| 0 <= i < |levels| && levels[i] == l;
      }
    } else {
      var rest := levels[1..];
      assert rest[|rest| - 1] == levels[|levels| - 1];
      LevelForIsHighestMatch(rest, streak);
      forall l | l in levels && l.threshold <= streak
        ensures l in rest
      {
        var i :| 0 <= i < |levels| && levels[i] == l;
        assert i != 0;
        assert rest[i - 1] == l;
      }
    }
  }

  /** The tier table read as a function of the streak: 1 for 0-1, 2 for
      2-3, 4 for 4-7, 8 for 8-11 and 16 from 12 on. */
  function TierMultiplier(streak: nat): (m: nat)
    ensures 1 <= m <= 16
  {
    if streak >= 12 then 16
    else if streak >= 8 then 8
    else if streak >= 4 then 4
    else if streak >= 2 then 2
    else 1
  }

  /** The lookup over `StreakLevels` yields the multipliers of `TierMultiplier`. */
  lemma MultiplierByStreak(streak: nat)
    ensures MultiplierFor(StreakLevels, streak) == TierMultiplier(streak)
    ensures LevelFor(StreakLevels, streak).threshold <= streak
  {
    var s0 := StreakLevels;
    var s1 := s0[1..];
    var s2 := s1[1..];
    var s3 := s2[1..];
    var s4 := s3[1..];
    assert s1[0] == s0[1] && s2[0] == s0[2] && s3[0] == s0[3] && s4 == [s0[4]];
    if streak < 12 {
      assert LevelFor(s0, streak) == LevelFor(s1, streak);
      if streak < 8 {
        assert LevelFor(s1, streak) == LevelFor(s2, streak);
        if streak < 4 {
          assert LevelFor(s2, streak) == LevelFor(s3, streak);
          if streak < 2 {
            assert LevelFor(s3, streak) == LevelFor(s4, streak);
          }
        }
      }
    }
  }

  /** A longer streak never earns a smaller multiplier. */
  lemma MultiplierMonotone(a: nat, b: nat)
    requires a <= b
    ensures MultiplierFor(StreakLevels, a) <= MultiplierFor(StreakLevels, b)
  {
    MultiplierByStreak(a);
    MultiplierByStreak(b);
  }

  /** The least integer not below `x`. */
  function Ceil(x: real): (c: int)
    ensures x <= c as real < x + 1.0
  {
    -((-x).Floor)
  }

  /** An integer is its own ceiling. */
  lemma CeilOfInteger(n: int)
    ensures Ceil(n as real) == n
  {
  }

  /** A hit worth one base point scores exactly its tier's multiplier. */
  lemma OnePointHit(streak: nat)
    ensures Ceil(1.0 * MultiplierFor(StreakLevels, streak) as real) == TierMultiplier(streak)
  {
    var m := MultiplierFor(StreakLevels, streak);
    MultiplierByStreak(streak);
    assert 1.0 * m as real == m as real;
    CeilOfInteger(m);
  }
}
