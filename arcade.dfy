/** The two objects of game.js that hold the game's state: a `Ball` (one
    target with its speed gauge) and the `Game` session (score, streak, the
    one live ball, and the started and paused flags).

    Each method is proved against the value-level functions of `Gauge` and
    `Streak`: a click changes a ball as `Clicked` says, a frame as `Ticked`
    says, a spawn resets it to `Spawned`, and the session's score grows by the
    tier multiplier of `TierMultiplier`. `Game.Valid` is the session invariant:
    at most one ball, present only once the game has started, well formed and
    short of its required taps. */
module Arcade {
  import opened Gauge
  import opened Streak

  /** Only one ball at a time. */
  const MaxBalls: nat := 1

  /** Position of the first occurrence of `x` in `s`, or -1. */
  function IndexOf<T(==)>(s: seq<T>, x: T): (i: int)
    ensures -1 <= i < |s|
    ensures 0 <= i ==> s[i] == x && x !in s[..i]
    ensures i == -1 ==> x !in s
  {
    if s == [] then -1
    else if s[0] == x then 0
    else
      var j := IndexOf(s[1..], x);
      if j == -1 then -1
      else
        assert s[..j + 1] == [s[0]] + s[1..][..j];
        j + 1
  }

  class Ball {
    const game: Game
    var taps: nat
    var requiredTaps: int
    var currentSpeed: real
    var targetSpeedMin: real
    var targetSpeedMax: real
    var isInSweetSpot: bool
    var lastUpdateTime: real
    var currentScale: real

    /** The gameplay fields as one value. */
    function State(): GaugeState
      reads this
    {
      GaugeState(taps, requiredTaps, currentSpeed, targetSpeedMin, targetSpeedMax,
                 isInSweetSpot, lastUpdateTime, currentScale)
    }

    ghost predicate Valid()
      reads this
    {
      WellFormed(State())
    }

    /** A new ball belongs to `game` and starts as a fresh spawn. */
    constructor (game: Game, draw: Draw)
      requires draw.Valid()
      ensures this.game == game
      ensures Valid() && State() == Spawned(draw)
    {
      this.game := game;
      requiredTaps := 0;
      taps := 0;
      currentSpeed := 0.0;
      targetSpeedMin := 60.0;
      targetSpeedMax := 80.0;
      isInSweetSpot := false;
      lastUpdateTime := 0.0;
      currentScale := 1.0;
      new;
      Spawn(draw);
    }

    /** Resets the gauge: no taps, speed 0, scale 1, flag down, a fresh
        required count and band, and the frame clock at the spawn time. */
    method Spawn(draw: Draw)
      requires draw.Valid()
      modifies this
      ensures Valid() && State() == Spawned(draw)
    {
      taps := 0;
      currentSpeed := 0.0;
      requiredTaps := RequiredTapsFor(draw.tapsRoll);
      currentScale := 1.0;
      isInSweetSpot := false;
      targetSpeedMin := BandStartFor(draw.bandRoll);
      targetSpeedMax := targetSpeedMin + SweetSpotWidth;
      lastUpdateTime := draw.now;
    }

    /** One animation frame. While the game is paused only the frame clock
        moves. Otherwise the speed decays over the elapsed time, the flag
        follows the band, and the streak is reset exactly when decay carried
        the speed out of the band; taps are never touched here. */
    method Update(timestamp: real)
      requires Valid()
      modifies this, game`streak
      ensures Valid()
      ensures game.isPaused ==>
        State() == old(State()).(lastUpdateTime := timestamp) && game.streak == old(game.streak)
      ensures !game.isPaused ==> State() == Ticked(old(State()), timestamp)
      ensures !game.isPaused ==>
        game.streak == (if DecayedOut(old(State()), State()) then 0 else old(game.streak))
    {
      if game.isPaused {
        lastUpdateTime := timestamp;
        return;
      }
      TickSpec(State(), timestamp);
      var deltaTime := (timestamp - lastUpdateTime) / 1000.0;
      lastUpdateTime := timestamp;

      if currentSpeed > 0.0 {
        currentSpeed := currentSpeed - DecelerationRate * deltaTime;
        currentSpeed := Max(0.0, currentSpeed);
      }

      var stillInSweetSpot := InSweetSpot(currentSpeed, targetSpeedMin, targetSpeedMax);
      if isInSweetSpot != stillInSweetSpot {
        isInSweetSpot := stillInSweetSpot;
        if !isInSweetSpot {
          game.HandleFrequencyMiss();
        }
      }
    }

    /** A tap that landed on this ball. Paused: nothing changes. Otherwise
        the ball changes as `Clicked` says; a hit raises the streak by one and
        adds the new streak's multiplier to the score, a miss resets the
        streak; once the taps reach the required count the ball leaves the
        game and, the game being live, a fresh one takes its place. */
    method HandleClick(next: Draw)
      requires Valid() && game.Valid() && next.Valid()
      modifies this, game
      ensures Valid() && game.Valid()
      ensures old(game.isPaused) ==> unchanged(this, game)
      ensures !old(game.isPaused) ==> State() == Clicked(old(State()))
      ensures !old(game.isPaused) ==>
        game.streak == (if isInSweetSpot then old(game.streak) + 1 else 0)
      ensures !old(game.isPaused) ==>
        game.score == old(game.score) + (if isInSweetSpot then TierMultiplier(game.streak) else 0)
      ensures game.isPaused == old(game.isPaused) && game.gameStarted == old(game.gameStarted)
      ensures game.lastTimestamp == old(game.lastTimestamp)
      ensures taps < requiredTaps ==> game.balls == old(game.balls)
      ensures !old(game.isPaused) && taps >= requiredTaps ==> this !in game.balls
      ensures old(game.balls) == [this] ==> |game.balls| == 1
      ensures old(game.balls) == [this] && taps >= requiredTaps ==>
        fresh(game.balls[0]) && game.balls[0].State() == Spawned(next)
    {
      if game.isPaused {
        return;
      }
      BoostAndJudge();
      if taps >= requiredTaps {
        game.RemoveBall(this, next);
      }
    }

    /** The scoring half of a click: boost, judge the boosted speed against
        the band, then either count a hit (tap, streak, score, growth) or
        reset the streak. */
    method BoostAndJudge()
      requires Valid() && game.streakLevels == StreakLevels
      modifies this, game`score, game`streak
      ensures Valid()
      ensures State() == Clicked(old(State()))
      ensures game.streak == (if isInSweetSpot then old(game.streak) + 1 else 0)
      ensures game.score == old(game.score) + (if isInSweetSpot then TierMultiplier(game.streak) else 0)
    {
      ClickSpec(State());
      currentSpeed := currentSpeed + AccelerationPerClick;
      currentSpeed := Min(MaxSpeed, currentSpeed);

      var nowInSweetSpot := InSweetSpot(currentSpeed, targetSpeedMin, targetSpeedMax);
      if nowInSweetSpot {
        taps := taps + 1;
        var pointsEarned := game.AddScore(1.0);
        MultiplierByStreak(game.streak);
        currentScale := currentScale + ScaleStep;
        isInSweetSpot := true;
      } else {
        game.HandleFrequencyMiss();
        isInSweetSpot := false;
      }
    }
  }

  class Game {
    var score: int
    var streak: nat
    var balls: seq<Ball>
    var gameStarted: bool
    var isPaused: bool
    var lastTimestamp: real
    const streakLevels: seq<StreakLevel>

    /** `b` is a ball of this game that is well formed and not yet cleared. */
    ghost predicate Live(b: Ball)
      reads b
    {
      b.game == this && b.Valid() && b.taps < b.requiredTaps
    }

    ghost predicate Valid()
      reads this, balls
    {
      && streakLevels == StreakLevels
      && |balls| <= MaxBalls
      && (balls != [] ==> gameStarted && Live(balls[0]))
    }

    /** A session before the start screen is dismissed. */
    constructor ()
      ensures Valid()
      ensures score == 0 && streak == 0 && balls == []
      ensures !gameStarted && !isPaused && lastTimestamp == 0.0
    {
      score := 0;
      streak := 0;
      balls := [];
      gameStarted := false;
      isPaused := false;
      streakLevels := StreakLevels;
      lastTimestamp := 0.0;
    }

    /** Starts the session: started, score and streak at 0, the frame anchor
        at `now`, and a first ball unless one exists or the game is paused. */
    method StartGame(draw: Draw, now: real)
      requires Valid() && draw.Valid()
      modifies this`gameStarted, this`score, this`streak, this`balls, this`lastTimestamp
      ensures Valid()
      ensures gameStarted && score == 0 && streak == 0
      ensures lastTimestamp == now && isPaused == old(isPaused)
      ensures old(balls) == [] && !isPaused ==>
        |balls| == 1 && fresh(balls[0]) && balls[0].State() == Spawned(draw)
      ensures old(balls) != [] || isPaused ==> balls == old(balls)
    {
      gameStarted := true;
      score := 0;
      streak := 0;
      SpawnNewBall(draw);
      lastTimestamp := now;
    }

    /** One tick of the animation loop. Before the start or while paused only
        the loop's anchor moves; otherwise the live ball, if any, runs one
        frame, and nothing else of the session changes. */
    method GameLoop(timestamp: real)
      requires Valid()
      modifies this`lastTimestamp, this`streak, balls
      ensures Valid()
      ensures balls == old(balls) && score == old(score)
      ensures gameStarted == old(gameStarted) && isPaused == old(isPaused)
      ensures !gameStarted || isPaused ==>
        lastTimestamp == timestamp && streak == old(streak) && unchanged(balls)
      ensures gameStarted && !isPaused ==> lastTimestamp == old(lastTimestamp)
      ensures gameStarted && !isPaused && balls == [] ==> streak == old(streak)
      ensures gameStarted && !isPaused && balls != [] ==>
        && balls[0].State() == Ticked(old(balls[0].State()), timestamp)
        && streak == (if DecayedOut(old(balls[0].State()), balls[0].State()) then 0 else old(streak))
    {
      if !gameStarted || isPaused {
        lastTimestamp := timestamp;
        return;
      }
      if |balls| > 0 {
        balls[0].Update(timestamp);
      }
    }

    /** Flips the paused flag of a started game; resuming moves the loop's
        anchor to `now`. Nothing else, and in particular not the ball's own
        frame clock, is touched. */
    method TogglePause(now: real)
      requires Valid()
      modifies this`isPaused, this`lastTimestamp
      ensures Valid()
      ensures !old(gameStarted) ==> isPaused == old(isPaused)
      ensures old(gameStarted) ==> isPaused == !old(isPaused)
      ensures old(gameStarted) && !isPaused ==> lastTimestamp == now
      ensures !(old(gameStarted) && !isPaused) ==> lastTimestamp == old(lastTimestamp)
    {
      if !gameStarted {
        return;
      }
      isPaused := !isPaused;
      if !isPaused {
        lastTimestamp := now;
      }
    }

    /** `TogglePause` with the resume also moving the live ball's frame clock
        to `now`, so that the first frame after a resume decays only over the
        time since the resume. */
    method TogglePauseAnchored(now: real)
      requires Valid()
      modifies this`isPaused, this`lastTimestamp, balls
      ensures Valid() && balls == old(balls)
      ensures !old(gameStarted) ==> isPaused == old(isPaused)
      ensures old(gameStarted) ==> isPaused == !old(isPaused)
      ensures old(gameStarted) && !isPaused ==> lastTimestamp == now
      ensures !(old(gameStarted) && !isPaused) ==> lastTimestamp == old(lastTimestamp) && unchanged(balls)
      ensures old(gameStarted) && !isPaused && balls != [] ==>
        balls[0].State() == old(balls[0].State()).(lastUpdateTime := now)
    {
      if !gameStarted {
        return;
      }
      isPaused := !isPaused;
      if !isPaused {
        lastTimestamp := now;
        if |balls| > 0 {
          balls[0].lastUpdateTime := now;
        }
      }
    }

    /** A tap that landed on the current ball: ignored before the start,
        while paused or with no ball; otherwise that ball's click. Either way
        one ball is on screen afterwards. */
    method TapOnBall(next: Draw)
      requires Valid() && next.Valid()
      modifies this, balls
      ensures Valid()
      ensures gameStarted == old(gameStarted) && isPaused == old(isPaused)
      ensures lastTimestamp == old(lastTimestamp)
      ensures !old(gameStarted) || old(isPaused) || old(balls) == [] ==>
        unchanged(this) && unchanged(old(balls))
      ensures old(gameStarted && !isPaused && balls != []) ==>
        var b := old(balls[0]);
        && b.State() == Clicked(old(b.State()))
        && streak == (if b.isInSweetSpot then old(streak) + 1 else 0)
        && score == old(score) + (if b.isInSweetSpot then TierMultiplier(streak) else 0)
        && |balls| == 1
        && (b.taps < b.requiredTaps ==> balls == old(balls))
        && (b.taps >= b.requiredTaps ==> fresh(balls[0]) && balls[0].State() == Spawned(next))
    {
      if !gameStarted || isPaused || |balls| == 0 {
        return;
      }
      var currentBall := balls[0];
      currentBall.HandleClick(next);
    }

    /** Adds a ball only when none exists and the game is started and not
        paused; the new ball is a fresh spawn. */
    method SpawnNewBall(draw: Draw)
      requires Valid() && draw.Valid()
      modifies this`balls
      ensures Valid()
      ensures old(|balls|) < MaxBalls && gameStarted && !isPaused ==>
        |balls| == 1 && fresh(balls[0]) && balls[0].State() == Spawned(draw)
      ensures !(old(|balls|) < MaxBalls && gameStarted && !isPaused) ==> balls == old(balls)
    {
      if |balls| < MaxBalls && gameStarted && !isPaused {
        var ball := new Ball(this, draw);
        balls := balls + [ball];
      }
    }

    /** Takes `ball` out of the game if it is there, then spawns. Afterwards
        `ball` is gone, and a live game holds exactly one ball. */
    method RemoveBall(ball: Ball, draw: Draw)
      requires draw.Valid()
      requires streakLevels == StreakLevels && |balls| <= MaxBalls
      requires balls != [] ==> gameStarted && (balls[0] == ball || Live(balls[0]))
      modifies this`balls
      ensures Valid()
      ensures ball !in balls
      ensures gameStarted && !isPaused ==> |balls| == 1
      ensures old(balls) == [ball] && gameStarted && !isPaused ==>
        fresh(balls[0]) && balls[0].State() == Spawned(draw)
      ensures old(balls) == [ball] && !(gameStarted && !isPaused) ==> balls == []
      ensures ball !in old(balls) && old(balls) != [] ==> balls == old(balls)
    {
      var index := IndexOf(balls, ball);
      if index > -1 {
        balls := balls[..index] + balls[index + 1..];
      }
      SpawnNewBall(draw);
    }

    /** The first tier, in table order, whose threshold the streak reaches,
        or the last tier when none does. */
    method GetCurrentStreakLevel() returns (level: StreakLevel)
      requires |streakLevels| > 0
      ensures level == LevelFor(streakLevels, streak)
    {
      var n := |streakLevels|;
      for i := 0 to n
        invariant i < n ==> LevelFor(streakLevels, streak) == LevelFor(streakLevels[i..], streak)
        invariant i == n ==> LevelFor(streakLevels, streak) == streakLevels[n - 1]
      {
        if streak >= streakLevels[i].threshold {
          return streakLevels[i];
        }
        assert streakLevels[i..][1..] == streakLevels[i + 1..];
      }
      return streakLevels[n - 1];
    }

    /** A hit worth `pointsToAdd` base points: the streak grows by one and the
        score by the base times the new streak's multiplier, rounded up;
        returns the points added. */
    method AddScore(pointsToAdd: real) returns (points: int)
      requires |streakLevels| > 0
      modifies this`streak, this`score
      ensures streak == old(streak) + 1
      ensures points == Ceil(pointsToAdd * MultiplierFor(streakLevels, streak) as real)
      ensures pointsToAdd == 1.0 ==> points == MultiplierFor(streakLevels, streak)
      ensures score == old(score) + points
    {
      streak := streak + 1;
      var currentLevel := GetCurrentStreakLevel();
      assert currentLevel.multiplier == MultiplierFor(streakLevels, streak);
      points := Ceil(pointsToAdd * currentLevel.multiplier as real);
      if pointsToAdd == 1.0 {
        assert pointsToAdd * currentLevel.multiplier as real == currentLevel.multiplier as real;
        CeilOfInteger(currentLevel.multiplier);
      }
      score := score + points;
    }

    /** A miss: the streak drops to 0 and nothing else changes. */
    method HandleFrequencyMiss()
      modifies this`streak
      ensures streak == 0
    {
      if streak > 0 {
        streak := 0;
      }
    }
  }
}
