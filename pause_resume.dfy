/** Pausing and resuming a session.

    `Game.TogglePause` resumes by moving only the loop's anchor
    (`Game.lastTimestamp`), which no frame reads; the ball measures the time
    of its next frame from its own clock (`Ball.lastUpdateTime`), last moved
    by the frame before the pause. So the first frame after a resume decays
    the gauge over the whole pause. `Game.TogglePauseAnchored` moves the
    ball's clock as well, and the first frame then decays only over the time
    since the resume. */
module PauseResume {
  import opened Gauge
  import opened Arcade

  /** Resume, then one frame, as the game does it: the frame's decay covers
      everything since the ball's last frame, paused time included. */
  method ResumeThenFrame(g: Game, now: real, timestamp: real)
    requires g.Valid() && g.gameStarted && g.isPaused && g.balls != []
    modifies g`isPaused, g`lastTimestamp, g`streak, g.balls
    ensures g.Valid() && g.balls == old(g.balls) && !g.isPaused
    ensures g.balls[0].currentSpeed ==
      Decayed(old(g.balls[0].currentSpeed), (timestamp - old(g.balls[0].lastUpdateTime)) / 1000.0)
  {
    g.TogglePause(now);
    g.GameLoop(timestamp);
  }

  /** Resume, then one frame, with the anchored resume: the frame's decay
      covers only the time since the resume, however long the pause was. */
  method ResumeThenFrameAnchored(g: Game, now: real, timestamp: real)
    requires g.Valid() && g.gameStarted && g.isPaused && g.balls != []
    modifies g`isPaused, g`lastTimestamp, g`streak, g.balls
    ensures g.Valid() && g.balls == old(g.balls) && !g.isPaused
    ensures g.balls[0].currentSpeed ==
      Decayed(old(g.balls[0].currentSpeed), (timestamp - now) / 1000.0)
  {
    g.TogglePauseAnchored(now);
    g.GameLoop(timestamp);
  }

  /** A session with band [15, 40]: two hits bring the speed to 30 and the
      streak to 2, a frame at 250 ms leaves 17.5 (still in the band), and the
      game is paused at 300 ms. */
  method PausedInBand() returns (g: Game, b: Ball)
    ensures fresh(g) && fresh(b) && g.Valid()
    ensures g.gameStarted && g.isPaused && g.balls == [b] && g.streak == 2
    ensures b.currentSpeed == 17.5 && b.lastUpdateTime == 250.0 && b.isInSweetSpot
    ensures b.targetSpeedMin == 15.0 && b.targetSpeedMax == 40.0
  {
    g := new Game();
    g.StartGame(Draw(0.0, 0.2, 0.0), 0.0);
    b := g.balls[0];
    assert b.State() == Spawned(Draw(0.0, 0.2, 0.0));
    assert b.targetSpeedMin == 15.0 && b.targetSpeedMax == 40.0 && b.requiredTaps == 8;

    g.TapOnBall(Draw(0.0, 0.0, 100.0));
    assert b.currentSpeed == 15.0 && b.isInSweetSpot && b.taps == 1;
    assert g.balls == [b] && g.streak == 1;
    g.TapOnBall(Draw(0.0, 0.0, 200.0));
    assert b.currentSpeed == 30.0 && b.isInSweetSpot && b.taps == 2;
    assert g.balls == [b] && g.streak == 2;

    g.GameLoop(250.0);
    g.TogglePause(300.0);
  }

  /** That session resumed at 10 s with the written resume, next frame at
      10.016 s: the gauge is drained and the streak lost. */
  method LongPauseAsWritten() returns (speed: real, streak: nat)
    ensures speed == 0.0 && streak == 0
  {
    var g, b := PausedInBand();
    g.TogglePause(10000.0);
    g.GameLoop(10016.0);
    speed := b.currentSpeed;
    streak := g.streak;
  }

  /** The same session with the anchored resume: 16 ms of decay leave 16.7,
      still in the band, and the streak is kept. */
  method LongPauseAnchored() returns (speed: real, streak: nat)
    ensures speed == 16.7 && streak == 2
  {
    var g, b := PausedInBand();
    g.TogglePauseAnchored(10000.0);
    g.GameLoop(10016.0);
    speed := b.currentSpeed;
    streak := g.streak;
  }
}
