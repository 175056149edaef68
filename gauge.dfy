/** The speed gauge of one target (the `Ball` of game.js), as values.

    A gauge holds a speed in [0, 100] that decays over time and is boosted by
    every click, and a "sweet spot" band of fixed width. A click whose boosted
    speed lands inside the band is a hit; hits are counted against a required
    number. The class `Arcade.Ball` keeps these fields and its methods are
    proved to act on them as `Spawned`, `Clicked` and `Ticked` say.

    Speeds, times and the growth scale are exact `real`s here. */
module Gauge {

  const MaxSpeed: real := 100.0
  const AccelerationPerClick: real := 15.0
  /** Speed lost per second of decay: the full range drains in two seconds. */
  const DecelerationRate: real := 50.0
  const SweetSpotWidth: real := 25.0
  /** Growth of the target's visual scale per hit. */
  const ScaleStep: real := 0.03
  const MinRequiredTaps: int := 8
  const MaxRequiredTaps: int := 17

  /** The random draws and the clock reading a spawn consumes: two results
      of a uniform generator in [0, 1) and the current time in milliseconds. */
  datatype Draw = Draw(tapsRoll: real, bandRoll: real, now: real) {
    predicate Valid() {
      0.0 <= tapsRoll < 1.0 && 0.0 <= bandRoll < 1.0
    }
  }

  /** The gameplay fields of one target. */
  datatype GaugeState = GaugeState(
    taps: nat,
    requiredTaps: int,
    currentSpeed: real,
    targetSpeedMin: real,
    targetSpeedMax: real,
    isInSweetSpot: bool,
    lastUpdateTime: real,
    currentScale: real)

  /** Band membership, inclusive at both ends: only a non-empty band can
      hold a speed, and both of its ends belong to it. */
  predicate InSweetSpot(speed: real, lo: real, hi: real)
    ensures InSweetSpot(speed, lo, hi) ==> lo <= hi
    ensures lo <= hi && (speed == lo || speed == hi) ==> InSweetSpot(speed, lo, hi)
  {
    lo <= speed && speed <= hi
  }

  function Min(a: real, b: real): (m: real)
    ensures m <= a && m <= b && (m == a || m == b)
  {
    if a <= b then a else b
  }

  function Max(a: real, b: real): (m: real)
    ensures a <= m && b <= m && (m == a || m == b)
  {
    if a >= b then a else b
  }

  /** What every live target satisfies: a band of the fixed width inside the
      gauge, a required count in the spawn range, a non-negative speed, the
      growth scale in step with the hits, and a raised flag only when the
      speed is in the band. */
  predicate WellFormed(g: GaugeState) {
    && g.targetSpeedMax == g.targetSpeedMin + SweetSpotWidth
    && 0.0 <= g.targetSpeedMin < MaxSpeed - SweetSpotWidth
    && MinRequiredTaps <= g.requiredTaps <= MaxRequiredTaps
    && 0.0 <= g.currentSpeed
    && g.currentScale == 1.0 + ScaleStep * g.taps as real
    && (g.isInSweetSpot ==> InSweetSpot(g.currentSpeed, g.targetSpeedMin, g.targetSpeedMax))
  }

  /** `floor(roll * 10 + 8)`: every count from 8 to 17. */
  function RequiredTapsFor(roll: real): (n: int)
    requires 0.0 <= roll < 1.0
    ensures MinRequiredTaps <= n <= MaxRequiredTaps
  {
    (roll * 10.0 + 8.0).Floor
  }

  /** Each count in the spawn range is drawn by some roll. */
  lemma RequiredTapsReachable(n: int)
    requires MinRequiredTaps <= n <= MaxRequiredTaps
    ensures RequiredTapsFor((n - 8) as real / 10.0) == n
  {
  }

  /** `roll * 75`: a band start in [0, 75), so the band fits below 100. */
  function BandStartFor(roll: real): (lo: real)
    requires 0.0 <= roll < 1.0
    ensures 0.0 <= lo < MaxSpeed - SweetSpotWidth
    ensures lo + SweetSpotWidth < MaxSpeed
  {
    roll * (MaxSpeed - SweetSpotWidth)
  }

  /** The state `spawn` resets a target to. */
  function Spawned(draw: Draw): (g: GaugeState)
    requires draw.Valid()
    ensures WellFormed(g)
    ensures g.targetSpeedMax - g.targetSpeedMin == SweetSpotWidth
    ensures 0.0 <= g.targetSpeedMin < MaxSpeed - SweetSpotWidth
    ensures MinRequiredTaps <= g.requiredTaps <= MaxRequiredTaps
    ensures g.taps == 0 && g.taps < g.requiredTaps
    ensures g.currentSpeed == 0.0 && g.currentScale == 1.0 && !g.isInSweetSpot
    ensures g.lastUpdateTime == draw.now
    ensures g.requiredTaps == RequiredTapsFor(draw.tapsRoll)
    ensures g.targetSpeedMin == BandStartFor(draw.bandRoll)
  {
    var lo := BandStartFor(draw.bandRoll);
    GaugeState(
      taps := 0,
      requiredTaps := RequiredTapsFor(draw.tapsRoll),
      currentSpeed := 0.0,
      targetSpeedMin := lo,
      targetSpeedMax := lo + SweetSpotWidth,
      isInSweetSpot := false,
      lastUpdateTime := draw.now,
      currentScale := 1.0)
  }

  /** The speed after one click's boost: never above the maximum, and the
      full boost unless the maximum cuts it. */
  function Boosted(speed: real): (r: real)
    ensures r <= MaxSpeed
    ensures 0.0 <= speed <= MaxSpeed ==> speed <= r
    ensures 0.0 <= speed ==> 0.0 <= r
    ensures r <= speed + AccelerationPerClick
    ensures r < MaxSpeed ==> r == speed + AccelerationPerClick
    ensures speed == MaxSpeed ==> r == MaxSpeed
  {
    Min(MaxSpeed, speed + AccelerationPerClick)
  }

  /** The speed after `dt` seconds of decay: a stopped gauge stays put, a
      moving one loses `50 * dt` but never goes below 0. */
  function Decayed(speed: real, dt: real): (r: real)
    ensures speed <= 0.0 ==> r == speed
    ensures 0.0 < speed ==> 0.0 <= r
    ensures 0.0 <= dt ==> r <= speed
    ensures 0.0 < speed && 0.0 < r ==> r == speed - DecelerationRate * dt
    ensures 0.0 < speed && 0.0 <= dt ==> (r == 0.0 <==> speed <= DecelerationRate * dt)
  {
    if speed > 0.0 then Max(0.0, speed - DecelerationRate * dt) else speed
  }

  /** One click on an unpaused target: boost, then judge the boosted speed
      against the band, both ends included; a hit counts one tap and grows
      the target by one step, a miss counts nothing. The band, the required
      count and the frame clock stay as they were. */
  function Clicked(g: GaugeState): (h: GaugeState)
    ensures h.currentSpeed == Boosted(g.currentSpeed)
    ensures h.isInSweetSpot <==> g.targetSpeedMin <= h.currentSpeed <= g.targetSpeedMax
    ensures h.taps == (if h.isInSweetSpot then g.taps + 1 else g.taps)
    ensures h.currentScale == (if h.isInSweetSpot then g.currentScale + ScaleStep else g.currentScale)
    ensures h.targetSpeedMin == g.targetSpeedMin && h.targetSpeedMax == g.targetSpeedMax
    ensures h.requiredTaps == g.requiredTaps && h.lastUpdateTime == g.lastUpdateTime
  {
    var speed := Boosted(g.currentSpeed);
    if InSweetSpot(speed, g.targetSpeedMin, g.targetSpeedMax) then
      g.(currentSpeed := speed, taps := g.taps + 1,
         currentScale := g.currentScale + ScaleStep, isInSweetSpot := true)
    else
      g.(currentSpeed := speed, isInSweetSpot := false)
  }

  /** One unpaused frame at `timestamp` (milliseconds): decay over the
      seconds since the last frame, then re-judge the band; the frame clock
      moves to `timestamp`, and taps, band, required count and scale stay. */
  function Ticked(g: GaugeState, timestamp: real): (h: GaugeState)
    ensures h.currentSpeed == Decayed(g.currentSpeed, (timestamp - g.lastUpdateTime) / 1000.0)
    ensures h.isInSweetSpot <==> g.targetSpeedMin <= h.currentSpeed <= g.targetSpeedMax
    ensures h.lastUpdateTime == timestamp
    ensures h.taps == g.taps && h.requiredTaps == g.requiredTaps && h.currentScale == g.currentScale
    ensures h.targetSpeedMin == g.targetSpeedMin && h.targetSpeedMax == g.targetSpeedMax
  {
    var dt := (timestamp - g.lastUpdateTime) / 1000.0;
    var speed := Decayed(g.currentSpeed, dt);
    g.(currentSpeed := speed,
       isInSweetSpot := InSweetSpot(speed, g.targetSpeedMin, g.targetSpeedMax),
       lastUpdateTime := timestamp)
  }

  /** A frame in which decay carried the speed out of the band. */
  predicate DecayedOut(before: GaugeState, after: GaugeState) {
    before.isInSweetSpot && !after.isInSweetSpot
  }

  /** A click keeps the target well formed and leaves the speed in
      [0, 100]. */
  lemma ClickSpec(g: GaugeState)
    requires WellFormed(g)
    ensures WellFormed(Clicked(g))
    ensures 0.0 <= Clicked(g).currentSpeed <= MaxSpeed
  {
  }

  /** Since a hit adds exactly one tap, a target that had not yet reached its
      required count reaches it exactly, never overshooting it. */
  lemma CompletionIsExact(g: GaugeState)
    requires g.taps < g.requiredTaps
    ensures Clicked(g).taps >= g.requiredTaps <==> Clicked(g).taps == g.requiredTaps
    ensures Clicked(g).taps >= g.requiredTaps ==> Clicked(g).isInSweetSpot
  {
  }

  /** A frame keeps the target well formed, never raises the speed when
      time moves forward, and so keeps it within [0, 100]. */
  lemma TickSpec(g: GaugeState, timestamp: real)
    requires WellFormed(g)
    ensures WellFormed(Ticked(g, timestamp))
    ensures g.lastUpdateTime <= timestamp ==> Ticked(g, timestamp).currentSpeed <= g.currentSpeed
    ensures g.lastUpdateTime <= timestamp && g.currentSpeed <= MaxSpeed ==>
      Ticked(g, timestamp).currentSpeed <= MaxSpeed
  {
  }

  /** Decay can only carry a speed out of the band through its lower end:
      a forward frame that leaves the band leaves the speed below it. */
  lemma DecayExitsBelow(g: GaugeState, timestamp: real)
    requires WellFormed(g) && g.lastUpdateTime <= timestamp
    ensures DecayedOut(g, Ticked(g, timestamp)) ==>
      Ticked(g, timestamp).currentSpeed < g.targetSpeedMin
  {
  }

  /** Decay does not depend on how the elapsed time is cut into frames: two
      frames of `d1` and `d2` seconds leave the same speed as one of `d1 + d2`. */
  lemma DecayComposes(speed: real, d1: real, d2: real)
    requires 0.0 <= d1 && 0.0 <= d2
    ensures Decayed(Decayed(speed, d1), d2) == Decayed(speed, d1 + d2)
  {
  }

  /** Two seconds of decay empty any gauge. */
  lemma DrainsInTwoSeconds(speed: real, dt: real)
    requires 0.0 <= speed <= MaxSpeed && 2.0 <= dt
    ensures Decayed(speed, dt) == 0.0
  {
  }
}
