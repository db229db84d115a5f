/**
 * The time-scale mod (RedHotRedemption2.cs): once per tick, while the
 * player is alive, the game runs at normal speed for 0.75 seconds after the
 * player last shot (or after the mod started), and otherwise as fast as the
 * player moves, clamped to [0.25, 1]. When the player dies the mod restores
 * normal speed and stops listening to ticks. Times are in seconds; the two
 * clock reads of one tick are separate parameters.
 */
module RedHot {
  import MathUtility

  const PlayerMovementSpeedToTriggerNormalTimeScale: real := 1.0
  const NormalTimeScaleDurationInSecondsWhenShooting: real := 0.75
  const MinimumTimeScale: real := 0.25

  /** `Math.Max(min, Math.Min(max, value))` */
  function Clamp(value: real, min: real, max: real): (r: real)
    ensures r >= min
    ensures min <= max ==> r <= max
  {
    var lower := if max < value then max else value;
    if min > lower then min else lower
  }

  /** With ordered bounds this clamp agrees with the editors' MathUtility clamp. */
  lemma ClampAgreesWithMathUtility(value: real, min: real, max: real)
    requires min <= max
    ensures Clamp(value, min, max) == MathUtility.ClampReal(value, min, max)
  {
  }

  /** With bounds the wrong way round, the lower bound always wins. */
  lemma ClampInvertedBounds(value: real, min: real, max: real)
    requires min > max
    ensures Clamp(value, min, max) == min
  {
  }

  /** The time scale a living player gets, `secondsSinceShot` after the last shot, moving at `speed`. */
  function TimeScale(secondsSinceShot: real, speed: real): (timeScale: real)
    ensures MinimumTimeScale <= timeScale <= 1.0
    ensures secondsSinceShot <= NormalTimeScaleDurationInSecondsWhenShooting ==> timeScale == 1.0
  {
    if secondsSinceShot <= NormalTimeScaleDurationInSecondsWhenShooting then 1.0
    else Clamp(speed / PlayerMovementSpeedToTriggerNormalTimeScale, MinimumTimeScale, 1.0)
  }

  /**
   * Away from a shot, the time scale is the speed itself while it lies in
   * [0.25, 1], 1 at any speed of 1 or more, and 0.25 at any speed of 0.25
   * or less (standing still included).
   */
  lemma TimeScaleFollowsSpeed(secondsSinceShot: real, speed: real)
    requires secondsSinceShot > NormalTimeScaleDurationInSecondsWhenShooting
    ensures MinimumTimeScale <= speed <= 1.0 ==> TimeScale(secondsSinceShot, speed) == speed
    ensures speed >= 1.0 ==> TimeScale(secondsSinceShot, speed) == 1.0
    ensures speed <= MinimumTimeScale ==> TimeScale(secondsSinceShot, speed) == MinimumTimeScale
  {
  }

  /** What the host reports about the player during one tick. */
  datatype Player = Player(isAlive: bool, isShooting: bool, speed: real)

  class RedHotRedemption2 {
    /** When the player last shot, or when the mod started. */
    var shootTimestamp: real
    /** Whether OnTick is still subscribed to the host's tick event. */
    var isSubscribed: bool
    /** The time scales set on the host, in order. */
    ghost var timeScaleCalls: seq<real>

    /** Started at `now`, listening to ticks. */
    constructor (now: real)
      ensures shootTimestamp == now && isSubscribed && timeScaleCalls == []
    {
      shootTimestamp := now;
      isSubscribed := true;
      timeScaleCalls := [];
    }

    /**
     * One tick, with the clock read at the shot (`nowAtShot`, used only when
     * the player shoots) and at the test (`nowAtCheck`). A shot moves the
     * stamp to its clock read; a living player gets TimeScale of the time
     * since the stamp; a dead player gets normal speed, and the mod
     * unsubscribes. The host runs this only while subscribed.
     */
    method OnTick(player: Player, nowAtShot: real, nowAtCheck: real) returns (timeScale: real)
      requires isSubscribed
      modifies this
      ensures player.isAlive ==>
        shootTimestamp == (if player.isShooting then nowAtShot else old(shootTimestamp)) &&
        timeScale == TimeScale(nowAtCheck - shootTimestamp, player.speed) && isSubscribed
      ensures !player.isAlive ==> shootTimestamp == old(shootTimestamp) && timeScale == 1.0 && !isSubscribed
      ensures MinimumTimeScale <= timeScale <= 1.0
      ensures timeScaleCalls == old(timeScaleCalls) + [timeScale]
    {
      if player.isAlive {
        var isPlayerShooting := player.isShooting;
        if isPlayerShooting {
          shootTimestamp := nowAtShot;
        }
        timeScale := if nowAtCheck - shootTimestamp <= NormalTimeScaleDurationInSecondsWhenShooting then 1.0
                     else Clamp(player.speed / PlayerMovementSpeedToTriggerNormalTimeScale, MinimumTimeScale, 1.0);
      } else {
        isSubscribed := false;
        timeScale := 1.0;
      }
      timeScaleCalls := timeScaleCalls + [timeScale];
    }
  }

  /**
   * A tick in which the living player shoots runs at normal speed, provided
   * its two clock reads are no more than 0.75 seconds apart.
   */
  lemma ShootingRestoresNormalSpeed(speed: real, nowAtShot: real, nowAtCheck: real)
    requires nowAtCheck - nowAtShot <= NormalTimeScaleDurationInSecondsWhenShooting
    ensures TimeScale(nowAtCheck - nowAtShot, speed) == 1.0
  {
  }
}
