/** Derived production units: the duration in minutes, the scene count and the shot count. */
module Derived {
  import opened Config

  /** JavaScript's `Math.ceil` on an exact real: the least integer not below `x`. */
  function Ceil(x: real): (n: int)
    ensures x <= n as real < x + 1.0
  {
    -((-x).Floor)
  }

  lemma CeilMonotone(x: real, y: real)
    requires x <= y
    ensures Ceil(x) <= Ceil(y)
  {}

  /** The duration in minutes, not rounded. */
  function Minutes(seconds: int): real {
    seconds as real / 60.0
  }

  /** Shots per minute of video for each complexity level. */
  function ShotsPerMinute(c: Complexity): int {
    match c
    case Camera => 4
    case Exploded => 5
    case Mechanical => 6
    case Physics => 7
  }

  /** One scene per started minute. */
  function Scenes(seconds: int): (scenes: int)
    ensures (scenes - 1) * 60 < seconds <= scenes * 60
  {
    Ceil(Minutes(seconds) * 1.0)
  }

  /** The minutes times the complexity's shot rate, rounded up. */
  function Shots(seconds: int, c: Complexity): int {
    Ceil(Minutes(seconds) * ShotsPerMinute(c) as real)
  }

  /** The shot count is the least whole number of shots that covers the video at the
      complexity's shot rate. */
  lemma ShotsCover(seconds: int, c: Complexity)
    ensures var shots := Shots(seconds, c);
            (shots - 1) * 60 < seconds * ShotsPerMinute(c) <= shots * 60
  {
    var k := ShotsPerMinute(c);
    var x := Minutes(seconds) * k as real;
    assert x == (seconds * k) as real / 60.0;
  }

  /** Over the slider's range there are one to ten scenes, never fewer shots than scenes, and
      at most k shots per scene for k shots per minute. */
  lemma ScenesAndShots(seconds: int, c: Complexity)
    requires ValidDuration(seconds)
    ensures 1 <= Scenes(seconds) <= 10
    ensures Scenes(seconds) <= Shots(seconds, c) <= ShotsPerMinute(c) * Scenes(seconds)
  {
    var scenes := Scenes(seconds);
    var shots := Shots(seconds, c);
    ShotsCover(seconds, c);
    match c
    case Camera => assert (shots - 1) * 60 < seconds * 4 <= shots * 60;
    case Exploded => assert (shots - 1) * 60 < seconds * 5 <= shots * 60;
    case Mechanical => assert (shots - 1) * 60 < seconds * 6 <= shots * 60;
    case Physics => assert (shots - 1) * 60 < seconds * 7 <= shots * 60;
  }

  /** Durations come in quarter minutes, so camera work has exactly one shot per 15 seconds. */
  lemma CameraShotsExact(seconds: int)
    requires ValidDuration(seconds)
    ensures Shots(seconds, Camera) == seconds / 15
  {
    var q := seconds / 15;
    assert seconds == 15 * q;
    assert Minutes(seconds) * 4.0 == q as real;
  }
}
