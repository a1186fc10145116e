/** The playback clock shared by the animation controller and the camera
    path: a current time, a playing flag and a paused flag, advanced by
    `update(deltaTime)` at the configured speed, wrapped at the end of a
    looping timeline and rewound to a stop at the end of a non-looping one. */
module Playback {
  import opened Timeline

  datatype Clock = Clock(time: real, playing: bool, paused: bool)

  /** isPlaying(): playing and not paused. */
  predicate Running(c: Clock) {
    c.playing && !c.paused
  }

  /** The state stop() leaves: not playing, not paused, time 0. */
  const Stopped := Clock(0.0, false, false)

  /** The time after one update step, before the end-of-timeline handling. */
  function Advanced(c: Clock, deltaTime: real, speed: real): real {
    c.time + deltaTime * speed
  }

  /** An update step that would wrap a looping timeline divides by its
      duration, so the duration must then be non-zero (fmod by 0 is NaN). */
  predicate WrapDefined(c: Clock, deltaTime: real, speed: real, duration: real, loop: bool, nonEmpty: bool) {
    Running(c) && nonEmpty && loop && Advanced(c, deltaTime, speed) > duration ==> duration != 0.0
  }

  /** One update step of either controller. Nothing happens unless the
      clock runs and there are keyframes. Otherwise the time advances by
      deltaTime * speed; a looping timeline wraps a time beyond its duration
      with fmod, and a non-looping one that reaches its duration stops and
      rewinds to 0. */
  function Advance(c: Clock, deltaTime: real, speed: real, duration: real, loop: bool, nonEmpty: bool): (r: Clock)
    requires WrapDefined(c, deltaTime, speed, duration, loop, nonEmpty)
    ensures !(Running(c) && nonEmpty) ==> r == c
    ensures Running(c) && nonEmpty && loop ==> r.playing == c.playing && r.paused == c.paused
    ensures Running(c) && nonEmpty && loop && Advanced(c, deltaTime, speed) > duration ==>
      r.time == FMod(Advanced(c, deltaTime, speed), duration)
    ensures Running(c) && nonEmpty && loop && duration > 0.0 && Advanced(c, deltaTime, speed) > duration ==>
      0.0 <= r.time < duration &&
      Advanced(c, deltaTime, speed) - r.time == (Advanced(c, deltaTime, speed) / duration).Floor as real * duration
    ensures Running(c) && nonEmpty && !loop && Advanced(c, deltaTime, speed) >= duration ==> r == Stopped
    ensures Running(c) && nonEmpty && (Advanced(c, deltaTime, speed) < duration || (loop && Advanced(c, deltaTime, speed) == duration)) ==>
      r == c.(time := Advanced(c, deltaTime, speed))
  {
    if !Running(c) || !nonEmpty then c
    else
      var time := Advanced(c, deltaTime, speed);
      var time' := if loop && time > duration then FMod(time, duration) else time;
      if !loop && time' >= duration then Stopped
      else c.(time := time')
  }

  /** Stopping is permanent until play(): a stopped clock is left as it is
      by every update. */
  lemma StoppedStaysStopped(deltaTime: real, speed: real, duration: real, loop: bool, nonEmpty: bool)
    ensures WrapDefined(Stopped, deltaTime, speed, duration, loop, nonEmpty)
    ensures Advance(Stopped, deltaTime, speed, duration, loop, nonEmpty) == Stopped
  {
  }

  /** Moving forward through a non-looping timeline keeps the time in
      [0, duration): either the step stays short of the end or the clock
      stops at 0. */
  lemma {:induction false} ForwardStaysInRange(c: Clock, deltaTime: real, speed: real, duration: real, nonEmpty: bool)
    requires 0.0 <= c.time < duration
    requires deltaTime * speed >= 0.0
    ensures WrapDefined(c, deltaTime, speed, duration, false, nonEmpty)
    ensures var r := Advance(c, deltaTime, speed, duration, false, nonEmpty);
      0.0 <= r.time < duration
  {
  }

  /** Moving forward through a looping timeline of positive duration keeps
      the time in [0, duration] and never stops the clock. */
  lemma {:induction false} LoopStaysInRange(c: Clock, deltaTime: real, speed: real, duration: real, nonEmpty: bool)
    requires duration > 0.0 && 0.0 <= c.time <= duration
    requires deltaTime * speed >= 0.0
    ensures WrapDefined(c, deltaTime, speed, duration, true, nonEmpty)
    ensures var r := Advance(c, deltaTime, speed, duration, true, nonEmpty);
      0.0 <= r.time <= duration && r.playing == c.playing && r.paused == c.paused
  {
    var time := Advanced(c, deltaTime, speed);
    if Running(c) && nonEmpty && time > duration {
      assert 0.0 <= FMod(time, duration) < duration;
    }
  }
}
