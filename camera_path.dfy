/** A camera flight: keyframes of camera position and look-at target, played
    by the same clock as an animation, sampled with the same lookup (without
    the loop wrap) and written into a camera. */
module CameraPaths {
  import opened Geometry
  import opened Interpolation
  import opened Timeline
  import opened Playback
  import Animation

  datatype CameraKeyframe = CameraKeyframe(time: real, position: Vec3, target: Vec3, up: Vec3)

  /** The default up vector, (0, 1, 0). */
  const WorldUp := Vec3(0.0, 1.0, 0.0)

  /** The target a camera looks at without keyframes, (0, 0, -1). */
  const DefaultTarget := Vec3(0.0, 0.0, -1.0)

  /** CameraKeyframe(): time 0 at the origin, looking down -z. */
  const DefaultCameraKeyframe := CameraKeyframe(0.0, Zero, DefaultTarget, WorldUp)

  /** CameraKeyframe(time, position, target): default up vector. */
  function LookKeyframe(time: real, position: Vec3, target: Vec3): CameraKeyframe {
    CameraKeyframe(time, position, target, WorldUp)
  }

  // CameraTimes, CameraPositions and CameraTargets project the fields of
  // CameraKeyframe as Keyframes.Times and Animation.Positions do for
  // Keyframe: the two keyframe records are distinct types in the source.
  function CameraTimes(ks: seq<CameraKeyframe>): (ts: seq<real>)
    ensures |ts| == |ks|
    ensures forall i :: 0 <= i < |ks| ==> ts[i] == ks[i].time
  {
    seq(|ks|, i requires 0 <= i < |ks| => ks[i].time)
  }

  function CameraPositions(ks: seq<CameraKeyframe>): (ps: seq<Vec3>)
    ensures |ps| == |ks|
    ensures forall i :: 0 <= i < |ks| ==> ps[i] == ks[i].position
  {
    seq(|ks|, i requires 0 <= i < |ks| => ks[i].position)
  }

  function CameraTargets(ks: seq<CameraKeyframe>): (ps: seq<Vec3>)
    ensures |ps| == |ks|
    ensures forall i :: 0 <= i < |ks| ==> ps[i] == ks[i].target
  {
    seq(|ks|, i requires 0 <= i < |ks| => ks[i].target)
  }

  lemma CameraTimesInsert(ks: seq<CameraKeyframe>, i: nat, k: CameraKeyframe)
    requires i <= |ks|
    ensures CameraTimes(ks[..i] + [k] + ks[i..]) == CameraTimes(ks)[..i] + [k.time] + CameraTimes(ks)[i..]
  {
    var lhs := CameraTimes(ks[..i] + [k] + ks[i..]);
    var rhs := CameraTimes(ks)[..i] + [k.time] + CameraTimes(ks)[i..];
    assert |lhs| == |rhs|;
    forall j | 0 <= j < |lhs|
      ensures lhs[j] == rhs[j]
    {
      if j < i {
        assert lhs[j] == ks[j].time;
      } else if j > i {
        assert lhs[j] == ks[j - 1].time;
      }
    }
  }

  /** The camera path's switch has no BEZIER case: BEZIER (like LINEAR)
      takes the default branch, a lerp with the raw fraction. */
  function PathCurveMode(mode: Animation.InterpolationMode): (m: Animation.InterpolationMode)
    ensures m != Animation.Bezier
    ensures mode == Animation.Bezier ==> m == Animation.Linear
    ensures mode != Animation.Bezier ==> m == mode
  {
    if mode == Animation.Bezier then Animation.Linear else mode
  }

  /** interpolatePosition / interpolateTarget: `empty` without keyframes,
      otherwise the curve through the given channel at the bracket of the
      lookup without wrap. */
  function Sample(ks: seq<CameraKeyframe>, channel: seq<Vec3>, empty: Vec3, mode: Animation.InterpolationMode, time: real): (p: Vec3)
    requires Sorted(CameraTimes(ks)) && |channel| == |ks|
    ensures |ks| == 0 ==> p == empty
    ensures |ks| > 0 ==> p == Animation.CurvePoint(channel, Locate(CameraTimes(ks), time), PathCurveMode(mode))
  {
    if |ks| == 0 then empty
    else
      // the fallback to the first keyframe for a negative index is dead
      // code: the lookup on a non-empty path yields indices in range
      Animation.CurvePoint(channel, Locate(CameraTimes(ks), time), PathCurveMode(mode))
  }

  function InterpolatePosition(ks: seq<CameraKeyframe>, mode: Animation.InterpolationMode, time: real): (p: Vec3)
    requires Sorted(CameraTimes(ks))
    ensures |ks| == 0 ==> p == Zero
    ensures |ks| > 0 ==>
      p == Animation.CurvePoint(CameraPositions(ks), Locate(CameraTimes(ks), time), PathCurveMode(mode))
  {
    Sample(ks, CameraPositions(ks), Zero, mode, time)
  }

  function InterpolateTarget(ks: seq<CameraKeyframe>, mode: Animation.InterpolationMode, time: real): (p: Vec3)
    requires Sorted(CameraTimes(ks))
    ensures |ks| == 0 ==> p == DefaultTarget
    ensures |ks| > 0 ==>
      p == Animation.CurvePoint(CameraTargets(ks), Locate(CameraTimes(ks), time), PathCurveMode(mode))
  {
    Sample(ks, CameraTargets(ks), DefaultTarget, mode, time)
  }

  /** The flight passes through every keyframe: at the time of a keyframe
      whose neighbours have other times the camera is at that keyframe's
      position and looks at its target, in every mode. */
  lemma {:induction false} SampleAtCameraKeyframe(ks: seq<CameraKeyframe>, mode: Animation.InterpolationMode, i: int)
    requires Sorted(CameraTimes(ks)) && 0 <= i < |ks|
    requires i == 0 || ks[i - 1].time < ks[i].time
    requires i == |ks| - 1 || ks[i].time < ks[i + 1].time
    ensures InterpolatePosition(ks, mode, ks[i].time) == ks[i].position
    ensures InterpolateTarget(ks, mode, ks[i].time) == ks[i].target
  {
    KeyframeTimeBracket(CameraTimes(ks), i);
  }

  /** The camera as the path sees it: where it is and what it looks at. */
  class Camera {
    var position: Vec3
    var target: Vec3

    /** Camera(): at (0, 5, 10), looking at the origin. */
    constructor()
      ensures position == Vec3(0.0, 5.0, 10.0) && target == Zero
    {
      position := Vec3(0.0, 5.0, 10.0);
      target := Zero;
    }

    method SetPosition(position: Vec3)
      modifies this
      ensures this.position == position && target == old(target)
    {
      this.position := position;
    }

    method LookAt(target: Vec3)
      modifies this
      ensures this.target == target && position == old(position)
    {
      this.target := target;
    }
  }

  class CameraPath {
    var keyframes: seq<CameraKeyframe>
    var currentTime: real
    var speed: real
    var playing: bool
    var paused: bool
    var loop: bool
    var mode: Animation.InterpolationMode

    ghost predicate Valid()
      reads this
    {
      Sorted(CameraTimes(keyframes))
    }

    function Clock(): Clock
      reads this
    {
      Playback.Clock(currentTime, playing, paused)
    }

    /** CameraPath(): no keyframes, time 0, speed 1, stopped, not looping,
        CATMULL_ROM. */
    constructor()
      ensures Valid() && keyframes == []
      ensures currentTime == 0.0 && speed == 1.0 && !playing && !paused && !loop
      ensures mode == Animation.CatmullRom
    {
      keyframes := [];
      currentTime := 0.0;
      speed := 1.0;
      playing := false;
      paused := false;
      loop := false;
      mode := Animation.CatmullRom;
    }

    /** Appends the keyframe and re-sorts by time (std::sort, not stable). */
    method AddKeyframe(k: CameraKeyframe)
      requires Valid()
      modifies this
      ensures Valid()
      ensures |keyframes| == |old(keyframes)| + 1
      ensures multiset(keyframes) == multiset(old(keyframes)) + multiset{k}
      ensures Clock() == old(Clock()) && speed == old(speed) && loop == old(loop) && mode == old(mode)
    {
      var ts := CameraTimes(keyframes);
      var i := UpperBound(ts, k.time);
      InsertKeepsSorted(ts, i, k.time);
      CameraTimesInsert(keyframes, i, k);
      assert keyframes == keyframes[..i] + keyframes[i..];
      keyframes := keyframes[..i] + [k] + keyframes[i..];
    }

    /** addKeyframe(time, position, target). */
    method AddLookKeyframe(time: real, position: Vec3, target: Vec3)
      requires Valid()
      modifies this
      ensures Valid()
      ensures multiset(keyframes) == multiset(old(keyframes)) + multiset{LookKeyframe(time, position, target)}
      ensures Clock() == old(Clock()) && speed == old(speed) && loop == old(loop) && mode == old(mode)
    {
      AddKeyframe(LookKeyframe(time, position, target));
    }

    /** 0 without keyframes, otherwise the last keyframe's time. */
    function GetDuration(): (d: real)
      reads this
      ensures |keyframes| == 0 ==> d == 0.0
      ensures |keyframes| > 0 ==> d == keyframes[|keyframes| - 1].time
      ensures Valid() ==> forall k :: k in keyframes ==> k.time <= d
    {
      Duration(CameraTimes(keyframes))
    }

    /** The path's own lookup: empty, clamps and scan, never wrapped. */
    method GetKeyframesAtTime(time: real) returns (idx0: int, idx1: int, t: real)
      requires Valid()
      ensures Bracket(idx0, idx1, t) == Locate(CameraTimes(keyframes), time)
    {
      idx0, idx1, t := FindBracket(CameraTimes(keyframes), time);
    }

    /** One frame: advance, then wrap or stop using the path's own loop flag. */
    method Update(deltaTime: real)
      requires WrapDefined(Clock(), deltaTime, speed, GetDuration(), loop, |keyframes| > 0)
      modifies this
      ensures keyframes == old(keyframes) && speed == old(speed) && loop == old(loop) && mode == old(mode)
      ensures Clock() == Advance(old(Clock()), deltaTime, speed, GetDuration(), loop, |keyframes| > 0)
    {
      if !playing || paused || |keyframes| == 0 {
        return;
      }
      currentTime := currentTime + deltaTime * speed;
      if loop && currentTime > GetDuration() {
        currentTime := FMod(currentTime, GetDuration());
      }
      if !loop && currentTime >= GetDuration() {
        currentTime := GetDuration();
        Stop();
      }
    }

    /** Moves the camera to the sampled position and points it at the
        sampled target; without keyframes the camera is left alone. */
    method ApplyToCamera(camera: Camera)
      requires Valid()
      modifies camera
      ensures |keyframes| == 0 ==> unchanged(camera)
      ensures |keyframes| > 0 ==>
        && camera.position == InterpolatePosition(keyframes, mode, currentTime)
        && camera.target == InterpolateTarget(keyframes, mode, currentTime)
    {
      if |keyframes| == 0 {
        return;
      }
      var position := InterpolatePosition(keyframes, mode, currentTime);
      var target := InterpolateTarget(keyframes, mode, currentTime);
      camera.SetPosition(position);
      camera.LookAt(target);
    }

    method Play()
      modifies this
      ensures playing && !paused && IsPlaying()
      ensures currentTime == old(currentTime) && keyframes == old(keyframes)
      ensures speed == old(speed) && loop == old(loop) && mode == old(mode)
    {
      playing := true;
      paused := false;
    }

    method Pause()
      modifies this
      ensures paused && !IsPlaying()
      ensures playing == old(playing) && currentTime == old(currentTime) && keyframes == old(keyframes)
      ensures speed == old(speed) && loop == old(loop) && mode == old(mode)
    {
      paused := true;
    }

    method Stop()
      modifies this
      ensures Clock() == Stopped
      ensures keyframes == old(keyframes) && speed == old(speed) && loop == old(loop) && mode == old(mode)
    {
      playing := false;
      paused := false;
      currentTime := 0.0;
    }

    method Reset()
      modifies this
      ensures currentTime == 0.0 && !paused && playing == old(playing)
      ensures keyframes == old(keyframes) && speed == old(speed) && loop == old(loop) && mode == old(mode)
    {
      currentTime := 0.0;
      paused := false;
    }

    function IsPlaying(): bool
      reads this
    {
      Running(Clock())
    }

    method SetTime(time: real)
      modifies this
      ensures currentTime == time && playing == old(playing) && paused == old(paused)
      ensures keyframes == old(keyframes) && speed == old(speed) && loop == old(loop) && mode == old(mode)
    {
      currentTime := time;
    }

    method SetSpeed(speed: real)
      modifies this
      ensures this.speed == speed
      ensures Clock() == old(Clock()) && keyframes == old(keyframes) && loop == old(loop) && mode == old(mode)
    {
      this.speed := speed;
    }

    method SetLoop(loop: bool)
      modifies this
      ensures this.loop == loop
      ensures Clock() == old(Clock()) && keyframes == old(keyframes) && speed == old(speed) && mode == old(mode)
    {
      this.loop := loop;
    }

    method SetInterpolationMode(mode: Animation.InterpolationMode)
      modifies this
      ensures this.mode == mode
      ensures Clock() == old(Clock()) && keyframes == old(keyframes) && speed == old(speed) && loop == old(loop)
    {
      this.mode := mode;
    }
  }
}
