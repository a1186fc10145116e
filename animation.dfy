/** Sampling a keyframe track (per-channel choice of blend parameter and
    curve) and the AnimationController that plays a track and writes the
    sampled pose into a Transform. */
module Animation {
  import opened Geometry
  import opened Interpolation
  import opened Timeline
  import opened Keyframes
  import opened Playback
  import opened Transforms

  datatype InterpolationMode = Linear | Smooth | CatmullRom | Bezier

  function Positions(ks: seq<Keyframe>): (ps: seq<Vec3>)
    ensures |ps| == |ks|
    ensures forall i :: 0 <= i < |ks| ==> ps[i] == ks[i].position
  {
    seq(|ks|, i requires 0 <= i < |ks| => ks[i].position)
  }

  /** A bracket that names two keyframes of a sequence of length n. */
  predicate InRange(b: Bracket, n: int) {
    0 <= b.idx0 <= b.idx1 <= b.idx0 + 1 && b.idx1 < n && 0.0 <= b.t <= 1.0
  }

  /** std::max(0, i - 1) and std::min(n - 1, i + 1): the outer neighbours a
      Catmull-Rom segment needs, clamped to the sequence. */
  function PrevIndex(i: int): (r: int)
    ensures i >= 0 ==> 0 <= r <= i
  {
    if i - 1 > 0 then i - 1 else 0
  }

  function NextIndex(i: int, n: int): (r: int)
    ensures 0 <= i < n ==> i <= r < n
  {
    if i + 1 < n - 1 then i + 1 else n - 1
  }

  /** A point on the curve through `ps` for the given bracket, as the
      position channel computes it: LINEAR lerps with the raw fraction,
      SMOOTH lerps with smootherstep, CATMULL_ROM uses the four neighbouring
      points (smootherstep-lerp below four points) and BEZIER a cubic whose
      control points sit at 0.33 and 0.66 of the chord. Whatever the mode,
      the curve starts at the first keyframe of the bracket and ends at the
      second. */
  function CurvePoint(ps: seq<Vec3>, b: Bracket, mode: InterpolationMode): (p: Vec3)
    requires InRange(b, |ps|)
    ensures b.t == 0.0 ==> p == ps[b.idx0]
    ensures b.t == 1.0 ==> p == ps[b.idx1]
  {
    var p0 := ps[b.idx0];
    var p1 := ps[b.idx1];
    match mode
    case Linear => LerpVec(p0, p1, b.t)
    case Smooth => LerpVec(p0, p1, Smootherstep(b.t))
    case CatmullRom =>
      if |ps| < 4 then LerpVec(p0, p1, Smootherstep(b.t))
      else Interpolation.CatmullRom(ps[PrevIndex(b.idx0)], p0, p1, ps[NextIndex(b.idx1, |ps|)], b.t)
    case Bezier =>
      var c1 := Add(p0, Scale(0.33, Sub(p1, p0)));
      var c2 := Add(p0, Scale(0.66, Sub(p1, p0)));
      CubicBezier(p0, c1, c2, p1, b.t)
  }

  /** The Bezier mode puts its control points at 0.33 and 0.66 of the
      segment rather than at its thirds, so it does not move along the
      segment at constant speed: halfway between (0,0,0) and (1,0,0) it is
      at x = 0.49625 where the linear mode is at 0.5. */
  lemma BezierIsNotLinear()
    ensures CurvePoint([Zero, Vec3(1.0, 0.0, 0.0)], Bracket(0, 1, 0.5), Bezier) == Vec3(0.49625, 0.0, 0.0)
    ensures CurvePoint([Zero, Vec3(1.0, 0.0, 0.0)], Bracket(0, 1, 0.5), Linear) == Vec3(0.5, 0.0, 0.0)
  {
  }

  /** LINEAR is the straight lerp with the bracket's raw fraction. */
  lemma LinearIsLerp(ps: seq<Vec3>, b: Bracket)
    requires InRange(b, |ps|)
    ensures CurvePoint(ps, b, Linear) == LerpVec(ps[b.idx0], ps[b.idx1], b.t)
  {
  }

  /** SMOOTH is the lerp with smootherstep of the fraction. */
  lemma SmoothIsSmootherstepLerp(ps: seq<Vec3>, b: Bracket)
    requires InRange(b, |ps|)
    ensures CurvePoint(ps, b, Smooth) == LerpVec(ps[b.idx0], ps[b.idx1], Smootherstep(b.t))
  {
  }

  /** CATMULL_ROM needs four keyframes; below that it falls back to the
      SMOOTH curve, and from four on it is the Catmull-Rom segment through
      the clamped neighbours. */
  lemma CatmullRomFallback(ps: seq<Vec3>, b: Bracket)
    requires InRange(b, |ps|)
    ensures |ps| < 4 ==> CurvePoint(ps, b, CatmullRom) == CurvePoint(ps, b, Smooth)
    ensures |ps| >= 4 ==>
      CurvePoint(ps, b, CatmullRom) ==
      Interpolation.CatmullRom(ps[PrevIndex(b.idx0)], ps[b.idx0], ps[b.idx1], ps[NextIndex(b.idx1, |ps|)], b.t)
  {
  }

  /** The fraction a channel blends with: smootherstep of the bracket's
      fraction when `smooth`, the raw fraction otherwise. Either way it
      stays in [0, 1] and keeps the endpoints 0 and 1. */
  function BlendParameter(smooth: bool, t: real): (s: real)
    ensures 0.0 <= t <= 1.0 ==> 0.0 <= s <= 1.0
    ensures t == 0.0 ==> s == 0.0
    ensures t == 1.0 ==> s == 1.0
    ensures smooth ==> s == Smootherstep(t)
    ensures !smooth ==> s == t
  {
    SmootherstepRange(t);
    if smooth then Smootherstep(t) else t
  }

  /** interpolatePosition: the origin without keyframes, otherwise the
      position curve at the looked-up bracket. */
  function InterpolatePosition(ks: seq<Keyframe>, loop: bool, mode: InterpolationMode, time: real): (p: Vec3)
    requires Sorted(Times(ks))
    ensures |ks| == 0 ==> p == Zero
    ensures |ks| > 0 ==> p == CurvePoint(Positions(ks), TrackLookup(Times(ks), loop, time), mode)
  {
    if |ks| == 0 then Zero
    else
      var b := TrackLookup(Times(ks), loop, time);
      if b.idx0 < 0 || b.idx1 < 0 then Zero
      else CurvePoint(Positions(ks), b, mode)
  }

  /** interpolateRotation: the identity without keyframes, otherwise a slerp
      between the bracket's two rotations whose fraction is smoothed exactly
      in the SMOOTH and CATMULL_ROM modes. */
  function InterpolateRotation(ks: seq<Keyframe>, loop: bool, mode: InterpolationMode, time: real): (r: Quat)
    requires Sorted(Times(ks))
    ensures |ks| == 0 ==> r == Identity
    ensures |ks| > 0 ==> var b := TrackLookup(Times(ks), loop, time);
      && r.Slerp? && r.from == ks[b.idx0].rotation && r.to == ks[b.idx1].rotation
      && 0.0 <= r.t <= 1.0
      && (b.t == 0.0 ==> r.t == 0.0) && (b.t == 1.0 ==> r.t == 1.0)
      && ((mode == Smooth || mode == CatmullRom) ==> r.t == Smootherstep(b.t))
      && ((mode == Linear || mode == Bezier) ==> r.t == b.t)
  {
    if |ks| == 0 then Identity
    else
      var b := TrackLookup(Times(ks), loop, time);
      if b.idx0 < 0 || b.idx1 < 0 then Identity
      else
        var s := BlendParameter(mode == Smooth || mode == CatmullRom, b.t);
        Slerp(ks[b.idx0].rotation, ks[b.idx1].rotation, s)
  }

  /** interpolateScale: unit scale without keyframes, otherwise a lerp
      between the bracket's two scales whose fraction is smoothed only in
      the SMOOTH mode; the result lies between the two scales. */
  function InterpolateScale(ks: seq<Keyframe>, loop: bool, mode: InterpolationMode, time: real): (s: Vec3)
    requires Sorted(Times(ks))
    ensures |ks| == 0 ==> s == Splat(1.0)
    ensures |ks| > 0 ==> var b := TrackLookup(Times(ks), loop, time);
      && (b.t == 0.0 ==> s == ks[b.idx0].scale)
      && (b.t == 1.0 ==> s == ks[b.idx1].scale)
      && (b.idx0 == b.idx1 ==> s == ks[b.idx0].scale)
      && s == LerpVec(ks[b.idx0].scale, ks[b.idx1].scale, if mode == Smooth then Smootherstep(b.t) else b.t)
  {
    if |ks| == 0 then Splat(1.0)
    else
      var b := TrackLookup(Times(ks), loop, time);
      if b.idx0 < 0 || b.idx1 < 0 then Splat(1.0)
      else
        var u := BlendParameter(mode == Smooth, b.t);
        LerpVec(ks[b.idx0].scale, ks[b.idx1].scale, u)
  }

  /** The channels smooth differently: under CATMULL_ROM the rotation
      blends like SMOOTH while the scale blends like LINEAR. */
  lemma CatmullRomChannels(ks: seq<Keyframe>, loop: bool, time: real)
    requires Sorted(Times(ks))
    ensures InterpolateRotation(ks, loop, CatmullRom, time) == InterpolateRotation(ks, loop, Smooth, time)
    ensures InterpolateScale(ks, loop, CatmullRom, time) == InterpolateScale(ks, loop, Linear, time)
  {
  }

  /** Keyframes at times 0, 5 and 10 on the x axis at x = 0, 5 and 10:
      LINEAR at time 2.5 is halfway between the first two, at x = 2.5. */
  lemma LinearSampleExample()
    ensures var ks := [PositionKeyframe(0.0, Zero), PositionKeyframe(5.0, Vec3(5.0, 0.0, 0.0)),
                       PositionKeyframe(10.0, Vec3(10.0, 0.0, 0.0))];
      Sorted(Times(ks)) && InterpolatePosition(ks, false, Linear, 2.5) == Vec3(2.5, 0.0, 0.0)
  {
    var ks := [PositionKeyframe(0.0, Zero), PositionKeyframe(5.0, Vec3(5.0, 0.0, 0.0)),
               PositionKeyframe(10.0, Vec3(10.0, 0.0, 0.0))];
    var ts := Times(ks);
    assert ts == [0.0, 5.0, 10.0];
    assert FirstAtLeast(ts, 2.5) == 1 by {
      assert ts[1..] == [5.0, 10.0];
    }
    assert TrackLookup(ts, false, 2.5) == Bracket(0, 1, 0.5);
  }

  /** The sampled pose passes through every keyframe: queried at the time
      of a keyframe whose neighbours have other times, position and scale
      are that keyframe's, in every mode and whether or not the track
      loops. */
  lemma {:induction false} SampleAtKeyframe(ks: seq<Keyframe>, loop: bool, mode: InterpolationMode, i: int)
    requires Sorted(Times(ks)) && 0 <= i < |ks|
    requires i == 0 || ks[i - 1].time < ks[i].time
    requires i == |ks| - 1 || ks[i].time < ks[i + 1].time
    ensures InterpolatePosition(ks, loop, mode, ks[i].time) == ks[i].position
    ensures InterpolateScale(ks, loop, mode, ks[i].time) == ks[i].scale
  {
    var ts := Times(ks);
    NoWrapWithinDuration(ts, loop, ts[i]);
    KeyframeTimeBracket(ts, i);
  }

  class AnimationController {
    var track: KeyframeTrack?
    var currentTime: real
    var speed: real
    var playing: bool
    var paused: bool
    var mode: InterpolationMode

    function Clock(): Clock
      reads this
    {
      Playback.Clock(currentTime, playing, paused)
    }

    /** The keyframes of the track, none when there is no track. */
    function Keys(): seq<Keyframe>
      reads this, track
    {
      if track == null then [] else track.keyframes
    }

    constructor()
      ensures track == null && currentTime == 0.0 && speed == 1.0
      ensures !playing && !paused && mode == CatmullRom
    {
      track := null;
      currentTime := 0.0;
      speed := 1.0;
      playing := false;
      paused := false;
      mode := CatmullRom;
    }

    /** Replaces the track and rewinds; whether it plays is kept. */
    method SetTrack(track: KeyframeTrack?)
      modifies this
      ensures this.track == track && currentTime == 0.0 && !paused
      ensures playing == old(playing) && speed == old(speed) && mode == old(mode)
    {
      this.track := track;
      Reset();
    }

    /** getDuration(): the track's duration, 0 without a track. */
    function GetDuration(): (d: real)
      reads this, track
      ensures track == null ==> d == 0.0
      ensures track != null ==> d == Duration(Times(track.keyframes))
    {
      if track == null then 0.0 else track.GetDuration()
    }

    /** One frame: advance, then wrap or stop at the end of the track. */
    method Update(deltaTime: real)
      requires WrapDefined(Clock(), deltaTime, speed, GetDuration(), track != null && track.loop, |Keys()| > 0)
      modifies this
      ensures track == old(track) && speed == old(speed) && mode == old(mode)
      ensures Clock() == Advance(old(Clock()), deltaTime, speed, GetDuration(), track != null && track.loop, |Keys()| > 0)
    {
      if !playing || paused || track == null || track.IsEmpty() {
        return;
      }
      currentTime := currentTime + deltaTime * speed;
      if track.loop && currentTime > GetDuration() {
        currentTime := FMod(currentTime, GetDuration());
      }
      if !track.loop && currentTime >= GetDuration() {
        currentTime := GetDuration();
        Stop();
      }
    }

    /** Writes the pose sampled at the current time into `transform`;
        without keyframes the transform is left alone. */
    method ApplyToTransform(transform: Transform)
      requires track != null ==> track.Valid()
      modifies transform
      ensures |Keys()| == 0 ==> unchanged(transform)
      ensures |Keys()| > 0 ==>
        && transform.position == InterpolatePosition(Keys(), track.loop, mode, currentTime)
        && transform.rotation == InterpolateRotation(Keys(), track.loop, mode, currentTime)
        && transform.scale == InterpolateScale(Keys(), track.loop, mode, currentTime)
        && transform.parent == old(transform.parent)
        && transform.localMatrixDirty && transform.Valid()
    {
      if track == null || track.IsEmpty() {
        return;
      }
      transform.SetPosition(InterpolatePosition(track.keyframes, track.loop, mode, currentTime));
      transform.SetRotation(InterpolateRotation(track.keyframes, track.loop, mode, currentTime));
      transform.SetScale(InterpolateScale(track.keyframes, track.loop, mode, currentTime));
    }

    method Play()
      modifies this
      ensures playing && !paused && IsPlaying()
      ensures currentTime == old(currentTime) && track == old(track) && speed == old(speed) && mode == old(mode)
    {
      playing := true;
      paused := false;
    }

    method Pause()
      modifies this
      ensures paused && !IsPlaying()
      ensures playing == old(playing) && currentTime == old(currentTime)
      ensures track == old(track) && speed == old(speed) && mode == old(mode)
    {
      paused := true;
    }

    method Stop()
      modifies this
      ensures Clock() == Stopped
      ensures track == old(track) && speed == old(speed) && mode == old(mode)
    {
      playing := false;
      paused := false;
      currentTime := 0.0;
    }

    /** Rewinds and unpauses, leaving `playing` as it was. */
    method Reset()
      modifies this
      ensures currentTime == 0.0 && !paused && playing == old(playing)
      ensures track == old(track) && speed == old(speed) && mode == old(mode)
    {
      currentTime := 0.0;
      paused := false;
    }

    function IsPlaying(): bool
      reads this
    {
      Running(Clock())
    }

    method SetTime(time: real)
      modifies this
      ensures currentTime == time
      ensures playing == old(playing) && paused == old(paused)
      ensures track == old(track) && speed == old(speed) && mode == old(mode)
    {
      currentTime := time;
    }

    method SetSpeed(speed: real)
      modifies this
      ensures this.speed == speed
      ensures Clock() == old(Clock()) && track == old(track) && mode == old(mode)
    {
      this.speed := speed;
    }

    method SetInterpolationMode(mode: InterpolationMode)
      modifies this
      ensures this.mode == mode
      ensures Clock() == old(Clock()) && track == old(track) && speed == old(speed)
    {
      this.mode := mode;
    }
  }
}
