/** Keyframes and keyframe tracks: a track keeps its poses ordered by time,
    reports the time of its last pose as its duration, and resolves a query
    time to the two poses around it (with an optional loop wrap). */
module Keyframes {
  import opened Geometry
  import opened Timeline

  /** A pose at a point in time: position, rotation and scale. */
  datatype Keyframe = Keyframe(time: real, position: Vec3, rotation: Quat, scale: Vec3)

  /** Keyframe(): time 0 at the origin, identity rotation, unit scale. */
  const DefaultKeyframe := Keyframe(0.0, Zero, Identity, Splat(1.0))

  /** Keyframe(time, position): identity rotation and unit scale. */
  function PositionKeyframe(time: real, position: Vec3): Keyframe {
    Keyframe(time, position, Identity, Splat(1.0))
  }

  /** Keyframe(time, position, rotation): unit scale. */
  function PoseKeyframe(time: real, position: Vec3, rotation: Quat): Keyframe {
    Keyframe(time, position, rotation, Splat(1.0))
  }

  /** Keyframe::setRotationEuler: the rotation becomes glm::quat(angles). */
  function WithEulerRotation(k: Keyframe, angles: Vec3): Keyframe {
    k.(rotation := FromEuler(angles))
  }

  /** The time axis of a keyframe sequence. */
  function Times(ks: seq<Keyframe>): (ts: seq<real>)
    ensures |ts| == |ks|
    ensures forall i :: 0 <= i < |ks| ==> ts[i] == ks[i].time
  {
    seq(|ks|, i requires 0 <= i < |ks| => ks[i].time)
  }

  /** Inserting a keyframe inserts its time at the same place. */
  lemma TimesInsert(ks: seq<Keyframe>, i: nat, k: Keyframe)
    requires i <= |ks|
    ensures Times(ks[..i] + [k] + ks[i..]) == Times(ks)[..i] + [k.time] + Times(ks)[i..]
  {
    var lhs := Times(ks[..i] + [k] + ks[i..]);
    var rhs := Times(ks)[..i] + [k.time] + Times(ks)[i..];
    assert |lhs| == |rhs|;
    forall j | 0 <= j < |lhs|
      ensures lhs[j] == rhs[j]
    {
      if j < i {
        assert lhs[j] == ks[j].time;
      } else if j > i {
        assert lhs[j] == ks[j - 1].time;
      }
    }
  }

  class KeyframeTrack {
    var keyframes: seq<Keyframe>
    var loop: bool
    var name: string

    /** The track's poses are in ascending order of time. */
    ghost predicate Valid()
      reads this
    {
      Sorted(Times(keyframes))
    }

    constructor()
      ensures Valid()
      ensures keyframes == [] && !loop && name == "Unnamed"
    {
      keyframes := [];
      loop := false;
      name := "Unnamed";
    }

    /** Appends the keyframe and re-sorts by time. std::sort is not stable,
        so among equal times the order is left open: the result is some
        sorted arrangement of the old poses and the new one. */
    method AddKeyframe(k: Keyframe)
      requires Valid()
      modifies this
      ensures Valid()
      ensures |keyframes| == |old(keyframes)| + 1
      ensures multiset(keyframes) == multiset(old(keyframes)) + multiset{k}
      ensures loop == old(loop) && name == old(name)
    {
      var ts := Times(keyframes);
      var i := UpperBound(ts, k.time);
      InsertKeepsSorted(ts, i, k.time);
      TimesInsert(keyframes, i, k);
      assert keyframes == keyframes[..i] + keyframes[i..];
      keyframes := keyframes[..i] + [k] + keyframes[i..];
    }

    /** addKeyframe(time, position). */
    method AddPositionKeyframe(time: real, position: Vec3)
      requires Valid()
      modifies this
      ensures Valid()
      ensures multiset(keyframes) == multiset(old(keyframes)) + multiset{PositionKeyframe(time, position)}
      ensures loop == old(loop) && name == old(name)
    {
      AddKeyframe(PositionKeyframe(time, position));
    }

    /** addKeyframe(time, position, rotation). */
    method AddPoseKeyframe(time: real, position: Vec3, rotation: Quat)
      requires Valid()
      modifies this
      ensures Valid()
      ensures multiset(keyframes) == multiset(old(keyframes)) + multiset{PoseKeyframe(time, position, rotation)}
      ensures loop == old(loop) && name == old(name)
    {
      AddKeyframe(PoseKeyframe(time, position, rotation));
    }

    function KeyframeCount(): nat
      reads this
    {
      |keyframes|
    }

    function IsEmpty(): bool
      reads this
    {
      |keyframes| == 0
    }

    /** 0 for an empty track, otherwise the time of the last pose, which on
        a valid track is the latest time of all. */
    function GetDuration(): (d: real)
      reads this
      ensures |keyframes| == 0 ==> d == 0.0
      ensures |keyframes| > 0 ==> d == keyframes[|keyframes| - 1].time
      ensures Valid() ==> forall k :: k in keyframes ==> k.time <= d
    {
      Duration(Times(keyframes))
    }

    /** The bracketing lookup: empty track, loop wrap, clamps and the scan
        of adjacent pairs. A looping track of duration 0 queried beyond 0
        wraps with fmod(time, 0), which is NaN; every comparison with NaN
        fails, so the lookup ends in its fallback (0, 0, 0). */
    method GetKeyframesAtTime(time: real) returns (idx0: int, idx1: int, t: real)
      requires Valid()
      ensures Bracket(idx0, idx1, t) == TrackLookup(Times(keyframes), loop, time)
    {
      var ts := Times(keyframes);
      if |ts| == 0 {
        return -1, -1, 0.0;
      }
      var q := time;
      if loop && q > GetDuration() {
        if GetDuration() == 0.0 {
          return 0, 0, 0.0;
        }
        q := FMod(q, GetDuration());
      }
      idx0, idx1, t := FindBracket(ts, q);
    }

    method SetLoop(loop: bool)
      modifies this
      ensures this.loop == loop
      ensures keyframes == old(keyframes) && name == old(name)
    {
      this.loop := loop;
    }

    method SetName(name: string)
      modifies this
      ensures this.name == name
      ensures keyframes == old(keyframes) && loop == old(loop)
    {
      this.name := name;
    }
  }
}
