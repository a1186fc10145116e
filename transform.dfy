/** A node's local pose (position, rotation, scale), the cached local matrix
    built from it, and the world matrix composed through the chain of parent
    transforms. Matrices and rotations are free terms (see Geometry), so
    what is proved is the cache's coherence and the shape of the
    composition, not glm's arithmetic. */
module Transforms {
  import opened Geometry

  class Transform {
    var position: Vec3
    var rotation: Quat
    var scale: Vec3
    var parent: Transform?
    var cachedLocalMatrix: Mat4
    var localMatrixDirty: bool

    /** The translate * rotate * scale matrix of the current pose. */
    function Local(): Mat4
      reads this
    {
      TRS(position, rotation, scale)
    }

    /** Cache coherence: a clean cache holds the matrix of the current pose. */
    ghost predicate Valid()
      reads this
    {
      !localMatrixDirty ==> cachedLocalMatrix == Local()
    }

    /** Transform(): at the origin, identity rotation, unit scale, no
        parent, cache dirty. */
    constructor()
      ensures position == Zero && rotation == Identity && scale == Splat(1.0)
      ensures parent == null && localMatrixDirty && Valid()
    {
      position := Zero;
      rotation := Identity;
      scale := Splat(1.0);
      parent := null;
      cachedLocalMatrix := IdentityMatrix;
      localMatrixDirty := true;
    }

    /** Transform(position, rotation, scale). */
    constructor WithPose(position: Vec3, rotation: Quat, scale: Vec3)
      ensures this.position == position && this.rotation == rotation && this.scale == scale
      ensures parent == null && localMatrixDirty && Valid()
    {
      this.position := position;
      this.rotation := rotation;
      this.scale := scale;
      parent := null;
      cachedLocalMatrix := IdentityMatrix;
      localMatrixDirty := true;
    }

    method SetPosition(position: Vec3)
      modifies this
      ensures this.position == position
      ensures rotation == old(rotation) && scale == old(scale) && parent == old(parent)
      ensures localMatrixDirty && Valid()
    {
      this.position := position;
      localMatrixDirty := true;
    }

    /** Moves by `offset`. */
    method Translate(offset: Vec3)
      modifies this
      ensures position == Add(old(position), offset)
      ensures rotation == old(rotation) && scale == old(scale) && parent == old(parent)
      ensures localMatrixDirty && Valid()
    {
      position := Add(position, offset);
      localMatrixDirty := true;
    }

    method SetRotation(rotation: Quat)
      modifies this
      ensures this.rotation == rotation
      ensures position == old(position) && scale == old(scale) && parent == old(parent)
      ensures localMatrixDirty && Valid()
    {
      this.rotation := rotation;
      localMatrixDirty := true;
    }

    /** setRotation(eulerAngles): the rotation becomes glm::quat(angles). */
    method SetRotationEuler(eulerAngles: Vec3)
      modifies this
      ensures rotation == FromEuler(eulerAngles)
      ensures position == old(position) && scale == old(scale) && parent == old(parent)
      ensures localMatrixDirty && Valid()
    {
      rotation := FromEuler(eulerAngles);
      localMatrixDirty := true;
    }

    /** rotate(delta) applies `delta` after the current rotation: the new
        rotation is delta * old. */
    method Rotate(delta: Quat)
      modifies this
      ensures rotation == Product(delta, old(rotation))
      ensures position == old(position) && scale == old(scale) && parent == old(parent)
      ensures localMatrixDirty && Valid()
    {
      rotation := Product(delta, rotation);
      localMatrixDirty := true;
    }

    /** rotate(angle, axis): pre-multiplies by the rotation of `angle`
        about the normalised axis. */
    method RotateAngleAxis(angle: real, axis: Vec3)
      modifies this
      ensures rotation == Product(AngleAxis(angle, axis), old(rotation))
      ensures position == old(position) && scale == old(scale) && parent == old(parent)
      ensures localMatrixDirty && Valid()
    {
      rotation := Product(AngleAxis(angle, axis), rotation);
      localMatrixDirty := true;
    }

    method SetScale(scale: Vec3)
      modifies this
      ensures this.scale == scale
      ensures position == old(position) && rotation == old(rotation) && parent == old(parent)
      ensures localMatrixDirty && Valid()
    {
      this.scale := scale;
      localMatrixDirty := true;
    }

    /** setScale(float): the same factor on all three axes. */
    method SetUniformScale(uniformScale: real)
      modifies this
      ensures scale == Splat(uniformScale)
      ensures position == old(position) && rotation == old(rotation) && parent == old(parent)
      ensures localMatrixDirty && Valid()
    {
      scale := Splat(uniformScale);
      localMatrixDirty := true;
    }

    /** Re-links the parent; the local matrix does not depend on it, so the
        cache stays as it is. */
    method SetParent(parent: Transform?)
      modifies this
      ensures this.parent == parent
      ensures position == old(position) && rotation == old(rotation) && scale == old(scale)
      ensures localMatrixDirty == old(localMatrixDirty) && cachedLocalMatrix == old(cachedLocalMatrix)
    {
      this.parent := parent;
    }

    /** Rebuilds the cached matrix when it is dirty and returns it: the
        result is always the matrix of the current pose, and afterwards the
        cache is clean and still coherent. */
    method GetLocalMatrix() returns (m: Mat4)
      requires Valid()
      modifies this
      ensures m == Local()
      ensures position == old(position) && rotation == old(rotation) && scale == old(scale) && parent == old(parent)
      ensures !localMatrixDirty && Valid()
    {
      if localMatrixDirty {
        cachedLocalMatrix := TRS(position, rotation, scale);
        localMatrixDirty := false;
      }
      m := cachedLocalMatrix;
    }

    /** getWorldMatrix(): the local matrix of a root, else the parent's
        world matrix times the local one. It terminates only on an acyclic
        parent chain, so the chain is given as a ghost witness. The result
        is the world matrix of the poses before the call (the call only
        refreshes caches), so two calls in a row agree. */
    method GetWorldMatrix(ghost chain: seq<Transform>) returns (m: Mat4)
      requires IsChain(this, chain)
      requires forall i :: 0 <= i < |chain| ==> chain[i].Valid()
      modifies chain
      ensures m == old(WorldOf(chain)) && m == WorldOf(chain)
      ensures forall i :: 0 <= i < |chain| ==> chain[i].Valid() && !chain[i].localMatrixDirty
      ensures forall i :: 0 <= i < |chain| ==> PoseUnchanged(chain[i])
      decreases |chain|
    {
      if parent != null {
        assert chain[1] == parent;
        var pm := parent.GetWorldMatrix(chain[1..]);
        var lm := GetLocalMatrix();
        m := Compose(pm, lm);
      } else {
        m := GetLocalMatrix();
      }
    }
  }

  /** The pose and parent of `t` are as they were at the start. */
  twostate predicate PoseUnchanged(t: Transform)
    reads t
  {
    t.position == old(t.position) && t.rotation == old(t.rotation) &&
    t.scale == old(t.scale) && t.parent == old(t.parent)
  }

  /** `chain` lists `t` and its ancestors, each once, ending at a root. */
  ghost predicate IsChain(t: Transform, chain: seq<Transform>)
    reads chain
  {
    && |chain| > 0 && chain[0] == t
    && (forall i :: 0 <= i < |chain| - 1 ==> chain[i].parent == chain[i + 1])
    && chain[|chain| - 1].parent == null
    && (forall i, j :: 0 <= i < j < |chain| ==> chain[i] != chain[j])
  }

  /** The world matrix of the first transform of a parent chain: its local
      matrix, composed on the left with each ancestor's in turn. */
  ghost function WorldOf(chain: seq<Transform>): (m: Mat4)
    requires |chain| > 0
    reads chain
    ensures |chain| == 1 ==> m == chain[0].Local()
    ensures |chain| > 1 ==> m.Compose? && m.inner == chain[0].Local()
    decreases |chain|
  {
    if |chain| == 1 then chain[0].Local()
    else Compose(WorldOf(chain[1..]), chain[0].Local())
  }
}
