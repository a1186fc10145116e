# ppgso island demo: animation, scene graph, terrain and lights

A Dafny model of the logic at the centre of the ppgso island demo:

- keyframe tracks, with their sorted keyframes, duration and bracketing lookup;
- the `AnimationController` and `CameraPath` playback clocks, and the per-channel sampling they perform;
- the interpolation library;
- the `SceneNode` hierarchy with its pre-order update and render passes;
- `Transform`, with its dirty-flag cache for the local matrix and its world matrix taken through the parent chain;
- the grid, index and normal buffers that `Terrain` generates;
- the `Light` base class and its uniform-name builder.

Modules follow the source files:

| file | module | source |
|---|---|---|
| `geometry.dfy` | `Geometry` | glm value types: `vec2`, `vec3`, and quaternions and matrices as free terms |
| `timeline.dfy` | `Timeline` | sorted time axis, C `fmod`, the lookup shared by tracks and camera paths |
| `keyframes.dfy` | `Keyframes` | `keyframe.cpp` |
| `playback.dfy` | `Playback` | the clock that `update` advances in both controllers |
| `interpolation.dfy` | `Interpolation` | `interpolation.cpp` |
| `animation.dfy` | `Animation` | `animation_controller.cpp` |
| `camera_path.dfy` | `CameraPaths` | `camera_path.cpp`, plus the position and target of `Camera` |
| `transform.dfy` | `Transforms` | `transform.cpp` |
| `scene_graph.dfy` | `SceneGraph` | `scene_node.cpp` |
| `terrain.dfy` | `Terrains` | `Terrain.cpp` |
| `light.dfy` | `Lights` | `light.cpp` |

Code that changes objects in place is modelled as classes: `KeyframeTrack`, `AnimationController`, `CameraPath`, `Camera`, `Transform`, `Hierarchy`, `Terrain` and `Light`. Each of their methods is proved against a function that says what the call computes. The loops in the source are `while` loops here, each with the invariants its proof needs:

- the bracketing scan;
- the insertion point of a new keyframe;
- `std::find` in `removeChild`;
- the sibling search in `setParent`;
- the child loops of the recursive passes;
- the grid loop nests;
- the normal accumulation.

Scene nodes are ids in a map held by `Hierarchy`. Each node records:

- its parent;
- the node its transform hangs from;
- its ordered child list;
- its visible and active flags.

Time is `real`. Quaternions and matrices are free terms that record how they were built (`Product`, `Slerp`, `TRS`, `Compose`). So what is proved about them is the shape of each operation, not glm's float arithmetic. Calls into code that is not modelled become parameters:

- the terrain height field `islandHeight`;
- `glm::normalize` in `computeNormals`.

## Model

| member | source | states |
|---|---|---|
| Timeline.Duration | src/animation/keyframe.cpp:77-80 | 0 for no keyframes, else a time of the sequence that no time of a sorted sequence exceeds |
| Timeline.FMod | src/animation/keyframe.cpp:94-96 | C fmod for a positive period and non-negative time: result in [0, d) and differs from x by a whole number of periods |
| Timeline.Locate | src/animation/keyframe.cpp:98-124 | the lookup without wrap: NoKeyframes when empty, else 0 <= idx0 <= idx1 <= idx0+1 < n, t in [0, 1], t = 0 when both indices agree |
| Timeline.TrackLookup | src/animation/keyframe.cpp:86-125 | the track lookup with loop wrap: (-1,-1,0) exactly for an empty track, indices in range and t in [0, 1] otherwise |
| Timeline.FindBracket | src/animation/keyframe.cpp:86-125 | the scan over adjacent pairs returns exactly Locate, so its divisor is positive and the fallback after the loop is never reached |
| Timeline.ScanFindsPair | src/animation/keyframe.cpp:112-121 | on a sorted sequence an interior query has an adjacent pair that brackets it with a strictly positive interval |
| Timeline.LocateInterior | src/animation/keyframe.cpp:112-121 | interior query: pair (j-1, j) for the first j with time >= query, ts[j-1] < q <= ts[j], divisor > 0, t in (0, 1], and lerping the two times by t gives back q |
| Timeline.LocateClamps | src/animation/keyframe.cpp:99-109 | at or before the first time gives (0,0,0); at or after the last gives (n-1,n-1,0) |
| Timeline.SingleKeyframe | src/animation/keyframe.cpp:99-109 | a one-keyframe track resolves to (0,0,0) for every query, looping or not |
| Timeline.LoopWrap | src/animation/keyframe.cpp:94-96 | looping with duration D > 0 and query > D looks up fmod(query, D), which lies in [0, D) |
| Timeline.LoopPeriodic | src/animation/keyframe.cpp:94-96 | beyond D, query and query - D resolve alike, except at exactly 2D |
| Timeline.LoopPeriodicFailsAtTwoPeriods | src/animation/keyframe.cpp:94-109 | times 0, 5, 10 looping: 20 and 10 resolve differently |
| Timeline.KeyframeTimeBracket | src/animation/keyframe.cpp:99-124 | querying at a keyframe's own time (distinct neighbours) gives that keyframe with fraction 0 or 1 |
| Timeline.NoWrapWithinDuration | src/animation/keyframe.cpp:94-96 | no wrap at or below the duration |
| Timeline.CameraLookupIsTrackLookupWithoutLoop | src/camera/camera_path.cpp:220-252 | the camera path lookup is the track lookup with the loop flag off |
| Timeline.UpperBound | src/animation/keyframe.cpp:55-58 | a position after every time <= x and before every later time |
| Timeline.InsertKeepsSorted | src/animation/keyframe.cpp:51-59 | inserting at that position keeps the sequence sorted |
| Keyframes.TimesInsert | src/animation/keyframe.cpp:51-59 | inserting a keyframe inserts its time at the same place |
| Keyframes.KeyframeTrack.constructor | src/animation/keyframe.cpp:45-49 | no keyframes, not looping, name "Unnamed" |
| Keyframes.KeyframeTrack.AddKeyframe | src/animation/keyframe.cpp:51-59 | stays sorted; length + 1; contents = old + the new keyframe as a multiset; loop and name kept |
| Keyframes.KeyframeTrack.AddPositionKeyframe | src/animation/keyframe.cpp:61-63 | adds Keyframe(time, position) with identity rotation and unit scale |
| Keyframes.KeyframeTrack.AddPoseKeyframe | src/animation/keyframe.cpp:65-67 | adds Keyframe(time, position, rotation) with unit scale |
| Keyframes.KeyframeTrack.GetDuration | src/animation/keyframe.cpp:77-80 | 0 when empty, else the last keyframe's time, which bounds every time of a sorted track |
| Keyframes.KeyframeTrack.GetKeyframesAtTime | src/animation/keyframe.cpp:86-125 | outputs equal TrackLookup of the track's times, including the NaN fallback for a zero duration |
| Keyframes.KeyframeTrack.SetLoop | src/animation/keyframe.cpp:127-129 | sets the loop flag only |
| Keyframes.KeyframeTrack.SetName | src/animation/keyframe.cpp:135-137 | sets the name only |
| Playback.Advance | src/animation/animation_controller.cpp:23-40 | no change unless running and non-empty; a looping clock past D takes fmod(time, D) for either sign of D, which for D > 0 lies in [0, D) and is a whole number of periods below; non-loop at or past D gives the stopped clock; otherwise time + deltaTime*speed |
| Playback.StoppedStaysStopped | src/animation/animation_controller.cpp:24-26 | a stopped clock is left alone by every update |
| Playback.ForwardStaysInRange | src/animation/animation_controller.cpp:28-39 | forward steps through a non-looping timeline keep time in [0, D) |
| Playback.LoopStaysInRange | src/animation/animation_controller.cpp:28-33 | forward steps through a looping timeline keep time in [0, D] and never stop |
| Interpolation.Lerp | src/animation/interpolation.cpp:8-10 | lerp(a,b,0) = a, lerp(a,b,1) = b, and r - a = (b - a)*t for unclamped t |
| Interpolation.LerpVec | src/animation/interpolation.cpp:12-14 | vector lerp hits a at 0 and b at 1 |
| Interpolation.LerpVecSame | src/animation/interpolation.cpp:12-14 | lerp between equal points is that point |
| Interpolation.LerpBetween | src/animation/interpolation.cpp:8-10 | for t in [0, 1] the lerp lies between its endpoints |
| Interpolation.Clamp01 | src/animation/interpolation.cpp:22 | result in [0, 1]; identity on [0, 1] |
| Interpolation.Smoothstep | src/animation/interpolation.cpp:21-24 | 0 for t <= 0, 1 for t >= 1 |
| Interpolation.Smootherstep | src/animation/interpolation.cpp:26-29 | 0 for t <= 0, 1 for t >= 1 |
| Interpolation.SmoothstepSymmetric | src/animation/interpolation.cpp:21-24 | s(1 - t) = 1 - s(t) on [0, 1] |
| Interpolation.SmootherstepSymmetric | src/animation/interpolation.cpp:26-29 | s(1 - t) = 1 - s(t) on [0, 1] |
| Interpolation.SmoothstepRange | src/animation/interpolation.cpp:21-24 | result in [0, 1] for every t |
| Interpolation.SmootherstepRange | src/animation/interpolation.cpp:26-29 | result in [0, 1] for every t |
| Interpolation.CatmullRom | src/animation/interpolation.cpp:32-44 | p1 at t = 0, p2 at t = 1 |
| Interpolation.CatmullRomConstant | src/animation/interpolation.cpp:32-44 | four equal points give that point |
| Interpolation.CubicHermite | src/animation/interpolation.cpp:47-58 | p0 at t = 0, p1 at t = 1 |
| Interpolation.CubicBezier | src/animation/interpolation.cpp:88-102 | p0 at t = 0, p3 at t = 1 |
| Interpolation.BezierThirdsIsLerp | src/animation/interpolation.cpp:88-102 | with controls at exactly 1/3 and 2/3 of the chord the Bezier equals lerp |
| Interpolation.EaseInQuad | src/animation/interpolation.cpp:61-63 | 0 to 0, 1 to 1 |
| Interpolation.EaseOutQuad | src/animation/interpolation.cpp:65-67 | 0 to 0, 1 to 1 |
| Interpolation.EaseInOutQuad | src/animation/interpolation.cpp:69-71 | 0 to 0, 1 to 1, 0.5 to 0.5 |
| Interpolation.EaseInCubic | src/animation/interpolation.cpp:74-76 | 0 to 0, 1 to 1 |
| Interpolation.EaseOutCubic | src/animation/interpolation.cpp:78-81 | 0 to 0, 1 to 1 |
| Interpolation.EaseInOutCubic | src/animation/interpolation.cpp:83-85 | 0 to 0, 1 to 1, 0.5 to 0.5 |
| Interpolation.EaseInOutContinuous | src/animation/interpolation.cpp:69-85 | both branches of each in-out curve give 0.5 at t = 0.5 |
| Animation.PrevIndex | src/animation/animation_controller.cpp:132 | max(0, i-1) is a valid index not after i |
| Animation.NextIndex | src/animation/animation_controller.cpp:133 | min(n-1, i+1) is a valid index not before i |
| Animation.CurvePoint | src/animation/animation_controller.cpp:119-153 | the position curve in every mode starts at keyframe idx0 (t = 0) and ends at idx1 (t = 1) |
| Animation.LinearIsLerp | src/animation/animation_controller.cpp:120-121 | LINEAR is the lerp of the bracket's positions with the raw fraction |
| Animation.SmoothIsSmootherstepLerp | src/animation/animation_controller.cpp:123-124 | SMOOTH is the lerp with smootherstep of the fraction |
| Animation.CatmullRomFallback | src/animation/animation_controller.cpp:126-141 | below four keyframes CATMULL_ROM equals SMOOTH; from four on it is the Catmull-Rom segment through the clamped neighbours |
| Animation.LinearSampleExample | src/animation/animation_controller.cpp:106-121 | keyframes at times 0, 5, 10 with x = 0, 5, 10: LINEAR at time 2.5 gives (2.5, 0, 0) |
| Animation.BezierIsNotLinear | src/animation/animation_controller.cpp:144-149 | the 0.33/0.66 controls put the midpoint of (0,0,0)-(1,0,0) at 0.49625, not 0.5 |
| Animation.BlendParameter | src/animation/animation_controller.cpp:170-172 | smootherstep(t) when smoothing, else t; in [0, 1] and endpoint preserving |
| Animation.InterpolatePosition | src/animation/animation_controller.cpp:106-154 | origin with no keyframes, else the curve at the track lookup's bracket |
| Animation.InterpolateRotation | src/animation/animation_controller.cpp:156-175 | identity with no keyframes, else slerp of the bracket's rotations with smootherstep iff SMOOTH or CATMULL_ROM |
| Animation.InterpolateScale | src/animation/animation_controller.cpp:177-194 | unit scale with no keyframes; else the lerp of the bracket's scales with smootherstep only under SMOOTH and the raw fraction in every other mode, so idx0's scale at t = 0 or when both indices agree, and idx1's at t = 1 |
| Animation.CatmullRomChannels | src/animation/animation_controller.cpp:170-172 | under CATMULL_ROM the rotation blends as under SMOOTH while the scale blends as under LINEAR (lines 190-191) |
| Animation.SampleAtKeyframe | src/animation/animation_controller.cpp:106-194 | at a keyframe's own time position and scale are that keyframe's, in every mode |
| Animation.AnimationController.constructor | src/animation/animation_controller.cpp:5-12 | no track, time 0, speed 1, stopped, CATMULL_ROM |
| Animation.AnimationController.SetTrack | src/animation/animation_controller.cpp:14-17 | new track, time 0, not paused, playing kept |
| Animation.AnimationController.GetDuration | src/animation/animation_controller.cpp:86-88 | track's duration, 0 without a track |
| Animation.AnimationController.Update | src/animation/animation_controller.cpp:23-40 | new clock = Advance(old clock) with the track's loop flag; track, speed, mode kept |
| Animation.AnimationController.ApplyToTransform | src/animation/animation_controller.cpp:42-48 | nothing without keyframes; else position, rotation, scale sampled at the current time, cache marked dirty |
| Animation.AnimationController.Play | src/animation/animation_controller.cpp:50-53 | playing, not paused |
| Animation.AnimationController.Pause | src/animation/animation_controller.cpp:55-57 | paused only |
| Animation.AnimationController.Stop | src/animation/animation_controller.cpp:59-63 | not playing, not paused, time 0 |
| Animation.AnimationController.Reset | src/animation/animation_controller.cpp:65-68 | time 0, not paused, playing kept |
| Animation.AnimationController.SetTime | src/animation/animation_controller.cpp:78-80 | sets the time only |
| Animation.AnimationController.SetSpeed | src/animation/animation_controller.cpp:90-92 | sets the speed only |
| Animation.AnimationController.SetInterpolationMode | src/animation/animation_controller.cpp:98-100 | sets the mode only |
| CameraPaths.CameraTimesInsert | src/camera/camera_path.cpp:43-50 | inserting a camera keyframe inserts its time at the same place |
| CameraPaths.PathCurveMode | src/camera/camera_path.cpp:152-177 | BEZIER falls to the default LINEAR branch; other modes unchanged |
| CameraPaths.Sample | src/camera/camera_path.cpp:140-178 | the fallback when empty, else the curve at the unwrapped lookup |
| CameraPaths.InterpolatePosition | src/camera/camera_path.cpp:140-141 | (0,0,0) without keyframes; otherwise the curve point of the keyframe positions at the located segment, under the path's curve mode |
| CameraPaths.InterpolateTarget | src/camera/camera_path.cpp:180-181 | (0,0,-1) without keyframes; otherwise the curve point of the keyframe targets at the located segment, under the path's curve mode |
| CameraPaths.SampleAtCameraKeyframe | src/camera/camera_path.cpp:140-218 | at a keyframe's own time the camera is at its position and looks at its target |
| CameraPaths.Camera.constructor | src/camera/camera.cpp:6-15 | at (0,5,10) looking at the origin |
| CameraPaths.Camera.SetPosition | src/camera/camera.cpp:48-50 | sets the position only |
| CameraPaths.Camera.LookAt | src/camera/camera.cpp:57-58 | stores the target; position kept |
| CameraPaths.CameraPath.constructor | src/camera/camera_path.cpp:33-41 | no keyframes, time 0, speed 1, stopped, no loop, CATMULL_ROM |
| CameraPaths.CameraPath.AddKeyframe | src/camera/camera_path.cpp:43-50 | stays sorted; length + 1; contents = old + the new keyframe as a multiset |
| CameraPaths.CameraPath.AddLookKeyframe | src/camera/camera_path.cpp:52-54 | adds CameraKeyframe(time, position, target) with the default up vector |
| CameraPaths.CameraPath.GetDuration | src/camera/camera_path.cpp:115-118 | 0 when empty, else the last time, an upper bound of all times |
| CameraPaths.CameraPath.GetKeyframesAtTime | src/camera/camera_path.cpp:220-252 | outputs equal Locate (no wrap) of the path's times |
| CameraPaths.CameraPath.Update | src/camera/camera_path.cpp:56-71 | new clock = Advance(old clock) with the path's own loop flag |
| CameraPaths.CameraPath.ApplyToCamera | src/camera/camera_path.cpp:73-81 | nothing when empty; else camera position and target are the sampled ones |
| CameraPaths.CameraPath.Play | src/camera/camera_path.cpp:83-86 | playing, not paused |
| CameraPaths.CameraPath.Pause | src/camera/camera_path.cpp:88-90 | paused only |
| CameraPaths.CameraPath.Stop | src/camera/camera_path.cpp:92-96 | not playing, not paused, time 0 |
| CameraPaths.CameraPath.Reset | src/camera/camera_path.cpp:98-101 | time 0, not paused, playing kept |
| CameraPaths.CameraPath.SetTime | src/camera/camera_path.cpp:107-109 | sets the time only |
| CameraPaths.CameraPath.SetSpeed | src/camera/camera_path.cpp:120-122 | sets the speed only |
| CameraPaths.CameraPath.SetLoop | src/camera/camera_path.cpp:128-130 | sets the loop flag only |
| CameraPaths.CameraPath.SetInterpolationMode | src/camera/camera_path.cpp:136-138 | sets the mode only |
| Transforms.Transform.constructor | src/scene_graph/transform.cpp:7-14 | origin, identity rotation, unit scale, no parent, dirty |
| Transforms.Transform.WithPose | src/scene_graph/transform.cpp:16-23 | the given pose, no parent, dirty |
| Transforms.Transform.SetPosition | src/scene_graph/transform.cpp:26-29 | new position, other fields kept, dirty, cache coherent |
| Transforms.Transform.Translate | src/scene_graph/transform.cpp:35-38 | position + offset, dirty |
| Transforms.Transform.SetRotation | src/scene_graph/transform.cpp:41-44 | new rotation, dirty |
| Transforms.Transform.SetRotationEuler | src/scene_graph/transform.cpp:46-49 | rotation = quat(euler), dirty |
| Transforms.Transform.Rotate | src/scene_graph/transform.cpp:55-58 | rotation = delta * old, dirty |
| Transforms.Transform.RotateAngleAxis | src/scene_graph/transform.cpp:60-63 | rotation = angleAxis * old, dirty |
| Transforms.Transform.SetScale | src/scene_graph/transform.cpp:66-69 | new scale, dirty |
| Transforms.Transform.SetUniformScale | src/scene_graph/transform.cpp:71-74 | all three components set to the factor, dirty |
| Transforms.Transform.SetParent | src/scene_graph/transform.cpp:103-105 | new parent; pose and cache untouched |
| Transforms.Transform.GetLocalMatrix | src/scene_graph/transform.cpp:81-92 | always TRS of the current pose; cache then clean and coherent |
| Transforms.Transform.GetWorldMatrix | src/scene_graph/transform.cpp:94-100 | WorldOf the parent chain before and after the call, so repeated calls agree; poses unchanged |
| Transforms.WorldOf | src/scene_graph/transform.cpp:94-100 | local matrix of a root, else a composition whose inner factor is the local matrix |
| SceneGraph.IndexOf | src/scene_graph/scene_node.cpp:51 | std::find: the first position holding x |
| SceneGraph.RemoveAt | src/scene_graph/scene_node.cpp:56 | erase: one shorter, order of the others kept |
| SceneGraph.RemoveAtUnique | src/scene_graph/scene_node.cpp:56 | erasing a unique element removes exactly it |
| SceneGraph.Detach | src/scene_graph/scene_node.cpp:48-58 | absent child: no change; present: erased from p's list, both of c's links cleared; every other node's links, every other list, and all names and flags kept |
| SceneGraph.Release | src/scene_graph/scene_node.cpp:33-36 | a child listed under its parent is erased from that list (others in order) and loses both links; with no parent, or unlisted, nothing changes; only c's links and the old parent's list can change, names and flags never |
| SceneGraph.Link | src/scene_graph/scene_node.cpp:38-43 | c appended to p's list, c's parent and transform parent set to p; every other node's links, every other list, and all names and flags kept |
| SceneGraph.Attach | src/scene_graph/scene_node.cpp:30-46 | p's list becomes its list after the release plus c at the end (p's other children kept in order); the old parent's list loses c, and is kept when c was not listed there; re-adding under the same parent moves c to the end; both links to p; only c's links and the lists of p and the old parent change, names and flags never |
| SceneGraph.Reparent | src/scene_graph/scene_node.cpp:60-82 | same parent: no change; otherwise the old parent's list loses n if it held it, and both links are set to q, with nothing else changed when n was unlisted; only n's links and the old parent's list can change, names and flags never |
| SceneGraph.DetachConsistent | src/scene_graph/scene_node.cpp:48-58 | removeChild keeps parent links, unique lists and transform links consistent; p's list = old list minus c |
| SceneGraph.AttachConsistent | src/scene_graph/scene_node.cpp:30-46 | addChild keeps the links consistent and the child occurs once |
| SceneGraph.LinkConsistent | src/scene_graph/scene_node.cpp:38-43 | appending an unlinked child keeps the links consistent |
| SceneGraph.ReparentLeavesUnlisted | src/scene_graph/scene_node.cpp:75-81 | after setParent to a new q, n is not in q's list, so the links are inconsistent |
| SceneGraph.PreOrder | src/scene_graph/scene_node.cpp:129-149 | nothing when the node's flag is off, else the node first; every visited node has its flag on |
| SceneGraph.EnabledChildVisited | src/scene_graph/scene_node.cpp:129-149 | an enabled child of an enabled node is visited |
| SceneGraph.Hierarchy.CreateNode | src/scene_graph/scene_node.cpp:6-12 | a new node without parent or children, visible and active; consistency kept |
| SceneGraph.Hierarchy.AddChild | src/scene_graph/scene_node.cpp:30-46 | null child: no change; else the map becomes Attach |
| SceneGraph.Hierarchy.RemoveChild | src/scene_graph/scene_node.cpp:48-58 | null child: no change; else the map becomes Detach |
| SceneGraph.Hierarchy.SetParent | src/scene_graph/scene_node.cpp:60-82 | the map becomes Reparent |
| SceneGraph.Hierarchy.SetName | src/scene_graph/scene_node.cpp:102-104 | only the node's name changes |
| SceneGraph.Hierarchy.SetVisible | src/scene_graph/scene_node.cpp:111-113 | only the node's visible flag changes |
| SceneGraph.Hierarchy.SetActive | src/scene_graph/scene_node.cpp:120-122 | only the node's active flag changes |
| SceneGraph.Hierarchy.Traverse | src/scene_graph/scene_node.cpp:129-149 | the visited nodes are PreOrder |
| SceneGraph.Hierarchy.UpdateRecursive | src/scene_graph/scene_node.cpp:129-138 | PreOrder of the update pass: nothing if inactive, only active nodes |
| SceneGraph.Hierarchy.RenderRecursive | src/scene_graph/scene_node.cpp:140-149 | PreOrder of the render pass: nothing if invisible, only visible nodes |
| Terrains.CellCorners | src/terrain/Terrain.cpp:99-105 | the six indices are the cell's corners (x,z), (x,z+1), (x+1,z), (x+1,z), (x,z+1), (x+1,z+1), all < (res+1)^2 |
| Terrains.VertexInGrid | src/terrain/Terrain.cpp:84-95 | every vertex index lies inside the buffers |
| Terrains.UvInUnit | src/terrain/Terrain.cpp:86-93 | uv in [0,1]^2, (0,0) first and (1,1) last |
| Terrains.GridSpan | src/terrain/Terrain.cpp:86-89 | the grid spans -size/2 .. size/2 in x and z |
| Terrains.UnusedVertex | src/terrain/Terrain.cpp:113-126 | a vertex no triangle uses receives no normal contribution |
| Terrains.GridVertices | src/terrain/Terrain.cpp:84-95 | (res+1)^2 positions and uvs, vertex (x,z) at z*(res+1)+x |
| Terrains.AppendVertexRow | src/terrain/Terrain.cpp:85-94 | one more row in place |
| Terrains.CellRowsAt | src/terrain/Terrain.cpp:97-107 | 6*z*res indices; cell (x,z') at offset 6*(z'*res+x) |
| Terrains.CellRowsInGrid | src/terrain/Terrain.cpp:97-107 | every emitted index < (res+1)^2 |
| Terrains.GridIndices | src/terrain/Terrain.cpp:97-107 | the index loop nest emits CellRows(res, res); nothing for negative res |
| Terrains.AppendCellRow | src/terrain/Terrain.cpp:98-106 | the inner loop appends one row of cells |
| Terrains.Terrain.constructor | src/terrain/Terrain.cpp:14-18 | fields stored; (res+1)^2 positions and uvs laid out row by row from the height field, each cell's six indices in its slots, every index a vertex, and each normal the normalised sum of the face normals of the triangles that use the vertex |
| Terrains.Terrain.GenerateGrid | src/terrain/Terrain.cpp:79-108 | buffers replaced (not appended): row-major vertices and uvs, 6*res^2 indices with the cell pattern at each offset, all naming vertices |
| Terrains.Terrain.ComputeNormals | src/terrain/Terrain.cpp:110-130 | one normal per position: normalize(resized old entry + sum of face normals of triangles touching it, once per corner) |
| Terrains.AccumulateFaceNormals | src/terrain/Terrain.cpp:113-126 | each entry = start + Accumulated over all triangles |
| Terrains.AccumulateStep | src/terrain/Terrain.cpp:123-125 | one loop pass turns the buffer after t triangles into the buffer after t+1 |
| Terrains.NormalizeEach | src/terrain/Terrain.cpp:128-129 | each entry normalised in place, length kept |
| Terrains.AddAt | src/terrain/Terrain.cpp:123-125 | += at one entry, others unchanged |
| Lights.Light.constructor | src/lighting/light.cpp:5-13 | the type, ambient 0.1, diffuse and specular 1, intensity 1, enabled |
| Lights.Light.SetColor | src/lighting/light.cpp:22-27 | diffuse = specular = colour, ambient = 0.2 * colour |
| Lights.Light.SetAmbient | src/lighting/light.cpp:29-31 | only ambient changes |
| Lights.Light.SetDiffuse | src/lighting/light.cpp:33-35 | only diffuse changes |
| Lights.Light.SetSpecular | src/lighting/light.cpp:37-39 | only specular changes |
| Lights.NatToString | src/lighting/light.cpp:43 | non-empty, decimal digits only |
| Lights.IntToString | src/lighting/light.cpp:43 | non-empty, digits and minus sign only |
| Lights.NatRoundTrip | src/lighting/light.cpp:43 | parsing the digits gives back n |
| Lights.IntRoundTrip | src/lighting/light.cpp:43 | parsing std::to_string(n) gives back n, sign included |
| Lights.UniformName | src/lighting/light.cpp:41-44 | "lights[" then the decimal index then "]." then the property |
| Lights.UniformNameExample | src/lighting/light.cpp:41-44 | (0, "ambient") gives "lights[0].ambient" |
| Lights.UniformNameTwoDigits | src/lighting/light.cpp:41-44 | (12, "diffuse") gives "lights[12].diffuse" |
| Lights.ClosingBracket | src/lighting/light.cpp:43 | the first ']' of a name ends the index |
| Lights.UniformNameInjective | src/lighting/light.cpp:41-44 | equal names imply equal index and equal property |

## Left out

- IEEE float behaviour: rounding and single precision are not modelled. All arithmetic is over `real`.
- NaN: the model covers the one NaN path the code reaches without failing, the lookup of a looping zero-length track. Everywhere else a wrap by a zero duration is excluded by a precondition (`WrapDefined`).
- Playback.Advance: requires that a wrap never divides by a zero duration (`WrapDefined`), because `fmod(x, 0)` is NaN and the NaN time that follows is not modelled.
- Animation.AnimationController.Update: the same requirement as Playback.Advance.
- CameraPaths.CameraPath.Update: the same requirement as Playback.Advance.
- Quaternion and matrix arithmetic (`glm::slerp`, `toMat4`, `translate`, `scale`, `angleAxis`, Euler conversion) is left out: these are free terms. The direction getters of `Transform` are left out for the same reason.
- Camera orientation: `Camera::lookAt` also computes a rotation with `glm::rotation`. Only the stored target is modelled. Projection, view matrices and perspective are left out.
- Terrain heights and normal directions: `noise` and `islandHeight` are a height-field parameter, and `glm::normalize` is a function parameter. The GL buffer upload, the shader and `render` are left out.
- Terrains.Terrain.GenerateGrid requires a non-zero resolution, because `x / 0` is a NaN uv.
- Terrains.Terrain.ComputeNormals requires an index count that is a multiple of three, with every index naming a position. The source reads past the end of the vector otherwise.
- Terrain indices are `unsigned int` in the source. The model uses unbounded naturals, so overflow for huge resolutions is not modelled.
- Lights.Light.SetColor: the factor `0.2f` is the real 0.2, not its nearest float.
- The light `setupShaderUniforms` and `setRange` of the subclasses are left out.
- `SceneNode::update` and `render` are empty virtual hooks. The passes return the list of nodes whose hook runs. `onChildAdded` and `onChildRemoved` are empty and left out.
- Shared pointers and their lifetime are modelled by ids in a map. A null child is `None`.
- SceneGraph.Hierarchy.Traverse, `UpdateRecursive` and `RenderRecursive` take a ghost rank as a witness that the child lists contain no cycle. The source does not terminate on a cycle.
- Transforms.Transform.GetWorldMatrix takes the acyclic parent chain as a ghost witness, for the same reason.
- SceneGraph.AttachConsistent proves that the links stay consistent. It does not prove that the hierarchy stays a tree when a node is added below itself or below one of its descendants, which the source does not reject.
- Keyframes.KeyframeTrack.AddKeyframe: `std::sort` is not stable. The model inserts after the equal times, which is one of the orders the sort may produce. Its contract states only sortedness and the multiset, as any order of equal times allows.
- `getKeyframes`, `getKeyframeCount`, `isEmpty`, `isLoop`, `getName`, `getTrack`, `getTime`, `getSpeed` and `getInterpolationMode` are plain field reads. They appear as fields or as the bodies of `KeyframeCount` and `IsEmpty`.

## Notes

- Three behaviours of the source are easy to overlook; the model follows the source in each.
- `BEZIER` in `AnimationController::interpolatePosition` places its control points at 0.33 and 0.66 of the chord, not at thirds:
  - `Animation.BezierIsNotLinear` shows that the curve is therefore not the straight lerp;
  - `Interpolation.BezierThirdsIsLerp` shows that exact thirds would give the straight lerp.
- A looping track is not periodic at exactly twice its duration:
  - `Timeline.LoopPeriodic` excludes that point;
  - `Timeline.LoopPeriodicFailsAtTwoPeriods` exhibits it.
- `SceneNode::setParent` sets both links to the new parent but does not add the node to the new parent's child list:
  - `SceneGraph.ReparentLeavesUnlisted` proves that the links are then inconsistent.
