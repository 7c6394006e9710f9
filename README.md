# SemanticPose, usd::Link and Heightmap in Dafny

This project models three small parts of sdformat, the C++ library for the
SDF robot and world description format.

- **`sdf::SemanticPose`** (module `SemanticPoses`) is the handle a DOM entity
  uses to ask where it is. It stores a raw pose, the name of the frame the
  pose is expressed in (its relative-to frame), a default frame, and a weak
  pointer to the scope's pose-relative-to graph. `Resolve` checks that the
  graph is still alive and picks the start and target frames, falling back to
  the default frame for an empty name. It then calls the graph query
  `resolvePose` and right-composes the raw pose onto the query's result. The
  caller's output pose is written only when no error came back.
- **`usd::Link`** (module `UsdModel`) is the USD converter's link record. Its
  `clear()` resets part of its fields and leaves the rest alone. It holds a
  weak pointer to its parent link.
- **`sdf::Heightmap`**, **`sdf::HeightmapTexture`** and
  **`sdf::HeightmapBlend`** (module `Heightmaps`) are setter/getter value
  classes. The heightmap also has append-only texture and blend lists, read
  by index with an out-of-range check.

Shared math lives in module `PoseMath`. `Vector3` has real components.
`Pose` is a rigid transform whose rotation is a whole number of quarter turns
about z. `Compose(a, b)` is the source's `a * b`. This subset of rigid
transforms is closed under composition and is exact. Composition is still not
commutative (`ComposeNotCommutative`), so "composed on the right" keeps its
meaning. `Wrappers.Option` stands for null pointers.

How the source's pieces are represented:

- The graph query `resolvePose` is passed to `Resolve` as a function
  parameter: `resolvePose(graph, from, to)` returns a pose and an error list.
  The graph's type is the class's type parameter `G`.
- The weak pointer to the graph is a nullable reference to a `GraphOwner<G>`.
  Its `graph` field is `None` once the owning scope has released the graph.
  A null reference stands for an empty weak pointer. Locking the pointer is
  `LockGraph()`.
- `Resolve`'s in-out parameter `_pose` becomes the input `pose` and the
  output `resolved`, which is the parameter's value after the call.
- `SemanticPose`'s fields are `const`, and `Resolve` has no `modifies`
  clause. So the stored raw pose, relative-to name, default name and graph
  pointer are unchanged by `Resolve`, as the source's `const` promises.
- `usd::Link`'s fields are class fields, with lists as `seq` and maps as
  `map`. The shared-pointer payloads (visual, collision, light, sensor,
  material, inertial, joint) are empty classes, so only pointer identity is
  modelled. The parent weak pointer is a `Link?` field. Whether the parent is
  still alive is each link's `owned` flag.
- A heightmap stores copies of the textures and blends added to it
  (`TextureValue`, `BlendValue`), as `AddTexture(const HeightmapTexture &)`
  does. `TextureByIndex`/`BlendByIndex` return `Option` of that copy where the
  source returns a possibly-null pointer.

What `Resolve` does, in the source's own order:

- It starts from the stored relative-to name, or from the default frame when
  that name is empty (src/SemanticPose.cc:84-88). It then right-composes the
  raw pose onto the query's result (line 98).
- A graph that can no longer be reached gives one `ELEMENT_INVALID` error
  with the message "SemanticPose has invalid pointer to PoseRelativeToGraph."
  (line 80). The model uses that code and message.

`ComposeChain`, `ComposeChainAppend` and `ResolvedPoseExtendsChain` are
algebra of the pose stand-in. They show what right-composition means for a
composed path of relative poses. No contract ties `resolvePose` to a path,
because the query is not modelled.

## Model

| member | source | states |
|---|---|---|
| `SemanticPoses.SemanticPose.constructor` | src/SemanticPose.cc:44-67 | `RawPose()` and `RelativeTo()` return exactly the pose and name passed in, including an empty name, which is kept unresolved; the default frame and the graph pointer are stored as given |
| `SemanticPoses.SemanticPose.Resolve` | src/SemanticPose.cc:70-106 | expired or empty graph pointer: exactly one `ElementInvalid` error and the output pose unchanged. Live graph: the errors are those of `resolvePose` called with start = relative-to name if non-empty, else the default, and target = `resolveTo` if non-empty, else the default (so both are the default when both names are empty). No errors: the output is `resolvePose`'s pose right-composed with `RawPose()`. Any error: the output pose is unchanged |
| `SemanticPoses.ResolvedPoseExtendsChain` | src/SemanticPose.cc:96-98 | right-composing the raw pose onto a composed path of relative poses is the composed path extended by the raw pose |
| `PoseMath.ComposeChainAppend` | src/SemanticPose.cc:96-98 | the pose along a path is the composition of the poses along any split of it into two consecutive paths |
| `PoseMath.ComposeAssociative` | src/SemanticPose.cc:98 | pose composition is associative |
| `PoseMath.ComposeIdentity` | src/SemanticPose.cc:31 | the zero pose is a left and right unit of composition |
| `PoseMath.ComposeNotCommutative` | src/SemanticPose.cc:98 | composition depends on operand order, so right-composition is a real choice |
| `UsdModel.Link.constructor` | src/usd/usd_model/link.hh:45-96 | a new link is already cleared (`IsCleared()`): empty name, no collision, empty child-link, collision and visual lists, identity pose, scale (1,1,1); also every other pointer null, every other list and map empty, and no parent |
| `UsdModel.Link.Clear` | src/usd/usd_model/link.hh:86-96 | empties the name, child links, collision list and visual list and resets the collision pointer; the pose becomes identity and the scale (1,1,1) even though it is zeroed first; its `modifies` clause names only these fields, so inertial, visual, materials, lights, sensors, joints and the parent pointer are unchanged; on a link already cleared it changes nothing, so clearing twice equals clearing once |
| `UsdModel.Link.SetParent` | src/usd/usd_model/link.hh:77-81 | stores the parent pointer and changes nothing else; afterwards `GetParent()` returns the parent while it is alive, and null once it has expired or when the parent given was null |
| `Heightmaps.Heightmap.constructor` | include/sdf/Heightmap.hh:136-201 | a new heightmap has size 1x1x1, terrain paging off and sampling 1; it has no textures, no blends and no element |
| `Heightmaps.Heightmap.SetUri` | include/sdf/Heightmap.hh:155-161 | `Uri()` returns the URI set; nothing else changes |
| `Heightmaps.Heightmap.SetFilePath` | include/sdf/Heightmap.hh:163-169 | `FilePath()` returns the path set; nothing else changes |
| `Heightmaps.Heightmap.SetSize` | include/sdf/Heightmap.hh:171-177 | `Size()` returns the size set; nothing else changes |
| `Heightmaps.Heightmap.SetPosition` | include/sdf/Heightmap.hh:179-185 | `Position()` returns the offset set; nothing else changes |
| `Heightmaps.Heightmap.SetUseTerrainPaging` | include/sdf/Heightmap.hh:187-193 | `UseTerrainPaging()` returns the flag set; nothing else changes |
| `Heightmaps.Heightmap.SetSampling` | include/sdf/Heightmap.hh:195-201 | `Sampling()` returns the sampling set; nothing else changes |
| `Heightmaps.Heightmap.AddTexture` | include/sdf/Heightmap.hh:203-217 | appends a copy of the texture: the count grows by one, and the copy is at index old-count with the texture's size, diffuse map, normal map and element; earlier indices still give the same textures; afterwards `TextureByIndex(i)` is null exactly when `i` is beyond the new last index |
| `Heightmaps.Heightmap.AddBlend` | include/sdf/Heightmap.hh:219-233 | appends a copy of the blend: the count grows by one, and the copy is at index old-count with the blend's minimum height, fade distance and element; earlier indices still give the same blends; afterwards `BlendByIndex(i)` is null exactly when `i` is beyond the new last index |
| `Heightmaps.HeightmapTexture.constructor` | include/sdf/Heightmap.hh:39-86 | a new texture has no element |
| `Heightmaps.HeightmapTexture.SetSize` | include/sdf/Heightmap.hh:59-65 | `Size()` returns the size set; nothing else changes |
| `Heightmaps.HeightmapTexture.SetDiffuse` | include/sdf/Heightmap.hh:67-73 | `Diffuse()` returns the map name set; nothing else changes |
| `Heightmaps.HeightmapTexture.SetNormal` | include/sdf/Heightmap.hh:75-81 | `Normal()` returns the map name set; nothing else changes |
| `Heightmaps.HeightmapBlend.constructor` | include/sdf/Heightmap.hh:95-125 | a new blend has no element |
| `Heightmaps.HeightmapBlend.SetMinHeight` | include/sdf/Heightmap.hh:106-112 | `MinHeight()` returns the height set; nothing else changes |
| `Heightmaps.HeightmapBlend.SetFadeDistance` | include/sdf/Heightmap.hh:114-120 | `FadeDistance()` returns the distance set; nothing else changes |

## Left out

- `resolvePose` and the pose-relative-to graph: they live in FrameSemantics, which is not part of this model. `Resolve` takes the query as a parameter and assumes nothing about it.
- Floating-point pose and vector arithmetic: vectors have exact real components, and rotations are restricted to quarter turns about z. No claim is made about rounding or about general 3-D rotations.
- Shared- and weak-pointer lifetimes: a graph's liveness is `GraphOwner.graph` being `Some`, and a link's liveness is its `owned` flag. Reference counting itself, and what ends a lifetime, are outside the model.
- Heightmaps.Heightmap.constructor: does not state the default URI, file path or position, because the header does not document them (Heightmap.cc is not part of this model).
- Heightmaps.HeightmapTexture.constructor: does not state the default size, diffuse or normal map, for the same reason.
- Heightmaps.HeightmapBlend.constructor: does not state the default minimum height or fade distance, for the same reason.
- `Heightmap::Load`, `HeightmapTexture::Load`, `HeightmapBlend::Load` and `Heightmap::ToElement`: these read and write the SDF element tree and depend on `sdf::Element` and `ParserConfig`, which are not part of this model. So `Element()` is null in every reachable state.
- Heightmaps.Heightmap.TextureByIndex, Heightmaps.Heightmap.BlendByIndex: return the stored value, not a pointer into the list, so pointer identity of the result is not modelled. `TextureCount`/`BlendCount` and the index are unbounded `nat` rather than `uint64_t`.
- The payload types of `usd::Link` (`sdf::Visual`, `sdf::Collision`, `sdf::Light`, `sdf::Sensor`, `sdf::Joint`, `ignition::common::Material`, `Inertiald`): empty classes, so only pointer identity is modelled.
- The Python binding of `URDF2SDF` and its Python test: binding glue and an XML round trip through a converter that is not part of this model.
