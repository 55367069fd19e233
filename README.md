# ROS3D marker bookkeeping, modelled and verified in Dafny

`ROS3D.Marker` turns a visualization marker message (an arrow, cube, sphere,
cylinder, line strip, line list, cube list, sphere list, point cloud, view-facing
text, mesh resource or triangle list) into a scene object. Under the scene-graph
construction it keeps a small record of the message it was built from:

- `msgScale`: the message scale as three numbers, or `1,1,1` when the message has none;
- `msgColor`: the message colour;
- `msgMesh`: for a mesh resource, the resource name, with `package://` stripped
  when a base path is known;
- `text`: read by `update` but never assigned.

The constructor also normalises the base path to end in `/`. For cube and sphere
lists, it draws at most 1250 elements by visiting every `ceil(n / 1250)`-th point.
It takes per-vertex colours exactly when there is one colour per point.

`update(message)` compares that record with a new message for the same marker. It
either patches the marker in place and returns `true`, or returns `false` so that
the caller rebuilds it. On the way it records a new colour and a new scale, and it
can exit early.

The project models this record and decision:

- `wrappers.dfy`: `Option`, for JavaScript's `undefined` and `null`.
- `messages.dfy`: the message fields the file reads, and `MarkerType` (the twelve
  marker kinds plus `Unknown`).
- `record.dfy` (module `MarkerRecord`): the pure derivations. These are
  `String.prototype.substr` as the file uses it (counting code points, not UTF-16 units), path normalisation, mesh-name
  stripping, the default scale, and the colour and scale change tests.
- `point_lists.dfy` (module `PointLists`): the stride index set as a
  specification function, the constructor's stride loop and the vertex-colour
  loop as methods proved against it, and the lemmas about the visited indices.
- `marker.dfy` (module `Markers`): class `Marker` with its constructor, `SetPose`
  and `Update`. It also holds the declarative reuse decision `PatchedInPlace`,
  which `Update` is proved to compute, and lemmas about that decision.

Numbers are modelled as unbounded reals, so comparisons are exact and there is no
NaN. The scale tolerance test `|a - b| > 1e-6` is real-number arithmetic.

The file calls `substr(10)` on every mesh resource in `update` (line 499). So a
mesh stored under its whole name, with no `package://` prefix or no base path,
never matches what `update` recomputes from that same resource, unless the
resource is empty. Such a marker is rebuilt whenever the same resource is sent
again (`WholeMeshNameNeverMatchesUpdate`, `ResendDecision`). `this.text` is never
assigned, so a text marker is always rebuilt (`TextMarkersAlwaysRebuilt`). Both
are modelled as written.

## Model

| member | source | states |
|---|---|---|
| MarkerRecord.SubstrFrom | src/markers/Marker.js:131 | `substr(start)` returns a suffix of the string. For a start of zero or more, its length is `max(len - start, 0)`. For a negative start, the last `min(-start, len)` characters are returned. |
| MarkerRecord.SubstrPrefix | src/markers/Marker.js:367 | `substr(0, k)` returns a prefix of the string of length `min(k, len)`. |
| MarkerRecord.Substr10 | src/markers/Marker.js:499 | `substr(10)` returns what follows the first 10 characters, or "" for a shorter string. |
| MarkerRecord.NormalizePath | src/markers/Marker.js:130-133 | A missing path stays missing, and an empty path stays empty. A non-empty path comes back non-empty and ending in '/'. A path already ending in '/' is unchanged. Otherwise exactly one '/' is appended. |
| MarkerRecord.NormalizePathIdempotent | src/markers/Marker.js:130-133 | Normalising an already normalised path changes nothing. |
| MarkerRecord.MeshName | src/markers/Marker.js:367-372 | Suppose the path is present and non-empty and the resource starts with `package://`. Then the stored name is the resource without that prefix, and the path is kept. Otherwise the stored name is the whole resource, and the path becomes missing. |
| MarkerRecord.PackagedMeshNameMatchesUpdate | src/markers/Marker.js:367-368 | A name stored with its `package://` prefix stripped equals what `update` recomputes with `substr(10)`. |
| MarkerRecord.WholeMeshNameNeverMatchesUpdate | src/markers/Marker.js:369-371 | A non-empty resource stored under its whole name never equals what `update` recomputes with `substr(10)`. |
| MarkerRecord.ScaleOf | src/markers/Marker.js:135-140 | `msgScale` has three components. They are `scale.x, scale.y, scale.z` when the message has a scale, and all 1 otherwise. |
| MarkerRecord.ScaleChanged | src/markers/Marker.js:479-482 | The scale counts as changed exactly when some component differs from the stored one by more than 1e-6. A stored scale equal to the message scale is never changed. |
| MarkerRecord.ColorChanged | src/markers/Marker.js:429-432 | The colour counts as changed exactly when the two RGBA colours differ. |
| MarkerRecord.Tints | src/markers/Marker.js:363-366 | A mesh gets the colour material exactly when the colour is not all-zero. |
| PointLists.StepSize | src/markers/Marker.js:231 | The step is `ceil(n / 1250)`: zero exactly for an empty list, otherwise the least step with `step * 1250 >= n`. |
| PointLists.StrideFrom | src/markers/Marker.js:235 | The loop's indices from `p` on all lie in `[p, n)`. The first one is `p` when `p < n`, and there are none otherwise. |
| PointLists.Visited | src/markers/Marker.js:228-235 | Every visited index is below `n`, and a non-empty list starts at index 0. |
| PointLists.VisitedAt | src/markers/Marker.js:235 | The `k`-th visited index is `k * step`, so every visited index is a multiple of the step and below `n`. |
| PointLists.VisitedDivisible | src/markers/Marker.js:266 | Every visited index is divisible by the step. |
| PointLists.VisitedIncreasing | src/markers/Marker.js:235 | Visited indices strictly increase, so no index is visited twice. |
| PointLists.VisitedComplete | src/markers/Marker.js:228-235 | Every multiple of the step below `n` is visited. |
| PointLists.VisitedAtMost | src/markers/Marker.js:230-231 | At most 1250 indices are visited, however long the list. |
| PointLists.SmallListVisitsAll | src/markers/Marker.js:259-266 | For `0 < n <= 1250` the step is 1, and the visited indices are exactly `0, 1, ..., n-1`, each once. |
| PointLists.ElementAt | src/markers/Marker.js:238-248 | An element has the point's position and the message scale. It has the point's own colour exactly when there is one colour per point, and the message colour otherwise. |
| PointLists.SubsampledElementsAt | src/markers/Marker.js:270-283 | An empty cube or sphere list has no elements. Any list has at most 1250 elements, and element `k` is built from point `k * step`. |
| PointLists.Subsample | src/markers/Marker.js:223-253 | The constructor's stride loop builds exactly the subsampled elements, in visiting order. It needs the message scale only when the list has a point. |
| PointLists.VertexColoringChoice | src/markers/Marker.js:302-311 | Per-vertex colours are used exactly when `colors.length == points.length`. Vertex `k` then gets colour `k`'s RGB. Otherwise the material gets the message colour's RGB. |
| PointLists.VertexColors | src/markers/Marker.js:70-80 | The colour loop of lines and point clouds builds exactly that colouring. |
| Markers.Marker.constructor | src/markers/Marker.js:123-395 | The record holds the message scale (or 1,1,1), the message colour, a mesh name only for mesh resources, and no text. The position is the message position. The children are the line or point colouring, the subsampled list, or the mesh name and path. |
| Markers.Marker.SetPose | src/markers/Marker.js:403-407 | The position becomes the pose's position, and nothing else changes. |
| Markers.Marker.Update | src/markers/Marker.js:424-521 | The position always becomes the message position. The colour is replaced exactly when it changed and the type is recolourable. A colour change for a cube list, sphere list or unknown type returns false with colour and scale untouched, before the message scale is read. Otherwise the scale becomes the message scale. The result is true exactly when the declarative reuse decision holds. |
| Markers.AlwaysRebuilt | src/markers/Marker.js:507-515 | Arrows, line strips, line lists, cube lists, sphere lists, points and triangle lists are never patched in place. |
| Markers.ShapesRebuiltWhenScaled | src/markers/Marker.js:486-492 | A cube, sphere or cylinder is patched in place exactly when no scale component moved by more than 1e-6. |
| Markers.MeshRebuiltWhenRenamedOrScaled | src/markers/Marker.js:498-506 | A mesh resource is patched in place exactly when `substr(10)` of its resource equals the stored name and the scale did not move. |
| Markers.UnknownRebuiltWhenRecoloured | src/markers/Marker.js:471-472 | A message of unknown type is patched in place exactly when its colour is unchanged. |
| Markers.TextMarkersAlwaysRebuilt | src/markers/Marker.js:493-496 | A text marker is never patched in place, because the marker's `text` is never assigned. |
| Markers.ResendDecision | src/markers/Marker.js:478-520 | Re-sending the message a marker was built from patches it in place exactly in these cases: a cube, sphere, cylinder or unknown type; or a mesh resource that had its `package://` prefix stripped with a base path, or is empty. |

## Left out

- Scene-graph construction: meshes, geometries, materials, arrows, mesh loaders, triangle lists, `makeColorMaterial`. These are calls into the rendering library. The constructor records only what the file computes for them (`Content`), and arrows, shapes, triangle lists and text sprites are one opaque `Primitive`.
- The `three.meshline` variants of line strips and line lists. They are modelled only as using the single message colour.
- The point-copying loops of lines and point clouds (lines 19-21, 40-42, 65-67, 94-96, 296-298). They only hand the points to the rendering library.
- Text sprite rendering (lines 316-359): canvas, font metrics and the sprite are DOM and library work. A non-empty text is a `Primitive`, an empty one `Empty`.
- Arrow geometry from two points (lines 151-184), including `direction.length()`. This is floating-point and library numerics.
- SetPose: the orientation, its quaternion normalisation and `updateMatrixWorld` are not modelled; only the position is copied.
- Update: the material swap over the children (`traverse`, lines 449-465) is not modelled. Note that the mesh branch at line 459 reads `this.colorMaterial`, which nothing in this file assigns.
- Markers.Marker.Update: requires a message with a scale unless the colour step returns first (`UpdateReadsScaleSafely`). A colour change on a cube list, sphere list or unknown type returns at line 470 or 472, before line 480 reads `message.scale.x`. In every other case line 480 throws on a message without a scale, and the model does not represent that throw.
- Markers.Marker.constructor: requires a scale exactly for the messages whose construction reads it (`ReadsScale`). These are every known type except an empty text, and a cube or sphere list only when it has a point, because lines 236 and 277-279 read the scale inside the stride loops. A missing scale would throw there, and that throw is not modelled.
- `dispose` (lines 526-554): releasing GPU resources of library objects.
- `console.error` for unsupported types: the type is modelled as `Unknown`, and the log line is left out.
- The numeric values of the `ROS3D.MARKER_*` constants: they are defined outside this file, so the model uses the `MarkerType` datatype instead.
- Strings are sequences of Unicode code points, while JavaScript's `length` and `substr` count UTF-16 code units. So `SubstrFrom`, `SubstrPrefix`, `Substr10`, `NormalizePath`'s last-character test and `MeshName`'s prefix test give different offsets for characters outside the Basic Multilingual Plane. For example, a resource of five emoji followed by "abc" is 10 code units before "abc" in JavaScript but only 5 characters here.
- JavaScript doubles: numbers are reals, so rounding and NaN (for which `!==` always holds) are not modelled.
