/**
 * The pure derivations behind a marker's stored record: JavaScript's
 * `String.prototype.substr` as the file uses it (on code points, not UTF-16 units), the trailing-slash path rule,
 * the `package://` stripping for mesh resources, the default scale, and the two
 * change tests `update` makes.
 */
module MarkerRecord {
  import opened Wrappers
  import opened Messages

  function Min(a: int, b: int): (m: int) { if a <= b then a else b }

  function Max(a: int, b: int): (m: int) { if a <= b then b else a }

  // ---------------------------------------------------------------------------
  // JavaScript strings

  /** `s.substr(start)`: a negative start counts from the end, a large one gives "". */
  function SubstrFrom(s: string, start: int): (r: string)
    ensures |r| <= |s| && r == s[|s| - |r|..]
    ensures 0 <= start ==> |r| == Max(|s| - start, 0)
    ensures start < 0 ==> |r| == Min(-start, |s|)
  {
    var from := if start < 0 then Max(|s| + start, 0) else Min(start, |s|);
    s[from..]
  }

  /** `s.substr(0, length)`: the first `length` characters, or all of a shorter string. */
  function SubstrPrefix(s: string, length: nat): (r: string)
    ensures r <= s
    ensures |r| == Min(length, |s|)
  {
    s[..Min(length, |s|)]
  }

  /** `s.substr(10)`, the expression `update` applies to every mesh resource. */
  function Substr10(s: string): (r: string)
    ensures |s| >= 10 ==> s == s[..10] + r
    ensures |s| < 10 ==> r == []
  {
    SubstrFrom(s, 10)
  }

  /** JavaScript truthiness of an optional string: present and non-empty. */
  predicate Truthy(s: Option<string>) {
    s.Some? && s.value != []
  }

  predicate EndsWithSlash(s: string) {
    s != [] && s[|s| - 1] == '/'
  }

  // ---------------------------------------------------------------------------
  // Resource path

  /** The constructor's trailing-slash rule: a truthy path not ending in '/' gets one. */
  function NormalizePath(path: Option<string>): (r: Option<string>)
    ensures path.None? <==> r.None?
    ensures path.Some? ==> r.value == path.value || r.value == path.value + "/"
    ensures Truthy(path) ==> Truthy(r) && EndsWithSlash(r.value)
    ensures path.Some? && EndsWithSlash(path.value) ==> r == path
    ensures path == Some("") ==> r == path
  {
    if Truthy(path) && SubstrFrom(path.value, |path.value| - 1) != "/" then
      Some(path.value + "/")
    else
      path
  }

  /** Normalising twice is normalising once. */
  lemma NormalizePathIdempotent(path: Option<string>)
    ensures NormalizePath(NormalizePath(path)) == NormalizePath(path)
  {
  }

  // ---------------------------------------------------------------------------
  // Mesh resource name

  const PackagePrefix: string := "package://"

  predicate HasPackagePrefix(resource: string) {
    SubstrPrefix(resource, 10) == PackagePrefix
  }

  /**
   * The stored mesh name and the path handed to the mesh loader: with a truthy
   * path and a `package://` resource the prefix is removed and the path kept;
   * otherwise the whole resource is stored and the path dropped.
   */
  function MeshName(path: Option<string>, resource: string): (r: (string, Option<string>))
    ensures Truthy(path) && HasPackagePrefix(resource) ==>
              PackagePrefix + r.0 == resource && r.1 == path
    ensures !(Truthy(path) && HasPackagePrefix(resource)) ==>
              r.0 == resource && r.1 == None
  {
    if Truthy(path) && SubstrPrefix(resource, 10) == PackagePrefix then
      (SubstrFrom(resource, 10), path)
    else
      (resource, None)
  }

  /** A stripped `package://` name is what `update` recomputes from the same resource. */
  lemma PackagedMeshNameMatchesUpdate(path: Option<string>, resource: string)
    requires Truthy(path) && HasPackagePrefix(resource)
    ensures Substr10(resource) == MeshName(path, resource).0
  {
  }

  /**
   * A resource stored whole is never what `update` recomputes, because `update`
   * drops the first 10 characters of any non-empty resource.
   */
  lemma WholeMeshNameNeverMatchesUpdate(path: Option<string>, resource: string)
    requires !(Truthy(path) && HasPackagePrefix(resource))
    requires resource != []
    ensures Substr10(resource) != MeshName(path, resource).0
  {
  }

  // ---------------------------------------------------------------------------
  // Scale and colour

  /** The stored scale: the message's three components, or 1,1,1 when it has none. */
  function ScaleOf(scale: Option<Vector3>): (s: seq<real>)
    ensures |s| == 3
    ensures scale.Some? ==> s[0] == scale.value.x && s[1] == scale.value.y && s[2] == scale.value.z
    ensures scale.None? ==> forall i | 0 <= i < 3 :: s[i] == 1.0
  {
    match scale
    case Some(v) => [v.x, v.y, v.z]
    case None => [1.0, 1.0, 1.0]
  }

  function Abs(x: real): (a: real) { if x < 0.0 then -x else x }

  /** The tolerance `update` allows each scale component before it counts as changed. */
  const ScaleTolerance: real := 0.000001

  /** Some component of the new scale differs from the stored one by more than the tolerance. */
  function ScaleChanged(stored: seq<real>, scale: Vector3): (r: bool)
    requires |stored| == 3
    ensures r <==> exists i | 0 <= i < 3 :: Abs(stored[i] - ScaleOf(Some(scale))[i]) > ScaleTolerance
    ensures stored == ScaleOf(Some(scale)) ==> !r
  {
    Abs(stored[0] - scale.x) > ScaleTolerance ||
    Abs(stored[1] - scale.y) > ScaleTolerance ||
    Abs(stored[2] - scale.z) > ScaleTolerance
  }

  /** Some component of the two colours differs. */
  function ColorChanged(incoming: ColorRGBA, stored: ColorRGBA): (r: bool)
    ensures r <==> incoming != stored
  {
    incoming.r != stored.r || incoming.g != stored.g ||
    incoming.b != stored.b || incoming.a != stored.a
  }

  /** A colour other than all-zero tints a mesh resource. */
  function Tints(color: ColorRGBA): (r: bool)
    ensures r <==> color != ColorRGBA(0.0, 0.0, 0.0, 0.0)
  {
    color.r != 0.0 || color.g != 0.0 || color.b != 0.0 || color.a != 0.0
  }
}
