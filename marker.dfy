/**
 * The marker object: the record it keeps of the message it was built from, the
 * children it computes for point-based types, and the reuse-or-rebuild decision
 * `update` makes when a new message for the same marker arrives.
 */
module Markers {
  import opened Wrappers
  import opened Messages
  import opened MarkerRecord
  import opened PointLists

  /**
   * What the constructor adds as children, as far as the file computes it. The
   * scene objects themselves belong to the rendering library.
   */
  datatype Content =
    | Primitive                                  // arrow, cube, sphere, cylinder, triangle list, text sprite
    | Line(coloring: Coloring)                   // line strip or line list
    | Particles(coloring: Coloring)              // points
    | Elements(elements: seq<ListElement>)       // cube list or sphere list
    | Mesh(path: Option<string>, resource: string, tinted: bool)
    | Empty                                      // empty text or an unsupported type

  /**
   * The messages whose construction reads `message.scale`: every known type
   * except an empty text, and a cube or sphere list only when it has a point.
   */
  predicate ReadsScale(msg: MarkerMsg) {
    match msg.markerType
    case Unknown => false
    case TextViewFacing => |msg.text| > 0
    case CubeList | SphereList => |msg.points| > 0
    case _ => true
  }

  /** The types whose colour change `update` records: all but cube lists, sphere lists and unknown types. */
  predicate Recolourable(t: MarkerType) {
    !(t.CubeList? || t.SphereList? || t.Unknown?)
  }

  /** The children the constructor builds for `msg`, given the normalised path. */
  function ContentOf(path: Option<string>, msg: MarkerMsg, useMeshLine: bool): (c: Content)
    requires ReadsScale(msg) ==> msg.scale.Some?
  {
    match msg.markerType
    case LineStrip | LineList =>
      Line(if useMeshLine then Uniform(RgbOf(msg.color))
           else VertexColoring(msg.points, msg.colors, msg.color))
    case Points => Particles(VertexColoring(msg.points, msg.colors, msg.color))
    case CubeList | SphereList =>
      Elements(SubsampledElements(msg.points, msg.colors, msg.color, msg.scale))
    case TextViewFacing => if |msg.text| > 0 then Primitive else Empty
    case MeshResource =>
      var named := MeshName(path, msg.meshResource);
      Mesh(named.1, named.0, Tints(msg.color))
    case Unknown => Empty
    case Arrow | Cube | Sphere | Cylinder | TriangleList => Primitive
  }

  /** The mesh name the constructor stores: only mesh resources have one. */
  function StoredMesh(path: Option<string>, msg: MarkerMsg): (mesh: Option<string>) {
    if msg.markerType.MeshResource? then Some(MeshName(path, msg.meshResource).0) else None
  }

  /**
   * A colour change on a cube list, sphere list or unknown type makes `update`
   * return before it reads the message scale.
   */
  predicate RejectedOnColour(color: ColorRGBA, msg: MarkerMsg) {
    ColorChanged(msg.color, color) && !Recolourable(msg.markerType)
  }

  /** `update` reads the message scale unless it returns on the colour change first. */
  predicate UpdateReadsScaleSafely(color: ColorRGBA, msg: MarkerMsg) {
    msg.scale.Some? || RejectedOnColour(color, msg)
  }

  /**
   * Whether `update` patches a marker whose record is (`color`, `scale`, `mesh`,
   * `text`) in place when `msg` arrives, rather than asking for a rebuild.
   */
  predicate PatchedInPlace(color: ColorRGBA, scale: seq<real>, mesh: Option<string>,
                           text: Option<string>, msg: MarkerMsg)
    requires |scale| == 3 && UpdateReadsScaleSafely(color, msg)
  {
    && !RejectedOnColour(color, msg)
    && var scaleChanged := ScaleChanged(scale, msg.scale.value);
       match msg.markerType
       case Cube | Sphere | Cylinder => !scaleChanged
       case TextViewFacing => !scaleChanged && text == Some(msg.text)
       case MeshResource => mesh == Some(Substr10(msg.meshResource)) && !scaleChanged
       case Unknown => true
       case Arrow | LineStrip | LineList | CubeList | SphereList | Points | TriangleList => false
  }

  /** Arrows, lines, lists, points and triangle lists are always rebuilt. */
  lemma AlwaysRebuilt(color: ColorRGBA, scale: seq<real>, mesh: Option<string>,
                      text: Option<string>, msg: MarkerMsg)
    requires |scale| == 3 && UpdateReadsScaleSafely(color, msg)
    requires msg.markerType in {Arrow, LineStrip, LineList, CubeList, SphereList, Points, TriangleList}
    ensures !PatchedInPlace(color, scale, mesh, text, msg)
  {
  }

  /** Cubes, spheres and cylinders are rebuilt exactly when some scale component moved by more than the tolerance. */
  lemma ShapesRebuiltWhenScaled(color: ColorRGBA, scale: seq<real>, mesh: Option<string>,
                                text: Option<string>, msg: MarkerMsg)
    requires |scale| == 3 && msg.scale.Some?
    requires msg.markerType in {Cube, Sphere, Cylinder}
    ensures PatchedInPlace(color, scale, mesh, text, msg) <==> !ScaleChanged(scale, msg.scale.value)
  {
  }

  /**
   * A mesh resource is rebuilt exactly when its resource with the first 10
   * characters dropped is not the stored name, or its scale moved.
   */
  lemma MeshRebuiltWhenRenamedOrScaled(color: ColorRGBA, scale: seq<real>, mesh: Option<string>,
                                       text: Option<string>, msg: MarkerMsg)
    requires |scale| == 3 && msg.scale.Some?
    requires msg.markerType == MeshResource
    ensures PatchedInPlace(color, scale, mesh, text, msg) <==>
              mesh == Some(Substr10(msg.meshResource)) && !ScaleChanged(scale, msg.scale.value)
  {
  }

  /** A message of an unknown type is patched exactly when its colour is unchanged. */
  lemma UnknownRebuiltWhenRecoloured(color: ColorRGBA, scale: seq<real>, mesh: Option<string>,
                                     text: Option<string>, msg: MarkerMsg)
    requires |scale| == 3 && UpdateReadsScaleSafely(color, msg)
    requires msg.markerType == Unknown
    ensures PatchedInPlace(color, scale, mesh, text, msg) <==> color == msg.color
  {
  }

  /**
   * Re-sending the message a marker was built from: it is patched in place only
   * for cubes, spheres, cylinders and unknown types, and for a mesh resource
   * whose name had its `package://` prefix stripped (or is empty). A mesh stored
   * under its whole name is rebuilt every time, and so is every text marker.
   */
  lemma ResendDecision(path: Option<string>, msg: MarkerMsg)
    requires msg.scale.Some?
    ensures PatchedInPlace(msg.color, ScaleOf(msg.scale), StoredMesh(NormalizePath(path), msg), None, msg)
            <==> || msg.markerType in {Cube, Sphere, Cylinder, Unknown}
                 || (msg.markerType == MeshResource &&
                     ((Truthy(path) && HasPackagePrefix(msg.meshResource)) || msg.meshResource == []))
  {
  }

  class Marker {
    var msgScale: seq<real>
    var msgColor: ColorRGBA
    var msgMesh: Option<string>
    /** Read by `update` for text markers but never assigned, so always undefined. */
    var text: Option<string>
    var position: Vector3
    var content: Content

    ghost predicate Valid()
      reads this
    {
      |msgScale| == 3 && text == None
    }

    /** Builds the marker for `msg`; `path` is the base path for mesh files. */
    constructor (path: Option<string>, msg: MarkerMsg, useMeshLine: bool)
      requires ReadsScale(msg) ==> msg.scale.Some?
      ensures Valid()
      ensures msgScale == ScaleOf(msg.scale)
      ensures msgColor == msg.color
      ensures msgMesh == StoredMesh(NormalizePath(path), msg)
      ensures position == msg.pose.position
      ensures content == ContentOf(NormalizePath(path), msg, useMeshLine)
    {
      var resourcePath := NormalizePath(path);
      var mesh: Option<string> := None;
      var built: Content;
      match msg.markerType {
        case LineStrip | LineList =>
          if useMeshLine {
            built := Line(Uniform(RGB(msg.color.r, msg.color.g, msg.color.b)));
          } else {
            var coloring := VertexColors(msg.points, msg.colors, msg.color);
            built := Line(coloring);
          }
        case Points =>
          var coloring := VertexColors(msg.points, msg.colors, msg.color);
          built := Particles(coloring);
        case CubeList | SphereList =>
          var elements := Subsample(msg.points, msg.colors, msg.color, msg.scale);
          built := Elements(elements);
        case TextViewFacing =>
          built := if |msg.text| > 0 then Primitive else Empty;
        case MeshResource =>
          var name: string;
          if Truthy(resourcePath) && SubstrPrefix(msg.meshResource, 10) == PackagePrefix {
            name := SubstrFrom(msg.meshResource, 10);
          } else {
            name := msg.meshResource;
            resourcePath := None;
          }
          mesh := Some(name);
          built := Mesh(resourcePath, name, Tints(msg.color));
        case Unknown =>
          built := Empty;
        case Arrow | Cube | Sphere | Cylinder | TriangleList =>
          built := Primitive;
      }
      msgScale := ScaleOf(msg.scale);
      msgColor := msg.color;
      msgMesh := mesh;
      text := None;
      position := msg.pose.position;
      content := built;
    }

    /** Copies the position of `pose`; the orientation is not modelled. */
    method SetPose(pose: Pose)
      modifies this`position
      ensures position == pose.position
    {
      position := Vector3(pose.position.x, pose.position.y, pose.position.z);
    }

    /**
     * Applies `msg` to this marker: returns true when the marker was patched in
     * place and false when the caller has to rebuild it.
     */
    method Update(msg: MarkerMsg) returns (patched: bool)
      requires Valid()
      requires UpdateReadsScaleSafely(msgColor, msg)
      modifies this
      ensures Valid()
      ensures position == msg.pose.position
      ensures msgMesh == old(msgMesh) && text == old(text) && content == old(content)
      ensures msgColor ==
                if ColorChanged(msg.color, old(msgColor)) && Recolourable(msg.markerType)
                then msg.color else old(msgColor)
      ensures RejectedOnColour(old(msgColor), msg) ==> !patched && msgScale == old(msgScale)
      ensures !RejectedOnColour(old(msgColor), msg) ==> msgScale == ScaleOf(msg.scale)
      ensures patched == PatchedInPlace(old(msgColor), old(msgScale), old(msgMesh), old(text), msg)
    {
      SetPose(msg.pose);

      if ColorChanged(msg.color, msgColor) {
        match msg.markerType {
          case LineStrip | LineList | Points =>
          case Arrow | Cube | Sphere | Cylinder | TriangleList | TextViewFacing =>
            // the children's materials are replaced; not modelled
          case MeshResource =>
            // the children's materials are replaced; not modelled
          case CubeList | SphereList =>
            return false;
          case Unknown =>
            return false;
        }
        msgColor := msg.color;
      }

      var scale := msg.scale.value;
      var scaleChanged := ScaleChanged(msgScale, scale);
      msgScale := [scale.x, scale.y, scale.z];

      match msg.markerType {
        case Cube | Sphere | Cylinder =>
          if scaleChanged {
            return false;
          }
        case TextViewFacing =>
          if scaleChanged || text != Some(msg.text) {
            return false;
          }
        case MeshResource =>
          var meshResource := Substr10(msg.meshResource);
          if Some(meshResource) != msgMesh {
            return false;
          }
          if scaleChanged {
            return false;
          }
        case Arrow | LineStrip | LineList | CubeList | SphereList | Points | TriangleList =>
          return false;
        case Unknown =>
      }
      return true;
    }
  }

  /** A text marker is always rebuilt, because the marker's `text` is never assigned. */
  lemma TextMarkersAlwaysRebuilt(m: Marker, msg: MarkerMsg)
    requires m.Valid() && UpdateReadsScaleSafely(m.msgColor, msg)
    requires msg.markerType == TextViewFacing
    ensures !PatchedInPlace(m.msgColor, m.msgScale, m.msgMesh, m.text, msg)
  {
  }
}
