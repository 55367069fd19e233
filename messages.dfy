/**
 * The parts of a visualization marker message that the marker's bookkeeping reads.
 * Numbers are modelled as reals; strings as sequences of characters.
 */
module Messages {
  import opened Wrappers

  datatype Vector3 = Vector3(x: real, y: real, z: real)

  datatype Quaternion = Quaternion(x: real, y: real, z: real, w: real)

  datatype Pose = Pose(position: Vector3, orientation: Quaternion)

  datatype ColorRGBA = ColorRGBA(r: real, g: real, b: real, a: real)

  /** The twelve marker kinds the file handles, and every other type value. */
  datatype MarkerType =
    | Arrow
    | Cube
    | Sphere
    | Cylinder
    | LineStrip
    | LineList
    | CubeList
    | SphereList
    | Points
    | TextViewFacing
    | MeshResource
    | TriangleList
    | Unknown

  /**
   * A marker message. `scale` is optional because the constructor tests for its
   * presence; `text` and `meshResource` are always strings in a marker message.
   */
  datatype MarkerMsg = MarkerMsg(
    markerType: MarkerType,
    pose: Pose,
    scale: Option<Vector3>,
    color: ColorRGBA,
    points: seq<Vector3>,
    colors: seq<ColorRGBA>,
    text: string,
    meshResource: string)
}
