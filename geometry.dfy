/** Plain value types shared by the whole model: 2D and 3D coordinates
    (three.js Vector2 / Vector3 / Euler), an Option for JavaScript's null,
    and the loosely typed parameter records the editor stores. */
module Geometry {

  datatype Option<+T> = None | Some(value: T)

  /** A three.js Vector2, as a value: copying one is the JavaScript `clone()`. */
  datatype Vec2 = Vec2(x: real, y: real)

  /** A three.js Vector3, as a value. */
  datatype Vec3 = Vec3(x: real, y: real, z: real)

  /** A three.js Euler: three angles and a rotation order. */
  datatype Euler = Euler(x: real, y: real, z: real, order: string)

  /** One value of a `params` / `surfaceParams` record. */
  datatype ParamValue =
    | Num(n: real)
    | Text(s: string)
    | Flag(b: bool)
    | Curve(data: CurveData)

  /** A plain JavaScript object used as a parameter record. */
  type Params = map<string, ParamValue>

  /** The serialised form of a curve: `{ controlPoints: [{x, y}], closed }`. */
  datatype CurveData = CurveData(controlPoints: seq<Vec2>, closed: bool)

  /** An axis-aligned rectangle `{ min, max, width, height }` (a bounding box
      or the bounds of an unfolded surface). */
  datatype Box = Box(min: Vec2, max: Vec2) {
    function Width(): real { max.x - min.x }
    function Height(): real { max.y - min.y }
  }

  /** Inclusive containment, as both bounding boxes and unfold bounds use it. */
  predicate InsideBounds(p: Vec2, b: Box) {
    b.min.x <= p.x <= b.max.x && b.min.y <= p.y <= b.max.y
  }

  function Min(a: real, b: real): (r: real)
    ensures r <= a && r <= b && (r == a || r == b)
  {
    if a <= b then a else b
  }

  function Max(a: real, b: real): (r: real)
    ensures r >= a && r >= b && (r == a || r == b)
  {
    if a >= b then a else b
  }
}
