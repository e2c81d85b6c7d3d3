/**
 * The coordinate-reshaping part of the AutoCAD converter
 * (Objects/Converters/ConverterAutoCAD/ConverterAutoCADShared/ConverterAutoCAD.Geometry.cs):
 * Speckle stores points as one flat list of coordinates, x y z x y z ..., which the
 * converter cuts into triples going to AutoCAD and flattens again coming back.
 * Coordinates are an abstract type and `ScaleToNative` is a function parameter, so
 * nothing here depends on floating-point arithmetic.
 */
module AutocadGeometry {
  import opened Wrappers

  /** A double-precision coordinate or weight; no arithmetic on it is modelled. */
  type Coord(0, ==, !new)

  /** `ScaleToNative(value, units)`: a Speckle length scaled to the drawing's units. */
  type Scale = (Coord, string) -> Coord

  datatype Point3d = Point3d(x: Coord, y: Coord, z: Coord)
  datatype Vector3d = Vector3d(x: Coord, y: Coord, z: Coord)
  datatype Interval = Interval(start: Coord, end: Coord)
  datatype ControlPoint = ControlPoint(x: Coord, y: Coord, z: Coord, weight: Coord, units: string)

  /** The exceptions the conversions below can raise. */
  datatype GeometryError =
    | MalformedArray    // "Array malformed: length%3 != 0."
    | IndexOutOfRange   // an index past the end of an array or list

  /** Speckle's curve kinds, as `CurveToNative` tells them apart. */
  datatype SpeckleLine = SpeckleLine(value: seq<Coord>, units: string, domain: Option<Interval>)
  datatype SpecklePolyline = SpecklePolyline(value: seq<Coord>, closed: bool, units: string, domain: Option<Interval>)
  datatype SpeckleNurbs = SpeckleNurbs(points: seq<Coord>, weights: seq<Coord>, knots: seq<Coord>, units: string, domain: Option<Interval>)
  datatype ICurve =
    | Circle
    | Arc
    | Ellipse(firstRadius: Option<Coord>, secondRadius: Option<Coord>)
    | Curve(nurbs: SpeckleNurbs)
    | Polyline(polyline: SpecklePolyline)
    | Line(line: SpeckleLine)
    | Polycurve
    | OtherCurve

  /** A NURBS curve built by the AutoCAD geometry kernel. */
  type NurbCurve3d

  /** AutoCAD's curves; `interval` is the domain set with `SetInterval`, if any. */
  datatype Curve3d =
    | Line3d(start: Point3d, end: Point3d, interval: Option<Interval>)
    | PolylineCurve3d(vertices: seq<Point3d>, interval: Option<Interval>)
    | Nurbs(curve: NurbCurve3d)

  function PointToArray(pt: Point3d): seq<Coord>
  {
    [pt.x, pt.y, pt.z]
  }

  function VectorToArray(vc: Vector3d): seq<Coord>
  {
    [vc.x, vc.y, vc.z]
  }

  /** `ArrayToVector`: the first three entries; a shorter array is indexed past its end. */
  function ArrayToVector(arr: seq<Coord>): (r: Result<Vector3d, GeometryError>)
    ensures r.Failure? <==> |arr| < 3
    ensures r.Failure? ==> r.error == IndexOutOfRange
    ensures r.Success? ==> VectorToArray(r.value) == arr[..3]
  {
    if |arr| < 3 then Failure(IndexOutOfRange) else Success(Vector3d(arr[0], arr[1], arr[2]))
  }

  lemma VectorRoundTrip(vc: Vector3d)
    ensures ArrayToVector(VectorToArray(vc)) == Success(vc)
  {
  }

  function ScalePoint(p: Point3d, units: string, scale: Scale): Point3d
  {
    Point3d(scale(p.x, units), scale(p.y, units), scale(p.z, units))
  }

  /** Every coordinate scaled, in place. */
  function ScaleAll(arr: seq<Coord>, units: string, scale: Scale): (r: seq<Coord>)
    ensures |r| == |arr| && forall i :: 0 <= i < |arr| ==> r[i] == scale(arr[i], units)
  {
    seq(|arr|, i requires 0 <= i < |arr| => scale(arr[i], units))
  }

  /** The flat list cut into consecutive triples, each coordinate scaled. */
  function ScaledPoints(arr: seq<Coord>, units: string, scale: Scale): (pts: seq<Point3d>)
    requires |arr| % 3 == 0
    ensures |pts| == |arr| / 3
    ensures forall k :: 0 <= k < |pts| ==>
      pts[k] == Point3d(scale(arr[3 * k], units), scale(arr[3 * k + 1], units), scale(arr[3 * k + 2], units))
    decreases |arr|
  {
    if arr == [] then []
    else
      var rest := ScaledPoints(arr[3..], units, scale);
      var pts := [Point3d(scale(arr[0], units), scale(arr[1], units), scale(arr[2], units))] + rest;
      assert forall k :: 1 <= k < |pts| ==> pts[k] == rest[k - 1] && arr[3..][3 * (k - 1)] == arr[3 * k];
      pts
  }

  /** What `PointListToNative` returns or throws. */
  function PointList(arr: seq<Coord>, units: string, scale: Scale): (r: Result<seq<Point3d>, GeometryError>)
    ensures r.Failure? <==> |arr| % 3 != 0
    ensures r.Failure? ==> r.error == MalformedArray
  {
    if |arr| % 3 != 0 then Failure(MalformedArray) else Success(ScaledPoints(arr, units, scale))
  }

  /**
   * `PointListToNative`: rejects a list whose length is not a multiple of three,
   * otherwise fills an array of `|arr| / 3` points with the two-index loop.
   */
  method PointListToNative(arr: seq<Coord>, units: string, scale: Scale) returns (r: Result<seq<Point3d>, GeometryError>)
    ensures r == PointList(arr, units, scale)
  {
    var count := |arr|;
    if count % 3 != 0 {
      return Failure(MalformedArray);
    }
    var points := new Point3d[count / 3];
    var i, k := 2, 0;
    while i < count
      invariant i == 3 * k + 2 && 0 <= k <= count / 3
      invariant forall j :: 0 <= j < k ==>
        points[j] == Point3d(scale(arr[3 * j], units), scale(arr[3 * j + 1], units), scale(arr[3 * j + 2], units))
    {
      points[k] := Point3d(scale(arr[i - 2], units), scale(arr[i - 1], units), scale(arr[i], units));
      i, k := i + 3, k + 1;
    }
    assert points[..] == ScaledPoints(arr, units, scale);
    return Success(points[..]);
  }

  /** `PointsToFlatArray`: x, y and z of every point, point after point. */
  function PointsToFlatArray(points: seq<Point3d>): (r: seq<Coord>)
    ensures |r| == 3 * |points|
  {
    if points == [] then [] else PointToArray(points[0]) + PointsToFlatArray(points[1..])
  }

  /** Point `k` sits at positions `3k`, `3k + 1` and `3k + 2` of the flat list. */
  lemma {:induction false} FlatArrayAt(points: seq<Point3d>, k: nat)
    requires k < |points|
    ensures var r := PointsToFlatArray(points);
      r[3 * k] == points[k].x && r[3 * k + 1] == points[k].y && r[3 * k + 2] == points[k].z
  {
    if k > 0 {
      FlatArrayAt(points[1..], k - 1);
    }
  }

  /** Cutting into points and flattening again gives back the coordinates, scaled. */
  lemma FlatArrayRoundTrip(arr: seq<Coord>, units: string, scale: Scale)
    requires |arr| % 3 == 0
    ensures PointsToFlatArray(ScaledPoints(arr, units, scale)) == ScaleAll(arr, units, scale)
  {
    var pts := ScaledPoints(arr, units, scale);
    var flat := PointsToFlatArray(pts);
    forall i | 0 <= i < |arr| ensures flat[i] == scale(arr[i], units) {
      var k := i / 3;
      FlatArrayAt(pts, k);
      if i == 3 * k {
      } else if i == 3 * k + 1 {
      } else {
        assert i == 3 * k + 2;
      }
    }
  }

  /** Flattening points and cutting them again gives back the points, scaled. */
  lemma PointListRoundTrip(points: seq<Point3d>, units: string, scale: Scale)
    ensures var r := PointList(PointsToFlatArray(points), units, scale);
      && r.Success? && |r.value| == |points|
      && forall k :: 0 <= k < |points| ==> r.value[k] == ScalePoint(points[k], units, scale)
  {
    var flat := PointsToFlatArray(points);
    assert |flat| % 3 == 0;
    var pts := ScaledPoints(flat, units, scale);
    forall k | 0 <= k < |points| ensures pts[k] == ScalePoint(points[k], units, scale) {
      FlatArrayAt(points, k);
    }
  }

  /** `LineToNative`: a line from the first two points; the other coordinates are ignored. */
  function LineToNative(line: SpeckleLine, scale: Scale): (r: Result<Curve3d, GeometryError>)
    ensures |line.value| % 3 != 0 ==> r == Failure(MalformedArray)
    ensures r.Success? <==> |line.value| % 3 == 0 && |line.value| >= 6
    ensures r.Success? ==> r.value == Line3d(
      Point3d(scale(line.value[0], line.units), scale(line.value[1], line.units), scale(line.value[2], line.units)),
      Point3d(scale(line.value[3], line.units), scale(line.value[4], line.units), scale(line.value[5], line.units)),
      line.domain)
  {
    var pts :- PointList(line.value, line.units, scale);
    if |pts| < 2 then Failure(IndexOutOfRange) else Success(Line3d(pts[0], pts[1], line.domain))
  }

  /** `PolylineToNative`: the points, and the first one again at the end when the polyline is closed. */
  function PolylineToNative(polyline: SpecklePolyline, scale: Scale): (r: Result<Curve3d, GeometryError>)
    ensures |polyline.value| % 3 != 0 ==> r == Failure(MalformedArray)
    ensures r.Success? <==> |polyline.value| % 3 == 0 && (polyline.closed ==> |polyline.value| >= 3)
    ensures r.Success? ==> r.value.PolylineCurve3d? && r.value.interval == polyline.domain
    ensures r.Success? ==>
      var n := |polyline.value| / 3;
      var vs := r.value.vertices;
      && |vs| == n + (if polyline.closed then 1 else 0)
      && (forall k :: 0 <= k < n ==> vs[k] == Point3d(scale(polyline.value[3 * k], polyline.units),
                                                       scale(polyline.value[3 * k + 1], polyline.units),
                                                       scale(polyline.value[3 * k + 2], polyline.units)))
      && (polyline.closed ==> vs[n] == vs[0])
  {
    var points :- PointList(polyline.value, polyline.units, scale);
    if !polyline.closed then Success(PolylineCurve3d(points, polyline.domain))
    else if |points| == 0 then Failure(IndexOutOfRange)
    else Success(PolylineCurve3d(points + [points[0]], polyline.domain))
  }

  /**
   * `CurveToNative`: lines, polylines and NURBS curves go to their converters; circles,
   * arcs, ellipses, polycurves and every other curve give null.
   */
  function CurveToNative(curve: ICurve, nurbsToNative: SpeckleNurbs -> Result<NurbCurve3d, GeometryError>, scale: Scale)
    : (r: Result<Option<Curve3d>, GeometryError>)
    ensures r == Success(None) <==> curve.Circle? || curve.Arc? || curve.Ellipse? || curve.Polycurve? || curve.OtherCurve?
    ensures r.Failure? ==> curve.Line? || curve.Polyline? || curve.Curve?
    ensures r.Success? && r.value.Some? ==>
      && (r.value.value.Line3d? <==> curve.Line?)
      && (r.value.value.PolylineCurve3d? <==> curve.Polyline?)
      && (r.value.value.Nurbs? <==> curve.Curve?)
    ensures curve.Line? ==> r.Success? == LineToNative(curve.line, scale).Success?
    ensures curve.Polyline? ==> r.Success? == PolylineToNative(curve.polyline, scale).Success?
    ensures curve.Line? ==> r == (match LineToNative(curve.line, scale)
                                  case Success(l) => Success(Some(l))
                                  case Failure(e) => Failure(e))
    ensures curve.Polyline? ==> r == (match PolylineToNative(curve.polyline, scale)
                                      case Success(p) => Success(Some(p))
                                      case Failure(e) => Failure(e))
    ensures curve.Curve? ==> r == (match nurbsToNative(curve.nurbs)
                                   case Success(n) => Success(Some(Nurbs(n)))
                                   case Failure(e) => Failure(e))
  {
    match curve
    case Circle => Success(None)
    case Arc => Success(None)
    case Ellipse(_, _) => Success(None)
    case Curve(crv) =>
      var n :- nurbsToNative(crv);
      Success(Some(Nurbs(n)))
    case Polyline(polyline) =>
      var p :- PolylineToNative(polyline, scale);
      Success(Some(p))
    case Line(line) =>
      var l :- LineToNative(line, scale);
      Success(Some(l))
    case Polycurve => Success(None)
    case OtherCurve => Success(None)
  }

  /**
   * `ControlPointsToSpeckle`: copies the points and the weights into lists and
   * then returns an empty list of control-point rows whatever they were.
   */
  method ControlPointsToSpeckle(points: seq<Point3d>, weights: seq<Coord>) returns (controlPoints: seq<seq<ControlPoint>>)
    ensures |controlPoints| == 0
  {
    var pointList: seq<Point3d> := [];
    var weightList: seq<Coord> := [];
    for i := 0 to |points| {
      pointList := pointList + [points[i]];
    }
    for i := 0 to |weights| {
      weightList := weightList + [weights[i]];
    }
    controlPoints := [];
  }
}
