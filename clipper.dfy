/** The polygon offset engine as the callback sees it: integer polygons, the
    engine's join and end vocabularies, the shape of an offset request, and
    the three engine calls, each opaque. */
module Clipper {
  import opened Wrappers
  import opened JsNumbers

  datatype IntPoint = IntPoint(x: int, y: int)

  type Polygon = seq<IntPoint>

  datatype JoinType = Square | Round | Miter

  datatype EndType = ClosedPolygon | ClosedLine | OpenButt | OpenSquare | OpenRound

  datatype OffsetInput = OffsetInput(joinType: JoinType, endType: EndType, data: Polygon)

  /** The argument of `offsetToPaths`; `delta` is whatever number the caller
      supplied, scaled, so it may be infinite. */
  datatype OffsetParams = OffsetParams(
    delta: Number,
    miterLimit: real,
    arcTolerance: real,
    offsetInputs: seq<OffsetInput>)

  /** The engine handle passed to `clipperOffset`: `cleanPolygon` and
      `cleanPolygons` drop near-duplicate vertices closer than the given
      distance, `offsetToPaths` returns the offset rings or nothing. */
  datatype Engine = Engine(
    cleanPolygon: (Polygon, real) -> Polygon,
    offsetToPaths: OffsetParams -> Option<seq<Polygon>>,
    cleanPolygons: (seq<Polygon>, real) -> seq<Polygon>)
}
