/** The fixed-point conversion between plane coordinates and the engine's
    integers: multiply by `Scale` and round on the way in, divide on the way
    out. */
module Scaling {
  import opened Paper
  import opened Clipper

  const Scale: int := 1000

  /** `Math.round`: the nearest integer, halves rounded towards +infinity. */
  function MathRound(x: real): (n: int)
    ensures n as real - 0.5 <= x < n as real + 0.5
  {
    (x + 0.5).Floor
  }

  /** Only one integer is that close, so `MathRound` is fully determined. */
  lemma MathRoundIsUnique(x: real, m: int)
    requires m as real - 0.5 <= x < m as real + 0.5
    ensures MathRound(x) == m
  {
  }

  /** Two reals at most half an engine unit apart, in plane units. */
  predicate Near(a: real, b: real) {
    -0.0005 <= a - b <= 0.0005
  }

  /** `{x: Math.round(x * scale), y: Math.round(y * scale)}`: each
      coordinate becomes the integer nearest to it times 1000, halves going
      up. */
  function ScalePoint(p: Point): (q: IntPoint)
    ensures q.x == MathRound(p.x * 1000.0) && q.y == MathRound(p.y * 1000.0)
    ensures q.x as real - 0.5 <= p.x * 1000.0 < q.x as real + 0.5
    ensures q.y as real - 0.5 <= p.y * 1000.0 < q.y as real + 0.5
  {
    IntPoint(MathRound(p.x * Scale as real), MathRound(p.y * Scale as real))
  }

  /** `{x: x / scale, y: y / scale}`: each coordinate is the one that is
      the engine's integer when multiplied by 1000. */
  function UnscalePoint(q: IntPoint): (p: Point)
    ensures p.x * 1000.0 == q.x as real && p.y * 1000.0 == q.y as real
  {
    Point(q.x as real / Scale as real, q.y as real / Scale as real)
  }

  /** Into the engine and back loses at most half an engine unit per
      coordinate. */
  lemma UnscaleScaleIsNear(p: Point)
    ensures Near(UnscalePoint(ScalePoint(p)).x, p.x)
    ensures Near(UnscalePoint(ScalePoint(p)).y, p.y)
  {
  }

  /** Out of the engine and back in is exact. */
  lemma ScaleUnscaleIsExact(q: IntPoint)
    ensures ScalePoint(UnscalePoint(q)) == q
  {
  }

  /** The scaled anchor points of a flattened path: one per segment, in
      order, each the scaled point of its segment and so within half an
      engine unit of it. */
  function ScaleAll(segments: seq<Segment>): (data: Polygon)
    ensures |data| == |segments|
    ensures forall k :: 0 <= k < |data| ==> data[k] == ScalePoint(segments[k].point)
    ensures forall k :: 0 <= k < |data| ==>
      Near(UnscalePoint(data[k]).x, segments[k].point.x) &&
      Near(UnscalePoint(data[k]).y, segments[k].point.y)
  {
    if segments == [] then []
    else
      UnscaleScaleIsNear(segments[0].point);
      [ScalePoint(segments[0].point)] + ScaleAll(segments[1..])
  }

  /** The segments built from an engine ring: one handle-free corner per
      ring point, in ring order, at that point divided by 1000; they scale
      back to exactly the ring. */
  function UnscaleAll(ring: Polygon): (segments: seq<Segment>)
    ensures |segments| == |ring|
    ensures forall k :: 0 <= k < |segments| ==> segments[k] == Corner(UnscalePoint(ring[k]))
    ensures ScaleAll(segments) == ring
  {
    if ring == [] then []
    else
      var rest := UnscaleAll(ring[1..]);
      ScaleUnscaleIsExact(ring[0]);
      assert ([Corner(UnscalePoint(ring[0]))] + rest)[1..] == rest;
      [Corner(UnscalePoint(ring[0]))] + rest
  }
}
