/** The part of the vector-path library the offset callback touches: points,
    segments, the stroke style of a path, and the Path object itself, whose
    fields the callback reads and assigns. The library's geometry (flattening,
    measuring) is not modelled: it is given as opaque functions. */
module Paper {
  import opened JsNumbers

  datatype Point = Point(x: real, y: real)

  /** A segment: its anchor point and its two Bezier handles, relative to it. */
  datatype Segment = Segment(point: Point, handleIn: Point, handleOut: Point)

  datatype StrokeJoin = MiterJoin | RoundJoin | BevelJoin

  datatype StrokeCap = RoundCap | SquareCap | ButtCap

  /** Everything about a path that the offset callback reads or writes. */
  datatype PathState = PathState(
    segments: seq<Segment>,
    closed: bool,
    strokeCap: StrokeCap,
    strokeJoin: StrokeJoin,
    miterLimit: real)

  const Origin := Point(0.0, 0.0)

  /** The segment the library builds from a bare `{x, y}`: no handles. */
  function Corner(p: Point): Segment
  {
    Segment(p, Origin, Origin)
  }

  /** The library's style defaults, which a path made with `new Path()` has. */
  const DefaultMiterLimit: real := 10.0
  const NewPathState := PathState([], false, ButtCap, MiterJoin, DefaultMiterLimit)

  /** The library operations the callback calls, each opaque:
      `flatten` gives the segments of a path flattened to the given
      flatness, `length` is the measured length of a path. */
  datatype Library = Library(
    flatten: (PathState, real) -> seq<Segment>,
    length: PathState -> Number)

  class Path {
    var segments: seq<Segment>
    var closed: bool
    var strokeCap: StrokeCap
    var strokeJoin: StrokeJoin
    var miterLimit: real

    function State(): PathState
      reads this
    {
      PathState(segments, closed, strokeCap, strokeJoin, miterLimit)
    }

    /** `new Path()`: no segments, open, default style. */
    constructor ()
      ensures State() == NewPathState
    {
      segments := [];
      closed := false;
      strokeCap := ButtCap;
      strokeJoin := MiterJoin;
      miterLimit := DefaultMiterLimit;
    }

    /** A new, independent path with the same segments and style. */
    method Clone() returns (c: Path)
      ensures fresh(c) && c.State() == State()
    {
      c := new Path();
      c.segments, c.closed := segments, closed;
      c.strokeCap, c.strokeJoin, c.miterLimit := strokeCap, strokeJoin, miterLimit;
    }

    /** Replaces the segments by a polyline that approximates them within
        `flatness`; the style is kept. */
    method Flatten(lib: Library, flatness: real)
      modifies this
      ensures State() == old(State()).(segments := lib.flatten(old(State()), flatness))
    {
      segments := lib.flatten(State(), flatness);
    }

    /** Makes this path take on the segments and style of `s`. */
    method Assign(s: PathState)
      modifies this
      ensures State() == s
    {
      segments, closed := s.segments, s.closed;
      strokeCap, strokeJoin, miterLimit := s.strokeCap, s.strokeJoin, s.miterLimit;
    }
  }

  /** The states of a sequence of paths, in order. */
  function States(ps: seq<Path>): (r: seq<PathState>)
    reads ps
    ensures |r| == |ps|
    ensures forall k :: 0 <= k < |ps| ==> r[k] == ps[k].State()
  {
    seq(|ps|, k reads ps requires 0 <= k < |ps| => ps[k].State())
  }

  /** Appending a path appends its state. */
  lemma StatesAppend(ps: seq<Path>, p: Path)
    ensures States(ps + [p]) == States(ps) + [p.State()]
  {
  }
}
