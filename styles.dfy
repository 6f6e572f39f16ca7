/** The `JoinTypes` and `EndTypes` tables: how a path's stroke style is told
    to the offset engine. */
module Styles {
  import opened Wrappers
  import opened Paper
  import opened Clipper

  /** The stroke join an engine join type stands for (the inverse table). */
  function StrokeJoinOf(t: JoinType): StrokeJoin {
    match t
    case Miter => MiterJoin
    case Round => RoundJoin
    case Square => BevelJoin
  }

  /** The open-path cap an engine end type stands for; the closed end types
      stand for no cap. */
  function CapOf(e: EndType): Option<StrokeCap> {
    match e
    case OpenRound => Some(RoundCap)
    case OpenSquare => Some(SquareCap)
    case OpenButt => Some(ButtCap)
    case _ => None
  }

  /** `JoinTypes[strokeJoin]`: miter to Miter, round to Round, bevel to
      Square. No two joins share an engine join type. */
  function JoinTypeOf(j: StrokeJoin): (t: JoinType)
    ensures StrokeJoinOf(t) == j
  {
    match j
    case MiterJoin => Miter
    case RoundJoin => Round
    case BevelJoin => Square
  }

  /** `closed ? EndTypes.closed : EndTypes[strokeCap]`: a closed path is a
      closed polygon whatever its cap; an open path's cap is kept. */
  function EndTypeOf(closed: bool, cap: StrokeCap): (e: EndType)
    ensures e == ClosedPolygon <==> closed
    ensures !closed ==> CapOf(e) == Some(cap)
    ensures e != ClosedLine
  {
    if closed then ClosedPolygon
    else match cap
      case RoundCap => OpenRound
      case SquareCap => OpenSquare
      case ButtCap => OpenButt
  }

  /** Every engine join type is reached, by exactly the join it stands for. */
  lemma JoinTypeOfIsBijective(j: StrokeJoin, t: JoinType)
    ensures JoinTypeOf(j) == t <==> StrokeJoinOf(t) == j
  {
  }
}
