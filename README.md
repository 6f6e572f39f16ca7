# Offset callback of paper-clipper, modelled in Dafny

`clipperOffset(clipper)` returns a callback that offsets a vector path by a
signed distance. The callback does little geometry itself: it checks and
normalises its second argument, flattens a copy of the path, scales the
points to engine integers (times 1000, rounded) and cleans them, makes one
request to the polygon offset engine with the path's join, end type and miter
limit, cleans the rings the engine returns, rebuilds one closed path per ring
(coordinates divided by 1000), runs each through the selected simplifier and
keeps the paths whose `length` is above 3. This project models that glue
and treats the geometry as opaque functions.

Modules:

- `Wrappers`: `Option` and `Result`.
- `JsNumbers`: JavaScript numbers as finite reals, the two infinities and NaN,
  with `isNaN`, truthiness, comparison and scaling by a positive constant.
- `Paper`: points, segments, stroke join and cap, the state of a path, and the
  `Path` class whose fields the callback reads and assigns (constructor,
  `Clone`, `Flatten`). The library's `flatten` and `length` are opaque
  functions in a `Library` record.
- `Clipper`: engine points, polygons, join and end types, the offset request,
  and the engine's `cleanPolygon`, `offsetToPaths` and `cleanPolygons` as
  opaque functions in an `Engine` record.
- `Styles`: the `JoinTypes` and `EndTypes` tables.
- `Scaling`: `Math.round`, scaling into the engine and back.
- `Options`: the argument check, the normalisation of a bare number, and the
  resolution of the `simplify` option. The built-in simplifier and its default
  tolerance are opaque, in a `Fitter` record.
- `Offset`: `OffsetPaths`, a pure statement of what the callback resolves to
  or rejects with, the lemmas about it, and the callback itself
  (`ClipperOffset`, with `NewRingPath` and `BuildPaths`), which creates and
  fills new `Path` objects and is proved to produce exactly the states
  `OffsetPaths` gives.

Three behaviours of the code that are easy to miss:

- The argument check refuses only NaN, not every non-finite value, so
  `Infinity` is accepted (`Options.InfinityIsAccepted`).
- The options object's `tolerance` field is never read. Only the positional
  `tolerance` argument, or its default, reaches the built-in simplifier
  (`Offset.ToleranceFieldIsIgnored`).
- The final filter tests the path's `length` property (the measured length of
  the path), truthy and greater than 3. It does not count vertices.

## Model

| member | source | states |
|---|---|---|
| `JsNumbers.Times` | src/offset.ts:69-70 | scaling a number by the positive factor keeps NaN as NaN and keeps infinities infinite, and dividing by the factor gives back the original number |
| `JsNumbers.ExceedsIsTruthy` | src/offset.ts:134 | for a length compared with 3, the truthiness test adds nothing: `l && l > 3` holds exactly when `l > 3` |
| `Styles.JoinTypeOf` | src/offset.ts:16-20 | miter, round and bevel map to Miter, Round and Square; reading the engine join back gives the path's join |
| `Styles.JoinTypeOfIsBijective` | src/offset.ts:16-20 | the join table is one-to-one and onto: a join maps to an engine join exactly when that engine join stands for it |
| `Styles.EndTypeOf` | src/offset.ts:9-14 | the end type is ClosedPolygon exactly when the path is closed, whatever the cap; for an open path it gives back the cap (round, square, butt); ClosedLine is never used |
| `Scaling.MathRound` | src/offset.ts:62-63 | `Math.round` gives an integer within half a unit of its argument, halves going up |
| `Scaling.MathRoundIsUnique` | src/offset.ts:62-63 | no other integer is that close, so the rounding is fully determined |
| `Scaling.UnscaleScaleIsNear` | src/offset.ts:61-64 | scaling a point into the engine and back moves each coordinate by at most 1/2000 |
| `Scaling.ScaleUnscaleIsExact` | src/offset.ts:124-127 | an engine point divided by 1000 and scaled again is that same point |
| `Scaling.ScalePoint` | src/offset.ts:62-63 | each coordinate becomes `Math.round(v * 1000)`, the integer within half a unit of `v * 1000`, halves going up |
| `Scaling.UnscalePoint` | src/offset.ts:125-126 | each coordinate becomes `v / 1000`, the real that gives back the engine integer when multiplied by 1000 |
| `Scaling.ScaleAll` | src/offset.ts:61-64 | the engine input has one point per flattened segment, in order, each the scaled point of its segment and so within half an engine unit of it |
| `Scaling.UnscaleAll` | src/offset.ts:124-127 | the rebuilt segments are one handle-free corner per ring point, in ring order, at that point divided by 1000, and they scale back to exactly the ring |
| `Options.Offered` | src/offset.ts:43-44 | the number an argument offers is a bare number itself or an object's own `offset`; there is none for a non-numeric value or an object without `offset` |
| `Options.Normalise` | src/offset.ts:43-56 | throws exactly when the argument offers no number or offers NaN, with the usage message; the object form wins and is used as given; a bare number n becomes `{offset: n}` with no tolerance and `simplify` undefined |
| `Options.InfinityIsAccepted` | src/offset.ts:43-46 | positive and negative infinity pass the check, bare or in an object |
| `Options.Resolve` | src/offset.ts:106-116 | a function option is used as given; `undefined` or `true` selects the built-in simplifier at the positional tolerance; every other value, `false` included, selects no simplification |
| `Options.ResolvedSimplifierEffect` | src/offset.ts:106-133 | applied to a path, the three choices give the function's result, the built-in simplifier's result, or the path itself |
| `Offset.Request` | src/offset.ts:68-81 | exactly one offset input, carrying the cleaned scaled points; delta, miter limit and arc tolerance read back in plane units as the offset, the path's miter limit and 0.01; its join and end type give back the path's join, closedness and cap |
| `Offset.Rebuild` | src/offset.ts:119-131 | the path built from a ring is closed, with round cap and join and the library's default miter limit, and its segments are the ring's points divided by 1000, in ring order, which scale back to exactly the ring |
| `Offset.Candidates` | src/offset.ts:118-133 | there is one candidate per ring, and the candidate at each position is the rebuilt ring at that position passed through the simplifier |
| `Offset.Keep` | src/offset.ts:134 | the filter never lengthens its input |
| `Offset.KeepMembers` | src/offset.ts:134 | the filter keeps exactly the paths whose length is truthy and greater than 3 |
| `Offset.KeepIsSubsequence` | src/offset.ts:134 | the filter keeps the surviving paths in their original order |
| `Offset.KeepAppend` | src/offset.ts:134 | filtering one more path at the end appends it exactly when its length passes |
| `Offset.OffsetPaths` | src/offset.ts:38-135 | the callback rejects exactly when the argument check fails, always with the usage message; otherwise the engine gets the copy's segments flattened at 0.01, scaled and cleaned at 10 engine units, and every path it resolves to has a length that passes the filter |
| `Offset.RejectionPrecedesAllWork` | src/offset.ts:43-50 | a refused argument is refused whatever the path, the tolerance and the engine or library behaviour, so nothing else is consulted |
| `Offset.BareNumberIsOffsetOption` | src/offset.ts:52-56 | a bare number and an object holding only that offset give the same result, whatever the object's `tolerance` field holds; for NaN both are the same rejection |
| `Offset.OmittedToleranceIsDefault` | src/offset.ts:41 | leaving out the positional `tolerance` gives the same result as passing the simplifier's default tolerance |
| `Offset.ToleranceFieldIsIgnored` | src/offset.ts:41 | changing the options object's `tolerance` field never changes the result |
| `Offset.NoResultIsEmpty` | src/offset.ts:82-104 | when the engine returns no result, the callback resolves to no paths rather than failing |
| `Offset.OutputsFollowRings` | src/offset.ts:118-134 | the outputs are exactly the filtered candidates of the cleaned engine rings, each as often as it passes, in ring order; so every output is the rebuilt and simplified path of one cleaned ring, and every ring whose simplified path passes the filter appears |
| `Offset.UnsimplifiedOutputsAreEngineRings` | src/offset.ts:110-134 | with `simplify` set to a value that is not a function, `undefined` or `true`, every output is closed with round cap and join and scales back to one cleaned engine ring, vertex for vertex |
| `Offset.ClipperOffset` | src/offset.ts:38-135 | the callback leaves the caller's path unchanged, rejects exactly as `OffsetPaths` does, and otherwise resolves to new path objects whose states are exactly the states `OffsetPaths` gives |
| `Offset.NewRingPath` | src/offset.ts:119-133 | a new path object is made for the ring, styled and filled as `Rebuild` says, and then holds the simplifier's result |
| `Offset.BuildPaths` | src/offset.ts:118-134 | the new path objects, one per ring in order, whose states are the filtered simplified rebuilt rings |
| `Paper.Path.Clone` | src/offset.ts:58 | the copy is a new object with the same segments and style |
| `Paper.Path.Flatten` | src/offset.ts:59 | flattening replaces only the segments, by the library's flattening of the path at the given flatness |
| `Paper.Path.constructor` | src/offset.ts:120 | a new path has no segments, is open and has the library's default style |

## Left out

- `paper.setup()` at module load: a global side effect of the path library.
- The unused `simplifyJsTolerance` constant and the commented-out union and hole-removal block: they do nothing.
- The geometry of the collaborators: flattening, measuring a path's length, `cleanPolygon`, `offsetToPaths`, `cleanPolygons` and the built-in simplifier are opaque, total functions with no contract, and the default tolerance is an opaque value. Exceptions they might throw are not modelled.
- `async` and the promise: the callback is a plain method whose outcome is either a rejection or the resolved paths.
- Floating point: coordinates, offsets and miter limits are exact reals, so the rounding of `v * 1000` and `v / 1000` in binary floating point, and the engine's integer range, are not modelled.
- JavaScript coercion in `isNaN` and in arithmetic: numeric text, `null` (which fails on reading `offset`), arrays and booleans as the second argument are not modelled. The model's `NonNumeric` stands for every other value that `isNaN` reads as NaN.
- Stroke styles outside the library's three joins and three caps: the model's join and cap types have exactly those values, so the table lookup never misses.
- Object identity of simplifier results: the result of a simplifier is written back into the freshly built path, so a custom simplifier that returns some other, possibly shared, object is modelled only by that object's state.
- Order of collaborator calls: the chained `.map`, `.map` and `.filter` passes are done ring by ring in one loop. Every collaborator is a pure function here, so the result is the same.
- The extra arguments of `.map(simplifyFn)`: the array method also passes the index and the array, so a caller's simplifier that takes a second parameter sees the ring's index. The model's simplifier functions take only the path.
- Effects of a caller's simplifier: a custom function may throw, or change other objects, the caller's path among them. The model's simplifier functions are pure and total, so `Offset.ClipperOffset`'s promise that the caller's path is unchanged holds only for such simplifiers.
- The path library's project and its current style, which new paths copy: `clone()` and `new Path()` insert the new path into the library's active project by default, and `new Path()` takes that project's current style. The model's `Path` has no parent or project, so the flattened copy and the built paths that stay in that project are not modelled, and a new path always gets the library's default style (butt cap, miter join, miter limit 10).
