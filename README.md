# Identicon derivation, modelled in Dafny

`node-identicon` draws a 3x3 grid of square patches, each a polygon taken from
a fixed catalog of sixteen shapes, turned by a multiple of a quarter turn and
painted in one of two tones. Everything about the picture comes from a 32-bit
hash code, which is the first four bytes of the SHA-1 digest of the salt
followed by the message. This project models how the `Identicon` class gets
from that digest to the nine resolved patches, and it proves what the code
promises about them.

The model has four modules:

- `Catalog` (`catalog.dfy`) holds the sixteen shapes (`patchTypes`), the four
  centre types (`centerPatchTypes`) and `_coords`. `_coords` maps a vertex index
  to a point on the 5x5 grid of a cell. Geometry is in integer units: a point
  is written (column − 2, row − 2) in quarter-patch units, centred on its cell.
  This equals the source's `col * scale - offset`, because `offset` is
  `2 * scale`. A quarter turn of the canvas is modelled as `Rotated`.
- `Fields` (`fields.dfy`) holds the hash code (`_hashCode`) and every bit field
  read from it: the colour channels (`_red`, `_green`, `_blue`, `_color`), the
  type selectors (`_resolveType`), the invert bits (`_resolveInvert`) and the
  two turn seeds set by `generate`. In JavaScript the hash code is a signed
  32-bit integer. Every read of it shifts and then masks, so it is modelled as
  a `bv32`, and field contracts are stated bit by bit.
- `Placement` (`placement.dfy`) is the specification side.
  - `Instance` is the patch that `_renderPatch` resolves for one call.
  - `PlanFrom` and `Plan` are the nine patches that `_render` draws.
  - `Step` and `RenderSteps` give one call and the nine calls as changes to a
    `PlannerState` value.
  - The lemmas cover the grid, the turns, the invert rule and the tones.
- `Generator` (`generator.dfy`) is the stateful side: the class `Identicon`.
  - It keeps the hash code, the two rotation counters `_cornerTurn` and
    `_sideTurn`, and `trace`, the patches drawn on the current canvas in
    drawing order.
  - Its methods `ResolveTurn`, `RenderPatch`, `Render` and `Generate` follow
    `_resolveTurn`, `_renderPatch`, `_render` and `generate` statement by
    statement. Each is proved against the functions of `Placement`.
  - The vertex loop of `_renderPatch` is the method `TraceOutline`.

Some behaviours of the code that the model follows:

- An empty message does not make `generate` fail. `_hashCode` and `_color` are
  `null`, and every bitwise read of the `null` hash code sees 0. So the patches
  are those of hash code 0, and the foreground tone is `null`. The model
  follows the code: `HashCode` is `None`, `Numeric(None)` is 0 and `Color(None)`
  is `None`.
- The green channel is bits 21–25 (`>> 21 & 31`), as the code reads it.
- In `_resolveTurn`, the guard `this[prop] === 'undefined'` compares a number
  with a string, so it never holds. The counter step is therefore an
  unconditional read-then-increment.
- `_resolvePatchParam` multiplies a non-zero index by the patch size, keeps 0
  at 0 and maps `null` to one patch size. The model gives positions in patch
  units (0, 1 or 2) and states the rule for any patch size.

## Model

| member | source | states |
|---|---|---|
| Catalog.PatchTypes | Identicon.js:36-53 | the catalog has sixteen shapes, each with at least three vertices, every vertex index in 0..24 |
| Catalog.CenterPatchTypes | Identicon.js:57 | the four centre types, each a valid index into the catalog |
| Catalog.Coords | Identicon.js:206-211 | a vertex maps to column index % 5 and row index div 5, both offset by −2; the column lies in −2..2, and an index below 25 puts the row in −2..2 |
| Catalog.CoordsRoundTrip | Identicon.js:206-211 | the grid point of a vertex gives its index back, and two vertices share a point exactly when they share an index |
| Catalog.Outline | Identicon.js:264-270 | the path of a shape has one point per vertex, in vertex order, each mapped as `_coords` maps it |
| Catalog.CatalogOutlinesInCell | Identicon.js:36-53 | every catalog outline has at least three points and lies within the offset of the cell centre on both axes |
| Catalog.Rotated | Identicon.js:260 | `rotate(turn * Math.PI / 2)` about the cell centre as `turn` quarter turns, each mapping (x, y) to (−y, x); every rotation keeps the point's squared distance from the centre |
| Catalog.RotatedStaysInCell | Identicon.js:259-260 | turning the canvas by any number of quarter turns about the cell centre keeps a point of the cell inside the cell |
| Catalog.RotatedFullTurn | Identicon.js:260 | four quarter turns are the identity, so only the turn mod 4 matters |
| Fields.HashCode | Identicon.js:174-183 | null exactly when the message is empty; otherwise digest bytes 0..3 become the hash code's bytes from most to least significant |
| Fields.Combine | Identicon.js:179-182 | the shifts-and-or puts b0 in the top byte, b1 in the next, then b2, with b3 in the lowest |
| Fields.CombineValue | Identicon.js:179-182 | read as an unsigned 32-bit number, the hash code is b0·2^24 + b1·2^16 + b2·2^8 + b3 (JavaScript's signed `_hashCode` is this minus 2^32 when b0 ≥ 0x80; only the bit pattern is used later) |
| Fields.Numeric | Identicon.js:132-133 | the value the bitwise operators see for the hash code: JavaScript reads a `null` hash code as 0 in `>>` and `&` (also at lines 293-295 and 337-339); a present hash code is read as itself (definition, no contract) |
| Fields.HashCodeExample | Identicon.js:179-182 | a digest starting 01 02 03 04 gives the hash code 0x01020304 |
| Fields.Red5 | Identicon.js:95 | the red field is below 32 and its bits are the hash code's bits 27-31 |
| Fields.Green5 | Identicon.js:102 | the green field is below 32 and its bits are the hash code's bits 21-25 |
| Fields.Blue5 | Identicon.js:109 | the blue field is below 32 and its bits are the hash code's bits 16-20 |
| Fields.Channel | Identicon.js:118 | `<< 3` turns a 5-bit field into a level in 0..248, a multiple of 8, whose eighth is the field |
| Fields.Color | Identicon.js:116-120 | null exactly when there is no hash code; otherwise each channel is its field times 8, at most 248 and a multiple of 8 |
| Fields.FullChannelExample | Identicon.js:116-119 | a red field of 31 gives the red level 248 |
| Fields.MiddleSelector | Identicon.js:337 | the centre selector is below 4 and is bits 0-1 |
| Fields.CornerType | Identicon.js:338 | the corner type is below 16 and is bits 3-6 |
| Fields.SideType | Identicon.js:339 | the side type is below 16 and is bits 10-13 |
| Fields.CornerSeed | Identicon.js:132 | the corner counter's seed is below 4 and is bits 8-9 |
| Fields.SideSeed | Identicon.js:133 | the side counter's seed is below 4 and is bits 15-16 |
| Fields.ResolveType | Identicon.js:335-343 | the middle type is `centerPatchTypes[h & 3]`: selector 0, 1, 2, 3 gives type 0, 4, 8, 15; corner and side types are their 4-bit fields; every result is a catalog index that `% patchTypes.length` leaves unchanged |
| Fields.ResolveInvert | Identicon.js:291-299 | the invert flag is bit 2 for the middle, bit 7 for corners and bit 14 for sides |
| Placement.ResolvePatchParam | Identicon.js:307-310 | the pixel offset is the cell index times the patch size, with null standing for cell 1 and 0 for cell 0 |
| Placement.EffectiveInvert | Identicon.js:248-250 | the effective invert flag differs from the category flag exactly when the type is 15 |
| Placement.Instance | Identicon.js:241-283 | the patch one `_renderPatch` call resolves from the hash code, its kind, its cell and the counter value it reads (definition, no contract; its properties are the contract of `InstanceResolution`) |
| Placement.InstanceResolution | Identicon.js:241-283 | a resolved patch has the resolved type, the counter mod 4 as its turn, the category bit negated exactly for type 15, opposite cell and shape tones (foreground cell when inverted), and the outline of its catalog shape |
| Placement.PlanFrom | Identicon.js:218-231 | the nine patches `_render`'s calls resolve, in call order, when the side and corner counters start at the given values; always nine entries (entry by entry in `PlanEntry`) |
| Placement.PlanEntry | Identicon.js:219-229 | entry i of the plan is the patch that the i-th call of `_render` resolves, with that call's kind, cell and counter value |
| Placement.Plan | Identicon.js:129-137 | after seeding, nine patches are drawn; the first side patch is turned by the side seed and the first corner patch by the corner seed |
| Placement.PlanPatchFacts | Identicon.js:241-250 | every planned patch has its call's kind, the type its kind selects, its call's counter mod 4 as turn, the invert rule, and opposite tones |
| Placement.Step | Identicon.js:241-250 | one `_renderPatch` call as a state change: the resolved patch, read with its kind's counter, is appended, and that counter advances as `_resolveTurn` (lines 318-327) advances it (definition, no contract; its properties are the contract of `StepAdvancesOneCounter`) |
| Placement.StepAdvancesOneCounter | Identicon.js:318-327 | one call appends one patch and keeps the earlier ones; the middle patch gets turn 0 and leaves both counters alone; a side or corner patch gets its counter mod 4 and raises only that counter by 1 |
| Placement.RenderSteps | Identicon.js:218-231 | `_render` as nine `Step`s with the source's arguments in the source's order (definition, no contract; what it draws is the contract of `RenderStepsDrawPlan`) |
| Placement.RenderStepsDrawPlan | Identicon.js:218-231 | the nine calls append exactly the plan and leave each counter four higher |
| Placement.ConsecutiveTurnsArePermutation | Identicon.js:247 | four consecutive counter values mod 4 are a permutation of 0, 1, 2, 3 |
| Placement.PlanTurnOrder | Identicon.js:219-229 | the middle patch has turn 0; the sides in the order top, right, bottom, left get seed, seed+1, seed+2, seed+3 mod 4, and the corners likewise from their own seed |
| Placement.PlanTurnsArePermutations | Identicon.js:221-229 | the four side turns and the four corner turns are each a permutation of 0, 1, 2, 3 |
| Placement.SideSeedOneExample | Identicon.js:133 | a side seed of 1 gives the side patches the turns 1, 2, 3, 0 |
| Placement.PlanCoversGrid | Identicon.js:219-229 | the nine patches occupy the nine cells of the 3x3 grid, each exactly once; the middle patch is at (1,1), and corners are exactly the cells off both centre lines |
| Placement.PlanTilesCanvas | Identicon.js:256 | with cells `size` pixels wide, every pixel of the canvas is covered by exactly one patch's cell |
| Placement.Placed | Identicon.js:259-260 | where outline point k of a patch is drawn: `translate` to the cell centre (4·cell + 2), then `rotate` by the patch's turn, in quarter-patch units (definition, no contract; bounded by `PlanShapesStayInCells`) |
| Placement.PlanShapesStayInCells | Identicon.js:259-270 | every planned patch's outline has at least three points, and each one, after the turn and translation to its cell, lies inside that cell |
| Generator.TraceOutline | Identicon.js:264-270 | the `moveTo`/`lineTo` loop visits every vertex in order and builds exactly the outline |
| Generator.Identicon.constructor | Identicon.js:68-88 | a new identicon has no hash code, both counters at 0 and nothing drawn |
| Generator.Identicon.ResolveTurn | Identicon.js:318-327 | the middle patch gets 0 and changes nothing; a side or corner patch gets its counter's current value, and only that counter goes up by 1 |
| Generator.Identicon.RenderPatch | Identicon.js:241-283 | one call leaves the hash code alone and changes the state exactly as `Step` says: one resolved patch appended, one counter advanced |
| Generator.Identicon.Render | Identicon.js:218-231 | the nine calls in the source's order append exactly the plan for the current counters and raise each counter by 4 |
| Generator.Identicon.Generate | Identicon.js:129-137 | takes the message's hash code, seeds the counters from bits 8-9 and 15-16, clears the canvas and draws exactly `Plan` of the hash code, leaving each counter seed + 4 |
| Generator.GenerateTwice | Identicon.js:129-137 | generating twice from the same message on one instance draws the same nine patches, whatever the first call left in the counters |

## Left out

- The SHA-1 digest (`_hash`, through `crypto.createHash`) is not computed. The digest is an input byte sequence of at least four bytes, given whenever the message is non-empty.
- Canvas work is not modelled: creating the canvas (`_clearCanvas`, including the svg/png choice), `getContext`, `save`/`restore`, `translate`, `rotate`, `fillRect`, `fill` and `toBuffer`. What `_renderPatch` hands to the canvas is recorded as a `PatchInstance`: cell, type, turn, invert flag, the two tones and the outline.
- Fill colours are recorded as tones (foreground is `_color`, background is the configured colour), not as the strings passed to `fillStyle`. With an empty message the foreground colour is `null`, and the model does not say what the canvas makes of that.
- The `rgb(r,g,b)` string of `_color` is modelled as an `Rgb` record of the three levels.
- Floating-point geometry (`edge / 3`, `patchSize / 4`, `turn * Math.PI / 2`) is replaced by integer grid units and quarter-turn counts.
- The callback/Promise return of `generate` is asynchronous plumbing and is left out.
- The constructor's option parsing (`edge`, `format`, `salt`, `backColor`) is left out. The salt only enters through the digest.
- `bin/gen.js` (command-line parsing and file output) is not part of this model.
- Catalog.PatchTypes: whether each shape is a simple polygon is not modelled. Shape 6 visits vertex 22 twice.
- Generator.Identicon.Generate: the model takes a message and its digest together. It does not model `_message` staying set between calls, or the hash code being recomputed on every read.
