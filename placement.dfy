/**
 * The fully resolved description of each patch, and the nine-patch plan that
 * one generation draws. These functions are the specification that the
 * stateful planner in module Identicon is proved against.
 *
 * Cell positions are in patch units (0, 1 or 2 on each axis); the outline is in
 * scale units around the cell centre, as in module Catalog.
 */
module Placement {
  import opened Catalog
  import opened Fields

  /**
   * Which paint fills a region: `Foreground` is the colour derived from the
   * hash code (`_color`), `Background` the configured background colour.
   */
  datatype Tone = Foreground | Background

  /** One resolved patch: the data `_renderPatch` hands to the canvas. */
  datatype PatchInstance = PatchInstance(
    position: Position,
    x: nat,
    y: nat,
    patchType: nat,
    turn: nat,
    invert: bool,
    cellFill: Tone,
    shapeFill: Tone,
    outline: seq<Point>)

  /** The grid column or row a `_render` argument names: null is the centre, 1. */
  function CellIndex(param: Option<nat>): nat
  {
    match param
    case None => 1
    case Some(k) => k
  }

  /**
   * `_resolvePatchParam`: a non-zero cell index is multiplied by the patch size,
   * zero stays at 0, and a missing index (null) means the centre column or row.
   */
  function ResolvePatchParam(param: Option<nat>, patchSize: nat): (r: nat)
    ensures r == CellIndex(param) * patchSize
  {
    match param
    case Some(k) =>
      if k != 0 then k * patchSize else 0
    case None => patchSize
  }

  /**
   * The invert rule of `_renderPatch`: the category's flag, negated exactly
   * when the shape is catalog type 15.
   */
  function EffectiveInvert(patchType: nat, flag: bool): (b: bool)
    ensures b != flag <==> patchType == 15
  {
    if patchType != 15 then flag else !flag
  }

  /**
   * The patch `_renderPatch` draws for kind `position` at cell (x, y) when the
   * rotation counter it reads holds `counter` (0 for the middle patch).
   */
  function Instance(h: bv32, position: Position, x: nat, y: nat, counter: nat): PatchInstance
  {
    var patch := ResolveType(h, position) % |PatchTypes()|;
    var invert := EffectiveInvert(patch, ResolveInvert(h, position));
    PatchInstance(
      position, x, y, patch, counter % 4, invert,
      if invert then Foreground else Background,
      if invert then Background else Foreground,
      Outline(PatchTypes()[patch]))
  }

  /**
   * What a resolved patch is: the type its kind selects (a valid catalog
   * index), the counter's value mod 4 as its turn, the category's invert bit
   * negated exactly for type 15, a cell fill and a shape fill that are always
   * opposite tones (foreground cell when inverted), and the catalog outline of
   * its type.
   */
  lemma InstanceResolution(h: bv32, position: Position, x: nat, y: nat, counter: nat)
    ensures var p := Instance(h, position, x, y, counter);
      && p.position == position && p.x == x && p.y == y
      && p.patchType == ResolveType(h, position) && p.patchType < |PatchTypes()|
      && p.turn < 4 && p.turn == counter % 4
      && p.invert == (Bit(h, InvertBit(position)) != (p.patchType == 15))
      && p.cellFill != p.shapeFill
      && p.cellFill == (if p.invert then Foreground else Background)
      && p.outline == Outline(PatchTypes()[p.patchType])
  {
  }

  /**
   * `_render`: the middle patch, then the sides (top, right, bottom, left),
   * then the corners (top-left, top-right, bottom-right, bottom-left), when the
   * side and corner counters start at `side` and `corner`.
   */
  function PlanFrom(h: bv32, side: nat, corner: nat): (plan: seq<PatchInstance>)
    ensures |plan| == 9
  {
    [ Instance(h, Middle, 1, 1, 0),
      Instance(h, Side, 1, 0, side),
      Instance(h, Side, 2, 1, side + 1),
      Instance(h, Side, 1, 2, side + 2),
      Instance(h, Side, 0, 1, side + 3),
      Instance(h, Corner, 0, 0, corner),
      Instance(h, Corner, 2, 0, corner + 1),
      Instance(h, Corner, 2, 2, corner + 2),
      Instance(h, Corner, 0, 2, corner + 3) ]
  }

  /** `generate`: the nine patches drawn for hash code `h`, counters freshly seeded. */
  function Plan(h: bv32): (plan: seq<PatchInstance>)
    ensures |plan| == 9
    ensures plan[1].turn == SideSeed(h) as int && plan[5].turn == CornerSeed(h) as int
  {
    PlanFrom(h, SideSeed(h) as int, CornerSeed(h) as int)
  }

  /** The counter value the `i`-th call of `_render` reads. */
  function CounterAt(i: nat, side: nat, corner: nat): nat
  {
    if i == 0 then 0 else if i < 5 then side + (i - 1) else corner + (i - 5)
  }

  /** The kind of patch the `i`-th call of `_render` draws. */
  function PositionAt(i: nat): Position
  {
    if i == 0 then Middle else if i < 5 then Side else Corner
  }

  /** The cell column and row the `i`-th call of `_render` draws in. */
  function CellAt(i: nat): (nat, nat)
    requires i < 9
  {
    [(1, 1), (1, 0), (2, 1), (1, 2), (0, 1), (0, 0), (2, 0), (2, 2), (0, 2)][i]
  }

  /** Entry `i` of a plan is the patch the `i`-th call resolves. */
  lemma PlanEntry(h: bv32, side: nat, corner: nat, i: nat)
    requires i < 9
    ensures |PlanFrom(h, side, corner)| == 9
    ensures PlanFrom(h, side, corner)[i] == Instance(h, PositionAt(i), CellAt(i).0, CellAt(i).1, CounterAt(i, side, corner))
  {
  }

  /**
   * Every patch of a plan is resolved as `Instance` describes: sides all take
   * the side type and corners the corner type, each patch's invert flag is its
   * category bit negated exactly for type 15, and its two fills are opposite.
   */
  lemma PlanPatchFacts(h: bv32, side: nat, corner: nat, i: nat)
    requires i < 9
    ensures |PlanFrom(h, side, corner)| == 9
    ensures var p := PlanFrom(h, side, corner)[i];
      && p.position == PositionAt(i)
      && p.patchType == ResolveType(h, p.position)
      && p.turn == CounterAt(i, side, corner) % 4
      && p.invert == (Bit(h, InvertBit(p.position)) != (p.patchType == 15))
      && p.cellFill != p.shapeFill
      && p.cellFill == (if p.invert then Foreground else Background)
  {
    PlanEntry(h, side, corner, i);
    InstanceResolution(h, PositionAt(i), CellAt(i).0, CellAt(i).1, CounterAt(i, side, corner));
  }

  /** The turns the four patches of one kind receive, in drawing order. */
  function Turns(plan: seq<PatchInstance>, first: nat): (ts: seq<nat>)
    requires first + 4 <= |plan|
    ensures |ts| == 4
  {
    [plan[first].turn, plan[first + 1].turn, plan[first + 2].turn, plan[first + 3].turn]
  }

  /** Taking a counter mod 4 before or after adding a small step agrees. */
  lemma ModShift(c: nat, k: nat)
    requires k < 4
    ensures (c + k) % 4 == (c % 4 + k) % 4
  {
  }

  /** Starting from any quarter turn, four successive turns visit each one once. */
  lemma QuarterTurnsFrom(r: nat)
    requires r < 4
    ensures multiset{r, (r + 1) % 4, (r + 2) % 4, (r + 3) % 4} == multiset{0, 1, 2, 3}
  {
    if r == 1 {
      assert (r + 1) % 4 == 2 && (r + 2) % 4 == 3 && (r + 3) % 4 == 0;
      QuarterTurnsFromOne();
    } else if r == 2 {
      assert (r + 1) % 4 == 3 && (r + 2) % 4 == 0 && (r + 3) % 4 == 1;
      QuarterTurnsFromTwo();
    } else if r == 3 {
      assert (r + 1) % 4 == 0 && (r + 2) % 4 == 1 && (r + 3) % 4 == 2;
      QuarterTurnsFromThree();
    }
  }

  lemma QuarterTurnsFromOne()
    ensures multiset{1, 2, 3, 0} == multiset{0, 1, 2, 3}
  {
  }

  lemma QuarterTurnsFromTwo()
    ensures multiset{2, 3, 0, 1} == multiset{0, 1, 2, 3}
  {
  }

  lemma QuarterTurnsFromThree()
    ensures multiset{3, 0, 1, 2} == multiset{0, 1, 2, 3}
  {
  }

  /** Four consecutive counter values, taken mod 4, hit each quarter turn once. */
  lemma ConsecutiveTurnsArePermutation(c: nat)
    ensures multiset{c % 4, (c + 1) % 4, (c + 2) % 4, (c + 3) % 4} == multiset{0, 1, 2, 3}
  {
    ModShift(c, 1);
    ModShift(c, 2);
    ModShift(c, 3);
    QuarterTurnsFrom(c % 4);
  }

  /**
   * Rotation progression: the middle patch is never turned; the sides receive
   * turns side, side+1, side+2, side+3 (mod 4) in drawing order, and the
   * corners likewise from their own counter.
   */
  lemma PlanTurnOrder(h: bv32, side: nat, corner: nat)
    ensures |PlanFrom(h, side, corner)| == 9
    ensures PlanFrom(h, side, corner)[0].turn == 0
    ensures Turns(PlanFrom(h, side, corner), 1) == [side % 4, (side + 1) % 4, (side + 2) % 4, (side + 3) % 4]
    ensures Turns(PlanFrom(h, side, corner), 5) == [corner % 4, (corner + 1) % 4, (corner + 2) % 4, (corner + 3) % 4]
  {
  }

  /** Each group of four (sides, corners) receives every quarter turn exactly once. */
  lemma PlanTurnsArePermutations(h: bv32, side: nat, corner: nat)
    ensures |PlanFrom(h, side, corner)| == 9
    ensures multiset(Turns(PlanFrom(h, side, corner), 1)) == multiset{0, 1, 2, 3}
    ensures multiset(Turns(PlanFrom(h, side, corner), 5)) == multiset{0, 1, 2, 3}
  {
    PlanTurnOrder(h, side, corner);
    ConsecutiveTurnsArePermutation(side);
    ConsecutiveTurnsArePermutation(corner);
  }

  /** A side seed of 1 gives the sides the turns 1, 2, 3, 0 in drawing order. */
  lemma SideSeedOneExample(h: bv32)
    requires SideSeed(h) == 1
    ensures Turns(Plan(h), 1) == [1, 2, 3, 0]
  {
    PlanTurnOrder(h, 1, CornerSeed(h) as int);
  }

  /**
   * Placement: the nine patches occupy the nine cells of the 3x3 grid, each
   * cell exactly once; the middle patch sits in the centre, the sides in the
   * edge-centre cells and the corners in the corner cells.
   */
  lemma PlanCoversGrid(h: bv32, side: nat, corner: nat)
    ensures |PlanFrom(h, side, corner)| == 9
    ensures forall i :: 0 <= i < 9 ==> PlanFrom(h, side, corner)[i].x < 3 && PlanFrom(h, side, corner)[i].y < 3
    ensures forall i, j :: 0 <= i < j < 9 ==>
      (PlanFrom(h, side, corner)[i].x, PlanFrom(h, side, corner)[i].y) != (PlanFrom(h, side, corner)[j].x, PlanFrom(h, side, corner)[j].y)
    ensures forall cx: nat, cy: nat :: cx < 3 && cy < 3 ==> HasCell(PlanFrom(h, side, corner), cx, cy)
    ensures forall i :: 0 <= i < 9 ==>
      var p := PlanFrom(h, side, corner)[i];
      (p.position == Middle <==> p.x == 1 && p.y == 1) &&
      (p.position == Corner <==> p.x != 1 && p.y != 1)
  {
    var plan := PlanFrom(h, side, corner);
    forall cx: nat, cy: nat | cx < 3 && cy < 3
      ensures HasCell(plan, cx, cy)
    {
      var i := if cy == 1 then (if cx == 1 then 0 else if cx == 2 then 2 else 4)
               else if cy == 0 then (if cx == 1 then 1 else if cx == 0 then 5 else 6)
               else (if cx == 1 then 3 else if cx == 2 then 7 else 8);
      assert plan[i].x == cx && plan[i].y == cy;
    }
  }

  /** Some patch of `plan` sits in cell (cx, cy). */
  predicate HasCell(plan: seq<PatchInstance>, cx: nat, cy: nat)
  {
    exists i :: 0 <= i < |plan| && plan[i].x == cx && plan[i].y == cy
  }

  /** Patch `p` covers pixel (px, py) when its cells are `size` pixels wide. */
  predicate Covers(p: PatchInstance, size: nat, px: int, py: int)
  {
    p.x * size <= px < p.x * size + size && p.y * size <= py < p.y * size + size
  }

  /**
   * When the canvas edge is a multiple of 3, so that a patch is `size` pixels,
   * the nine cells tile the canvas: each pixel lies in exactly one of them.
   */
  lemma PlanTilesCanvas(h: bv32, side: nat, corner: nat, size: nat, px: int, py: int)
    requires size > 0
    requires 0 <= px < 3 * size && 0 <= py < 3 * size
    ensures exists i :: 0 <= i < 9 && Covers(PlanFrom(h, side, corner)[i], size, px, py)
    ensures forall i, j ::
      (0 <= i < 9 && 0 <= j < 9 &&
       Covers(PlanFrom(h, side, corner)[i], size, px, py) && Covers(PlanFrom(h, side, corner)[j], size, px, py)) ==> i == j
  {
    var plan := PlanFrom(h, side, corner);
    PlanCoversGrid(h, side, corner);
    var cx := if px < size then 0 else if px < 2 * size then 1 else 2;
    var cy := if py < size then 0 else if py < 2 * size then 1 else 2;
    assert HasCell(plan, cx, cy);
    var i :| 0 <= i < 9 && plan[i].x == cx && plan[i].y == cy;
    assert Covers(plan[i], size, px, py);
    forall j | 0 <= j < 9 && Covers(plan[j], size, px, py)
      ensures j == i
    {
      CellOfPixel(plan[j].x, size, px);
      CellOfPixel(plan[j].y, size, py);
    }
  }

  /** A pixel coordinate lies in the cell with index `c` only if `c` is its cell. */
  lemma CellOfPixel(c: nat, size: nat, v: int)
    requires size > 0 && c < 3
    requires c * size <= v < c * size + size
    ensures c == (if v < size then 0 else if v < 2 * size then 1 else 2)
  {
  }

  /** The pixel at which each patch's outline vertex is drawn, in scale units. */
  function Placed(p: PatchInstance, k: nat): (q: Point)
    requires k < |p.outline|
  {
    var r := Rotated(p.outline[k], p.turn);
    Point(4 * p.x + 2 + r.x, 4 * p.y + 2 + r.y)
  }

  /**
   * Every patch of a plan draws its polygon inside its own cell: the catalog
   * shapes lie in the cell and a quarter-turn rotation about the centre keeps them there.
   */
  lemma PlanShapesStayInCells(h: bv32, side: nat, corner: nat, i: nat, k: nat)
    requires i < 9
    ensures |PlanFrom(h, side, corner)| == 9
    ensures |PlanFrom(h, side, corner)[i].outline| >= 3
    ensures k < |PlanFrom(h, side, corner)[i].outline| ==>
      var p := PlanFrom(h, side, corner)[i];
      4 * p.x <= Placed(p, k).x <= 4 * p.x + 4 && 4 * p.y <= Placed(p, k).y <= 4 * p.y + 4
  {
    PlanEntry(h, side, corner, i);
    InstanceResolution(h, PositionAt(i), CellAt(i).0, CellAt(i).1, CounterAt(i, side, corner));
    var p := PlanFrom(h, side, corner)[i];
    CatalogOutlinesInCell(p.patchType);
    if k < |p.outline| {
      RotatedStaysInCell(p.outline[k], p.turn);
    }
  }

  /** The planner's state as a value: the hash code, both counters and what is drawn. */
  datatype PlannerState = PlannerState(code: bv32, sideTurn: nat, cornerTurn: nat, trace: seq<PatchInstance>)

  /** The counter a patch of kind `position` reads; the middle patch reads none. */
  function CounterOf(s: PlannerState, position: Position): nat
  {
    match position
    case Middle => 0
    case Side => s.sideTurn
    case Corner => s.cornerTurn
  }

  /**
   * One `_renderPatch` call as a state change: the patch reads the counter of
   * its kind (the middle patch reads none), that counter goes up by one, and the
   * resolved patch is appended to what is drawn.
   */
  function Step(s: PlannerState, x: Option<nat>, y: Option<nat>, position: Position): PlannerState
  {
    PlannerState(s.code,
      s.sideTurn + (if position == Side then 1 else 0),
      s.cornerTurn + (if position == Corner then 1 else 0),
      s.trace + [Instance(s.code, position, CellIndex(x), CellIndex(y), CounterOf(s, position))])
  }

  /**
   * One step appends exactly one patch and keeps what was drawn before. The
   * middle patch is never turned and leaves both counters alone; a side or
   * corner patch is turned by its counter's value mod 4, and that counter
   * alone goes up by one.
   */
  lemma StepAdvancesOneCounter(s: PlannerState, x: Option<nat>, y: Option<nat>, position: Position)
    ensures var t := Step(s, x, y, position);
      && t.code == s.code
      && |t.trace| == |s.trace| + 1 && t.trace[..|s.trace|] == s.trace
      && t.trace[|s.trace|].position == position
      && t.trace[|s.trace|].turn < 4
      && (position == Middle ==> (t.trace[|s.trace|].turn == 0
                                  && t.sideTurn == s.sideTurn && t.cornerTurn == s.cornerTurn))
      && (position == Side ==> (t.trace[|s.trace|].turn == s.sideTurn % 4
                                && t.sideTurn == s.sideTurn + 1 && t.cornerTurn == s.cornerTurn))
      && (position == Corner ==> (t.trace[|s.trace|].turn == s.cornerTurn % 4
                                  && t.cornerTurn == s.cornerTurn + 1 && t.sideTurn == s.sideTurn))
  {
    InstanceResolution(s.code, position, CellIndex(x), CellIndex(y), CounterOf(s, position));
  }

  /** The nine `_renderPatch` calls of `_render`, in the source's order. */
  function RenderSteps(s: PlannerState): PlannerState
  {
    var s1 := Step(s, None, None, Middle);
    var s2 := Step(s1, None, Some(0), Side);
    var s3 := Step(s2, Some(2), None, Side);
    var s4 := Step(s3, None, Some(2), Side);
    var s5 := Step(s4, Some(0), None, Side);
    var s6 := Step(s5, Some(0), Some(0), Corner);
    var s7 := Step(s6, Some(2), Some(0), Corner);
    var s8 := Step(s7, Some(2), Some(2), Corner);
    Step(s8, Some(0), Some(2), Corner)
  }

  /**
   * The nine steps draw exactly the plan, after what was already drawn, and
   * leave each counter four higher.
   */
  lemma RenderStepsDrawPlan(s: PlannerState)
    ensures RenderSteps(s) == PlannerState(s.code, s.sideTurn + 4, s.cornerTurn + 4, s.trace + PlanFrom(s.code, s.sideTurn, s.cornerTurn))
  {
  }
}
