/**
 * The stateful part of the `Identicon` class: the two rotation counters that
 * `generate` seeds and `_resolveTurn` advances, and the nine `_renderPatch`
 * calls of `_render`. The canvas is replaced by `trace`, the list of resolved
 * patches in drawing order; creating a fresh canvas empties it.
 */
module Generator {
  import opened Catalog
  import opened Fields
  import opened Placement

  /**
   * The path `_renderPatch` builds for a shape: `moveTo` the first vertex, then
   * `lineTo` each following vertex in order.
   */
  method TraceOutline(vertices: seq<nat>) returns (path: seq<Point>)
    requires |vertices| > 0
    ensures path == Outline(vertices)
  {
    path := [Coords(vertices, 0)];
    var i := 1;
    while i < |vertices|
      invariant 1 <= i <= |vertices|
      invariant |path| == i
      invariant forall k :: 0 <= k < i ==> path[k] == Coords(vertices, k)
    {
      path := path + [Coords(vertices, i)];
      i := i + 1;
    }
  }

  class Identicon {
    /** The hash code of the current message; None (null) before any non-empty message. */
    var hashCode: Option<bv32>
    /** `_cornerTurn`: the next corner patch's rotation counter. */
    var cornerTurn: nat
    /** `_sideTurn`: the next side patch's rotation counter. */
    var sideTurn: nat
    /** The patches drawn on the current canvas, in drawing order. */
    var trace: seq<PatchInstance>

    constructor ()
      ensures hashCode == None && cornerTurn == 0 && sideTurn == 0 && trace == []
    {
      hashCode := None;
      cornerTurn := 0;
      sideTurn := 0;
      trace := [];
    }

    /** The hash code as the bitwise operators see it (null reads as 0). */
    function Code(): bv32
      reads this
    {
      Numeric(hashCode)
    }

    /** The fields `_renderPatch` reads and writes, as one `PlannerState` value. */
    function State(): PlannerState
      reads this
    {
      PlannerState(Code(), sideTurn, cornerTurn, trace)
    }

    /** The counter a patch of kind `position` reads; the middle patch reads none. */
    function Counter(position: Position): nat
      reads this
    {
      CounterOf(State(), position)
    }

    /**
     * `_resolveTurn`: the middle patch gets 0 and leaves both counters alone;
     * a side or corner patch gets its counter's current value, and that counter
     * (only that one) goes up by exactly 1.
     */
    method ResolveTurn(position: Position) returns (turn: nat)
      modifies this`cornerTurn, this`sideTurn
      ensures turn == old(Counter(position))
      ensures sideTurn == old(sideTurn) + (if position == Side then 1 else 0)
      ensures cornerTurn == old(cornerTurn) + (if position == Corner then 1 else 0)
    {
      match position
      case Middle =>
        turn := 0;
      case Side =>
        turn := sideTurn;
        sideTurn := sideTurn + 1;
      case Corner =>
        turn := cornerTurn;
        cornerTurn := cornerTurn + 1;
    }

    /**
     * `_renderPatch`: resolves the cell, type, turn and invert flag of one patch
     * and draws it, advancing the counter of its kind.
     */
    method RenderPatch(x: Option<nat>, y: Option<nat>, position: Position)
      modifies this
      ensures hashCode == old(hashCode)
      ensures State() == Step(old(State()), x, y, position)
    {
      ghost var before := State();
      var cx := ResolvePatchParam(x, 1);
      var cy := ResolvePatchParam(y, 1);
      var patch := ResolveType(Code(), position) % |PatchTypes()|;
      var vertices := PatchTypes()[patch];
      var counter := ResolveTurn(position);
      var turn := counter % 4;
      var invert := EffectiveInvert(patch, ResolveInvert(Code(), position));
      var cellFill := if invert then Foreground else Background;
      var path := TraceOutline(vertices);
      var shapeFill := if invert then Background else Foreground;
      assert cx == CellIndex(x) && cy == CellIndex(y) && counter == CounterOf(before, position);
      var drawn := PatchInstance(position, cx, cy, patch, turn, invert, cellFill, shapeFill, path);
      assert drawn == Instance(before.code, position, CellIndex(x), CellIndex(y), CounterOf(before, position));
      trace := trace + [drawn];
    }

    /**
     * `_render`: the nine patches in their fixed order. Cell indices are given
     * as in the source: None for the centre column or row.
     */
    method Render()
      modifies this
      ensures hashCode == old(hashCode)
      ensures State() == RenderSteps(old(State()))
      ensures trace == old(trace) + PlanFrom(Code(), old(sideTurn), old(cornerTurn))
      ensures sideTurn == old(sideTurn) + 4 && cornerTurn == old(cornerTurn) + 4
    {
      RenderPatch(None, None, Middle);

      RenderPatch(None, Some(0), Side);   // top
      RenderPatch(Some(2), None, Side);   // right
      RenderPatch(None, Some(2), Side);   // bottom
      RenderPatch(Some(0), None, Side);   // left

      RenderPatch(Some(0), Some(0), Corner);   // top-left
      RenderPatch(Some(2), Some(0), Corner);   // top-right
      RenderPatch(Some(2), Some(2), Corner);   // bottom-right
      RenderPatch(Some(0), Some(2), Corner);   // bottom-left
      RenderStepsDrawPlan(old(State()));
    }

    /**
     * `generate`: takes the new message's hash code (`digest` stands for the
     * SHA-1 of salt and message), seeds both counters from it, starts a fresh
     * canvas and draws the nine patches. What is drawn depends on the message
     * and digest alone, never on the counters a previous call left behind.
     */
    method Generate(message: string, digest: seq<bv8>)
      requires message != [] ==> |digest| >= 4
      modifies this
      ensures hashCode == HashCode(message, digest)
      ensures trace == Plan(Code())
      ensures cornerTurn == CornerSeed(Code()) as int + 4
      ensures sideTurn == SideSeed(Code()) as int + 4
    {
      hashCode := HashCode(message, digest);
      cornerTurn := CornerSeed(Code()) as int;
      sideTurn := SideSeed(Code()) as int;
      trace := [];
      Render();
    }
  }

  /**
   * Determinism: one instance generating twice from the same input draws the
   * same nine patches, whatever state the first call left behind.
   */
  method GenerateTwice(message: string, digest: seq<bv8>) returns (first: seq<PatchInstance>, second: seq<PatchInstance>)
    requires message != [] ==> |digest| >= 4
    ensures first == second
    ensures |first| == 9
  {
    var identicon := new Identicon();
    identicon.Generate(message, digest);
    first := identicon.trace;
    identicon.Generate(message, digest);
    second := identicon.trace;
  }
}
