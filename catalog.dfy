/**
 * The fixed patch catalog and the vertex-index geometry of one patch.
 *
 * A patch shape is a list of vertex indices on a 5x5 grid (column = index % 5,
 * row = index / 5). Coordinates are given in "scale" units (a quarter of a
 * patch), relative to the centre of the patch's cell: the pixel formula
 * `col * scale - offset` with `offset = 2 * scale` becomes `col - 2`.
 */
module Catalog {

  /** A point in the local frame of one cell, in scale units. */
  datatype Point = Point(x: int, y: int)

  /**
   * The polygon of patch type `t`, as vertex indices in drawing order. Type 15
   * repeats the square of type 0; `_renderPatch` treats it as the inverted square.
   */
  function PatchShape(t: nat): seq<nat>
    requires t < 16
  {
    match t
    case 0 => [0, 4, 24, 20]
    case 1 => [0, 4, 20]
    case 2 => [2, 24, 20]
    case 3 => [0, 2, 20, 22]
    case 4 => [2, 14, 22, 10]
    case 5 => [0, 14, 24, 22]
    case 6 => [2, 24, 22, 13, 11, 22, 20]
    case 7 => [0, 14, 22]
    case 8 => [6, 8, 18, 16]
    case 9 => [4, 20, 10, 12, 2]
    case 10 => [0, 2, 12, 10]
    case 11 => [10, 14, 22]
    case 12 => [20, 12, 24]
    case 13 => [10, 2, 12]
    case 14 => [0, 2, 10]
    case _ => [0, 4, 24, 20]  // 15
  }

  /** The sixteen polygon definitions, indexed by patch type. */
  function PatchTypes(): (c: seq<seq<nat>>)
    ensures |c| == 16
    ensures forall t :: 0 <= t < |c| ==> |c[t]| >= 3
    ensures forall t, k :: 0 <= t < |c| && 0 <= k < |c[t]| ==> c[t][k] < 25
  {
    seq(16, t requires 0 <= t < 16 => PatchShape(t))
  }

  /** The patch types the middle patch may take; each one indexes the catalog. */
  function CenterPatchTypes(): (c: seq<nat>)
    ensures |c| == 4
    ensures forall k :: 0 <= k < |c| ==> c[k] < |PatchTypes()|
  {
    [0, 4, 8, 15]
  }

  /** `_coords`: the position of vertex `i` of a shape, centred on the cell. */
  function Coords(vertices: seq<nat>, i: nat): (p: Point)
    requires i < |vertices|
    ensures 0 <= p.x + 2 < 5 && 0 <= p.y + 2
    ensures (p.y + 2) * 5 + (p.x + 2) == vertices[i]
    ensures vertices[i] < 25 ==> -2 <= p.y <= 2
  {
    Point(vertices[i] as int % 5 - 2, vertices[i] as int / 5 - 2)
  }

  /** The vertex index a grid point stands for: the inverse of `Coords`. */
  function GridIndex(p: Point): int
  {
    (p.y + 2) * 5 + (p.x + 2)
  }

  /** The polygon a shape describes: every vertex mapped by `Coords`, in order. */
  function Outline(vertices: seq<nat>): (ps: seq<Point>)
    ensures |ps| == |vertices|
    ensures forall k :: 0 <= k < |ps| ==> ps[k] == Coords(vertices, k)
  {
    seq(|vertices|, k requires 0 <= k < |vertices| => Coords(vertices, k))
  }

  /** A point of the cell: inside the square of side 4 centred on the origin. */
  predicate InCell(p: Point)
  {
    -2 <= p.x <= 2 && -2 <= p.y <= 2
  }

  /**
   * Mapping a vertex index to its point and back gives the index again, and
   * distinct indices give distinct points.
   */
  lemma CoordsRoundTrip(vertices: seq<nat>, i: nat, j: nat)
    requires i < |vertices| && j < |vertices|
    ensures GridIndex(Coords(vertices, i)) == vertices[i]
    ensures Coords(vertices, i) == Coords(vertices, j) <==> vertices[i] == vertices[j]
  {
  }

  /**
   * Every catalog shape is a polygon of at least three vertices, all of which
   * lie inside the cell (within the offset of the centre on both axes).
   */
  lemma CatalogOutlinesInCell(t: nat)
    requires t < |PatchTypes()|
    ensures |Outline(PatchTypes()[t])| >= 3
    ensures forall k :: 0 <= k < |Outline(PatchTypes()[t])| ==> InCell(Outline(PatchTypes()[t])[k])
  {
    var vs := PatchTypes()[t];
    forall k | 0 <= k < |vs|
      ensures InCell(Outline(vs)[k])
    {
      assert vs[k] < 25;
    }
  }

  /**
   * A quarter-turn rotation of the canvas, `turn` times, about the cell centre.
   * With the y axis pointing down, one quarter turn maps (x, y) to (-y, x).
   * A rotation keeps every point at the same distance from the centre.
   */
  function Rotated(p: Point, turn: nat): (q: Point)
    ensures q.x * q.x + q.y * q.y == p.x * p.x + p.y * p.y
    decreases turn
  {
    if turn == 0 then p else
      var r := Rotated(p, turn - 1);
      Point(-r.y, r.x)
  }

  /** Rotating by quarter turns keeps a point of the cell inside the cell. */
  lemma {:induction false} RotatedStaysInCell(p: Point, turn: nat)
    requires InCell(p)
    ensures InCell(Rotated(p, turn))
    decreases turn
  {
    if turn > 0 {
      RotatedStaysInCell(p, turn - 1);
    }
  }

  /** Four quarter turns bring every point back to where it started. */
  lemma {:induction false} RotatedFullTurn(p: Point, turn: nat)
    ensures Rotated(p, turn + 4) == Rotated(p, turn)
    decreases turn
  {
    if turn == 0 {
      var p1 := Rotated(p, 1);
      var p2 := Rotated(p, 2);
      var p3 := Rotated(p, 3);
      assert p1 == Point(-p.y, p.x);
      assert p2 == Point(-p.x, -p.y);
      assert p3 == Point(p.y, -p.x);
    } else {
      RotatedFullTurn(p, turn - 1);
    }
  }
}
