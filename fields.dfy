/**
 * The 32-bit hash code and the bit fields read from it.
 *
 * The source combines the first four digest bytes with `<<` and `|`, which in
 * JavaScript yields a signed 32-bit integer; every later read shifts and then
 * masks, so only the 32-bit pattern matters, and it is modelled as a `bv32`.
 * Bits are numbered from the least significant, starting at 0.
 */
module Fields {
  import opened Catalog

  datatype Option<T> = None | Some(value: T)

  /** The three kinds of patch: they select which fields and counter apply. */
  datatype Position = Middle | Side | Corner

  /** An 8-bit-per-channel colour, as written into `rgb(r,g,b)`. */
  datatype Rgb = Rgb(red: nat, green: nat, blue: nat)

  /** Bit `i` of `h` is set. */
  predicate Bit(h: bv32, i: nat)
    requires i < 32
  {
    (h >> i) & 1 == 1
  }

  /**
   * `_hashCode`: null while there is no message; otherwise the first four bytes
   * of the digest, most significant first. `digest` stands for the SHA-1 of the
   * salt followed by the message, which is only computed for a non-empty message.
   */
  function HashCode(message: string, digest: seq<bv8>): (r: Option<bv32>)
    requires message != [] ==> |digest| >= 4
    ensures r.None? <==> message == []
    ensures r.Some? ==> (Byte(r.value, 3) == digest[0] && Byte(r.value, 2) == digest[1]
                      && Byte(r.value, 1) == digest[2] && Byte(r.value, 0) == digest[3])
  {
    if message == [] then None
    else Some(Combine(digest[0], digest[1], digest[2], digest[3]))
  }

  /** Byte `k` of `h`, counting from the least significant byte 0. */
  function Byte(h: bv32, k: nat): bv8
    requires k < 4
  {
    match k
    case 0 => (h & 0xFF) as bv8
    case 1 => ((h >> 8) & 0xFF) as bv8
    case 2 => ((h >> 16) & 0xFF) as bv8
    case 3 => ((h >> 24) & 0xFF) as bv8
  }

  /**
   * The source's `b0 << 24 | b1 << 16 | b2 << 8 | b3`, as a 32-bit pattern:
   * `b0` becomes the most significant byte and `b3` the least.
   */
  function Combine(b0: bv8, b1: bv8, b2: bv8, b3: bv8): (r: bv32)
    ensures Byte(r, 3) == b0 && Byte(r, 2) == b1 && Byte(r, 1) == b2 && Byte(r, 0) == b3
  {
    (b0 as bv32 << 24) | (b1 as bv32 << 16) | (b2 as bv32 << 8) | b3 as bv32
  }

  /** Appending one byte below `x`: `x << 8 | b` is `x * 256 + b` while `x` fits in 24 bits. */
  lemma AppendByte(x: bv32, b: bv8)
    requires x < 0x100_0000
    ensures ((x << 8) | b as bv32) as int == x as int * 0x100 + b as int
  {
  }

  /** As an unsigned number, the hash code is `b0 * 2^24 + b1 * 2^16 + b2 * 2^8 + b3`. */
  lemma CombineValue(b0: bv8, b1: bv8, b2: bv8, b3: bv8)
    ensures Combine(b0, b1, b2, b3) as int ==
            b0 as int * 0x100_0000 + b1 as int * 0x1_0000 + b2 as int * 0x100 + b3 as int
  {
    var x1: bv32 := (b0 as bv32 << 8) | b1 as bv32;
    var x2: bv32 := (x1 << 8) | b2 as bv32;
    assert x1 < 0x1_0000 && x2 < 0x100_0000;
    CombineNested(b0, b1, b2, b3);
    AppendByte(b0 as bv32, b1);
    AppendByte(x1, b2);
    AppendByte(x2, b3);
    ghost var v1 := x1 as int;
    ghost var v2 := x2 as int;
    assert v1 == b0 as int * 0x100 + b1 as int;
    assert v2 == v1 * 0x100 + b2 as int;
  }

  /** The source's shifts-and-or, regrouped as three successive byte appends. */
  lemma CombineNested(b0: bv8, b1: bv8, b2: bv8, b3: bv8)
    ensures Combine(b0, b1, b2, b3) == (((((b0 as bv32 << 8) | b1 as bv32) << 8) | b2 as bv32) << 8) | b3 as bv32
  {
  }

  /** What a bitwise operator sees when given the hash code: JavaScript turns null into 0. */
  function Numeric(code: Option<bv32>): bv32
  {
    match code
    case None => 0
    case Some(h) => h
  }

  /** `_red` (without its null case): the 5-bit field at bits 27-31. */
  function Red5(h: bv32): (r: bv32)
    ensures r < 32
    ensures forall i :: 0 <= i < 5 ==> Bit(r, i) == Bit(h, 27 + i)
  {
    (h >> 27) & 31
  }

  /** `_green` (without its null case): the 5-bit field at bits 21-25. */
  function Green5(h: bv32): (r: bv32)
    ensures r < 32
    ensures forall i :: 0 <= i < 5 ==> Bit(r, i) == Bit(h, 21 + i)
  {
    (h >> 21) & 31
  }

  /** `_blue` (without its null case): the 5-bit field at bits 16-20. */
  function Blue5(h: bv32): (r: bv32)
    ensures r < 32
    ensures forall i :: 0 <= i < 5 ==> Bit(r, i) == Bit(h, 16 + i)
  {
    (h >> 16) & 31
  }

  /** A 5-bit channel widened to 8 bits by `<< 3`: one of 32 levels, 0 to 248. */
  function Channel(field: bv32): (v: nat)
    requires field < 32
    ensures v <= 248 && v % 8 == 0 && v / 8 == field as int
  {
    (field << 3) as int
  }

  /** `_color`: null while there is no message; otherwise the three widened channels. */
  function Color(code: Option<bv32>): (c: Option<Rgb>)
    ensures c.None? <==> code.None?
    ensures c.Some? ==> (c.value.red / 8 == Red5(code.value) as int
                      && c.value.green / 8 == Green5(code.value) as int
                      && c.value.blue / 8 == Blue5(code.value) as int)
    ensures c.Some? ==> (c.value.red <= 248 && c.value.red % 8 == 0
                      && c.value.green <= 248 && c.value.green % 8 == 0
                      && c.value.blue <= 248 && c.value.blue % 8 == 0)
  {
    match code
    case None => None
    case Some(h) => Some(Rgb(Channel(Red5(h)), Channel(Green5(h)), Channel(Blue5(h))))
  }

  /** The middle patch's selector into the centre types: bits 0-1. */
  function MiddleSelector(h: bv32): (r: bv32)
    ensures r < 4
    ensures Bit(r, 0) == Bit(h, 0) && Bit(r, 1) == Bit(h, 1)
  {
    h & 3
  }

  /** The corner patches' type: the 4-bit field at bits 3-6. */
  function CornerType(h: bv32): (r: bv32)
    ensures r < 16
    ensures forall i :: 0 <= i < 4 ==> Bit(r, i) == Bit(h, 3 + i)
  {
    (h >> 3) & 15
  }

  /** The side patches' type: the 4-bit field at bits 10-13. */
  function SideType(h: bv32): (r: bv32)
    ensures r < 16
    ensures forall i :: 0 <= i < 4 ==> Bit(r, i) == Bit(h, 10 + i)
  {
    (h >> 10) & 15
  }

  /** The initial corner counter, set by `generate`: bits 8-9. */
  function CornerSeed(h: bv32): (r: bv32)
    ensures r < 4
    ensures Bit(r, 0) == Bit(h, 8) && Bit(r, 1) == Bit(h, 9)
  {
    (h >> 8) & 3
  }

  /** The initial side counter, set by `generate`: bits 15-16. */
  function SideSeed(h: bv32): (r: bv32)
    ensures r < 4
    ensures Bit(r, 0) == Bit(h, 15) && Bit(r, 1) == Bit(h, 16)
  {
    (h >> 15) & 3
  }

  /**
   * `_resolveType`: the catalog index for a patch of the given kind. The middle
   * patch takes one of the four centre types; corners and sides take their
   * 4-bit field, which is already a valid catalog index.
   */
  function ResolveType(h: bv32, position: Position): (r: nat)
    ensures r < |PatchTypes()|
    ensures r % |PatchTypes()| == r
    ensures position == Middle ==> (r == 0 || r == 4 || r == 8 || r == 15)
    ensures position == Middle ==> r == CenterPatchTypes()[MiddleSelector(h) as int]
    ensures position == Middle ==> ((MiddleSelector(h) == 0 ==> r == 0) && (MiddleSelector(h) == 1 ==> r == 4)
                                 && (MiddleSelector(h) == 2 ==> r == 8) && (MiddleSelector(h) == 3 ==> r == 15))
    ensures position == Corner ==> r == CornerType(h) as int
    ensures position == Side ==> r == SideType(h) as int
  {
    match position
    case Middle => CenterPatchTypes()[MiddleSelector(h) as int]
    case Corner => CornerType(h) as int
    case Side => SideType(h) as int
  }

  /** The bit that holds each kind's invert flag. */
  function InvertBit(position: Position): (i: nat)
    ensures i < 32
  {
    match position
    case Middle => 2
    case Corner => 7
    case Side => 14
  }

  /** `_resolveInvert`: the invert flag of each kind, before the type-15 rule. */
  function ResolveInvert(h: bv32, position: Position): (b: bool)
    ensures b <==> Bit(h, InvertBit(position))
  {
    match position
    case Middle => (h >> 2) & 1 != 0
    case Corner => (h >> 7) & 1 != 0
    case Side => (h >> 14) & 1 != 0
  }

  /** The digest 01 02 03 04 ... gives the hash code 0x01020304. */
  lemma HashCodeExample(message: string, digest: seq<bv8>)
    requires message != [] && |digest| >= 4
    requires digest[..4] == [1, 2, 3, 4]
    ensures HashCode(message, digest) == Some(0x0102_0304)
  {
    assert digest[0] == 1 && digest[1] == 2 && digest[2] == 3 && digest[3] == 4;
  }

  /** A full red field (31) gives the brightest red level, 248. */
  lemma FullChannelExample(h: bv32)
    requires Red5(h) == 31
    ensures Color(Some(h)).value.red == 248
  {
  }
}
