/** The point model of the G36 fancy bed levelling: the four knob corners,
    where each one sits on the bed, which servo turns it, where the lever
    motion starts and ends, and the order in which a full scan visits them. */
module FancyPoints {
  import opened Machine

  /** The four levelling knobs. The ordinal of each is the value of the R
      parameter that selects it. */
  datatype Corner = SouthWest | NorthWest | NorthEast | SouthEast

  const AllCorners: set<Corner> := {SouthWest, NorthWest, NorthEast, SouthEast}

  const PosNorthWest: Pos := Pos(40.0, 260.0)
  const PosNorthEast: Pos := Pos(260.0, 260.0)
  const PosSouthEast: Pos := Pos(260.0, 40.0)
  const PosSouthWest: Pos := Pos(40.0, 40.0)

  /** The servo for the knobs on the left side, and for those on the right. */
  const ServoIndexWest: int := 1
  const ServoIndexEast: int := 3

  /** Distance along Y from the knob centre to either end of the lever motion. */
  const KnobOffset: real := 35.0

  predicate IsEast(c: Corner) { c == NorthEast || c == SouthEast }
  predicate IsNorth(c: Corner) { c == NorthWest || c == NorthEast }

  /** The enumeration value of a corner. */
  function Ordinal(c: Corner): (i: nat)
    ensures i < 4
  {
    match c
    case SouthWest => 0
    case NorthWest => 1
    case NorthEast => 2
    case SouthEast => 3
  }

  /** The corner an in-range R value names (the cast to the enumeration). */
  function CornerOf(i: int): (c: Corner)
    requires 0 <= i < 4
    ensures Ordinal(c) == i
  {
    if i == 0 then SouthWest else if i == 1 then NorthWest else if i == 2 then NorthEast else SouthEast
  }

  /** Every corner is the one the R value equal to its ordinal selects. */
  lemma OrdinalRoundTrip(c: Corner)
    ensures CornerOf(Ordinal(c)) == c
  {
  }

  /** Where the knob of a corner sits: east knobs at X 260, west at X 40,
      north knobs at Y 260, south at Y 40. */
  function PositionOf(c: Corner): (p: Pos)
    ensures p.x == if IsEast(c) then 260.0 else 40.0
    ensures p.y == if IsNorth(c) then 260.0 else 40.0
  {
    match c
    case NorthWest => PosNorthWest
    case NorthEast => PosNorthEast
    case SouthEast => PosSouthEast
    case SouthWest => PosSouthWest
  }

  /** No two knobs share a position. */
  lemma PositionsDistinct(a: Corner, b: Corner)
    ensures PositionOf(a) == PositionOf(b) <==> a == b
  {
  }

  /** The servo that turns the knob of a corner: the west one for the two
      west corners, the east one for the two east corners, nothing else. */
  function ServoIndexOf(c: Corner): (i: int)
    ensures i == ServoIndexWest || i == ServoIndexEast
    ensures i == ServoIndexEast <==> IsEast(c)
  {
    match c
    case NorthWest => ServoIndexWest
    case NorthEast => ServoIndexEast
    case SouthEast => ServoIndexEast
    case SouthWest => ServoIndexWest
  }

  /** Two knobs share a servo exactly when they are on the same side. */
  lemma ServoSharedBySide(a: Corner, b: Corner)
    ensures ServoIndexOf(a) == ServoIndexOf(b) <==> IsEast(a) == IsEast(b)
  {
  }

  /** One end of the lever motion that turns the knob of `c`: the knob
      position moved along Y by KnobOffset, towards the south when `lowerPos`
      holds on a west corner, with the flag inverted on an east corner. */
  function KnobMovePos(c: Corner, lowerPos: bool): (p: Pos)
    ensures p.x == PositionOf(c).x
    ensures p.y == PositionOf(c).y - KnobOffset || p.y == PositionOf(c).y + KnobOffset
    ensures p.y < PositionOf(c).y <==> lowerPos != IsEast(c)
  {
    var lower := if c == NorthEast || c == SouthEast then !lowerPos else lowerPos;
    var pos := PositionOf(c);
    if lower then Pos(pos.x, pos.y - KnobOffset) else Pos(pos.x, pos.y + KnobOffset)
  }

  /** The two ends of the lever motion of a knob lie 70 mm apart on either
      side of the knob, and their order is mirrored on the east side. */
  lemma KnobEndpoints(c: Corner)
    ensures KnobMovePos(c, true).x == KnobMovePos(c, false).x == PositionOf(c).x
    ensures KnobMovePos(c, false).y - KnobMovePos(c, true).y == if IsEast(c) then -2.0 * KnobOffset else 2.0 * KnobOffset
    ensures KnobMovePos(c, true).y + KnobMovePos(c, false).y == 2.0 * PositionOf(c).y
  {
  }

  predicate Between(v: real, lo: real, hi: real)
  {
    (lo <= v <= hi) || (hi <= v <= lo)
  }

  /** factor * a + (1 - factor) * b, component by component. */
  function Interpolate(a: Pos, b: Pos, factor: real): (r: Pos)
    ensures factor == 1.0 ==> r == a
    ensures factor == 0.0 ==> r == b
    ensures factor == 0.5 ==> r.x + r.x == a.x + b.x && r.y + r.y == a.y + b.y
    ensures 0.0 <= factor <= 1.0 ==> Between(r.x, a.x, b.x) && Between(r.y, a.y, b.y)
  {
    InterpolateBetween(a.x, b.x, factor);
    InterpolateBetween(a.y, b.y, factor);
    Pos(a.x * factor + b.x * (1.0 - factor), a.y * factor + b.y * (1.0 - factor))
  }

  lemma InterpolateBetween(a: real, b: real, f: real)
    ensures 0.0 <= f <= 1.0 ==> Between(a * f + b * (1.0 - f), a, b)
  {
    if 0.0 <= f <= 1.0 {
      var v := a * f + b * (1.0 - f);
      assert v - b == f * (a - b);
      assert a - v == (1.0 - f) * (a - b);
      if a <= b {
        NonNegTimesNonPos(f, a - b);
        NonNegTimesNonPos(1.0 - f, a - b);
      } else {
        NonNegTimesNonPos(f, b - a);
        NonNegTimesNonPos(1.0 - f, b - a);
      }
    }
  }

  lemma NonNegTimesNonPos(p: real, q: real)
    requires p >= 0.0 && q <= 0.0
    ensures p * q <= 0.0 && p * -q >= 0.0
  {
  }

  /** The visiting order of a full scan: SW, NW, NE, SE and round again. */
  function NextPoint(c: Corner): (r: Corner)
    ensures Ordinal(r) == (Ordinal(c) + 1) % 4
  {
    match c
    case NorthWest => NorthEast
    case NorthEast => SouthEast
    case SouthEast => SouthWest
    case SouthWest => NorthWest
  }

  /** The corner reached from `c` after `k` calls of NextPoint. */
  function Advance(c: Corner, k: nat): Corner
  {
    if k == 0 then c else NextPoint(Advance(c, k - 1))
  }

  lemma {:induction false} AdvanceOrdinal(c: Corner, k: nat)
    ensures Ordinal(Advance(c, k)) == (Ordinal(c) + k) % 4
  {
    if k > 0 {
      AdvanceOrdinal(c, k - 1);
    }
  }

  /** Advancing from the next corner is advancing one step more. */
  lemma {:induction false} AdvanceShift(c: Corner, k: nat)
    ensures Advance(NextPoint(c), k) == Advance(c, k + 1)
  {
    if k > 0 {
      AdvanceShift(c, k - 1);
    }
  }

  /** Four calls of NextPoint lead back to the start. */
  lemma NextPointCycle(c: Corner)
    ensures Advance(c, 4) == c
    ensures Advance(c, 1) != c && Advance(c, 2) != c && Advance(c, 3) != c
  {
  }

  /** Any four successive calls of NextPoint visit every corner once. */
  lemma FourStepsVisitAll(c: Corner, j: nat)
    ensures {Advance(c, j + 1), Advance(c, j + 2), Advance(c, j + 3), Advance(c, j + 4)} == AllCorners
  {
  }
}
