/** G33 as the single-corner draft of the knob levelling: the same corner
    tables, a 30 mm lever offset with no east-side mirroring, a two-sided
    decision rule with a 0.02 mm tolerance and no servo detach, and a command
    that levels the south-west knob only. */
module DraftG33 {
  import opened Machine
  import FancyPoints
  import FancyLeveling

  /** The four levelling knobs, in the draft's enumeration order. */
  datatype Corner = NorthWest | NorthEast | SouthEast | SouthWest

  const PosNorthWest: Pos := Pos(40.0, 260.0)
  const PosNorthEast: Pos := Pos(260.0, 260.0)
  const PosSouthEast: Pos := Pos(260.0, 40.0)
  const PosSouthWest: Pos := Pos(40.0, 40.0)
  const ServoIndexWest: int := 1
  const ServoIndexEast: int := 3
  const ZMaxDeviation: real := 0.02
  const ServoUp: int := 90
  const ServoDown: int := 0
  /** Distance between the knob centre and either end of the lever motion. */
  const KnobOffset: real := 30.0
  /** The height G33 raises the head to before it probes. */
  const ProbeClearance: real := 10.0

  /** The enumeration value of a corner in the draft. */
  function Ordinal(c: Corner): (i: nat)
    ensures i < 4
  {
    match c
    case NorthWest => 0
    case NorthEast => 1
    case SouthEast => 2
    case SouthWest => 3
  }

  /** The same-named corner of the final G36 enumeration, whose enumeration
      value is one higher (modulo four). */
  function Final(c: Corner): (f: FancyPoints.Corner)
    ensures FancyPoints.Ordinal(f) == (Ordinal(c) + 1) % 4
  {
    match c
    case NorthWest => FancyPoints.NorthWest
    case NorthEast => FancyPoints.NorthEast
    case SouthEast => FancyPoints.SouthEast
    case SouthWest => FancyPoints.SouthWest
  }

  /** The knob positions are those of the final version. */
  function PositionOf(c: Corner): (p: Pos)
    ensures p == FancyPoints.PositionOf(Final(c))
  {
    match c
    case NorthWest => PosNorthWest
    case NorthEast => PosNorthEast
    case SouthEast => PosSouthEast
    case SouthWest => PosSouthWest
  }

  /** The servos are those of the final version: west 1, east 3. */
  function ServoIndexOf(c: Corner): (i: int)
    ensures i == FancyPoints.ServoIndexOf(Final(c))
    ensures i == ServoIndexWest <==> c == NorthWest || c == SouthWest
  {
    match c
    case NorthWest => ServoIndexWest
    case NorthEast => ServoIndexEast
    case SouthEast => ServoIndexEast
    case SouthWest => ServoIndexWest
  }

  /** One end of the lever motion: 30 mm south of the knob when `lowerPos`
      holds, 30 mm north otherwise, on every corner alike. */
  function KnobMovePos(c: Corner, lowerPos: bool): (p: Pos)
    ensures p.x == PositionOf(c).x
    ensures p.y == PositionOf(c).y + (if lowerPos then -KnobOffset else KnobOffset)
  {
    var pos := PositionOf(c);
    if lowerPos then Pos(pos.x, pos.y - KnobOffset) else Pos(pos.x, pos.y + KnobOffset)
  }

  /** The calls the draft move_knob_if_needed makes for a deviation `zDist`. */
  function KnobMoves(c: Corner, zDist: real): (cmds: seq<Command>)
    ensures cmds == [] <==> -ZMaxDeviation <= zDist <= ZMaxDeviation
    ensures cmds != [] ==> |cmds| == 4 && cmds[0].MoveTo? && cmds[2].MoveTo?
  {
    var servoIndex := ServoIndexOf(c);
    if zDist > ZMaxDeviation then
      [ MoveTo(KnobMovePos(c, true)), Servo(servoIndex, ServoUp),
        MoveTo(KnobMovePos(c, false)), Servo(servoIndex, ServoDown) ]
    else if zDist < -ZMaxDeviation then
      [ MoveTo(KnobMovePos(c, false)), Servo(servoIndex, ServoUp),
        MoveTo(KnobMovePos(c, true)), Servo(servoIndex, ServoDown) ]
    else
      []
  }

  /** A turn runs the lever from one end to the other with the corner's servo
      engaged: a high bed from the south end 60 mm north to the north end, a
      low bed the other way. */
  lemma KnobMovesProtocol(c: Corner, zDist: real)
    requires zDist < -ZMaxDeviation || ZMaxDeviation < zDist
    ensures var cmds := KnobMoves(c, zDist);
      && cmds[0] == MoveTo(KnobMovePos(c, zDist > 0.0))
      && cmds[2] == MoveTo(KnobMovePos(c, zDist < 0.0))
      && cmds[1] == Servo(ServoIndexOf(c), ServoUp)
      && cmds[3] == Servo(ServoIndexOf(c), ServoDown)
      && cmds[0].to.x == cmds[2].to.x == PositionOf(c).x
      && cmds[2].to.y - cmds[0].to.y == if zDist > 0.0 then 2.0 * KnobOffset else -2.0 * KnobOffset
  {
  }

  /** No deviation makes the draft detach a servo. */
  lemma {:induction false} KnobMovesNeverDetach(c: Corner, zDist: real)
    ensures Count(KnobMoves(c, zDist), IsDetach) == 0
  {
    var cmds := KnobMoves(c, zDist);
    if cmds != [] {
      assert !IsDetach(cmds[0]) && !IsDetach(cmds[1]) && !IsDetach(cmds[2]) && !IsDetach(cmds[3]);
    }
    CountAbsent(cmds, IsDetach);
  }

  /** A low reading runs the lever motion of the opposite high reading
      backwards: same servo commands, start and end swapped. */
  lemma KnobMovesMirror(c: Corner, zDist: real)
    requires zDist > ZMaxDeviation
    ensures var high := KnobMoves(c, zDist);
      KnobMoves(c, -zDist) == [high[2], high[1], high[0], high[3]]
  {
  }

  /** For the same reading, the draft and the final version throw the lever
      the same way on the east knobs and opposite ways on the west knobs. */
  lemma ThrowVersusFinal(c: Corner, zDist: real)
    requires zDist < -ZMaxDeviation || ZMaxDeviation < zDist
    ensures var draft := KnobMoves(c, zDist);
      var final := FancyLeveling.KnobMoves(Final(c), zDist);
      var draftNorth := draft[2].to.y > draft[0].to.y;
      var finalNorth := final[2].to.y > final[0].to.y;
      draftNorth == finalNorth <==> FancyPoints.IsEast(Final(c))
  {
  }

  /** The calls G33 makes when the probe gives `s`. */
  function G33Trace(s: Sample): (cmds: seq<Command>)
  {
    [MoveToZ(ProbeClearance), LevelingOff, FeedrateSave, Probe(PositionOf(SouthWest)), FeedrateRestore]
    + (if s.Height? then KnobMoves(SouthWest, s.mm) else [])
  }

  /** G33 raises the head, probes the south-west knob and nothing else,
      restores feedrate scaling right after the probe, and turns the knob
      only for a reading outside the tolerance, never for NaN. */
  lemma G33Order(s: Sample)
    ensures var t := G33Trace(s);
      && t[..5] == [MoveToZ(ProbeClearance), LevelingOff, FeedrateSave, Probe(Pos(40.0, 40.0)), FeedrateRestore]
      && Count(t, IsProbe) == 1
      && Count(t, IsDetach) == 0
      && (|t| > 5 <==> s.Height? && (s.mm < -ZMaxDeviation || ZMaxDeviation < s.mm))
  {
    var head := [MoveToZ(ProbeClearance), LevelingOff, FeedrateSave] + [Probe(PositionOf(SouthWest))] + [FeedrateRestore];
    var knob := if s.Height? then KnobMoves(SouthWest, s.mm) else [];
    assert G33Trace(s) == head + knob;
    CountConcat(head, knob, IsProbe);
    CountConcat(head, knob, IsDetach);
    CountConcat([MoveToZ(ProbeClearance), LevelingOff, FeedrateSave] + [Probe(PositionOf(SouthWest))], [FeedrateRestore], IsProbe);
    CountConcat([MoveToZ(ProbeClearance), LevelingOff, FeedrateSave], [Probe(PositionOf(SouthWest))], IsProbe);
    CountAbsent([MoveToZ(ProbeClearance), LevelingOff, FeedrateSave], IsProbe);
    CountAbsent([FeedrateRestore], IsProbe);
    CountAbsent(head, IsDetach);
    KnobMovesNeverDetach(SouthWest, if s.Height? then s.mm else 0.0);
    if s.Height? {
      assert Count(knob, IsProbe) == 0 by {
        if knob != [] {
          assert !IsProbe(knob[0]) && !IsProbe(knob[1]) && !IsProbe(knob[2]) && !IsProbe(knob[3]);
        }
        CountAbsent(knob, IsProbe);
      }
    }
  }

  method MoveKnobIfNeeded(printer: Printer, c: Corner, zDist: real)
    modifies printer
    ensures printer.trace == old(printer.trace) + KnobMoves(c, zDist)
    ensures printer.samples == old(printer.samples) && printer.z == old(printer.z)
  {
    var servoIndex := ServoIndexOf(c);
    if zDist > ZMaxDeviation {
      printer.DoBlockingMoveTo(KnobMovePos(c, true));
      printer.ServoMove(servoIndex, ServoUp);
      printer.DoBlockingMoveTo(KnobMovePos(c, false));
      printer.ServoMove(servoIndex, ServoDown);
    } else if zDist < -ZMaxDeviation {
      printer.DoBlockingMoveTo(KnobMovePos(c, false));
      printer.ServoMove(servoIndex, ServoUp);
      printer.DoBlockingMoveTo(KnobMovePos(c, true));
      printer.ServoMove(servoIndex, ServoDown);
    } else {
      assert printer.trace == old(printer.trace) + [];
    }
  }

  /** G33: raise the head to 10 mm, probe the south-west knob once and turn
      it if needed. It does not check that the axes are homed. */
  method G33(printer: Printer)
    requires printer.samples != []
    modifies printer
    ensures printer.trace == old(printer.trace) + G33Trace(old(printer.samples)[0])
    ensures printer.samples == old(printer.samples)[1..]
    ensures printer.z == ProbeClearance
  {
    printer.DoBlockingMoveToZ(ProbeClearance);
    printer.DisableBedLeveling();
    printer.RememberFeedrateScalingOff();
    var fp := SouthWest;
    var measured := printer.ProbeAtPoint(PositionOf(fp));
    printer.RestoreFeedrateAndScaling();
    if measured.Height? {
      MoveKnobIfNeeded(printer, fp, measured.mm);
    } else {
      assert printer.trace == old(printer.trace) + G33Trace(old(printer.samples)[0]);
    }
  }
}
