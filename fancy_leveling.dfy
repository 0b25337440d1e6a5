/** The G36 fancy bed levelling command: probe a corner, decide whether and
    which way its knob must turn, turn it with a servo-driven lever motion,
    and, in a full scan, visit the corners in turn until four in a row need
    no adjustment. */
module FancyLeveling {
  import opened Machine
  import opened FancyPoints

  /** Levelling is finished once every probed deviation is within this. */
  const ZMaxDeviation: real := 0.015

  /** Servo angle that engages the knob wheel, and the one below it. */
  const ServoUpDeg: int := 90
  const ServoDownDeg: int := 0

  /** Weight of the knob position in the end point of a small step. */
  const SmallStepFactor: real := 0.6

  /** Length of the lever motion of a full and of a small step. */
  const FullThrow: real := 70.0
  const SmallThrow: real := 49.0

  // ---------------------------------------------------------------------
  // Decision rule: move_knob_if_needed

  /** The calls move_knob_if_needed makes for a deviation of `zDist` at `c`. */
  function KnobMoves(c: Corner, zDist: real): (cmds: seq<Command>)
    ensures cmds != [] <==> Abs(zDist) > ZMaxDeviation
  {
    var servoIndex := ServoIndexOf(c);
    var direction := zDist > ZMaxDeviation;
    var smallStep := Abs(zDist) < 2.0 * ZMaxDeviation;
    if Abs(zDist) > ZMaxDeviation then
      var mid :=
        if smallStep then Interpolate(PositionOf(c), KnobMovePos(c, direction), SmallStepFactor)
        else KnobMovePos(c, direction);
      [ MoveTo(KnobMovePos(c, !direction)), Servo(servoIndex, ServoUpDeg),
        MoveTo(mid), Servo(servoIndex, ServoDownDeg), Detach(servoIndex) ]
    else
      []
  }

  /** A knob that is turned is turned by the protocol: go to the lever end
      on the side away from the turn direction, engage the corner's servo,
      move to the other end (or, for a small step, 60/40 between the knob and
      that end), disengage, detach. That is two servo commands and one
      detach, whatever the step size. */
  lemma KnobMovesProtocol(c: Corner, zDist: real)
    requires Abs(zDist) > ZMaxDeviation
    ensures var cmds := KnobMoves(c, zDist);
      var direction := zDist > ZMaxDeviation;
      && |cmds| == 5
      && cmds[0] == MoveTo(KnobMovePos(c, !direction))
      && cmds[2] == MoveTo(
           if Abs(zDist) < 2.0 * ZMaxDeviation
           then Interpolate(PositionOf(c), KnobMovePos(c, direction), SmallStepFactor)
           else KnobMovePos(c, direction))
      && cmds[1] == Servo(ServoIndexOf(c), ServoUpDeg)
      && cmds[3] == Servo(ServoIndexOf(c), ServoDownDeg)
      && cmds[4] == Detach(ServoIndexOf(c))
      && Count(cmds, IsServo) == 2 && Count(cmds, IsDetach) == 1 && Count(cmds, IsProbe) == 0
  {
    var cmds := KnobMoves(c, zDist);
    assert cmds == [cmds[0]] + [cmds[1]] + [cmds[2]] + [cmds[3]] + [cmds[4]];
    CountConcat([cmds[0]] + [cmds[1]] + [cmds[2]] + [cmds[3]], [cmds[4]], IsServo);
    CountConcat([cmds[0]] + [cmds[1]] + [cmds[2]], [cmds[3]], IsServo);
    CountConcat([cmds[0]] + [cmds[1]], [cmds[2]], IsServo);
    CountConcat([cmds[0]], [cmds[1]], IsServo);
    CountConcat([cmds[0]] + [cmds[1]] + [cmds[2]] + [cmds[3]], [cmds[4]], IsDetach);
    CountConcat([cmds[0]] + [cmds[1]] + [cmds[2]], [cmds[3]], IsDetach);
    CountConcat([cmds[0]] + [cmds[1]], [cmds[2]], IsDetach);
    CountConcat([cmds[0]], [cmds[1]], IsDetach);
    CountConcat([cmds[0]] + [cmds[1]] + [cmds[2]] + [cmds[3]], [cmds[4]], IsProbe);
    CountConcat([cmds[0]] + [cmds[1]] + [cmds[2]], [cmds[3]], IsProbe);
    CountConcat([cmds[0]] + [cmds[1]], [cmds[2]], IsProbe);
    CountConcat([cmds[0]], [cmds[1]], IsProbe);
  }

  /** The lever travels along Y only, 70 mm for a full step and 49 mm for a
      small one (a deviation under twice the tolerance). A bed that is high
      at a west knob moves the lever south, at an east knob north; a low bed
      the other way. */
  lemma KnobThrow(c: Corner, zDist: real)
    requires Abs(zDist) > ZMaxDeviation
    ensures var cmds := KnobMoves(c, zDist);
      var throw := if Abs(zDist) < 2.0 * ZMaxDeviation then SmallThrow else FullThrow;
      var south := (zDist > 0.0) != IsEast(c);
      && |cmds| == 5 && cmds[0].MoveTo? && cmds[2].MoveTo?
      && cmds[0].to.x == cmds[2].to.x == PositionOf(c).x
      && cmds[2].to.y - cmds[0].to.y == if south then -throw else throw
  {
  }

  // ---------------------------------------------------------------------
  // One levelling step: fancy_bed_leveling_at

  /** Whether a sample leads to a knob turn. A NaN sample never does. */
  predicate Adjusts(s: Sample)
  {
    s.Height? && Abs(s.mm) > ZMaxDeviation
  }

  /** The calls fancy_bed_leveling_at makes at `c` when the probe gives `s`. */
  function LevelingStep(c: Corner, s: Sample): (cmds: seq<Command>)
    ensures |cmds| >= 4
  {
    [LevelingOff, FeedrateSave, Probe(PositionOf(c)), FeedrateRestore]
    + (if s.Height? then KnobMoves(c, s.mm) else [])
  }

  /** Levelling is disabled and feedrate scaling saved before the one probe
      at the knob; feedrate scaling is restored right after it, before any
      knob command; knob commands follow exactly when the step adjusts. */
  lemma LevelingStepOrder(c: Corner, s: Sample)
    ensures var cmds := LevelingStep(c, s);
      && cmds[..4] == [LevelingOff, FeedrateSave, Probe(PositionOf(c)), FeedrateRestore]
      && (|cmds| > 4 <==> Adjusts(s))
      && Count(cmds, IsProbe) == 1
      && Count(cmds, IsServo) == (if Adjusts(s) then 2 else 0)
      && Count(cmds, IsMoveToZ) == 0
  {
    var head := [LevelingOff, FeedrateSave] + [Probe(PositionOf(c))] + [FeedrateRestore];
    var knob := if s.Height? then KnobMoves(c, s.mm) else [];
    assert LevelingStep(c, s) == head + knob;
    CountConcat(head, knob, IsProbe);
    CountConcat(head, knob, IsServo);
    CountConcat(head, knob, IsMoveToZ);
    CountAbsent(head, IsServo);
    CountAbsent(head, IsMoveToZ);
    CountConcat([LevelingOff, FeedrateSave] + [Probe(PositionOf(c))], [FeedrateRestore], IsProbe);
    CountConcat([LevelingOff, FeedrateSave], [Probe(PositionOf(c))], IsProbe);
    CountAbsent([LevelingOff, FeedrateSave], IsProbe);
    CountAbsent([FeedrateRestore], IsProbe);
    if Adjusts(s) {
      KnobMovesProtocol(c, s.mm);
    }
    KnobMovesNoZ(c, if s.Height? then s.mm else 0.0);
  }

  lemma KnobMovesNoZ(c: Corner, zDist: real)
    ensures Count(KnobMoves(c, zDist), IsMoveToZ) == 0
  {
    var cmds := KnobMoves(c, zDist);
    if cmds != [] {
      assert cmds == [cmds[0]] + [cmds[1]] + [cmds[2]] + [cmds[3]] + [cmds[4]];
      CountConcat([cmds[0]] + [cmds[1]] + [cmds[2]] + [cmds[3]], [cmds[4]], IsMoveToZ);
      CountConcat([cmds[0]] + [cmds[1]] + [cmds[2]], [cmds[3]], IsMoveToZ);
      CountConcat([cmds[0]] + [cmds[1]], [cmds[2]], IsMoveToZ);
      CountConcat([cmds[0]], [cmds[1]], IsMoveToZ);
    }
  }

  method MoveKnobIfNeeded(printer: Printer, c: Corner, zDist: real) returns (moved: bool)
    modifies printer
    ensures moved <==> Abs(zDist) > ZMaxDeviation
    ensures printer.trace == old(printer.trace) + KnobMoves(c, zDist)
    ensures printer.samples == old(printer.samples) && printer.z == old(printer.z)
  {
    var servoIndex := ServoIndexOf(c);
    var direction := zDist > ZMaxDeviation;
    var smallStep := Abs(zDist) < 2.0 * ZMaxDeviation;
    if Abs(zDist) > ZMaxDeviation {
      printer.DoBlockingMoveTo(KnobMovePos(c, !direction));
      printer.ServoMove(servoIndex, ServoUpDeg);
      if smallStep {
        printer.DoBlockingMoveTo(Interpolate(PositionOf(c), KnobMovePos(c, direction), SmallStepFactor));
      } else {
        printer.DoBlockingMoveTo(KnobMovePos(c, direction));
      }
      printer.ServoMove(servoIndex, ServoDownDeg);
      printer.ServoDetach(servoIndex);
      moved := true;
    } else {
      moved := false;
    }
  }

  method FancyBedLevelingAt(printer: Printer, c: Corner) returns (moved: bool)
    requires printer.samples != []
    modifies printer
    ensures moved == Adjusts(old(printer.samples)[0])
    ensures printer.trace == old(printer.trace) + LevelingStep(c, old(printer.samples)[0])
    ensures printer.samples == old(printer.samples)[1..] && printer.z == old(printer.z)
  {
    moved := false;
    printer.DisableBedLeveling();
    printer.RememberFeedrateScalingOff();
    var measured := printer.ProbeAtPoint(PositionOf(c));
    printer.RestoreFeedrateAndScaling();
    if measured.Height? {
      moved := MoveKnobIfNeeded(printer, c, measured.mm);
    }
  }

  // ---------------------------------------------------------------------
  // The full scan

  /** The count of knobs done after a step whose sample is `s`. */
  function NextCount(done: nat, s: Sample): nat
  {
    if Adjusts(s) then 0 else done + 1
  }

  /** Whether a scan at count `done` reaches four knobs done before the
      scripted samples run out. */
  predicate Finishes(samples: seq<Sample>, done: nat)
    decreases |samples|
  {
    done >= 4 || (samples != [] && Finishes(samples[1..], NextCount(done, samples[0])))
  }

  /** The number of steps, and so of samples, a scan at count `done` takes. */
  function ScanSteps(samples: seq<Sample>, done: nat): (n: nat)
    requires Finishes(samples, done)
    ensures n <= |samples|
    decreases |samples|
  {
    if done >= 4 then 0 else 1 + ScanSteps(samples[1..], NextCount(done, samples[0]))
  }

  /** The calls a scan makes from corner `c` at count `done`. */
  function ScanTrace(samples: seq<Sample>, c: Corner, done: nat): seq<Command>
    requires Finishes(samples, done)
    decreases |samples|
  {
    if done >= 4 then []
    else
      var next := NextPoint(c);
      LevelingStep(next, samples[0]) + ScanTrace(samples[1..], next, NextCount(done, samples[0]))
  }

  /** The corner the full scan, starting from SOUTH_EAST, visits at step `k`
      (counted from 0). */
  function Visit(k: nat): Corner
  {
    Advance(SouthEast, k + 1)
  }

  /** The scan visits SOUTH_WEST first and then goes round in enumeration order. */
  lemma VisitOrder(k: nat)
    ensures Visit(0) == SouthWest
    ensures Ordinal(Visit(k)) == k % 4
  {
    AdvanceOrdinal(SouthEast, k + 1);
    AdvanceOrdinal(SouthEast, 1);
  }

  /** The four samples that end at index `j` (exclusive) all need no adjustment. */
  predicate CalmLapEndsAt(samples: seq<Sample>, j: nat)
  {
    4 <= j <= |samples| && forall k | j - 4 <= k < j :: !Adjusts(samples[k])
  }

  /** The length of the run of samples at the end of `s` that need no adjustment. */
  function CalmRun(s: seq<Sample>): nat
  {
    if s == [] || Adjusts(s[|s| - 1]) then 0 else 1 + CalmRun(s[..|s| - 1])
  }

  /** The calm run at the end of the first `j` samples is at least `m` long
      exactly when the `m` samples before index `j` all need no adjustment. */
  lemma {:induction false} CalmRunAtLeast(s: seq<Sample>, j: nat, m: nat)
    requires j <= |s|
    ensures CalmRun(s[..j]) >= m <==> (m <= j && forall k | j - m <= k < j :: !Adjusts(s[k]))
    decreases m
  {
    if m > 0 && j > 0 {
      assert s[..j][..j - 1] == s[..j - 1];
      CalmRunAtLeast(s, j - 1, m - 1);
    }
  }

  /** From the state after `i` steps, the rest of the scan ends at the first
      index from `i` on where four calm samples in a row end. */
  lemma {:induction false} ScanFrom(s: seq<Sample>, i: nat)
    requires i <= |s|
    ensures var done := CalmRun(s[..i]);
      && (Finishes(s[i..], done) ==>
            CalmLapEndsAt(s, i + ScanSteps(s[i..], done))
            && forall j: nat | i <= j < i + ScanSteps(s[i..], done) :: !CalmLapEndsAt(s, j))
      && (!Finishes(s[i..], done) ==> forall j: nat | i <= j <= |s| :: !CalmLapEndsAt(s, j))
    decreases |s| - i
  {
    var done := CalmRun(s[..i]);
    CalmRunAtLeast(s, i, 4);
    if done < 4 && i < |s| {
      assert s[..i + 1][..i] == s[..i];
      assert NextCount(done, s[i]) == CalmRun(s[..i + 1]);
      assert s[i..][1..] == s[i + 1..];
      ScanFrom(s, i + 1);
    }
  }

  /** The full scan stops exactly at the first point where the last four
      samples it consumed needed no adjustment, and it runs out of samples
      exactly when the script holds no four calm samples in a row. */
  lemma ScanStopsAtFirstCalmLap(s: seq<Sample>, n: nat)
    ensures (Finishes(s, 0) && ScanSteps(s, 0) == n)
        <==> (CalmLapEndsAt(s, n) && forall j: nat | j < n :: !CalmLapEndsAt(s, j))
    ensures !Finishes(s, 0) <==> forall j: nat | j <= |s| :: !CalmLapEndsAt(s, j)
  {
    ScanFrom(s, 0);
    assert s[..0] == [] && s[0..] == s;
  }

  /** A levelling step probes once, at its knob. */
  lemma StepProbes(c: Corner, s: Sample)
    ensures Probes(LevelingStep(c, s)) == [PositionOf(c)]
  {
    var head := [LevelingOff, FeedrateSave, Probe(PositionOf(c)), FeedrateRestore];
    var knob := if s.Height? then KnobMoves(c, s.mm) else [];
    assert LevelingStep(c, s) == head + knob;
    ProbesConcat(head, knob);
    assert Probes(head) == [PositionOf(c)] by {
      assert head[3..][1..] == [] && Probes(head[3..]) == [];
      assert head[2..][1..] == head[3..] && Probes(head[2..]) == [PositionOf(c)];
      assert head[1..][1..] == head[2..] && Probes(head[1..]) == [PositionOf(c)];
    }
    if Adjusts(s) {
      KnobMovesProtocol(c, s.mm);
    }
    assert |Probes(knob)| == 0;
  }

  /** The scan from `c` probes once per step, and step k probes the knob k + 1
      calls of NextPoint after `c`. */
  lemma {:induction false} ScanVisits(s: seq<Sample>, c: Corner, done: nat)
    requires Finishes(s, done)
    ensures var ps := Probes(ScanTrace(s, c, done));
      && |ps| == ScanSteps(s, done)
      && forall k | 0 <= k < |ps| :: ps[k] == PositionOf(Advance(c, k + 1))
    decreases |s|
  {
    if done < 4 {
      var next := NextPoint(c);
      var rest := ScanTrace(s[1..], next, NextCount(done, s[0]));
      ScanVisits(s[1..], next, NextCount(done, s[0]));
      StepProbes(next, s[0]);
      ProbesConcat(LevelingStep(next, s[0]), rest);
      var ps := Probes(ScanTrace(s, c, done));
      assert ps == [PositionOf(next)] + Probes(rest);
      forall k | 0 <= k < |ps|
        ensures ps[k] == PositionOf(Advance(c, k + 1))
      {
        if k > 0 {
          AdvanceShift(c, k);
        }
      }
    }
  }

  /** When the full scan stops, its last four steps needed no adjustment and
      probed all four knobs, one each, in the order Visit gives. */
  lemma ScanEndsAfterCalmLap(s: seq<Sample>)
    requires Finishes(s, 0)
    ensures var n := ScanSteps(s, 0);
      var ps := Probes(ScanTrace(s, SouthEast, 0));
      && 4 <= n <= |s| && |ps| == n
      && (forall k | n - 4 <= k < n :: !Adjusts(s[k]))
      && {Visit(n - 4), Visit(n - 3), Visit(n - 2), Visit(n - 1)} == AllCorners
      && (forall k | 0 <= k < n :: ps[k] == PositionOf(Visit(k)))
      && (forall c: Corner :: PositionOf(c) in ps[n - 4..])
  {
    var n := ScanSteps(s, 0);
    var ps := Probes(ScanTrace(s, SouthEast, 0));
    ScanStopsAtFirstCalmLap(s, n);
    ScanVisits(s, SouthEast, 0);
    FourStepsVisitAll(SouthEast, n - 4);
    forall c: Corner
      ensures PositionOf(c) in ps[n - 4..]
    {
      assert c in {Visit(n - 4), Visit(n - 3), Visit(n - 2), Visit(n - 1)} by {
        assert c == SouthWest || c == NorthWest || c == NorthEast || c == SouthEast;
      }
      if c == Visit(n - 4) {
        assert ps[n - 4..][0] == PositionOf(c);
      } else if c == Visit(n - 3) {
        assert ps[n - 4..][1] == PositionOf(c);
      } else if c == Visit(n - 2) {
        assert ps[n - 4..][2] == PositionOf(c);
      } else {
        assert ps[n - 4..][3] == PositionOf(c);
      }
    }
  }

  /** Each step of a scan probes once and no step moves Z. */
  lemma {:induction false} ScanCounts(s: seq<Sample>, c: Corner, done: nat)
    requires Finishes(s, done)
    ensures Count(ScanTrace(s, c, done), IsProbe) == ScanSteps(s, done)
    ensures Count(ScanTrace(s, c, done), IsMoveToZ) == 0
    decreases |s|
  {
    if done < 4 {
      var next := NextPoint(c);
      var rest := ScanTrace(s[1..], next, NextCount(done, s[0]));
      ScanCounts(s[1..], next, NextCount(done, s[0]));
      LevelingStepOrder(next, s[0]);
      CountConcat(LevelingStep(next, s[0]), rest, IsProbe);
      CountConcat(LevelingStep(next, s[0]), rest, IsMoveToZ);
    }
  }

  /** Four samples out of tolerance followed by four within it end the scan
      after exactly eight steps, the second lap. */
  lemma ScanExampleTwoLaps()
    ensures var s := [Height(0.02), Height(0.02), Height(0.02), Height(0.02),
                      Height(0.01), Height(0.01), Height(0.01), Height(0.01)];
      Finishes(s, 0) && ScanSteps(s, 0) == 8
  {
  }

  /** An adjustment resets the count: three calm samples, one to correct,
      then four calm ones take eight steps, and a NaN counts as calm. */
  lemma ScanExampleReset()
    ensures var s := [Height(0.0), NaN, Height(-0.01), Height(-0.05),
                      Height(0.015), NaN, Height(0.0), Height(-0.015), Height(0.1)];
      Finishes(s, 0) && ScanSteps(s, 0) == 8
  {
  }

  // ---------------------------------------------------------------------
  // The G36 command

  /** Whether G36 with selector `r` goes past its precondition checks. */
  predicate Accepted(homed: bool, r: int)
  {
    homed && -1 <= r <= 3
  }

  /** What the scripted probe must supply: one sample for a single corner,
      enough for the full scan to finish otherwise. */
  predicate Scripted(homed: bool, r: int, samples: seq<Sample>)
  {
    Accepted(homed, r) ==> if r == -1 then Finishes(samples, 0) else samples != []
  }

  /** The number of probe samples G36 consumes. */
  function SamplesUsed(homed: bool, r: int, samples: seq<Sample>): (n: nat)
    requires Scripted(homed, r, samples)
    ensures n <= |samples|
  {
    if !Accepted(homed, r) then 0 else if r == -1 then ScanSteps(samples, 0) else 1
  }

  /** The calls G36 makes, with the head at height `z` before it starts and
      `clearance` the Z the probe needs to be deployed. */
  function G36Trace(homed: bool, z: real, r: int, clearance: real, samples: seq<Sample>): seq<Command>
    requires Scripted(homed, r, samples)
  {
    if !Accepted(homed, r) then []
    else
      (if z < clearance then [MoveToZ(clearance)] else [])
      + (if r != -1 then LevelingStep(CornerOf(r), samples[0]) else ScanTrace(samples, SouthEast, 0))
  }

  /** Without homing, or with R outside [-1, 3], G36 neither moves nor probes. */
  lemma G36Rejects(homed: bool, z: real, r: int, clearance: real, samples: seq<Sample>)
    requires !homed || r < -1 || r > 3
    ensures Scripted(homed, r, samples)
    ensures G36Trace(homed, z, r, clearance, samples) == []
    ensures SamplesUsed(homed, r, samples) == 0
  {
  }

  /** An accepted G36 first raises the head, and only when it is below the
      clearance; it never moves Z again, and it probes once per sample used:
      once for a single corner, at that corner. */
  lemma G36Motion(homed: bool, z: real, r: int, clearance: real, samples: seq<Sample>)
    requires Accepted(homed, r) && Scripted(homed, r, samples)
    ensures var t := G36Trace(homed, z, r, clearance, samples);
      && t != []
      && (t[0] == MoveToZ(clearance) <==> z < clearance)
      && Count(t, IsMoveToZ) == (if z < clearance then 1 else 0)
      && Count(t, IsProbe) == SamplesUsed(homed, r, samples)
      && (r != -1 ==> Count(t, IsProbe) == 1 && Probe(PositionOf(CornerOf(r))) in t)
  {
    var raise: seq<Command> := if z < clearance then [MoveToZ(clearance)] else [];
    var body := if r != -1 then LevelingStep(CornerOf(r), samples[0]) else ScanTrace(samples, SouthEast, 0);
    var t := G36Trace(homed, z, r, clearance, samples);
    assert t == raise + body;
    CountConcat(raise, body, IsMoveToZ);
    CountConcat(raise, body, IsProbe);
    if r != -1 {
      LevelingStepOrder(CornerOf(r), samples[0]);
      assert body[2] == Probe(PositionOf(CornerOf(r)));
      assert t[|raise| + 2] == body[2];
    } else {
      ScanCounts(samples, SouthEast, 0);
      assert body[0] == LevelingOff;
    }
  }

  /** Where an accepted G36 probes: in single-corner mode the selected knob
      only; in a full scan the knob of Visit(k) at its k-th probe, starting
      with SOUTH_WEST, for at least one lap. */
  lemma G36Probes(homed: bool, z: real, r: int, clearance: real, samples: seq<Sample>)
    requires Accepted(homed, r) && Scripted(homed, r, samples)
    ensures var ps := Probes(G36Trace(homed, z, r, clearance, samples));
      && |ps| == SamplesUsed(homed, r, samples)
      && (r != -1 ==> ps == [PositionOf(CornerOf(r))])
      && (r == -1 ==>
            && |ps| >= 4 && ps[0] == PositionOf(SouthWest)
            && forall k | 0 <= k < |ps| :: ps[k] == PositionOf(Visit(k)))
  {
    var raise: seq<Command> := if z < clearance then [MoveToZ(clearance)] else [];
    var body := if r != -1 then LevelingStep(CornerOf(r), samples[0]) else ScanTrace(samples, SouthEast, 0);
    assert Probes(G36Trace(homed, z, r, clearance, samples)) == Probes(body) by {
      assert G36Trace(homed, z, r, clearance, samples) == raise + body;
      ProbesConcat(raise, body);
      assert Probes(raise) == [];
    }
    if r != -1 {
      StepProbes(CornerOf(r), samples[0]);
    } else {
      var n := ScanSteps(samples, 0);
      ScanStopsAtFirstCalmLap(samples, n);
      ScanVisits(samples, SouthEast, 0);
      VisitOrder(0);
    }
  }

  /** G36: check homing and the R selector, raise the head to the probe
      clearance if it is lower, then level one corner or run the full scan. */
  method G36(printer: Printer, r: int, clearance: real)
    requires Scripted(printer.homed, r, printer.samples)
    modifies printer
    ensures printer.trace
      == old(printer.trace) + G36Trace(printer.homed, old(printer.z), r, clearance, old(printer.samples))
    ensures printer.samples == old(printer.samples)[SamplesUsed(printer.homed, r, old(printer.samples))..]
    ensures printer.z
      == if Accepted(printer.homed, r) && old(printer.z) < clearance then clearance else old(printer.z)
  {
    if !printer.homed {
      assert printer.trace == old(printer.trace) + [];
      return;
    }
    if r < -1 || r > 3 {
      assert printer.trace == old(printer.trace) + [];
      return;
    }
    ghost var raise: seq<Command> := if printer.z < clearance then [MoveToZ(clearance)] else [];
    if printer.z < clearance {
      printer.DoBlockingMoveToZ(clearance);
    } else {
      assert printer.trace == old(printer.trace) + raise;
    }
    ghost var samples0 := printer.samples;
    ghost var trace0 := printer.trace;
    assert trace0 == old(printer.trace) + raise && samples0 == old(printer.samples);
    if r != -1 {
      var fp := CornerOf(r);
      var _ := FancyBedLevelingAt(printer, fp);
      assert printer.trace == trace0 + LevelingStep(fp, samples0[0]);
    } else {
      var knobsDone: nat := 0;
      var step: nat := 0;
      var fp := SouthEast;
      while knobsDone < 4
        invariant step <= |samples0| && printer.samples == samples0[step..]
        invariant Finishes(printer.samples, knobsDone)
        invariant step + ScanSteps(printer.samples, knobsDone) == ScanSteps(samples0, 0)
        invariant printer.trace + ScanTrace(printer.samples, fp, knobsDone)
               == trace0 + ScanTrace(samples0, SouthEast, 0)
        invariant fp == Advance(SouthEast, step)
        invariant knobsDone == CalmRun(samples0[..step])
        invariant printer.z == if old(printer.z) < clearance then clearance else old(printer.z)
        decreases |printer.samples|
      {
        ghost var samplesBefore, doneBefore, fpBefore, traceBefore := printer.samples, knobsDone, fp, printer.trace;
        step := step + 1;
        fp := NextPoint(fp);
        var moved := FancyBedLevelingAt(printer, fp);
        if moved {
          knobsDone := 0;
        } else {
          knobsDone := knobsDone + 1;
        }
        assert knobsDone == NextCount(doneBefore, samplesBefore[0]);
        assert samples0[..step][..step - 1] == samples0[..step - 1];
        assert ScanTrace(samplesBefore, fpBefore, doneBefore)
            == LevelingStep(fp, samplesBefore[0]) + ScanTrace(printer.samples, fp, knobsDone);
        assert printer.trace == traceBefore + LevelingStep(fp, samplesBefore[0]);
        ConcatAssoc(traceBefore, LevelingStep(fp, samplesBefore[0]), ScanTrace(printer.samples, fp, knobsDone));
      }
      assert printer.trace + ScanTrace(printer.samples, fp, knobsDone) == printer.trace;
      assert printer.trace == trace0 + ScanTrace(samples0, SouthEast, 0);
    }
  }
}
