# Fancy bed levelling with four corner knobs (G36, and its G33 draft)

This project models the knob-levelling commands of a Marlin-based printer
whose bed rests on four levelling knobs. Two servos, one per side of the
bed, can each engage the knob wheel of the two corners on their side; moving
the print head along Y while a servo is engaged throws a lever that turns
the knob a little.

- `G36` (`Marlin/src/gcode/calibrate/G36.cpp`) is the finished command. It
  refuses to run unless the axes are homed and the `R` selector is in
  [-1, 3], raises the head to the probe clearance if it is lower, and then
  either levels the one corner `R` names or, for `R = -1`, scans the
  corners in the order SW, NW, NE, SE, SW, ... (starting after SOUTH_EAST)
  until four corners in a row needed no turn.
- One levelling step (`fancy_bed_leveling_at`) disables mesh levelling,
  saves feedrate scaling, probes the knob once, restores feedrate scaling,
  and, unless the reading is NaN, hands the reading to the decision rule.
- The decision rule (`move_knob_if_needed`) turns the knob exactly when the
  reading is more than 0.015 mm away from zero. It goes to the lever end on
  the side opposite the turn direction, engages the servo (90 degrees), moves
  to the other end (or, when the reading is less than 0.03 mm from zero,
  only to a point 60/40 between the knob and that end), disengages (0 degrees) and detaches
  the servo.
- `G33` (`Marlin/src/gcode/calibrate/G33.cpp`) is an earlier draft. It uses
  the same knob positions and servos, a 30 mm lever offset with no mirroring
  on the east side, a 0.02 mm tolerance, no small step, no detach, no
  homing check, and it levels the south-west knob only.

The firmware services (motion, servos, probe, mesh levelling, feedrate
scaling) are the class `Machine.Printer`: every call appends a `Command`
to its `trace`, and the probe returns the next entry of a scripted list of
`Sample`s, where `NaN` stands for a NaN reading. Each operation of the two
files is a function giving the calls it makes (`KnobMoves`,
`LevelingStep`, `ScanTrace`, `G36Trace`, `G33Trace`), and the imperative
code is a module-level method (`MoveKnobIfNeeded`, `FancyBedLevelingAt`,
`G36`, `G33`) that takes the `Printer` as a parameter and is proved to
append exactly that trace. `Probes` lists the positions a trace probes.

Modules and files:

- `machine.dfy`, module `Machine`: positions, samples, the command trace,
  `Count` over a trace, and the `Printer` class.
- `fancy_points.dfy`, module `FancyPoints`: the G36 corner tables, lever
  end points, interpolation and visiting order.
- `fancy_leveling.dfy`, module `FancyLeveling`: the G36 decision rule, one
  levelling step, the full scan and the `G36` command.
- `draft_g33.dfy`, module `DraftG33`: all of G33, with lemmas that compare
  it with G36.

Feedrate scaling is restored right after the probe, before any knob
command (`FancyLeveling.LevelingStepOrder`).

## Model

| member | source | states |
|---|---|---|
| FancyPoints.CornerOf | Marlin/src/gcode/calibrate/G36.cpp:123-126 | an R value in [0, 3] selects the corner whose enumeration value is R (SW=0, NW=1, NE=2, SE=3) |
| FancyPoints.OrdinalRoundTrip | Marlin/src/gcode/calibrate/G36.cpp:123-126 | every corner is selected by the R value equal to its enumeration value |
| FancyPoints.PositionOf | Marlin/src/gcode/calibrate/G36.cpp:158-172 | east knobs sit at X 260 and west knobs at X 40; north knobs sit at Y 260 and south knobs at Y 40 |
| FancyPoints.PositionsDistinct | Marlin/src/gcode/calibrate/G36.cpp:50-56 | two corners have the same position only if they are the same corner |
| FancyPoints.ServoIndexOf | Marlin/src/gcode/calibrate/G36.cpp:174-188 | the servo index is always 1 or 3; it is 3 exactly for NE and SE |
| FancyPoints.ServoSharedBySide | Marlin/src/gcode/calibrate/G36.cpp:58-61 | two corners share a servo exactly when they are on the same side of the bed |
| FancyPoints.KnobMovePos | Marlin/src/gcode/calibrate/G36.cpp:191-213 | a lever end keeps the knob's X and lies 35 mm from the knob along Y; it is south of the knob exactly when lowerPos differs from "east corner" |
| FancyPoints.KnobEndpoints | Marlin/src/gcode/calibrate/G36.cpp:191-213 | the two ends of one knob's lever lie 70 mm apart and symmetric about the knob; their order is mirrored on the east side |
| FancyPoints.Interpolate | Marlin/src/gcode/calibrate/G36.cpp:244-250 | factor 1 gives a, factor 0 gives b, factor 0.5 gives the midpoint, and a factor in [0, 1] gives a point between a and b in each coordinate |
| FancyPoints.NextPoint | Marlin/src/gcode/calibrate/G36.cpp:277-291 | the next corner's enumeration value is one more, modulo 4 |
| FancyPoints.AdvanceOrdinal | Marlin/src/gcode/calibrate/G36.cpp:277-291 | after k calls of NextPoint the enumeration value has moved on by k, modulo 4 |
| FancyPoints.NextPointCycle | Marlin/src/gcode/calibrate/G36.cpp:277-291 | four calls of NextPoint return to the start, and one, two or three calls do not |
| FancyPoints.FourStepsVisitAll | Marlin/src/gcode/calibrate/G36.cpp:277-291 | any four successive calls of NextPoint visit all four corners |
| FancyLeveling.KnobMoves | Marlin/src/gcode/calibrate/G36.cpp:215-242 | the decision rule issues commands exactly when the absolute reading exceeds 0.015 |
| FancyLeveling.KnobMovesProtocol | Marlin/src/gcode/calibrate/G36.cpp:215-242 | a turn is exactly: move to the lever end for the opposite direction, servo 90, move to the far end (or to the 0.6 interpolation for a reading less than 0.03 from zero), servo 0, detach, all on the corner's servo; two servo commands, one detach, no probe |
| FancyLeveling.KnobThrow | Marlin/src/gcode/calibrate/G36.cpp:217-232 | the lever travels along Y only, 70 mm for a full step and 49 mm for a small step; a high reading moves it south at a west knob and north at an east knob, a low reading the other way |
| FancyLeveling.MoveKnobIfNeeded | Marlin/src/gcode/calibrate/G36.cpp:215-242 | returns true exactly when the absolute reading exceeds 0.015 and appends exactly the KnobMoves commands to the trace |
| FancyLeveling.LevelingStepOrder | Marlin/src/gcode/calibrate/G36.cpp:252-275 | a step starts with levelling off, feedrate save, the one probe at the knob and feedrate restore, before any knob command; knob commands follow exactly when the reading adjusts; NaN adds none; no Z move |
| FancyLeveling.FancyBedLevelingAt | Marlin/src/gcode/calibrate/G36.cpp:252-275 | consumes one sample, appends the LevelingStep commands, and returns true exactly when the sample is a number beyond the tolerance |
| FancyLeveling.CalmRunAtLeast | Marlin/src/gcode/calibrate/G36.cpp:140-147 | the knobs-done counter (the run of unadjusted samples at the end) is at least m exactly when the last m samples all needed no turn |
| FancyLeveling.ScanStopsAtFirstCalmLap | Marlin/src/gcode/calibrate/G36.cpp:128-151 | the scan stops after n steps exactly when n is the first index at which four samples in a row needing no turn end; it runs out of samples exactly when there is no such index |
| FancyLeveling.StepProbes | Marlin/src/gcode/calibrate/G36.cpp:252-275 | the positions a levelling step probes are exactly the one knob position of its corner |
| FancyLeveling.ScanVisits | Marlin/src/gcode/calibrate/G36.cpp:128-151 | the scan from corner c probes once per step, and step k probes the knob reached by k + 1 calls of getNextPoint from c |
| FancyLeveling.ScanEndsAfterCalmLap | Marlin/src/gcode/calibrate/G36.cpp:128-151 | when the scan stops, its last four steps needed no turn; step k of the scan probes the knob of Visit(k), and the last four probes cover all four knobs |
| FancyLeveling.VisitOrder | Marlin/src/gcode/calibrate/G36.cpp:132-138 | starting from SOUTH_EAST, Visit(0) is SOUTH_WEST and Visit(k) has enumeration value k mod 4; ScanEndsAfterCalmLap and G36Probes show the scan probes Visit(k) at step k |
| FancyLeveling.ScanCounts | Marlin/src/gcode/calibrate/G36.cpp:133-149 | the scan probes once per step and never moves Z |
| FancyLeveling.ScanExampleTwoLaps | Marlin/src/gcode/calibrate/G36.cpp:133-149 | four readings of 0.02 followed by four of 0.01 end the scan after exactly eight steps |
| FancyLeveling.ScanExampleReset | Marlin/src/gcode/calibrate/G36.cpp:140-147 | one adjustment after three calm samples resets the count, so the scan needs four more; NaN samples count as calm |
| FancyLeveling.G36Rejects | Marlin/src/gcode/calibrate/G36.cpp:104-115 | without homing, or with R outside [-1, 3], G36 makes no call at all and consumes no sample |
| FancyLeveling.G36Motion | Marlin/src/gcode/calibrate/G36.cpp:117-127 | an accepted G36 starts with a Z move to the clearance exactly when the head is below it and makes no other Z move; it probes once per sample used, and in single-corner mode exactly once, at the selected corner |
| FancyLeveling.G36Probes | Marlin/src/gcode/calibrate/G36.cpp:123-151 | the positions G36 probes, in order, number the samples used; in single-corner mode they are the selected knob only; in a full scan the k-th is the knob of Visit(k), the first SOUTH_WEST, for at least four probes |
| FancyLeveling.G36 | Marlin/src/gcode/calibrate/G36.cpp:102-154 | appends exactly G36Trace, consumes exactly the samples the scan or single step uses, and leaves Z at the clearance only if it raised it; the loop keeps the knobs-done counter equal to the calm run of the samples consumed |
| DraftG33.Final | Marlin/src/gcode/calibrate/G33.cpp:50 | each draft corner's enumeration value is one less (modulo 4) than that of the same corner in G36 |
| DraftG33.PositionOf | Marlin/src/gcode/calibrate/G33.cpp:102-116 | every knob position equals the G36 position of the same corner |
| DraftG33.ServoIndexOf | Marlin/src/gcode/calibrate/G33.cpp:118-132 | every servo index equals the G36 one of the same corner: 1 exactly for the west corners |
| DraftG33.KnobMovePos | Marlin/src/gcode/calibrate/G33.cpp:135-150 | a lever end keeps the knob's X and lies 30 mm south of the knob when lowerPos holds and 30 mm north otherwise, on every corner |
| DraftG33.KnobMoves | Marlin/src/gcode/calibrate/G33.cpp:153-174 | no command exactly when the reading lies in [-0.02, 0.02], bounds included; otherwise four commands, the first and third being moves |
| DraftG33.KnobMovesProtocol | Marlin/src/gcode/calibrate/G33.cpp:156-169 | a high reading moves to the south lever end (lowerPos true), engages (90) the corner's servo, moves to the north end and disengages (0); a low reading runs from the north end to the south end; the lever travels 60 mm along Y |
| DraftG33.KnobMovesNeverDetach | Marlin/src/gcode/calibrate/G33.cpp:153-174 | no reading makes the draft detach a servo |
| DraftG33.KnobMovesMirror | Marlin/src/gcode/calibrate/G33.cpp:156-169 | a low reading gives the high reading's commands with the start and end moves swapped |
| DraftG33.ThrowVersusFinal | Marlin/src/gcode/calibrate/G33.cpp:135-169 | for the same reading the draft throws the lever the same way as G36 on the east knobs and the opposite way on the west knobs |
| DraftG33.G33Order | Marlin/src/gcode/calibrate/G33.cpp:73-96 | G33 raises the head to 10, disables levelling, saves feedrate, probes (40, 40) once and restores feedrate before any knob command; it never detaches, and turns the knob exactly for a number outside [-0.02, 0.02] |
| DraftG33.MoveKnobIfNeeded | Marlin/src/gcode/calibrate/G33.cpp:153-174 | appends exactly the KnobMoves commands and changes nothing else |
| DraftG33.G33 | Marlin/src/gcode/calibrate/G33.cpp:70-98 | consumes one sample, appends exactly G33Trace for it, and leaves the head at Z 10 |

## Left out

- Serial output (the status lines, the step and knobs-done printouts): diagnostics only.
- The motion planner, probe driver, servo driver, mesh levelling and feedrate scaling are not modelled beyond the order of the calls into them. The probe does not move the head in the model, so `Printer.z` tracks only Z moves the commands themselves make.
- The `HAS_LEVELING` and `HAS_SERVOS` build options are taken as enabled, so the call that disables levelling is always issued.
- `Z_CLEARANCE_DEPLOY_PROBE` comes from the printer configuration, which is not part of this model; it is the `clearance` parameter of `G36`.
- `parser.intval('R', -1)`: `R` is an integer parameter, with -1 standing for an absent `R`.
- Floating point: positions, readings, the tolerances and the 0.6 factor are exact reals, so behaviour exactly at 0.015, 0.02 and 0.03 is idealised (none of these is exact in binary floating point). A NaN reading is the `NaN` sample and is never compared.
- FancyLeveling.G36: the source loop has no iteration cap and is unbounded for a bed that never settles. The model runs on a finite script of probe samples and requires the script to be long enough for the scan to finish (`Finishes`); `ScanStopsAtFirstCalmLap` says exactly which scripts those are.
- The `default` returns after the switches in `FancyPoint2XY`, `FancyPoint2ServoIndex` and `getNextPoint` cannot be reached with a valid corner, and the model's corners are always valid.
- The disabled `#if 0` block at the end of G33.cpp: it is sketch code that is never compiled.
