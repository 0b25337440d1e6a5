/** The firmware services the knob-levelling commands drive: XY and Z motion,
    the servos, the bed probe, mesh levelling and feedrate scaling.

    Every call into these services is recorded, in order, as an entry of a
    command trace; the probe does not measure anything but hands out the next
    sample of a scripted list. */
module Machine {

  /** A point of the bed plane, in millimetres. */
  datatype Pos = Pos(x: real, y: real)

  /** One probe sample: a height deviation in millimetres, or NaN when the
      probe gave no usable reading. */
  datatype Sample = NaN | Height(mm: real)

  /** One call into the firmware services, as it appears in the trace. */
  datatype Command =
    | MoveTo(to: Pos)                  // do_blocking_move_to(xy)
    | MoveToZ(z: real)                 // do_blocking_move_to_z(z)
    | Servo(index: int, degrees: int)  // servo[index].move(degrees)
    | Detach(index: int)               // servo[index].detach()
    | Probe(at: Pos)                   // probe.probe_at_point(at, PROBE_PT_STOW, 1)
    | LevelingOff                      // set_bed_leveling_enabled(false)
    | FeedrateSave                     // remember_feedrate_scaling_off()
    | FeedrateRestore                  // restore_feedrate_and_scaling()

  predicate IsProbe(c: Command) { c.Probe? }
  predicate IsServo(c: Command) { c.Servo? }
  predicate IsDetach(c: Command) { c.Detach? }
  predicate IsMoveToZ(c: Command) { c.MoveToZ? }

  /** fabs */
  function Abs(x: real): (r: real)
    ensures r >= 0.0 && (r == x || r == -x)
  {
    if x < 0.0 then -x else x
  }

  /** The number of commands of `cmds` that satisfy `p`. */
  function Count(cmds: seq<Command>, p: Command -> bool): (n: nat)
    ensures n <= |cmds|
  {
    if cmds == [] then 0 else (if p(cmds[0]) then 1 else 0) + Count(cmds[1..], p)
  }

  lemma {:induction false} CountConcat(a: seq<Command>, b: seq<Command>, p: Command -> bool)
    ensures Count(a + b, p) == Count(a, p) + Count(b, p)
  {
    if a == [] {
      assert a + b == b;
    } else {
      assert (a + b)[1..] == a[1..] + b;
      CountConcat(a[1..], b, p);
    }
  }

  /** The positions probed by `cmds`, in order. */
  function Probes(cmds: seq<Command>): (ps: seq<Pos>)
    ensures |ps| == Count(cmds, IsProbe)
  {
    if cmds == [] then [] else (if cmds[0].Probe? then [cmds[0].at] else []) + Probes(cmds[1..])
  }

  lemma {:induction false} ProbesConcat(a: seq<Command>, b: seq<Command>)
    ensures Probes(a + b) == Probes(a) + Probes(b)
  {
    if a == [] {
      assert a + b == b;
    } else {
      assert (a + b)[1..] == a[1..] + b;
      ProbesConcat(a[1..], b);
    }
  }

  lemma ConcatAssoc(a: seq<Command>, b: seq<Command>, c: seq<Command>)
    ensures (a + b) + c == a + (b + c)
  {
  }

  lemma {:induction false} CountAbsent(cmds: seq<Command>, p: Command -> bool)
    requires forall i | 0 <= i < |cmds| :: !p(cmds[i])
    ensures Count(cmds, p) == 0
  {
    if cmds != [] {
      CountAbsent(cmds[1..], p);
    }
  }

  /** The machine state the levelling commands read and change: whether the
      axes are homed, the current Z of the print head, the probe samples still
      to come, and the trace of every call made so far. */
  class Printer {
    const homed: bool
    var z: real
    var samples: seq<Sample>
    var trace: seq<Command>

    constructor (homed: bool, z: real, samples: seq<Sample>)
      ensures this.homed == homed && this.z == z && this.samples == samples
      ensures trace == []
    {
      this.homed := homed;
      this.z := z;
      this.samples := samples;
      trace := [];
    }

    method DoBlockingMoveTo(p: Pos)
      modifies this
      ensures trace == old(trace) + [MoveTo(p)]
      ensures z == old(z) && samples == old(samples)
    {
      trace := trace + [MoveTo(p)];
    }

    method DoBlockingMoveToZ(height: real)
      modifies this
      ensures trace == old(trace) + [MoveToZ(height)]
      ensures z == height && samples == old(samples)
    {
      trace := trace + [MoveToZ(height)];
      z := height;
    }

    method ServoMove(index: int, degrees: int)
      modifies this
      ensures trace == old(trace) + [Servo(index, degrees)]
      ensures z == old(z) && samples == old(samples)
    {
      trace := trace + [Servo(index, degrees)];
    }

    method ServoDetach(index: int)
      modifies this
      ensures trace == old(trace) + [Detach(index)]
      ensures z == old(z) && samples == old(samples)
    {
      trace := trace + [Detach(index)];
    }

    method DisableBedLeveling()
      modifies this
      ensures trace == old(trace) + [LevelingOff]
      ensures z == old(z) && samples == old(samples)
    {
      trace := trace + [LevelingOff];
    }

    method RememberFeedrateScalingOff()
      modifies this
      ensures trace == old(trace) + [FeedrateSave]
      ensures z == old(z) && samples == old(samples)
    {
      trace := trace + [FeedrateSave];
    }

    method RestoreFeedrateAndScaling()
      modifies this
      ensures trace == old(trace) + [FeedrateRestore]
      ensures z == old(z) && samples == old(samples)
    {
      trace := trace + [FeedrateRestore];
    }

    /** Probes once at `p` and returns the next scripted sample. */
    method ProbeAtPoint(p: Pos) returns (s: Sample)
      requires samples != []
      modifies this
      ensures s == old(samples)[0] && samples == old(samples)[1..]
      ensures trace == old(trace) + [Probe(p)]
      ensures z == old(z)
    {
      s := samples[0];
      samples := samples[1..];
      trace := trace + [Probe(p)];
    }
  }
}
