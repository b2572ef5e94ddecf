/** Properties of the motor drivers' specification functions: the servo's
    duty calibration, the stepper's rounding of degrees to steps, the shape of
    the pin-write trace, the one-coil-at-a-time property of the half-step
    table, and how the angle and the phase index evolve over several moves. */
module MotorProperties {
  import opened GpioTrace
  import opened MotorControl

  // ---------------------------------------------------------------------
  // Servo duty cycle
  // ---------------------------------------------------------------------

  /** The three calibration points: 0 deg -> 2 %, 90 deg -> 7 %, 180 deg -> 12 %. */
  lemma DutyCalibrationPoints()
    ensures Duty(0) == 2.0 && Duty(90) == 7.0 && Duty(180) == 12.0
  {
  }

  /** A larger angle always commands a strictly larger duty cycle. */
  lemma DutyStrictlyIncreasing(a: int, b: int)
    requires a < b
    ensures Duty(a) < Duty(b)
  {
  }

  // ---------------------------------------------------------------------
  // Degrees to steps
  // ---------------------------------------------------------------------

  /** Concrete step counts: no steps for 0 degrees, exactly one revolution
      of steps for a full turn either way, 512 for 45 and -1024 for -90. */
  lemma StepsForFullTurn()
    ensures StepsFor(0) == 0
    ensures StepsFor(360) == StepsPerRevolution && StepsFor(-360) == -StepsPerRevolution
    ensures StepsFor(45) == 512 && StepsFor(-90) == -1024
  {
  }

  /** Rounding is symmetric: a move and its reverse take opposite step counts. */
  lemma StepsForOdd(d: int)
    ensures StepsFor(-d) == -StepsFor(d)
  {
  }

  /** Rounding is monotone: a larger move never takes fewer steps. */
  lemma StepsForMonotone(d: int, e: int)
    requires d <= e
    ensures StepsFor(d) <= StepsFor(e)
  {
  }

  /** A move of a whole revolution, either way, leaves both the angle and the
      phase index where they were, because 4096 is a multiple of 8. */
  lemma FullRevolutionRestoresState(angle: int, step: int, d: int)
    requires 0 <= angle < 360 && 0 <= step < |StepSequence|
    requires d == 360 || d == -360
    ensures Abs(StepsFor(d)) == StepsPerRevolution
    ensures (angle + d) % 360 == angle
    ensures (step + StepsFor(d)) % |StepSequence| == step
  {
  }

  // ---------------------------------------------------------------------
  // The phase table
  // ---------------------------------------------------------------------

  /** Every phase gives exactly one level, 0 or 1, to each of the four coils. */
  lemma PhaseTableShape()
    ensures |StepSequence| == 8
    ensures forall i :: 0 <= i < |StepSequence| ==> |StepSequence[i]| == 4
    ensures forall i, j :: 0 <= i < |StepSequence| && 0 <= j < |StepSequence[i]| ==>
              StepSequence[i][j] == 0 || StepSequence[i][j] == 1
  {
  }

  /** Number of coils whose level differs between two patterns. */
  function PinsChanged(p: seq<int>, q: seq<int>): nat
    requires |p| == |q|
  {
    if p == [] then 0 else (if p[0] != q[0] then 1 else 0) + PinsChanged(p[1..], q[1..])
  }

  lemma {:induction false} PinsChangedSymmetric(p: seq<int>, q: seq<int>)
    requires |p| == |q|
    ensures PinsChanged(p, q) == PinsChanged(q, p)
  {
    if p != [] {
      PinsChangedSymmetric(p[1..], q[1..]);
    }
  }

  /** Cyclically adjacent phases, 7 -> 0 included, differ in exactly one coil. */
  lemma AdjacentPhasesDifferInOnePin(i: int)
    requires 0 <= i < |StepSequence|
    ensures PinsChanged(StepSequence[i], StepSequence[(i + 1) % |StepSequence|]) == 1
  {
    if i == 0 {} else if i == 1 {} else if i == 2 {} else if i == 3 {}
    else if i == 4 {} else if i == 5 {} else if i == 6 {} else {}
  }

  /** Hence every single step, clockwise or counter-clockwise, switches
      exactly one coil relative to the phase before it. */
  lemma ConsecutiveStepsChangeOnePin(start: int, k: nat, clockwise: bool)
    ensures PinsChanged(StepSequence[StepIndex(start, k, clockwise)],
                        StepSequence[StepIndex(start, k + 1, clockwise)]) == 1
  {
    StepIndexNext(start, k, clockwise);
    PhaseTableShape();
    var i := StepIndex(start, k, clockwise);
    var j := StepIndex(start, k + 1, clockwise);
    if clockwise {
      AdjacentPhasesDifferInOnePin(i);
    } else {
      assert (j + 1) % |StepSequence| == i;
      AdjacentPhasesDifferInOnePin(j);
      PinsChangedSymmetric(StepSequence[j], StepSequence[i]);
    }
  }

  // ---------------------------------------------------------------------
  // The pin-write trace of a move
  // ---------------------------------------------------------------------

  lemma MulMonotone(a: nat, b: nat, w: nat)
    requires a <= b
    ensures a * w <= b * w
  {
  }

  /** `n` steps issue `Min(|pins|, 4)` writes each: `zip` stops at the shorter
      of the pin list and the 4-entry pattern. */
  lemma {:induction false} StepTraceLength(pins: seq<int>, start: int, n: nat, clockwise: bool)
    ensures |StepTrace(pins, start, n, clockwise)| == n * Min(|pins|, 4)
  {
    if n > 0 {
      StepTraceLength(pins, start, n - 1, clockwise);
      PhaseTableShape();
    }
  }

  /** With the four pins the driver is built for, a move of `n` steps issues
      exactly `4 * n` pin writes. */
  lemma FourPinStepTraceLength(pins: seq<int>, start: int, n: nat, clockwise: bool)
    requires |pins| == 4
    ensures |StepTrace(pins, start, n, clockwise)| == 4 * n
  {
    StepTraceLength(pins, start, n, clockwise);
  }

  /** Write `j` of step `k` (0-based) sets pin `pins[j]` to coil `j`'s level in
      the phase reached after `k + 1` steps: every step writes its phase's
      pattern to the pins in pin order. */
  lemma {:induction false} StepTraceAt(pins: seq<int>, start: int, n: nat, clockwise: bool, k: nat, j: nat)
    requires k < n && j < Min(|pins|, 4)
    ensures |StepTrace(pins, start, n, clockwise)| == n * Min(|pins|, 4)
    ensures StepTrace(pins, start, n, clockwise)[k * Min(|pins|, 4) + j]
         == Output(pins[j], StepSequence[StepIndex(start, k + 1, clockwise)][j])
  {
    var w := Min(|pins|, 4);
    PhaseTableShape();
    StepTraceLength(pins, start, n, clockwise);
    StepTraceLength(pins, start, n - 1, clockwise);
    if k < n - 1 {
      MulMonotone(k + 1, n - 1, w);
      assert k * w + j < (n - 1) * w;
      StepTraceAt(pins, start, n - 1, clockwise, k, j);
    } else {
      var levels := StepSequence[StepIndex(start, n, clockwise)];
      PinWritesAt(pins, levels, w, j);
    }
  }

  // ---------------------------------------------------------------------
  // Several moves in a row
  // ---------------------------------------------------------------------

  function Sum(xs: seq<int>): int
  {
    if xs == [] then 0 else xs[0] + Sum(xs[1..])
  }

  /** Total number of signed steps issued by a sequence of moves. */
  function TotalSteps(moves: seq<int>): int
  {
    if moves == [] then 0 else StepsFor(moves[0]) + TotalSteps(moves[1..])
  }

  /** The angle `MoveByDegrees` leaves after each of `moves`, in order. */
  function FinalAngle(angle: int, moves: seq<int>): int
    decreases moves
  {
    if moves == [] then angle else FinalAngle((angle + moves[0]) % 360, moves[1..])
  }

  /** The phase index `MoveByDegrees` leaves after each of `moves`, in order. */
  function FinalStep(step: int, moves: seq<int>): int
    decreases moves
  {
    if moves == [] then step
    else FinalStep((step + StepsFor(moves[0])) % |StepSequence|, moves[1..])
  }

  /** Reducing a summand first does not change a sum modulo 360 or 8. */
  lemma ModAdd(x: int, y: int)
    ensures (x % 360 + y) % 360 == (x + y) % 360
    ensures (x % 8 + y) % 8 == (x + y) % 8
  {
  }

  /** After any sequence of moves the angle is the start angle plus the sum
      of the moves, modulo 360, and the phase index has advanced by the sum of
      the rounded step counts, modulo 8: two independent quantities, neither
      derivable from the other. */
  lemma {:induction false} MovesAccumulate(angle: int, step: int, moves: seq<int>)
    requires 0 <= angle < 360 && 0 <= step < |StepSequence|
    ensures FinalAngle(angle, moves) == (angle + Sum(moves)) % 360
    ensures FinalStep(step, moves) == (step + TotalSteps(moves)) % |StepSequence|
    decreases moves
  {
    if moves != [] {
      var a := (angle + moves[0]) % 360;
      var s := (step + StepsFor(moves[0])) % |StepSequence|;
      MovesAccumulate(a, s, moves[1..]);
      ModAdd(angle + moves[0], Sum(moves[1..]));
      ModAdd(step + StepsFor(moves[0]), TotalSteps(moves[1..]));
    }
  }

  // ---------------------------------------------------------------------
  // Driving a stepper object
  // ---------------------------------------------------------------------

  /** Moving by 0 degrees issues no pin write and changes nothing. */
  method MoveByZero(s: Stepper)
    requires s.Valid()
    modifies s, s.gpio
    ensures s.angle == old(s.angle) && s.currentStep == old(s.currentStep)
    ensures s.gpio.trace == old(s.gpio.trace)
  {
    s.MoveByDegrees(0);
  }

  /** Moving by a full turn either way restores both the angle and the phase
      index, after exactly 4096 single steps. */
  method MoveFullTurn(s: Stepper, clockwise: bool)
    requires s.Valid() && |s.pins| == 4
    modifies s, s.gpio
    ensures s.angle == old(s.angle) && s.currentStep == old(s.currentStep)
    ensures |s.gpio.trace| == |old(s.gpio.trace)| + 4 * StepsPerRevolution
  {
    var d := if clockwise then 360 else -360;
    FullRevolutionRestoresState(s.angle, s.currentStep, d);
    FourPinStepTraceLength(s.pins, s.currentStep, Abs(StepsFor(d)), StepsFor(d) >= 0);
    s.MoveByDegrees(d);
  }

  /** Driving a stepper through several moves, one `MoveByDegrees` call per
      move, leaves the angle and the phase index that `FinalAngle` and
      `FinalStep` predict (and so, by `MovesAccumulate`, the sums modulo 360
      and 8). */
  method MoveAll(s: Stepper, moves: seq<int>)
    requires s.Valid()
    modifies s, s.gpio
    ensures s.Valid()
    ensures s.angle == FinalAngle(old(s.angle), moves)
    ensures s.currentStep == FinalStep(old(s.currentStep), moves)
  {
    for i := 0 to |moves|
      invariant s.Valid()
      invariant FinalAngle(s.angle, moves[i..]) == FinalAngle(old(s.angle), moves)
      invariant FinalStep(s.currentStep, moves[i..]) == FinalStep(old(s.currentStep), moves)
    {
      assert moves[i..][1..] == moves[i + 1..];
      s.MoveByDegrees(moves[i]);
    }
  }
}
