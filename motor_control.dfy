/** The two motor drivers: a PWM hobby servo and a 4-coil unipolar stepper
    driven with an 8-entry half-step phase table.

    Both drivers talk to the hardware only through a `GpioTrace.Gpio`
    recorder, so every contract below states the exact commands issued.
    Timing (the settle delays) and logging have no observable effect here.
 */
module MotorControl {
  import opened GpioTrace

  // ---------------------------------------------------------------------
  // Servo
  // ---------------------------------------------------------------------

  const PwmFrequency := 50
  const DefaultServoPin := 3
  const DefaultServoAngle := 90

  /** Duty-cycle percentage commanded for a servo angle in degrees: the
      calibration `angle / 18 + 2`, so 0 -> 2 %, 90 -> 7 %, 180 -> 12 %. */
  function Duty(angle: int): (duty: real)
    ensures (duty - 2.0) * 18.0 == angle as real
    ensures 0 <= angle <= 180 ==> 2.0 <= duty <= 12.0
  {
    angle as real / 18.0 + 2.0
  }

  /** The commands of one `SetAngle(angle)` on the servo's PWM pin: drive at
      the calibrated duty, then (after the settle delay) drop the duty to 0.
      The first duty determines the angle back, and lies in `[2, 12]` for the
      servo's range; the second switches the pulse off. */
  function SetAngleTrace(pin: int, angle: int): (r: seq<Event>)
    ensures |r| == 2
    ensures forall i :: 0 <= i < |r| ==> r[i].ChangeDutyCycle? && r[i].pin == pin
    ensures (r[0].duty - 2.0) * 18.0 == angle as real
    ensures 0 <= angle <= 180 ==> 2.0 <= r[0].duty <= 12.0
    ensures r[1].duty == 0.0
  {
    [ChangeDutyCycle(pin, Duty(angle)), ChangeDutyCycle(pin, 0.0)]
  }

  class Servo {
    const gpio: Gpio
    const pin: int
    const pwm: PwmChannel
    var angle: int

    /** Binds `pin` as a 50 Hz PWM output, starts it at duty 0 and moves the
        servo to the default angle of 90 degrees. */
    constructor (gpio: Gpio, pin: int := DefaultServoPin)
      modifies gpio
      ensures this.gpio == gpio && this.pin == pin
      ensures pwm == PwmChannel(pin, PwmFrequency)
      ensures angle == DefaultServoAngle
      ensures gpio.trace == old(gpio.trace)
                          + [SetMode(Board), Setup(pin, Out), PwmCreate(pin, PwmFrequency), PwmStart(pin, 0.0)]
                          + SetAngleTrace(pin, DefaultServoAngle)
    {
      this.gpio := gpio;
      this.pin := pin;
      gpio.SetMode(Board);
      gpio.Setup(pin, Out);
      var channel := gpio.Pwm(pin, PwmFrequency);
      pwm := channel;
      gpio.PwmStart(channel, 0.0);
      new;
      SetAngle(DefaultServoAngle);
    }

    /** Records `a` as the servo's angle, unconditionally and without range
        checks, and pulses the PWM channel at `Duty(a)` then 0. */
    method SetAngle(a: int)
      requires pwm.pin == pin
      modifies this`angle, gpio
      ensures angle == a
      ensures gpio.trace == old(gpio.trace) + SetAngleTrace(pin, a)
    {
      angle := a;
      var duty := Duty(a);
      gpio.ChangeDutyCycle(pwm, duty);
      gpio.ChangeDutyCycle(pwm, 0.0);
    }
  }

  // ---------------------------------------------------------------------
  // Stepper
  // ---------------------------------------------------------------------

  const DefaultStepperPins: seq<int> := [11, 13, 15, 16]
  const StepsPerRevolution := 4096
  const DefaultStepperAngle := 90

  /** Half-step phase table: the coil levels, in pin order, of each of the
      eight phases. */
  const StepSequence: seq<seq<int>> := [
    [1, 0, 0, 1],
    [1, 0, 0, 0],
    [1, 1, 0, 0],
    [0, 1, 0, 0],
    [0, 1, 1, 0],
    [0, 0, 1, 0],
    [0, 0, 1, 1],
    [0, 0, 0, 1]
  ]

  function Abs(n: int): nat { if n < 0 then -n else n }

  function Min(a: int, b: int): int { if a <= b then a else b }

  /** Number of steps for a move of `degrees`: `degrees * 4096 / 360`
      rounded to the nearest integer. The quotient is never exactly halfway
      between two integers, so rounding half up, half to even and half away
      from zero all agree; the contract says the result is THE nearest
      integer (within strictly less than half a step). */
  function StepsFor(degrees: int): (steps: int)
    ensures -180 < 360 * steps - StepsPerRevolution * degrees < 180
  {
    (2 * degrees * StepsPerRevolution + 360) / 720
  }

  /** Phase index after `k` single steps from phase `start`, clockwise steps
      incrementing and counter-clockwise ones decrementing, modulo 8. */
  function StepIndex(start: int, k: nat, clockwise: bool): (i: int)
    ensures 0 <= i < |StepSequence|
  {
    (if clockwise then start + k else start - k) % |StepSequence|
  }

  /** One more single step moves the phase index by one, wrapping at 8. */
  lemma StepIndexNext(start: int, k: nat, clockwise: bool)
    ensures StepIndex(start, k + 1, clockwise)
         == (StepIndex(start, k, clockwise) + (if clockwise then 1 else -1)) % |StepSequence|
  {
  }

  /** The first `n` pin writes of `zip(pins, levels)`. */
  function PinWrites(pins: seq<int>, levels: seq<int>, n: nat): (r: seq<Event>)
    requires n <= |pins| && n <= |levels|
    ensures |r| == n
  {
    if n == 0 then [] else PinWrites(pins, levels, n - 1) + [Output(pins[n - 1], levels[n - 1])]
  }

  /** The `j`-th of those writes sets pin `pins[j]` to `levels[j]`. */
  lemma {:induction false} PinWritesAt(pins: seq<int>, levels: seq<int>, n: nat, j: nat)
    requires n <= |pins| && n <= |levels| && j < n
    ensures PinWrites(pins, levels, n)[j] == Output(pins[j], levels[j])
  {
    if j < n - 1 {
      PinWritesAt(pins, levels, n - 1, j);
    }
  }

  /** Writing one phase pattern: one `Output` per (pin, level) pair, in pin
      order, stopping at the shorter of the two lists as `zip` does. */
  function PhaseWrites(pins: seq<int>, levels: seq<int>): seq<Event>
  {
    PinWrites(pins, levels, Min(|pins|, |levels|))
  }

  /** The pin writes of `n` single steps from phase `start`: step `k`
      (1-based) writes the pattern of phase `StepIndex(start, k, clockwise)`. */
  function StepTrace(pins: seq<int>, start: int, n: nat, clockwise: bool): seq<Event>
  {
    if n == 0 then []
    else StepTrace(pins, start, n - 1, clockwise) + PhaseWrites(pins, StepSequence[StepIndex(start, n, clockwise)])
  }

  /** The `setup(pin, OUT)` calls for each pin, in order. */
  function SetupAll(pins: seq<int>): (r: seq<Event>)
    ensures |r| == |pins|
    ensures forall j :: 0 <= j < |pins| ==> r[j] == Setup(pins[j], Out)
  {
    if pins == [] then [] else SetupAll(pins[..|pins| - 1]) + [Setup(pins[|pins| - 1], Out)]
  }

  class Stepper {
    const gpio: Gpio
    const pins: seq<int>
    /** Commanded shaft angle in degrees (open-loop: there is no feedback). */
    var angle: int
    /** Index into `StepSequence` of the phase the coils are assumed to be
        in: 0 for a fresh stepper (nothing has been written yet), afterwards
        the phase last written. */
    var currentStep: int

    ghost predicate Valid()
      reads this
    {
      0 <= angle < 360 && 0 <= currentStep < |StepSequence|
    }

    /** Binds every pin as an output and assumes the shaft is at 90 degrees,
        in phase 0. No pin is written. */
    constructor (gpio: Gpio, pins: seq<int> := DefaultStepperPins)
      modifies gpio
      ensures Valid()
      ensures this.gpio == gpio && this.pins == pins
      ensures angle == DefaultStepperAngle && currentStep == 0
      ensures gpio.trace == old(gpio.trace) + [SetMode(Board)] + SetupAll(pins)
    {
      this.gpio := gpio;
      this.pins := pins;
      new;
      gpio.SetMode(Board);
      for i := 0 to |pins|
        invariant gpio.trace == old(gpio.trace) + [SetMode(Board)] + SetupAll(pins[..i])
      {
        assert pins[..i + 1][..i] == pins[..i];
        gpio.Setup(pins[i], Out);
      }
      assert pins[..|pins|] == pins;
      angle := DefaultStepperAngle;
      currentStep := 0;
    }

    /** Moves by `degrees` (positive = clockwise): the angle becomes
        `(angle + degrees) mod 360` and `StepsFor(degrees)` single steps are
        issued. */
    method MoveByDegrees(degrees: int)
      requires Valid()
      modifies this`angle, this`currentStep, gpio
      ensures Valid()
      ensures angle == (old(angle) + degrees) % 360
      ensures currentStep == (old(currentStep) + StepsFor(degrees)) % |StepSequence|
      ensures gpio.trace == old(gpio.trace)
                          + StepTrace(pins, old(currentStep), Abs(StepsFor(degrees)), StepsFor(degrees) >= 0)
    {
      var a := (angle + degrees) % 360;
      if a < 0 {
        a := a + 360;
      }
      angle := a;
      var steps := StepsFor(degrees);
      MoveSteps(steps);
    }

    /** Writes one phase pattern to the pins, in pin order. */
    method WritePhase(motorSequence: seq<int>)
      modifies gpio
      ensures gpio.trace == old(gpio.trace) + PhaseWrites(pins, motorSequence)
    {
      for j := 0 to Min(|pins|, |motorSequence|)
        invariant gpio.trace == old(gpio.trace) + PinWrites(pins, motorSequence, j)
      {
        gpio.Output(pins[j], motorSequence[j]);
      }
    }

    /** One iteration of the stepping loop: advance `currentStep` by one
        phase in the given direction, with a true modulo, then write the new
        phase's pattern to the pins. */
    method SingleStep(clockwise: bool)
      requires Valid()
      modifies this`currentStep, gpio
      ensures Valid()
      ensures currentStep == (old(currentStep) + (if clockwise then 1 else -1)) % |StepSequence|
      ensures gpio.trace == old(gpio.trace) + PhaseWrites(pins, StepSequence[currentStep])
    {
      var nStates := |StepSequence|;
      if clockwise {
        currentStep := (currentStep + 1) % nStates;
      } else {
        currentStep := (currentStep - 1) % nStates;
      }
      WritePhase(StepSequence[currentStep]);
    }

    /** Issues `|steps|` single steps, clockwise for `steps >= 0` and
        counter-clockwise otherwise. */
    method MoveSteps(steps: int)
      requires Valid()
      modifies this`currentStep, gpio
      ensures Valid()
      ensures currentStep == (old(currentStep) + steps) % |StepSequence|
      ensures gpio.trace == old(gpio.trace) + StepTrace(pins, old(currentStep), Abs(steps), steps >= 0)
    {
      ghost var start := currentStep;
      ghost var before := gpio.trace;
      for i := 0 to Abs(steps)
        invariant Valid()
        invariant currentStep == StepIndex(start, i, steps >= 0)
        invariant gpio.trace == before + StepTrace(pins, start, i, steps >= 0)
      {
        StepIndexNext(start, i, steps >= 0);
        SingleStep(steps >= 0);
      }
    }
  }
}
