# person-follower: motor drivers and face centroid, in Dafny

This project models the motor layer of the person-follower camera mount and
proves properties of that model. A camera on a motor turns to keep a detected
face centred. The model covers three parts:

- **Servo**: a hobby servo on one PWM pin. `SetAngle(a)` records `a` as the
  angle. It then drives the pin at duty `a / 18 + 2` percent and drops the
  duty to 0 after the settle delay. The constructor sets the pin up, starts
  PWM at duty 0 and moves to 90 degrees.
- **Stepper**: a 4-coil stepper driven by an 8-entry half-step phase table.
  It keeps two independent pieces of state. `angle` is reduced modulo 360 on
  every move. `currentStep` is the index of the phase the coils are assumed
  to be in: 0 for a fresh stepper, which writes no pin, and afterwards the
  phase last written. A move by
  `d` degrees takes `round(d * 4096 / 360)` single steps. Each step moves the
  index by one, wrapping modulo 8, and writes that phase's 4 coil levels to
  the pins in pin order.
- **Controller core**: the mean of `x + width / 2` over the detected face
  rectangles, and the error of that mean from the frame centre, normalised
  by half the frame width.

The drivers reach the hardware only through a GPIO recorder
(`GpioTrace.Gpio`). Every library call appends one `Event` to
`trace`: `SetMode`, `Setup`, `Output`, `PwmCreate`, `PwmStart`,
`ChangeDutyCycle`, `PwmStop`, `Cleanup`. This lets the contracts state the
exact pin writes and duty cycles a call issues. A PWM channel is a value
`(pin, frequency)`, and its `start`, `ChangeDutyCycle` and `stop` calls are
methods of the recorder.

The project has five files:

- `gpio.dfy`: the recorder.
- `motor_control.dfy`: the `Servo` and `Stepper` classes and the functions
  that specify them.
- `motor_properties.dfy`: lemmas about those functions, and three client
  methods that drive a `Stepper`.
- `servo_control.dfy`: the face centroid and the normalised error.
- `tests.dfy`: verified client methods. `ServoMovement`,
  `StepperMovement`, `StepperMovementAnticlockwise`,
  `StepperMovementDefault` and `EdgeCaseStepperMovement` restate the motor
  unit tests, and their postconditions hold the values those tests assert.
  `EdgeCaseStepperMovement` adds that the phase returns to 0, which its test
  does not check. `ServoStartupTrace`, `ClockwiseStepWrites` and
  `CounterClockwiseStepWrites` have no test in the source. They are exact
  command traces derived from the driver code.

Rounding is modelled on integer degrees. `StepsFor(d)` computes
`floor((2 * d * 4096 + 360) / 720)`. Its contract says the result is the
nearest integer to `d * 4096 / 360`, strictly within half a step. So the
value can never be a tie, and Python's round-half-to-even gives the same
result. Duty cycles are `real`, the exact rational `a / 18 + 2`.

The model follows the code, including where the code does less than a
defensive driver would:

- The code has no `InvalidAngle`, `DriverClosed`, `HardwareUnavailable` or
  `InvalidConfiguration` checks. `SetAngle` accepts any angle, and the
  stepper accepts any pin list. With fewer than 4 pins, `zip` silently writes
  only as many levels as there are pins (`PhaseWrites`,
  `StepTraceLength`).
- `STEPS_PER_REVOLUTION` is the fixed class constant 4096, not a
  constructor parameter.
- After `% 360` the stepper also runs `if angle < 0: angle += 360`. Python's
  `%` never returns a negative value for a positive divisor, and neither does
  Dafny's. So this branch is kept but can never run.

## Model

| member | source | states |
|---|---|---|
| `GpioTrace.Gpio.SetMode` | follower/mock_gpio.py:35-37 | appends exactly one `SetMode(mode)` event to the trace |
| `GpioTrace.Gpio.Setup` | follower/mock_gpio.py:39-41 | appends exactly one `Setup(pin, direction)` event |
| `GpioTrace.Gpio.Output` | follower/mock_gpio.py:43-45 | appends exactly one `Output(pin, level)` event |
| `GpioTrace.Gpio.Cleanup` | follower/mock_gpio.py:47-49 | appends exactly one `Cleanup` event |
| `GpioTrace.Gpio.Pwm` | follower/mock_gpio.py:51-54 | returns the channel bound to `(pin, frequency)` and records its creation |
| `GpioTrace.Gpio.PwmStart` | follower/mock_gpio.py:61-62 | records a PWM start at the given duty on the channel's pin |
| `GpioTrace.Gpio.ChangeDutyCycle` | follower/mock_gpio.py:64-65 | records a duty-cycle change on the channel's pin |
| `GpioTrace.Gpio.PwmStop` | follower/mock_gpio.py:67-68 | records a PWM stop on the channel's pin |
| `MotorControl.Duty` | follower/motor_control.py:54 | the duty is invertible back to the angle, `(duty - 2) * 18 == angle`; for `0 <= angle <= 180` it lies in `[2, 12]` |
| `MotorControl.SetAngleTrace` | follower/motor_control.py:54-63 | one angle command is two duty changes on the servo pin; the first gives the angle back, `(duty - 2) * 18 == angle`, and lies in `[2, 12]` for `0 <= angle <= 180`; the second switches the pulse off |
| `MotorControl.Servo.constructor` | follower/motor_control.py:24-40 | binds the pin as a 50 Hz PWM channel, issues setmode, setup, channel creation, start at 0 and then the 90-degree pulse, in that order, and leaves `angle == 90` |
| `MotorControl.Servo.SetAngle` | follower/motor_control.py:42-63 | the stored angle becomes `a`, unconditionally, and the trace grows by exactly `Duty(a)`, `0` on the servo pin |
| `MotorControl.StepsFor` | follower/motor_control.py:125 | the step count is the unique nearest integer to `degrees * 4096 / 360`: `abs(360 * steps - 4096 * degrees) < 180` |
| `MotorControl.StepIndex` | follower/motor_control.py:143-149 | the phase index after `k` single steps in one direction always lies in `[0, 8)` |
| `MotorControl.StepIndexNext` | follower/motor_control.py:145-148 | one more step is the previous index plus or minus 1, reduced by a true modulo 8 |
| `MotorControl.PinWrites` | follower/motor_control.py:153-154 | the first `n` writes of `zip(pins, levels)` are exactly `n` events |
| `MotorControl.PinWritesAt` | follower/motor_control.py:153-154 | write `j` of a phase sets `pins[j]` to `levels[j]`, so pins are written in pin order |
| `MotorControl.SetupAll` | follower/motor_control.py:102-103 | one `Setup(pin, OUT)` per pin, in pin order |
| `MotorControl.Stepper.constructor` | follower/motor_control.py:91-107 | issues setmode and one setup per pin and no output; starts with `angle == 90` and `currentStep == 0` |
| `MotorControl.Stepper.MoveByDegrees` | follower/motor_control.py:109-128 | new angle `(angle + degrees) mod 360`, in `[0, 360)`; new phase `(currentStep + StepsFor(degrees)) mod 8`; trace extended by exactly the pin writes of `abs(StepsFor(degrees))` steps in the sign's direction |
| `MotorControl.Stepper.WritePhase` | follower/motor_control.py:152-154 | writes one phase pattern: the trace grows by exactly `zip(pins, pattern)` as `Output` events |
| `MotorControl.Stepper.SingleStep` | follower/motor_control.py:144-155 | advances the phase by one in the given direction, with a true modulo 8, and then writes the new phase's pattern |
| `MotorControl.Stepper.MoveSteps` | follower/motor_control.py:132-155 | runs exactly `abs(steps)` iterations; leaves `currentStep == (old + steps) mod 8`, in `[0, 8)`; the trace grows by `StepTrace` of those steps and nothing else changes |
| `MotorProperties.DutyCalibrationPoints` | follower/motor_control.py:54 | 0 degrees gives 2 %, 90 gives 7 %, 180 gives 12 % |
| `MotorProperties.DutyStrictlyIncreasing` | follower/motor_control.py:54 | a larger angle commands a strictly larger duty |
| `MotorProperties.StepsForFullTurn` | follower/motor_control.py:125 | 0 degrees gives 0 steps, plus or minus 360 give plus or minus 4096, 45 gives 512, -90 gives -1024 |
| `MotorProperties.StepsForOdd` | follower/motor_control.py:125 | reversing a move negates its step count |
| `MotorProperties.StepsForMonotone` | follower/motor_control.py:125 | a larger move never takes fewer steps |
| `MotorProperties.FullRevolutionRestoresState` | follower/motor_control.py:119-149 | a plus or minus 360-degree move takes 4096 steps and leaves both the angle and the phase index unchanged |
| `MotorProperties.PhaseTableShape` | follower/motor_control.py:80-89 | the table has 8 phases of 4 levels each, every level 0 or 1 |
| `MotorProperties.PinsChangedSymmetric` | follower/motor_control.py:80-89 | the number of coils that differ between two patterns is symmetric |
| `MotorProperties.AdjacentPhasesDifferInOnePin` | follower/motor_control.py:80-89 | cyclically adjacent phases, 7 to 0 included, differ in exactly one coil |
| `MotorProperties.ConsecutiveStepsChangeOnePin` | follower/motor_control.py:143-152 | every single step, in either direction, switches exactly one coil |
| `MotorProperties.StepTraceLength` | follower/motor_control.py:143-154 | `n` steps issue exactly `n * min(len(pins), 4)` pin writes |
| `MotorProperties.FourPinStepTraceLength` | follower/motor_control.py:143-154 | with 4 pins, `n` steps issue exactly `4 * n` writes |
| `MotorProperties.StepTraceAt` | follower/motor_control.py:143-154 | write `j` of step `k` sets `pins[j]` to coil `j` of the phase reached after `k + 1` steps |
| `MotorProperties.MovesAccumulate` | follower/motor_control.py:119-149 | after any sequence of moves the angle is `(start + sum of moves) mod 360`, and the phase is `(start + sum of rounded steps) mod 8` |
| `MotorProperties.MoveByZero` | follower/motor_control.py:119-149 | a 0-degree move issues no pin write and changes neither angle nor phase |
| `MotorProperties.MoveAll` | follower/motor_control.py:119-149 | one `move_by_degrees` call per move leaves the angle and the phase that `FinalAngle` and `FinalStep` predict, so by `MovesAccumulate` the sums modulo 360 and 8 |
| `MotorProperties.MoveFullTurn` | follower/motor_control.py:119-149 | a full turn either way restores angle and phase after exactly `4 * 4096` pin writes on a 4-pin stepper |
| `ServoControl.CalculateFacePositions` | follower/servo_control.py:21-25 | the accumulator loop returns the mean of `x + width / 2` over a non-empty face list |
| `ServoControl.MeanOfOneFace` | follower/servo_control.py:21-24 | one face yields exactly its horizontal centre |
| `ServoControl.MeanOfTwoFaces` | tests/test_follower.py:43-45 | faces `(10,20,30,40)` and `(50,60,70,80)` give 55 |
| `ServoControl.SumIgnoresVertical` | follower/servo_control.py:22-23 | the accumulated sum depends only on each face's `x` and `width` |
| `ServoControl.MeanIgnoresVertical` | follower/servo_control.py:22-24 | the mean ignores `y` and `height` |
| `ServoControl.SumCentresBounds` | follower/servo_control.py:21-23 | if every centre lies in `[lo, hi]`, the sum lies in `[n * lo, n * hi]` |
| `ServoControl.MeanWithinBounds` | follower/servo_control.py:21-24 | if every centre lies in `[lo, hi]`, so does the mean |
| `ServoControl.NormalisedError` | follower/servo_control.py:39-40 | `error * W/2 == avg_x - W/2`; for `W > 0` the error is negative exactly when the face is left of centre, and lies in `[-1, 1]` when `0 <= avg_x <= W` |
| `ServoControl.NormalisedErrorExample` | follower/servo_control.py:40 | with the 640-pixel frame (follower/parameters.py:11), a face centre at `x = 100` gives the error `-0.6875` |
| `MotorControlTests.ServoMovement` | tests/test_motor_control.py:11-14 | after `set_angle(90)` the servo's angle is 90 |
| `MotorControlTests.StepperMovement` | tests/test_motor_control.py:16-19 | 90 + 45 gives 135 |
| `MotorControlTests.StepperMovementAnticlockwise` | tests/test_motor_control.py:21-24 | 90 - 90 gives 0 |
| `MotorControlTests.StepperMovementDefault` | tests/test_motor_control.py:26-29 | with the default pins, 90 + 50 gives 140 |
| `MotorControlTests.EdgeCaseStepperMovement` | tests/test_motor_control.py:31-36 | +360 and then -360 both leave 90 degrees; it also states that the phase returns to 0, which the test does not check |
| `MotorControlTests.ServoStartupTrace` | follower/motor_control.py:34-40 | a fresh servo on pin 3 issues setmode, setup, PWM(3, 50), start(0), duty 7, duty 0 |
| `MotorControlTests.ClockwiseStepWrites` | follower/motor_control.py:143-154 | one clockwise step from phase 0 reaches phase 1 and writes `[1,0,0,0]` to pins 11, 13, 15, 16 |
| `MotorControlTests.CounterClockwiseStepWrites` | follower/motor_control.py:143-154 | one counter-clockwise step from phase 0 wraps to phase 7 and writes `[0,0,0,1]` to pins 11, 13, 15, 16 |

## Left out

- Timing: the `sleep` settle and inter-step delays (follower/motor_control.py:60, 155) have no observable effect in the model. Logging is left out too.
- The platform switch between the Raspberry Pi GPIO library and the Windows mock (follower/motor_control.py:8-13). Both are replaced by the recorder. The mock is used only to name the events.
- `__del__` cleanup (follower/motor_control.py:65-69, 157-160) runs at a point Python does not specify. The `Cleanup` and `PwmStop` recorder methods exist, but no driver method issues them.
- `MotorControl.Stepper.MoveByDegrees`: degrees are integers. Non-integer degrees are left out, and so is Python's float evaluation of `degrees * 4096 / 360`. For integer degrees of ordinary size that evaluation rounds to the same integer.
- `MotorControl.Servo.SetAngle`: the angle is an integer. Python would also accept a float. The duty is exact rational arithmetic, not IEEE floating point.
- `ServoControl.CalculateFacePositions`: the face list must be non-empty. On an empty list the source raises `ZeroDivisionError` at follower/servo_control.py:24 and does not handle it.
- `ServoControl.CalculateFacePositions`: exact rationals replace Python's IEEE floats. The sum and the division by the face count are not rounded, so the result is the exact mean where Python's may differ in the last bits.
- `ServoControl.NormalisedError`: the width is a parameter, with `FrameWidth = 640` given as a constant. follower/servo_control.py:5 imports `FRAME_WIDTH` as a module name. follower/parameters.py:10-12 defines it only as a class attribute, so that import fails.
- `ServoControl.NormalisedError`: exact rationals replace Python's IEEE floats. `FRAME_WIDTH / 2` and the final division are not rounded, so the range and sign properties hold exactly, not up to float error.
- The rest of `adjust_servos` (follower/servo_control.py:47) reads the local `angle` before assigning it, so it cannot run.
- The proportional controller with gain 0.05, clamping, `update_motor_angle` and `calculate_average_face_pos`. The tests import these from `follower/follower.py`, but that file does not define them.
- Webcam capture, Haar-cascade face detection, drawing and key polling (follower/follower.py, src/follower/main.py). These are I/O and calls into OpenCV.
- The `__main__` demo blocks (follower/motor_control.py:163-192, follower/servo_control.py:50-59).
