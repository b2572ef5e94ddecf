/** The motor driver unit tests as verified client code: each method builds
    drivers over a fresh GPIO recorder and drives them as the test does. The
    first five return what their test inspects, and their postconditions hold
    the test's assertions (`EdgeCaseStepperMovement` also returns the phase,
    which the test does not check). The last three are not tests of the
    source: they are exact traces derived from the driver code. */
module MotorControlTests {
  import opened GpioTrace
  import opened MotorControl

  method ServoMovement() returns (angle: int)
    ensures angle == 90
  {
    var gpio := new Gpio();
    var servo := new Servo(gpio, 3);
    servo.SetAngle(90);
    angle := servo.angle;
  }

  method StepperMovement() returns (angle: int)
    ensures angle == 135
  {
    var gpio := new Gpio();
    var stepper := new Stepper(gpio, [11, 13, 15, 16]);
    stepper.MoveByDegrees(45);
    angle := stepper.angle;
  }

  method StepperMovementAnticlockwise() returns (angle: int)
    ensures angle == 0
  {
    var gpio := new Gpio();
    var stepper := new Stepper(gpio, [11, 13, 15, 16]);
    stepper.MoveByDegrees(-90);
    angle := stepper.angle;
  }

  method StepperMovementDefault() returns (angle: int)
    ensures angle == 140
  {
    var gpio := new Gpio();
    var stepper := new Stepper(gpio);
    stepper.MoveByDegrees(50);
    angle := stepper.angle;
  }

  /** A full turn each way returns to 90 degrees, and also to phase 0. */
  method EdgeCaseStepperMovement() returns (afterClockwise: int, afterCounter: int, phase: int)
    ensures afterClockwise == 90 && afterCounter == 90 && phase == 0
  {
    var gpio := new Gpio();
    var stepper := new Stepper(gpio, [11, 13, 15, 16]);
    stepper.MoveByDegrees(360);
    afterClockwise := stepper.angle;
    stepper.MoveByDegrees(-360);
    afterCounter := stepper.angle;
    phase := stepper.currentStep;
  }

  /** A fresh servo on the default pin issues setup, PWM start at 0 and the
      pulse to 90 degrees (duty 7 %, then 0). */
  method ServoStartupTrace() returns (trace: seq<Event>)
    ensures trace == [SetMode(Board), Setup(3, Out), PwmCreate(3, 50), PwmStart(3, 0.0),
                      ChangeDutyCycle(3, 7.0), ChangeDutyCycle(3, 0.0)]
  {
    var gpio := new Gpio();
    var servo := new Servo(gpio);
    trace := gpio.trace;
  }

  /** One clockwise step from phase 0 writes phase 1, `[1, 0, 0, 0]`. */
  method ClockwiseStepWrites() returns (writes: seq<Event>, phase: int)
    ensures writes == [Output(11, 1), Output(13, 0), Output(15, 0), Output(16, 0)]
    ensures phase == 1
  {
    var gpio := new Gpio();
    var stepper := new Stepper(gpio, [11, 13, 15, 16]);
    var setup := gpio.trace;
    stepper.MoveSteps(1);
    writes := gpio.trace[|setup|..];
    phase := stepper.currentStep;
    assert writes == StepTrace([11, 13, 15, 16], 0, 1, true);
    assert writes == PinWrites([11, 13, 15, 16], StepSequence[1], 4);
    forall j | 0 <= j < 4 {
      PinWritesAt([11, 13, 15, 16], StepSequence[1], 4, j);
    }
  }

  /** One counter-clockwise step from phase 0 wraps to phase 7, `[0, 0, 0, 1]`. */
  method CounterClockwiseStepWrites() returns (writes: seq<Event>, phase: int)
    ensures writes == [Output(11, 0), Output(13, 0), Output(15, 0), Output(16, 1)]
    ensures phase == 7
  {
    var gpio := new Gpio();
    var stepper := new Stepper(gpio, [11, 13, 15, 16]);
    var setup := gpio.trace;
    stepper.MoveSteps(-1);
    writes := gpio.trace[|setup|..];
    phase := stepper.currentStep;
    assert writes == StepTrace([11, 13, 15, 16], 0, 1, false);
    assert writes == PinWrites([11, 13, 15, 16], StepSequence[7], 4);
    forall j | 0 <= j < 4 {
      PinWritesAt([11, 13, 15, 16], StepSequence[7], 4, j);
    }
  }
}
