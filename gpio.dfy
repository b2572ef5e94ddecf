/** The GPIO capability the motor drivers call into, as a recorder.

    Every call the drivers make on the GPIO library (pin numbering mode, pin
    setup, pin writes, PWM channels and their duty cycles, cleanup) appends one
    event to `trace`, so that the drivers' contracts can state the exact
    sequence of hardware commands they issue. The recorder does nothing else,
    as the Windows stand-in for the Raspberry Pi library does nothing else.
 */
module GpioTrace {

  /** Pin numbering scheme passed to `setmode`; the drivers only use BOARD. */
  datatype NumberingMode = Board

  /** Direction passed to `setup`; the drivers only use OUT. */
  datatype PinDirection = Out

  /** A PWM channel bound to one pin at a fixed frequency (Hz). */
  datatype PwmChannel = PwmChannel(pin: int, frequency: int)

  /** One recorded hardware command. Duty cycles are percentages. */
  datatype Event =
    | SetMode(mode: NumberingMode)
    | Setup(pin: int, direction: PinDirection)
    | Output(pin: int, level: int)
    | PwmCreate(pin: int, frequency: int)
    | PwmStart(pin: int, duty: real)
    | ChangeDutyCycle(pin: int, duty: real)
    | PwmStop(pin: int)
    | Cleanup

  class Gpio {
    /** Every command issued so far, oldest first. */
    var trace: seq<Event>

    constructor ()
      ensures trace == []
    {
      trace := [];
    }

    method SetMode(mode: NumberingMode)
      modifies this
      ensures trace == old(trace) + [Event.SetMode(mode)]
    {
      trace := trace + [Event.SetMode(mode)];
    }

    method Setup(pin: int, direction: PinDirection)
      modifies this
      ensures trace == old(trace) + [Event.Setup(pin, direction)]
    {
      trace := trace + [Event.Setup(pin, direction)];
    }

    method Output(pin: int, level: int)
      modifies this
      ensures trace == old(trace) + [Event.Output(pin, level)]
    {
      trace := trace + [Event.Output(pin, level)];
    }

    method Cleanup()
      modifies this
      ensures trace == old(trace) + [Event.Cleanup]
    {
      trace := trace + [Event.Cleanup];
    }

    /** Binds a PWM channel to `pin` at `frequency` Hz. */
    method Pwm(pin: int, frequency: int) returns (channel: PwmChannel)
      modifies this
      ensures channel == PwmChannel(pin, frequency)
      ensures trace == old(trace) + [PwmCreate(pin, frequency)]
    {
      channel := PwmChannel(pin, frequency);
      trace := trace + [PwmCreate(pin, frequency)];
    }

    method PwmStart(channel: PwmChannel, duty: real)
      modifies this
      ensures trace == old(trace) + [Event.PwmStart(channel.pin, duty)]
    {
      trace := trace + [Event.PwmStart(channel.pin, duty)];
    }

    method ChangeDutyCycle(channel: PwmChannel, duty: real)
      modifies this
      ensures trace == old(trace) + [Event.ChangeDutyCycle(channel.pin, duty)]
    {
      trace := trace + [Event.ChangeDutyCycle(channel.pin, duty)];
    }

    method PwmStop(channel: PwmChannel)
      modifies this
      ensures trace == old(trace) + [Event.PwmStop(channel.pin)]
    {
      trace := trace + [Event.PwmStop(channel.pin)];
    }
  }
}
