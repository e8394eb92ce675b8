/**
 * The Linux evdev record the shim reads and rewrites, and the integer
 * conversions it applies when it writes a filtered value back.
 */
module Evdev {

  // Event types and codes of the Linux input ABI (linux/input-event-codes.h).
  const EV_SYN: nat := 0x00
  const EV_KEY: nat := 0x01
  const EV_ABS: nat := 0x03
  const SYN_REPORT: nat := 0
  const ABS_X: nat := 0x00
  const ABS_Y: nat := 0x01
  const ABS_PRESSURE: nat := 0x18
  const ABS_TILT_X: nat := 0x1a
  const ABS_TILT_Y: nat := 0x1b
  const BTN_TOOL_PEN: nat := 0x140

  /** sizeof(struct input_event) on the 64-bit target: a 16-byte timeval, two u16 and one s32. */
  const EVENT_SIZE: nat := 24

  /** A pressure reading below this ends the stroke (the device has no BTN_TOUCH). */
  const LIFT_PRESSURE: int := 50

  /** One `struct input_event`: timestamp (seconds, microseconds), type, code, value. */
  datatype InputEvent = InputEvent(sec: int, usec: int, evType: nat, code: nat, value: int)

  /** The report boundary `EV_SYN/SYN_REPORT`. */
  predicate IsSynReport(e: InputEvent)
  {
    e.evType == EV_SYN && e.code == SYN_REPORT
  }

  /** The timestamp in seconds, `tv_sec + tv_usec / 1e6`. */
  function Seconds(e: InputEvent): real
  {
    e.sec as real + e.usec as real / 1000000.0
  }

  /** C's `(int)` conversion of a double: truncation toward zero. */
  function Trunc(r: real): (n: int)
    ensures 0.0 <= r ==> n as real <= r < n as real + 1.0
    ensures r < 0.0 ==> n as real - 1.0 < r <= n as real
  {
    if 0.0 <= r then r.Floor else -((-r).Floor)
  }

  /**
   * The value written back for a filtered coordinate, `(int)(f + 0.5)`.
   * From -0.5 upwards it is the nearest integer (halves round up); below
   * -0.5 the truncation rounds toward zero instead, up to one unit above f.
   */
  function ToValue(f: real): (n: int)
    ensures -0.5 <= f ==> f - 0.5 < n as real <= f + 0.5
    ensures f < -0.5 ==> f + 0.5 <= n as real < f + 1.5
  {
    Trunc(f + 0.5)
  }
}
