/** The operations the driver issues to code it does not own, recorded as trace events. */
module Bus {
  import opened Types
  import opened Windows

  /** The status-returning controller operations of the base driver, with their arguments. */
  datatype Op =
    | SleepOut
    | SelectGammaCurve(curve: uint8)
    | SetNormalFramerate(divider: uint8, rate: uint8)
    | SetPowerControl1(level1: uint8, level2: uint8)
    | SetPowerControl2(factor: uint8)
    | SetVCOMControl1(high: uint8, low: uint8)
    | SetVCOMOffsetControl(enable: bool, offset: uint8)
    | SetInversion(on: bool)
    | SetInterfacePixelFormat(format: uint8)
    | SetColumnAddress(start: int, stop: int)
    | SetRowAddress(start: int, stop: int)
    | SetMemoryAccessControl(f0: bool, f1: bool, f2: bool, f3: bool, f4: bool, f5: bool)  // the six flags, in the order the base driver takes them
    | SetPositiveGamCorr(table: seq<uint8>)
    | SetNegativeGamCorr(table: seq<uint8>)
    | SetPower(on: bool)

  /** One externally visible action of the driver, in the order it happens. */
  datatype Event =
    | Command(op: Op)                      // a controller operation (it answers with a Status)
    | Delay(ms: nat)                       // delay(ms)
    | PinMode(pin: uint8)                  // pinMode(pin, OUTPUT)
    | DigitalWrite(pin: uint8, level: Level)
    | AnalogWrite(pin: uint8, duty: uint8)
    | SetSpiFrequency(freq: nat)
    | SpiBegin
    | SpiBeginTransaction
    | SpiTransfer(count: nat)
    | SpiEndTransaction
    | FillWindow(color: Color18, target: WindowState)  // fillWindow on the then-current window

  /** Everything the driver has done to pins, bus, clock and controller, in order. */
  type Trace = seq<Event>

  /** The answers of the stub standing for the controller-level operations: the
      operation recorded at trace position `i` answers `oracle(i)`. */
  type Oracle = nat -> Status

  /** No event of `t` is a digital write. */
  predicate NoPinWrites(t: Trace) {
    forall i :: 0 <= i < |t| ==> !t[i].DigitalWrite?
  }

  /** The delays of a trace, in order. */
  function Delays(t: Trace): seq<nat> {
    if t == [] then []
    else (if t[0].Delay? then [t[0].ms] else []) + Delays(t[1..])
  }

  /** The levels written to `pin` in a trace, in order. */
  function Writes(t: Trace, pin: uint8): seq<Level> {
    if t == [] then []
    else (if t[0].DigitalWrite? && t[0].pin == pin then [t[0].level] else []) + Writes(t[1..], pin)
  }

  /** `Delays` distributes over concatenation. */
  lemma {:induction false} DelaysAppend(a: Trace, b: Trace)
    ensures Delays(a + b) == Delays(a) + Delays(b)
  {
    if a != [] {
      assert (a + b)[1..] == a[1..] + b;
      DelaysAppend(a[1..], b);
    } else {
      assert a + b == b;
    }
  }

  /** `Writes` distributes over concatenation. */
  lemma {:induction false} WritesAppend(a: Trace, b: Trace, pin: uint8)
    ensures Writes(a + b, pin) == Writes(a, pin) + Writes(b, pin)
  {
    if a != [] {
      assert (a + b)[1..] == a[1..] + b;
      WritesAppend(a[1..], b, pin);
    } else {
      assert a + b == b;
    }
  }

  /** The levels a one-event trace writes to `pin`. */
  lemma WritesSingle(e: Event, pin: uint8)
    ensures Writes([e], pin) == if e.DigitalWrite? && e.pin == pin then [e.level] else []
  {
    assert [e][1..] == [];
  }

  /** A trace without digital writes writes no level to any pin. */
  lemma {:induction false} WritesNone(t: Trace, pin: uint8)
    requires NoPinWrites(t)
    ensures Writes(t, pin) == []
    decreases |t|
  {
    if t != [] {
      assert !t[0].DigitalWrite?;
      assert NoPinWrites(t[1..]) by {
        forall i | 0 <= i < |t[1..]| ensures !t[1..][i].DigitalWrite? {
          assert t[1..][i] == t[i + 1];
        }
      }
      WritesNone(t[1..], pin);
    }
  }
}
