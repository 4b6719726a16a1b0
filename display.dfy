/** The panel driver: one class for both panel variants, parameterised by `Variant`.
    Every action on pins, bus, clock or controller is appended to a trace the operation
    is given and returns. */
module Display {
  import opened Types
  import opened Panel
  import opened Windows
  import opened Bus
  import opened Configure
  import opened Reset
  import opened Backlight
  import opened Prelude

  class Driver {
    /** Which panel this driver talks to. */
    const variant: Variant
    /** The answers of the controller-level operations: an operation recorded at trace
        position `i` answers `oracle(i)`. */
    const oracle: Oracle
    /** The bus frequency the base driver uses unless `begin` is given another one. */
    const defaultSpiFreq: nat

    /** The data/command, chip-select, backlight and reset pins (`_dc`, `_cs`, `_bl`, `_rst`). */
    var dc: uint8
    var cs: uint8
    var bl: uint8
    var rst: uint8
    /** The current-window reference (`pCurrentWindow`). */
    var current: Window

    constructor (variant: Variant, oracle: Oracle, defaultSpiFreq: nat, rst: uint8, window: Window)
      ensures this.variant == variant && this.oracle == oracle && this.defaultSpiFreq == defaultSpiFreq
      ensures this.rst == rst && current == window
    {
      this.variant := variant;
      this.oracle := oracle;
      this.defaultSpiFreq := defaultSpiFreq;
      this.rst := rst;
      current := window;
    }

    // ---- operations of code outside the driver, each recorded as one event ----

    /** A status-returning controller operation of the base driver. */
    method Issue(op: Op, t: Trace) returns (s: Status, t': Trace)
      ensures s == oracle(|t|) && t' == t + [Command(op)]
    {
      s := oracle(|t|);
      t' := t + [Command(op)];
    }

    /** `fillWindow(color)`: fills the current window; the event records the window. */
    method Fill(color: Color18, t: Trace) returns (t': Trace)
      ensures t' == t + [FillWindow(color, current.State())]
    {
      t' := t + [FillWindow(color, current.State())];
    }

    /** `setWindowColorSequence(window, data, cycleLength, startOffset)`. */
    method SetWindowColorSequence(w: Window, data: Ptr, cycleLength: int, startOffset: int)
      modifies w`colors
      ensures w.colors == ColorSequence(data, cycleLength, startOffset)
    {
      w.colors := ColorSequence(data, cycleLength, startOffset);
    }

    // ---- the driver's own operations ----

    /** `defaultConfigure`: the register-configuration pipeline.  Its status and its
        events are those of the reference run of `Pipeline(variant)`: the first failing
        checked step ends it with its status, otherwise it returns `Nominal`. */
    method DefaultConfigure(t: Trace) returns (status: Status, t': Trace)
      ensures var o := Run(Pipeline(variant), oracle, |t|);
        status == o.status && t' == t + o.events
    {
      var t1, t2;
      status, t1 := ConfigurePower(t);
      Sequenced(PowerSetup(), Inversion(variant) + PanelSetup(variant), oracle, t, Outcome(status, t1));
      if status != Nominal { return status, t1; }
      status, t2 := ConfigureInversion(t1);
      Sequenced(Inversion(variant), PanelSetup(variant), oracle, t1, Outcome(status, t2));
      if status != Nominal { return status, t2; }
      status, t' := ConfigurePanel(t2);
    }

    /** The first part of `defaultConfigure`: wake-up, gamma curve, frame rate, power
        control and VCOM settings. */
    method ConfigurePower(t: Trace) returns (status: Status, t': Trace)
      ensures var o := Run(PowerSetup(), oracle, |t|);
        status == o.status && t' == t + o.events
    {
      ghost var stages, i := PowerSetup(), 0;
      Begun(stages, oracle, t);
      t' := t;
      var retval := Nominal;

      Step(stages, oracle, t, t', i, Checked(SleepOut));
      retval, t' := Issue(SleepOut, t');
      if retval != Nominal { return retval, t'; }
      i := i + 1;

      Step(stages, oracle, t, t', i, Pause(20));
      t' := t' + [Delay(20)];
      i := i + 1;

      Step(stages, oracle, t, t', i, Checked(SelectGammaCurve(0x01)));
      retval, t' := Issue(SelectGammaCurve(0x01), t');
      if retval != Nominal { return retval, t'; }
      i := i + 1;

      Step(stages, oracle, t, t', i, Checked(SetNormalFramerate(0x00, 0x1B)));
      retval, t' := Issue(SetNormalFramerate(0x00, 0x1B), t');
      if retval != Nominal { return retval, t'; }
      i := i + 1;

      Step(stages, oracle, t, t', i, Checked(SetPowerControl1(0x21, 0x00)));
      retval, t' := Issue(SetPowerControl1(0x21, 0x00), t');
      if retval != Nominal { return retval, t'; }
      i := i + 1;

      Step(stages, oracle, t, t', i, Checked(SetPowerControl2(0x10)));
      retval, t' := Issue(SetPowerControl2(0x10), t');
      if retval != Nominal { return retval, t'; }
      i := i + 1;

      Step(stages, oracle, t, t', i, Checked(SetVCOMControl1(0x3E, 0x28)));
      retval, t' := Issue(SetVCOMControl1(0x3E, 0x28), t');
      if retval != Nominal { return retval, t'; }
      i := i + 1;

      Step(stages, oracle, t, t', i, Checked(SetVCOMOffsetControl(true, 0x86)));
      retval, t' := Issue(SetVCOMOffsetControl(true, 0x86), t');
      if retval != Nominal { return retval, t'; }
      i := i + 1;

      Finished(stages, oracle, t, t');
      return Nominal, t';
    }

    /** The display inversion of `defaultConfigure`, issued only by the variants that
        need it. */
    method ConfigureInversion(t: Trace) returns (status: Status, t': Trace)
      ensures var o := Run(Inversion(variant), oracle, |t|);
        status == o.status && t' == t + o.events
    {
      ghost var stages, i := Inversion(variant), 0;
      Begun(stages, oracle, t);
      t' := t;
      var retval := Nominal;
      if variant.inversion {
        Step(stages, oracle, t, t', i, Checked(SetInversion(true)));
        retval, t' := Issue(SetInversion(true), t');
        if retval != Nominal { return retval, t'; }
        i := i + 1;
      }

      Finished(stages, oracle, t, t');
      return Nominal, t';
    }

    /** The last part of `defaultConfigure`: pixel format, window, memory access order,
        gamma tables and power-on. */
    method ConfigurePanel(t: Trace) returns (status: Status, t': Trace)
      ensures var o := Run(PanelSetup(variant), oracle, |t|);
        status == o.status && t' == t + o.events
    {
      ghost var stages, i := PanelSetup(variant), 0;
      Begun(stages, oracle, t);
      t' := t;
      var retval := Nominal;

      Step(stages, oracle, t, t', i, Checked(SetInterfacePixelFormat(variant.pixelFormat)));
      retval, t' := Issue(SetInterfacePixelFormat(variant.pixelFormat), t');
      if retval != Nominal { return retval, t'; }
      i := i + 1;

      Step(stages, oracle, t, t', i, Checked(SetColumnAddress(variant.startCol, variant.stopCol)));
      retval, t' := Issue(SetColumnAddress(variant.startCol, variant.stopCol), t');
      if retval != Nominal { return retval, t'; }
      i := i + 1;

      Step(stages, oracle, t, t', i, Checked(SetRowAddress(variant.startRow, variant.stopRow)));
      retval, t' := Issue(SetRowAddress(variant.startRow, variant.stopRow), t');
      if retval != Nominal { return retval, t'; }
      i := i + 1;

      Step(stages, oracle, t, t', i, Checked(SetMemoryAccessControl(false, true, false, false, true, false)));
      retval, t' := Issue(SetMemoryAccessControl(false, true, false, false, true, false), t');
      if retval != Nominal { return retval, t'; }
      i := i + 1;

      Step(stages, oracle, t, t', i, Checked(SetPositiveGamCorr(variant.positiveGamma)));
      retval, t' := Issue(SetPositiveGamCorr(variant.positiveGamma), t');
      if retval != Nominal { return retval, t'; }
      i := i + 1;

      // The status of the negative gamma table is dropped: the check after it tests the
      // positive-gamma status again.
      Step(stages, oracle, t, t', i, Unchecked(SetNegativeGamCorr(variant.negativeGamma)));
      var _, t1 := Issue(SetNegativeGamCorr(variant.negativeGamma), t');
      t' := t1;
      if retval != Nominal { return retval, t'; }
      i := i + 1;

      Step(stages, oracle, t, t', i, Pause(20));
      t' := t' + [Delay(20)];
      i := i + 1;

      Step(stages, oracle, t, t', i, Unchecked(SetPower(true)));
      var _, t2 := Issue(SetPower(true), t');
      t' := t2;
      i := i + 1;

      Finished(stages, oracle, t, t');
      return Nominal, t';
    }

    /** `startup`: the reset sequence.  The reset pin, when one is wired, is driven high,
        low and high again with the waits of 10, 10 and 120 ms between. */
    method Startup(t: Trace) returns (t': Trace)
      ensures t' == t + StartupEvents(rst)
    {
      t' := t;
      if rst != NoResetPin { t' := t' + [DigitalWrite(rst, High)]; }
      t' := t' + [Delay(10)];
      if rst != NoResetPin { t' := t' + [DigitalWrite(rst, Low)]; }
      t' := t' + [Delay(10)];
      if rst != NoResetPin { t' := t' + [DigitalWrite(rst, High)]; }
      t' := t' + [Delay(120)];
    }

    /** `setWindowDefaults(pwindow)`: makes `w` the full-panel window in direct mode with
        nothing drawn and no colour set, through `setWindowColorSequence(w, NULL, 1, 0)`. */
    method SetWindowDefaults(w: Window)
      modifies w
      ensures w.State() == DefaultWindow(variant)
    {
      w.xMin := variant.startCol;
      w.yMin := variant.startRow;
      w.xMax := variant.stopCol;
      w.yMax := variant.stopRow;
      w.cursorX := 0;
      w.cursorY := 0;
      w.xReset := 0;
      w.yReset := 0;
      w.lastCharacter := CharInfo(Null, Null, Null, 0, 0, 0, false, false);
      w.bufferMode := false;
      w.data := Null;
      w.numPixels := 0;
      w.dynamic := false;
      SetWindowColorSequence(w, Null, 1, 0);
    }

    /** `clearDisplay`: fills a fresh default window with black and then puts the current
        window back, leaving its contents as they were. */
    method ClearDisplay(t: Trace) returns (t': Trace)
      modifies this`current
      ensures t' == t + [FillWindow(Black, DefaultWindow(variant))]
      ensures current == old(current) && current.State() == old(current.State())
    {
      var saved := current;
      var window := new Window();
      current := window;
      SetWindowDefaults(window);
      var black := Color18(0, 0, 0);
      t' := Fill(black, t);
      current := saved;
    }

    /** `setBacklight(b)`: the backlight pin gets the PWM duty `255 - b`, so brightness
        `b` rises as the duty falls. */
    method SetBacklight(b: uint8, t: Trace) returns (t': Trace)
      ensures t' == t + [AnalogWrite(bl, Duty(b))]
    {
      t' := t + [AnalogWrite(bl, 255 - b)];
    }

    /** The bus and pin set-up of `begin`: the bus frequency when it is not the default,
        the bus, the three pins as outputs, then their idle levels. */
    method SetupPins(spiFreq: nat, t: Trace) returns (t': Trace)
      ensures t' == t + SetupEvents(spiFreq, defaultSpiFreq, cs, dc, bl)
    {
      t' := t;
      if spiFreq != defaultSpiFreq {
        t' := t' + [SetSpiFrequency(spiFreq)];
      }
      t' := t' + [SpiBegin];
      t' := t' + [PinMode(cs), PinMode(dc), PinMode(bl)];
      t' := t' + [DigitalWrite(cs, High), DigitalWrite(dc, High), DigitalWrite(bl, Low)];
    }

    /** `begin`: records the pins (no reset pin), sets up bus and pins, makes the current
        window the default one, wakes the bus with a one-byte transfer, runs the reset
        sequence and the configuration pipeline, and returns `Nominal` whatever the
        configuration answered. */
    method Begin(dcPin: uint8, csPin: uint8, blPin: uint8, spiFreq: nat, t: Trace) returns (status: Status, t': Trace)
      modifies this, current
      ensures status == Nominal
      ensures dc == dcPin && cs == csPin && bl == blPin && rst == NoResetPin
      ensures current == old(current) && current.State() == DefaultWindow(variant)
      ensures var head := t + SetupEvents(spiFreq, defaultSpiFreq, csPin, dcPin, blPin) + ProbeEvents + StartupEvents(NoResetPin);
        t' == head + Run(Pipeline(variant), oracle, |head|).events
    {
      dc := dcPin;
      rst := NoResetPin;
      cs := csPin;
      bl := blPin;
      t' := SetupPins(spiFreq, t);
      SetWindowDefaults(current);
      t' := t' + ProbeEvents;
      t' := Startup(t');
      var _, t1 := DefaultConfigure(t');
      t' := t1;
      return Nominal, t';
    }
  }
}
