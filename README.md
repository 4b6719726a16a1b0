# HyperDisplay ILI9341 240x320 / 4D Systems 320240 panel drivers, modelled in Dafny

The library drives two TFT panels over 4-wire SPI: the ILI9341 240x320 and the 4D Systems
320240 (`LCD320240_4WSPI`). Both drivers sit on top of the same ILI9341 base driver and
differ only in four things:

- their geometry constants, which are in fact the same 240 x 320, columns 0..239 and rows 0..319;
- the pixel-format byte: 0x55 for the ILI9341, 0x05 for the 4D Systems panel;
- a `setInversion(true)` step during configuration, which only the 4D Systems panel has;
- their class names.

The model is therefore a single driver class, `Display.Driver`, parameterised by a
`Panel.Variant` record. The record has two instances, `Panel.Ili9341_240x320` and
`Panel.Lcd320240`.

The driver's own logic is modelled operation by operation:

- `begin`: the bring-up as a whole.
- `defaultConfigure`: the register-configuration pipeline.
- `startup`: the reset sequence.
- `setWindowDefaults` and `clearDisplay`: the window record and the current-window
  reference.
- `setBacklight`: the inverted PWM duty.

Everything the driver hands to code outside these files becomes an `Event` appended to a
trace. The trace is a `seq<Event>` that each operation receives and returns. This covers:

- the ILI9341 base-class operations (`sleepOut`, `setPowerControl1`, ..., `setPower`);
- `fillWindow` and `setWindowColorSequence`;
- the Arduino calls `delay`, `pinMode`, `digitalWrite` and `analogWrite`;
- the SPI calls.

The status-returning base-class operations are answered by an oracle, `Oracle = nat -> Status`.
An operation recorded at trace position `i` answers `oracle(i)`. This lets every
proof quantify over all possible controller answers at once.

The driver's pin fields (`_dc`, `_cs`, `_bl`, `_rst`) and its current-window reference
(`pCurrentWindow`) are fields of the class. A window (`wind_info_t`) is a class
`Windows.Window` whose fields `setWindowDefaults` assigns in place.

`defaultConfigure` is specified by a reference interpreter, `Configure.Run`, over a table
of stages, `Configure.Pipeline(v)`. A stage is a `Checked` operation, an `Unchecked` operation
or a `Pause`:

- a failing checked operation ends the run with its status;
- an unchecked operation's answer is dropped;
- a pause is a `delay`.

Two quirks of the source are kept as written:

- The status of `setNegativeGamCorr` is never stored. The test after it re-tests the
  positive-gamma status, so it can never fire.
- The status of `setPower(true)` is ignored as well.

Both are therefore `Unchecked` stages. The imperative method runs the table in three
consecutive parts, one per segment of the table:

- `ConfigurePower`: the power, timing and VCOM settings;
- `ConfigureInversion`: the inversion, present only on the 4D Systems panel;
- `ConfigurePanel`: the pixel, window, gamma and power-on settings.

Each part is proved to equal `Run` over its segment. `Configure.Sequenced` joins them into
the whole pipeline. The operations, their order and their early returns are those of the
single source function.

## Model

| member | source | states |
|---|---|---|
| Panel.VariantGeometry | src/HyperDisplay_ILI9341_240x320_4WSPI.h:11-16 | both variants address the whole 240 x 320 panel (columns 0..239, rows 0..319); both gamma tables have 16 bytes, the last one zero |
| Windows.DefaultWindowProperties | src/HyperDisplay_ILI9341_240x320_4WSPI.cpp:176-202 | the default window spans the addressable rectangle, is well formed, has cursor and reset point at the origin, no character history, direct mode, no data and an unset colour sequence |
| Configure.Run | src/HyperDisplay_ILI9341_240x320_4WSPI.cpp:62-124 | the reference run of a stage table issues at most one event per stage |
| Configure.StopsAtFirstFailure | src/HyperDisplay_ILI9341_240x320_4WSPI.cpp:66-112 | when stage k is the first checked stage to fail, the run returns that stage's status and has issued exactly stages 0..k |
| Configure.RunsToCompletion | src/HyperDisplay_ILI9341_240x320_4WSPI.cpp:66-123 | when no checked stage fails, the run issues every stage and returns `Nominal` |
| Configure.FailsExactlyWhen | src/HyperDisplay_ILI9341_240x320_4WSPI.cpp:66-123 | a run returns a non-nominal status if and only if one of its checked stages fails |
| Configure.UncheckedIgnored | src/HyperDisplay_ILI9341_240x320_4WSPI.cpp:114-120 | two oracles that agree on the checked stages give the same run: what the negative gamma table and the power-on answer never matters |
| Configure.RunAppend | src/HyperDisplay_ILI9341_240x320_4WSPI.cpp:62-124 | running two stage tables back to back: the second starts only after the first ends `Nominal`, at the trace position after it |
| Configure.VariantPipelines | src/HyperDisplay_4DLCD-320240_4WSPI.cpp:92-95 | the ILI9341 table has 16 stages with pixel format 0x55 and no inversion; the 4D Systems table has 17, with the inversion ninth and pixel format 0x05; in both, exactly the negative gamma and power-on stages are unchecked |
| Configure.PowerSetupEvents | src/HyperDisplay_ILI9341_240x320_4WSPI.cpp:66-90 | the power set-up issues sleep-out, 20 ms, gamma curve 0x01, frame rate (0x00, 0x1B), power control (0x21, 0x00) and 0x10, VCOM (0x3E, 0x28) and VCOM offset (true, 0x86), in that order |
| Configure.PanelSetupEvents | src/HyperDisplay_ILI9341_240x320_4WSPI.cpp:92-120 | the panel set-up issues the variant's pixel format, column and row ranges, memory access flags (F,T,F,F,T,F), both gamma tables, 20 ms and power-on, in that order |
| Configure.NominalConfiguration | src/HyperDisplay_ILI9341_240x320_4WSPI.cpp:66-123 | with every checked stage nominal, and whatever the unchecked ones answer, configuration returns `Nominal` after exactly the listed operation sequence, with the inversion only for the variants that have it |
| Reset.StartupDelays | src/HyperDisplay_ILI9341_240x320_4WSPI.cpp:126-136 | `startup` always waits 10, 10 and 120 ms, in that order, whether or not a reset pin is wired |
| Reset.StartupResetWrites | src/HyperDisplay_ILI9341_240x320_4WSPI.cpp:126-136 | with a reset pin, `startup` writes it high, low, high; with the "no pin" value 0xFF it writes no pin at all |
| Reset.StartupOrder | src/HyperDisplay_ILI9341_240x320_4WSPI.cpp:129-134 | the exact `startup` sequence: each reset write comes immediately before its delay |
| Backlight.DutyInvolution | src/HyperDisplay_ILI9341_240x320_4WSPI.cpp:210 | inverting twice gives the brightness back, so distinct brightnesses drive distinct duties |
| Backlight.DutyAntitone | src/HyperDisplay_ILI9341_240x320_4WSPI.cpp:210 | a brighter level never drives a larger duty |
| Backlight.DutyExamples | src/HyperDisplay_ILI9341_240x320_4WSPI.cpp:210 | brightness 0, 255 and 100 drive duty 255, 0 and 155 |
| Prelude.FrequencySetWhenNotDefault | src/HyperDisplay_ILI9341_240x320_4WSPI.cpp:26-29 | `begin` sets the bus frequency if and only if it differs from the default, and then first, to the requested value |
| Prelude.PinsConfiguredBeforeWritten | src/HyperDisplay_ILI9341_240x320_4WSPI.cpp:31-43 | every pin `begin` writes was made an output earlier, and the bus is started before any pin is touched |
| Prelude.IdleLevels | src/HyperDisplay_ILI9341_240x320_4WSPI.cpp:40-43 | with distinct pins, chip-select and data/command are written high once and the backlight low once |
| Prelude.ProbeIsOneByte | src/HyperDisplay_ILI9341_240x320_4WSPI.cpp:51-54 | the wake-up transaction opens, transfers one byte and closes, with no pin write and no delay |
| Display.Driver.constructor | src/HyperDisplay_ILI9341_240x320_4WSPI.cpp:9-12 | a driver for a given variant, controller oracle, default bus frequency, reset-pin value and current window |
| Display.Driver.Issue | src/HyperDisplay_ILI9341_240x320_4WSPI.cpp:66 | a base-class controller operation is recorded once and answers the oracle's status for its trace position |
| Display.Driver.Fill | src/HyperDisplay_ILI9341_240x320_4WSPI.cpp:170 | `fillWindow` is recorded with its colour and the contents of the window current at that moment |
| Display.Driver.SetWindowColorSequence | src/HyperDisplay_ILI9341_240x320_4WSPI.cpp:201 | the window records the colour data, cycle length and start offset it is given, and nothing else changes |
| Display.Driver.DefaultConfigure | src/HyperDisplay_ILI9341_240x320_4WSPI.cpp:62-124 | status and trace are exactly those of the reference run of the variant's pipeline |
| Display.Driver.ConfigurePower | src/HyperDisplay_ILI9341_240x320_4WSPI.cpp:66-90 | the power set-up, each status checked, equals the reference run of its stage table |
| Display.Driver.ConfigureInversion | src/HyperDisplay_4DLCD-320240_4WSPI.cpp:92-93 | the inversion step, issued and checked only by the variant that has it, equals the reference run of its table |
| Display.Driver.ConfigurePanel | src/HyperDisplay_ILI9341_240x320_4WSPI.cpp:92-123 | the panel set-up equals the reference run of its table; this includes the dropped negative-gamma status and its stale check, and an ignored power-on status ending in `Nominal` |
| Display.Driver.Startup | src/HyperDisplay_ILI9341_240x320_4WSPI.cpp:126-136 | appends exactly the reset sequence for the driver's reset-pin value |
| Display.Driver.SetWindowDefaults | src/HyperDisplay_ILI9341_240x320_4WSPI.cpp:176-202 | the window becomes the variant's default window whatever it held before, so applying it twice gives the same state |
| Display.Driver.ClearDisplay | src/HyperDisplay_ILI9341_240x320_4WSPI.cpp:151-174 | one black fill over a fresh default window; the current-window reference is restored and the previous window's contents are unchanged |
| Display.Driver.SetBacklight | src/HyperDisplay_ILI9341_240x320_4WSPI.cpp:204-212 | one PWM write of the inverted duty `Duty(b)` = `255 - b` to the backlight pin; that the duty is again a byte (no underflow) is checked through `Duty`'s `uint8` result type |
| Display.Driver.SetupPins | src/HyperDisplay_ILI9341_240x320_4WSPI.cpp:26-43 | the bus and pin set-up of `begin`, for the driver's pins |
| Display.Driver.Begin | src/HyperDisplay_ILI9341_240x320_4WSPI.cpp:14-60 | returns `Nominal` whatever configuration answers; stores the pins with no reset pin; leaves the current window in its default state; trace is set-up, wake-up transfer, reset sequence without pin writes, then the configuration run |

The 4D Systems file has the same code three lines further down, from `defaultConfigure`'s
inversion step on:

- `defaultConfigure`: src/HyperDisplay_4DLCD-320240_4WSPI.cpp:62-127
- `startup`: :129-139
- `clearDisplay`: :154-177
- `setWindowDefaults`: :179-205
- `setBacklight`: :207-215

`begin` is at the same lines, 14-60. Every member above models both files through `Variant`.

## Left out

- SPI transport (`_spi->begin`, `beginTransaction`, `transfer`, `endTransaction`, `setSPIFreq`): recorded as opaque events only; no bytes are modelled.
- The `SPIClass &spiInterface` argument and the `_spi` pointer: there is one bus in the model, so the argument is dropped.
- The `_spisettings` object is not modelled either.
- GPIO and PWM primitives (`pinMode`, `digitalWrite`, `analogWrite`): recorded as events; their electrical effect is not modelled.
- The ESP32 branch of `setBacklight` (`ledcAttachPin`, `ledcSetup`, `ledcWrite`): left out. It is a compile-time platform split that drives the same `255 - b` duty through another API.
- The base-class operations (`sleepOut`, the power, VCOM, gamma, address and memory-access setters, `setPower`): these live in the ILI9341 base driver and hyperdisplay, which are not part of this model. They are events answered by the oracle; their byte encodings are not modelled.
- `fillWindow`'s per-pixel effect: not modelled; the event records the colour and the window it fills.
- Display.Driver.SetWindowColorSequence: modelled as storing its three arguments in the window. The base implementation is not part of this model.
- Display.Driver.SetWindowDefaults: the `setWindowColorSequence` call leaves no trace event, and neither do the field stores. So `Begin`'s trace does not show that the window defaults are set up before the wake-up transfer; only the final window state is stated.
- `delay`: an event carrying its milliseconds; real time is not modelled.
- `getCharInfo`: its definition is commented out in both files, so there is nothing to model.
- The global default character-info and window objects (lines 6-7 of both files): unused storage, left out.
- Display.Driver.constructor: the base-class construction with width and height is not modelled. The driver receives its variant, oracle, default bus frequency, reset-pin value and current window instead.
- Colour depth modes of the base driver: the clear colour is the local 18-bit black `(0, 0, 0)` the source builds.
