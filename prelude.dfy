/** What `begin` does before the reset sequence: bus set-up, pin directions, idle levels
    and a one-byte transfer that wakes the bus peripheral. */
module Prelude {
  import opened Types
  import opened Bus

  /** The bus and pin set-up of `begin`, for chip-select `cs`, data/command `dc` and
      backlight `bl`: the bus frequency is set only when it differs from the default. */
  function SetupEvents(spiFreq: nat, defaultSpiFreq: nat, cs: uint8, dc: uint8, bl: uint8): Trace {
    (if spiFreq != defaultSpiFreq then [SetSpiFrequency(spiFreq)] else []) +
    [SpiBegin, PinMode(cs), PinMode(dc), PinMode(bl),
     DigitalWrite(cs, High), DigitalWrite(dc, High), DigitalWrite(bl, Low)]
  }

  /** The one-byte transaction `begin` sends before `startup`. */
  const ProbeEvents: Trace := [SpiBeginTransaction, SpiTransfer(1), SpiEndTransaction]

  /** The bus frequency is set exactly when `spiFreq` is not the default, and then first,
      to `spiFreq`. */
  lemma FrequencySetWhenNotDefault(spiFreq: nat, defaultSpiFreq: nat, cs: uint8, dc: uint8, bl: uint8)
    ensures var p := SetupEvents(spiFreq, defaultSpiFreq, cs, dc, bl);
      (exists i :: 0 <= i < |p| && p[i].SetSpiFrequency?) <==> spiFreq != defaultSpiFreq
    ensures var p := SetupEvents(spiFreq, defaultSpiFreq, cs, dc, bl);
      spiFreq != defaultSpiFreq ==> p[0] == SetSpiFrequency(spiFreq)
  {
    var p := SetupEvents(spiFreq, defaultSpiFreq, cs, dc, bl);
    if spiFreq != defaultSpiFreq {
      assert p[0].SetSpiFrequency?;
    }
  }

  /** Every pin `begin` writes has been made an output earlier, and the bus is started
      before any pin is touched. */
  lemma PinsConfiguredBeforeWritten(spiFreq: nat, defaultSpiFreq: nat, cs: uint8, dc: uint8, bl: uint8)
    ensures var p := SetupEvents(spiFreq, defaultSpiFreq, cs, dc, bl);
      forall j :: 0 <= j < |p| && p[j].DigitalWrite? ==>
        exists i :: 0 <= i < j && p[i] == PinMode(p[j].pin)
    ensures var p := SetupEvents(spiFreq, defaultSpiFreq, cs, dc, bl);
      forall j :: 0 <= j < |p| && (p[j].PinMode? || p[j].DigitalWrite?) ==>
        exists i :: 0 <= i < j && p[i] == SpiBegin
  {
    var p := SetupEvents(spiFreq, defaultSpiFreq, cs, dc, bl);
    var k := if spiFreq != defaultSpiFreq then 1 else 0;
    assert p[k] == SpiBegin && p[k + 1] == PinMode(cs) && p[k + 2] == PinMode(dc) && p[k + 3] == PinMode(bl);
    assert p[k + 4] == DigitalWrite(cs, High) && p[k + 5] == DigitalWrite(dc, High) && p[k + 6] == DigitalWrite(bl, Low);
    forall j | 0 <= j < |p| && p[j].DigitalWrite?
      ensures exists i :: 0 <= i < j && p[i] == PinMode(p[j].pin)
    {
      assert k + 4 <= j;
      assert p[j - 3] == PinMode(p[j].pin);
    }
    forall j | 0 <= j < |p| && (p[j].PinMode? || p[j].DigitalWrite?)
      ensures exists i :: 0 <= i < j && p[i] == SpiBegin
    {
      assert k < j;
    }
  }

  /** With three distinct pins, each is written once, to its idle level: chip-select
      high (deselected), data/command high, backlight low. */
  lemma IdleLevels(spiFreq: nat, defaultSpiFreq: nat, cs: uint8, dc: uint8, bl: uint8)
    requires cs != dc && cs != bl && dc != bl
    ensures var p := SetupEvents(spiFreq, defaultSpiFreq, cs, dc, bl);
      Writes(p, cs) == [High] && Writes(p, dc) == [High] && Writes(p, bl) == [Low]
  {
    var head: Trace := if spiFreq != defaultSpiFreq then [SetSpiFrequency(spiFreq)] else [];
    var quiet := head + [SpiBegin, PinMode(cs), PinMode(dc), PinMode(bl)];
    var w1, w2, w3 := DigitalWrite(cs, High), DigitalWrite(dc, High), DigitalWrite(bl, Low);
    assert SetupEvents(spiFreq, defaultSpiFreq, cs, dc, bl) == quiet + [w1] + [w2] + [w3];
    assert NoPinWrites(quiet);
    forall pin: uint8
      ensures Writes(SetupEvents(spiFreq, defaultSpiFreq, cs, dc, bl), pin) ==
        Writes([w1], pin) + Writes([w2], pin) + Writes([w3], pin)
    {
      WritesAppend(quiet + [w1] + [w2], [w3], pin);
      WritesAppend(quiet + [w1], [w2], pin);
      WritesAppend(quiet, [w1], pin);
      WritesNone(quiet, pin);
    }
    WritesSingle(w1, cs); WritesSingle(w2, cs); WritesSingle(w3, cs);
    WritesSingle(w1, dc); WritesSingle(w2, dc); WritesSingle(w3, dc);
    WritesSingle(w1, bl); WritesSingle(w2, bl); WritesSingle(w3, bl);
  }

  /** The wake-up transaction opens, sends one byte, and closes, touching no pin. */
  lemma ProbeIsOneByte()
    ensures NoPinWrites(ProbeEvents) && Delays(ProbeEvents) == []
    ensures |ProbeEvents| == 3 && ProbeEvents[1] == SpiTransfer(1)
  {
    assert ProbeEvents[1..][1..][1..] == [];
  }
}
