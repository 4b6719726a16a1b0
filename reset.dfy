/** The reset sequence run by `startup`. */
module Reset {
  import opened Types
  import opened Bus

  /** The value of the reset-pin field that means "no reset pin wired". */
  const NoResetPin: uint8 := 0xFF

  /** One step of the reset sequence: drive the reset pin to `level` when one is wired,
      then wait `ms` milliseconds whether or not it is. */
  function Phase(rst: uint8, level: Level, ms: nat): Trace {
    (if rst != NoResetPin then [DigitalWrite(rst, level)] else []) + [Delay(ms)]
  }

  /** The events of `startup` with reset-pin field `rst`. */
  function StartupEvents(rst: uint8): Trace {
    Phase(rst, High, 10) + Phase(rst, Low, 10) + Phase(rst, High, 120)
  }

  /** `startup` always waits 10, 10 and 120 ms, in that order. */
  lemma StartupDelays(rst: uint8)
    ensures Delays(StartupEvents(rst)) == [10, 10, 120]
  {
    var p1, p2, p3 := Phase(rst, High, 10), Phase(rst, Low, 10), Phase(rst, High, 120);
    DelaysAppend(p1 + p2, p3);
    DelaysAppend(p1, p2);
    assert Delays(p1) == [10] && Delays(p2) == [10] && Delays(p3) == [120] by {
      assert Delays([Delay(10)]) == [10] && Delays([Delay(120)]) == [120];
    }
  }

  /** With a reset pin wired, `startup` drives it high, low, high; without one it
      writes no pin at all. */
  lemma StartupResetWrites(rst: uint8)
    ensures rst != NoResetPin ==> Writes(StartupEvents(rst), rst) == [High, Low, High]
    ensures rst == NoResetPin ==> NoPinWrites(StartupEvents(rst))
  {
    var p1, p2, p3 := Phase(rst, High, 10), Phase(rst, Low, 10), Phase(rst, High, 120);
    WritesAppend(p1 + p2, p3, rst);
    WritesAppend(p1, p2, rst);
    if rst != NoResetPin {
      forall level: Level, ms: nat ensures Writes(Phase(rst, level, ms), rst) == [level] {
        assert Phase(rst, level, ms) == [DigitalWrite(rst, level), Delay(ms)];
        assert Phase(rst, level, ms)[1..] == [Delay(ms)];
        assert Writes([Delay(ms)], rst) == [];
      }
    }
  }

  /** The exact order: each reset write comes immediately before its delay. */
  lemma StartupOrder(rst: uint8)
    ensures rst != NoResetPin ==>
      StartupEvents(rst) ==
        [DigitalWrite(rst, High), Delay(10), DigitalWrite(rst, Low), Delay(10),
         DigitalWrite(rst, High), Delay(120)]
    ensures rst == NoResetPin ==> StartupEvents(rst) == [Delay(10), Delay(10), Delay(120)]
  {
  }
}
