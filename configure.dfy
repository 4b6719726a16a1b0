/** The register-configuration pipeline run by `defaultConfigure`, as a table of stages
    and a reference interpreter for it. */
module Configure {
  import opened Types
  import opened Panel
  import opened Bus

  /** A stage of the pipeline: an operation whose status is checked (a non-nominal status
      ends the pipeline and is returned), an operation whose status is dropped, or a delay. */
  datatype Stage = Checked(op: Op) | Unchecked(op: Op) | Pause(ms: nat)

  /** The event a stage leaves in the trace. */
  function EventOf(s: Stage): Event {
    match s
    case Checked(op) => Command(op)
    case Unchecked(op) => Command(op)
    case Pause(ms) => Delay(ms)
  }

  /** The events of a run of `stages` that reaches its end. */
  function Events(stages: seq<Stage>): (t: seq<Event>)
    ensures |t| == |stages|
  {
    if stages == [] then [] else [EventOf(stages[0])] + Events(stages[1..])
  }

  /** Each stage leaves its own event, in place. */
  lemma {:induction false} EventsAt(stages: seq<Stage>, i: nat)
    requires i < |stages|
    ensures Events(stages)[i] == EventOf(stages[i])
  {
    if i > 0 {
      EventsAt(stages[1..], i - 1);
    }
  }

  /** The final outcome of a pipeline: its status and the events it issued. */
  datatype Outcome = Outcome(status: Status, events: seq<Event>)

  /** Stage `j` of a run started at trace position `at` is a checked stage whose
      operation answers with a failure. */
  predicate Fails(stages: seq<Stage>, oracle: Oracle, at: nat, j: nat)
    requires j < |stages|
  {
    stages[j].Checked? && oracle(at + j) != Nominal
  }

  /** Runs `stages`, the first of them being issued at trace position `at`, so that
      stage `j` is answered with `oracle(at + j)`: a checked stage that fails ends the run
      with its status, every other stage is issued and the run goes on. */
  function Run(stages: seq<Stage>, oracle: Oracle, at: nat): (o: Outcome)
    ensures |o.events| <= |stages|
    decreases |stages|
  {
    if stages == [] then Outcome(Nominal, [])
    else if Fails(stages, oracle, at, 0) then Outcome(oracle(at), [EventOf(stages[0])])
    else Then(EventOf(stages[0]), Run(stages[1..], oracle, at + 1))
  }

  /** `e` followed by the outcome `o` of the rest of the pipeline. */
  function Then(e: Event, o: Outcome): Outcome {
    Outcome(o.status, [e] + o.events)
  }

  /** Fail fast: when stage `k` is the first checked stage that fails, the run returns
      its status and has issued exactly the stages up to and including `k`. */
  lemma {:induction false} StopsAtFirstFailure(stages: seq<Stage>, oracle: Oracle, at: nat, k: nat)
    requires k < |stages| && Fails(stages, oracle, at, k)
    requires forall j :: 0 <= j < k ==> !Fails(stages, oracle, at, j)
    ensures Run(stages, oracle, at) == Outcome(oracle(at + k), Events(stages[..k + 1]))
    decreases k
  {
    if k > 0 {
      var rest, next := stages[1..], at + 1;
      forall j | 0 <= j < k - 1
        ensures !Fails(rest, oracle, next, j)
      {
        assert !Fails(stages, oracle, at, j + 1);
      }
      StopsAtFirstFailure(rest, oracle, next, k - 1);
      assert stages[..k + 1][1..] == stages[1..][..k];
    }
  }

  /** When no checked stage fails, the run issues every stage and returns `Nominal`,
      whatever the unchecked stages answer. */
  lemma {:induction false} RunsToCompletion(stages: seq<Stage>, oracle: Oracle, at: nat)
    requires forall j :: 0 <= j < |stages| ==> !Fails(stages, oracle, at, j)
    ensures Run(stages, oracle, at) == Outcome(Nominal, Events(stages))
    decreases |stages|
  {
    if stages != [] {
      var rest, next := stages[1..], at + 1;
      forall j | 0 <= j < |rest|
        ensures !Fails(rest, oracle, next, j)
      {
        assert !Fails(stages, oracle, at, j + 1);
      }
      RunsToCompletion(rest, oracle, next);
    }
  }

  /** A run fails exactly when one of its checked stages fails. */
  lemma {:induction false} FailsExactlyWhen(stages: seq<Stage>, oracle: Oracle, at: nat)
    ensures Run(stages, oracle, at).status != Nominal <==>
      exists j :: 0 <= j < |stages| && Fails(stages, oracle, at, j)
    decreases |stages|
  {
    if stages != [] && !Fails(stages, oracle, at, 0) {
      var rest, next := stages[1..], at + 1;
      FailsExactlyWhen(rest, oracle, next);
      if exists j :: 0 <= j < |stages| && Fails(stages, oracle, at, j) {
        var j :| 0 <= j < |stages| && Fails(stages, oracle, at, j);
        assert Fails(rest, oracle, next, j - 1);
      }
      if exists j :: 0 <= j < |rest| && Fails(rest, oracle, next, j) {
        var j :| 0 <= j < |rest| && Fails(rest, oracle, next, j);
        assert Fails(stages, oracle, at, j + 1);
      }
    }
  }

  /** What an unchecked stage answers never matters: two oracles that agree on the
      checked stages give the same run. */
  lemma {:induction false} UncheckedIgnored(stages: seq<Stage>, o1: Oracle, o2: Oracle, at: nat)
    requires forall j :: 0 <= j < |stages| && stages[j].Checked? ==> o1(at + j) == o2(at + j)
    ensures Run(stages, o1, at) == Run(stages, o2, at)
    decreases |stages|
  {
    if stages != [] {
      assert stages[0].Checked? ==> o1(at + 0) == o2(at + 0);
      var rest, next := stages[1..], at + 1;
      forall j | 0 <= j < |rest| && rest[j].Checked?
        ensures o1(next + j) == o2(next + j)
      {
        assert stages[j + 1].Checked?;
      }
      UncheckedIgnored(rest, o1, o2, next);
    }
  }

  /** Running two pipelines one after the other: the second starts only when the first
      ends `Nominal`, at the trace position after the first one's events. */
  lemma {:induction false} RunAppend(first: seq<Stage>, second: seq<Stage>, oracle: Oracle, at: nat)
    ensures Run(first, oracle, at).status != Nominal ==> Run(first + second, oracle, at) == Run(first, oracle, at)
    ensures Run(first, oracle, at).status == Nominal ==>
      Run(first + second, oracle, at) ==
        After(Run(first, oracle, at).events, Run(second, oracle, at + |Run(first, oracle, at).events|))
    decreases |first|
  {
    if first == [] {
      assert first + second == second;
    } else {
      assert (first + second)[0] == first[0];
      assert (first + second)[1..] == first[1..] + second;
      if !Fails(first, oracle, at, 0) {
        RunAppend(first[1..], second, oracle, at + 1);
        var o := Run(first[1..], oracle, at + 1);
        if o.status == Nominal {
          var e, r := EventOf(first[0]), Run(second, oracle, at + 1 + |o.events|);
          assert [e] + (o.events + r.events) == ([e] + o.events) + r.events;
        }
      }
    }
  }

  /** `RunAppend` seen from a trace: once `first` has been run after the events `t`,
      leaving the outcome `o1`, the run of `first + second` has ended with `o1` if `first`
      failed, and otherwise ends where `second`, run after `o1`'s events, ends. */
  lemma {:induction false} Sequenced(first: seq<Stage>, second: seq<Stage>, oracle: Oracle, t: seq<Event>, o1: Outcome)
    requires o1 == After(t, Run(first, oracle, |t|))
    ensures o1.status != Nominal ==> After(t, Run(first + second, oracle, |t|)) == o1
    ensures o1.status == Nominal ==>
      After(t, Run(first + second, oracle, |t|)) == After(o1.events, Run(second, oracle, |o1.events|))
  {
    RunAppend(first, second, oracle, |t|);
    var o := Run(first, oracle, |t|);
    if o.status == Nominal {
      var r := Run(second, oracle, |t| + |o.events|);
      assert Run(first + second, oracle, |t|) == After(o.events, r);
      assert t + (o.events + r.events) == (t + o.events) + r.events;
    }
  }

  /** The events `done` already issued, followed by the outcome `o` of the rest. */
  function After(done: seq<Event>, o: Outcome): Outcome {
    Outcome(o.status, done + o.events)
  }

  /** A partly executed pipeline: trace `t` extends `t0` with the events issued so far,
      and the run of the whole pipeline from the end of `t0` ends where the run of the
      stages still to go, `rest`, ends from the end of `t`. */
  ghost predicate OnTrack(stages: seq<Stage>, oracle: Oracle, t0: seq<Event>, t: seq<Event>, rest: seq<Stage>)
  {
    forall o {:trigger After(t, o)} | o == Run(rest, oracle, |t|) ::
      After(t0, Run(stages, oracle, |t0|)) == After(t, o)
  }

  /** Nothing has been issued yet: every stage is still to go. */
  lemma Begun(stages: seq<Stage>, oracle: Oracle, t0: seq<Event>)
    ensures OnTrack(stages, oracle, t0, t0, stages[0..])
  {
    assert stages[0..] == stages;
  }

  /** Issuing the next stage, `s`, when it is a checked stage that fails: the run ends
      with that failure and the trace extended by the stage's event. */
  lemma Halt(stages: seq<Stage>, oracle: Oracle, t0: seq<Event>, t: seq<Event>, rest: seq<Stage>, s: Stage)
    requires OnTrack(stages, oracle, t0, t, rest) && rest != [] && rest[0] == s
    requires s.Checked? && oracle(|t|) != Nominal
    ensures Run(stages, oracle, |t0|).status == oracle(|t|)
    ensures t0 + Run(stages, oracle, |t0|).events == t + [EventOf(s)]
  {
    assert Fails(rest, oracle, |t|, 0);
    assert After(t, Run(rest, oracle, |t|)) == Outcome(oracle(|t|), t + [EventOf(s)]);
  }

  /** Issuing the next stage, `s`, when it is not a failing check: the run goes on. */
  lemma Advance(stages: seq<Stage>, oracle: Oracle, t0: seq<Event>, t: seq<Event>, rest: seq<Stage>, s: Stage)
    requires OnTrack(stages, oracle, t0, t, rest) && rest != [] && rest[0] == s
    requires !(s.Checked? && oracle(|t|) != Nominal)
    ensures OnTrack(stages, oracle, t0, t + [EventOf(s)], rest[1..])
  {
    assert !Fails(rest, oracle, |t|, 0);
    var next := Run(rest[1..], oracle, |t| + 1);
    assert Run(rest, oracle, |t|) == Then(EventOf(s), next);
    AfterThen(t, EventOf(s), next);
    assert After(t, Run(rest, oracle, |t|)) == After(t + [EventOf(s)], next);
  }

  /** Issuing stage `i`, which is `s`: a failing check ends the run with its failure and
      the trace extended by the stage's event; anything else keeps the run on track with
      stage `i + 1` next. */
  lemma Step(stages: seq<Stage>, oracle: Oracle, t0: seq<Event>, t: seq<Event>, i: nat, s: Stage)
    requires i < |stages| && stages[i] == s && OnTrack(stages, oracle, t0, t, stages[i..])
    ensures s.Checked? && oracle(|t|) != Nominal ==>
      Run(stages, oracle, |t0|).status == oracle(|t|) && t0 + Run(stages, oracle, |t0|).events == t + [EventOf(s)]
    ensures !(s.Checked? && oracle(|t|) != Nominal) ==>
      OnTrack(stages, oracle, t0, t + [EventOf(s)], stages[i + 1..])
  {
    var rest := stages[i..];
    assert rest[0] == s;
    if s.Checked? && oracle(|t|) != Nominal {
      Halt(stages, oracle, t0, t, rest, s);
    } else {
      Advance(stages, oracle, t0, t, rest, s);
      assert rest[1..] == stages[i + 1..];
    }
  }

  /** Every stage has been issued: the run returns `Nominal` with the events issued. */
  lemma Finished(stages: seq<Stage>, oracle: Oracle, t0: seq<Event>, t: seq<Event>)
    requires OnTrack(stages, oracle, t0, t, stages[|stages|..])
    ensures Run(stages, oracle, |t0|).status == Nominal
    ensures t0 + Run(stages, oracle, |t0|).events == t
  {
    assert stages[|stages|..] == [];
    assert After(t, Run([], oracle, |t|)) == Outcome(Nominal, t + []);
    assert t + [] == t;
  }

  /** Appending `e` and then the rest is appending `[e]` followed by the rest. */
  lemma AfterThen(done: seq<Event>, e: Event, o: Outcome)
    ensures After(done, Then(e, o)) == After(done + [e], o)
  {
    assert done + ([e] + o.events) == (done + [e]) + o.events;
  }

  /** The configuration table of `defaultConfigure` for variant `v`: power and timing,
      the variant's display inversion, then the variant's pixel and window settings. */
  function Pipeline(v: Variant): seq<Stage> {
    PowerSetup() + (Inversion(v) + PanelSetup(v))
  }

  /** Wake-up, gamma curve, frame rate, power and VCOM settings, common to both variants. */
  function PowerSetup(): seq<Stage> {
    [ Checked(SleepOut),
      Pause(20),
      Checked(SelectGammaCurve(0x01)),
      Checked(SetNormalFramerate(0x00, 0x1B)),
      Checked(SetPowerControl1(0x21, 0x00)),
      Checked(SetPowerControl2(0x10)),
      Checked(SetVCOMControl1(0x3E, 0x28)),
      Checked(SetVCOMOffsetControl(true, 0x86)) ]
  }

  /** Display inversion, switched on by the variants that need it. */
  function Inversion(v: Variant): seq<Stage> {
    if v.inversion then [Checked(SetInversion(true))] else []
  }

  /** Pixel format, window, memory access order, gamma tables and power-on. */
  function PanelSetup(v: Variant): seq<Stage> {
    [ Checked(SetInterfacePixelFormat(v.pixelFormat)),
      Checked(SetColumnAddress(v.startCol, v.stopCol)),
      Checked(SetRowAddress(v.startRow, v.stopRow)),
      Checked(SetMemoryAccessControl(false, true, false, false, true, false)),
      Checked(SetPositiveGamCorr(v.positiveGamma)),
      Unchecked(SetNegativeGamCorr(v.negativeGamma)),
      Pause(20),
      Unchecked(SetPower(true)) ]
  }

  /** The two panels' pipelines: the ILI9341 panel issues 16 stages with pixel format
      0x55 and no inversion; the 4D Systems panel issues 17, the inversion coming ninth,
      with pixel format 0x05.  In both, exactly the negative gamma table and the power-on
      have their status dropped. */
  lemma VariantPipelines()
    ensures var p := Pipeline(Ili9341_240x320);
      |p| == 16 && p[8] == Checked(SetInterfacePixelFormat(0x55)) &&
      Checked(SetInversion(true)) !in p &&
      (forall j :: 0 <= j < |p| ==> (p[j].Unchecked? <==> j == 13 || j == 15))
    ensures var p := Pipeline(Lcd320240);
      |p| == 17 && p[8] == Checked(SetInversion(true)) && p[9] == Checked(SetInterfacePixelFormat(0x05)) &&
      (forall j :: 0 <= j < |p| ==> (p[j].Unchecked? <==> j == 14 || j == 16))
  {
  }

  /** The events of two stage lists run one after the other. */
  lemma {:induction false} EventsAppend(a: seq<Stage>, b: seq<Stage>)
    ensures Events(a + b) == Events(a) + Events(b)
    decreases |a|
  {
    if a == [] {
      assert a + b == b;
    } else {
      assert (a + b)[1..] == a[1..] + b;
      EventsAppend(a[1..], b);
    }
  }

  /** The events of the common power set-up. */
  lemma PowerSetupEvents()
    ensures Events(PowerSetup()) ==
      [ Command(SleepOut), Delay(20), Command(SelectGammaCurve(0x01)),
        Command(SetNormalFramerate(0x00, 0x1B)), Command(SetPowerControl1(0x21, 0x00)),
        Command(SetPowerControl2(0x10)), Command(SetVCOMControl1(0x3E, 0x28)),
        Command(SetVCOMOffsetControl(true, 0x86)) ]
  {
    var p := PowerSetup();
    forall i | 0 <= i < |p| ensures Events(p)[i] == EventOf(p[i]) {
      EventsAt(p, i);
    }
  }

  /** The events of a variant's panel set-up. */
  lemma PanelSetupEvents(v: Variant)
    ensures Events(PanelSetup(v)) ==
      [ Command(SetInterfacePixelFormat(v.pixelFormat)),
        Command(SetColumnAddress(v.startCol, v.stopCol)), Command(SetRowAddress(v.startRow, v.stopRow)),
        Command(SetMemoryAccessControl(false, true, false, false, true, false)),
        Command(SetPositiveGamCorr(v.positiveGamma)), Command(SetNegativeGamCorr(v.negativeGamma)),
        Delay(20), Command(SetPower(true)) ]
  {
    var p := PanelSetup(v);
    forall i | 0 <= i < |p| ensures Events(p)[i] == EventOf(p[i]) {
      EventsAt(p, i);
    }
  }

  /** With every checked stage of `Pipeline(v)` answering `Nominal`, whatever the negative
      gamma table and the power-on answer, the configuration returns `Nominal` after
      issuing exactly this sequence; the inversion is issued by the variants that have one,
      between the VCOM offset and the pixel format. */
  lemma NominalConfiguration(v: Variant, oracle: Oracle, at: nat)
    requires var p := Pipeline(v);
      forall j :: 0 <= j < |p| && p[j].Checked? ==> oracle(at + j) == Nominal
    ensures Run(Pipeline(v), oracle, at) == Outcome(Nominal,
      [ Command(SleepOut), Delay(20), Command(SelectGammaCurve(0x01)),
        Command(SetNormalFramerate(0x00, 0x1B)), Command(SetPowerControl1(0x21, 0x00)),
        Command(SetPowerControl2(0x10)), Command(SetVCOMControl1(0x3E, 0x28)),
        Command(SetVCOMOffsetControl(true, 0x86)) ] +
      (if v.inversion then [Command(SetInversion(true))] else []) +
      [ Command(SetInterfacePixelFormat(v.pixelFormat)),
        Command(SetColumnAddress(v.startCol, v.stopCol)), Command(SetRowAddress(v.startRow, v.stopRow)),
        Command(SetMemoryAccessControl(false, true, false, false, true, false)),
        Command(SetPositiveGamCorr(v.positiveGamma)), Command(SetNegativeGamCorr(v.negativeGamma)),
        Delay(20), Command(SetPower(true)) ])
  {
    var p := Pipeline(v);
    forall j | 0 <= j < |p| ensures !Fails(p, oracle, at, j) {
      assert p[j].Checked? ==> oracle(at + j) == Nominal;
    }
    RunsToCompletion(p, oracle, at);
    EventsAppend(PowerSetup(), Inversion(v) + PanelSetup(v));
    EventsAppend(Inversion(v), PanelSetup(v));
    if v.inversion {
      assert Events(Inversion(v)) == [Command(SetInversion(true))] by {
        assert Inversion(v)[1..] == [];
      }
    }
    PowerSetupEvents();
    PanelSetupEvents(v);
    var e1, e2, e3 := Events(PowerSetup()), Events(Inversion(v)), Events(PanelSetup(v));
    assert e1 + (e2 + e3) == e1 + e2 + e3;
  }
}
