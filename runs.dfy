/** Many passes of the main loop in a row, and what holds across them: the preset
    range, one preset step per press, the short/long classification of a whole
    press of the mode button, strict on/off alternation of every latch, and that
    repeating a cycle's input is silent. */
module Runs {
  import opened Midi
  import opened Pedal

  /** One cycle's input: the sampled levels and the clock reading. */
  datatype Tick = Tick(snap: Snapshot, now: Millis)

  /** The main loop run on `ticks`, in order; the messages of all cycles are concatenated. */
  function Run(s: State, ticks: seq<Tick>): (r: Outcome)
    ensures ValidPreset(s.preset) ==> ValidPreset(r.state.preset)
    ensures ValidPreset(s.preset) ==> forall m <- r.sent :: PedalMessage(m)
    ensures |r.sent| <= 2 * |ticks|
    decreases |ticks|
  {
    if ticks == [] then Outcome(s, [])
    else
      var o := Loop(s, ticks[0].snap, ticks[0].now);
      var rest := Run(o.state, ticks[1..]);
      Outcome(rest.state, o.sent + rest.sent)
  }

  /** From power-on, the preset is always one of 10, 20, ..., 80 and every message
      is an on/off Control Change to a controller in 6..42 or program 0 or 1 on channel 1. */
  lemma ReachablePresetValid(ticks: seq<Tick>)
    ensures ValidPreset(Run(Initial, ticks).state.preset)
    ensures forall m <- Run(Initial, ticks).sent :: PedalMessage(m)
  {
  }

  // ---------------------------------------------------------------------------
  // Preset button

  /** The number of press edges of the preset button in `ticks`, when its edge
      guard starts as `clicked`. */
  function PresetPresses(clicked: bool, ticks: seq<Tick>): nat
    decreases |ticks|
  {
    if ticks == [] then 0
    else (if ticks[0].snap.button2 == 0 && !clicked then 1 else 0)
         + PresetPresses(ticks[0].snap.button2 == 0, ticks[1..])
  }

  /** `n` presses of the preset button starting from preset `p`. */
  function AdvancePreset(p: nat, n: nat): nat
    decreases n
  {
    if n == 0 then p else AdvancePreset(NextPreset(p), n - 1)
  }

  /** Each press edge of the preset button advances the preset by one step, and
      nothing else changes it. */
  lemma {:induction false} PresetCountsPresses(s: State, ticks: seq<Tick>)
    ensures Run(s, ticks).state.preset == AdvancePreset(s.preset, PresetPresses(s.button2IsClicked, ticks))
    decreases |ticks|
  {
    if ticks != [] {
      var t := ticks[0];
      var o := Loop(s, t.snap, t.now);
      var m := ModeButton(s, t.snap.button1, t.now);
      assert m.preset == s.preset && m.button2IsClicked == s.button2IsClicked;
      PresetCountsPresses(o.state, ticks[1..]);
    }
  }

  /** While the preset button stays held after its guard is set, no press is counted. */
  lemma {:induction false} HeldPresetNoPresses(ticks: seq<Tick>)
    requires forall t <- ticks :: t.snap.button2 == 0
    ensures PresetPresses(true, ticks) == 0
    decreases |ticks|
  {
    if ticks != [] {
      assert ticks[0] in ticks;
      HeldPresetNoPresses(ticks[1..]);
    }
  }

  /** Holding the preset button for any number of cycles advances the preset once. */
  lemma HeldPresetAdvancesOnce(s: State, ticks: seq<Tick>)
    requires !s.button2IsClicked
    requires ticks != []
    requires forall t <- ticks :: t.snap.button2 == 0
    ensures Run(s, ticks).state.preset == NextPreset(s.preset)
  {
    PresetCountsPresses(s, ticks);
    assert ticks[0] in ticks;
    HeldPresetNoPresses(ticks[1..]);
  }

  /** The presets form a cycle of eight: `n` presses from a valid preset `p`
      land on 10 * (1 + (p / 10 - 1 + n) mod 8). */
  lemma {:induction false} AdvancePresetCycles(p: nat, n: nat)
    requires ValidPreset(p)
    ensures AdvancePreset(p, n) == 10 * (1 + (p / 10 - 1 + n) % 8)
    decreases n
  {
    if n > 0 {
      AdvancePresetCycles(NextPreset(p), n - 1);
      assert NextPreset(p) / 10 - 1 == (p / 10 - 1 + 1) % 8;
    }
  }

  // ---------------------------------------------------------------------------
  // Mode button

  /** A press shorter than 2^31 ms gets its true duration even when the clock
      wrapped around between the press and the release. */
  lemma DurationAcrossWrap(pressed: Millis, elapsed: nat)
    requires elapsed < 0x8000_0000
    ensures PressDuration((pressed + elapsed) % ClockModulus, pressed) == elapsed
  {
  }

  /** A press of 2^31 ms or more reads as a negative `long` duration, so its
      release flips the command as a short press does. */
  lemma VeryLongPressReadsShort(s: State, elapsed: nat)
    requires s.button1IsClicked
    requires 0x8000_0000 <= elapsed < ClockModulus
    ensures var now := (s.pressedTime + elapsed) % ClockModulus;
            PressDuration(now, s.pressedTime) == elapsed - ClockModulus &&
            ModeButton(s, 1, now).midiCommand == FlipCommand(s.midiCommand) &&
            ModeButton(s, 1, now).buttonMode == s.buttonMode
  {
  }

  /** After the press edge, any number of held cycles followed by a release flip
      the command or the mode according to the time since the recorded press. */
  lemma {:induction false} HoldThenRelease(s: State, held: seq<Tick>, release: Tick)
    requires s.button1IsClicked
    requires forall t <- held :: t.snap.button1 == 0
    requires release.snap.button1 == 1
    ensures var r := Run(s, held + [release]).state;
            var d := PressDuration(release.now, s.pressedTime);
            r.pressDuration == d && !r.button1IsClicked &&
            (d < ShortPressTime ==> r.midiCommand == FlipCommand(s.midiCommand) && r.buttonMode == s.buttonMode) &&
            (d >= ShortPressTime ==> r.buttonMode == FlipMode(s.buttonMode) && r.midiCommand == s.midiCommand)
    decreases |held|
  {
    var ticks := held + [release];
    if held == [] {
      assert ticks == [release];
      assert Run(s, ticks).state == Loop(s, release.snap, release.now).state;
    } else {
      var t := held[0];
      assert t in held;
      assert ticks[0] == t && ticks[1..] == held[1..] + [release];
      var o := Loop(s, t.snap, t.now);
      assert o.state.pressedTime == s.pressedTime && o.state.button1IsClicked;
      assert o.state.midiCommand == s.midiCommand && o.state.buttonMode == s.buttonMode;
      HoldThenRelease(o.state, held[1..], release);
    }
  }

  /** A whole press of the mode button (press edge, any number of held cycles,
      release) flips the command when it lasted less than 1000 ms and the mode
      otherwise, never both. */
  lemma ClickClassification(s: State, press: Tick, held: seq<Tick>, release: Tick)
    requires !s.button1IsClicked
    requires press.snap.button1 == 0
    requires forall t <- held :: t.snap.button1 == 0
    requires release.snap.button1 == 1
    ensures var r := Run(s, [press] + held + [release]).state;
            var d := PressDuration(release.now, press.now);
            r.pressDuration == d && !r.button1IsClicked &&
            (d < ShortPressTime ==> r.midiCommand == FlipCommand(s.midiCommand) && r.buttonMode == s.buttonMode) &&
            (d >= ShortPressTime ==> r.buttonMode == FlipMode(s.buttonMode) && r.midiCommand == s.midiCommand)
  {
    var ticks := [press] + held + [release];
    assert ticks[0] == press && ticks[1..] == held + [release];
    var s1 := Loop(s, press.snap, press.now).state;
    assert s1.pressedTime == press.now && s1.button1IsClicked;
    assert s1.midiCommand == s.midiCommand && s1.buttonMode == s.buttonMode;
    HoldThenRelease(s1, held, release);
  }

  // ---------------------------------------------------------------------------
  // Latches

  /** The values of the Control Change messages in `msgs` addressed to a
      controller number congruent to `k` modulo 5. */
  function CCValues(msgs: seq<MidiMsg>, k: int): seq<int>
    decreases |msgs|
  {
    if msgs == [] then []
    else (if msgs[0].ControlChange? && msgs[0].number % 5 == k then [msgs[0].value] else [])
         + CCValues(msgs[1..], k)
  }

  lemma {:induction false} CCValuesAppend(a: seq<MidiMsg>, b: seq<MidiMsg>, k: int)
    ensures CCValues(a + b, k) == CCValues(a, k) + CCValues(b, k)
    decreases |a|
  {
    if a == [] {
      assert a + b == b;
    } else {
      assert (a + b)[0] == a[0];
      assert (a + b)[1..] == a[1..] + b;
      CCValuesAppend(a[1..], b, k);
    }
  }

  /** `vals` is a strict on/off alternation for a latch that starts as `on`:
      an "off" (0) first if it is on, an "on" (127) first if it is off. */
  predicate Alternates(vals: seq<int>, on: bool)
    decreases |vals|
  {
    vals == [] || (vals[0] == (if on then Off else On) && Alternates(vals[1..], !on))
  }

  /** `on` toggled `n` times. */
  function Toggled(on: bool, n: nat): bool
  {
    if n % 2 == 0 then on else !on
  }

  lemma {:induction false} AlternatesAppend(a: seq<int>, b: seq<int>, on: bool)
    requires Alternates(a, on) && Alternates(b, Toggled(on, |a|))
    ensures Alternates(a + b, on)
    decreases |a|
  {
    if a == [] {
      assert a + b == b;
    } else {
      assert (a + b)[0] == a[0];
      assert (a + b)[1..] == a[1..] + b;
      assert Toggled(!on, |a[1..]|) == Toggled(on, |a|);
      AlternatesAppend(a[1..], b, !on);
    }
  }

  /** The latch history `before`, `vals`, `after` is consistent: the values
      alternate from `before` and `after` is `before` toggled once per value. */
  predicate LatchConsistent(before: bool, vals: seq<int>, after: bool)
  {
    Alternates(vals, before) && after == Toggled(before, |vals|)
  }

  lemma LatchConsistentAppend(before: bool, v1: seq<int>, mid: bool, v2: seq<int>, after: bool)
    requires LatchConsistent(before, v1, mid) && LatchConsistent(mid, v2, after)
    ensures LatchConsistent(before, v1 + v2, after)
  {
    AlternatesAppend(v1, v2, before);
  }

  /** One signal button sends at most one on/off message for its own latch,
      consistent with it, and none that counts for the other latch. */
  lemma SignalButtonAlternates(command: Command, mode: ButtonMode, preset: nat, c: Control,
                               level: Level, isClicked: bool, pressed: bool, other: Control)
    requires ValidPreset(preset) && other != c
    ensures var r := SignalButton(command, mode, preset, c, level, isClicked, pressed);
            LatchConsistent(pressed, CCValues(r.sent, c.Index()), r.pressed) &&
            CCValues(r.sent, other.Index()) == []
  {
    var r := SignalButton(command, mode, preset, c, level, isClicked, pressed);
    var n := ControllerNumber(c, preset);
    assert n % 5 == c.Index();
    if r.sent != [] {
      assert r.sent[1..] == [];
    }
  }

  /** In one cycle a latch sends at most one on/off message, consistent with its
      state, and it changes state exactly when it sends one. */
  lemma LoopAlternates(s: State, snap: Snapshot, now: Millis, c: Control)
    requires ValidPreset(s.preset)
    ensures var o := Loop(s, snap, now);
            LatchConsistent(Latched(s, c), CCValues(o.sent, c.Index()), Latched(o.state, c))
  {
    var s2 := PresetButton(ModeButton(s, snap.button1, now), snap.button2);
    assert Latched(s2, c) == Latched(s, c);
    var a := SignalButton(s2.midiCommand, s2.buttonMode, s2.preset, Control1,
                          snap.button3, s2.button3IsClicked, s2.control1Pressed);
    var b := SignalButton(s2.midiCommand, s2.buttonMode, s2.preset, Control2,
                          snap.button4, s2.button4IsClicked, s2.control2Pressed);
    var o := Loop(s, snap, now);
    assert o.sent == a.sent + b.sent;
    CCValuesAppend(a.sent, b.sent, c.Index());
    SignalButtonAlternates(s2.midiCommand, s2.buttonMode, s2.preset, Control1,
                           snap.button3, s2.button3IsClicked, s2.control1Pressed, Control2);
    SignalButtonAlternates(s2.midiCommand, s2.buttonMode, s2.preset, Control2,
                           snap.button4, s2.button4IsClicked, s2.control2Pressed, Control1);
    if c == Control1 {
      assert CCValues(o.sent, 1) == CCValues(a.sent, 1);
    } else {
      assert CCValues(o.sent, 2) == CCValues(b.sent, 2);
    }
  }

  /** Over any run, the on/off messages of each latch alternate strictly,
      starting with "off" if the latch was on and with "on" if it was off, and the
      latch ends toggled once per message. */
  lemma {:induction false} RunAlternates(s: State, ticks: seq<Tick>, c: Control)
    requires ValidPreset(s.preset)
    ensures var r := Run(s, ticks);
            LatchConsistent(Latched(s, c), CCValues(r.sent, c.Index()), Latched(r.state, c))
    decreases |ticks|
  {
    if ticks != [] {
      var t := ticks[0];
      var o := Loop(s, t.snap, t.now);
      var rest := Run(o.state, ticks[1..]);
      LoopAlternates(s, t.snap, t.now, c);
      RunAlternates(o.state, ticks[1..], c);
      CCValuesAppend(o.sent, rest.sent, c.Index());
      LatchConsistentAppend(Latched(s, c), CCValues(o.sent, c.Index()), Latched(o.state, c),
                            CCValues(rest.sent, c.Index()), Latched(rest.state, c));
    }
  }

  /** The controller number comes from the preset at the time of sending. Button 3
      switches its latch on under preset 10 (controller 6); after a preset press
      the next press of button 3 switches it off on controller 11. */
  lemma OffFollowsCurrentPreset()
    ensures Run(Initial, [Tick(Snapshot(1, 1, 0, 1), 0), Tick(Snapshot(1, 0, 1, 1), 10),
                          Tick(Snapshot(1, 1, 0, 1), 20)]).sent
            == [ControlChange(6, On, DefaultChannel), ControlChange(11, Off, DefaultChannel)]
  {
  }

  // ---------------------------------------------------------------------------
  // Repeated input

  /** A mode button whose guard already matches its level does nothing. */
  lemma ModeButtonSettled(s: State, level: Level, now: Millis)
    requires s.button1IsClicked <==> level == 0
    ensures ModeButton(s, level, now) == s
  {
  }

  /** A preset button whose guard already matches its level does nothing. */
  lemma PresetButtonSettled(s: State, level: Level)
    requires s.button2IsClicked <==> level == 0
    ensures PresetButton(s, level) == s
  {
  }

  /** A signal button whose guard already matches its level, and that has no
      momentary latch left to release, sends nothing and changes nothing. */
  lemma SignalButtonSettled(command: Command, mode: ButtonMode, preset: nat, c: Control,
                            level: Level, isClicked: bool, pressed: bool)
    requires isClicked <==> level == 0
    requires !(command == CC && mode == ST && level == 1 && pressed)
    ensures SignalButton(command, mode, preset, c, level, isClicked, pressed) == LatchOut(isClicked, pressed, [])
  {
  }

  /** Signal buttons that are settled in this sense send nothing and change nothing. */
  lemma SignalsSettled(s: State, snap: Snapshot)
    requires s.button3IsClicked <==> snap.button3 == 0
    requires s.button4IsClicked <==> snap.button4 == 0
    requires s.midiCommand == CC && s.buttonMode == ST ==>
               (snap.button3 == 1 ==> !s.control1Pressed) && (snap.button4 == 1 ==> !s.control2Pressed)
    ensures Signals(s, snap) == Outcome(s, [])
  {
    SignalButtonSettled(s.midiCommand, s.buttonMode, s.preset, Control1,
                        snap.button3, s.button3IsClicked, s.control1Pressed);
    SignalButtonSettled(s.midiCommand, s.buttonMode, s.preset, Control2,
                        snap.button4, s.button4IsClicked, s.control2Pressed);
  }

  /** Reading the same levels again in the next cycle, at any time, sends nothing
      and changes nothing. */
  lemma RepeatIsQuiet(s: State, snap: Snapshot, t1: Millis, t2: Millis)
    ensures var o := Loop(s, snap, t1);
            Loop(o.state, snap, t2) == Outcome(o.state, [])
  {
    var o := Loop(s, snap, t1);
    ModeButtonSettled(o.state, snap.button1, t2);
    PresetButtonSettled(o.state, snap.button2);
    SignalsSettled(o.state, snap);
  }
}
