/** The firmware's globals as the fields of one object, and the main loop as a
    method that updates them in place and returns the MIDI messages it sent. */
module Firmware {
  import opened Midi
  import opened Pedal

  class Footswitch {
    var midiCommand: Command
    var preset: nat
    var buttonMode: ButtonMode

    var control1Pressed: bool
    var control2Pressed: bool

    // button 1: MIDI command / button mode
    var button1IsClicked: bool
    var pressedTime: Millis
    var releasedTime: Millis
    var pressDuration: int

    // button 2: preset
    var button2IsClicked: bool

    // buttons 3 and 4: signals
    var button3IsClicked: bool
    var button4IsClicked: bool

    /** The object's fields as a state value. */
    function Model(): State
      reads this
    {
      State(midiCommand, preset, buttonMode, control1Pressed, control2Pressed,
            button1IsClicked, pressedTime, releasedTime, pressDuration,
            button2IsClicked, button3IsClicked, button4IsClicked)
    }

    /** The object invariant: the preset is one of 10, 20, ..., 80. */
    predicate Valid()
      reads this
    {
      ValidPreset(preset)
    }

    /** The globals as the firmware initialises them. */
    constructor ()
      ensures Model() == Initial
      ensures Valid()
    {
      midiCommand, preset, buttonMode := CC, 10, DT;
      control1Pressed, control2Pressed := false, false;
      button1IsClicked, pressedTime, releasedTime, pressDuration := false, 0, 0, 0;
      button2IsClicked, button3IsClicked, button4IsClicked := false, false, false;
    }

    /** One pass of the main loop on the levels `snap` read at time `now`:
        mode button, preset button, then the signal buttons. */
    method Step(snap: Snapshot, now: Millis) returns (sent: seq<MidiMsg>)
      modifies this
      ensures Model() == Loop(old(Model()), snap, now).state
      ensures sent == Loop(old(Model()), snap, now).sent
      ensures old(Valid()) ==> Valid()
      ensures |sent| <= 2
    {
      CheckModeButton(snap.button1, now);
      CheckPresetButton(snap.button2);
      sent := SendSignals(snap);
    }

    /** Mode button: record the press, classify it on release. */
    method CheckModeButton(level: Level, now: Millis)
      modifies this
      ensures Model() == ModeButton(old(Model()), level, now)
    {
      if level == 0 && !button1IsClicked {
        pressedTime := now;
        button1IsClicked := true;
      } else if level == 1 && button1IsClicked {
        releasedTime := now;
        pressDuration := ToLong(ElapsedMillis(releasedTime, pressedTime));
        if pressDuration < ShortPressTime {
          if midiCommand == CC {
            midiCommand := PC;
          } else {
            midiCommand := CC;
          }
        } else {
          if buttonMode == DT {
            buttonMode := ST;
          } else {
            buttonMode := DT;
          }
        }
        button1IsClicked := false;
      }
    }

    /** Preset button: step the preset on the press edge. */
    method CheckPresetButton(level: Level)
      modifies this
      ensures Model() == PresetButton(old(Model()), level)
    {
      if level == 0 && !button2IsClicked {
        preset := preset + 10;
        if preset == 90 {
          preset := 10;
        }
        button2IsClicked := true;
      } else if level == 1 {
        button2IsClicked := false;
      }
    }

    /** Signal buttons 3 and 4, under the command, mode and preset of this cycle. */
    method SendSignals(snap: Snapshot) returns (sent: seq<MidiMsg>)
      modifies this
      ensures Model() == Signals(old(Model()), snap).state
      ensures sent == Signals(old(Model()), snap).sent
    {
      var sent3, sent4;
      button3IsClicked, control1Pressed, sent3 :=
        CheckSignalButton(midiCommand, buttonMode, preset, Control1, snap.button3, button3IsClicked, control1Pressed);
      button4IsClicked, control2Pressed, sent4 :=
        CheckSignalButton(midiCommand, buttonMode, preset, Control2, snap.button4, button4IsClicked, control2Pressed);
      sent := sent3 + sent4;
    }
  }

  /** One signal button for one cycle: its new edge guard and latch, and what it sends. */
  method CheckSignalButton(midiCommand: Command, buttonMode: ButtonMode, preset: nat, c: Control,
                           level: Level, isClicked: bool, pressed: bool)
    returns (isClicked': bool, pressed': bool, sent: seq<MidiMsg>)
    ensures LatchOut(isClicked', pressed', sent) ==
            SignalButton(midiCommand, buttonMode, preset, c, level, isClicked, pressed)
  {
    isClicked', pressed', sent := isClicked, pressed, [];
    var k := c.Index();
    if midiCommand == CC {
      if level == 0 && !isClicked {
        if !pressed {
          sent := sent + [ControlChange(k + preset / 2, On, DefaultChannel)];
          pressed' := true;
        } else if pressed && buttonMode == DT {
          sent := sent + [ControlChange(k + preset / 2, Off, DefaultChannel)];
          pressed' := false;
        }
        isClicked' := true;
      } else if level == 1 {
        if buttonMode == ST && pressed {
          sent := sent + [ControlChange(k + preset / 2, Off, DefaultChannel)];
          pressed' := false;
        }
        isClicked' := false;
      }
    } else if midiCommand == PC {
      if level == 0 && !isClicked {
        sent := sent + [ProgramChange(k - 1, DefaultChannel)];
        isClicked' := true;
      } else if level == 1 {
        isClicked' := false;
      }
    }
  }
}
