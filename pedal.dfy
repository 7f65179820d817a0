/** The per-cycle state machine of the foot controller, as pure functions over
    an explicit state value. `Loop` is one pass of the firmware's main loop:
    mode button, then preset button, then the two signal buttons, in that order. */
module Pedal {
  import opened Midi

  /** Which MIDI message the signal buttons send (the "CC" / "PC" flag). */
  datatype Command = CC | PC

  /** How a Control Change latch behaves: "DT" latches until the next press,
      "ST" is momentary and switches off on release. */
  datatype ButtonMode = DT | ST

  /** The two signal buttons (pins of button 3 and button 4) and their latches. */
  datatype Control = Control1 | Control2
  {
    /** 1-based position among the signal buttons. */
    function Index(): (i: int)
      ensures 1 <= i <= 2
    {
      match this
      case Control1 => 1
      case Control2 => 2
    }
  }

  /** A sampled pin level: the buttons are wired to pull-ups, so 0 means pressed
      and 1 means released. */
  type Level = x: int | 0 <= x <= 1

  /** A reading of `millis()`: an unsigned 32-bit count of milliseconds, which
      wraps around to 0 after 2^32 ms. */
  type Millis = x: int | 0 <= x < 0x1_0000_0000

  /** The number of distinct clock readings. */
  const ClockModulus: int := 0x1_0000_0000

  /** The levels read from the four buttons in one cycle. */
  datatype Snapshot = Snapshot(button1: Level, button2: Level, button3: Level, button4: Level)

  /** Every global the main loop reads or writes. */
  datatype State = State(
    midiCommand: Command,
    preset: nat,
    buttonMode: ButtonMode,
    control1Pressed: bool,
    control2Pressed: bool,
    button1IsClicked: bool,
    pressedTime: Millis,
    releasedTime: Millis,
    pressDuration: int,
    button2IsClicked: bool,
    button3IsClicked: bool,
    button4IsClicked: bool)

  /** What one cycle produces: the new state and the messages sent, in order. */
  datatype Outcome = Outcome(state: State, sent: seq<MidiMsg>)

  /** A press of the mode button shorter than this (in ms) is a short press. */
  const ShortPressTime: int := 1000

  /** The values of the globals at power-on. */
  const Initial: State := State(CC, 10, DT, false, false, false, 0, 0, 0, false, false, false)

  function FlipCommand(c: Command): (r: Command)
    ensures r != c
  {
    if c == CC then PC else CC
  }

  function FlipMode(m: ButtonMode): (r: ButtonMode)
    ensures r != m
  {
    if m == DT then ST else DT
  }

  /** The presets the pedal can be on: 10, 20, ..., 80. */
  predicate ValidPreset(p: int)
  {
    10 <= p <= 80 && p % 10 == 0
  }

  /** The preset after one press of the preset button: up by 10, and 90 becomes 10. */
  function NextPreset(p: nat): (q: nat)
    ensures ValidPreset(p) ==> ValidPreset(q)
    ensures ValidPreset(p) ==> (q == 10 <==> p == 80)
    ensures ValidPreset(p) && p != 80 ==> q == p + 10
  {
    if p + 10 == 90 then 10 else p + 10
  }

  /** The controller number a signal button addresses under a preset. */
  function ControllerNumber(c: Control, preset: nat): (n: int)
    ensures ValidPreset(preset) ==> 6 <= n <= 42
    ensures ValidPreset(preset) ==> n % 5 == c.Index()
  {
    c.Index() + preset / 2
  }

  /** The program number a signal button selects in PC mode. */
  function ProgramNumber(c: Control): (p: int)
    ensures 0 <= p <= 1
    ensures c == Control1 <==> p == 0
  {
    c.Index() - 1
  }

  /** The messages a pedal in a valid preset can send: an on/off Control Change
      to a controller in 6..42, or program 0 or 1, always on the default channel. */
  predicate PedalMessage(m: MidiMsg)
    ensures PedalMessage(m) ==> InMidiRange(m)
  {
    match m
    case ControlChange(n, v, ch) => 6 <= n <= 42 && (v == Off || v == On) && ch == DefaultChannel
    case ProgramChange(p, ch) => (p == 0 || p == 1) && ch == DefaultChannel
  }

  /** `released - pressed` on unsigned 32-bit values: the difference modulo 2^32,
      which is the elapsed time also when the clock wrapped in between. */
  function ElapsedMillis(released: Millis, pressed: Millis): (u: Millis)
    ensures pressed <= released ==> u == released - pressed
    ensures released < pressed ==> u == ClockModulus - pressed + released
  {
    (released - pressed) % ClockModulus
  }

  /** An unsigned 32-bit value stored in a signed 32-bit `long`: values from 2^31
      up read as negative. */
  function ToLong(u: Millis): (d: int)
    ensures -0x8000_0000 <= d < 0x8000_0000
    ensures (d - u) % ClockModulus == 0
    ensures d < 0 <==> u >= 0x8000_0000
  {
    if u < 0x8000_0000 then u else u - ClockModulus
  }

  /** The `pressDuration` computed for a press and a release at these clock readings. */
  function PressDuration(released: Millis, pressed: Millis): (d: int)
    ensures -0x8000_0000 <= d < 0x8000_0000
    ensures (d - (released - pressed)) % ClockModulus == 0
    ensures pressed <= released < pressed + 0x8000_0000 ==> d == released - pressed
  {
    ToLong(ElapsedMillis(released, pressed))
  }

  /** Mode button (button 1): records the press time on the press edge and
      classifies the press on release: short flips the command, long flips the mode. */
  function ModeButton(s: State, level: Level, now: Millis): (r: State)
    // only the mode-button fields, the command and the mode can change
    ensures r.(midiCommand := s.midiCommand, buttonMode := s.buttonMode,
               button1IsClicked := s.button1IsClicked, pressedTime := s.pressedTime,
               releasedTime := s.releasedTime, pressDuration := s.pressDuration) == s
    // the edge guard is set exactly while the button is held
    ensures r.button1IsClicked <==> level == 0
    // the press edge only records when it happened
    ensures level == 0 && !s.button1IsClicked ==> r == s.(pressedTime := now, button1IsClicked := true)
    // the press time is written only on the press edge
    ensures !(level == 0 && !s.button1IsClicked) ==> r.pressedTime == s.pressedTime
    // the release time and duration are written only on the release edge
    ensures level == 1 && s.button1IsClicked ==>
              r.releasedTime == now && r.pressDuration == PressDuration(now, s.pressedTime)
    ensures !(level == 1 && s.button1IsClicked) ==>
              r.releasedTime == s.releasedTime && r.pressDuration == s.pressDuration
    // a release classifies the press by its duration
    ensures r.midiCommand != s.midiCommand <==>
              level == 1 && s.button1IsClicked && PressDuration(now, s.pressedTime) < ShortPressTime
    ensures r.buttonMode != s.buttonMode <==>
              level == 1 && s.button1IsClicked && PressDuration(now, s.pressedTime) >= ShortPressTime
    ensures !(r.midiCommand != s.midiCommand && r.buttonMode != s.buttonMode)
  {
    if level == 0 && !s.button1IsClicked then
      s.(pressedTime := now, button1IsClicked := true)
    else if level == 1 && s.button1IsClicked then
      var duration := PressDuration(now, s.pressedTime);
      var t := s.(releasedTime := now, pressDuration := duration, button1IsClicked := false);
      if duration < ShortPressTime then t.(midiCommand := FlipCommand(s.midiCommand))
      else t.(buttonMode := FlipMode(s.buttonMode))
    else
      s
  }

  /** Preset button (button 2): one step of the preset per press edge. */
  function PresetButton(s: State, level: Level): (r: State)
    ensures r.(preset := s.preset, button2IsClicked := s.button2IsClicked) == s
    ensures r.button2IsClicked <==> level == 0
    ensures level == 0 && !s.button2IsClicked ==> r.preset == NextPreset(s.preset)
    ensures r.preset != s.preset ==> level == 0 && !s.button2IsClicked
    ensures ValidPreset(s.preset) ==> ValidPreset(r.preset)
  {
    if level == 0 && !s.button2IsClicked then
      s.(preset := NextPreset(s.preset), button2IsClicked := true)
    else if level == 1 then
      s.(button2IsClicked := false)
    else
      s
  }

  /** The edge guard and latch of one signal button after a cycle, with what it sent. */
  datatype LatchOut = LatchOut(isClicked: bool, pressed: bool, sent: seq<MidiMsg>)

  /** One signal button for one cycle, given the command, mode and preset already
      updated in this cycle. */
  function SignalButton(command: Command, mode: ButtonMode, preset: nat, c: Control,
                        level: Level, isClicked: bool, pressed: bool): (r: LatchOut)
    ensures r.isClicked <==> level == 0
    ensures |r.sent| <= 1
    // Control Change: a message is sent exactly when the latch changes, and it reports the new latch
    ensures command == CC ==> (r.sent == [] <==> r.pressed == pressed)
    ensures command == CC && r.sent != [] ==>
              r.sent == [ControlChange(ControllerNumber(c, preset), if r.pressed then On else Off, DefaultChannel)]
    // a press edge switches the latch on, or off again in latching mode
    ensures command == CC && level == 0 && !isClicked ==> (r.pressed <==> !pressed || mode.ST?)
    // a press that was already seen does nothing
    ensures command == CC && level == 0 && isClicked ==> r.pressed == pressed && r.sent == []
    // a release switches the latch off in momentary mode and keeps it in latching mode
    ensures command == CC && level == 1 ==> (r.pressed <==> pressed && mode.DT?)
    // so in momentary mode a latch is on only while its button is held
    ensures command == CC && mode == ST && r.pressed ==> level == 0
    // Program Change: one message per press edge; the latch is left alone
    ensures command == PC ==> r.pressed == pressed
    ensures command == PC ==>
              r.sent == (if level == 0 && !isClicked then [ProgramChange(ProgramNumber(c), DefaultChannel)] else [])
  {
    var number := ControllerNumber(c, preset);
    match command
    case CC =>
      if level == 0 && !isClicked then
        if !pressed then
          LatchOut(true, true, [ControlChange(number, On, DefaultChannel)])
        else if pressed && mode == DT then
          LatchOut(true, false, [ControlChange(number, Off, DefaultChannel)])
        else
          LatchOut(true, pressed, [])
      else if level == 1 then
        if mode == ST && pressed then
          LatchOut(false, false, [ControlChange(number, Off, DefaultChannel)])
        else
          LatchOut(false, pressed, [])
      else
        LatchOut(isClicked, pressed, [])
    case PC =>
      if level == 0 && !isClicked then
        LatchOut(true, pressed, [ProgramChange(ProgramNumber(c), DefaultChannel)])
      else if level == 1 then
        LatchOut(false, pressed, [])
      else
        LatchOut(isClicked, pressed, [])
  }

  /** The latch of a signal button. */
  function Latched(s: State, c: Control): bool
  {
    match c
    case Control1 => s.control1Pressed
    case Control2 => s.control2Pressed
  }

  /** Both signal buttons, button 3 (control 1) before button 4 (control 2). */
  function Signals(s: State, snap: Snapshot): (r: Outcome)
    ensures r.state.(button3IsClicked := s.button3IsClicked, control1Pressed := s.control1Pressed,
                     button4IsClicked := s.button4IsClicked, control2Pressed := s.control2Pressed) == s
    ensures |r.sent| <= 2
    ensures ValidPreset(s.preset) ==> forall m <- r.sent :: PedalMessage(m)
  {
    var a := SignalButton(s.midiCommand, s.buttonMode, s.preset, Control1,
                          snap.button3, s.button3IsClicked, s.control1Pressed);
    var b := SignalButton(s.midiCommand, s.buttonMode, s.preset, Control2,
                          snap.button4, s.button4IsClicked, s.control2Pressed);
    Outcome(s.(button3IsClicked := a.isClicked, control1Pressed := a.pressed,
               button4IsClicked := b.isClicked, control2Pressed := b.pressed),
            a.sent + b.sent)
  }

  /** One pass of the main loop on the snapshot read at time `now`. */
  function Loop(s: State, snap: Snapshot, now: Millis): (r: Outcome)
    ensures ValidPreset(s.preset) ==> ValidPreset(r.state.preset)
    ensures ValidPreset(s.preset) ==> forall m <- r.sent :: PedalMessage(m)
    ensures |r.sent| <= 2
    // after a cycle every edge guard says whether its button is held
    ensures r.state.button1IsClicked <==> snap.button1 == 0
    ensures r.state.button2IsClicked <==> snap.button2 == 0
    ensures r.state.button3IsClicked <==> snap.button3 == 0
    ensures r.state.button4IsClicked <==> snap.button4 == 0
  {
    Signals(PresetButton(ModeButton(s, snap.button1, now), snap.button2), snap)
  }
}
