# MIDI foot controller: input-to-MIDI state machine

This project models the main loop of a MIDI foot-controller pedal (an Arduino
sketch, `src/main.cpp`) and proves properties of it in Dafny 4.11.

Each pass of the loop samples four buttons. Their pins have pull-ups, so a level
of 0 means the button is pressed. The pass then does four things in a fixed order:

1. **Mode button (button 1).** The press time is recorded on the press edge. On
   release the press is classified. A press shorter than 1000 ms flips the MIDI
   command between Control Change (`CC`) and Program Change (`PC`). A longer
   press flips the button mode between latching (`DT`) and momentary (`ST`).
2. **Preset button (button 2).** Each press edge advances the preset by 10, and 90
   becomes 10. The presets are therefore 10, 20, ..., 80.
3. **Signal buttons (buttons 3 and 4).** Each has an edge guard and a latch.
   - In `CC` mode a press edge sends `CC(k + preset/2, 127)` and sets the latch.
     A second press edge in `DT` mode sends value 0 and clears it. In `ST` mode,
     any released cycle clears a set latch and sends value 0.
   - In `PC` mode a press edge sends program `k - 1`.
4. **MIDI output.** Every message goes out on channel 1.

The signal buttons see the command, mode and preset already updated in the same pass.

Files:

- `midi.dfy` (module `Midi`): the two message kinds and the default channel.
- `pedal.dfy` (module `Pedal`): the state (every global of the loop), the input
  snapshot, and the pass as pure functions. `ModeButton`, `PresetButton`,
  `SignalButton` and `Signals` are the phases, and `Loop` is the whole pass. Their
  contracts state the per-cycle behaviour.
- `runs.dfy` (module `Runs`): `Run` iterates the pass over a sequence of cycles. Its
  lemmas cover several cycles:
  - one preset step per press edge;
  - holding a button counts once;
  - a whole press of the mode button flips exactly one toggle;
  - every latch alternates strictly on/off;
  - a repeated input is silent.
- `display.dfy` (module `Display`): the text of the status screen as a pure
  function of the state.
- `footswitch.dfy` (module `Firmware`): class `Footswitch`. Its fields are the
  globals. `Step` updates them in place, phase by phase, as the loop does, and
  returns the messages sent. Each method is proved equal to the pure function of
  its phase.

Details of the code that the model keeps:

- This version of the pedal has exactly two signal buttons and no potentiometer.
- In `ST` mode the "off" message is sent on any released cycle while the latch is
  set, not only on a release edge. For example, when a long press switches `DT`
  to `ST` while a latch is on, that same pass sends "off" if that button is up,
  because the mode button is handled before the signal buttons.
- An edge guard is cleared on every released cycle, not only on a release edge.
- The controller number `k + preset/2` is computed when a message is sent, from
  the preset of that pass. A latch switched on under one preset is switched off
  on the controller of the current preset. For example, button 3 sends
  `CC(6, 127)` under preset 10, and after a preset press its next press sends
  `CC(11, 0)`. The alternation lemmas are therefore stated per latch, grouping a
  button's messages by controller number modulo 5.
- `unsigned long` and `long` are taken to be 32 bits wide, as on Arduino boards.
  `millis()` is an unsigned 32-bit reading (`Millis`), and `pressDuration` is the
  unsigned difference `releasedTime - pressedTime` stored in a signed 32-bit
  `long`. A press shorter than 2^31 ms gets its true duration even across a wrap
  of the clock. A press of 2^31 ms (about 24.8 days) or more reads as negative
  and so counts as a short press.
- The two copies of the signal-button code differ only in the button's index.
  They are written once, as `Pedal.SignalButton` and `Firmware.CheckSignalButton`,
  with the index as a parameter.

## Model

| member | source | states |
|---|---|---|
| `Pedal.NextPreset` | src/main.cpp:184-188 | From a valid preset the result is valid. It is 10 exactly when the preset was 80, and otherwise the preset plus 10. |
| `Pedal.ControllerNumber` | src/main.cpp:195-241 | Under a valid preset, a signal button's controller number lies in 6..42 and is congruent to the button's index modulo 5, so the two buttons never share a number. |
| `Pedal.ProgramNumber` | src/main.cpp:243-264 | Button 3 selects program 0 and button 4 program 1. |
| `Pedal.PedalMessage` | src/main.cpp:195-264 | Every message of this shape fits MIDI's 7-bit data bytes and 16 channels. |
| `Pedal.FlipCommand` | src/main.cpp:160-166 | The command always changes. |
| `Pedal.FlipMode` | src/main.cpp:169-175 | The mode always changes. |
| `Pedal.ElapsedMillis` | src/main.cpp:154 | The unsigned 32-bit difference of two clock readings: the plain difference when the clock did not wrap, and `2^32 - pressed + released` when it did. |
| `Pedal.ToLong` | src/main.cpp:154 | An unsigned 32-bit value stored in a `long` lies in -2^31..2^31-1, is congruent to the value modulo 2^32, and is negative exactly when the value is 2^31 or more. |
| `Pedal.PressDuration` | src/main.cpp:150-154 | The duration the code computes lies in the `long` range, is congruent to release minus press modulo 2^32, and equals release minus press whenever that is in 0..2^31-1. |
| `Pedal.ModeButton` | src/main.cpp:145-179 | Only the mode-button fields, the command and the mode change. The guard ends up set exactly while the button is held. A press edge only records its time, and no other cycle changes the press time. A release records the release time and the computed duration, and no other cycle changes them. The command flips exactly on a release whose duration is below 1000, and the mode flips exactly on a release whose duration is 1000 or more. Never both flip. |
| `Pedal.PresetButton` | src/main.cpp:182-193 | Only the preset and its guard change. The guard ends up set exactly while the button is held. A press edge advances the preset one step, and nothing else changes it. A valid preset stays valid. |
| `Pedal.SignalButton` | src/main.cpp:195-264 | The guard ends up set exactly while the button is held, and at most one message is sent. In `CC` mode a message is sent exactly when the latch changes, and it is `CC(k + preset/2, 127 or 0, 1)` matching the new latch. A press edge turns the latch on, or off again in `DT` mode. An already-seen press does nothing. A release clears the latch in `ST` mode and keeps it in `DT` mode, so in `ST` mode a latch is on only while held. In `PC` mode a press edge sends exactly one `PC(k - 1, 1)`, other cycles send nothing, and the latch is untouched. |
| `Pedal.Signals` | src/main.cpp:195-264 | Only the two guards and two latches change. At most two messages are sent. Under a valid preset every message is a pedal message. |
| `Pedal.Loop` | src/main.cpp:140-264 | A valid preset stays valid. Under a valid preset every message sent is an on/off CC to 6..42 or program 0 or 1, on channel 1. At most two messages are sent. Afterwards each of the four guards says whether its button is held. |
| `Runs.Run` | src/main.cpp:140-270 | Over any number of cycles from a valid preset, the preset stays valid and every message is a pedal message. At most two messages are sent per cycle. |
| `Runs.ReachablePresetValid` | src/main.cpp:15-17 | From the power-on values the preset is always in {10, ..., 80}, and every message sent is a pedal message. |
| `Runs.PresetCountsPresses` | src/main.cpp:182-193 | After any run, the preset equals the starting preset advanced once per press edge of the preset button. |
| `Runs.HeldPresetAdvancesOnce` | src/main.cpp:182-193 | Holding the preset button for any number of cycles, starting from a released guard, advances the preset exactly once. |
| `Runs.AdvancePresetCycles` | src/main.cpp:184-188 | `n` presses from a valid preset `p` give `10 * (1 + (p/10 - 1 + n) mod 8)`. The presets cycle with period 8. |
| `Runs.HoldThenRelease` | src/main.cpp:145-179 | After the press edge, any held cycles and then a release flip the command if the computed duration since the recorded press is below 1000, and the mode otherwise. The released guard is clear and the duration is recorded. |
| `Runs.ClickClassification` | src/main.cpp:145-179 | A whole press of the mode button (press edge, held cycles, release) flips the command when the computed duration from press to release is below 1000 and the mode otherwise. Exactly one of them flips. |
| `Runs.DurationAcrossWrap` | src/main.cpp:150-154 | A press shorter than 2^31 ms gets its true duration even when the clock wrapped between press and release. |
| `Runs.VeryLongPressReadsShort` | src/main.cpp:150-166 | A press of 2^31 ms or more has a negative duration, so its release flips the command and not the mode. |
| `Runs.SignalButtonAlternates` | src/main.cpp:197-241 | Under a valid preset, one signal button's on/off messages are consistent with its latch, and none of them is attributed to the other button. |
| `Runs.LoopAlternates` | src/main.cpp:195-264 | In one cycle each latch's CC values alternate from its old state, and its new state is the old one toggled once per message. |
| `Runs.RunAlternates` | src/main.cpp:195-264 | Over any run from a valid preset, each latch's CC values alternate strictly: "off" first if the latch was on, "on" first if it was off. The latch ends toggled once per message. |
| `Runs.OffFollowsCurrentPreset` | src/main.cpp:182-213 | Button 3 pressed under preset 10, then a preset press, then button 3 again sends `CC(6, 127, 1)` and then `CC(11, 0, 1)`: the "off" goes to the controller of the current preset. |
| `Runs.RepeatIsQuiet` | src/main.cpp:145-264 | A second cycle with the same levels, at any time, sends nothing and leaves every field unchanged. |
| `Runs.HeldPresetNoPresses` | src/main.cpp:182-193 | While the preset button stays held with its guard set, no further press edge is counted. |
| `Runs.ModeButtonSettled` | src/main.cpp:145-179 | A mode button whose guard already matches its level changes nothing. |
| `Runs.PresetButtonSettled` | src/main.cpp:182-193 | A preset button whose guard already matches its level changes nothing. |
| `Runs.SignalButtonSettled` | src/main.cpp:195-264 | A signal button whose guard matches its level, and which has no momentary latch left to release, sends nothing and changes nothing. |
| `Runs.SignalsSettled` | src/main.cpp:195-264 | Signal buttons whose guards match their levels, with no momentary latch left to release, send nothing and change nothing. |
| `Display.CommandLabel` | src/main.cpp:103 | The first status line is "CC" or "PC", told apart by its first character. |
| `Display.ModeLabel` | src/main.cpp:107 | The mode label is "DT" or "ST", told apart by its first character. |
| `Display.Decimal` | src/main.cpp:105 | An integer prints as a non-empty string of decimal digits, and a single digit for values below 10. |
| `Display.PresetDigit` | src/main.cpp:105 | Under a valid preset the digit shown is in 1..8 and is the preset divided by 10. |
| `Display.Status` | src/main.cpp:99-108 | The first line is the command label. Under a valid preset the second line is five characters: 'P', the digit of the preset divided by 10 (1..8), a space and the mode label. |
| `Display.StatusDeterminesToggles` | src/main.cpp:99-108 | Under valid presets, two states with the same screen agree on command, preset and mode. |
| `Firmware.Footswitch.constructor` | src/main.cpp:15-66 | The fields start at the globals' initial values: `CC`, preset 10, `DT`, all guards and latches clear, times 0. |
| `Firmware.Footswitch.Step` | src/main.cpp:140-264 | The new fields and the messages sent are those of `Pedal.Loop` on the old fields. A valid preset stays valid. At most two messages are sent. |
| `Firmware.Footswitch.CheckModeButton` | src/main.cpp:145-179 | The new fields are `Pedal.ModeButton` of the old ones. |
| `Firmware.Footswitch.CheckPresetButton` | src/main.cpp:182-193 | The new fields are `Pedal.PresetButton` of the old ones. The method adds 10 and resets 90 to 10, as the code does. |
| `Firmware.Footswitch.SendSignals` | src/main.cpp:195-264 | The new fields and the messages are `Pedal.Signals` of the old fields. |
| `Firmware.CheckSignalButton` | src/main.cpp:195-264 | The new guard, the new latch and the messages of one signal button are those of `Pedal.SignalButton`. |

## Left out

- The OLED display driver: clearing, cursor placement and the centring of the first line in `oledDisplayCenter`. Only the status text is modelled.
- `setup()`: serial start, the endless loop on display-initialisation failure, pin modes and `MIDI.begin`. This is hardware bring-up with no effect on the state machine.
- `checkButtonState` reads pins with `digitalRead`. The model takes the four levels as a `Snapshot` parameter instead.
- Buttons 5 to 7 and `control3Pressed` to `control5Pressed`. They are read or declared but never used by the loop.
- The MIDI transport. Each send is modelled as appending a message to the returned sequence, with no byte encoding.
- The clock itself. Each cycle's `millis()` reading is the parameter `now: Millis`, an unsigned 32-bit value. Nothing relates readings of successive cycles.
- The 5 ms `delay` at the end of each pass. It has no logical effect.
