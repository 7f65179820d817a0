/** The text of the status screen: the command label on the first line, then
    "P", the preset digit, a space and the mode label. Pixel layout (centring
    the first line) belongs to the display driver and is not modelled. */
module Display {
  import opened Pedal

  function CommandLabel(c: Command): (text: string)
    ensures |text| == 2 && text[1] == 'C'
    ensures text[0] == (if c == CC then 'C' else 'P')
  {
    match c
    case CC => "CC"
    case PC => "PC"
  }

  function ModeLabel(m: ButtonMode): (text: string)
    ensures |text| == 2 && text[1] == 'T'
    ensures text[0] == (if m == DT then 'D' else 'S')
  {
    match m
    case DT => "DT"
    case ST => "ST"
  }

  /** The character of a decimal digit. */
  function DigitChar(d: nat): (ch: char)
    requires d < 10
    ensures '0' <= ch <= '9'
    ensures ch as int - '0' as int == d
  {
    (d + '0' as int) as char
  }

  /** `n` written in decimal, as the display driver prints an integer. */
  function Decimal(n: nat): (r: string)
    ensures |r| >= 1
    ensures forall i :: 0 <= i < |r| ==> '0' <= r[i] <= '9'
    ensures n < 10 ==> r == [DigitChar(n)]
    ensures n >= 10 ==> |r| >= 2
    decreases n
  {
    if n < 10 then [DigitChar(n)] else Decimal(n / 10) + [DigitChar(n % 10)]
  }

  /** The preset digit shown after "P". */
  function PresetDigit(preset: nat): (d: nat)
    ensures ValidPreset(preset) ==> 1 <= d <= 8 && preset == 10 * d
  {
    preset / 10
  }

  datatype StatusView = StatusView(title: string, info: string)

  /** What the status screen shows for a state. */
  function Status(s: State): (v: StatusView)
    // first line: the command
    ensures v.title == CommandLabel(s.midiCommand)
    // second line: "P", the preset's digit, a space and the mode
    ensures ValidPreset(s.preset) ==>
              |v.info| == 5 && v.info[0] == 'P' && v.info[2] == ' ' &&
              '1' <= v.info[1] <= '8' && v.info[1] as int - '0' as int == s.preset / 10 &&
              v.info[3..] == ModeLabel(s.buttonMode)
  {
    StatusView(CommandLabel(s.midiCommand),
               "P" + Decimal(PresetDigit(s.preset)) + " " + ModeLabel(s.buttonMode))
  }

  /** In a valid preset the screen shows the whole user-visible state: two states
      with the same screen agree on command, preset and mode. */
  lemma StatusDeterminesToggles(s: State, t: State)
    requires ValidPreset(s.preset) && ValidPreset(t.preset)
    requires Status(s) == Status(t)
    ensures s.midiCommand == t.midiCommand
    ensures s.buttonMode == t.buttonMode
    ensures s.preset == t.preset
  {
    var vs, vt := Status(s), Status(t);
    assert vs.title[0] == vt.title[0];
    assert vs.info[1] == vt.info[1];
    assert vs.info[3] == vt.info[3];
    assert vs.info[1] == DigitChar(PresetDigit(s.preset));
    assert vt.info[1] == DigitChar(PresetDigit(t.preset));
    assert vs.info[3] == ModeLabel(s.buttonMode)[0];
    assert vt.info[3] == ModeLabel(t.buttonMode)[0];
  }
}
