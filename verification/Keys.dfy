/** The key names of the send-keys action and the bytes they stand for. */
module Keys {
  import opened Basics

  function Ascii(s: string): Bytes
    requires forall i :: 0 <= i < |s| ==> s[i] < 128 as char
  {
    seq(|s|, i requires 0 <= i < |s| => s[i] as byte)
  }

  /** ESC, then the given text. */
  function Esc(s: string): Bytes
    requires forall i :: 0 <= i < |s| ==> s[i] < 128 as char
  {
    [27] + Ascii(s)
  }

  const KEY_MAP: map<string, Bytes> := map[
    "Enter" := [13], "Return" := [13], "Tab" := [9], "Space" := [32], "Escape" := [27],
    "Backspace" := [8], "Delete" := [127],
    "ArrowUp" := Esc("[A"), "ArrowDown" := Esc("[B"), "ArrowRight" := Esc("[C"), "ArrowLeft" := Esc("[D"),
    "Home" := Esc("[H"), "End" := Esc("[F"), "PageUp" := Esc("[5~"), "PageDown" := Esc("[6~"),
    "F1" := Esc("OP"), "F2" := Esc("OQ"), "F3" := Esc("OR"), "F4" := Esc("OS"),
    "F5" := Esc("[15~"), "F6" := Esc("[17~"), "F7" := Esc("[18~"), "F8" := Esc("[19~"),
    "F9" := Esc("[20~"), "F10" := Esc("[21~"), "F11" := Esc("[23~"), "F12" := Esc("[24~")]

  function Text(key: Bytes): string {
    seq(|key|, i requires 0 <= i < |key| => key[i] as char)
  }

  const CTRL := "Ctrl+"

  /**
   The letter that strings.ToLower makes of `rest` when the result is one byte long and a letter;
   besides ASCII letters these are the Kelvin sign and the capital I with a dot above.
   */
  function LowerLetter(rest: Bytes): Option<byte> {
    if |rest| == 1 && 65 <= rest[0] <= 90 then Some(rest[0] + 32)
    else if |rest| == 1 && 97 <= rest[0] <= 122 then Some(rest[0])
    else if rest == [0xE2, 0x84, 0xAA] then Some(107)
    else if rest == [0xC4, 0xB0] then Some(105)
    else None
  }

  /** convertKeySequence. */
  function Convert(key: Bytes): Bytes {
    if Ascii(CTRL) <= key && LowerLetter(key[5..]).Some? then [LowerLetter(key[5..]).value - 96]
    else if Text(key) in KEY_MAP then KEY_MAP[Text(key)]
    else key
  }

  function ConvertAll(keys: seq<Bytes>): seq<Bytes> {
    seq(|keys|, i requires 0 <= i < |keys| => Convert(keys[i]))
  }

  /** Ctrl with a letter of either case is the letter's low five bits. */
  lemma ControlIsLowBits(letter: byte)
    requires 65 <= letter <= 90 || 97 <= letter <= 122
    ensures Convert(Ascii(CTRL) + [letter]) == [letter % 32]
  {
    var key := Ascii(CTRL) + [letter];
    assert key[5..] == [letter];
  }

  /** A name of the map stands for its sequence: none of them is taken for a Ctrl combination. */
  lemma NamesStand(key: Bytes)
    requires Text(key) in KEY_MAP
    ensures Convert(key) == KEY_MAP[Text(key)]
  {
    assert Text(key)[0] != 'C';
    assert Ascii(CTRL)[0] == 'C' as byte;
  }

  /** Everything else is sent as it is: text that is no key name and no Ctrl combination. */
  lemma OthersPass(key: Bytes)
    requires Text(key) !in KEY_MAP
    requires |key| >= 5 && key[..5] == [67, 116, 114, 108, 43] ==> |key| != 6 && |key| != 7 && |key| != 8
    ensures Convert(key) == key
  {
    CtrlBytes();
  }

  /** The two other characters whose lower case is an ASCII letter act as K and I. */
  lemma CtrlOfFolded()
    ensures Convert([67, 116, 114, 108, 43, 0xE2, 0x84, 0xAA]) == [11]
    ensures Convert([67, 116, 114, 108, 43, 0xC4, 0xB0]) == [9]
  {
    CtrlBytes();
    var kelvin: Bytes := [67, 116, 114, 108, 43, 0xE2, 0x84, 0xAA];
    var dotted: Bytes := [67, 116, 114, 108, 43, 0xC4, 0xB0];
    assert kelvin[5..] == [0xE2, 0x84, 0xAA] && dotted[5..] == [0xC4, 0xB0];
  }

  /** Ctrl with anything else is sent as it is. */
  lemma CtrlOther(rest: Bytes)
    requires |rest| == 1 ==> !(65 <= rest[0] <= 90) && !(97 <= rest[0] <= 122)
    requires rest != [0xE2, 0x84, 0xAA] && rest != [0xC4, 0xB0]
    ensures Convert([67, 116, 114, 108, 43] + rest) == [67, 116, 114, 108, 43] + rest
  {
    CtrlBytes();
    var key: Bytes := [67, 116, 114, 108, 43] + rest;
    assert key[5..] == rest;
    assert Text(key)[0] == 'C';
  }

  lemma CtrlBytes()
    ensures Ascii(CTRL) == [67, 116, 114, 108, 43]
  {
  }
}
