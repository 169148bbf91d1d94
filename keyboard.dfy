/**
 * Translation of keys into Windows virtual-key codes and into keyboard
 * INPUT records (src/win32/keyboard.rs).
 *
 * VkKeyScanW is the platform's `keyScan` function, passed in as `scan`: the
 * translation depends on the keyboard layout, which is not modelled.
 */
module Keyboard {
  import opened Results
  import opened Win32

  /** The keys whose codes keyboard.rs knows. */
  datatype Key =
    | Alt | Backspace | CapsLock | Control | Delete | Down | End | Esc | Home | Left
    | Char(c: char)
    | Enter | Right | Shift | Space | Tab | Up | Super

  datatype Error = CharConversionFailed(text: string)

  // Virtual-key codes
  const VK_RETURN: u16 := 0x0D
  const VK_TAB: u16 := 0x09
  const VK_SPACE: u16 := 0x20
  const VK_BACK: u16 := 0x08
  const VK_ESCAPE: u16 := 0x1B
  const VK_LWIN: u16 := 0x5B
  const VK_SHIFT: u16 := 0x10
  const VK_CAPITAL: u16 := 0x14
  const VK_MENU: u16 := 0x12
  const VK_CONTROL: u16 := 0x11
  const VK_HOME: u16 := 0x24
  const VK_END: u16 := 0x23
  const VK_LEFT: u16 := 0x25
  const VK_RIGHT: u16 := 0x27
  const VK_UP: u16 := 0x26
  const VK_DOWN: u16 := 0x28
  const VK_DELETE: u16 := 0x2E

  /** `char::encode_utf16`: one code unit for a scalar of the Basic
      Multilingual Plane, a surrogate pair otherwise (section 2.1 of RFC 2781). */
  function EncodeUtf16(c: char): (units: seq<u16>)
    ensures 1 <= |units| <= 2
    ensures |units| == 1 <==> c as int <= 0xFFFF
    ensures |units| == 1 ==> units[0] == c as int
    ensures |units| == 2 ==> 0xD800 <= units[0] < 0xDC00 && 0xDC00 <= units[1] < 0xE000
  {
    var v := c as int;
    if v < 0x1_0000 then [v]
    else
      var u := v - 0x1_0000;
      [0xD800 + u / 0x400, 0xDC00 + u % 0x400]
  }

  /** The scalar value that one or two UTF-16 code units stand for
      (section 2.2 of RFC 2781). */
  function DecodeUtf16(units: seq<u16>): int
    requires 1 <= |units| <= 2
  {
    var hi, lo := units[0] as int, if |units| == 2 then units[1] as int else 0;
    if |units| == 1 then hi
    else 0x1_0000 + (hi - 0xD800) * 0x400 + (lo - 0xDC00)
  }

  lemma Utf16RoundTrip(c: char)
    ensures DecodeUtf16(EncodeUtf16(c)) == c as int
  {
    var v := c as int;
    if v >= 0x1_0000 {
      var u := v - 0x1_0000;
      assert u == (u / 0x400) * 0x400 + u % 0x400;
    }
  }

  /** The low-order byte of a SHORT in two's complement (`to_le_bytes()[0]`),
      widened to a WORD. */
  function LowByte(x: Short): (b: u16)
    ensures b <= 0xFF
    ensures (x - b) % 0x100 == 0
  {
    x % 0x100
  }

  /** `keycode_from_char`: only the first character of `text` is looked at;
      it must be a single UTF-16 code unit, and the result is the virtual-key
      byte of VkKeyScanW's answer (the shift-state byte is dropped). */
  function KeycodeFromChar(text: string, scan: u16 -> Short): (r: Result<u16, Error>)
    ensures r.Err? <==> |text| == 0 || text[0] as int > 0xFFFF
    ensures r.Err? ==> r.error == CharConversionFailed(text)
    ensures r.Ok? ==> r.value <= 0xFF && r.value == LowByte(scan(text[0] as int))
  {
    if |text| == 0 then Err(CharConversionFailed(text))
    else
      var units := EncodeUtf16(text[0]);
      if |units| != 1 then Err(CharConversionFailed(text))
      else Ok(LowByte(scan(units[0])))
  }

  /** `get_keycode`: a fixed table for the named keys; `Char(c)` goes through
      `KeycodeFromChar` on the one-character string `c.to_string()`. */
  function GetKeycode(key: Key, scan: u16 -> Short): (r: Result<u16, Error>)
    ensures !key.Char? ==> r.Ok?
    ensures key.Char? ==> (r.Err? <==> key.c as int > 0xFFFF)
    ensures key.Char? && r.Err? ==> r.error == CharConversionFailed([key.c])
    ensures key.Char? && r.Ok? ==> r.value <= 0xFF && r.value == LowByte(scan(key.c as int))
  {
    match key
    case Alt => Ok(VK_MENU)
    case Backspace => Ok(VK_BACK)
    case CapsLock => Ok(VK_CAPITAL)
    case Char(c) => KeycodeFromChar([c], scan)
    case Control => Ok(VK_CONTROL)
    case Delete => Ok(VK_DELETE)
    case Down => Ok(VK_DOWN)
    case End => Ok(VK_END)
    case Esc => Ok(VK_ESCAPE)
    case Home => Ok(VK_HOME)
    case Left => Ok(VK_LEFT)
    case Enter => Ok(VK_RETURN)
    case Right => Ok(VK_RIGHT)
    case Shift => Ok(VK_SHIFT)
    case Space => Ok(VK_SPACE)
    case Super => Ok(VK_LWIN)
    case Tab => Ok(VK_TAB)
    case Up => Ok(VK_UP)
  }

  /** The table of named keys, whatever the keyboard layout. */
  lemma NamedKeyCodes(scan: u16 -> Short)
    ensures GetKeycode(Enter, scan) == Ok(0x0D) && GetKeycode(Tab, scan) == Ok(0x09)
    ensures GetKeycode(Space, scan) == Ok(0x20) && GetKeycode(Backspace, scan) == Ok(0x08)
    ensures GetKeycode(Esc, scan) == Ok(0x1B) && GetKeycode(Super, scan) == Ok(0x5B)
    ensures GetKeycode(Control, scan) == Ok(0x11) && GetKeycode(Alt, scan) == Ok(0x12)
    ensures GetKeycode(Shift, scan) == Ok(0x10) && GetKeycode(CapsLock, scan) == Ok(0x14)
    ensures GetKeycode(Home, scan) == Ok(0x24) && GetKeycode(End, scan) == Ok(0x23)
    ensures GetKeycode(Left, scan) == Ok(0x25) && GetKeycode(Right, scan) == Ok(0x27)
    ensures GetKeycode(Up, scan) == Ok(0x26) && GetKeycode(Down, scan) == Ok(0x28)
    ensures GetKeycode(Delete, scan) == Ok(0x2E)
  {
  }

  /** No two named keys share a virtual-key code. */
  lemma NamedKeyCodesDistinct(k1: Key, k2: Key, scan: u16 -> Short)
    requires !k1.Char? && !k2.Char? && k1 != k2
    ensures GetKeycode(k1, scan).value != GetKeycode(k2, scan).value
  {
  }

  /** VkKeyScanW under the US layout, for letters, digits and space; -1 (no
      mapping) for everything else. Upper-case letters carry the shift
      state 1 in the high byte. */
  function UsKeyScan(unit: u16): Short {
    if 'a' as int <= unit <= 'z' as int then unit - 0x20
    else if 'A' as int <= unit <= 'Z' as int then 0x100 + unit
    else if '0' as int <= unit <= '9' as int || unit == ' ' as int then unit
    else -1
  }

  /** Under the US layout, 's' and 'S' map to 0x53 and '1' to 0x31; a
      character the layout cannot type maps to 0xFF, because the -1 answer of
      VkKeyScanW is not checked. */
  lemma UsLayoutCodes()
    ensures GetKeycode(Char('s'), UsKeyScan) == Ok(0x53)
    ensures GetKeycode(Char('S'), UsKeyScan) == Ok(0x53)
    ensures GetKeycode(Char('1'), UsKeyScan) == Ok(0x31)
    ensures GetKeycode(Char('€'), UsKeyScan) == Ok(0xFF)
  {
  }

  /** Under any layout, a character that VkKeyScanW cannot map (answer -1)
      gets the code 0xFF instead of an error. */
  lemma UnmappedIsFF(c: char, scan: u16 -> Short)
    requires c as int <= 0xFFFF && scan(c as int) == -1
    ensures GetKeycode(Char(c), scan) == Ok(0xFF)
  {
  }

  /** The keyboard INPUT record `make_input` builds for one key. */
  function KeyInput(vk: u16, flags: u32): Input {
    Input(INPUT_KEYBOARD, KeybdInput(vk, 0, flags, 0, 0))
  }

  /** `make_input`: one INPUT record per key, in order, or the error of the
      first key that has no code (`collect` into a `Result` stops there). */
  function MakeInput(keys: seq<Key>, flags: u32, scan: u16 -> Short): (r: Result<seq<Input>, Error>)
    decreases |keys|
    ensures r.Ok? <==> forall i :: 0 <= i < |keys| ==> GetKeycode(keys[i], scan).Ok?
    ensures r.Ok? ==> |r.value| == |keys|
    ensures r.Ok? ==> forall i :: 0 <= i < |keys| ==>
      && r.value[i].kind == INPUT_KEYBOARD
      && r.value[i].ki == KeybdInput(GetKeycode(keys[i], scan).value, 0, flags, 0, 0)
  {
    if |keys| == 0 then Ok([])
    else
      match GetKeycode(keys[0], scan)
      case Err(e) => Err(e)
      case Ok(vk) =>
        match MakeInput(keys[1..], flags, scan)
        case Err(e) => Err(e)
        case Ok(rest) => Ok([KeyInput(vk, flags)] + rest)
  }

  /** The error of a failed `make_input` is the error of the first key that
      has no code. */
  lemma {:induction false} MakeInputFirstError(keys: seq<Key>, flags: u32, scan: u16 -> Short)
    requires MakeInput(keys, flags, scan).Err?
    ensures exists i :: (0 <= i < |keys| && GetKeycode(keys[i], scan).Err?
      && (forall j :: 0 <= j < i ==> GetKeycode(keys[j], scan).Ok?)
      && MakeInput(keys, flags, scan).error == GetKeycode(keys[i], scan).error)
  {
    if GetKeycode(keys[0], scan).Ok? {
      MakeInputFirstError(keys[1..], flags, scan);
      var i :| 0 <= i < |keys[1..]| && GetKeycode(keys[1..][i], scan).Err?
        && (forall j :: 0 <= j < i ==> GetKeycode(keys[1..][j], scan).Ok?)
        && MakeInput(keys[1..], flags, scan).error == GetKeycode(keys[1..][i], scan).error;
      assert GetKeycode(keys[i + 1], scan).Err?;
      assert forall j :: 0 <= j < i + 1 ==> GetKeycode(keys[j], scan).Ok? by {
        forall j | 0 <= j < i + 1 ensures GetKeycode(keys[j], scan).Ok? {
          if j > 0 { assert keys[j] == keys[1..][j - 1]; }
        }
      }
    }
  }

  /** Whether `make_input` fails, and with which error, does not depend on the
      flags. */
  lemma {:induction false} MakeInputErrorIgnoresFlags(keys: seq<Key>, f1: u32, f2: u32, scan: u16 -> Short)
    requires MakeInput(keys, f1, scan).Err?
    ensures MakeInput(keys, f2, scan) == MakeInput(keys, f1, scan)
  {
    if GetKeycode(keys[0], scan).Ok? {
      MakeInputErrorIgnoresFlags(keys[1..], f1, f2, scan);
    }
  }

  /** The records for Control+C under the US layout. */
  lemma ControlCRecords(flags: u32)
    ensures MakeInput([Control, Char('c')], flags, UsKeyScan) == Ok([KeyInput(0x11, flags), KeyInput(0x43, flags)])
  {
    var keys := [Control, Char('c')];
    assert keys[1..] == [Char('c')];
    assert [Char('c')][1..] == [];
    assert GetKeycode(Char('c'), UsKeyScan) == Ok(0x43);
    assert MakeInput([], flags, UsKeyScan) == Ok([]);
    assert [KeyInput(0x43, flags)] + [] == [KeyInput(0x43, flags)];
    assert MakeInput([Char('c')], flags, UsKeyScan) == Ok([KeyInput(0x43, flags)]);
    assert [KeyInput(0x11, flags)] + [KeyInput(0x43, flags)] == [KeyInput(0x11, flags), KeyInput(0x43, flags)];
  }
}
