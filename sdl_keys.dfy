/**
 * Translation of SDL 1.2 keyboard, mouse-button and joystick-button events
 * into Quake key events, as done inside IN_SendKeyEvents.
 *
 * SDL key symbols are the integer values of SDL 1.2's SDLKey enumeration.
 * The Quake key codes (keys.h is not part of this model) are symbolic:
 * `Sym(c)` is a key passed through with its code c (printable characters,
 * and 0 for "no key"), the other constructors are the named K_* keys.
 * The modifier bit tests (KMOD_CTRL, KMOD_SHIFT, KMOD_ALT, KMOD_NUM) are
 * booleans of a `Mods` record.
 */
module SdlKeys {

  import opened QCommon

  /** The SDL 1.2 key symbols the translation names. */
  const SDLK_BACKSPACE := 8
  const SDLK_RETURN := 13
  const SDLK_PAUSE := 19
  const SDLK_ESCAPE := 27
  const SDLK_ASTERISK := 42
  const SDLK_PLUS := 43
  const SDLK_MINUS := 45
  const SDLK_PERIOD := 46
  const SDLK_SLASH := 47
  const SDLK_0 := 48
  const SDLK_EQUALS := 61
  const SDLK_DELETE := 127
  const SDLK_WORLD_0 := 160
  const SDLK_WORLD_95 := 255
  const SDLK_KP0 := 256
  const SDLK_KP5 := 261
  const SDLK_KP9 := 265
  const SDLK_KP_PERIOD := 266
  const SDLK_KP_DIVIDE := 267
  const SDLK_KP_MULTIPLY := 268
  const SDLK_KP_MINUS := 269
  const SDLK_KP_PLUS := 270
  const SDLK_KP_ENTER := 271
  const SDLK_KP_EQUALS := 272
  const SDLK_UP := 273
  const SDLK_DOWN := 274
  const SDLK_RIGHT := 275
  const SDLK_LEFT := 276
  const SDLK_INSERT := 277
  const SDLK_HOME := 278
  const SDLK_END := 279
  const SDLK_PAGEUP := 280
  const SDLK_PAGEDOWN := 281
  const SDLK_F1 := 282
  const SDLK_F12 := 293
  const SDLK_NUMLOCK := 300
  const SDLK_RSHIFT := 303
  const SDLK_LSHIFT := 304
  const SDLK_RCTRL := 305
  const SDLK_LCTRL := 306
  const SDLK_RALT := 307
  const SDLK_LALT := 308
  const SDLK_RMETA := 309
  const SDLK_LMETA := 310
  const SDLK_BREAK := 318

  /** The key sitting left of '1' on some European layouts ('˛'). */
  const SDLK_SUPERSCRIPT_TWO := 178

  const BACKQUOTE := 96   // '`'
  const TILDE := 126      // '~'

  datatype Mods = Mods(shift: bool, ctrl: bool, alt: bool, num: bool)

  datatype QuakeKey =
    | Sym(code: int)
    | Del | Backspace | Fn(n: int) | Pause
    | UpArrow | DownArrow | RightArrow | LeftArrow
    | Ins | Home | End | PgUp | PgDn
    | Shift | Ctrl | Alt | Command
    | KpNumlock | KpIns | KpEnd | KpDownArrow | KpPgDn | KpLeftArrow | Kp5
    | KpRightArrow | KpHome | KpUpArrow | KpPgUp | KpDel
    | KpSlash | KpStar | KpMinus | KpPlus | KpEnter
    | Mouse(button: int) | MWheelUp | MWheelDown
    | Joy(index: int) | Aux(index: int)
  {
    predicate IsKeypad()
    {
      this in {KpNumlock, KpIns, KpEnd, KpDownArrow, KpPgDn, KpLeftArrow, Kp5,
               KpRightArrow, KpHome, KpUpArrow, KpPgUp, KpDel,
               KpSlash, KpStar, KpMinus, KpPlus, KpEnter}
    }
  }

  /** `(unicode & 0xFF80) == 0`: the 16-bit value has no bit above the low seven, i.e. it is ASCII. */
  function AsciiMask(unicode: int): (ascii: bool)
    requires 0 <= unicode < 0x10000
    ensures ascii <==> unicode < 0x80
  {
    (unicode as bv16) & 0xFF80 == 0
  }

  /**
   * The first stage of key translation: the character SDL reports for the
   * key press (a 16-bit unicode value, 0 for none) replaces the key symbol
   * when it is ASCII. A control character typed with Ctrl over a printable
   * key gets back its letter (upper case with Shift, lower case without).
   * In game mode only '`' and '~' replace the symbol, so the console key
   * works on any layout while game bindings keep the physical keys.
   */
  function CharSym(sym: int, unicode: int, mods: Mods, gamekey: bool): (s: int)
    requires 0 <= unicode < 0x10000
    ensures (unicode == 0 || unicode >= 0x80) ==> s == sym
    ensures s != sym ==> 0 < s < 0x80
    ensures gamekey && s != sym ==> s == BACKQUOTE || s == TILDE
    ensures !gamekey && 0 < unicode < 32 && mods.ctrl && sym >= 32 ==>
              s == unicode + (if mods.shift then 64 else 96)
    ensures !gamekey && 0 < unicode < 0x80 && !(mods.ctrl && unicode < 32 && sym >= 32) ==>
              s == unicode
  {
    if unicode != 0 && AsciiMask(unicode) then
      var usym := unicode % 0x80;  // unicode & 0x7F
      var usym' :=
        if mods.ctrl && usym < 32 && sym >= 32 then
          (if mods.shift then usym + 64 else usym + 96)
        else usym;
      if !gamekey || usym' == BACKQUOTE || usym' == TILDE then usym' else sym
    else
      sym
  }

  /** Ctrl with a letter key outside game mode yields the letter itself. */
  lemma ControlLettersRecovered(c: int, sym: int, mods: Mods)
    requires 1 <= c <= 26 && sym >= 32 && mods.ctrl
    ensures CharSym(sym, c, mods, false) == (if mods.shift then 'A' as int else 'a' as int) + c - 1
  {
  }

  /** The keypad keys, which game mode keeps distinct from the navigation keys. */
  function Keypad(sym: int, gamekey: bool, num: bool): (k: QuakeKey)
    requires SDLK_KP0 <= sym <= SDLK_KP_EQUALS
    ensures gamekey && sym != SDLK_KP_EQUALS ==> k.IsKeypad()
    ensures gamekey && sym == SDLK_KP_EQUALS ==> k == Sym(0)
    ensures !gamekey && num && SDLK_KP0 <= sym <= SDLK_KP9 ==> k == Sym(SDLK_0 + sym - SDLK_KP0)
    ensures !gamekey ==> !k.IsKeypad()
  {
    if sym == SDLK_KP0 then (if gamekey then KpIns else if num then Sym(SDLK_0) else Ins)
    else if sym == 257 then (if gamekey then KpEnd else if num then Sym(SDLK_0 + 1) else End)
    else if sym == 258 then (if gamekey then KpDownArrow else if num then Sym(SDLK_0 + 2) else DownArrow)
    else if sym == 259 then (if gamekey then KpPgDn else if num then Sym(SDLK_0 + 3) else PgDn)
    else if sym == 260 then (if gamekey then KpLeftArrow else if num then Sym(SDLK_0 + 4) else LeftArrow)
    else if sym == SDLK_KP5 then (if gamekey then Kp5 else Sym(SDLK_0 + 5))
    else if sym == 262 then (if gamekey then KpRightArrow else if num then Sym(SDLK_0 + 6) else RightArrow)
    else if sym == 263 then (if gamekey then KpHome else if num then Sym(SDLK_0 + 7) else Home)
    else if sym == 264 then (if gamekey then KpUpArrow else if num then Sym(SDLK_0 + 8) else UpArrow)
    else if sym == SDLK_KP9 then (if gamekey then KpPgUp else if num then Sym(SDLK_0 + 9) else PgUp)
    else if sym == SDLK_KP_PERIOD then (if gamekey then KpDel else if num then Sym(SDLK_PERIOD) else Del)
    else if sym == SDLK_KP_DIVIDE then (if gamekey then KpSlash else Sym(SDLK_SLASH))
    else if sym == SDLK_KP_MULTIPLY then (if gamekey then KpStar else Sym(SDLK_ASTERISK))
    else if sym == SDLK_KP_MINUS then (if gamekey then KpMinus else Sym(SDLK_MINUS))
    else if sym == SDLK_KP_PLUS then (if gamekey then KpPlus else Sym(SDLK_PLUS))
    else if sym == SDLK_KP_ENTER then (if gamekey then KpEnter else Sym(SDLK_RETURN))
    else (if gamekey then Sym(0) else Sym(SDLK_EQUALS))
  }

  /** The symbols that have a case of their own in the translation switch. */
  predicate Handled(sym: int)
  {
    sym == SDLK_DELETE || sym == SDLK_BACKSPACE || SDLK_F1 <= sym <= SDLK_F12
    || sym == SDLK_BREAK || sym == SDLK_PAUSE || SDLK_UP <= sym <= SDLK_PAGEDOWN
    || SDLK_RSHIFT <= sym <= SDLK_LMETA || sym == SDLK_NUMLOCK
    || SDLK_KP0 <= sym <= SDLK_KP_EQUALS || sym == SDLK_SUPERSCRIPT_TWO
  }

  /**
   * The second stage: the SDL symbol (after CharSym) becomes a Quake key.
   * Unhandled symbols pass through unless they are international
   * (SDLK_WORLD_0..SDLK_WORLD_95) or above 255, which become 0.
   */
  function TranslateKey(sym: int, gamekey: bool, num: bool): (k: QuakeKey)
    ensures !Handled(sym) && (sym > 255 || SDLK_WORLD_0 <= sym <= SDLK_WORLD_95) ==> k == Sym(0)
    ensures !Handled(sym) && sym < SDLK_WORLD_0 ==> k == Sym(sym)
    ensures 0 <= sym && k.Sym? ==> 0 <= k.code < SDLK_WORLD_0
    ensures k.IsKeypad() <==> gamekey && (SDLK_KP0 <= sym < SDLK_KP_EQUALS || sym == SDLK_NUMLOCK)
    ensures SDLK_F1 <= sym <= SDLK_F12 ==> k == Fn(sym - SDLK_F1 + 1)
  {
    if sym == SDLK_DELETE then Del
    else if sym == SDLK_BACKSPACE then Backspace
    else if SDLK_F1 <= sym <= SDLK_F12 then Fn(sym - SDLK_F1 + 1)
    else if sym == SDLK_BREAK || sym == SDLK_PAUSE then Pause
    else if sym == SDLK_UP then UpArrow
    else if sym == SDLK_DOWN then DownArrow
    else if sym == SDLK_RIGHT then RightArrow
    else if sym == SDLK_LEFT then LeftArrow
    else if sym == SDLK_INSERT then Ins
    else if sym == SDLK_HOME then Home
    else if sym == SDLK_END then End
    else if sym == SDLK_PAGEUP then PgUp
    else if sym == SDLK_PAGEDOWN then PgDn
    else if sym == SDLK_RSHIFT || sym == SDLK_LSHIFT then Shift
    else if sym == SDLK_RCTRL || sym == SDLK_LCTRL then Ctrl
    else if sym == SDLK_RALT || sym == SDLK_LALT then Alt
    else if sym == SDLK_RMETA || sym == SDLK_LMETA then Command
    else if sym == SDLK_NUMLOCK then (if gamekey then KpNumlock else Sym(0))
    else if SDLK_KP0 <= sym <= SDLK_KP_EQUALS then Keypad(sym, gamekey, num)
    else if sym == SDLK_SUPERSCRIPT_TWO then Sym(TILDE)
    else if (SDLK_WORLD_0 <= sym <= SDLK_WORLD_95) || sym > 255 then Sym(0)
    else Sym(sym)
  }

  /**
   * Outside game mode with Num Lock off the keypad arrows are the arrow
   * keys; in game mode they are keys of their own, so they can be bound
   * separately.
   */
  lemma KeypadArrowsMergeOnlyOutsideGame(num: bool)
    ensures TranslateKey(264, false, false) == TranslateKey(SDLK_UP, false, num)
    ensures TranslateKey(258, false, false) == TranslateKey(SDLK_DOWN, false, num)
    ensures TranslateKey(260, false, false) == TranslateKey(SDLK_LEFT, false, num)
    ensures TranslateKey(262, false, false) == TranslateKey(SDLK_RIGHT, false, num)
    ensures forall s :: SDLK_KP0 <= s < SDLK_KP_EQUALS ==>
              TranslateKey(s, true, num) != TranslateKey(SDLK_UP, true, num)
  {
  }

  /** The whole translation of a key event: CharSym, then TranslateKey. */
  function KeyEventKey(sym: int, unicode: int, modstate: Mods, gamekey: bool): (k: QuakeKey)
    requires 0 <= sym && 0 <= unicode < 0x10000
    ensures k.Sym? ==> 0 <= k.code < SDLK_WORLD_0
    ensures gamekey && unicode == BACKQUOTE ==> k == Sym(BACKQUOTE)
    ensures gamekey && unicode == TILDE ==> k == Sym(TILDE)
  {
    TranslateKey(CharSym(sym, unicode, modstate, gamekey), gamekey, modstate.num)
  }

  /** buttonremap: SDL mouse buttons 1..7 (right and middle swapped, then wheel, then 4 and 5). */
  const ButtonRemap: seq<QuakeKey> := [Mouse(1), Mouse(3), Mouse(2), MWheelUp, MWheelDown, Mouse(4), Mouse(5)]

  /** joyremap: K_JOY1..K_JOY4 followed by K_AUX1..K_AUX28, 32 entries. */
  const JoyRemap: seq<QuakeKey> := [Joy(1), Joy(2), Joy(3), Joy(4),
     Aux(1), Aux(2), Aux(3), Aux(4), Aux(5), Aux(6), Aux(7), Aux(8), Aux(9), Aux(10), Aux(11), Aux(12), Aux(13), Aux(14),
     Aux(15), Aux(16), Aux(17), Aux(18), Aux(19), Aux(20), Aux(21), Aux(22), Aux(23), Aux(24), Aux(25), Aux(26), Aux(27), Aux(28)]

  /** A mouse button event maps through buttonremap; buttons outside 1..7 are ignored. */
  function MouseButtonKey(button: int): (k: Option<QuakeKey>)
    ensures k.Some? <==> 1 <= button <= |ButtonRemap|
    ensures k.Some? ==> k.value == ButtonRemap[button - 1]
  {
    if button < 1 || button > |ButtonRemap| then None else Some(ButtonRemap[button - 1])
  }

  /** Distinct mouse buttons give distinct keys. */
  lemma MouseButtonsDistinct(a: int, b: int)
    requires MouseButtonKey(a).Some? && MouseButtonKey(b).Some? && a != b
    ensures MouseButtonKey(a) != MouseButtonKey(b)
  {
  }

  /** What the joystick-button guard, as written, leads to. */
  datatype JoyLookup = Ignored | Lookup(key: QuakeKey) | PastEnd(index: int)

  /**
   * The joystick-button branch as written: a button is ignored only when it
   * is greater than the table size, so button 32 reaches `joyremap[32]`,
   * one past the end of the table; that read is `PastEnd`.
   */
  function JoyButtonAsWritten(button: int): (r: JoyLookup)
    requires 0 <= button < 256
    ensures r.Ignored? <==> button > |JoyRemap|
    ensures r.PastEnd? <==> button == |JoyRemap|
    ensures r.Lookup? ==> r.key == JoyRemap[button]
  {
    if button > |JoyRemap| then Ignored
    else if button < |JoyRemap| then Lookup(JoyRemap[button])
    else PastEnd(button)
  }

  /** The input that shows the off-by-one: button 32 passes the guard and indexes past the table. */
  lemma JoyButton32ReadsPastTable()
    ensures JoyButtonAsWritten(32) == PastEnd(32)
    ensures |JoyRemap| == 32
  {
  }

  /** The evidently intended branch: only buttons 0..31 have a key. */
  function JoyButtonKey(button: int): (k: Option<QuakeKey>)
    ensures k.Some? <==> 0 <= button < |JoyRemap|
    ensures k.Some? ==> k.value == JoyRemap[button]
  {
    if button < 0 || button >= |JoyRemap| then None else Some(JoyRemap[button])
  }

  /** The corrected guard agrees with the written one on every button but 32. */
  lemma JoyButtonFixAgrees(button: int)
    requires 0 <= button < 256 && button != 32
    ensures JoyButtonKey(button).None? <==> JoyButtonAsWritten(button).Ignored?
    ensures JoyButtonKey(button).Some? ==> JoyButtonAsWritten(button) == Lookup(JoyButtonKey(button).value)
  {
  }
}
