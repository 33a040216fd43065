// The 4x5 key matrix of the pocket: the actions a key means in each of the
// four keyboard modes, the lookup of the lowest pressed key, and what each
// typing action inserts into the expression.

module Keyboard {
  import opened RpnTypes

  const ROWS: nat := 4
  const COLS: nat := 5
  const KEY_COUNT: nat := 20

  /** Key indices (row * COLS + column) of the mode keys. */
  const KEY_MEM: byte := 3
  const KEY_FN1: byte := 8
  const KEY_FN2: byte := 9

  /** The value keyboard_get_pressed_key returns when no key is down. */
  const NO_KEY: byte := 255

  datatype KeyMode = ModeBase | ModeFn1 | ModeFn2 | ModeMem

  /** What a key press asks for; one constructor per enumerator of the firmware. */
  datatype Action =
    | NoAction
    | Left | Right
    | Del | Enter
    | Digit0 | Digit1 | Digit2 | Digit3 | Digit4
    | Digit5 | Digit6 | Digit7 | Digit8 | Digit9
    | Add | Sub | Mul | Div | Mod
    | And | Or | Xor | Not
    | Gt | Lt | Eq
    | Dot | Quote | Colon | Semicolon | Question
    | Prefix0b | Prefix0x
    | T
    | LeftParen | RightParen
    | AlphaA | AlphaB | AlphaC
    | AlphaD | AlphaE | AlphaF
    | Fn1 | Fn2 | Mem
    | Preset1 | Preset2 | Preset3
    | Preset4 | Preset5 | Preset6
    | Preset7 | Preset8 | Preset9
    | PresetDec | PresetInc
    | Save

  // ------------------------------------------------------------ the layers

  /** Digits, cursor keys, `0b`/`0x`, `.` and play. */
  const BASE_LAYER: seq<Action> := [
    Digit7, Digit8, Digit9, Mem, Del,
    Digit4, Digit5, Digit6, Fn1, Fn2,
    Digit1, Digit2, Digit3, Prefix0b, Prefix0x,
    Left, Digit0, Right, Dot, Enter]

  /** Operators and `t`. */
  const FN1_LAYER: seq<Action> := [
    Add, Sub, Mul, Mem, Del,
    Div, Mod, Not, Fn1, Fn2,
    And, Or, Xor, Lt, Gt,
    Left, T, Right, Eq, Enter]

  /** Hex letters, parentheses and punctuation. */
  const FN2_LAYER: seq<Action> := [
    AlphaA, AlphaB, AlphaC, Mem, Del,
    AlphaD, AlphaE, AlphaF, Fn1, Fn2,
    Question, Colon, Quote, LeftParen, RightParen,
    Left, NoAction, Right, Semicolon, Enter]

  /** Preset slots 1-9, previous/next slot and save. */
  const MEM_LAYER: seq<Action> := [
    Preset7, Preset8, Preset9, Mem, Del,
    Preset4, Preset5, Preset6, Fn1, Fn2,
    Preset1, Preset2, Preset3, NoAction, NoAction,
    PresetDec, NoAction, PresetInc, NoAction, Save]

  function Layer(mode: KeyMode): (l: seq<Action>)
    ensures |l| == KEY_COUNT
  {
    match mode
    case ModeFn1 => FN1_LAYER
    case ModeFn2 => FN2_LAYER
    case ModeMem => MEM_LAYER
    case ModeBase => BASE_LAYER
  }

  /**
   * keyboard_resolve_action: the current mode's entry for the key.  Keys
   * outside the matrix mean nothing, and the three mode keys and DEL mean
   * the same in every layer, so every mode can be left again.
   */
  function ResolveAction(mode: KeyMode, key: byte): (a: Action)
    ensures key as nat >= KEY_COUNT ==> a == NoAction
    ensures key == KEY_MEM ==> a == Mem
    ensures key == KEY_FN1 ==> a == Fn1
    ensures key == KEY_FN2 ==> a == Fn2
    ensures key == 4 ==> a == Del
    ensures a in Layer(mode) || a == NoAction
  {
    if key as nat >= KEY_COUNT then NoAction
    else Layer(mode)[key]
  }

  /** The cursor keys keep their place everywhere except in the preset layer. */
  lemma CursorKeysOutsideMem(mode: KeyMode)
    requires mode != ModeMem
    ensures ResolveAction(mode, 15) == Left && ResolveAction(mode, 17) == Right
    ensures ResolveAction(mode, 19) == Enter
  {
  }

  // ------------------------------------------------------------ key state

  /** keyboard_is_key_pressed: only keys of the matrix can be down. */
  function IsKeyPressed(keyStates: seq<byte>, key: byte): (p: bool)
    requires |keyStates| == KEY_COUNT
    ensures p ==> key as nat < KEY_COUNT
  {
    if key as nat < KEY_COUNT then keyStates[key] == 1 else false
  }

  /** The key keyboard_get_pressed_key reports for the scanned states: the lowest pressed index, or NO_KEY. */
  function LowestPressed(keyStates: seq<byte>): (k: byte)
    requires |keyStates| == KEY_COUNT
    ensures k == NO_KEY <==> forall j: byte :: !IsKeyPressed(keyStates, j)
    ensures k != NO_KEY ==> IsKeyPressed(keyStates, k)
    ensures forall j: byte :: j < k ==> !IsKeyPressed(keyStates, j)
  {
    LowestPressedFrom(keyStates, 0)
  }

  /** The lowest pressed index at or above i, or NO_KEY. */
  function LowestPressedFrom(keyStates: seq<byte>, i: nat): (k: byte)
    requires |keyStates| == KEY_COUNT && i <= KEY_COUNT
    ensures k == NO_KEY || (i <= k as nat < KEY_COUNT && IsKeyPressed(keyStates, k))
    ensures forall j: byte :: i <= j as nat && j < k ==> !IsKeyPressed(keyStates, j)
    decreases KEY_COUNT - i
  {
    if i == KEY_COUNT then NO_KEY
    else if keyStates[i] == 1 then i as byte
    else LowestPressedFrom(keyStates, i + 1)
  }

  /**
   * keyboard_get_pressed_key: the lowest index whose state is 1, or NO_KEY
   * when none is.
   */
  method GetPressedKey(keyStates: array<byte>) returns (k: byte)
    requires keyStates.Length == KEY_COUNT
    ensures k == NO_KEY <==> forall j: byte :: !IsKeyPressed(keyStates[..], j)
    ensures k != NO_KEY ==> IsKeyPressed(keyStates[..], k)
    ensures forall j: byte :: j < k ==> !IsKeyPressed(keyStates[..], j)
    ensures k == LowestPressed(keyStates[..])
  {
    var i: byte := 0;
    while i as nat < KEY_COUNT
      invariant i as nat <= KEY_COUNT
      invariant forall j: byte :: j < i ==> !IsKeyPressed(keyStates[..], j)
    {
      if keyStates[i] == 1 {
        assert IsKeyPressed(keyStates[..], i);
        return i;
      }
      i := i + 1;
    }
    return NO_KEY;
  }

  // ------------------------------------------------------------ actions

  /** The character a single-character typing action inserts; NUL for every other action. */
  function KeyChar(a: Action): (c: Char8)
    ensures c == NUL || ('!' <= c <= '~' && c != '`')
    ensures '0' <= c <= '9' <==> a.Digit0? || a.Digit1? || a.Digit2? || a.Digit3? || a.Digit4? ||
                                 a.Digit5? || a.Digit6? || a.Digit7? || a.Digit8? || a.Digit9?
    ensures 'a' <= c <= 'f' <==> a.AlphaA? || a.AlphaB? || a.AlphaC? || a.AlphaD? || a.AlphaE? || a.AlphaF?
    ensures c == 't' <==> a == T
    ensures c == NUL <==> !(a.Digit0? || a.Digit1? || a.Digit2? || a.Digit3? || a.Digit4? ||
                            a.Digit5? || a.Digit6? || a.Digit7? || a.Digit8? || a.Digit9? ||
                            a.AlphaA? || a.AlphaB? || a.AlphaC? || a.AlphaD? || a.AlphaE? || a.AlphaF? ||
                            a.Add? || a.Sub? || a.Mul? || a.Div? || a.Mod? ||
                            a.And? || a.Or? || a.Xor? || a.Not? || a.Gt? || a.Lt? || a.Eq? ||
                            a.Dot? || a.Quote? || a.Colon? || a.Semicolon? || a.Question? ||
                            a.T? || a.LeftParen? || a.RightParen?)
  {
    match a
    case Digit0 => '0'
    case Digit1 => '1'
    case Digit2 => '2'
    case Digit3 => '3'
    case Digit4 => '4'
    case Digit5 => '5'
    case Digit6 => '6'
    case Digit7 => '7'
    case Digit8 => '8'
    case Digit9 => '9'
    case Add => '+'
    case Sub => '-'
    case Mul => '*'
    case Div => '/'
    case Mod => '%'
    case And => '&'
    case Or => '|'
    case Xor => '^'
    case Not => '~'
    case Gt => '>'
    case Lt => '<'
    case Eq => '='
    case Dot => '.'
    case Quote => '\"'
    case Colon => ':'
    case Semicolon => ';'
    case Question => '?'
    case T => 't'
    case LeftParen => '('
    case RightParen => ')'
    case AlphaA => 'a'
    case AlphaB => 'b'
    case AlphaC => 'c'
    case AlphaD => 'd'
    case AlphaE => 'e'
    case AlphaF => 'f'
    case _ => NUL
  }

  /**
   * The text a typing action inserts at the cursor: one character, or the
   * two-character prefixes `0b` and `0x`; empty for every other action.
   */
  function InsertedText(a: Action): (s: seq<Char8>)
    ensures |s| <= 2 && NoNul(s)
    ensures |s| == 2 <==> a == Prefix0b || a == Prefix0x
  {
    if a == Prefix0b then "0b"
    else if a == Prefix0x then "0x"
    else if KeyChar(a) == NUL then []
    else [KeyChar(a)]
  }

  predicate IsPresetKey(a: Action) {
    (a.Preset1? || a.Preset2? || a.Preset3? || a.Preset4? || a.Preset5? || a.Preset6? || a.Preset7? || a.Preset8? || a.Preset9?)
  }

  /** The slot (0-8) a preset key loads. */
  function PresetSlot(a: Action): (slot: byte)
    requires IsPresetKey(a)
    ensures slot < 9
    ensures a == Preset1 <==> slot == 0
    ensures a == Preset9 <==> slot == 8
  {
    match a
    case Preset1 => 0
    case Preset2 => 1
    case Preset3 => 2
    case Preset4 => 3
    case Preset5 => 4
    case Preset6 => 5
    case Preset7 => 6
    case Preset8 => 7
    case Preset9 => 8
  }

  /** A mode key switches to its own mode, or back to BASE when already there. */
  function ToggleMode(current: KeyMode, target: KeyMode): (m: KeyMode)
    requires target != ModeBase
    ensures m == ModeBase <==> current == target
    ensures m == target <==> current != target
  {
    if current == target then ModeBase else target
  }

  /** Pressing the same mode key twice from BASE or from that mode returns there. */
  lemma ToggleTwice(current: KeyMode, target: KeyMode)
    requires target != ModeBase && (current == ModeBase || current == target)
    ensures ToggleMode(ToggleMode(current, target), target) == current
  {
  }
}
