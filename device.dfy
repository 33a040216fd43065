// The editor globals of the firmware as one object: the 256-byte text
// buffer edited in place, its length and cursor, the flags the main loop
// reads, the keyboard mode, the preset slot, the play state and the flash
// sector.  Every method is proved to move the object's state exactly as
// the corresponding function of EditorSpec says, so the properties proved
// there hold of the code.

module Firmware {
  import opened RpnTypes
  import opened Keyboard
  import opened PresetLayout
  import EditorSpec

  class Device {
    /** textBuffer: the NUL-terminated expression. */
    const textBuffer: array<Char8>
    var textLen: nat
    var cursor: nat
    var needsRecompile: bool
    var needsResetT: bool
    /** currentMode of the keyboard. */
    var mode: KeyMode
    /** current_slot of the preset store. */
    var currentSlot: nat
    var isPlaying: bool
    /** Whether the PWM output is on (audio_enable). */
    var audioEnabled: bool
    var oledDirty: bool
    /** The preset sector of the flash. */
    var sector: seq<byte>

    /** The globals as a value. */
    ghost function State(): EditorSpec.Editor
      reads this, textBuffer
    {
      EditorSpec.Editor(textBuffer[..], textLen, cursor, needsRecompile, needsResetT,
                        mode, currentSlot, isPlaying, audioEnabled, oledDirty, sector)
    }

    ghost predicate Valid()
      reads this, textBuffer
    {
      EditorSpec.Wf(State())
    }

    /**
     * The globals at boot: an all-NUL buffer, empty text, BASE mode, slot 0,
     * stopped, and whatever the flash sector holds.
     */
    constructor (flash: seq<byte>)
      requires |flash| == FLASH_SECTOR_SIZE && SectorOk(flash)
      ensures Valid()
      ensures State() == EditorSpec.Editor(seq(TEXT_BUFFER_SIZE, _ => NUL), 0, 0, false, false,
                                           ModeBase, 0, false, false, false, flash)
    {
      textBuffer := new Char8[TEXT_BUFFER_SIZE](_ => NUL);
      textLen := 0;
      cursor := 0;
      needsRecompile := false;
      needsResetT := false;
      mode := ModeBase;
      currentSlot := 0;
      isPlaying := false;
      audioEnabled := false;
      oledDirty := false;
      sector := flash;
    }

    /** strlen(textBuffer): under the invariant, the position of the NUL. */
    method StrLen() returns (n: nat)
      requires Valid()
      ensures n == textLen
      ensures n < textBuffer.Length && textBuffer[n] == NUL
      ensures forall k :: 0 <= k < n ==> textBuffer[k] != NUL
    {
      n := 0;
      while textBuffer[n] != NUL
        invariant n <= textLen
        invariant forall k :: 0 <= k < n ==> textBuffer[k] != NUL
        decreases textLen - n
      {
        n := n + 1;
      }
    }

    /** insertChar (keyboard.c). */
    method InsertChar(c: Char8) returns (ok: bool)
      requires Valid() && c != NUL
      modifies this, textBuffer
      ensures Valid()
      ensures (State(), ok) == EditorSpec.InsertChar(old(State()), c)
    {
      if textLen >= TEXT_BUFFER_SIZE - 1 {
        return false;
      }
      ghost var e := State();
      ShiftRight(cursor, textLen);
      ghost var shifted: seq<Char8> := textBuffer[..];
      EditorSpec.InsertCharByShift(e, c, shifted);
      textBuffer[cursor] := c;
      textLen := textLen + 1;
      cursor := cursor + 1;
      textBuffer[textLen] := NUL;
      needsRecompile := true;
      assert textBuffer[..] == shifted[e.cursor := c][e.textLen + 1 := NUL];
      return true;
    }

    /** insertChar's loop: the bytes at lo..hi-1 move one place right, to lo+1..hi. */
    method ShiftRight(lo: nat, hi: nat)
      requires lo <= hi < textBuffer.Length
      modifies textBuffer
      ensures forall k :: 0 <= k <= lo ==> textBuffer[k] == old(textBuffer[k])
      ensures forall k :: lo < k <= hi ==> textBuffer[k] == old(textBuffer[k - 1])
      ensures forall k :: hi < k < textBuffer.Length ==> textBuffer[k] == old(textBuffer[k])
    {
      var i := hi;
      while i > lo
        invariant lo <= i <= hi
        invariant forall k :: 0 <= k <= i ==> textBuffer[k] == old(textBuffer[k])
        invariant forall k :: i < k <= hi ==> textBuffer[k] == old(textBuffer[k - 1])
        invariant forall k :: hi < k < textBuffer.Length ==> textBuffer[k] == old(textBuffer[k])
      {
        textBuffer[i] := textBuffer[i - 1];
        i := i - 1;
      }
    }

    /** deleteChar (keyboard.c). */
    method DeleteChar() returns (ok: bool)
      requires Valid()
      modifies this, textBuffer
      ensures Valid()
      ensures (State(), ok) == EditorSpec.DeleteChar(old(State()))
    {
      if cursor == 0 || textLen == 0 {
        return false;
      }
      ghost var e := State();
      ShiftLeft(cursor - 1, textLen - 1);
      textLen := textLen - 1;
      cursor := cursor - 1;
      textBuffer[textLen] := NUL;
      needsRecompile := true;
      EditorSpec.DeleteCharByShift(e, textBuffer[..]);
      return true;
    }

    /** deleteChar's loop: the bytes at lo+1..hi move one place left, to lo..hi-1. */
    method ShiftLeft(lo: nat, hi: nat)
      requires lo <= hi < textBuffer.Length
      modifies textBuffer
      ensures forall k :: 0 <= k < lo ==> textBuffer[k] == old(textBuffer[k])
      ensures forall k :: lo <= k < hi ==> textBuffer[k] == old(textBuffer[k + 1])
      ensures forall k :: hi <= k < textBuffer.Length ==> textBuffer[k] == old(textBuffer[k])
    {
      var i := lo;
      while i < hi
        invariant lo <= i <= hi
        invariant forall k :: 0 <= k < lo ==> textBuffer[k] == old(textBuffer[k])
        invariant forall k :: lo <= k < i ==> textBuffer[k] == old(textBuffer[k + 1])
        invariant forall k :: i <= k < textBuffer.Length ==> textBuffer[k] == old(textBuffer[k])
      {
        textBuffer[i] := textBuffer[i + 1];
        i := i + 1;
      }
    }

    /** insertString (keyboard.c): a string shorter than 256 characters. */
    method InsertString(s: seq<Char8>) returns (ok: bool)
      requires Valid() && NoNul(s) && |s| < TEXT_BUFFER_SIZE
      modifies this, textBuffer
      ensures Valid()
      ensures (State(), ok) == EditorSpec.InsertString(old(State()), s)
    {
      var len := |s|;
      if textLen + len >= TEXT_BUFFER_SIZE {
        return false;
      }
      InsertEach(s);
      return true;
    }

    /** insertString's loop: insertChar for each character of s in turn. */
    method InsertEach(s: seq<Char8>)
      requires Valid() && NoNul(s) && textLen + |s| < TEXT_BUFFER_SIZE
      modifies this, textBuffer
      ensures Valid()
      ensures State() == EditorSpec.InsertEach(old(State()), s)
    {
      ghost var e := State();
      var i := 0;
      while i < |s|
        invariant i <= |s|
        invariant Valid() && textLen == e.textLen + i
        invariant EditorSpec.InsertEach(State(), s[i..]) == EditorSpec.InsertEach(e, s)
      {
        assert s[i..][0] == s[i] && s[i..][1..] == s[i + 1..];
        var inserted := InsertChar(s[i]);
        i := i + 1;
      }
      assert s[i..] == [];
    }

    /** strcpy into textBuffer: the characters of `src`, then its NUL. */
    method StrCpy(src: seq<Char8>)
      requires NoNul(src) && |src| < textBuffer.Length
      modifies textBuffer
      ensures textBuffer[..] == src + [NUL] + old(textBuffer[..])[|src| + 1..]
    {
      var i := 0;
      while i < |src|
        invariant i <= |src|
        invariant forall k :: 0 <= k < i ==> textBuffer[k] == src[k]
        invariant forall k :: i <= k < textBuffer.Length ==> textBuffer[k] == old(textBuffer[k])
      {
        textBuffer[i] := src[i];
        i := i + 1;
      }
      textBuffer[i] := NUL;
      assert textBuffer[..] == src + [NUL] + old(textBuffer[..])[|src| + 1..];
    }

    /** ui_set_expression (ui.c). */
    method SetExpression(expr: seq<Char8>)
      requires Valid() && NoNul(expr)
      modifies this, textBuffer
      ensures Valid()
      ensures State() == EditorSpec.SetExpression(old(State()), expr)
    {
      if |expr| >= TEXT_BUFFER_SIZE {
        return;
      }
      StrCpy(expr);
      textLen := |expr|;
      cursor := textLen;
      needsRecompile := true;
      oledDirty := true;
    }

    /** ui_handle_play_stop (ui.c); audio_enable is the audioEnabled field. */
    method HandlePlayStop()
      requires Valid()
      modifies this
      ensures Valid()
      ensures State() == EditorSpec.PlayStop(old(State()))
    {
      isPlaying := !isPlaying;
      if isPlaying {
        audioEnabled := true;
      } else {
        audioEnabled := false;
      }
      oledDirty := true;
    }

    /** preset_load (preset.c) into textBuffer. */
    method PresetLoad(slot: byte) returns (ok: bool)
      requires textBuffer.Length == TEXT_BUFFER_SIZE && |sector| == FLASH_SECTOR_SIZE
      modifies this, textBuffer
      ensures (State(), ok) == EditorSpec.LoadPreset(old(State()), slot)
    {
      if slot as nat >= PRESET_COUNT {
        return false;
      }
      ghost var e := State();
      if IsSlotEmpty(sector, slot) {
        EditorSpec.LoadFactoryCase(e, slot);
        FactoryPresetsFit(slot as nat);
        var factory := FACTORY_PRESETS[slot];
        StrCpy(factory);
        textLen := |factory|;
        cursor := textLen;
        currentSlot := slot as nat;
        needsResetT := true;
        needsRecompile := true;
        return true;
      }
      var start := SlotStart(slot as nat);
      var n := CopySlot(start);
      if n < PRESET_SLOT_SIZE {
        textLen := n;
        cursor := n;
        currentSlot := slot as nat;
        needsResetT := true;
        needsRecompile := true;
        EditorSpec.LoadFoundCase(e, slot, n, textBuffer[..]);
      } else {
        EditorSpec.LoadUnterminatedCase(e, slot, textBuffer[..]);
      }
      return true;
    }

    /**
     * The copy loop of preset_load: the slot's bytes go into textBuffer one
     * by one up to and including the first NUL; `n` is the NUL's offset, or
     * 256 when the slot holds none and all of it was copied.
     */
    method CopySlot(start: nat) returns (n: nat)
      requires textBuffer.Length == TEXT_BUFFER_SIZE && start + PRESET_SLOT_SIZE <= |sector|
      modifies textBuffer
      ensures n == FindNul(sector, start, start + PRESET_SLOT_SIZE) - start
      ensures forall k :: 0 <= k < TEXT_BUFFER_SIZE && k <= n ==> textBuffer[k] == ToChar(sector[start + k])
      ensures forall k :: n < k < TEXT_BUFFER_SIZE ==> textBuffer[k] == old(textBuffer[k])
    {
      var i := 0;
      while i < TEXT_BUFFER_SIZE
        invariant i <= TEXT_BUFFER_SIZE
        invariant forall k :: start <= k < start + i ==> sector[k] != 0
        invariant forall k :: 0 <= k < i ==> textBuffer[k] == ToChar(sector[start + k])
        invariant forall k :: i <= k < TEXT_BUFFER_SIZE ==> textBuffer[k] == old(textBuffer[k])
      {
        var c := ToChar(sector[start + i]);
        textBuffer[i] := c;
        if c == NUL {
          FindNulAt(sector, start, start + PRESET_SLOT_SIZE, start + i);
          return i;
        }
        i := i + 1;
      }
      return i;
    }

    /** preset_save (preset.c): the prepared image becomes the sector. */
    method PresetSave(slot: byte) returns (ok: bool)
      requires Valid()
      modifies this
      ensures Valid()
      ensures (State(), ok) == EditorSpec.SavePreset(old(State()), slot)
    {
      if slot as nat >= PRESET_COUNT {
        return false;
      }
      ghost var e := State();
      var buffer := SaveImage(slot as nat);
      sector := buffer[..];
      currentSlot := slot as nat;
      assert State() == EditorSpec.SavePreset(e, slot).0;
      return true;
    }

    /**
     * The sector image preset_save prepares: the sector is read into a
     * buffer, the slot is filled with the erased marker, and at most 255
     * bytes of the text and a NUL are copied in.
     */
    method SaveImage(slot: nat) returns (buffer: array<byte>)
      requires Valid() && slot < PRESET_COUNT
      ensures fresh(buffer)
      ensures buffer[..] == SavedSector(sector, slot, EditorSpec.Text(State()))
    {
      buffer := new byte[FLASH_SECTOR_SIZE];
      Memcpy(buffer, 0, sector);
      var start := SlotStart(slot);
      Memset(buffer, start, EMPTY_MARKER, PRESET_SLOT_SIZE);
      var len := StrLen();
      if len >= PRESET_SLOT_SIZE {
        len := PRESET_SLOT_SIZE - 1;
      }
      Memcpy(buffer, start, Bytes(textBuffer[..len]));
      buffer[start + len] := 0;
      SavedSectorBytes(sector, slot, EditorSpec.Text(State()), buffer[..]);
    }

    /** keyboard_execute_action (keyboard.c). */
    method ExecuteAction(a: Action) returns (ok: bool)
      requires Valid()
      modifies this, textBuffer
      ensures Valid()
      ensures (State(), ok) == EditorSpec.Execute(old(State()), a)
    {
      var s := InsertedText(a);
      if |s| == 1 {
        ok := InsertChar(s[0]);
      } else if |s| == 2 {
        ok := InsertString(s);
      } else {
        ok := CommandKey(a);
      }
    }

    /** The keys of keyboard_execute_action that insert no text. */
    method CommandKey(a: Action) returns (ok: bool)
      requires Valid() && InsertedText(a) == []
      modifies this, textBuffer
      ensures Valid()
      ensures (State(), ok) == EditorSpec.Execute(old(State()), a)
    {
      ghost var e := State();
      if IsPresetKey(a) {
        assert EditorSpec.Execute(e, a) == EditorSpec.LoadPreset(e, PresetSlot(a));
        ok := PresetLoad(PresetSlot(a));
      } else if EditorSpec.IsEditKey(a) {
        assert EditorSpec.Execute(e, a) == EditorSpec.EditKey(e, a);
        ok := EditKey(a);
      } else if EditorSpec.IsMemoryKey(a) {
        assert EditorSpec.Execute(e, a) == EditorSpec.MemoryKey(e, a);
        ok := MemoryKey(a);
      } else {
        assert EditorSpec.Execute(e, a) == (e, false);
        ok := false;
      }
    }

    /** The editing branches of keyboard_execute_action. */
    method EditKey(a: Action) returns (ok: bool)
      requires Valid() && EditorSpec.IsEditKey(a)
      modifies this, textBuffer
      ensures Valid()
      ensures (State(), ok) == EditorSpec.EditKey(old(State()), a)
    {
      if a == Left {
        if cursor > 0 {
          cursor := cursor - 1;
        }
        ok := true;
      } else if a == Right {
        if cursor < textLen {
          cursor := cursor + 1;
        }
        ok := true;
      } else if a == Del {
        ok := DeleteChar();
      } else if a == Enter {
        HandlePlayStop();
        ok := true;
      } else if a == Fn1 {
        mode := ToggleMode(mode, ModeFn1);
        ok := true;
      } else if a == Fn2 {
        mode := ToggleMode(mode, ModeFn2);
        ok := true;
      } else {
        mode := ToggleMode(mode, ModeMem);
        ok := true;
      }
    }

    /** The preset-stepping and SAVE branches of keyboard_execute_action. */
    method MemoryKey(a: Action) returns (ok: bool)
      requires Valid() && EditorSpec.IsMemoryKey(a)
      modifies this, textBuffer
      ensures Valid()
      ensures (State(), ok) == EditorSpec.MemoryKey(old(State()), a)
    {
      if a == PresetDec {
        ok := PresetPrev();
      } else if a == PresetInc {
        ok := PresetNext();
      } else {
        ok := PresetSave(currentSlot as byte);
      }
    }

    /** The PREV key: steps down one slot unless at the first. */
    method PresetPrev() returns (ok: bool)
      requires Valid()
      modifies this, textBuffer
      ensures Valid()
      ensures (State(), ok) == EditorSpec.MemoryKey(old(State()), PresetDec)
    {
      ghost var e := State();
      if currentSlot > 0 {
        assert EditorSpec.MemoryKey(e, PresetDec) == EditorSpec.LoadPreset(e.(currentSlot := e.currentSlot - 1), (e.currentSlot - 1) as byte);
        ok := StepTo(currentSlot - 1);
      } else {
        assert EditorSpec.MemoryKey(e, PresetDec) == (e, false);
        ok := false;
      }
    }

    /** The NEXT key: steps up one slot unless at the last. */
    method PresetNext() returns (ok: bool)
      requires Valid()
      modifies this, textBuffer
      ensures Valid()
      ensures (State(), ok) == EditorSpec.MemoryKey(old(State()), PresetInc)
    {
      ghost var e := State();
      if currentSlot < PRESET_COUNT - 1 {
        assert EditorSpec.MemoryKey(e, PresetInc) == EditorSpec.LoadPreset(e.(currentSlot := e.currentSlot + 1), (e.currentSlot + 1) as byte);
        ok := StepTo(currentSlot + 1);
      } else {
        assert EditorSpec.MemoryKey(e, PresetInc) == (e, false);
        ok := false;
      }
    }

    /** Makes `slot` current and loads it, as PREV/NEXT do. */
    method StepTo(slot: nat) returns (ok: bool)
      requires Valid() && slot < PRESET_COUNT
      modifies this, textBuffer
      ensures Valid()
      ensures (State(), ok) == EditorSpec.LoadPreset(old(State()).(currentSlot := slot), slot as byte)
    {
      ghost var e := State().(currentSlot := slot);
      currentSlot := slot;
      EditorSpec.LoadPresetKeepsWf(e, slot as byte);
      ok := PresetLoad(slot as byte);
    }

    /** preset_clear_all (preset.c): the sector is erased. */
    method ClearAll()
      requires Valid()
      modifies this
      ensures Valid()
      ensures State() == EditorSpec.ClearAll(old(State()))
    {
      sector := ErasedSector();
    }
  }

  /** memcpy: `src` is copied into `dst` from offset `at`; the rest of `dst` stays. */
  method Memcpy(dst: array<byte>, at: nat, src: seq<byte>)
    requires at + |src| <= dst.Length
    modifies dst
    ensures forall j :: 0 <= j < dst.Length ==> dst[j] == if at <= j < at + |src| then src[j - at] else old(dst[j])
  {
    var k := 0;
    while k < |src|
      invariant k <= |src|
      invariant forall j :: 0 <= j < dst.Length ==> dst[j] == if at <= j < at + k then src[j - at] else old(dst[j])
    {
      dst[at + k] := src[k];
      k := k + 1;
    }
  }

  /** memset: `count` bytes of `dst` from offset `at` become `v`; the rest stays. */
  method Memset(dst: array<byte>, at: nat, v: byte, count: nat)
    requires at + count <= dst.Length
    modifies dst
    ensures forall j :: 0 <= j < dst.Length ==> dst[j] == if at <= j < at + count then v else old(dst[j])
  {
    var k := 0;
    while k < count
      invariant k <= count
      invariant forall j :: 0 <= j < dst.Length ==> dst[j] == if at <= j < at + k then v else old(dst[j])
    {
      dst[at + k] := v;
      k := k + 1;
    }
  }
}
