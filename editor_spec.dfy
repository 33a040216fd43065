// What the editing keys, the UI calls and the preset store do to the
// firmware's shared globals, as functions from the old state to the new
// one.  The imperative Device class is proved to follow these functions;
// the lemmas here say what they mean: the text before the NUL changes as an
// insertion or deletion at the cursor, the buffer invariant is kept, and a
// saved expression loads back unchanged.

module EditorSpec {
  import opened RpnTypes
  import opened Keyboard
  import opened PresetLayout

  /**
   * The globals: the 256-byte NUL-terminated text buffer with its length and
   * cursor, the recompile and counter-reset requests, the keyboard mode, the
   * current preset slot, play state, the audio output's enable, the display
   * refresh request, and the flash sector of the presets.
   */
  datatype Editor = Editor(
    textBuffer: seq<Char8>, textLen: nat, cursor: nat,
    needsRecompile: bool, needsResetT: bool,
    mode: KeyMode, currentSlot: nat,
    isPlaying: bool, audioEnabled: bool, oledDirty: bool,
    sector: seq<byte>)

  /** Sizes of the buffer and of the sector. */
  predicate Sized(e: Editor) {
    |e.textBuffer| == TEXT_BUFFER_SIZE && |e.sector| == FLASH_SECTOR_SIZE
  }

  /**
   * The invariant: `cursor <= text_len <= 255`, text_len is the position of
   * the buffer's first NUL, the slot is one of the nine, audio runs exactly
   * while playing, and every non-empty preset slot is NUL-terminated.
   */
  ghost predicate Wf(e: Editor) {
    Sized(e) && e.cursor <= e.textLen < TEXT_BUFFER_SIZE &&
    e.textBuffer[e.textLen] == NUL && NoNul(e.textBuffer[..e.textLen]) &&
    e.currentSlot < PRESET_COUNT && e.audioEnabled == e.isPlaying && SectorOk(e.sector)
  }

  /** The expression: the characters before the NUL. */
  function Text(e: Editor): seq<Char8>
    requires e.textLen <= |e.textBuffer|
  {
    e.textBuffer[..e.textLen]
  }

  /** A buffer holding `text`, its NUL, and after it the old bytes from `from` on. */
  function Terminated(text: seq<Char8>, old_: seq<Char8>, from: nat): (b: seq<Char8>)
    requires from <= |old_|
    ensures |b| == |text| + 1 + |old_| - from
    ensures b[..|text|] == text && b[|text|] == NUL
  {
    var b := text + [NUL] + old_[from..];
    assert b[..|text|] == text;
    b
  }

  lemma TerminatedWf(e: Editor, text: seq<Char8>)
    requires Sized(e) && |text| < TEXT_BUFFER_SIZE && NoNul(text)
    ensures var b := Terminated(text, e.textBuffer, |text| + 1);
      |b| == TEXT_BUFFER_SIZE && b[..|text|] == text && b[|text|] == NUL
  {
  }

  // ------------------------------------------------------------ editing

  /**
   * insertChar: with room (text_len < 255) the character goes in at the
   * cursor, the tail moves right by one, and length and cursor grow by one;
   * otherwise nothing changes.
   */
  function InsertChar(e: Editor, c: Char8): (r: (Editor, bool))
    requires Wf(e) && c != NUL
    ensures Wf(r.0)
    ensures r.1 <==> e.textLen < TEXT_BUFFER_SIZE - 1
    ensures r.1 ==> Text(r.0) == Text(e)[..e.cursor] + [c] + Text(e)[e.cursor..] && r.0.cursor == e.cursor + 1
    ensures r.1 ==> r.0.textBuffer[r.0.textLen + 1..] == e.textBuffer[r.0.textLen + 1..]
    ensures r.1 ==> r.0 == e.(textBuffer := r.0.textBuffer, textLen := e.textLen + 1, cursor := e.cursor + 1, needsRecompile := true)
    ensures !r.1 ==> r.0 == e
  {
    if e.textLen >= TEXT_BUFFER_SIZE - 1 then (e, false)
    else
      var text := Text(e)[..e.cursor] + [c] + Text(e)[e.cursor..];
      assert NoNul(text) by {
        assert forall k :: 0 <= k < |text| ==> text[k] == c || text[k] in Text(e);
      }
      var b := Terminated(text, e.textBuffer, e.textLen + 2);
      var r := e.(textBuffer := b, textLen := e.textLen + 1, cursor := e.cursor + 1, needsRecompile := true);
      assert Text(r) == text;
      (r, true)
  }

  /**
   * insertChar, byte by byte: once its loop has moved the text from the
   * cursor on one place right (the bytes before stay, and so do those past
   * the NUL), writing `c` at the cursor and a NUL after the text gives
   * exactly the insertion.
   */
  lemma InsertCharByShift(e: Editor, c: Char8, shifted: seq<Char8>)
    requires Wf(e) && c != NUL && e.textLen < TEXT_BUFFER_SIZE - 1 && |shifted| == TEXT_BUFFER_SIZE
    requires forall k :: 0 <= k <= e.cursor ==> shifted[k] == e.textBuffer[k]
    requires forall k :: e.cursor < k <= e.textLen ==> shifted[k] == e.textBuffer[k - 1]
    requires forall k :: e.textLen < k < TEXT_BUFFER_SIZE ==> shifted[k] == e.textBuffer[k]
    ensures var b := shifted[e.cursor := c][e.textLen + 1 := NUL];
      InsertChar(e, c) ==
      (e.(textBuffer := b, textLen := e.textLen + 1, cursor := e.cursor + 1, needsRecompile := true), true)
  {
    assert shifted[e.cursor := c][e.textLen + 1 := NUL] == InsertChar(e, c).0.textBuffer;
  }

  /**
   * deleteChar: with the cursor past the start, the character before it is
   * removed and the tail moves left by one; otherwise nothing changes.
   */
  function DeleteChar(e: Editor): (r: (Editor, bool))
    requires Wf(e)
    ensures Wf(r.0)
    ensures r.1 <==> e.cursor > 0
    ensures r.1 ==> Text(r.0) == Text(e)[..e.cursor - 1] + Text(e)[e.cursor..] && r.0.cursor == e.cursor - 1
    ensures r.1 ==> r.0.textBuffer[r.0.textLen + 1..] == e.textBuffer[r.0.textLen + 1..]
    ensures r.1 ==> r.0 == e.(textBuffer := r.0.textBuffer, textLen := e.textLen - 1, cursor := e.cursor - 1, needsRecompile := true)
    ensures !r.1 ==> r.0 == e
  {
    if e.cursor == 0 || e.textLen == 0 then (e, false)
    else
      var text := Text(e)[..e.cursor - 1] + Text(e)[e.cursor..];
      assert NoNul(text) by {
        assert forall k :: 0 <= k < |text| ==> text[k] in Text(e);
      }
      var b := Terminated(text, e.textBuffer, e.textLen);
      var r := e.(textBuffer := b, textLen := e.textLen - 1, cursor := e.cursor - 1, needsRecompile := true);
      assert Text(r) == text;
      (r, true)
  }

  /**
   * deleteChar's shift, byte by byte: the deletion is the buffer in which
   * the bytes before the removed one stay, the rest of the text moves one
   * place left, the NUL follows it, and the bytes from the old NUL on are
   * untouched.
   */
  lemma DeleteCharByShift(e: Editor, b: seq<Char8>)
    requires Wf(e) && e.cursor > 0 && |b| == TEXT_BUFFER_SIZE
    requires forall k :: 0 <= k < e.cursor - 1 ==> b[k] == e.textBuffer[k]
    requires forall k :: e.cursor - 1 <= k < e.textLen - 1 ==> b[k] == e.textBuffer[k + 1]
    requires b[e.textLen - 1] == NUL
    requires forall k :: e.textLen <= k < TEXT_BUFFER_SIZE ==> b[k] == e.textBuffer[k]
    ensures DeleteChar(e) ==
      (e.(textBuffer := b, textLen := e.textLen - 1, cursor := e.cursor - 1, needsRecompile := true), true)
  {
    assert b == DeleteChar(e).0.textBuffer;
  }

  /** The characters of `s` inserted one after another, as insertString's loop does. */
  function InsertEach(e: Editor, s: seq<Char8>): (r: Editor)
    requires Wf(e) && NoNul(s) && e.textLen + |s| < TEXT_BUFFER_SIZE
    ensures Wf(r)
    ensures Text(r) == Text(e)[..e.cursor] + s + Text(e)[e.cursor..] && r.cursor == e.cursor + |s|
    ensures r.textBuffer[r.textLen + 1..] == e.textBuffer[r.textLen + 1..]
    ensures r == e.(textBuffer := r.textBuffer, textLen := e.textLen + |s|, cursor := e.cursor + |s|,
                    needsRecompile := e.needsRecompile || |s| > 0)
    decreases |s|
  {
    if |s| == 0 then e
    else
      var e1 := InsertChar(e, s[0]).0;
      var r := InsertEach(e1, s[1..]);
      InsertSplits(Text(e), e.cursor, s);
      r
  }

  /** Inserting the first character and then the rest inserts the whole string. */
  lemma InsertSplits(text: seq<Char8>, cursor: nat, s: seq<Char8>)
    requires cursor <= |text| && |s| > 0
    ensures var t1 := text[..cursor] + [s[0]] + text[cursor..];
      t1[..cursor + 1] + s[1..] + t1[cursor + 1..] == text[..cursor] + s + text[cursor..]
  {
    var t1 := text[..cursor] + [s[0]] + text[cursor..];
    assert t1[..cursor + 1] == text[..cursor] + [s[0]];
    assert t1[cursor + 1..] == text[cursor..];
    assert [s[0]] + s[1..] == s;
  }

  /**
   * insertString: all or nothing.  When the text and `s` together leave no
   * room for the NUL (text_len + len >= 256) nothing changes; otherwise all
   * of `s` goes in at the cursor and the cursor moves past it.
   */
  function InsertString(e: Editor, s: seq<Char8>): (r: (Editor, bool))
    requires Wf(e) && NoNul(s) && |s| < TEXT_BUFFER_SIZE
    ensures Wf(r.0)
    ensures r.1 <==> e.textLen + |s| < TEXT_BUFFER_SIZE
    ensures r.1 ==> Text(r.0) == Text(e)[..e.cursor] + s + Text(e)[e.cursor..] && r.0.cursor == e.cursor + |s|
    ensures !r.1 ==> r.0 == e
    ensures r.0.sector == e.sector && r.0.mode == e.mode && r.0.isPlaying == e.isPlaying
  {
    if e.textLen + |s| >= TEXT_BUFFER_SIZE then (e, false)
    else (InsertEach(e, s), true)
  }

  // ------------------------------------------------------------ ui.c

  /**
   * ui_set_expression: a C string of 256 characters or more is refused;
   * otherwise it becomes the text, the cursor goes to its end, and a
   * recompile and a redraw are requested.
   */
  function SetExpression(e: Editor, expr: seq<Char8>): (r: Editor)
    requires Wf(e) && NoNul(expr)
    ensures Wf(r)
    ensures |expr| >= TEXT_BUFFER_SIZE ==> r == e
    ensures |expr| < TEXT_BUFFER_SIZE ==>
      Text(r) == expr && r.cursor == r.textLen && r.needsRecompile && r.oledDirty &&
      r == e.(textBuffer := r.textBuffer, textLen := |expr|, cursor := |expr|, needsRecompile := true, oledDirty := true)
  {
    if |expr| >= TEXT_BUFFER_SIZE then e
    else
      var b := Terminated(expr, e.textBuffer, |expr| + 1);
      e.(textBuffer := b, textLen := |expr|, cursor := |expr|, needsRecompile := true, oledDirty := true)
  }

  /** ui_handle_play_stop: play state flips, audio follows it, and a redraw is requested. */
  function PlayStop(e: Editor): (r: Editor)
    requires Wf(e)
    ensures Wf(r)
    ensures r.isPlaying == !e.isPlaying && r.audioEnabled == r.isPlaying && r.oledDirty
    ensures r == e.(isPlaying := r.isPlaying, audioEnabled := r.audioEnabled, oledDirty := true)
  {
    var playing := !e.isPlaying;
    e.(isPlaying := playing, audioEnabled := playing, oledDirty := true)
  }

  /** Play/stop twice restores play state and audio. */
  lemma PlayStopTwice(e: Editor)
    requires Wf(e)
    ensures PlayStop(PlayStop(e)) == e.(oledDirty := true)
  {
  }

  // ------------------------------------------------------------ preset.c

  /** The text slot `slot` loads: the factory preset when empty, else the stored bytes. */
  function LoadedText(sector: seq<byte>, slot: nat): seq<Char8>
    requires |sector| == FLASH_SECTOR_SIZE && slot < PRESET_COUNT
  {
    if IsSlotEmpty(sector, slot as byte) then FACTORY_PRESETS[slot] else StoredText(sector, slot)
  }

  /**
   * preset_load.  A slot past the ninth is refused.  An empty slot copies its
   * factory preset; any other slot is copied byte by byte up to and
   * including its first NUL.  In both cases text_len and the cursor move to
   * the end, the slot becomes current, and a recompile and a counter reset
   * are requested.  A non-empty slot with no NUL in its 256 bytes has all
   * 256 bytes copied and nothing else updated (the invariant rules it out).
   */
  function LoadPreset(e: Editor, slot: byte): (r: (Editor, bool))
    requires Sized(e)
    ensures Sized(r.0) && r.0.sector == e.sector
    ensures r.0.mode == e.mode && r.0.isPlaying == e.isPlaying
    ensures r.1 <==> slot as nat < PRESET_COUNT
    ensures !r.1 ==> r.0 == e
  {
    if slot as nat >= PRESET_COUNT then (e, false)
    else
      var s := slot as nat;
      if IsSlotEmpty(e.sector, slot) then
        var f := FACTORY_PRESETS[s];
        FactoryPresetsFit(s);
        var b := Terminated(f, e.textBuffer, |f| + 1);
        (e.(textBuffer := b, textLen := |f|, cursor := |f|, currentSlot := s, needsResetT := true, needsRecompile := true), true)
      else
        var start := SlotStart(s);
        var j := FindNul(e.sector, start, start + PRESET_SLOT_SIZE);
        if j < start + PRESET_SLOT_SIZE then
          var m := j - start;
          var b := Chars(e.sector[start..j + 1]) + e.textBuffer[m + 1..];
          (e.(textBuffer := b, textLen := m, cursor := m, currentSlot := s, needsResetT := true, needsRecompile := true), true)
        else
          (e.(textBuffer := Chars(e.sector[start..start + PRESET_SLOT_SIZE])), true)
  }

  /** The three outcomes of a load of one of the nine slots, one lemma each. */
  lemma LoadFactoryCase(e: Editor, slot: byte)
    requires Sized(e) && slot as nat < PRESET_COUNT && IsSlotEmpty(e.sector, slot)
    ensures |FACTORY_PRESETS| == PRESET_COUNT
    ensures var f := FACTORY_PRESETS[slot];
      |f| < TEXT_BUFFER_SIZE &&
      LoadPreset(e, slot) == (e.(textBuffer := f + [NUL] + e.textBuffer[|f| + 1..], textLen := |f|, cursor := |f|,
                                 currentSlot := slot as nat, needsResetT := true, needsRecompile := true), true)
  {
    FactoryPresetsFit(slot as nat);
  }

  lemma LoadFoundCase(e: Editor, slot: byte, n: nat, b: seq<Char8>)
    requires Sized(e) && slot as nat < PRESET_COUNT && !IsSlotEmpty(e.sector, slot) && n < PRESET_SLOT_SIZE
    requires FindNul(e.sector, SlotStart(slot as nat), SlotStart(slot as nat) + PRESET_SLOT_SIZE) == SlotStart(slot as nat) + n
    requires |b| == TEXT_BUFFER_SIZE
    requires forall k :: 0 <= k <= n ==> b[k] == ToChar(e.sector[SlotStart(slot as nat) + k])
    requires forall k :: n < k < TEXT_BUFFER_SIZE ==> b[k] == e.textBuffer[k]
    ensures LoadPreset(e, slot) == (e.(textBuffer := b, textLen := n, cursor := n, currentSlot := slot as nat,
                                       needsResetT := true, needsRecompile := true), true)
  {
    var start := SlotStart(slot as nat);
    var copied := Chars(e.sector[start..start + n + 1]);
    assert forall k :: 0 <= k <= n ==> copied[k] == ToChar(e.sector[start..start + n + 1][k]);
    assert b == copied + e.textBuffer[n + 1..];
  }

  lemma LoadUnterminatedCase(e: Editor, slot: byte, b: seq<Char8>)
    requires Sized(e) && slot as nat < PRESET_COUNT && !IsSlotEmpty(e.sector, slot)
    requires !SlotTerminated(e.sector, slot as nat)
    requires |b| == TEXT_BUFFER_SIZE
    requires forall k :: 0 <= k < TEXT_BUFFER_SIZE ==> b[k] == ToChar(e.sector[SlotStart(slot as nat) + k])
    ensures LoadPreset(e, slot) == (e.(textBuffer := b), true)
  {
    var start := SlotStart(slot as nat);
    var copied := Chars(e.sector[start..start + PRESET_SLOT_SIZE]);
    assert forall k :: 0 <= k < TEXT_BUFFER_SIZE ==> copied[k] == ToChar(e.sector[start..start + PRESET_SLOT_SIZE][k]);
    assert b == copied;
  }

  /**
   * Under the invariant a load of one of the nine slots always finds its
   * text: the buffer then holds the factory preset or the stored bytes,
   * text_len and the cursor sit at its end, and the invariant is kept.
   */
  lemma LoadPresetLoads(e: Editor, slot: byte)
    requires Wf(e) && slot as nat < PRESET_COUNT
    ensures var r := LoadPreset(e, slot);
      var text := LoadedText(e.sector, slot as nat);
      r.1 && Wf(r.0) && Text(r.0) == text && r.0.cursor == r.0.textLen &&
      r.0 == e.(textBuffer := r.0.textBuffer, textLen := |text|, cursor := |text|,
                currentSlot := slot as nat, needsResetT := true, needsRecompile := true)
  {
    if IsSlotEmpty(e.sector, slot) {
      FactoryPresetsFit(slot as nat);
    } else {
      LoadStoredPreset(e, slot);
    }
  }

  /** The stored-text half of LoadPresetLoads. */
  lemma LoadStoredPreset(e: Editor, slot: byte)
    requires Wf(e) && slot as nat < PRESET_COUNT && !IsSlotEmpty(e.sector, slot)
    ensures var r := LoadPreset(e, slot);
      var text := StoredText(e.sector, slot as nat);
      r.1 && Wf(r.0) && Text(r.0) == text && r.0.cursor == r.0.textLen &&
      r.0 == e.(textBuffer := r.0.textBuffer, textLen := |text|, cursor := |text|,
                currentSlot := slot as nat, needsResetT := true, needsRecompile := true)
  {
    var s := slot as nat;
    var start := SlotStart(s);
    var j := FindNul(e.sector, start, start + PRESET_SLOT_SIZE);
    assert SlotTerminated(e.sector, s);
    var m := j - start;
    var b := Chars(e.sector[start..j + 1]) + e.textBuffer[m + 1..];
    assert b[..m] == StoredText(e.sector, s);
  }

  /** Every load keeps the invariant. */
  lemma LoadPresetKeepsWf(e: Editor, slot: byte)
    requires Wf(e)
    ensures Wf(LoadPreset(e, slot).0)
  {
    if slot as nat < PRESET_COUNT {
      LoadPresetLoads(e, slot);
    }
  }

  /**
   * preset_save.  A slot past the ninth is refused; otherwise the slot's 256
   * bytes of the sector are rewritten with the expression (at most 255
   * characters), its NUL and the erased marker, and the slot becomes current.
   */
  function SavePreset(e: Editor, slot: byte): (r: (Editor, bool))
    requires Wf(e)
    ensures Wf(r.0)
    ensures r.1 <==> slot as nat < PRESET_COUNT
    ensures !r.1 ==> r.0 == e
    ensures r.1 ==> r.0 == e.(sector := SavedSector(e.sector, slot as nat, Text(e)), currentSlot := slot as nat)
  {
    if slot as nat >= PRESET_COUNT then (e, false)
    else
      SaveKeepsSectorOk(e.sector, slot as nat, Text(e));
      (e.(sector := SavedSector(e.sector, slot as nat, Text(e)), currentSlot := slot as nat), true)
  }

  /**
   * A saved text that fits and does not start with the erased marker is what
   * the slot loads afterwards.
   */
  lemma SavedTextLoads(sector: seq<byte>, slot: byte, text: seq<Char8>)
    requires |sector| == FLASH_SECTOR_SIZE && slot as nat < PRESET_COUNT
    requires NoNul(text) && |text| < TEXT_BUFFER_SIZE
    requires |text| == 0 || text[0] as int != 0xFF
    ensures LoadedText(SavedSector(sector, slot as nat, text), slot as nat) == text
  {
    SavedSlotEmptiness(sector, slot, text);
    SavedSlotReadsBack(sector, slot as nat, text);
    assert text[..|text|] == text;
  }

  /** preset_clear_all: the whole sector is erased. */
  function ClearAll(e: Editor): (r: Editor)
    requires Wf(e)
    ensures Wf(r)
    ensures forall slot: byte :: IsSlotEmpty(r.sector, slot)
    ensures r == e.(sector := ErasedSector())
  {
    ErasedSectorEmpty();
    e.(sector := ErasedSector())
  }

  /**
   * Saving the current expression and then loading the same slot gives the
   * expression back with the cursor at its end -- also for the empty text,
   * which loads as an empty user preset rather than the factory one.  The
   * one exception is a text starting with the byte 0xFF, which marks the
   * slot empty.
   */
  lemma SaveThenLoad(e: Editor, slot: byte)
    requires Wf(e) && slot as nat < PRESET_COUNT
    requires |Text(e)| == 0 || Text(e)[0] as int != 0xFF
    ensures var saved := SavePreset(e, slot).0;
      var loaded := LoadPreset(saved, slot);
      loaded.1 && Text(loaded.0) == Text(e) && loaded.0.cursor == loaded.0.textLen && loaded.0.currentSlot == slot as nat
  {
    SavedTextLoads(e.sector, slot, Text(e));
    LoadPresetLoads(SavePreset(e, slot).0, slot);
  }

  // ------------------------------------------------------------ keyboard_execute_action

  /** The keys that act on the text, the cursor, playback or the mode. */
  predicate IsEditKey(a: Action) {
    (a.Left? || a.Right? || a.Del? || a.Enter? || a.Fn1? || a.Fn2? || a.Mem?)
  }

  /** The keys that move between preset slots or store into one. */
  predicate IsMemoryKey(a: Action) {
    (a.PresetDec? || a.PresetInc? || a.Save?)
  }

  /** keyboard_execute_action: the new globals and the returned flag. */
  function Execute(e: Editor, a: Action): (r: (Editor, bool))
    requires Wf(e)
    ensures Wf(r.0)
    ensures !r.1 ==> r.0 == e
    ensures r.0.sector != e.sector ==> a == Save
    ensures r.0.mode != e.mode ==> a == Fn1 || a == Fn2 || a == Mem
    ensures r.0.isPlaying != e.isPlaying ==> a == Enter
    ensures InsertedText(a) == [] && !IsPresetKey(a) && a != Del && a != PresetDec && a != PresetInc ==>
      Text(r.0) == Text(e)
  {
    var s := InsertedText(a);
    if |s| == 1 then InsertChar(e, s[0])
    else if |s| == 2 then InsertString(e, s)
    else if IsPresetKey(a) then
      LoadPresetKeepsWf(e, PresetSlot(a));
      LoadPreset(e, PresetSlot(a))
    else if IsEditKey(a) then EditKey(e, a)
    else if IsMemoryKey(a) then MemoryKey(e, a)
    else (e, false)
  }

  /** The editing branches of keyboard_execute_action. */
  function EditKey(e: Editor, a: Action): (r: (Editor, bool))
    requires Wf(e) && IsEditKey(a)
    ensures Wf(r.0)
    ensures a != Del ==> r.1
    ensures !r.1 ==> r.0 == e
    ensures a != Del ==> Text(r.0) == Text(e)
    ensures r.0.sector == e.sector
    ensures r.0.mode != e.mode ==> a == Fn1 || a == Fn2 || a == Mem
    ensures r.0.isPlaying != e.isPlaying ==> a == Enter
  {
    if a == Left then (e.(cursor := if e.cursor > 0 then e.cursor - 1 else e.cursor), true)
    else if a == Right then (e.(cursor := if e.cursor < e.textLen then e.cursor + 1 else e.cursor), true)
    else if a == Del then DeleteChar(e)
    else if a == Enter then (PlayStop(e), true)
    else if a == Fn1 then (e.(mode := ToggleMode(e.mode, ModeFn1)), true)
    else if a == Fn2 then (e.(mode := ToggleMode(e.mode, ModeFn2)), true)
    else (e.(mode := ToggleMode(e.mode, ModeMem)), true)
  }

  /** The preset-stepping and SAVE branches of keyboard_execute_action. */
  function MemoryKey(e: Editor, a: Action): (r: (Editor, bool))
    requires Wf(e) && IsMemoryKey(a)
    ensures Wf(r.0)
    ensures r.0.currentSlot < PRESET_COUNT
    ensures a == Save ==> r.1 && r.0 == e.(sector := r.0.sector)
    ensures !r.1 ==> r.0 == e
    ensures a != Save ==> r.0.sector == e.sector
    ensures r.0.mode == e.mode && r.0.isPlaying == e.isPlaying
  {
    if a == PresetDec then
      if e.currentSlot > 0 then
        var e' := e.(currentSlot := e.currentSlot - 1);
        LoadPresetKeepsWf(e', e'.currentSlot as byte);
        LoadPreset(e', e'.currentSlot as byte)
      else (e, false)
    else if a == PresetInc then
      if e.currentSlot < PRESET_COUNT - 1 then
        var e' := e.(currentSlot := e.currentSlot + 1);
        LoadPresetKeepsWf(e', e'.currentSlot as byte);
        LoadPreset(e', e'.currentSlot as byte)
      else (e, false)
    else SavePreset(e, e.currentSlot as byte)
  }

  /**
   * A typing key inserts its text at the cursor when it fits with room for
   * the NUL, and otherwise changes nothing and reports false.
   */
  lemma ExecuteTyping(e: Editor, a: Action)
    requires Wf(e) && |InsertedText(a)| > 0
    ensures var r := Execute(e, a);
      var s := InsertedText(a);
      (r.1 <==> e.textLen + |s| < TEXT_BUFFER_SIZE) &&
      (r.1 ==> Text(r.0) == Text(e)[..e.cursor] + s + Text(e)[e.cursor..] && r.0.cursor == e.cursor + |s|) &&
      (!r.1 ==> r.0 == e)
  {
    if a != Prefix0b && a != Prefix0x {
      assert InsertedText(a) == [InsertedText(a)[0]];
    }
  }

  /** The cursor keys always succeed and keep the cursor within the text. */
  lemma ExecuteCursor(e: Editor, a: Action)
    requires Wf(e) && (a == Left || a == Right)
    ensures var r := Execute(e, a);
      r.1 && Text(r.0) == Text(e) && r.0.cursor <= r.0.textLen &&
      (a == Left ==> r.0.cursor == if e.cursor > 0 then e.cursor - 1 else 0) &&
      (a == Right ==> r.0.cursor == if e.cursor < e.textLen then e.cursor + 1 else e.textLen)
  {
  }

  /** Each mode key toggles between its own mode and BASE, and jumps to its mode from any other. */
  lemma ExecuteModeKey(e: Editor, a: Action, target: KeyMode)
    requires Wf(e) && ((a == Fn1 && target == ModeFn1) || (a == Fn2 && target == ModeFn2) || (a == Mem && target == ModeMem))
    ensures var r := Execute(e, a);
      r.1 && r.0 == e.(mode := r.0.mode) &&
      (e.mode == target ==> r.0.mode == ModeBase) && (e.mode != target ==> r.0.mode == target)
  {
    assert KeyChar(a) == NUL && InsertedText(a) == [];
    assert !IsPresetKey(a) && IsEditKey(a);
    assert Execute(e, a) == EditKey(e, a);
  }

  /** Away from the ends, PREV and NEXT load the neighbouring slot's text with the cursor at its end. */
  lemma PresetStepLoads(e: Editor, a: Action)
    requires Wf(e) && ((a == PresetDec && e.currentSlot > 0) || (a == PresetInc && e.currentSlot < PRESET_COUNT - 1))
    ensures var r := MemoryKey(e, a);
      r.1 && r.0.currentSlot == (if a == PresetDec then e.currentSlot - 1 else e.currentSlot + 1) &&
      Text(r.0) == LoadedText(e.sector, r.0.currentSlot) && r.0.cursor == r.0.textLen
  {
    var s := if a == PresetDec then e.currentSlot - 1 else e.currentSlot + 1;
    assert MemoryKey(e, a) == LoadPreset(e.(currentSlot := s), s as byte);
    LoadPresetLoads(e.(currentSlot := s), s as byte);
  }

  /**
   * Previous/next preset stays within slots 0..8: at either end it reports
   * false and changes nothing, otherwise it moves by one and loads that
   * slot's text, with the cursor at its end.
   */
  lemma ExecutePresetStep(e: Editor, a: Action)
    requires Wf(e) && (a == PresetDec || a == PresetInc)
    ensures var r := Execute(e, a);
      r.0.currentSlot < PRESET_COUNT &&
      (a == PresetDec && e.currentSlot == 0 ==> !r.1 && r.0 == e) &&
      (a == PresetInc && e.currentSlot == PRESET_COUNT - 1 ==> !r.1 && r.0 == e) &&
      (a == PresetDec && e.currentSlot > 0 ==> r.1 && r.0.currentSlot == e.currentSlot - 1) &&
      (a == PresetInc && e.currentSlot < PRESET_COUNT - 1 ==> r.1 && r.0.currentSlot == e.currentSlot + 1) &&
      ((a == PresetDec && e.currentSlot > 0) || (a == PresetInc && e.currentSlot < PRESET_COUNT - 1) ==>
        Text(r.0) == LoadedText(e.sector, r.0.currentSlot) && r.0.cursor == r.0.textLen)
  {
    assert KeyChar(a) == NUL && InsertedText(a) == [];
    assert !IsPresetKey(a) && !IsEditKey(a) && IsMemoryKey(a);
    assert Execute(e, a) == MemoryKey(e, a);
    if (a == PresetDec && e.currentSlot > 0) || (a == PresetInc && e.currentSlot < PRESET_COUNT - 1) {
      PresetStepLoads(e, a);
    }
  }

  /**
   * The SAVE key stores the expression in the current slot, from where that
   * slot loads it again; nothing but the sector changes.
   */
  lemma ExecuteSaveKey(e: Editor)
    requires Wf(e)
    requires |Text(e)| == 0 || Text(e)[0] as int != 0xFF
    ensures var r := Execute(e, Save);
      r.1 && r.0 == e.(sector := r.0.sector) &&
      LoadedText(r.0.sector, e.currentSlot) == Text(e)
  {
    SaveKeySaves(e);
    SavedTextLoads(e.sector, e.currentSlot as byte, Text(e));
  }

  /** The SAVE key is preset_save of the current slot. */
  lemma SaveKeySaves(e: Editor)
    requires Wf(e)
    ensures Execute(e, Save) == (e.(sector := SavedSector(e.sector, e.currentSlot, Text(e))), true)
  {
    SaveKeyIsMemoryKey(e);
    assert MemoryKey(e, Save) == SavePreset(e, e.currentSlot as byte);
  }

  /** SAVE types nothing and is neither a preset nor an editing key. */
  lemma SaveKeyIsMemoryKey(e: Editor)
    requires Wf(e)
    ensures Execute(e, Save) == MemoryKey(e, Save)
  {
    assert KeyChar(Save) == NUL && InsertedText(Save) == [];
    assert !IsPresetKey(Save) && !IsEditKey(Save) && IsMemoryKey(Save);
  }

  /**
   * A preset key always succeeds: it loads its slot's text with the cursor
   * at the end and makes that slot current.
   */
  lemma ExecutePresetKey(e: Editor, a: Action)
    requires Wf(e) && IsPresetKey(a)
    ensures var r := Execute(e, a);
      r.1 && Wf(r.0) && Text(r.0) == LoadedText(e.sector, PresetSlot(a) as nat) &&
      r.0.cursor == r.0.textLen && r.0.currentSlot == PresetSlot(a) as nat
  {
    assert KeyChar(a) == NUL && InsertedText(a) == [];
    assert Execute(e, a) == LoadPreset(e, PresetSlot(a));
    LoadPresetLoads(e, PresetSlot(a));
  }
}
