// The preset store: nine 256-byte slots at the start of one 4096-byte flash
// sector.  A slot whose first byte is 0xFF (erased flash) is empty and loads
// the factory preset; a saved slot holds the expression's bytes, a NUL, and
// 0xFF up to the end of the slot.  The flash itself is modelled as the
// sector's byte image.

module PresetLayout {
  import opened RpnTypes

  const PRESET_COUNT: nat := 9
  const PRESET_SLOT_SIZE: nat := 256
  const FLASH_SECTOR_SIZE: nat := 4096

  /** Erased flash reads 0xFF; a slot starting with it is empty. */
  const EMPTY_MARKER: byte := 0xFF

  /** The factory presets of slots 1-9 (only the first three are set). */
  const FACTORY_PRESETS: seq<seq<Char8>> := [
    "t*(42&t>>10)",
    "t*((t>>12)|(t>>8))",
    "t*(0xdeadbeef>>(t>>11)" + "&15)/2|t>>3|t>>(t>>10)",
    "", "", "", "", "", ""]

  /** Every factory preset is a C string that fits the 256-byte text buffer. */
  lemma FactoryPresetsFit(slot: nat)
    requires slot < PRESET_COUNT
    ensures |FACTORY_PRESETS| == PRESET_COUNT
    ensures NoNul(FACTORY_PRESETS[slot]) && |FACTORY_PRESETS[slot]| < TEXT_BUFFER_SIZE
  {
    if slot == 2 {
      var a: seq<Char8> := "t*(0xdeadbeef>>(t>>11)";
      var b: seq<Char8> := "&15)/2|t>>3|t>>(t>>10)";
      assert NoNul(a) && NoNul(b);
      assert FACTORY_PRESETS[2] == a + b;
    }
  }

  // ------------------------------------------------------------ bytes and chars

  function ToByte(c: Char8): byte {
    c as int as byte
  }

  function ToChar(b: byte): Char8 {
    b as int as char
  }

  /** The bytes of a C string, as memcpy stores them. */
  function Bytes(s: seq<Char8>): (r: seq<byte>)
    ensures |r| == |s|
    ensures forall k :: 0 <= k < |s| ==> (r[k] == 0 <==> s[k] == NUL)
  {
    seq(|s|, k requires 0 <= k < |s| => ToByte(s[k]))
  }

  /** Bytes read back as characters, as the load loop copies them. */
  function Chars(b: seq<byte>): (r: seq<Char8>)
    ensures |r| == |b|
  {
    seq(|b|, k requires 0 <= k < |b| => ToChar(b[k]))
  }

  lemma CharsOfBytes(s: seq<Char8>)
    ensures Chars(Bytes(s)) == s
  {
    assert forall k :: 0 <= k < |s| ==> Chars(Bytes(s))[k] == s[k];
  }

  // ------------------------------------------------------------ slots

  /** Offset of a slot's first byte within the sector. */
  function SlotStart(slot: nat): (start: nat)
    requires slot < PRESET_COUNT
    ensures start + PRESET_SLOT_SIZE <= PRESET_COUNT * PRESET_SLOT_SIZE <= FLASH_SECTOR_SIZE
  {
    slot * PRESET_SLOT_SIZE
  }

  /**
   * preset_is_slot_empty: slots past the ninth count as empty; a slot is
   * empty exactly when its first byte is the erased marker.
   */
  function IsSlotEmpty(sector: seq<byte>, slot: byte): (empty: bool)
    requires |sector| == FLASH_SECTOR_SIZE
    ensures slot as nat >= PRESET_COUNT ==> empty
    ensures slot as nat < PRESET_COUNT ==> (empty <==> sector[SlotStart(slot as nat)] == EMPTY_MARKER)
  {
    slot as nat >= PRESET_COUNT || sector[SlotStart(slot as nat)] == EMPTY_MARKER
  }

  /** The first index in [i, end) holding a zero byte, or `end` when there is none. */
  function FindNul(b: seq<byte>, i: nat, end: nat): (j: nat)
    requires i <= end <= |b|
    ensures i <= j <= end
    ensures j < end ==> b[j] == 0
    ensures forall k :: i <= k < j ==> b[k] != 0
    decreases end - i
  {
    if i == end then end
    else if b[i] == 0 then i
    else FindNul(b, i + 1, end)
  }

  /** The first zero byte of a range depends only on the bytes of that range. */
  lemma FindNulFrame(b: seq<byte>, b': seq<byte>, i: nat, end: nat)
    requires i <= end <= |b| && end <= |b'|
    requires b[i..end] == b'[i..end]
    ensures FindNul(b, i, end) == FindNul(b', i, end)
  {
    assert forall k :: i <= k < end ==> b[k] == b[i..end][k - i] == b'[k];
  }

  /** Whether a slot holds a NUL within its 256 bytes. */
  predicate SlotTerminated(sector: seq<byte>, slot: nat)
    requires |sector| == FLASH_SECTOR_SIZE && slot < PRESET_COUNT
  {
    FindNul(sector, SlotStart(slot), SlotStart(slot) + PRESET_SLOT_SIZE) < SlotStart(slot) + PRESET_SLOT_SIZE
  }

  /** The text a load copies out of a slot: its bytes up to the first NUL. */
  function StoredText(sector: seq<byte>, slot: nat): (text: seq<Char8>)
    requires |sector| == FLASH_SECTOR_SIZE && slot < PRESET_COUNT
    ensures |text| <= PRESET_SLOT_SIZE
    ensures SlotTerminated(sector, slot) ==> |text| < PRESET_SLOT_SIZE && NoNul(text)
  {
    var start := SlotStart(slot);
    var text := Chars(sector[start..FindNul(sector, start, start + PRESET_SLOT_SIZE)]);
    assert forall k :: 0 <= k < |text| ==> text[k] != NUL by {
      forall k | 0 <= k < |text| ensures text[k] != NUL {
        assert sector[start + k] != 0;
      }
    }
    text
  }

  /**
   * The state of the sector the firmware itself maintains: every non-empty
   * slot is NUL-terminated within its 256 bytes.
   */
  ghost predicate SectorOk(sector: seq<byte>) {
    |sector| == FLASH_SECTOR_SIZE &&
    forall slot: byte :: slot as nat < PRESET_COUNT && !IsSlotEmpty(sector, slot) ==> SlotTerminated(sector, slot as nat)
  }

  // ------------------------------------------------------------ save and erase

  /**
   * A saved slot: at most 255 bytes of the text, a NUL, and the erased
   * marker for the rest of the 256 bytes.
   */
  function SlotImage(text: seq<Char8>): (img: seq<byte>)
    ensures |img| == PRESET_SLOT_SIZE
    ensures var n := if |text| >= PRESET_SLOT_SIZE then PRESET_SLOT_SIZE - 1 else |text|;
      img[..n] == Bytes(text[..n]) && img[n] == 0 &&
      forall k :: n < k < PRESET_SLOT_SIZE ==> img[k] == EMPTY_MARKER
  {
    var n := if |text| >= PRESET_SLOT_SIZE then PRESET_SLOT_SIZE - 1 else |text|;
    var img := Bytes(text[..n]) + [0] + seq(PRESET_SLOT_SIZE - 1 - n, _ => EMPTY_MARKER);
    assert img[..n] == Bytes(text[..n]);
    img
  }

  /** preset_save's new sector image: the slot rewritten, every other byte as it was. */
  function SavedSector(sector: seq<byte>, slot: nat, text: seq<Char8>): (s: seq<byte>)
    requires |sector| == FLASH_SECTOR_SIZE && slot < PRESET_COUNT
    ensures |s| == FLASH_SECTOR_SIZE
    ensures forall k :: 0 <= k < FLASH_SECTOR_SIZE && !(SlotStart(slot) <= k < SlotStart(slot) + PRESET_SLOT_SIZE) ==> s[k] == sector[k]
    ensures s[SlotStart(slot)..SlotStart(slot) + PRESET_SLOT_SIZE] == SlotImage(text)
  {
    var start := SlotStart(slot);
    var s := sector[..start] + SlotImage(text) + sector[start + PRESET_SLOT_SIZE..];
    assert s[start..start + PRESET_SLOT_SIZE] == SlotImage(text);
    s
  }

  /** preset_clear_all's sector image: everything erased. */
  function ErasedSector(): (s: seq<byte>)
    ensures |s| == FLASH_SECTOR_SIZE
  {
    seq(FLASH_SECTOR_SIZE, _ => EMPTY_MARKER)
  }

  /** After erasing, every slot is empty and the sector is in the firmware's own state. */
  lemma ErasedSectorEmpty()
    ensures forall slot: byte :: IsSlotEmpty(ErasedSector(), slot)
    ensures SectorOk(ErasedSector())
  {
  }

  /**
   * preset_save's buffer, byte by byte: outside the slot the sector as read,
   * inside it the first min(len, 255) bytes of the text, a NUL, and the
   * erased marker up to the end of the slot -- that is the saved sector.
   */
  lemma SavedSectorBytes(sector: seq<byte>, slot: nat, text: seq<Char8>, s: seq<byte>)
    requires |sector| == FLASH_SECTOR_SIZE && slot < PRESET_COUNT && |s| == FLASH_SECTOR_SIZE
    requires forall k :: 0 <= k < SlotStart(slot) ==> s[k] == sector[k]
    requires forall k :: SlotStart(slot) + PRESET_SLOT_SIZE <= k < FLASH_SECTOR_SIZE ==> s[k] == sector[k]
    requires var start, n := SlotStart(slot), if |text| >= PRESET_SLOT_SIZE then PRESET_SLOT_SIZE - 1 else |text|;
      (forall k :: start <= k < start + n ==> s[k] == ToByte(text[k - start])) &&
      s[start + n] == 0 &&
      (forall k :: start + n < k < start + PRESET_SLOT_SIZE ==> s[k] == EMPTY_MARKER)
    ensures s == SavedSector(sector, slot, text)
  {
    var start := SlotStart(slot);
    var n := if |text| >= PRESET_SLOT_SIZE then PRESET_SLOT_SIZE - 1 else |text|;
    var img := SlotImage(text);
    var saved := SavedSector(sector, slot, text);
    forall k | 0 <= k < FLASH_SECTOR_SIZE
      ensures s[k] == saved[k]
    {
      if start <= k < start + PRESET_SLOT_SIZE {
        assert saved[k] == saved[start..start + PRESET_SLOT_SIZE][k - start] == img[k - start];
        if k < start + n {
          assert img[k - start] == img[..n][k - start] == Bytes(text[..n])[k - start];
        }
      }
    }
  }

  /** Reading a saved slot back gives the text, cut to 255 characters. */
  lemma SavedSlotReadsBack(sector: seq<byte>, slot: nat, text: seq<Char8>)
    requires |sector| == FLASH_SECTOR_SIZE && slot < PRESET_COUNT && NoNul(text)
    ensures var s := SavedSector(sector, slot, text);
      var n := if |text| >= PRESET_SLOT_SIZE then PRESET_SLOT_SIZE - 1 else |text|;
      SlotTerminated(s, slot) && StoredText(s, slot) == text[..n]
  {
    var s := SavedSector(sector, slot, text);
    var start := SlotStart(slot);
    var n := if |text| >= PRESET_SLOT_SIZE then PRESET_SLOT_SIZE - 1 else |text|;
    var img := SlotImage(text);
    var bs := Bytes(text[..n]);
    assert s[start..start + PRESET_SLOT_SIZE] == img;
    forall k | 0 <= k < n
      ensures s[start + k] == bs[k] && bs[k] != 0
    {
      assert s[start + k] == img[k];
      assert img[k] == img[..n][k];
    }
    assert s[start + n] == img[n];
    FindNulAt(s, start, start + PRESET_SLOT_SIZE, start + n);
    assert s[start..start + n] == bs;
    CharsOfBytes(text[..n]);
  }

  lemma FindNulAt(b: seq<byte>, i: nat, end: nat, j: nat)
    requires i <= j < end <= |b| && b[j] == 0
    requires forall k :: i <= k < j ==> b[k] != 0
    ensures FindNul(b, i, end) == j
  {
  }

  /** A saved slot is empty only when the text starts with the byte 0xFF. */
  lemma SavedSlotEmptiness(sector: seq<byte>, slot: byte, text: seq<Char8>)
    requires |sector| == FLASH_SECTOR_SIZE && slot as nat < PRESET_COUNT
    ensures IsSlotEmpty(SavedSector(sector, slot as nat, text), slot) <==> |text| > 0 && text[0] as int == 0xFF
  {
    var s := SavedSector(sector, slot as nat, text);
    var img := SlotImage(text);
    assert s[SlotStart(slot as nat)] == img[0];
    if |text| > 0 {
      assert img[0] == Bytes(text[..1])[0];
    }
  }

  /** Saving a slot leaves what every other slot holds as it was. */
  lemma SaveKeepsOtherSlots(sector: seq<byte>, slot: nat, text: seq<Char8>, other: byte)
    requires |sector| == FLASH_SECTOR_SIZE && slot < PRESET_COUNT
    requires other as nat < PRESET_COUNT && other as nat != slot
    ensures var s := SavedSector(sector, slot, text);
      IsSlotEmpty(s, other) == IsSlotEmpty(sector, other) &&
      SlotTerminated(s, other as nat) == SlotTerminated(sector, other as nat) &&
      StoredText(s, other as nat) == StoredText(sector, other as nat)
  {
    var s := SavedSector(sector, slot, text);
    var o := SlotStart(other as nat);
    assert s[o..o + PRESET_SLOT_SIZE] == sector[o..o + PRESET_SLOT_SIZE];
    FindNulFrame(s, sector, o, o + PRESET_SLOT_SIZE);
    var j := FindNul(s, o, o + PRESET_SLOT_SIZE);
    assert s[o..j] == sector[o..j];
  }

  /** Saving keeps the sector in the firmware's own state. */
  lemma SaveKeepsSectorOk(sector: seq<byte>, slot: nat, text: seq<Char8>)
    requires SectorOk(sector) && slot < PRESET_COUNT && NoNul(text)
    ensures SectorOk(SavedSector(sector, slot, text))
  {
    var s := SavedSector(sector, slot, text);
    forall other: byte | other as nat < PRESET_COUNT && !IsSlotEmpty(s, other)
      ensures SlotTerminated(s, other as nat)
    {
      if other as nat == slot {
        SavedSlotReadsBack(sector, slot, text);
      } else {
        SaveKeepsOtherSlots(sector, slot, text, other);
      }
    }
  }
}
