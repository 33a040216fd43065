// One pass of core1_main, the firmware's editing loop: poll the serial
// console, read the keyboard, run the key-repeat state machine, and, once
// no key is held, recompile a changed expression and publish it to the
// audio callback.  Scanning the matrix, the clock and the serial read are
// inputs of the pass; the display refresh is not modelled.

module MainLoop {
  import opened RpnTypes
  import opened Keyboard
  import opened RpnCompilerSpec
  import EditorSpec
  import Firmware
  import KeyRepeat
  import SerialLine
  import ProgramSwap

  /**
   * The recompile step for the key k seen on this pass: with no key held and
   * a recompile pending, the expression is compiled into the inactive buffer
   * (an empty program when compiling failed), the counter restarts if a
   * reset was asked for, the new buffer is published, and the pending flags
   * are cleared.  Otherwise nothing changes.
   */
  method Recompile(dev: Firmware.Device, player: ProgramSwap.Player, k: byte)
    requires dev.Valid() && player.Valid()
    modifies dev, player, player.buffer0, player.buffer1, player.buffer0.program, player.buffer1.program
    ensures dev.Valid() && player.Valid()
    ensures !(k == NO_KEY && old(dev.needsRecompile)) ==>
      dev.State() == old(dev.State()) && player.tAudio == old(player.tAudio) &&
      player.activeProgram == old(player.activeProgram) &&
      player.Active() == old(player.Active()) && player.Standby() == old(player.Standby())
    ensures k == NO_KEY && old(dev.needsRecompile) ==>
      player.activeProgram == old(player.Inactive()) && player.Standby() == old(player.Active()) &&
      player.Active() == ProgramSwap.Published(Compile(old(dev.textBuffer[..]))) &&
      player.tAudio == (if old(dev.needsResetT) then 0 else old(player.tAudio)) &&
      dev.State() == old(dev.State()).(needsRecompile := false, needsResetT := false, oledDirty := true)
  {
    if k == NO_KEY && dev.needsRecompile {
      SwapIn(dev, player);
    }
  }

  /** The body of the recompile step, run when a recompile is pending. */
  method SwapIn(dev: Firmware.Device, player: ProgramSwap.Player)
    requires dev.Valid() && player.Valid() && dev.needsRecompile
    modifies dev, player, player.buffer0, player.buffer1, player.buffer0.program, player.buffer1.program
    ensures dev.Valid() && player.Valid()
    ensures player.activeProgram == old(player.Inactive()) && player.Standby() == old(player.Active())
    ensures player.Active() == ProgramSwap.Published(Compile(old(dev.textBuffer[..])))
    ensures player.tAudio == (if old(dev.needsResetT) then 0 else old(player.tAudio))
    ensures dev.State() == old(dev.State()).(needsRecompile := false, needsResetT := false, oledDirty := true)
  {
    ghost var e := dev.State();
    player.CompileIntoInactive(dev.textBuffer[..]);
    assert dev.State() == e;
    if dev.needsResetT {
      player.tAudio := 0;
      dev.needsResetT := false;
    }
    player.Publish();
    dev.needsRecompile := false;
    dev.oledDirty := true;
  }

  /**
   * The editor after the key-repeat half of a pass that saw key k: the key's
   * action has run when the repeat machine fires, and nothing changed otherwise.
   */
  ghost function KeyEdited(e: EditorSpec.Editor, r: KeyRepeat.Repeat, k: byte, now: KeyRepeat.u32): (e': EditorSpec.Editor)
    requires EditorSpec.Wf(e)
    ensures EditorSpec.Wf(e')
    ensures !KeyRepeat.Step(r, k, now).1 ==> e' == e
    ensures k == NO_KEY ==> e' == e
  {
    if KeyRepeat.Step(r, k, now).1 then KeyRepeat.RunAction(e, ResolveAction(e.mode, k)) else e
  }

  /**
   * One pass of core1_main: c is the serial read, keyStates the scanned
   * matrix and now the clock.  Returns the command line handed to the
   * command interpreter, if any.  The key step and the recompile step are
   * those of KeyStep.
   */
  method Pass(dev: Firmware.Device, keys: KeyRepeat.KeyRepeater, player: ProgramSwap.Player,
              console: SerialLine.Console, connected: bool, c: int, keyStates: array<byte>, now: KeyRepeat.u32)
    returns (cmd: SerialLine.Option<seq<char>>)
    requires dev.Valid() && player.Valid() && console.Valid() && c < 256 && keyStates.Length == KEY_COUNT
    modifies dev, dev.textBuffer, keys, player, player.buffer0, player.buffer1, player.buffer0.program, player.buffer1.program
    modifies console, console.cmdBuffer
    ensures dev.Valid() && player.Valid() && console.Valid()
    ensures (console.Line(), cmd) == SerialLine.Feed(old(console.Line()), connected, c)
    ensures keys.State() == KeyRepeat.Step(old(keys.State()), LowestPressed(keyStates[..]), now).0
    ensures var e := KeyEdited(old(dev.State()), old(keys.State()), LowestPressed(keyStates[..]), now);
      !(LowestPressed(keyStates[..]) == NO_KEY && e.needsRecompile) ==>
        dev.State() == e && player.tAudio == old(player.tAudio) &&
        player.activeProgram == old(player.activeProgram) &&
        player.Active() == old(player.Active()) && player.Standby() == old(player.Standby())
    ensures var e := KeyEdited(old(dev.State()), old(keys.State()), LowestPressed(keyStates[..]), now);
      LowestPressed(keyStates[..]) == NO_KEY && e.needsRecompile ==>
        player.activeProgram == old(player.Inactive()) && player.Standby() == old(player.Active()) &&
        player.Active() == ProgramSwap.Published(Compile(e.textBuffer)) &&
        player.tAudio == (if e.needsResetT then 0 else old(player.tAudio)) &&
        dev.State() == e.(needsRecompile := false, needsResetT := false, oledDirty := true)
    ensures (exists j: byte :: IsKeyPressed(keyStates[..], j)) ==>
      player.activeProgram == old(player.activeProgram) && player.Active() == old(player.Active())
    ensures (forall j: byte :: !IsKeyPressed(keyStates[..], j)) ==> !dev.needsRecompile
  {
    cmd := console.Poll(connected, c);
    ghost var polled := (console.Line(), cmd);
    KeyStep(dev, keys, player, keyStates, now);
    assert (console.Line(), cmd) == polled;
  }

  /**
   * The keyboard half of a pass: read the matrix, run the repeat machine
   * (which may run the held key's action), then the recompile step, which
   * acts only when no key is held.
   */
  method KeyStep(dev: Firmware.Device, keys: KeyRepeat.KeyRepeater, player: ProgramSwap.Player,
                 keyStates: array<byte>, now: KeyRepeat.u32)
    requires dev.Valid() && player.Valid() && keyStates.Length == KEY_COUNT
    modifies dev, dev.textBuffer, keys, player, player.buffer0, player.buffer1, player.buffer0.program, player.buffer1.program
    ensures dev.Valid() && player.Valid()
    ensures keys.State() == KeyRepeat.Step(old(keys.State()), LowestPressed(keyStates[..]), now).0
    ensures var e := KeyEdited(old(dev.State()), old(keys.State()), LowestPressed(keyStates[..]), now);
      !(LowestPressed(keyStates[..]) == NO_KEY && e.needsRecompile) ==>
        dev.State() == e && player.tAudio == old(player.tAudio) &&
        player.activeProgram == old(player.activeProgram) &&
        player.Active() == old(player.Active()) && player.Standby() == old(player.Standby())
    ensures var e := KeyEdited(old(dev.State()), old(keys.State()), LowestPressed(keyStates[..]), now);
      LowestPressed(keyStates[..]) == NO_KEY && e.needsRecompile ==>
        player.activeProgram == old(player.Inactive()) && player.Standby() == old(player.Active()) &&
        player.Active() == ProgramSwap.Published(Compile(e.textBuffer)) &&
        player.tAudio == (if e.needsResetT then 0 else old(player.tAudio)) &&
        dev.State() == e.(needsRecompile := false, needsResetT := false, oledDirty := true)
    ensures (exists j: byte :: IsKeyPressed(keyStates[..], j)) ==>
      player.activeProgram == old(player.activeProgram) && player.Active() == old(player.Active())
    ensures (forall j: byte :: !IsKeyPressed(keyStates[..], j)) ==> !dev.needsRecompile
  {
    var k := ReadKeys(dev, keys, keyStates, now);
    Recompile(dev, player, k);
    if k != NO_KEY {
      assert IsKeyPressed(keyStates[..], k);
    }
  }

  /** Reads the matrix and runs the repeat machine on the lowest pressed key, returning that key. */
  method ReadKeys(dev: Firmware.Device, keys: KeyRepeat.KeyRepeater, keyStates: array<byte>, now: KeyRepeat.u32)
    returns (k: byte)
    requires dev.Valid() && keyStates.Length == KEY_COUNT
    modifies dev, dev.textBuffer, keys
    ensures dev.Valid()
    ensures k == LowestPressed(keyStates[..])
    ensures keys.State() == KeyRepeat.Step(old(keys.State()), k, now).0
    ensures dev.State() == KeyEdited(old(dev.State()), old(keys.State()), k, now)
  {
    k := GetPressedKey(keyStates);
    var acted := keys.Pass(dev, k, now);
  }
}
