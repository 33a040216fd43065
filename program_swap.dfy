// The two-slot program buffer shared by the main loop and the audio timer:
// the loop compiles the expression into the slot the audio callback is not
// reading and then publishes it by swapping the active pointer; the
// callback runs the active program at the sample counter, advances the
// counter and turns the low byte of the result into the PWM level.

module ProgramSwap {
  import opened RpnTypes
  import opened RpnVm
  import opened RpnCompilerSpec
  import RpnCompiler

  /** struct ProgramBuffer: a program array and the number of instructions in use. */
  class ProgramBuffer {
    const program: array<Instr>
    var length: nat

    constructor()
      ensures fresh(program) && program.Length == RPN_PROGRAM_SIZE && length == 0
    {
      program := new Instr[RPN_PROGRAM_SIZE](_ => Instr(RPN_PUSH_T, 0));
      length := 0;
    }
  }

  /** What gets published for a compile result: the program, or nothing when compiling failed. */
  function Published(r: Outcome<seq<Instr>>): (p: seq<Instr>)
    ensures r.Ok? ==> p == r.value
    ensures r.Fail? ==> p == []
  {
    if r.Ok? then r.value else []
  }

  /** A failed compile publishes the empty program, which plays silence (0) at every t. */
  lemma FailedCompileIsSilent(r: Outcome<seq<Instr>>, t: bv32, ws: WideShifts)
    requires r.Fail?
    ensures Evaluate(Published(r), t, ws) == 0
  {
  }

  /**
   * The PWM level audio_cb writes for a VM result: the low byte is flipped
   * around 0x80, cast to int8 (two's complement on the target) and shifted
   * back up by 128 into a uint8.
   */
  function PwmLevel(result: bv32): (level: byte)
    ensures level as int == (result & 0xFF) as int
  {
    var flipped := ((result & 0xFF) ^ 0x80) as int;
    var s := if flipped >= 128 then flipped - 256 else flipped;
    (s + 128) as byte
  }

  /** The uint32 increment of the sample counter, which wraps to 0 after 2^32 - 1. */
  function Tick(t: bv32): (next: bv32)
    ensures next - t == 1
    ensures t < 0xFFFF_FFFF ==> t < next
    ensures t == 0xFFFF_FFFF ==> next == 0
  {
    t + 1
  }

  /** The buffers, the active pointer and t_audio. */
  class Player {
    const buffer0: ProgramBuffer
    const buffer1: ProgramBuffer
    /** active_program: always one of the two buffers. */
    var activeProgram: ProgramBuffer
    /** t_audio: the sample counter, a uint32. */
    var tAudio: bv32

    ghost predicate Valid()
      reads this, buffer0, buffer1
    {
      buffer0 != buffer1 && buffer0.program != buffer1.program &&
      buffer0.program.Length == RPN_PROGRAM_SIZE && buffer1.program.Length == RPN_PROGRAM_SIZE &&
      buffer0.length <= RPN_PROGRAM_SIZE && buffer1.length <= RPN_PROGRAM_SIZE &&
      (activeProgram == buffer0 || activeProgram == buffer1)
    }

    /** The buffer the audio callback is not reading. */
    function Inactive(): ProgramBuffer
      reads this
    {
      if activeProgram == buffer0 then buffer1 else buffer0
    }

    /** The program the audio callback runs. */
    ghost function Active(): seq<Instr>
      reads this, buffer0, buffer1, buffer0.program, buffer1.program
      requires Valid()
    {
      activeProgram.program[..activeProgram.length]
    }

    /** The program in the other buffer. */
    ghost function Standby(): seq<Instr>
      reads this, buffer0, buffer1, buffer0.program, buffer1.program
      requires Valid()
    {
      Inactive().program[..Inactive().length]
    }

    /** Both buffers empty, buffer 0 active and the counter at 0, as at boot. */
    constructor()
      ensures Valid() && activeProgram == buffer0 && Active() == [] && Standby() == [] && tAudio == 0
    {
      buffer0 := new ProgramBuffer();
      buffer1 := new ProgramBuffer();
      activeProgram := buffer0;
      tAudio := 0;
    }

    /**
     * audio_cb: one sample.  Runs the active program at the counter, advances
     * the counter by one modulo 2^32, and returns the PWM level, which is the
     * low byte of the program's result.
     */
    method AudioCallback(ws: WideShifts) returns (level: byte)
      requires Valid()
      modifies this
      ensures Valid() && activeProgram == old(activeProgram)
      ensures tAudio == Tick(old(tAudio))
      ensures level as int == (Evaluate(old(Active()), old(tAudio), ws) & 0xFF) as int
    {
      ghost var program := Active();
      var prog := activeProgram;
      var tval := tAudio;
      var result := ExecuteRPN(tval, prog.program, prog.length, ws);
      assert result == Evaluate(program, tval, ws);
      tAudio := Tick(tval);
      level := PwmLevel(result);
    }

    /**
     * The compiling half of the recompile step: the text is compiled into the
     * buffer the audio callback is not reading, whose length becomes the
     * program's, or 0 when compiling failed.  The active buffer is untouched.
     */
    method CompileIntoInactive(src: seq<char>)
      requires Valid()
      modifies buffer0, buffer1, buffer0.program, buffer1.program
      ensures Valid() && activeProgram == old(activeProgram)
      ensures Active() == old(Active()) && Standby() == Published(Compile(src))
    {
      var current := activeProgram;
      var next := if current == buffer0 then buffer1 else buffer0;
      var len, err := RpnCompiler.CompileToRPN(src, next.program);
      next.length := if err == ErrNone then len else 0;
    }

    /** The atomic pointer swap: the inactive buffer becomes the active one. */
    method Publish()
      requires Valid()
      modifies this
      ensures Valid() && tAudio == old(tAudio)
      ensures activeProgram == old(Inactive()) && Inactive() == old(activeProgram)
      ensures Active() == old(Standby()) && Standby() == old(Active())
    {
      activeProgram := if activeProgram == buffer0 then buffer1 else buffer0;
    }
  }
}
