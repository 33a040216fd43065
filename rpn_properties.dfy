// What a successful compileToRPN guarantees about the program it produces:
// every operator finds its operands, exactly one value is left on the
// stack, only known opcodes appear, and the program fits its 32 slots.  The
// proof carries a shunting-yard invariant through every pass of the loop.
// Then, for a program that also stays within the VM's 8 stack slots, the
// interpreter drops nothing and returns the single value left.

module RpnProperties {
  import opened RpnTypes
  import opened RpnCompilerSpec
  import opened RpnVm

  // ------------------------------------------------------ the operator stack

  /** Number of binary operators waiting on the operator stack. */
  function BinCount(ops: seq<Pending>): nat
    decreases |ops|
  {
    if |ops| == 0 then 0
    else BinCount(ops[..|ops| - 1]) + (if ops[|ops| - 1].Op? && IsBinaryOpcode(ops[|ops| - 1].code) then 1 else 0)
  }

  /** Number of open parentheses on the operator stack. */
  function ParenCount(ops: seq<Pending>): nat
    decreases |ops|
  {
    if |ops| == 0 then 0
    else ParenCount(ops[..|ops| - 1]) + (if ops[|ops| - 1].OpenParen? then 1 else 0)
  }

  /** Every pending operator is one the compiler can emit. */
  predicate PendingOk(ops: seq<Pending>) {
    forall k :: 0 <= k < |ops| ==> ops[k].Op? ==> KnownOpcode(ops[k].code) && !IsPushOpcode(ops[k].code)
  }

  /**
   * The output so far is a well-formed program prefix whose height is the
   * number of pending binary operators plus `extra` (1 after an operand, 0
   * while an operand is awaited).
   */
  ghost predicate Shape(out: seq<Instr>, ops: seq<Pending>, extra: int) {
    |out| <= RPN_PROGRAM_SIZE && NoUnderflow(out) && KnownOpcodes(out) &&
    PendingOk(ops) && NetDepth(out) == BinCount(ops) + extra
  }

  /** The loop invariant of the compiler. */
  ghost predicate Inv(st: Scan) {
    Shape(st.out, st.ops, if st.expectOperand then 0 else 1) && st.parens == ParenCount(st.ops)
  }

  lemma InvStart()
    ensures Inv(START)
  {
  }

  // ------------------------------------------------------------ small facts

  lemma AppendInstr(out: seq<Instr>, ins: Instr)
    ensures NetDepth(out + [ins]) == NetDepth(out) + Effect(ins.opcode)
    ensures NoUnderflow(out + [ins]) <==> NoUnderflow(out) && NetDepth(out) >= Needs(ins.opcode)
    ensures KnownOpcodes(out + [ins]) <==> KnownOpcodes(out) && KnownOpcode(ins.opcode)
  {
    assert (out + [ins])[..|out|] == out;
  }

  lemma PushPending(ops: seq<Pending>, p: Pending)
    ensures BinCount(ops + [p]) == BinCount(ops) + (if p.Op? && IsBinaryOpcode(p.code) then 1 else 0)
    ensures ParenCount(ops + [p]) == ParenCount(ops) + (if p.OpenParen? then 1 else 0)
  {
    assert (ops + [p])[..|ops|] == ops;
  }

  /** Emitting the top pending operator keeps the shape of an operand-complete state. */
  lemma PopOne(out: seq<Instr>, ops: seq<Pending>)
    requires Shape(out, ops, 1) && |ops| > 0 && ops[|ops| - 1].Op? && |out| < RPN_PROGRAM_SIZE
    ensures Shape(out + [Instr(PendingCode(ops[|ops| - 1]), 0)], ops[..|ops| - 1], 1)
    ensures ParenCount(ops[..|ops| - 1]) == ParenCount(ops)
  {
    var code := ops[|ops| - 1].code;
    AppendInstr(out, Instr(code, 0));
    assert KnownOpcode(code) && !IsPushOpcode(code);
  }

  // ------------------------------------------------------------ the pops

  lemma {:induction false} PopWhileShape(out: seq<Instr>, ops: seq<Pending>, prec: nat, rightAssoc: bool)
    requires Shape(out, ops, 1)
    requires PopWhile(out, ops, prec, rightAssoc).Ok?
    ensures var r := PopWhile(out, ops, prec, rightAssoc).value;
      Shape(r.0, r.1, 1) && ParenCount(r.1) == ParenCount(ops)
    decreases |ops|
  {
    if |ops| > 0 && PopsOver(ops[|ops| - 1], prec, rightAssoc) {
      PopOne(out, ops);
      PopWhileShape(out + [Instr(PendingCode(ops[|ops| - 1]), 0)], ops[..|ops| - 1], prec, rightAssoc);
    }
  }

  /** A unary operator arriving (precedence 7, right-associative) never pops anything. */
  lemma PopWhileUnary(out: seq<Instr>, ops: seq<Pending>)
    ensures PopWhile(out, ops, 7, true) == Ok((out, ops))
  {
  }

  lemma {:induction false} PopToParenShape(out: seq<Instr>, ops: seq<Pending>)
    requires Shape(out, ops, 1)
    requires PopToParen(out, ops).Ok?
    ensures var r := PopToParen(out, ops).value;
      Shape(r.0, r.1, 1) && ParenCount(r.1) == ParenCount(ops) &&
      (ParenCount(ops) > 0 ==> |r.1| > 0 && r.1[|r.1| - 1] == OpenParen)
    decreases |ops|
  {
    if |ops| > 0 && ops[|ops| - 1] != OpenParen {
      PopOne(out, ops);
      PopToParenShape(out + [Instr(PendingCode(ops[|ops| - 1]), 0)], ops[..|ops| - 1]);
    }
  }

  lemma {:induction false} PopAllShape(out: seq<Instr>, ops: seq<Pending>)
    requires Shape(out, ops, 1) && ParenCount(ops) == 0
    requires PopAll(out, ops).Ok?
    ensures Shape(PopAll(out, ops).value, [], 1)
    decreases |ops|
  {
    if |ops| > 0 {
      PopOne(out, ops);
      PopAllShape(out + [Instr(PendingCode(ops[|ops| - 1]), 0)], ops[..|ops| - 1]);
    }
  }

  // ------------------------------------------------------ one pass of the loop

  /** Only in operand position does the operator switch produce a unary operator. */
  lemma UnaryOnlyInOperandPosition(c: char, next: char, expectOperand: bool)
    requires OperatorAt(c, next, expectOperand).Ok? && !OperatorAt(c, next, expectOperand).value.binary
    ensures expectOperand && Precedence(OperatorAt(c, next, expectOperand).value.code) == 7
  {
  }

  lemma StepKeepsInv(src: seq<char>, st: Scan)
    requires st.i < |src| && Inv(st)
    requires Step(src, st).Ok?
    ensures Inv(Step(src, st).value)
  {
    var c := src[st.i];
    if c == ' ' {
    } else if IsDigit(c) {
      NumberStepKeepsInv(src, st);
    } else if c == 't' {
      AppendInstr(st.out, Instr(RPN_PUSH_T, 0));
    } else if c == '(' {
      PushPending(st.ops, OpenParen);
    } else if c == ')' {
      CloseStepKeepsInv(st);
    } else if c == '+' && st.expectOperand {
    } else {
      OperatorStepKeepsInv(src, st);
    }
  }

  lemma NumberStepKeepsInv(src: seq<char>, st: Scan)
    requires st.i < |src| && IsDigit(src[st.i]) && |st.out| < RPN_PROGRAM_SIZE && Inv(st)
    requires NumberStep(src, st).Ok?
    ensures Inv(NumberStep(src, st).value)
  {
    var lit := NumberAt(src, st.i).value;
    AppendInstr(st.out, Instr(RPN_PUSH_NUM, lit.1));
  }

  lemma CloseStepKeepsInv(st: Scan)
    requires Inv(st) && CloseStep(st).Ok?
    ensures Inv(CloseStep(st).value)
  {
    PopToParenShape(st.out, st.ops);
    var p := PopToParen(st.out, st.ops).value;
    assert p.1 == p.1[..|p.1| - 1] + [OpenParen];
    PushPending(p.1[..|p.1| - 1], OpenParen);
  }

  lemma OperatorStepKeepsInv(src: seq<char>, st: Scan)
    requires st.i < |src| && Inv(st) && OperatorStep(src, st).Ok?
    ensures Inv(OperatorStep(src, st).value)
  {
    var c := src[st.i];
    var op := OperatorAt(c, At(src, st.i + 1), st.expectOperand).value;
    OperatorStepValue(src, st, op);
    if op.binary {
      BinaryPushKeepsInv(st, op, OperatorStep(src, st).value);
    } else {
      UnaryOnlyInOperandPosition(c, At(src, st.i + 1), st.expectOperand);
      UnaryPushKeepsInv(st, op, OperatorStep(src, st).value);
    }
  }

  /** After an operand, a binary operator pops what binds at least as tightly and is pushed. */
  lemma BinaryPushKeepsInv(st: Scan, op: OpInfo, next: Scan)
    requires Inv(st) && !st.expectOperand && IsBinaryOpcode(op.code) && op.code != RPN_NE
    requires PopWhile(st.out, st.ops, Precedence(op.code), op.rightAssoc).Ok?
    requires var p := PopWhile(st.out, st.ops, Precedence(op.code), op.rightAssoc).value;
      next == Scan(next.i, p.0, p.1 + [Op(op.code)], st.parens, true)
    ensures Inv(next)
  {
    PopWhileShape(st.out, st.ops, Precedence(op.code), op.rightAssoc);
    var p := PopWhile(st.out, st.ops, Precedence(op.code), op.rightAssoc).value;
    PushOperator(p.0, p.1, op.code, 1);
  }

  /** Where an operand is awaited, a unary operator pops nothing and is pushed. */
  lemma UnaryPushKeepsInv(st: Scan, op: OpInfo, next: Scan)
    requires Inv(st) && st.expectOperand && IsUnaryOpcode(op.code) && Precedence(op.code) == 7 && op.rightAssoc
    requires next == Scan(next.i, st.out, st.ops + [Op(op.code)], st.parens, true)
    ensures Inv(next)
  {
    PushOperator(st.out, st.ops, op.code, 0);
  }

  /** A successful operator step pops, then pushes the operator, and then awaits an operand. */
  lemma OperatorStepValue(src: seq<char>, st: Scan, op: OpInfo)
    requires st.i < |src| && OperatorStep(src, st).Ok?
    requires OperatorAt(src[st.i], At(src, st.i + 1), st.expectOperand) == Ok(op)
    ensures PopWhile(st.out, st.ops, Precedence(op.code), op.rightAssoc).Ok?
    ensures var p := PopWhile(st.out, st.ops, Precedence(op.code), op.rightAssoc).value;
      OperatorStep(src, st).value == Scan(st.i + op.width, p.0, p.1 + [Op(op.code)], st.parens, true)
  {
  }

  /** Pushing an operator on the stack: a binary one takes one from the height still owed. */
  lemma PushOperator(out: seq<Instr>, ops: seq<Pending>, code: byte, extra: int)
    requires Shape(out, ops, extra) && code != RPN_NE && (IsBinaryOpcode(code) || IsUnaryOpcode(code))
    ensures Shape(out, ops + [Op(code)], if IsBinaryOpcode(code) then extra - 1 else extra)
    ensures ParenCount(ops + [Op(code)]) == ParenCount(ops)
  {
    PushPending(ops, Op(code));
  }

  lemma {:induction false} CompileFromSound(src: seq<char>, st: Scan)
    requires st.i <= |src| && Inv(st)
    requires CompileFrom(src, st).Ok?
    ensures Shape(CompileFrom(src, st).value, [], 1)
    decreases |src| - st.i
  {
    if At(src, st.i) == NUL {
      PopAllShape(st.out, st.ops);
    } else {
      StepKeepsInv(src, st);
      CompileFromSound(src, Step(src, st).value);
    }
  }

  /**
   * A program compileToRPN accepts is well formed: 1 to 32 instructions of
   * known opcodes, every operator finds its operands, and it leaves exactly
   * one value.
   */
  lemma CompiledProgramWellFormed(src: seq<char>)
    requires Compile(src).Ok?
    ensures var prog := Compile(src).value;
      1 <= |prog| <= RPN_PROGRAM_SIZE && KnownOpcodes(prog) && NoUnderflow(prog) && NetDepth(prog) == 1
  {
    InvStart();
    CompileFromSound(src, START);
  }

  // ------------------------------------------------------------ the VM side

  /** The height of a program prefix never exceeds its peak. */
  lemma {:induction false} DepthBelowPeak(prog: seq<Instr>)
    ensures NetDepth(prog) <= PeakDepth(prog)
    ensures 0 <= PeakDepth(prog)
    ensures |prog| > 0 ==> PeakDepth(prog[..|prog| - 1]) <= PeakDepth(prog)
    decreases |prog|
  {
    if |prog| > 0 {
      DepthBelowPeak(prog[..|prog| - 1]);
    }
  }

  /**
   * When every operator finds its operands and the height stays within the
   * 8 slots, the VM's bounded stack agrees with the unbounded one: nothing
   * is dropped and the final height is NetDepth.
   */
  lemma {:induction false} RunMatchesDepth(prog: seq<Instr>, t: bv32, ws: WideShifts)
    requires NoUnderflow(prog) && PeakDepth(prog) <= RPN_STACK_SIZE
    ensures |Run(prog, t, ws)| == NetDepth(prog)
    decreases |prog|
  {
    if |prog| > 0 {
      var init := prog[..|prog| - 1];
      DepthBelowPeak(prog);
      RunMatchesDepth(init, t, ws);
      var op := prog[|prog| - 1].opcode;
      var s := Run(init, t, ws);
      if IsPushOpcode(op) {
        ApplyPush(s, prog[|prog| - 1], t, ws);
      } else if IsBinaryOpcode(op) {
        ApplyBinary(s, prog[|prog| - 1], t, ws);
      } else if IsUnaryOpcode(op) {
        ApplyUnary(s, prog[|prog| - 1], t, ws);
      } else {
        ApplyOther(s, prog[|prog| - 1], t, ws);
      }
    }
  }

  /**
   * A compiled program whose peak height fits the VM's stack ends with
   * exactly one value, the one executeRPN returns.
   */
  lemma CompiledProgramLeavesOneValue(src: seq<char>, t: bv32, ws: WideShifts)
    requires Compile(src).Ok? && PeakDepth(Compile(src).value) <= RPN_STACK_SIZE
    ensures var s := Run(Compile(src).value, t, ws);
      |s| == 1 && Evaluate(Compile(src).value, t, ws) == s[0]
  {
    CompiledProgramWellFormed(src);
    RunMatchesDepth(Compile(src).value, t, ws);
  }
}
