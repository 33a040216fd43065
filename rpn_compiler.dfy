// compileToRPN as the C writes it: a scanning loop over the text with an
// operator stack array of 64 entries, writing instructions into the caller's
// 32-slot program array.  Every method here is proved to compute the
// corresponding function of RpnCompilerSpec.

module RpnCompiler {
  import opened RpnTypes
  import opened RpnCompilerSpec

  /**
   * Reads the numeric literal whose first digit is src[i] (the three digit
   * loops of the compiler).  ok is false exactly for a `0x`/`0b` prefix with
   * no digit after it.
   */
  method ScanNumber(src: seq<char>, i: nat) returns (ok: bool, j: nat, num: bv32)
    requires i < |src| && IsDigit(src[i])
    ensures var r := NumberAt(src, i);
      ok == r.Ok? && (ok ==> (j, num) == r.value)
  {
    if src[i] == '0' && i + 2 < TEXT_BUFFER_SIZE {
      var next := At(src, i + 1);
      if next == 'x' || next == 'X' {
        if !IsHexDigit(At(src, i + 2)) {
          return false, 0, 0;
        }
        j, num := ScanHex(src, i + 2);
        return true, j, num;
      } else if next == 'b' || next == 'B' {
        if !IsBinaryDigit(At(src, i + 2)) {
          return false, 0, 0;
        }
        j, num := ScanBinary(src, i + 2);
        return true, j, num;
      }
    }
    j, num := ScanDecimal(src, i);
    ok := true;
  }

  /** The hex digit loop: `num = (num << 4) | digit` while a hex digit follows. */
  method ScanHex(src: seq<char>, i: nat) returns (j: nat, num: bv32)
    requires i < |src| && IsHexDigit(src[i])
    ensures HexAt(src, i) == Ok((j, num))
  {
    var n: nat := 0;
    j := i;
    while j < |src| && IsHexDigit(src[j])
      invariant i <= j <= |src| && n < U32_MODULUS
      invariant HexDigits(src, j, n) == HexDigits(src, i, 0)
      decreases |src| - j
    {
      HexDigitsStep(src, j, n);
      n := (n * 16 + HexValue(src[j])) % 0x1_0000_0000;
      j := j + 1;
    }
    num := n as bv32;
  }

  /** The binary digit loop: `num = (num << 1) | bit` while a 0 or 1 follows. */
  method ScanBinary(src: seq<char>, i: nat) returns (j: nat, num: bv32)
    requires i < |src| && IsBinaryDigit(src[i])
    ensures BinaryAt(src, i) == Ok((j, num))
  {
    var n: nat := 0;
    j := i;
    while j < |src| && IsBinaryDigit(src[j])
      invariant i <= j <= |src| && n < U32_MODULUS
      invariant BinDigits(src, j, n) == BinDigits(src, i, 0)
      decreases |src| - j
    {
      BinDigitsStep(src, j, n);
      n := (n * 2 + BitValue(src[j])) % 0x1_0000_0000;
      j := j + 1;
    }
    num := n as bv32;
  }

  /** The decimal digit loop: `num = num * 10 + digit` while a digit follows. */
  method ScanDecimal(src: seq<char>, i: nat) returns (j: nat, num: bv32)
    requires i < |src| && IsDigit(src[i])
    ensures DecimalAt(src, i) == Ok((j, num))
  {
    var n: nat := 0;
    j := i;
    while j < |src| && IsDigit(src[j])
      invariant i <= j <= |src| && n < U32_MODULUS
      invariant DecDigits(src, j, n) == DecDigits(src, i, 0)
      decreases |src| - j
    {
      DecDigitsStep(src, j, n);
      n := (n * 10 + DecValue(src[j])) % 0x1_0000_0000;
      j := j + 1;
    }
    num := n as bv32;
  }

  /** The `)` loop: pops and emits operators down to the nearest open parenthesis. */
  method EmitUntilParen(dst: array<Instr>, len0: nat, opStack: array<Pending>, top0: nat)
    returns (ok: bool, len: nat, top: nat)
    requires dst.Length == RPN_PROGRAM_SIZE && len0 <= RPN_PROGRAM_SIZE && top0 <= opStack.Length
    modifies dst
    ensures var r := PopToParen(old(dst[..len0]), opStack[..top0]);
      ok == r.Ok? &&
      (ok ==> len <= RPN_PROGRAM_SIZE && top <= top0 && dst[..len] == r.value.0 && opStack[..top] == r.value.1)
  {
    len, top := len0, top0;
    while top > 0 && opStack[top - 1] != OpenParen
      invariant len <= RPN_PROGRAM_SIZE && top <= top0
      invariant PopToParen(dst[..len], opStack[..top]) == PopToParen(old(dst[..len0]), opStack[..top0])
      decreases top
    {
      if len >= RPN_PROGRAM_SIZE {
        return false, 0, 0;
      }
      ghost var out := dst[..len];
      assert opStack[..top][..top - 1] == opStack[..top - 1];
      top := top - 1;
      dst[len] := Instr(PendingCode(opStack[top]), 0);
      len := len + 1;
      assert dst[..len] == out + [Instr(PendingCode(opStack[top]), 0)];
    }
    ok := true;
  }

  /** The operator loop: pops and emits every operator that binds at least as tightly as the incoming one. */
  method EmitWhileBinding(dst: array<Instr>, len0: nat, opStack: array<Pending>, top0: nat, prec: nat, rightAssoc: bool)
    returns (ok: bool, len: nat, top: nat)
    requires dst.Length == RPN_PROGRAM_SIZE && len0 <= RPN_PROGRAM_SIZE && top0 <= opStack.Length
    modifies dst
    ensures var r := PopWhile(old(dst[..len0]), opStack[..top0], prec, rightAssoc);
      ok == r.Ok? &&
      (ok ==> len <= RPN_PROGRAM_SIZE && top <= top0 && dst[..len] == r.value.0 && opStack[..top] == r.value.1)
  {
    len, top := len0, top0;
    while top > 0 && opStack[top - 1] != OpenParen &&
          (if rightAssoc then prec < Precedence(opStack[top - 1].code) else prec <= Precedence(opStack[top - 1].code))
      invariant len <= RPN_PROGRAM_SIZE && top <= top0
      invariant PopWhile(dst[..len], opStack[..top], prec, rightAssoc)
             == PopWhile(old(dst[..len0]), opStack[..top0], prec, rightAssoc)
      decreases top
    {
      if len >= RPN_PROGRAM_SIZE {
        return false, 0, 0;
      }
      ghost var out := dst[..len];
      assert opStack[..top][..top - 1] == opStack[..top - 1];
      top := top - 1;
      dst[len] := Instr(PendingCode(opStack[top]), 0);
      len := len + 1;
      assert dst[..len] == out + [Instr(PendingCode(opStack[top]), 0)];
    }
    ok := true;
  }

  /** The final loop: pops and emits everything left on the operator stack. */
  method EmitRemaining(dst: array<Instr>, len0: nat, opStack: array<Pending>, top0: nat)
    returns (ok: bool, len: nat)
    requires dst.Length == RPN_PROGRAM_SIZE && len0 <= RPN_PROGRAM_SIZE && top0 <= opStack.Length
    modifies dst
    ensures var r := PopAll(old(dst[..len0]), opStack[..top0]);
      ok == r.Ok? && (ok ==> len <= RPN_PROGRAM_SIZE && dst[..len] == r.value)
  {
    len := len0;
    var top: nat := top0;
    while top > 0
      invariant len <= RPN_PROGRAM_SIZE && top <= top0
      invariant PopAll(dst[..len], opStack[..top]) == PopAll(old(dst[..len0]), opStack[..top0])
      decreases top
    {
      if len >= RPN_PROGRAM_SIZE {
        return false, 0;
      }
      ghost var out := dst[..len];
      assert opStack[..top][..top - 1] == opStack[..top - 1];
      top := top - 1;
      dst[len] := Instr(PendingCode(opStack[top]), 0);
      len := len + 1;
      assert dst[..len] == out + [Instr(PendingCode(opStack[top]), 0)];
    }
    ok := true;
  }

  /**
   * One pass of the scanning loop at the character src[i]: err is ErrNone
   * and the outputs are the next state, or err is the error that ends the
   * compilation.
   */
  method CompileStep(src: seq<char>, dst: array<Instr>, opStack: array<Pending>,
                     i: nat, len: nat, top: nat, parens: nat, expectOperand: bool)
    returns (err: CompileError, i': nat, len': nat, top': nat, parens': nat, operand': bool)
    requires i < |src|
    requires dst.Length == RPN_PROGRAM_SIZE && len <= RPN_PROGRAM_SIZE
    requires opStack.Length == MAX_OP_STACK_SIZE && top <= MAX_OP_STACK_SIZE
    modifies dst, opStack
    ensures len' <= RPN_PROGRAM_SIZE && top' <= MAX_OP_STACK_SIZE
    ensures var r := Step(src, Scan(i, old(dst[..len]), old(opStack[..top]), parens, expectOperand));
      (r.Ok? <==> err == ErrNone) &&
      (r.Fail? ==> err == r.error) &&
      (r.Ok? ==> r.value == Scan(i', dst[..len'], opStack[..top'], parens', operand'))
  {
    ghost var st := Scan(i, dst[..len], opStack[..top], parens, expectOperand);
    i', len', top', parens', operand' := i, len, top, parens, expectOperand;
    var c := src[i];
    if len >= RPN_PROGRAM_SIZE {
      err := ErrProgramTooLong;
      return;
    }
    err := ErrNone;

    if c == ' ' {
      i' := i + 1;
    } else if IsDigit(c) {
      err, i', len' := CompileNumber(src, dst, i, len, st.ops, parens, expectOperand);
      operand' := false;
      assert Step(src, st) == NumberStep(src, st);
    } else if c == 't' {
      if !expectOperand {
        err := ErrToken;
        return;
      }
      dst[len] := Instr(RPN_PUSH_T, 0);
      len' := len + 1;
      assert dst[..len'] == st.out + [Instr(RPN_PUSH_T, 0)];
      operand' := false;
      i' := i + 1;
    } else if c == '(' {
      if !expectOperand {
        err := ErrToken;
        return;
      }
      if top >= MAX_OP_STACK_SIZE {
        err := ErrProgramTooLong;
        return;
      }
      opStack[top] := OpenParen;
      top' := top + 1;
      assert opStack[..top'] == st.ops + [OpenParen];
      parens' := parens + 1;
      i' := i + 1;
    } else if c == ')' {
      err, len', top' := CompileClose(dst, opStack, i, len, top, parens, expectOperand);
      assert Step(src, st) == CloseStep(st);
      parens' := if parens > 0 then parens - 1 else 0;
      operand' := false;
      i' := i + 1;
    } else if c == '+' && expectOperand {
      // unary plus: skipped
      i' := i + 1;
    } else {
      err, i', len', top', operand' := CompileOperator(src, dst, opStack, i, len, top, parens, expectOperand);
    }
  }

  /** A numeric literal: checked against the expected token kind, read, and pushed. */
  method CompileNumber(src: seq<char>, dst: array<Instr>, i: nat, len: nat,
                       ghost ops: seq<Pending>, ghost parens: nat, expectOperand: bool)
    returns (err: CompileError, i': nat, len': nat)
    requires i < |src| && IsDigit(src[i])
    requires dst.Length == RPN_PROGRAM_SIZE && len < RPN_PROGRAM_SIZE
    modifies dst
    ensures len' <= RPN_PROGRAM_SIZE
    ensures var r := NumberStep(src, Scan(i, old(dst[..len]), ops, parens, expectOperand));
      (r.Ok? <==> err == ErrNone) &&
      (r.Fail? ==> err == r.error) &&
      (r.Ok? ==> r.value == Scan(i', dst[..len'], ops, parens, false))
  {
    ghost var out := dst[..len];
    i', len' := i, len;
    if !expectOperand {
      return ErrToken, i', len';
    }
    var ok, j, num := ScanNumber(src, i);
    if !ok {
      return ErrToken, i', len';
    }
    dst[len] := Instr(RPN_PUSH_NUM, num);
    len' := len + 1;
    assert dst[..len'] == out + [Instr(RPN_PUSH_NUM, num)];
    return ErrNone, j, len';
  }

  /** A `)`: emits the operators above the matching `(` and drops it. */
  method CompileClose(dst: array<Instr>, opStack: array<Pending>, ghost i: nat, len: nat, top: nat, parens: nat, expectOperand: bool)
    returns (err: CompileError, len': nat, top': nat)
    requires dst.Length == RPN_PROGRAM_SIZE && len <= RPN_PROGRAM_SIZE
    requires opStack.Length == MAX_OP_STACK_SIZE && top <= MAX_OP_STACK_SIZE
    modifies dst
    ensures len' <= RPN_PROGRAM_SIZE && top' <= top
    ensures var r := CloseStep(Scan(i, old(dst[..len]), opStack[..top], parens, expectOperand));
      (r.Ok? <==> err == ErrNone) &&
      (r.Fail? ==> err == r.error) &&
      (r.Ok? ==> r.value == Scan(i + 1, dst[..len'], opStack[..top'], parens - 1, false))
  {
    len', top' := len, top;
    if expectOperand {
      return ErrParen, len', top';
    }
    if parens == 0 {
      return ErrToken, len', top';
    }
    var ok, l, t := EmitUntilParen(dst, len, opStack, top);
    if !ok {
      return ErrProgramTooLong, len', top';
    }
    len', top' := l, t;
    if top' > 0 {
      assert opStack[..top'][..top' - 1] == opStack[..top' - 1];
      top' := top' - 1;
    }
    err := ErrNone;
  }

  /** An operator: classified, earlier operators that bind as tightly emitted, then stacked. */
  method CompileOperator(src: seq<char>, dst: array<Instr>, opStack: array<Pending>,
                         i: nat, len: nat, top: nat, parens: nat, expectOperand: bool)
    returns (err: CompileError, i': nat, len': nat, top': nat, operand': bool)
    requires i < |src|
    requires dst.Length == RPN_PROGRAM_SIZE && len <= RPN_PROGRAM_SIZE
    requires opStack.Length == MAX_OP_STACK_SIZE && top <= MAX_OP_STACK_SIZE
    modifies dst, opStack
    ensures len' <= RPN_PROGRAM_SIZE && top' <= MAX_OP_STACK_SIZE
    ensures var r := OperatorStep(src, Scan(i, old(dst[..len]), old(opStack[..top]), parens, expectOperand));
      (r.Ok? <==> err == ErrNone) &&
      (r.Fail? ==> err == r.error) &&
      (r.Ok? ==> r.value == Scan(i', dst[..len'], opStack[..top'], parens, operand'))
  {
    i', len', top', operand' := i, len, top, expectOperand;
    ghost var st := Scan(i, dst[..len], opStack[..top], parens, expectOperand);
    var classified := OperatorAt(src[i], At(src, i + 1), expectOperand);
    if classified.Fail? {
      assert OperatorStep(src, st) == Fail(classified.error);
      return classified.error, i', len', top', operand';
    }
    var op := classified.value;
    if op.binary {
      if expectOperand {
        assert OperatorStep(src, st) == Fail(ErrToken);
        return ErrToken, i', len', top', operand';
      }
      operand' := true;
    }
    err, len', top' := StackOperator(dst, len, opStack, top, op);
    if err == ErrNone {
      i' := i + op.width;
    }
    assert err == ErrNone ==> OperatorStep(src, st) == Ok(Scan(i', dst[..len'], opStack[..top'], parens, operand'));
  }

  /** Emits the pending operators that bind at least as tightly as op, then stacks op. */
  method StackOperator(dst: array<Instr>, len: nat, opStack: array<Pending>, top: nat, op: OpInfo)
    returns (err: CompileError, len': nat, top': nat)
    requires dst.Length == RPN_PROGRAM_SIZE && len <= RPN_PROGRAM_SIZE
    requires opStack.Length == MAX_OP_STACK_SIZE && top <= MAX_OP_STACK_SIZE
    modifies dst, opStack
    ensures len' <= RPN_PROGRAM_SIZE && top' <= MAX_OP_STACK_SIZE
    ensures var r := PopWhile(old(dst[..len]), old(opStack[..top]), Precedence(op.code), op.rightAssoc);
      err == (if r.Fail? then r.error else if |r.value.1| >= MAX_OP_STACK_SIZE then ErrProgramTooLong else ErrNone) &&
      (err == ErrNone ==> dst[..len'] == r.value.0 && opStack[..top'] == r.value.1 + [Op(op.code)])
  {
    var ok, l, t := EmitWhileBinding(dst, len, opStack, top, Precedence(op.code), op.rightAssoc);
    len', top' := len, top;
    if !ok {
      return ErrProgramTooLong, len', top';
    }
    if t >= MAX_OP_STACK_SIZE {
      return ErrProgramTooLong, len', top';
    }
    len', top' := l, t;
    ghost var ops := opStack[..top'];
    opStack[top'] := Op(op.code);
    top' := top' + 1;
    assert opStack[..top'] == ops + [Op(op.code)];
    err := ErrNone;
  }

  /**
   * compileToRPN: compiles the text src into dst.  On success it returns the
   * program length and ErrNone and dst[..n] holds the program; on failure it
   * returns 0 and the error (dst may hold a partial program).
   */
  method CompileToRPN(src: seq<char>, dst: array<Instr>) returns (n: nat, err: CompileError)
    requires dst.Length == RPN_PROGRAM_SIZE
    modifies dst
    ensures n <= RPN_PROGRAM_SIZE
    ensures var r := Compile(src);
      (r.Ok? ==> err == ErrNone && n == |r.value| && dst[..n] == r.value) &&
      (r.Fail? ==> err == r.error && n == 0)
  {
    var opStack := new Pending[MAX_OP_STACK_SIZE];
    var len: nat := 0;
    var top: nat := 0;
    var parens: nat := 0;
    var expectOperand := true;
    var i: nat := 0;
    assert dst[..0] == [] && opStack[..0] == [];

    while At(src, i) != NUL
      invariant i <= |src| && len <= RPN_PROGRAM_SIZE && top <= MAX_OP_STACK_SIZE
      invariant CompileFrom(src, Scan(i, dst[..len], opStack[..top], parens, expectOperand)) == Compile(src)
      decreases |src| - i
    {
      var e;
      e, i, len, top, parens, expectOperand := CompileStep(src, dst, opStack, i, len, top, parens, expectOperand);
      if e != ErrNone {
        return 0, e;
      }
    }

    if expectOperand {
      return 0, ErrToken;
    }
    if parens > 0 {
      return 0, ErrParen;
    }
    var ok;
    ok, len := EmitRemaining(dst, len, opStack, top);
    if !ok {
      return 0, ErrProgramTooLong;
    }
    return len, ErrNone;
  }
}
