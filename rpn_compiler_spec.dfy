// The single-pass shunting-yard compiler of rpn_vm.c, written as functions.
// One call of Step is one pass of the C scanning loop; CompileFrom is the
// loop itself and Finish the code after it.  The imperative version in
// rpn_compiler.dfy is proved to compute exactly these functions.

module RpnCompilerSpec {
  import opened RpnTypes

  /** The character at position k of the text, or NUL past its end (the C text is NUL-terminated). */
  function At(src: seq<char>, k: nat): (c: char)
    ensures k < |src| ==> c == src[k]
    ensures k >= |src| ==> c == NUL
  {
    if k < |src| then src[k] else NUL
  }

  /** The compiler's working state between two passes of its scanning loop. */
  datatype Scan = Scan(i: nat, out: seq<Instr>, ops: seq<Pending>, parens: nat, expectOperand: bool)

  const START: Scan := Scan(0, [], [], 0, true)

  predicate AllowedError(e: CompileError) {
    e == ErrParen || e == ErrToken || e == ErrProgramTooLong
  }

  // ---------------------------------------------------------------- literals

  /** Value of a hex digit. */
  function HexValue(c: char): (d: nat)
    requires IsHexDigit(c)
    ensures d < 16
  {
    if '0' <= c <= '9' then c as int - '0' as int
    else if 'a' <= c <= 'f' then c as int - 'a' as int + 10
    else c as int - 'A' as int + 10
  }

  /** Value of a decimal digit. */
  function DecValue(c: char): (d: nat)
    requires IsDigit(c)
    ensures d < 10
  {
    c as int - '0' as int
  }

  predicate IsBinaryDigit(c: char) {
    c == '0' || c == '1'
  }

  /** Value of a binary digit (the C code's `c - '0'`). */
  function BitValue(c: char): (d: nat)
    requires IsBinaryDigit(c)
    ensures d < 2 && d == c as int - '0' as int
  {
    if c == '1' then 1 else 0
  }

  /**
   * Consumes hex digits from position i into the `uint32_t` accumulator num.
   * The C step `(num << 4) | digit` is written as the equal
   * `(num * 16 + digit) mod 2^32` (ShiftOrIsMulAdd).
   */
  function HexDigits(src: seq<char>, i: nat, num: nat): (r: (nat, nat))
    requires i <= |src| && num < U32_MODULUS
    ensures i <= r.0 <= |src| && r.1 < U32_MODULUS
    ensures forall k | i <= k < r.0 :: IsHexDigit(src[k])
    ensures r.0 == |src| || !IsHexDigit(src[r.0])
    decreases |src| - i
  {
    if i < |src| && IsHexDigit(src[i]) then HexDigits(src, i + 1, (num * 16 + HexValue(src[i])) % 0x1_0000_0000)
    else (i, num)
  }

  /** Consumes binary digits from position i; the C step `(num << 1) | bit` is `(num * 2 + bit) mod 2^32`. */
  function BinDigits(src: seq<char>, i: nat, num: nat): (r: (nat, nat))
    requires i <= |src| && num < U32_MODULUS
    ensures i <= r.0 <= |src| && r.1 < U32_MODULUS
    ensures forall k | i <= k < r.0 :: IsBinaryDigit(src[k])
    ensures r.0 == |src| || !IsBinaryDigit(src[r.0])
    decreases |src| - i
  {
    if i < |src| && IsBinaryDigit(src[i]) then BinDigits(src, i + 1, (num * 2 + BitValue(src[i])) % 0x1_0000_0000)
    else (i, num)
  }

  /** Consumes decimal digits from position i, accumulating `num * 10 + digit` with 32-bit wrap-around. */
  function DecDigits(src: seq<char>, i: nat, num: nat): (r: (nat, nat))
    requires i <= |src| && num < U32_MODULUS
    ensures i <= r.0 <= |src| && r.1 < U32_MODULUS
    ensures forall k | i <= k < r.0 :: IsDigit(src[k])
    ensures r.0 == |src| || !IsDigit(src[r.0])
    decreases |src| - i
  {
    if i < |src| && IsDigit(src[i]) then DecDigits(src, i + 1, (num * 10 + DecValue(src[i])) % 0x1_0000_0000)
    else (i, num)
  }

  /** On a `uint32_t`, shifting in a digit and or-ing it is a multiply-add with wrap-around. */
  lemma ShiftOrIsMulAdd(num: bv32, d: bv32)
    requires d < 16
    ensures (num << 4) | d == num * 16 + d
    ensures d < 2 ==> (num << 1) | d == num * 2 + d
  {
  }

  // Reference values of digit strings, read most significant digit first
  // (Horner's rule over unbounded naturals).

  function HexNumber(s: seq<char>): nat
  {
    if s == [] then 0
    else HexNumber(s[..|s| - 1]) * 16 + (if IsHexDigit(s[|s| - 1]) then HexValue(s[|s| - 1]) else 0)
  }

  function BinNumber(s: seq<char>): nat
  {
    if s == [] then 0
    else BinNumber(s[..|s| - 1]) * 2 + (if IsBinaryDigit(s[|s| - 1]) then BitValue(s[|s| - 1]) else 0)
  }

  function DecNumber(s: seq<char>): nat
  {
    if s == [] then 0
    else DecNumber(s[..|s| - 1]) * 10 + (if IsDigit(s[|s| - 1]) then DecValue(s[|s| - 1]) else 0)
  }

  /** Reducing the accumulator before a multiply-add step does not change the result modulo 2^32. */
  lemma MulAddMod(h: nat, v: nat, b: nat, d: nat)
    requires h == v * b + d
    ensures h % 0x1_0000_0000 == ((v % 0x1_0000_0000) * b + d) % 0x1_0000_0000
  {
    var q := v / 0x1_0000_0000;
    assert v == q * 0x1_0000_0000 + v % 0x1_0000_0000;
    assert h == (q * b) * 0x1_0000_0000 + ((v % 0x1_0000_0000) * b + d);
  }

  /** Horner's rule on a slice: the last digit of src[i..j] is the least significant. */
  lemma HexNumberLast(src: seq<char>, i: nat, j: nat)
    requires i < j <= |src| && IsHexDigit(src[j - 1])
    ensures HexNumber(src[i..j]) == HexNumber(src[i..j - 1]) * 16 + HexValue(src[j - 1])
  {
    assert src[i..j][..j - 1 - i] == src[i..j - 1];
  }

  /** One pass of the hex loop over a digit. */
  lemma HexDigitsStep(src: seq<char>, j: nat, num: nat)
    requires j < |src| && IsHexDigit(src[j]) && num < U32_MODULUS
    ensures HexDigits(src, j, num) == HexDigits(src, j + 1, (num * 16 + HexValue(src[j])) % 0x1_0000_0000)
  {
  }

  /** Consuming one more digit keeps the accumulator at the value of the digits so far, modulo 2^32. */
  lemma HexDigitsExtend(src: seq<char>, i: nat, j: nat)
    requires i < j <= |src| && IsHexDigit(src[j - 1])
    ensures HexDigits(src, j - 1, HexNumber(src[i..j - 1]) % 0x1_0000_0000) == HexDigits(src, j, HexNumber(src[i..j]) % 0x1_0000_0000)
  {
    var v, d := HexNumber(src[i..j - 1]), HexValue(src[j - 1]);
    HexNumberLast(src, i, j);
    MulAddMod(HexNumber(src[i..j]), v, 16, d);
    HexDigitsStep(src, j - 1, v % 0x1_0000_0000);
  }

  /** After consuming the digits src[i..j], the hex accumulator holds their value modulo 2^32. */
  lemma {:induction false} HexDigitsPrefix(src: seq<char>, i: nat, j: nat)
    requires i <= j <= |src| && forall k | i <= k < j :: IsHexDigit(src[k])
    ensures HexDigits(src, j, HexNumber(src[i..j]) % 0x1_0000_0000) == HexDigits(src, i, 0)
    decreases j - i
  {
    if j > i {
      HexDigitsPrefix(src, i, j - 1);
      HexDigitsExtend(src, i, j);
    } else {
      assert src[i..j] == [];
    }
  }

  lemma BinNumberLast(src: seq<char>, i: nat, j: nat)
    requires i < j <= |src| && IsBinaryDigit(src[j - 1])
    ensures BinNumber(src[i..j]) == BinNumber(src[i..j - 1]) * 2 + BitValue(src[j - 1])
  {
    assert src[i..j][..j - 1 - i] == src[i..j - 1];
  }

  lemma BinDigitsStep(src: seq<char>, j: nat, num: nat)
    requires j < |src| && IsBinaryDigit(src[j]) && num < U32_MODULUS
    ensures BinDigits(src, j, num) == BinDigits(src, j + 1, (num * 2 + BitValue(src[j])) % 0x1_0000_0000)
  {
  }

  lemma BinDigitsExtend(src: seq<char>, i: nat, j: nat)
    requires i < j <= |src| && IsBinaryDigit(src[j - 1])
    ensures BinDigits(src, j - 1, BinNumber(src[i..j - 1]) % 0x1_0000_0000) == BinDigits(src, j, BinNumber(src[i..j]) % 0x1_0000_0000)
  {
    var v, d := BinNumber(src[i..j - 1]), BitValue(src[j - 1]);
    BinNumberLast(src, i, j);
    MulAddMod(BinNumber(src[i..j]), v, 2, d);
    BinDigitsStep(src, j - 1, v % 0x1_0000_0000);
  }

  lemma {:induction false} BinDigitsPrefix(src: seq<char>, i: nat, j: nat)
    requires i <= j <= |src| && forall k | i <= k < j :: IsBinaryDigit(src[k])
    ensures BinDigits(src, j, BinNumber(src[i..j]) % 0x1_0000_0000) == BinDigits(src, i, 0)
    decreases j - i
  {
    if j > i {
      BinDigitsPrefix(src, i, j - 1);
      BinDigitsExtend(src, i, j);
    } else {
      assert src[i..j] == [];
    }
  }

  lemma DecNumberLast(src: seq<char>, i: nat, j: nat)
    requires i < j <= |src| && IsDigit(src[j - 1])
    ensures DecNumber(src[i..j]) == DecNumber(src[i..j - 1]) * 10 + DecValue(src[j - 1])
  {
    assert src[i..j][..j - 1 - i] == src[i..j - 1];
  }

  lemma DecDigitsStep(src: seq<char>, j: nat, num: nat)
    requires j < |src| && IsDigit(src[j]) && num < U32_MODULUS
    ensures DecDigits(src, j, num) == DecDigits(src, j + 1, (num * 10 + DecValue(src[j])) % 0x1_0000_0000)
  {
  }

  lemma DecDigitsExtend(src: seq<char>, i: nat, j: nat)
    requires i < j <= |src| && IsDigit(src[j - 1])
    ensures DecDigits(src, j - 1, DecNumber(src[i..j - 1]) % 0x1_0000_0000) == DecDigits(src, j, DecNumber(src[i..j]) % 0x1_0000_0000)
  {
    var v, d := DecNumber(src[i..j - 1]), DecValue(src[j - 1]);
    DecNumberLast(src, i, j);
    MulAddMod(DecNumber(src[i..j]), v, 10, d);
    DecDigitsStep(src, j - 1, v % 0x1_0000_0000);
  }

  lemma {:induction false} DecDigitsPrefix(src: seq<char>, i: nat, j: nat)
    requires i <= j <= |src| && forall k | i <= k < j :: IsDigit(src[k])
    ensures DecDigits(src, j, DecNumber(src[i..j]) % 0x1_0000_0000) == DecDigits(src, i, 0)
    decreases j - i
  {
    if j > i {
      DecDigitsPrefix(src, i, j - 1);
      DecDigitsExtend(src, i, j);
    } else {
      assert src[i..j] == [];
    }
  }

  /** The hex loop yields the value of the digits it consumed, wrapped to 32 bits. */
  lemma HexDigitsValue(src: seq<char>, i: nat)
    requires i <= |src|
    ensures var r := HexDigits(src, i, 0); r.1 == HexNumber(src[i..r.0]) % 0x1_0000_0000
  {
    var r := HexDigits(src, i, 0);
    HexDigitsPrefix(src, i, r.0);
  }

  lemma BinDigitsValue(src: seq<char>, i: nat)
    requires i <= |src|
    ensures var r := BinDigits(src, i, 0); r.1 == BinNumber(src[i..r.0]) % 0x1_0000_0000
  {
    var r := BinDigits(src, i, 0);
    BinDigitsPrefix(src, i, r.0);
  }

  lemma DecDigitsValue(src: seq<char>, i: nat)
    requires i <= |src|
    ensures var r := DecDigits(src, i, 0); r.1 == DecNumber(src[i..r.0]) % 0x1_0000_0000
  {
    var r := DecDigits(src, i, 0);
    DecDigitsPrefix(src, i, r.0);
  }

  /** A `0x`/`0X` prefix that the C bounds test `i + 2 < TEXT_BUFFER_SIZE` lets through. */
  predicate HexPrefixAt(src: seq<char>, i: nat)
    requires i < |src|
  {
    src[i] == '0' && i + 2 < TEXT_BUFFER_SIZE && (At(src, i + 1) == 'x' || At(src, i + 1) == 'X')
  }

  /** A `0b`/`0B` prefix that the bounds test lets through. */
  predicate BinPrefixAt(src: seq<char>, i: nat)
    requires i < |src|
  {
    src[i] == '0' && i + 2 < TEXT_BUFFER_SIZE && (At(src, i + 1) == 'b' || At(src, i + 1) == 'B')
  }

  /**
   * The numeric literal starting at the digit src[i]: its end position and
   * value, or ErrToken for a `0x`/`0b` prefix with no digit after it.
   */
  function NumberAt(src: seq<char>, i: nat): (r: Outcome<(nat, bv32)>)
    requires i < |src| && IsDigit(src[i])
    ensures r.Fail? <==>
      (HexPrefixAt(src, i) && !IsHexDigit(At(src, i + 2))) || (BinPrefixAt(src, i) && !IsBinaryDigit(At(src, i + 2)))
    ensures r.Fail? ==> r.error == ErrToken
    ensures r.Ok? ==> i < r.value.0 <= |src|
  {
    if src[i] == '0' && i + 2 < TEXT_BUFFER_SIZE then
      var next := At(src, i + 1);
      if next == 'x' || next == 'X' then
        if !IsHexDigit(At(src, i + 2)) then Fail(ErrToken) else HexAt(src, i + 2)
      else if next == 'b' || next == 'B' then
        if !IsBinaryDigit(At(src, i + 2)) then Fail(ErrToken) else BinaryAt(src, i + 2)
      else DecimalAt(src, i)
    else DecimalAt(src, i)
  }

  /** The value of a literal is that of the digits it consumed, in the radix its prefix names, wrapped to 32 bits. */
  lemma NumberAtValue(src: seq<char>, i: nat)
    requires i < |src| && IsDigit(src[i]) && NumberAt(src, i).Ok?
    ensures HexPrefixAt(src, i) ==>
      var j := NumberAt(src, i).value.0;
      i + 2 < j && (forall k | i + 2 <= k < j :: IsHexDigit(src[k])) &&
      NumberAt(src, i).value.1 == (HexNumber(src[i + 2..j]) % 0x1_0000_0000) as bv32
    ensures BinPrefixAt(src, i) ==>
      var j := NumberAt(src, i).value.0;
      i + 2 < j && (forall k | i + 2 <= k < j :: IsBinaryDigit(src[k])) &&
      NumberAt(src, i).value.1 == (BinNumber(src[i + 2..j]) % 0x1_0000_0000) as bv32
    ensures !HexPrefixAt(src, i) && !BinPrefixAt(src, i) ==>
      var j := NumberAt(src, i).value.0;
      (forall k | i <= k < j :: IsDigit(src[k])) && NumberAt(src, i).value.1 == (DecNumber(src[i..j]) % 0x1_0000_0000) as bv32
  {
    if HexPrefixAt(src, i) {
      assert NumberAt(src, i) == HexAt(src, i + 2);
    } else if BinPrefixAt(src, i) {
      assert NumberAt(src, i) == BinaryAt(src, i + 2);
    } else {
      assert NumberAt(src, i) == DecimalAt(src, i);
    }
  }

  /** The hex digits of a `0x` literal, the first of which is at i. */
  function HexAt(src: seq<char>, i: nat): (r: Outcome<(nat, bv32)>)
    requires i < |src| && IsHexDigit(src[i])
    ensures r.Ok? && i < r.value.0 <= |src|
    ensures forall k | i <= k < r.value.0 :: IsHexDigit(src[k])
    ensures r.value.1 == (HexNumber(src[i..r.value.0]) % U32_MODULUS) as bv32
  {
    var lit := HexDigits(src, i, 0);
    HexDigitsValue(src, i);
    Ok((lit.0, lit.1 as bv32))
  }

  /** The binary digits of a `0b` literal, the first of which is at i. */
  function BinaryAt(src: seq<char>, i: nat): (r: Outcome<(nat, bv32)>)
    requires i < |src| && IsBinaryDigit(src[i])
    ensures r.Ok? && i < r.value.0 <= |src|
    ensures forall k | i <= k < r.value.0 :: IsBinaryDigit(src[k])
    ensures r.value.1 == (BinNumber(src[i..r.value.0]) % U32_MODULUS) as bv32
  {
    var lit := BinDigits(src, i, 0);
    BinDigitsValue(src, i);
    Ok((lit.0, lit.1 as bv32))
  }

  /** A literal without a radix prefix: its decimal digits. */
  function DecimalAt(src: seq<char>, i: nat): (r: Outcome<(nat, bv32)>)
    requires i < |src| && IsDigit(src[i])
    ensures r.Ok? && i < r.value.0 <= |src|
    ensures forall k | i <= k < r.value.0 :: IsDigit(src[k])
    ensures r.value.1 == (DecNumber(src[i..r.value.0]) % 0x1_0000_0000) as bv32
  {
    var lit := DecDigits(src, i, 0);
    DecDigitsValue(src, i);
    Ok((lit.0, lit.1 as bv32))
  }

  // --------------------------------------------------------------- operators

  /** What the operator switch decides for one character: its opcode, associativity, arity and length. */
  datatype OpInfo = OpInfo(code: byte, rightAssoc: bool, binary: bool, width: nat)

  /**
   * Classifies an operator character c followed by `next`; `~` in operator
   * position and every unknown character are ErrToken.  The unary-plus skip
   * and the parentheses are handled by Step before this is asked.
   */
  function OperatorAt(c: char, next: char, expectOperand: bool): (r: Outcome<OpInfo>)
    ensures r.Fail? <==> (c == '~' && !expectOperand) || c !in "~*/%+-&|^<>="
    ensures r.Fail? ==> r.error == ErrToken
    ensures r.Ok? ==> r.value.width == 1 || (r.value.width == 2 && c in "<>" && next in "<=>")
    ensures c == '<' && next == '<' ==> r == Ok(OpInfo(RPN_SHL, false, true, 2))
    ensures c == '<' && next == '=' ==> r == Ok(OpInfo(RPN_LE, false, true, 2))
    ensures c == '>' && next == '>' ==> r == Ok(OpInfo(RPN_SHR, false, true, 2))
    ensures c == '>' && next == '=' ==> r == Ok(OpInfo(RPN_GE, false, true, 2))
    ensures c in "<>" && next !in "<=>" ==> r.Ok? && r.value.width == 1
    ensures r.Ok? ==> r.value.binary == IsBinaryOpcode(r.value.code) && r.value.code != RPN_NE
    ensures r.Ok? ==> !r.value.binary ==> IsUnaryOpcode(r.value.code) && r.value.rightAssoc
    ensures r.Ok? ==> r.value.binary ==> !r.value.rightAssoc
  {
    match c
    case '~' => if expectOperand then Ok(OpInfo(RPN_NOT, true, false, 1)) else Fail(ErrToken)
    case '*' => Ok(OpInfo(RPN_MUL, false, true, 1))
    case '/' => Ok(OpInfo(RPN_DIV, false, true, 1))
    case '%' => Ok(OpInfo(RPN_MOD, false, true, 1))
    case '+' => Ok(OpInfo(RPN_ADD, false, true, 1))
    case '-' =>
      if expectOperand then Ok(OpInfo(RPN_NEG, true, false, 1))
      else Ok(OpInfo(RPN_SUB, false, true, 1))
    case '&' => Ok(OpInfo(RPN_AND, false, true, 1))
    case '|' => Ok(OpInfo(RPN_OR, false, true, 1))
    case '^' => Ok(OpInfo(RPN_XOR, false, true, 1))
    case '<' =>
      if next == '<' then Ok(OpInfo(RPN_SHL, false, true, 2))
      else if next == '=' then Ok(OpInfo(RPN_LE, false, true, 2))
      else Ok(OpInfo(RPN_LT, false, true, 1))
    case '>' =>
      if next == '=' then Ok(OpInfo(RPN_GE, false, true, 2))
      else if next == '>' then Ok(OpInfo(RPN_SHR, false, true, 2))
      else Ok(OpInfo(RPN_GT, false, true, 1))
    case '=' => Ok(OpInfo(RPN_EQ, false, true, 1))
    case _ => Fail(ErrToken)
  }

  // ------------------------------------------------------- operator stack pops

  /** Whether an incoming operator makes the top entry `top` pop: never a parenthesis. */
  function PopsOver(top: Pending, prec: nat, rightAssoc: bool): (b: bool)
    ensures b ==> top.Op? && prec <= Precedence(top.code)
    ensures top.Op? && prec < Precedence(top.code) ==> b
    ensures top.Op? && prec == Precedence(top.code) ==> (b <==> !rightAssoc)
  {
    top.Op? && (if rightAssoc then prec < Precedence(top.code) else prec <= Precedence(top.code))
  }

  /** Emits the top operator (no immediate) unless the program is full. */
  function EmitTop(out: seq<Instr>, ops: seq<Pending>): (r: Outcome<seq<Instr>>)
    requires |ops| > 0
    ensures r.Fail? <==> |out| >= RPN_PROGRAM_SIZE
    ensures r.Fail? ==> r.error == ErrProgramTooLong
    ensures r.Ok? ==> |r.value| == |out| + 1 <= RPN_PROGRAM_SIZE && r.value[..|out|] == out
    ensures r.Ok? ==> r.value[|out|] == Instr(PendingCode(ops[|ops| - 1]), 0)
  {
    if |out| >= RPN_PROGRAM_SIZE then Fail(ErrProgramTooLong)
    else Ok(out + [Instr(PendingCode(ops[|ops| - 1]), 0)])
  }

  /** Pops and emits operators until an open parenthesis (left in place) or the bottom. */
  function PopToParen(out: seq<Instr>, ops: seq<Pending>): (r: Outcome<(seq<Instr>, seq<Pending>)>)
    ensures r.Fail? ==> r.error == ErrProgramTooLong
    decreases |ops|
  {
    if |ops| > 0 && ops[|ops| - 1] != OpenParen then
      match EmitTop(out, ops)
      case Fail(e) => Fail(e)
      case Ok(out') => PopToParen(out', ops[..|ops| - 1])
    else Ok((out, ops))
  }

  /** Pops and emits every operator that binds at least as tightly as the incoming one. */
  function PopWhile(out: seq<Instr>, ops: seq<Pending>, prec: nat, rightAssoc: bool)
    : (r: Outcome<(seq<Instr>, seq<Pending>)>)
    ensures r.Fail? ==> r.error == ErrProgramTooLong
    decreases |ops|
  {
    if |ops| > 0 && PopsOver(ops[|ops| - 1], prec, rightAssoc) then
      match EmitTop(out, ops)
      case Fail(e) => Fail(e)
      case Ok(out') => PopWhile(out', ops[..|ops| - 1], prec, rightAssoc)
    else Ok((out, ops))
  }

  /** Pops and emits everything left on the operator stack. */
  function PopAll(out: seq<Instr>, ops: seq<Pending>): (r: Outcome<seq<Instr>>)
    ensures r.Fail? ==> r.error == ErrProgramTooLong
    decreases |ops|
  {
    if |ops| > 0 then
      match EmitTop(out, ops)
      case Fail(e) => Fail(e)
      case Ok(out') => PopAll(out', ops[..|ops| - 1])
    else Ok(out)
  }

  // ------------------------------------------------------------ the main loop

  /** One pass of the scanning loop at a non-NUL character. */
  function Step(src: seq<char>, st: Scan): (r: Outcome<Scan>)
    requires st.i < |src|
    ensures r.Ok? ==> st.i < r.value.i <= |src|
    ensures r.Fail? ==> AllowedError(r.error)
  {
    var c := src[st.i];
    if |st.out| >= RPN_PROGRAM_SIZE then Fail(ErrProgramTooLong)
    else if c == ' ' then Ok(st.(i := st.i + 1))
    else if IsDigit(c) then NumberStep(src, st)
    else if c == 't' then
      if !st.expectOperand then Fail(ErrToken)
      else Ok(st.(i := st.i + 1, out := st.out + [Instr(RPN_PUSH_T, 0)], expectOperand := false))
    else if c == '(' then
      if !st.expectOperand then Fail(ErrToken)
      else if |st.ops| >= MAX_OP_STACK_SIZE then Fail(ErrProgramTooLong)
      else Ok(st.(i := st.i + 1, ops := st.ops + [OpenParen], parens := st.parens + 1))
    else if c == ')' then CloseStep(st)
    else if c == '+' && st.expectOperand then Ok(st.(i := st.i + 1))
    else OperatorStep(src, st)
  }

  /** A numeric literal at src[st.i]: it must stand where an operand is expected. */
  function NumberStep(src: seq<char>, st: Scan): (r: Outcome<Scan>)
    requires st.i < |src| && IsDigit(src[st.i]) && |st.out| < RPN_PROGRAM_SIZE
    ensures r.Ok? ==> st.i < r.value.i <= |src|
    ensures r.Fail? ==> AllowedError(r.error)
  {
    if !st.expectOperand then Fail(ErrToken)
    else match NumberAt(src, st.i)
      case Fail(e) => Fail(e)
      case Ok(lit) =>
        Ok(st.(i := lit.0, out := st.out + [Instr(RPN_PUSH_NUM, lit.1)], expectOperand := false))
  }

  /** A `)`: flushes the operators back to the matching `(` and discards it. */
  function CloseStep(st: Scan): (r: Outcome<Scan>)
    ensures r.Ok? ==> r.value.i == st.i + 1
    ensures r.Fail? ==> AllowedError(r.error)
  {
    if st.expectOperand then Fail(ErrParen)
    else if st.parens == 0 then Fail(ErrToken)
    else match PopToParen(st.out, st.ops)
      case Fail(e) => Fail(e)
      case Ok(popped) =>
        var ops := if |popped.1| > 0 then popped.1[..|popped.1| - 1] else popped.1;
        Ok(Scan(st.i + 1, popped.0, ops, st.parens - 1, false))
  }

  /** An operator at src[st.i]: flushes what binds at least as tightly, then stacks it. */
  function OperatorStep(src: seq<char>, st: Scan): (r: Outcome<Scan>)
    requires st.i < |src|
    ensures r.Ok? ==> st.i < r.value.i <= |src|
    ensures r.Fail? ==> AllowedError(r.error)
  {
    match OperatorAt(src[st.i], At(src, st.i + 1), st.expectOperand)
    case Fail(e) => Fail(e)
    case Ok(op) =>
      if op.binary && st.expectOperand then Fail(ErrToken)
      else match PopWhile(st.out, st.ops, Precedence(op.code), op.rightAssoc)
        case Fail(e) => Fail(e)
        case Ok(popped) =>
          if |popped.1| >= MAX_OP_STACK_SIZE then Fail(ErrProgramTooLong)
          else Ok(Scan(st.i + op.width, popped.0, popped.1 + [Op(op.code)], st.parens,
                       op.binary || st.expectOperand))
  }

  /** The checks after the scanning loop, then the final flush of the operator stack. */
  function Finish(st: Scan): (r: Outcome<seq<Instr>>)
    ensures r.Fail? ==> AllowedError(r.error)
  {
    if st.expectOperand then Fail(ErrToken)
    else if st.parens > 0 then Fail(ErrParen)
    else PopAll(st.out, st.ops)
  }

  /**
   * The position errors of one pass: an operand where an operator belongs,
   * a binary operator or `)` where an operand belongs, a `)` with no `(`
   * open, and an unknown character.  A full program is reported first.
   */
  lemma PositionErrors(src: seq<char>, st: Scan)
    requires st.i < |src|
    ensures |st.out| >= RPN_PROGRAM_SIZE ==> Step(src, st) == Fail(ErrProgramTooLong)
    ensures var c := src[st.i];
      |st.out| < RPN_PROGRAM_SIZE && !st.expectOperand && (IsDigit(c) || c in "t(~") ==>
        Step(src, st) == Fail(ErrToken)
    ensures var c := src[st.i];
      |st.out| < RPN_PROGRAM_SIZE && st.expectOperand && c in "*/%&|^<>=" ==>
        Step(src, st) == Fail(ErrToken)
    ensures |st.out| < RPN_PROGRAM_SIZE && st.expectOperand && src[st.i] == ')' ==>
      Step(src, st) == Fail(ErrParen)
    ensures |st.out| < RPN_PROGRAM_SIZE && !st.expectOperand && st.parens == 0 && src[st.i] == ')' ==>
      Step(src, st) == Fail(ErrToken)
    ensures var c := src[st.i];
      |st.out| < RPN_PROGRAM_SIZE && !IsDigit(c) && c !in " t()~*/%+-&|^<>=" ==>
        Step(src, st) == Fail(ErrToken)
  {
  }

  /** After the last character: a missing operand is ErrToken, then an unclosed `(` is ErrParen. */
  lemma FinishErrors(st: Scan)
    ensures st.expectOperand ==> Finish(st) == Fail(ErrToken)
    ensures !st.expectOperand && st.parens > 0 ==> Finish(st) == Fail(ErrParen)
    ensures !st.expectOperand && st.parens == 0 ==> Finish(st) == PopAll(st.out, st.ops)
  {
  }

  /** The scanning loop from state st until the terminating NUL, then Finish. */
  function CompileFrom(src: seq<char>, st: Scan): (r: Outcome<seq<Instr>>)
    requires st.i <= |src|
    ensures r.Fail? ==> AllowedError(r.error)
    decreases |src| - st.i
  {
    if At(src, st.i) == NUL then Finish(st)
    else match Step(src, st)
      case Fail(e) => Fail(e)
      case Ok(st') => CompileFrom(src, st')
  }

  /** compileToRPN on the text src: the program, or the error it reports. */
  function Compile(src: seq<char>): (r: Outcome<seq<Instr>>)
    ensures r.Fail? ==> AllowedError(r.error)
    ensures At(src, 0) == NUL ==> r == Fail(ErrToken)
  {
    CompileFrom(src, START)
  }
}
