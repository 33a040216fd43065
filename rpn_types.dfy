// Shared vocabulary of the bytebeat expression compiler and its stack VM:
// sizes, opcodes, instructions, compile errors and the precedence table.

module RpnTypes {

  /** An unsigned 8-bit quantity (`uint8_t`). */
  newtype byte = b: int | 0 <= b < 256

  const TEXT_BUFFER_SIZE: nat := 256
  const RPN_STACK_SIZE: nat := 8
  const RPN_PROGRAM_SIZE: nat := 32
  const MAX_OP_STACK_SIZE: nat := 64

  /** 2^32: arithmetic on a `uint32_t` wraps modulo this. */
  const U32_MODULUS: nat := 0x1_0000_0000

  /** A C `char`: one byte. */
  type Char8 = c: char | c as int < 256 witness '\0'

  const NUL: Char8 := '\0'

  /** The characters of a C string, which stop at its first NUL. */
  predicate NoNul(s: seq<char>) {
    forall k :: 0 <= k < |s| ==> s[k] != NUL
  }

  // Opcodes of the bytecode, numbered as in the C enumeration.
  const RPN_PUSH_T: byte := 0
  const RPN_PUSH_NUM: byte := 1
  const RPN_ADD: byte := 2
  const RPN_SUB: byte := 3
  const RPN_MUL: byte := 4
  const RPN_DIV: byte := 5
  const RPN_MOD: byte := 6
  const RPN_AND: byte := 7
  const RPN_OR: byte := 8
  const RPN_XOR: byte := 9
  const RPN_NOT: byte := 10
  const RPN_NEG: byte := 11
  const RPN_SHL: byte := 12
  const RPN_SHR: byte := 13
  const RPN_LT: byte := 14
  const RPN_GT: byte := 15
  const RPN_EQ: byte := 16
  const RPN_LE: byte := 17
  const RPN_GE: byte := 18
  const RPN_NE: byte := 19

  /** The code the C compiler stores on its operator stack for `(`. */
  const OP_PAREN_OPEN: byte := 255

  /** One bytecode instruction; `value` is used only by RPN_PUSH_NUM. */
  datatype Instr = Instr(opcode: byte, value: bv32)

  datatype CompileError = ErrNone | ErrParen | ErrStack | ErrToken | ErrProgramTooLong

  /** Result of a compiler stage: a value, or the single error that stopped it. */
  datatype Outcome<T> = Ok(value: T) | Fail(error: CompileError)

  /** An entry of the compiler's operator stack: a pending operator or an open parenthesis. */
  datatype Pending = Op(code: byte) | OpenParen

  /** The opcode the C operator stack holds for an entry. */
  function PendingCode(p: Pending): (c: byte)
    ensures c == OP_PAREN_OPEN <==> p.OpenParen? || p.code == OP_PAREN_OPEN
  {
    match p
    case Op(c) => c
    case OpenParen => OP_PAREN_OPEN
  }

  predicate IsBinaryOpcode(op: byte) {
    op in {RPN_ADD, RPN_SUB, RPN_MUL, RPN_DIV, RPN_MOD, RPN_AND, RPN_OR, RPN_XOR,
           RPN_SHL, RPN_SHR, RPN_LT, RPN_GT, RPN_EQ, RPN_LE, RPN_GE, RPN_NE}
  }

  predicate IsUnaryOpcode(op: byte) {
    op == RPN_NOT || op == RPN_NEG
  }

  predicate IsPushOpcode(op: byte) {
    op == RPN_PUSH_T || op == RPN_PUSH_NUM
  }

  /** Binding strength of an operator: higher binds tighter; unknown codes get 0. */
  function Precedence(op: byte): (p: nat)
    ensures p <= 7
    ensures p == 7 <==> IsUnaryOpcode(op)
    ensures op in {RPN_MUL, RPN_DIV, RPN_MOD} <==> p == 6
    ensures op in {RPN_ADD, RPN_SUB} <==> p == 5
    ensures op in {RPN_SHL, RPN_SHR} <==> p == 4
    ensures op in {RPN_LT, RPN_GT, RPN_LE, RPN_GE} <==> p == 3
    ensures op in {RPN_EQ, RPN_NE} <==> p == 2
    ensures op == RPN_AND <==> p == 1
  {
    if op == RPN_NOT || op == RPN_NEG then 7
    else if op == RPN_MUL || op == RPN_DIV || op == RPN_MOD then 6
    else if op == RPN_ADD || op == RPN_SUB then 5
    else if op == RPN_SHL || op == RPN_SHR then 4
    else if op == RPN_LT || op == RPN_GT || op == RPN_LE || op == RPN_GE then 3
    else if op == RPN_EQ || op == RPN_NE then 2
    else if op == RPN_AND then 1
    else if op == RPN_XOR then 0
    else if op == RPN_OR then 0
    else 0
  }

  predicate IsDigit(c: char) {
    '0' <= c <= '9'
  }

  predicate IsHexDigit(c: char) {
    ('0' <= c <= '9') || ('a' <= c <= 'f') || ('A' <= c <= 'F')
  }

  /** IsHexDigit holds exactly for the characters 0-9, a-f and A-F. */
  lemma HexDigitCharacters(c: char)
    ensures IsHexDigit(c) <==> c in "0123456789abcdefABCDEF"
  {
  }

  /**
   * What a shift by 32 or more yields. C leaves it undefined, so the model
   * keeps it as a parameter and proves nothing that depends on it.
   */
  datatype WideShifts = WideShifts(shl: (bv32, bv32) -> bv32, shr: (bv32, bv32) -> bv32)

  /**
   * `a << b` on a `uint32_t`: for a count below 32, a multiplication by 2^b
   * with wrap-around, which leaves the low b bits zero.
   */
  function ShiftLeft(a: bv32, b: bv32, ws: WideShifts): (r: bv32)
    ensures b < 32 ==> r == a * (1 << b)
    ensures b < 32 ==> r & !(0xFFFF_FFFF << b) == 0
    ensures b >= 32 ==> r == ws.shl(a, b)
  {
    if b < 32 then a << b else ws.shl(a, b)
  }

  /**
   * `a >> b` on a `uint32_t` (a logical shift): for a count below 32, the top
   * b bits are zero.
   */
  function ShiftRight(a: bv32, b: bv32, ws: WideShifts): (r: bv32)
    ensures b < 32 ==> r & !(0xFFFF_FFFF >> b) == 0
    ensures b >= 32 ==> r == ws.shr(a, b)
  {
    if b < 32 then a >> b else ws.shr(a, b)
  }
}
