// The stack VM of rpn_vm.c (executeRPN): the effect of one instruction on
// the 8-deep evaluation stack, the run of a whole program as a function,
// and the imperative interpreter proved to compute it.

module RpnVm {
  import opened RpnTypes

  function Bit(b: bool): (r: bv32)
    ensures r == 0 || r == 1
    ensures r == 1 <==> b
  {
    if b then 1 else 0
  }

  /** `a op b` for a binary opcode, a being the left operand (popped second). */
  function BinaryResult(op: byte, a: bv32, b: bv32, ws: WideShifts): bv32
    requires IsBinaryOpcode(op)
  {
    if op == RPN_ADD then a + b
    else if op == RPN_SUB then a - b
    else if op == RPN_MUL then a * b
    else if op == RPN_DIV then (if b != 0 then a / b else 0)
    else if op == RPN_MOD then (if b != 0 then a % b else 0)
    else if op == RPN_AND then a & b
    else if op == RPN_OR then a | b
    else if op == RPN_XOR then a ^ b
    else if op == RPN_SHL then ShiftLeft(a, b, ws)
    else if op == RPN_SHR then ShiftRight(a, b, ws)
    else if op == RPN_LT then Bit(a < b)
    else if op == RPN_GT then Bit(a > b)
    else if op == RPN_EQ then Bit(a == b)
    else if op == RPN_LE then Bit(a <= b)
    else if op == RPN_GE then Bit(a >= b)
    else Bit(a != b)
  }

  /** Division and remainder by zero yield 0 instead of trapping. */
  lemma ZeroDivisorResults(a: bv32, ws: WideShifts)
    ensures BinaryResult(RPN_DIV, a, 0, ws) == 0
    ensures BinaryResult(RPN_MOD, a, 0, ws) == 0
  {
  }

  /** `<`, `>` and `==` are unsigned comparisons that yield 1 when they hold and 0 otherwise. */
  lemma ComparisonResults(a: bv32, b: bv32, ws: WideShifts)
    ensures BinaryResult(RPN_LT, a, b, ws) == (if a < b then 1 else 0)
    ensures BinaryResult(RPN_GT, a, b, ws) == (if b < a then 1 else 0)
    ensures BinaryResult(RPN_EQ, a, b, ws) == (if a == b then 1 else 0)
  {
  }

  /** `<=`, `>=` and `!=` yield 0 exactly when `>`, `<` and `==` hold. */
  lemma NegatedComparisonResults(a: bv32, b: bv32, ws: WideShifts)
    ensures BinaryResult(RPN_LE, a, b, ws) == (if b < a then 0 else 1)
    ensures BinaryResult(RPN_GE, a, b, ws) == (if a < b then 0 else 1)
    ensures BinaryResult(RPN_NE, a, b, ws) == (if a == b then 0 else 1)
  {
  }

  /** `&`, `|`, `^`, `+`, `*`, `==` and `!=` do not depend on the order of their operands. */
  lemma CommutativeResults(a: bv32, b: bv32, ws: WideShifts)
    ensures forall op: byte | op in {RPN_ADD, RPN_MUL, RPN_AND, RPN_OR, RPN_XOR, RPN_EQ, RPN_NE} ::
      BinaryResult(op, a, b, ws) == BinaryResult(op, b, a, ws)
  {
  }

  /** Below 32 the shift operators are the plain `uint32_t` shifts, whatever the undefined wide shifts give. */
  lemma ShiftResults(a: bv32, b: bv32, ws: WideShifts)
    requires b < 32
    ensures BinaryResult(RPN_SHL, a, b, ws) == a << b
    ensures BinaryResult(RPN_SHR, a, b, ws) == a >> b
  {
  }

  /** `~a` or `-a` (two's complement negation, 2^32 - a modulo 2^32). */
  function UnaryResult(op: byte, a: bv32): (r: bv32)
    requires IsUnaryOpcode(op)
    ensures op == RPN_NOT ==> r & a == 0 && r | a == 0xFFFF_FFFF
    ensures op == RPN_NEG ==> r + a == 0
  {
    if op == RPN_NOT then !a else 0 - a
  }

  /**
   * One instruction on the evaluation stack (top at the end).  A push onto a
   * full stack, an operator short of operands and an unknown opcode leave the
   * stack as it is.
   */
  function Apply(stack: seq<bv32>, ins: Instr, t: bv32, ws: WideShifts): (r: seq<bv32>)
    requires |stack| <= RPN_STACK_SIZE
    ensures |r| <= RPN_STACK_SIZE
  {
    var op := ins.opcode;
    var n := |stack|;
    if IsPushOpcode(op) then
      if n < RPN_STACK_SIZE then stack + [if op == RPN_PUSH_T then t else ins.value] else stack
    else if IsBinaryOpcode(op) then
      if n >= 2 then stack[..n - 2] + [BinaryResult(op, stack[n - 2], stack[n - 1], ws)] else stack
    else if IsUnaryOpcode(op) then
      if n >= 1 then stack[..n - 1] + [UnaryResult(op, stack[n - 1])] else stack
    else stack
  }

  /** The evaluation stack after running every instruction of prog, from an empty stack. */
  function Run(prog: seq<Instr>, t: bv32, ws: WideShifts): (r: seq<bv32>)
    ensures |r| <= RPN_STACK_SIZE
    decreases |prog|
  {
    if |prog| == 0 then [] else Apply(Run(prog[..|prog| - 1], t, ws), prog[|prog| - 1], t, ws)
  }

  /** executeRPN's result: the top of the final stack, or 0 when it is empty. */
  function Evaluate(prog: seq<Instr>, t: bv32, ws: WideShifts): (r: bv32)
    ensures prog == [] ==> r == 0
    ensures |prog| > 0 && prog[|prog| - 1].opcode == RPN_PUSH_T && |Run(prog[..|prog| - 1], t, ws)| < RPN_STACK_SIZE ==> r == t
    ensures |prog| > 0 && prog[|prog| - 1].opcode == RPN_PUSH_NUM && |Run(prog[..|prog| - 1], t, ws)| < RPN_STACK_SIZE ==>
      r == prog[|prog| - 1].value
    ensures var s := Run(prog, t, ws); |s| > 0 ==> r == s[|s| - 1]
  {
    var s := Run(prog, t, ws);
    if |s| > 0 then s[|s| - 1] else 0
  }

  /** The interpreter: one pass over the program with an 8-entry array stack. */
  method ExecuteRPN(tval: bv32, program: array<Instr>, programLen: nat, ws: WideShifts) returns (result: bv32)
    requires programLen <= program.Length
    ensures result == Evaluate(program[..programLen], tval, ws)
  {
    var stack := new bv32[RPN_STACK_SIZE];
    var stackTop: nat := 0;
    var pc := 0;
    while pc < programLen
      invariant pc <= programLen
      invariant stack.Length == RPN_STACK_SIZE && stackTop <= RPN_STACK_SIZE
      invariant stack[..stackTop] == Run(program[..pc], tval, ws)
    {
      assert program[..pc + 1][..pc] == program[..pc];
      assert Run(program[..pc + 1], tval, ws) == Apply(Run(program[..pc], tval, ws), program[pc], tval, ws);
      stackTop := ExecuteOne(stack, stackTop, program[pc], tval, ws);
      pc := pc + 1;
    }
    result := if stackTop > 0 then stack[stackTop - 1] else 0;
  }

  /** One pass of the interpreter's switch, on the stack held in stack[..stackTop]. */
  method ExecuteOne(stack: array<bv32>, stackTop: nat, ins: Instr, tval: bv32, ws: WideShifts) returns (newTop: nat)
    requires stack.Length == RPN_STACK_SIZE && stackTop <= RPN_STACK_SIZE
    modifies stack
    ensures newTop <= RPN_STACK_SIZE
    ensures stack[..newTop] == Apply(old(stack[..stackTop]), ins, tval, ws)
  {
    if IsPushOpcode(ins.opcode) {
      newTop := PushValue(stack, stackTop, if ins.opcode == RPN_PUSH_T then tval else ins.value);
      ApplyPush(old(stack[..stackTop]), ins, tval, ws);
    } else if IsBinaryOpcode(ins.opcode) {
      newTop := ExecuteBinary(stack, stackTop, ins, tval, ws);
    } else if IsUnaryOpcode(ins.opcode) {
      newTop := stackTop;
      if stackTop >= 1 {
        newTop := ReplaceTop(stack, stackTop, 1, UnaryResult(ins.opcode, stack[stackTop - 1]));
      }
      ApplyUnary(old(stack[..stackTop]), ins, tval, ws);
    } else {
      newTop := stackTop;
      ApplyOther(stack[..stackTop], ins, tval, ws);
    }
  }

  /** A binary operator: pops b, then a, and pushes `a op b`; short of operands it does nothing. */
  method ExecuteBinary(stack: array<bv32>, stackTop: nat, ins: Instr, tval: bv32, ws: WideShifts) returns (newTop: nat)
    requires stack.Length == RPN_STACK_SIZE && stackTop <= RPN_STACK_SIZE && IsBinaryOpcode(ins.opcode)
    modifies stack
    ensures newTop <= RPN_STACK_SIZE
    ensures stack[..newTop] == Apply(old(stack[..stackTop]), ins, tval, ws)
  {
    ApplyBinary(stack[..stackTop], ins, tval, ws);
    newTop := stackTop;
    if stackTop >= 2 {
      var b := stack[stackTop - 1];
      var a := stack[stackTop - 2];
      var v := BinaryResult(ins.opcode, a, b, ws);
      newTop := ReplaceTop(stack, stackTop, 2, v);
    }
  }

  /** Pushes v unless the stack is full, in which case the value is dropped. */
  method PushValue(stack: array<bv32>, stackTop: nat, v: bv32) returns (newTop: nat)
    requires stack.Length == RPN_STACK_SIZE && stackTop <= RPN_STACK_SIZE
    modifies stack
    ensures newTop <= RPN_STACK_SIZE
    ensures stack[..newTop] == if stackTop < RPN_STACK_SIZE then old(stack[..stackTop]) + [v] else old(stack[..stackTop])
  {
    newTop := stackTop;
    if newTop < RPN_STACK_SIZE {
      stack[newTop] := v;
      newTop := newTop + 1;
    }
  }

  /** Pops n operands and pushes the result v in their place. */
  method ReplaceTop(stack: array<bv32>, stackTop: nat, n: nat, v: bv32) returns (newTop: nat)
    requires stack.Length == RPN_STACK_SIZE && 1 <= n <= stackTop <= RPN_STACK_SIZE
    modifies stack
    ensures newTop <= RPN_STACK_SIZE
    ensures stack[..newTop] == old(stack[..stackTop - n]) + [v]
  {
    newTop := stackTop - n;
    stack[newTop] := v;
    newTop := newTop + 1;
  }

  lemma ApplyPush(s: seq<bv32>, ins: Instr, t: bv32, ws: WideShifts)
    requires |s| <= RPN_STACK_SIZE && IsPushOpcode(ins.opcode)
    ensures Apply(s, ins, t, ws) ==
      if |s| < RPN_STACK_SIZE then s + [if ins.opcode == RPN_PUSH_T then t else ins.value] else s
  {
  }

  lemma ApplyBinary(s: seq<bv32>, ins: Instr, t: bv32, ws: WideShifts)
    requires |s| <= RPN_STACK_SIZE && IsBinaryOpcode(ins.opcode)
    ensures Apply(s, ins, t, ws) ==
      if |s| >= 2 then s[..|s| - 2] + [BinaryResult(ins.opcode, s[|s| - 2], s[|s| - 1], ws)] else s
  {
  }

  lemma ApplyUnary(s: seq<bv32>, ins: Instr, t: bv32, ws: WideShifts)
    requires |s| <= RPN_STACK_SIZE && IsUnaryOpcode(ins.opcode)
    ensures Apply(s, ins, t, ws) ==
      if |s| >= 1 then s[..|s| - 1] + [UnaryResult(ins.opcode, s[|s| - 1])] else s
  {
  }

  lemma ApplyOther(s: seq<bv32>, ins: Instr, t: bv32, ws: WideShifts)
    requires |s| <= RPN_STACK_SIZE
    requires !IsPushOpcode(ins.opcode) && !IsBinaryOpcode(ins.opcode) && !IsUnaryOpcode(ins.opcode)
    ensures Apply(s, ins, t, ws) == s
  {
  }

  // ------------------------------------------------------------ stack effect

  /** How many operands an opcode takes from the stack. */
  function Needs(op: byte): nat {
    if IsBinaryOpcode(op) then 2 else if IsUnaryOpcode(op) then 1 else 0
  }

  /** Net change of the stack height when the opcode has what it needs. */
  function Effect(op: byte): int {
    if IsPushOpcode(op) then 1 else if IsBinaryOpcode(op) then -1 else 0
  }

  /** Stack height after prog on an unbounded stack. */
  function NetDepth(prog: seq<Instr>): int
    decreases |prog|
  {
    if |prog| == 0 then 0 else NetDepth(prog[..|prog| - 1]) + Effect(prog[|prog| - 1].opcode)
  }

  /** Every instruction of prog finds the operands it needs. */
  predicate NoUnderflow(prog: seq<Instr>)
    decreases |prog|
  {
    |prog| == 0 ||
    (NoUnderflow(prog[..|prog| - 1]) && NetDepth(prog[..|prog| - 1]) >= Needs(prog[|prog| - 1].opcode))
  }

  /** The greatest stack height reached by prog on an unbounded stack. */
  function PeakDepth(prog: seq<Instr>): int
    decreases |prog|
  {
    if |prog| == 0 then 0
    else
      var rest := PeakDepth(prog[..|prog| - 1]);
      var d := NetDepth(prog);
      if d > rest then d else rest
  }

  /** A push or an operator of the compiler's instruction set (never RPN_NE, which it does not emit). */
  predicate KnownOpcode(op: byte) {
    op != RPN_NE && (IsPushOpcode(op) || IsBinaryOpcode(op) || IsUnaryOpcode(op))
  }

  predicate KnownOpcodes(prog: seq<Instr>) {
    forall k :: 0 <= k < |prog| ==> KnownOpcode(prog[k].opcode)
  }
}
