// Expression trees over t, 32-bit literals and the VM's operators, with
// their value and their postfix code.  The main theorem: running the
// postfix code of a tree on the VM pushes exactly the tree's value, as long
// as the tree's evaluation fits the 8-slot stack.  The concrete
// compilations in RpnOracles use it to say which expression tree a text
// compiles to.

module RpnTerms {
  import opened RpnTypes
  import opened RpnVm

  /** An expression tree; `op` is one of the VM's opcodes. */
  datatype Term = TVar | Const(v: bv32) | Unary(op: byte, a: Term) | Binary(op: byte, l: Term, r: Term)

  /** Every operator node carries an opcode of its arity. */
  predicate WellOps(e: Term) {
    match e
    case TVar => true
    case Const(_) => true
    case Unary(op, a) => IsUnaryOpcode(op) && WellOps(a)
    case Binary(op, l, r) => IsBinaryOpcode(op) && WellOps(l) && WellOps(r)
  }

  /** Stack slots needed to evaluate the tree's postfix code. */
  function Height(e: Term): (h: nat)
    ensures h >= 1
  {
    match e
    case TVar => 1
    case Const(_) => 1
    case Unary(_, a) => Height(a)
    case Binary(_, l, r) => if Height(l) > Height(r) + 1 then Height(l) else Height(r) + 1
  }

  /** The postfix (RPN) code of the tree: operands first, then the operator. */
  function Emit(e: Term): seq<Instr> {
    match e
    case TVar => [Instr(RPN_PUSH_T, 0)]
    case Const(v) => [Instr(RPN_PUSH_NUM, v)]
    case Unary(op, a) => Emit(a) + [Instr(op, 0)]
    case Binary(op, l, r) => Emit(l) + Emit(r) + [Instr(op, 0)]
  }

  /** The value of the tree at sample t, with the VM's own operators. */
  function Denote(e: Term, t: bv32, ws: WideShifts): bv32
    requires WellOps(e)
  {
    match e
    case TVar => t
    case Const(v) => v
    case Unary(op, a) => UnaryResult(op, Denote(a, t, ws))
    case Binary(op, l, r) => BinaryResult(op, Denote(l, t, ws), Denote(r, t, ws), ws)
  }

  // ------------------------------------------------------ one instruction more

  lemma RunSnoc(prog: seq<Instr>, ins: Instr, t: bv32, ws: WideShifts)
    ensures Run(prog + [ins], t, ws) == Apply(Run(prog, t, ws), ins, t, ws)
  {
    assert (prog + [ins])[..|prog|] == prog;
  }

  lemma RunPush(pre: seq<Instr>, ins: Instr, t: bv32, ws: WideShifts)
    requires IsPushOpcode(ins.opcode) && |Run(pre, t, ws)| < RPN_STACK_SIZE
    ensures Run(pre + [ins], t, ws) == Run(pre, t, ws) + [if ins.opcode == RPN_PUSH_T then t else ins.value]
  {
    RunSnoc(pre, ins, t, ws);
    ApplyPush(Run(pre, t, ws), ins, t, ws);
  }

  lemma RunUnaryAfter(p: seq<Instr>, op: byte, s: seq<bv32>, a: bv32, t: bv32, ws: WideShifts)
    requires IsUnaryOpcode(op)
    requires Run(p, t, ws) == s + [a]
    ensures Run(p + [Instr(op, 0)], t, ws) == s + [UnaryResult(op, a)]
  {
    RunSnoc(p, Instr(op, 0), t, ws);
    ApplyUnary(s + [a], Instr(op, 0), t, ws);
    assert (s + [a])[..|s|] == s;
  }

  lemma ApplyBinaryOnTop(s: seq<bv32>, a: bv32, b: bv32, ins: Instr, t: bv32, ws: WideShifts)
    requires IsBinaryOpcode(ins.opcode) && |s| + 2 <= RPN_STACK_SIZE
    ensures Apply(s + [a] + [b], ins, t, ws) == s + [BinaryResult(ins.opcode, a, b, ws)]
  {
    var s2 := s + [a] + [b];
    ApplyBinary(s2, ins, t, ws);
    assert s2[..|s|] == s;
  }

  lemma RunBinaryAfter(p: seq<Instr>, op: byte, s: seq<bv32>, a: bv32, b: bv32, t: bv32, ws: WideShifts)
    requires IsBinaryOpcode(op)
    requires Run(p, t, ws) == s + [a] + [b]
    ensures Run(p + [Instr(op, 0)], t, ws) == s + [BinaryResult(op, a, b, ws)]
  {
    RunSnoc(p, Instr(op, 0), t, ws);
    ApplyBinaryOnTop(s, a, b, Instr(op, 0), t, ws);
  }

  // ------------------------------------------------------ the postfix theorem

  lemma EmitBinaryShape(pre: seq<Instr>, op: byte, l: Term, r: Term)
    ensures pre + Emit(Binary(op, l, r)) == pre + Emit(l) + Emit(r) + [Instr(op, 0)]
  {
    assert Emit(Binary(op, l, r)) == Emit(l) + Emit(r) + [Instr(op, 0)];
  }

  lemma EmitUnaryStep(pre: seq<Instr>, op: byte, a: Term, t: bv32, ws: WideShifts)
    requires IsUnaryOpcode(op) && WellOps(a)
    requires Run(pre + Emit(a), t, ws) == Run(pre, t, ws) + [Denote(a, t, ws)]
    ensures Run(pre + Emit(Unary(op, a)), t, ws) == Run(pre, t, ws) + [Denote(Unary(op, a), t, ws)]
  {
    assert pre + Emit(Unary(op, a)) == pre + Emit(a) + [Instr(op, 0)];
    RunUnaryAfter(pre + Emit(a), op, Run(pre, t, ws), Denote(a, t, ws), t, ws);
  }

  lemma EmitBinaryStep(pre: seq<Instr>, op: byte, l: Term, r: Term, t: bv32, ws: WideShifts)
    requires IsBinaryOpcode(op) && WellOps(l) && WellOps(r)
    requires Run(pre + Emit(l), t, ws) == Run(pre, t, ws) + [Denote(l, t, ws)]
    requires Run(pre + Emit(l) + Emit(r), t, ws) == Run(pre + Emit(l), t, ws) + [Denote(r, t, ws)]
    ensures Run(pre + Emit(Binary(op, l, r)), t, ws) == Run(pre, t, ws) + [Denote(Binary(op, l, r), t, ws)]
  {
    EmitBinaryShape(pre, op, l, r);
    RunBinaryAfter(pre + Emit(l) + Emit(r), op, Run(pre, t, ws), Denote(l, t, ws), Denote(r, t, ws), t, ws);
  }

  /**
   * Running a tree's postfix code after any prefix pushes the tree's value
   * on top of what the prefix left, when the stack has room for it.
   */
  lemma {:induction false} RunEmit(pre: seq<Instr>, e: Term, t: bv32, ws: WideShifts)
    requires WellOps(e) && |Run(pre, t, ws)| + Height(e) <= RPN_STACK_SIZE
    ensures Run(pre + Emit(e), t, ws) == Run(pre, t, ws) + [Denote(e, t, ws)]
    decreases e
  {
    match e
    case TVar =>
      RunPush(pre, Instr(RPN_PUSH_T, 0), t, ws);
    case Const(v) =>
      RunPush(pre, Instr(RPN_PUSH_NUM, v), t, ws);
    case Unary(op, a) =>
      RunEmit(pre, a, t, ws);
      EmitUnaryStep(pre, op, a, t, ws);
    case Binary(op, l, r) =>
      RunEmit(pre, l, t, ws);
      RunEmit(pre + Emit(l), r, t, ws);
      EmitBinaryStep(pre, op, l, r, t, ws);
  }

  /** executeRPN on a tree's postfix code returns the tree's value, for every t. */
  lemma EmitEvaluates(e: Term, t: bv32, ws: WideShifts)
    requires WellOps(e) && Height(e) <= RPN_STACK_SIZE
    ensures Evaluate(Emit(e), t, ws) == Denote(e, t, ws)
  {
    RunEmit([], e, t, ws);
    assert [] + Emit(e) == Emit(e);
  }

  /** The code of a negation node computes the two's complement of its operand's value, at every t. */
  lemma EmitNegates(e: Term, t: bv32, ws: WideShifts)
    requires WellOps(e) && Height(e) <= RPN_STACK_SIZE
    ensures Evaluate(Emit(Unary(RPN_NEG, e)), t, ws) + Evaluate(Emit(e), t, ws) == 0
  {
    EmitEvaluates(Unary(RPN_NEG, e), t, ws);
    EmitEvaluates(e, t, ws);
  }
}
