// Concrete compilations: the expressions the firmware's own test programs
// check (src/test_rpn.c and test_main.c), the compiler's error paths, and
// edge cases of the grammar and of 32-bit arithmetic.  Each `<Name>` lemma
// states what compileToRPN returns for one text: the postfix code of an
// expression tree written out in the C expression's own shape, or the
// error; where the tests check a value, the lemma states that value too.
// The `<Name>Step<k>` lemmas replay the compiler one character at a time.

module RpnOracles {
  import opened RpnTypes
  import opened RpnCompilerSpec
  import opened RpnVm
  import opened RpnTerms

  /** `src` spells out `text` character by character. */
  predicate Spells(src: seq<char>, text: seq<char>) {
    |src| == |text| && forall k :: 0 <= k < |src| ==> src[k] == text[k]
  }

  lemma Advance(src: seq<char>, st: Scan, st': Scan)
    requires st.i < |src| && src[st.i] != NUL && Step(src, st) == Ok(st')
    ensures CompileFrom(src, st) == CompileFrom(src, st')
  {
  }

  lemma Halt(src: seq<char>, st: Scan)
    requires st.i < |src| && src[st.i] != NUL && Step(src, st).Fail?
    ensures CompileFrom(src, st) == Fail(Step(src, st).error)
  {
  }

  lemma Stop(src: seq<char>, st: Scan)
    requires st.i == |src|
    ensures CompileFrom(src, st) == Finish(st)
  {
  }

  // -------------------------------------------------------- src/test_rpn.c

  lemma OnePlusTwoStep0(src: seq<char>)
    requires Spells(src, "1+2")
    ensures CompileFrom(src, Scan(0, [], [], 0, true))
         == CompileFrom(src, Scan(1, [Instr(RPN_PUSH_NUM, 1)], [], 0, false))
  {
    assert DecDigits(src, 1, 1) == (1, 1);
    assert DecDigits(src, 0, 0) == (1, 1);
    assert NumberAt(src, 0) == Ok((1, 1));
    assert [] + [Instr(RPN_PUSH_NUM, 1)] == [Instr(RPN_PUSH_NUM, 1)];
    Advance(src, Scan(0, [], [], 0, true), Scan(1, [Instr(RPN_PUSH_NUM, 1)], [], 0, false));
  }

  lemma OnePlusTwoStep1(src: seq<char>)
    requires Spells(src, "1+2")
    ensures CompileFrom(src, Scan(1, [Instr(RPN_PUSH_NUM, 1)], [], 0, false))
         == CompileFrom(src, Scan(2, [Instr(RPN_PUSH_NUM, 1)], [Op(RPN_ADD)], 0, true))
  {
    assert PopWhile([Instr(RPN_PUSH_NUM, 1)], [], 5, false) == Ok(([Instr(RPN_PUSH_NUM, 1)], []));
    assert [] + [Op(RPN_ADD)] == [Op(RPN_ADD)];
    Advance(src, Scan(1, [Instr(RPN_PUSH_NUM, 1)], [], 0, false), Scan(2, [Instr(RPN_PUSH_NUM, 1)], [Op(RPN_ADD)], 0, true));
  }

  lemma OnePlusTwoStep2(src: seq<char>)
    requires Spells(src, "1+2")
    ensures CompileFrom(src, Scan(2, [Instr(RPN_PUSH_NUM, 1)], [Op(RPN_ADD)], 0, true))
         == CompileFrom(src, Scan(3, [Instr(RPN_PUSH_NUM, 1), Instr(RPN_PUSH_NUM, 2)], [Op(RPN_ADD)], 0, false))
  {
    assert DecDigits(src, 3, 2) == (3, 2);
    assert DecDigits(src, 2, 0) == (3, 2);
    assert NumberAt(src, 2) == Ok((3, 2));
    assert [Instr(RPN_PUSH_NUM, 1)] + [Instr(RPN_PUSH_NUM, 2)] == [Instr(RPN_PUSH_NUM, 1), Instr(RPN_PUSH_NUM, 2)];
    Advance(src, Scan(2, [Instr(RPN_PUSH_NUM, 1)], [Op(RPN_ADD)], 0, true), Scan(3, [Instr(RPN_PUSH_NUM, 1), Instr(RPN_PUSH_NUM, 2)], [Op(RPN_ADD)], 0, false));
  }

  lemma OnePlusTwoFinish(src: seq<char>)
    requires Spells(src, "1+2")
    ensures CompileFrom(src, Scan(3, [Instr(RPN_PUSH_NUM, 1), Instr(RPN_PUSH_NUM, 2)], [Op(RPN_ADD)], 0, false)) == Ok([Instr(RPN_PUSH_NUM, 1), Instr(RPN_PUSH_NUM, 2), Instr(RPN_ADD, 0)])
  {
    Stop(src, Scan(3, [Instr(RPN_PUSH_NUM, 1), Instr(RPN_PUSH_NUM, 2)], [Op(RPN_ADD)], 0, false));
    assert [Op(RPN_ADD)][..0] == [];
    assert [Instr(RPN_PUSH_NUM, 1), Instr(RPN_PUSH_NUM, 2)] + [Instr(RPN_ADD, 0)] == [Instr(RPN_PUSH_NUM, 1), Instr(RPN_PUSH_NUM, 2), Instr(RPN_ADD, 0)];
    assert EmitTop([Instr(RPN_PUSH_NUM, 1), Instr(RPN_PUSH_NUM, 2)], [Op(RPN_ADD)]) == Ok([Instr(RPN_PUSH_NUM, 1), Instr(RPN_PUSH_NUM, 2), Instr(RPN_ADD, 0)]);
    assert PopAll([Instr(RPN_PUSH_NUM, 1), Instr(RPN_PUSH_NUM, 2), Instr(RPN_ADD, 0)], []) == Ok([Instr(RPN_PUSH_NUM, 1), Instr(RPN_PUSH_NUM, 2), Instr(RPN_ADD, 0)]);
    assert PopAll([Instr(RPN_PUSH_NUM, 1), Instr(RPN_PUSH_NUM, 2)], [Op(RPN_ADD)]) == Ok([Instr(RPN_PUSH_NUM, 1), Instr(RPN_PUSH_NUM, 2), Instr(RPN_ADD, 0)]);
  }

  lemma OnePlusTwoCompiles(src: seq<char>)
    requires Spells(src, "1+2")
    ensures Compile(src) == Ok([Instr(RPN_PUSH_NUM, 1), Instr(RPN_PUSH_NUM, 2), Instr(RPN_ADD, 0)])
  {
    OnePlusTwoStep0(src);
    OnePlusTwoStep1(src);
    OnePlusTwoStep2(src);
    OnePlusTwoFinish(src);
  }

  lemma OnePlusTwoTree()
    ensures Emit(Binary(RPN_ADD, Const(1), Const(2))) == [Instr(RPN_PUSH_NUM, 1), Instr(RPN_PUSH_NUM, 2), Instr(RPN_ADD, 0)]
  {
  }

  lemma OnePlusTwoValue(ws: WideShifts)
    ensures Denote(Binary(RPN_ADD, Const(1), Const(2)), 0, ws) == 3
  {
    assert Denote(Binary(RPN_ADD, Const(1), Const(2)), 0, ws) == 3;
  }

  /** `1+2` evaluates to 3. */
  lemma OnePlusTwo(ws: WideShifts)
    ensures Compile("1+2") == Ok(Emit(Binary(RPN_ADD, Const(1), Const(2))))
    ensures Evaluate(Emit(Binary(RPN_ADD, Const(1), Const(2))), 0, ws) == 3
  {
    OnePlusTwoCompiles("1+2");
    OnePlusTwoTree();
    EmitEvaluates(Binary(RPN_ADD, Const(1), Const(2)), 0, ws);
    OnePlusTwoValue(ws);
  }

  lemma TimesTwoStep0(src: seq<char>)
    requires Spells(src, "t*2")
    ensures CompileFrom(src, Scan(0, [], [], 0, true))
         == CompileFrom(src, Scan(1, [Instr(RPN_PUSH_T, 0)], [], 0, false))
  {
    assert [] + [Instr(RPN_PUSH_T, 0)] == [Instr(RPN_PUSH_T, 0)];
    Advance(src, Scan(0, [], [], 0, true), Scan(1, [Instr(RPN_PUSH_T, 0)], [], 0, false));
  }

  lemma TimesTwoStep1(src: seq<char>)
    requires Spells(src, "t*2")
    ensures CompileFrom(src, Scan(1, [Instr(RPN_PUSH_T, 0)], [], 0, false))
         == CompileFrom(src, Scan(2, [Instr(RPN_PUSH_T, 0)], [Op(RPN_MUL)], 0, true))
  {
    assert PopWhile([Instr(RPN_PUSH_T, 0)], [], 6, false) == Ok(([Instr(RPN_PUSH_T, 0)], []));
    assert [] + [Op(RPN_MUL)] == [Op(RPN_MUL)];
    Advance(src, Scan(1, [Instr(RPN_PUSH_T, 0)], [], 0, false), Scan(2, [Instr(RPN_PUSH_T, 0)], [Op(RPN_MUL)], 0, true));
  }

  lemma TimesTwoStep2(src: seq<char>)
    requires Spells(src, "t*2")
    ensures CompileFrom(src, Scan(2, [Instr(RPN_PUSH_T, 0)], [Op(RPN_MUL)], 0, true))
         == CompileFrom(src, Scan(3, [Instr(RPN_PUSH_T, 0), Instr(RPN_PUSH_NUM, 2)], [Op(RPN_MUL)], 0, false))
  {
    assert DecDigits(src, 3, 2) == (3, 2);
    assert DecDigits(src, 2, 0) == (3, 2);
    assert NumberAt(src, 2) == Ok((3, 2));
    assert [Instr(RPN_PUSH_T, 0)] + [Instr(RPN_PUSH_NUM, 2)] == [Instr(RPN_PUSH_T, 0), Instr(RPN_PUSH_NUM, 2)];
    Advance(src, Scan(2, [Instr(RPN_PUSH_T, 0)], [Op(RPN_MUL)], 0, true), Scan(3, [Instr(RPN_PUSH_T, 0), Instr(RPN_PUSH_NUM, 2)], [Op(RPN_MUL)], 0, false));
  }

  lemma TimesTwoFinish(src: seq<char>)
    requires Spells(src, "t*2")
    ensures CompileFrom(src, Scan(3, [Instr(RPN_PUSH_T, 0), Instr(RPN_PUSH_NUM, 2)], [Op(RPN_MUL)], 0, false)) == Ok([Instr(RPN_PUSH_T, 0), Instr(RPN_PUSH_NUM, 2), Instr(RPN_MUL, 0)])
  {
    Stop(src, Scan(3, [Instr(RPN_PUSH_T, 0), Instr(RPN_PUSH_NUM, 2)], [Op(RPN_MUL)], 0, false));
    assert [Op(RPN_MUL)][..0] == [];
    assert [Instr(RPN_PUSH_T, 0), Instr(RPN_PUSH_NUM, 2)] + [Instr(RPN_MUL, 0)] == [Instr(RPN_PUSH_T, 0), Instr(RPN_PUSH_NUM, 2), Instr(RPN_MUL, 0)];
    assert EmitTop([Instr(RPN_PUSH_T, 0), Instr(RPN_PUSH_NUM, 2)], [Op(RPN_MUL)]) == Ok([Instr(RPN_PUSH_T, 0), Instr(RPN_PUSH_NUM, 2), Instr(RPN_MUL, 0)]);
    assert PopAll([Instr(RPN_PUSH_T, 0), Instr(RPN_PUSH_NUM, 2), Instr(RPN_MUL, 0)], []) == Ok([Instr(RPN_PUSH_T, 0), Instr(RPN_PUSH_NUM, 2), Instr(RPN_MUL, 0)]);
    assert PopAll([Instr(RPN_PUSH_T, 0), Instr(RPN_PUSH_NUM, 2)], [Op(RPN_MUL)]) == Ok([Instr(RPN_PUSH_T, 0), Instr(RPN_PUSH_NUM, 2), Instr(RPN_MUL, 0)]);
  }

  lemma TimesTwoCompiles(src: seq<char>)
    requires Spells(src, "t*2")
    ensures Compile(src) == Ok([Instr(RPN_PUSH_T, 0), Instr(RPN_PUSH_NUM, 2), Instr(RPN_MUL, 0)])
  {
    TimesTwoStep0(src);
    TimesTwoStep1(src);
    TimesTwoStep2(src);
    TimesTwoFinish(src);
  }

  lemma TimesTwoTree()
    ensures Emit(Binary(RPN_MUL, TVar, Const(2))) == [Instr(RPN_PUSH_T, 0), Instr(RPN_PUSH_NUM, 2), Instr(RPN_MUL, 0)]
  {
  }

  lemma TimesTwoValue(ws: WideShifts)
    ensures Denote(Binary(RPN_MUL, TVar, Const(2)), 5, ws) == 0xa
  {
    assert Denote(Binary(RPN_MUL, TVar, Const(2)), 5, ws) == 0xa;
  }

  /** `t*2` at t = 5 evaluates to 10. */
  lemma TimesTwo(ws: WideShifts)
    ensures Compile("t*2") == Ok(Emit(Binary(RPN_MUL, TVar, Const(2))))
    ensures Evaluate(Emit(Binary(RPN_MUL, TVar, Const(2))), 5, ws) == 0xa
  {
    TimesTwoCompiles("t*2");
    TimesTwoTree();
    EmitEvaluates(Binary(RPN_MUL, TVar, Const(2)), 5, ws);
    TimesTwoValue(ws);
  }

  lemma BinaryLiteralsStep0(src: seq<char>)
    requires Spells(src, "0b1010&0b1100")
    ensures CompileFrom(src, Scan(0, [], [], 0, true))
         == CompileFrom(src, Scan(6, [Instr(RPN_PUSH_NUM, 0xa)], [], 0, false))
  {
    assert BinDigits(src, 6, 0xa) == (6, 0xa);
    assert BinDigits(src, 5, 5) == (6, 0xa);
    assert BinDigits(src, 4, 2) == (6, 0xa);
    assert BinDigits(src, 3, 1) == (6, 0xa);
    assert BinDigits(src, 2, 0) == (6, 0xa);
    assert NumberAt(src, 0) == Ok((6, 0xa));
    assert [] + [Instr(RPN_PUSH_NUM, 0xa)] == [Instr(RPN_PUSH_NUM, 0xa)];
    Advance(src, Scan(0, [], [], 0, true), Scan(6, [Instr(RPN_PUSH_NUM, 0xa)], [], 0, false));
  }

  lemma BinaryLiteralsStep1(src: seq<char>)
    requires Spells(src, "0b1010&0b1100")
    ensures CompileFrom(src, Scan(6, [Instr(RPN_PUSH_NUM, 0xa)], [], 0, false))
         == CompileFrom(src, Scan(7, [Instr(RPN_PUSH_NUM, 0xa)], [Op(RPN_AND)], 0, true))
  {
    assert PopWhile([Instr(RPN_PUSH_NUM, 0xa)], [], 1, false) == Ok(([Instr(RPN_PUSH_NUM, 0xa)], []));
    assert [] + [Op(RPN_AND)] == [Op(RPN_AND)];
    Advance(src, Scan(6, [Instr(RPN_PUSH_NUM, 0xa)], [], 0, false), Scan(7, [Instr(RPN_PUSH_NUM, 0xa)], [Op(RPN_AND)], 0, true));
  }

  lemma BinaryLiteralsStep2(src: seq<char>)
    requires Spells(src, "0b1010&0b1100")
    ensures CompileFrom(src, Scan(7, [Instr(RPN_PUSH_NUM, 0xa)], [Op(RPN_AND)], 0, true))
         == CompileFrom(src, Scan(13, [Instr(RPN_PUSH_NUM, 0xa), Instr(RPN_PUSH_NUM, 0xc)], [Op(RPN_AND)], 0, false))
  {
    assert BinDigits(src, 13, 0xc) == (13, 0xc);
    assert BinDigits(src, 12, 6) == (13, 0xc);
    assert BinDigits(src, 11, 3) == (13, 0xc);
    assert BinDigits(src, 10, 1) == (13, 0xc);
    assert BinDigits(src, 9, 0) == (13, 0xc);
    assert NumberAt(src, 7) == Ok((13, 0xc));
    assert [Instr(RPN_PUSH_NUM, 0xa)] + [Instr(RPN_PUSH_NUM, 0xc)] == [Instr(RPN_PUSH_NUM, 0xa), Instr(RPN_PUSH_NUM, 0xc)];
    Advance(src, Scan(7, [Instr(RPN_PUSH_NUM, 0xa)], [Op(RPN_AND)], 0, true), Scan(13, [Instr(RPN_PUSH_NUM, 0xa), Instr(RPN_PUSH_NUM, 0xc)], [Op(RPN_AND)], 0, false));
  }

  lemma BinaryLiteralsFinish(src: seq<char>)
    requires Spells(src, "0b1010&0b1100")
    ensures CompileFrom(src, Scan(13, [Instr(RPN_PUSH_NUM, 0xa), Instr(RPN_PUSH_NUM, 0xc)], [Op(RPN_AND)], 0, false)) == Ok([Instr(RPN_PUSH_NUM, 0xa), Instr(RPN_PUSH_NUM, 0xc), Instr(RPN_AND, 0)])
  {
    Stop(src, Scan(13, [Instr(RPN_PUSH_NUM, 0xa), Instr(RPN_PUSH_NUM, 0xc)], [Op(RPN_AND)], 0, false));
    assert [Op(RPN_AND)][..0] == [];
    assert [Instr(RPN_PUSH_NUM, 0xa), Instr(RPN_PUSH_NUM, 0xc)] + [Instr(RPN_AND, 0)] == [Instr(RPN_PUSH_NUM, 0xa), Instr(RPN_PUSH_NUM, 0xc), Instr(RPN_AND, 0)];
    assert EmitTop([Instr(RPN_PUSH_NUM, 0xa), Instr(RPN_PUSH_NUM, 0xc)], [Op(RPN_AND)]) == Ok([Instr(RPN_PUSH_NUM, 0xa), Instr(RPN_PUSH_NUM, 0xc), Instr(RPN_AND, 0)]);
    assert PopAll([Instr(RPN_PUSH_NUM, 0xa), Instr(RPN_PUSH_NUM, 0xc), Instr(RPN_AND, 0)], []) == Ok([Instr(RPN_PUSH_NUM, 0xa), Instr(RPN_PUSH_NUM, 0xc), Instr(RPN_AND, 0)]);
    assert PopAll([Instr(RPN_PUSH_NUM, 0xa), Instr(RPN_PUSH_NUM, 0xc)], [Op(RPN_AND)]) == Ok([Instr(RPN_PUSH_NUM, 0xa), Instr(RPN_PUSH_NUM, 0xc), Instr(RPN_AND, 0)]);
  }

  lemma BinaryLiteralsCompiles(src: seq<char>)
    requires Spells(src, "0b1010&0b1100")
    ensures Compile(src) == Ok([Instr(RPN_PUSH_NUM, 0xa), Instr(RPN_PUSH_NUM, 0xc), Instr(RPN_AND, 0)])
  {
    BinaryLiteralsStep0(src);
    BinaryLiteralsStep1(src);
    BinaryLiteralsStep2(src);
    BinaryLiteralsFinish(src);
  }

  lemma BinaryLiteralsTree()
    ensures Emit(Binary(RPN_AND, Const(0xa), Const(0xc))) == [Instr(RPN_PUSH_NUM, 0xa), Instr(RPN_PUSH_NUM, 0xc), Instr(RPN_AND, 0)]
  {
  }

  lemma BinaryLiteralsValue(ws: WideShifts)
    ensures Denote(Binary(RPN_AND, Const(0xa), Const(0xc)), 0, ws) == 8
  {
    assert Denote(Binary(RPN_AND, Const(0xa), Const(0xc)), 0, ws) == 8;
  }

  /** Binary literals: `0b1010&0b1100` evaluates to 8. */
  lemma BinaryLiterals(ws: WideShifts)
    ensures Compile("0b1010&0b1100") == Ok(Emit(Binary(RPN_AND, Const(0xa), Const(0xc))))
    ensures Evaluate(Emit(Binary(RPN_AND, Const(0xa), Const(0xc))), 0, ws) == 8
  {
    BinaryLiteralsCompiles("0b1010&0b1100");
    BinaryLiteralsTree();
    EmitEvaluates(Binary(RPN_AND, Const(0xa), Const(0xc)), 0, ws);
    BinaryLiteralsValue(ws);
  }

  lemma HexLiteralsStep0(src: seq<char>)
    requires Spells(src, "0xFF+0x01")
    ensures CompileFrom(src, Scan(0, [], [], 0, true))
         == CompileFrom(src, Scan(4, [Instr(RPN_PUSH_NUM, 0xff)], [], 0, false))
  {
    HexLiteralsFirstNumber(src);
    assert [] + [Instr(RPN_PUSH_NUM, 0xff)] == [Instr(RPN_PUSH_NUM, 0xff)];
    Advance(src, Scan(0, [], [], 0, true), Scan(4, [Instr(RPN_PUSH_NUM, 0xff)], [], 0, false));
  }

  lemma HexLiteralsFirstNumber(src: seq<char>)
    requires Spells(src, "0xFF+0x01")
    ensures NumberAt(src, 0) == Ok((4, 0xff))
  {
    assert HexDigits(src, 4, 0xff) == (4, 0xff);
    assert HexDigits(src, 3, 0xf) == (4, 0xff);
    assert HexDigits(src, 2, 0) == (4, 0xff);
  }

  lemma HexLiteralsStep1(src: seq<char>)
    requires Spells(src, "0xFF+0x01")
    ensures CompileFrom(src, Scan(4, [Instr(RPN_PUSH_NUM, 0xff)], [], 0, false))
         == CompileFrom(src, Scan(5, [Instr(RPN_PUSH_NUM, 0xff)], [Op(RPN_ADD)], 0, true))
  {
    assert PopWhile([Instr(RPN_PUSH_NUM, 0xff)], [], 5, false) == Ok(([Instr(RPN_PUSH_NUM, 0xff)], []));
    assert [] + [Op(RPN_ADD)] == [Op(RPN_ADD)];
    Advance(src, Scan(4, [Instr(RPN_PUSH_NUM, 0xff)], [], 0, false), Scan(5, [Instr(RPN_PUSH_NUM, 0xff)], [Op(RPN_ADD)], 0, true));
  }

  lemma HexLiteralsStep2(src: seq<char>)
    requires Spells(src, "0xFF+0x01")
    ensures CompileFrom(src, Scan(5, [Instr(RPN_PUSH_NUM, 0xff)], [Op(RPN_ADD)], 0, true))
         == CompileFrom(src, Scan(9, [Instr(RPN_PUSH_NUM, 0xff), Instr(RPN_PUSH_NUM, 1)], [Op(RPN_ADD)], 0, false))
  {
    HexLiteralsSecondNumber(src);
    assert [Instr(RPN_PUSH_NUM, 0xff)] + [Instr(RPN_PUSH_NUM, 1)] == [Instr(RPN_PUSH_NUM, 0xff), Instr(RPN_PUSH_NUM, 1)];
    Advance(src, Scan(5, [Instr(RPN_PUSH_NUM, 0xff)], [Op(RPN_ADD)], 0, true), Scan(9, [Instr(RPN_PUSH_NUM, 0xff), Instr(RPN_PUSH_NUM, 1)], [Op(RPN_ADD)], 0, false));
  }

  lemma HexLiteralsSecondNumber(src: seq<char>)
    requires Spells(src, "0xFF+0x01")
    ensures NumberAt(src, 5) == Ok((9, 1))
  {
    assert HexDigits(src, 9, 1) == (9, 1);
    assert HexDigits(src, 8, 0) == (9, 1);
    assert HexDigits(src, 7, 0) == (9, 1);
  }

  lemma HexLiteralsFinish(src: seq<char>)
    requires Spells(src, "0xFF+0x01")
    ensures CompileFrom(src, Scan(9, [Instr(RPN_PUSH_NUM, 0xff), Instr(RPN_PUSH_NUM, 1)], [Op(RPN_ADD)], 0, false)) == Ok([Instr(RPN_PUSH_NUM, 0xff), Instr(RPN_PUSH_NUM, 1), Instr(RPN_ADD, 0)])
  {
    Stop(src, Scan(9, [Instr(RPN_PUSH_NUM, 0xff), Instr(RPN_PUSH_NUM, 1)], [Op(RPN_ADD)], 0, false));
    assert [Op(RPN_ADD)][..0] == [];
    assert [Instr(RPN_PUSH_NUM, 0xff), Instr(RPN_PUSH_NUM, 1)] + [Instr(RPN_ADD, 0)] == [Instr(RPN_PUSH_NUM, 0xff), Instr(RPN_PUSH_NUM, 1), Instr(RPN_ADD, 0)];
    assert EmitTop([Instr(RPN_PUSH_NUM, 0xff), Instr(RPN_PUSH_NUM, 1)], [Op(RPN_ADD)]) == Ok([Instr(RPN_PUSH_NUM, 0xff), Instr(RPN_PUSH_NUM, 1), Instr(RPN_ADD, 0)]);
    assert PopAll([Instr(RPN_PUSH_NUM, 0xff), Instr(RPN_PUSH_NUM, 1), Instr(RPN_ADD, 0)], []) == Ok([Instr(RPN_PUSH_NUM, 0xff), Instr(RPN_PUSH_NUM, 1), Instr(RPN_ADD, 0)]);
    assert PopAll([Instr(RPN_PUSH_NUM, 0xff), Instr(RPN_PUSH_NUM, 1)], [Op(RPN_ADD)]) == Ok([Instr(RPN_PUSH_NUM, 0xff), Instr(RPN_PUSH_NUM, 1), Instr(RPN_ADD, 0)]);
  }

  lemma HexLiteralsCompiles(src: seq<char>)
    requires Spells(src, "0xFF+0x01")
    ensures Compile(src) == Ok([Instr(RPN_PUSH_NUM, 0xff), Instr(RPN_PUSH_NUM, 1), Instr(RPN_ADD, 0)])
  {
    HexLiteralsStep0(src);
    HexLiteralsStep1(src);
    HexLiteralsStep2(src);
    HexLiteralsFinish(src);
  }

  lemma HexLiteralsTree()
    ensures Emit(Binary(RPN_ADD, Const(0xff), Const(1))) == [Instr(RPN_PUSH_NUM, 0xff), Instr(RPN_PUSH_NUM, 1), Instr(RPN_ADD, 0)]
  {
  }

  lemma HexLiteralsValue(ws: WideShifts)
    ensures Denote(Binary(RPN_ADD, Const(0xff), Const(1)), 0, ws) == 0x100
  {
    assert Denote(Binary(RPN_ADD, Const(0xff), Const(1)), 0, ws) == 0x100;
  }

  /** Hex literals: `0xFF+0x01` evaluates to 256. */
  lemma HexLiterals(ws: WideShifts)
    ensures Compile("0xFF+0x01") == Ok(Emit(Binary(RPN_ADD, Const(0xff), Const(1))))
    ensures Evaluate(Emit(Binary(RPN_ADD, Const(0xff), Const(1))), 0, ws) == 0x100
  {
    HexLiteralsCompiles("0xFF+0x01");
    HexLiteralsTree();
    EmitEvaluates(Binary(RPN_ADD, Const(0xff), Const(1)), 0, ws);
    HexLiteralsValue(ws);
  }

  lemma ClassicBytebeatStep0(src: seq<char>)
    requires Spells(src, "t*(42&t>>10)")
    ensures CompileFrom(src, Scan(0, [], [], 0, true))
         == CompileFrom(src, Scan(1, [Instr(RPN_PUSH_T, 0)], [], 0, false))
  {
    assert [] + [Instr(RPN_PUSH_T, 0)] == [Instr(RPN_PUSH_T, 0)];
    Advance(src, Scan(0, [], [], 0, true), Scan(1, [Instr(RPN_PUSH_T, 0)], [], 0, false));
  }

  lemma ClassicBytebeatStep1(src: seq<char>)
    requires Spells(src, "t*(42&t>>10)")
    ensures CompileFrom(src, Scan(1, [Instr(RPN_PUSH_T, 0)], [], 0, false))
         == CompileFrom(src, Scan(2, [Instr(RPN_PUSH_T, 0)], [Op(RPN_MUL)], 0, true))
  {
    assert PopWhile([Instr(RPN_PUSH_T, 0)], [], 6, false) == Ok(([Instr(RPN_PUSH_T, 0)], []));
    assert [] + [Op(RPN_MUL)] == [Op(RPN_MUL)];
    Advance(src, Scan(1, [Instr(RPN_PUSH_T, 0)], [], 0, false), Scan(2, [Instr(RPN_PUSH_T, 0)], [Op(RPN_MUL)], 0, true));
  }

  lemma ClassicBytebeatStep2(src: seq<char>)
    requires Spells(src, "t*(42&t>>10)")
    ensures CompileFrom(src, Scan(2, [Instr(RPN_PUSH_T, 0)], [Op(RPN_MUL)], 0, true))
         == CompileFrom(src, Scan(3, [Instr(RPN_PUSH_T, 0)], [Op(RPN_MUL), OpenParen], 1, true))
  {
    assert [Op(RPN_MUL)] + [OpenParen] == [Op(RPN_MUL), OpenParen];
    Advance(src, Scan(2, [Instr(RPN_PUSH_T, 0)], [Op(RPN_MUL)], 0, true), Scan(3, [Instr(RPN_PUSH_T, 0)], [Op(RPN_MUL), OpenParen], 1, true));
  }

  lemma ClassicBytebeatStep3(src: seq<char>)
    requires Spells(src, "t*(42&t>>10)")
    ensures CompileFrom(src, Scan(3, [Instr(RPN_PUSH_T, 0)], [Op(RPN_MUL), OpenParen], 1, true))
         == CompileFrom(src, Scan(5, [Instr(RPN_PUSH_T, 0), Instr(RPN_PUSH_NUM, 0x2a)], [Op(RPN_MUL), OpenParen], 1, false))
  {
    assert DecDigits(src, 5, 0x2a) == (5, 0x2a);
    assert DecDigits(src, 4, 4) == (5, 0x2a);
    assert DecDigits(src, 3, 0) == (5, 0x2a);
    assert NumberAt(src, 3) == Ok((5, 0x2a));
    assert [Instr(RPN_PUSH_T, 0)] + [Instr(RPN_PUSH_NUM, 0x2a)] == [Instr(RPN_PUSH_T, 0), Instr(RPN_PUSH_NUM, 0x2a)];
    Advance(src, Scan(3, [Instr(RPN_PUSH_T, 0)], [Op(RPN_MUL), OpenParen], 1, true), Scan(5, [Instr(RPN_PUSH_T, 0), Instr(RPN_PUSH_NUM, 0x2a)], [Op(RPN_MUL), OpenParen], 1, false));
  }

  lemma ClassicBytebeatStep4(src: seq<char>)
    requires Spells(src, "t*(42&t>>10)")
    ensures CompileFrom(src, Scan(5, [Instr(RPN_PUSH_T, 0), Instr(RPN_PUSH_NUM, 0x2a)], [Op(RPN_MUL), OpenParen], 1, false))
         == CompileFrom(src, Scan(6, [Instr(RPN_PUSH_T, 0), Instr(RPN_PUSH_NUM, 0x2a)], [Op(RPN_MUL), OpenParen, Op(RPN_AND)], 1, true))
  {
    assert PopWhile([Instr(RPN_PUSH_T, 0), Instr(RPN_PUSH_NUM, 0x2a)], [Op(RPN_MUL), OpenParen], 1, false) == Ok(([Instr(RPN_PUSH_T, 0), Instr(RPN_PUSH_NUM, 0x2a)], [Op(RPN_MUL), OpenParen]));
    assert [Op(RPN_MUL), OpenParen] + [Op(RPN_AND)] == [Op(RPN_MUL), OpenParen, Op(RPN_AND)];
    Advance(src, Scan(5, [Instr(RPN_PUSH_T, 0), Instr(RPN_PUSH_NUM, 0x2a)], [Op(RPN_MUL), OpenParen], 1, false), Scan(6, [Instr(RPN_PUSH_T, 0), Instr(RPN_PUSH_NUM, 0x2a)], [Op(RPN_MUL), OpenParen, Op(RPN_AND)], 1, true));
  }

  lemma ClassicBytebeatStep5(src: seq<char>)
    requires Spells(src, "t*(42&t>>10)")
    ensures CompileFrom(src, Scan(6, [Instr(RPN_PUSH_T, 0), Instr(RPN_PUSH_NUM, 0x2a)], [Op(RPN_MUL), OpenParen, Op(RPN_AND)], 1, true))
         == CompileFrom(src, Scan(7, [Instr(RPN_PUSH_T, 0), Instr(RPN_PUSH_NUM, 0x2a), Instr(RPN_PUSH_T, 0)], [Op(RPN_MUL), OpenParen, Op(RPN_AND)], 1, false))
  {
    assert [Instr(RPN_PUSH_T, 0), Instr(RPN_PUSH_NUM, 0x2a)] + [Instr(RPN_PUSH_T, 0)] == [Instr(RPN_PUSH_T, 0), Instr(RPN_PUSH_NUM, 0x2a), Instr(RPN_PUSH_T, 0)];
    Advance(src, Scan(6, [Instr(RPN_PUSH_T, 0), Instr(RPN_PUSH_NUM, 0x2a)], [Op(RPN_MUL), OpenParen, Op(RPN_AND)], 1, true), Scan(7, [Instr(RPN_PUSH_T, 0), Instr(RPN_PUSH_NUM, 0x2a), Instr(RPN_PUSH_T, 0)], [Op(RPN_MUL), OpenParen, Op(RPN_AND)], 1, false));
  }

  lemma ClassicBytebeatStep6(src: seq<char>)
    requires Spells(src, "t*(42&t>>10)")
    ensures CompileFrom(src, Scan(7, [Instr(RPN_PUSH_T, 0), Instr(RPN_PUSH_NUM, 0x2a), Instr(RPN_PUSH_T, 0)], [Op(RPN_MUL), OpenParen, Op(RPN_AND)], 1, false))
         == CompileFrom(src, Scan(9, [Instr(RPN_PUSH_T, 0), Instr(RPN_PUSH_NUM, 0x2a), Instr(RPN_PUSH_T, 0)], [Op(RPN_MUL), OpenParen, Op(RPN_AND), Op(RPN_SHR)], 1, true))
  {
    assert PopWhile([Instr(RPN_PUSH_T, 0), Instr(RPN_PUSH_NUM, 0x2a), Instr(RPN_PUSH_T, 0)], [Op(RPN_MUL), OpenParen, Op(RPN_AND)], 4, false) == Ok(([Instr(RPN_PUSH_T, 0), Instr(RPN_PUSH_NUM, 0x2a), Instr(RPN_PUSH_T, 0)], [Op(RPN_MUL), OpenParen, Op(RPN_AND)]));
    assert [Op(RPN_MUL), OpenParen, Op(RPN_AND)] + [Op(RPN_SHR)] == [Op(RPN_MUL), OpenParen, Op(RPN_AND), Op(RPN_SHR)];
    Advance(src, Scan(7, [Instr(RPN_PUSH_T, 0), Instr(RPN_PUSH_NUM, 0x2a), Instr(RPN_PUSH_T, 0)], [Op(RPN_MUL), OpenParen, Op(RPN_AND)], 1, false), Scan(9, [Instr(RPN_PUSH_T, 0), Instr(RPN_PUSH_NUM, 0x2a), Instr(RPN_PUSH_T, 0)], [Op(RPN_MUL), OpenParen, Op(RPN_AND), Op(RPN_SHR)], 1, true));
  }

  lemma ClassicBytebeatStep7(src: seq<char>)
    requires Spells(src, "t*(42&t>>10)")
    ensures CompileFrom(src, Scan(9, [Instr(RPN_PUSH_T, 0), Instr(RPN_PUSH_NUM, 0x2a), Instr(RPN_PUSH_T, 0)], [Op(RPN_MUL), OpenParen, Op(RPN_AND), Op(RPN_SHR)], 1, true))
         == CompileFrom(src, Scan(11, [Instr(RPN_PUSH_T, 0), Instr(RPN_PUSH_NUM, 0x2a), Instr(RPN_PUSH_T, 0), Instr(RPN_PUSH_NUM, 0xa)], [Op(RPN_MUL), OpenParen, Op(RPN_AND), Op(RPN_SHR)], 1, false))
  {
    assert DecDigits(src, 11, 0xa) == (11, 0xa);
    assert DecDigits(src, 10, 1) == (11, 0xa);
    assert DecDigits(src, 9, 0) == (11, 0xa);
    assert NumberAt(src, 9) == Ok((11, 0xa));
    assert [Instr(RPN_PUSH_T, 0), Instr(RPN_PUSH_NUM, 0x2a), Instr(RPN_PUSH_T, 0)] + [Instr(RPN_PUSH_NUM, 0xa)] == [Instr(RPN_PUSH_T, 0), Instr(RPN_PUSH_NUM, 0x2a), Instr(RPN_PUSH_T, 0), Instr(RPN_PUSH_NUM, 0xa)];
    Advance(src, Scan(9, [Instr(RPN_PUSH_T, 0), Instr(RPN_PUSH_NUM, 0x2a), Instr(RPN_PUSH_T, 0)], [Op(RPN_MUL), OpenParen, Op(RPN_AND), Op(RPN_SHR)], 1, true), Scan(11, [Instr(RPN_PUSH_T, 0), Instr(RPN_PUSH_NUM, 0x2a), Instr(RPN_PUSH_T, 0), Instr(RPN_PUSH_NUM, 0xa)], [Op(RPN_MUL), OpenParen, Op(RPN_AND), Op(RPN_SHR)], 1, false));
  }

  lemma ClassicBytebeatStep8(src: seq<char>)
    requires Spells(src, "t*(42&t>>10)")
    ensures CompileFrom(src, Scan(11, [Instr(RPN_PUSH_T, 0), Instr(RPN_PUSH_NUM, 0x2a), Instr(RPN_PUSH_T, 0), Instr(RPN_PUSH_NUM, 0xa)], [Op(RPN_MUL), OpenParen, Op(RPN_AND), Op(RPN_SHR)], 1, false))
         == CompileFrom(src, Scan(12, [Instr(RPN_PUSH_T, 0), Instr(RPN_PUSH_NUM, 0x2a), Instr(RPN_PUSH_T, 0), Instr(RPN_PUSH_NUM, 0xa), Instr(RPN_SHR, 0), Instr(RPN_AND, 0)], [Op(RPN_MUL)], 0, false))
  {
    assert [Op(RPN_MUL), OpenParen, Op(RPN_AND), Op(RPN_SHR)][..3] == [Op(RPN_MUL), OpenParen, Op(RPN_AND)];
    assert [Instr(RPN_PUSH_T, 0), Instr(RPN_PUSH_NUM, 0x2a), Instr(RPN_PUSH_T, 0), Instr(RPN_PUSH_NUM, 0xa)] + [Instr(RPN_SHR, 0)] == [Instr(RPN_PUSH_T, 0), Instr(RPN_PUSH_NUM, 0x2a), Instr(RPN_PUSH_T, 0), Instr(RPN_PUSH_NUM, 0xa), Instr(RPN_SHR, 0)];
    assert EmitTop([Instr(RPN_PUSH_T, 0), Instr(RPN_PUSH_NUM, 0x2a), Instr(RPN_PUSH_T, 0), Instr(RPN_PUSH_NUM, 0xa)], [Op(RPN_MUL), OpenParen, Op(RPN_AND), Op(RPN_SHR)]) == Ok([Instr(RPN_PUSH_T, 0), Instr(RPN_PUSH_NUM, 0x2a), Instr(RPN_PUSH_T, 0), Instr(RPN_PUSH_NUM, 0xa), Instr(RPN_SHR, 0)]);
    assert [Op(RPN_MUL), OpenParen, Op(RPN_AND)][..2] == [Op(RPN_MUL), OpenParen];
    assert [Instr(RPN_PUSH_T, 0), Instr(RPN_PUSH_NUM, 0x2a), Instr(RPN_PUSH_T, 0), Instr(RPN_PUSH_NUM, 0xa), Instr(RPN_SHR, 0)] + [Instr(RPN_AND, 0)] == [Instr(RPN_PUSH_T, 0), Instr(RPN_PUSH_NUM, 0x2a), Instr(RPN_PUSH_T, 0), Instr(RPN_PUSH_NUM, 0xa), Instr(RPN_SHR, 0), Instr(RPN_AND, 0)];
    assert EmitTop([Instr(RPN_PUSH_T, 0), Instr(RPN_PUSH_NUM, 0x2a), Instr(RPN_PUSH_T, 0), Instr(RPN_PUSH_NUM, 0xa), Instr(RPN_SHR, 0)], [Op(RPN_MUL), OpenParen, Op(RPN_AND)]) == Ok([Instr(RPN_PUSH_T, 0), Instr(RPN_PUSH_NUM, 0x2a), Instr(RPN_PUSH_T, 0), Instr(RPN_PUSH_NUM, 0xa), Instr(RPN_SHR, 0), Instr(RPN_AND, 0)]);
    assert PopToParen([Instr(RPN_PUSH_T, 0), Instr(RPN_PUSH_NUM, 0x2a), Instr(RPN_PUSH_T, 0), Instr(RPN_PUSH_NUM, 0xa), Instr(RPN_SHR, 0), Instr(RPN_AND, 0)], [Op(RPN_MUL), OpenParen]) == Ok(([Instr(RPN_PUSH_T, 0), Instr(RPN_PUSH_NUM, 0x2a), Instr(RPN_PUSH_T, 0), Instr(RPN_PUSH_NUM, 0xa), Instr(RPN_SHR, 0), Instr(RPN_AND, 0)], [Op(RPN_MUL), OpenParen]));
    assert PopToParen([Instr(RPN_PUSH_T, 0), Instr(RPN_PUSH_NUM, 0x2a), Instr(RPN_PUSH_T, 0), Instr(RPN_PUSH_NUM, 0xa), Instr(RPN_SHR, 0)], [Op(RPN_MUL), OpenParen, Op(RPN_AND)]) == Ok(([Instr(RPN_PUSH_T, 0), Instr(RPN_PUSH_NUM, 0x2a), Instr(RPN_PUSH_T, 0), Instr(RPN_PUSH_NUM, 0xa), Instr(RPN_SHR, 0), Instr(RPN_AND, 0)], [Op(RPN_MUL), OpenParen]));
    assert PopToParen([Instr(RPN_PUSH_T, 0), Instr(RPN_PUSH_NUM, 0x2a), Instr(RPN_PUSH_T, 0), Instr(RPN_PUSH_NUM, 0xa)], [Op(RPN_MUL), OpenParen, Op(RPN_AND), Op(RPN_SHR)]) == Ok(([Instr(RPN_PUSH_T, 0), Instr(RPN_PUSH_NUM, 0x2a), Instr(RPN_PUSH_T, 0), Instr(RPN_PUSH_NUM, 0xa), Instr(RPN_SHR, 0), Instr(RPN_AND, 0)], [Op(RPN_MUL), OpenParen]));
    assert [Op(RPN_MUL), OpenParen, Op(RPN_AND), Op(RPN_SHR)][..3] == [Op(RPN_MUL), OpenParen, Op(RPN_AND)];
    assert [Op(RPN_MUL), OpenParen, Op(RPN_AND)][..2] == [Op(RPN_MUL), OpenParen];
    assert [Op(RPN_MUL), OpenParen][..1] == [Op(RPN_MUL)];
    assert [Instr(RPN_PUSH_T, 0), Instr(RPN_PUSH_NUM, 0x2a), Instr(RPN_PUSH_T, 0), Instr(RPN_PUSH_NUM, 0xa)] + [Instr(RPN_SHR, 0)] == [Instr(RPN_PUSH_T, 0), Instr(RPN_PUSH_NUM, 0x2a), Instr(RPN_PUSH_T, 0), Instr(RPN_PUSH_NUM, 0xa), Instr(RPN_SHR, 0)];
    assert [Instr(RPN_PUSH_T, 0), Instr(RPN_PUSH_NUM, 0x2a), Instr(RPN_PUSH_T, 0), Instr(RPN_PUSH_NUM, 0xa), Instr(RPN_SHR, 0)] + [Instr(RPN_AND, 0)] == [Instr(RPN_PUSH_T, 0), Instr(RPN_PUSH_NUM, 0x2a), Instr(RPN_PUSH_T, 0), Instr(RPN_PUSH_NUM, 0xa), Instr(RPN_SHR, 0), Instr(RPN_AND, 0)];
    Advance(src, Scan(11, [Instr(RPN_PUSH_T, 0), Instr(RPN_PUSH_NUM, 0x2a), Instr(RPN_PUSH_T, 0), Instr(RPN_PUSH_NUM, 0xa)], [Op(RPN_MUL), OpenParen, Op(RPN_AND), Op(RPN_SHR)], 1, false), Scan(12, [Instr(RPN_PUSH_T, 0), Instr(RPN_PUSH_NUM, 0x2a), Instr(RPN_PUSH_T, 0), Instr(RPN_PUSH_NUM, 0xa), Instr(RPN_SHR, 0), Instr(RPN_AND, 0)], [Op(RPN_MUL)], 0, false));
  }

  lemma ClassicBytebeatFinish(src: seq<char>)
    requires Spells(src, "t*(42&t>>10)")
    ensures CompileFrom(src, Scan(12, [Instr(RPN_PUSH_T, 0), Instr(RPN_PUSH_NUM, 0x2a), Instr(RPN_PUSH_T, 0), Instr(RPN_PUSH_NUM, 0xa), Instr(RPN_SHR, 0), Instr(RPN_AND, 0)], [Op(RPN_MUL)], 0, false)) == Ok([Instr(RPN_PUSH_T, 0), Instr(RPN_PUSH_NUM, 0x2a), Instr(RPN_PUSH_T, 0), Instr(RPN_PUSH_NUM, 0xa), Instr(RPN_SHR, 0), Instr(RPN_AND, 0), Instr(RPN_MUL, 0)])
  {
    Stop(src, Scan(12, [Instr(RPN_PUSH_T, 0), Instr(RPN_PUSH_NUM, 0x2a), Instr(RPN_PUSH_T, 0), Instr(RPN_PUSH_NUM, 0xa), Instr(RPN_SHR, 0), Instr(RPN_AND, 0)], [Op(RPN_MUL)], 0, false));
    assert [Op(RPN_MUL)][..0] == [];
    assert [Instr(RPN_PUSH_T, 0), Instr(RPN_PUSH_NUM, 0x2a), Instr(RPN_PUSH_T, 0), Instr(RPN_PUSH_NUM, 0xa), Instr(RPN_SHR, 0), Instr(RPN_AND, 0)] + [Instr(RPN_MUL, 0)] == [Instr(RPN_PUSH_T, 0), Instr(RPN_PUSH_NUM, 0x2a), Instr(RPN_PUSH_T, 0), Instr(RPN_PUSH_NUM, 0xa), Instr(RPN_SHR, 0), Instr(RPN_AND, 0), Instr(RPN_MUL, 0)];
    assert EmitTop([Instr(RPN_PUSH_T, 0), Instr(RPN_PUSH_NUM, 0x2a), Instr(RPN_PUSH_T, 0), Instr(RPN_PUSH_NUM, 0xa), Instr(RPN_SHR, 0), Instr(RPN_AND, 0)], [Op(RPN_MUL)]) == Ok([Instr(RPN_PUSH_T, 0), Instr(RPN_PUSH_NUM, 0x2a), Instr(RPN_PUSH_T, 0), Instr(RPN_PUSH_NUM, 0xa), Instr(RPN_SHR, 0), Instr(RPN_AND, 0), Instr(RPN_MUL, 0)]);
    assert PopAll([Instr(RPN_PUSH_T, 0), Instr(RPN_PUSH_NUM, 0x2a), Instr(RPN_PUSH_T, 0), Instr(RPN_PUSH_NUM, 0xa), Instr(RPN_SHR, 0), Instr(RPN_AND, 0), Instr(RPN_MUL, 0)], []) == Ok([Instr(RPN_PUSH_T, 0), Instr(RPN_PUSH_NUM, 0x2a), Instr(RPN_PUSH_T, 0), Instr(RPN_PUSH_NUM, 0xa), Instr(RPN_SHR, 0), Instr(RPN_AND, 0), Instr(RPN_MUL, 0)]);
    assert PopAll([Instr(RPN_PUSH_T, 0), Instr(RPN_PUSH_NUM, 0x2a), Instr(RPN_PUSH_T, 0), Instr(RPN_PUSH_NUM, 0xa), Instr(RPN_SHR, 0), Instr(RPN_AND, 0)], [Op(RPN_MUL)]) == Ok([Instr(RPN_PUSH_T, 0), Instr(RPN_PUSH_NUM, 0x2a), Instr(RPN_PUSH_T, 0), Instr(RPN_PUSH_NUM, 0xa), Instr(RPN_SHR, 0), Instr(RPN_AND, 0), Instr(RPN_MUL, 0)]);
  }

  lemma ClassicBytebeatCompiles(src: seq<char>)
    requires Spells(src, "t*(42&t>>10)")
    ensures Compile(src) == Ok([Instr(RPN_PUSH_T, 0), Instr(RPN_PUSH_NUM, 0x2a), Instr(RPN_PUSH_T, 0), Instr(RPN_PUSH_NUM, 0xa), Instr(RPN_SHR, 0), Instr(RPN_AND, 0), Instr(RPN_MUL, 0)])
  {
    ClassicBytebeatStep0(src);
    ClassicBytebeatStep1(src);
    ClassicBytebeatStep2(src);
    ClassicBytebeatStep3(src);
    ClassicBytebeatStep4(src);
    ClassicBytebeatStep5(src);
    ClassicBytebeatStep6(src);
    ClassicBytebeatStep7(src);
    ClassicBytebeatStep8(src);
    ClassicBytebeatFinish(src);
  }

  lemma ClassicBytebeatTree()
    ensures Emit(Binary(RPN_MUL, TVar, Binary(RPN_AND, Const(0x2a), Binary(RPN_SHR, TVar, Const(0xa))))) == [Instr(RPN_PUSH_T, 0), Instr(RPN_PUSH_NUM, 0x2a), Instr(RPN_PUSH_T, 0), Instr(RPN_PUSH_NUM, 0xa), Instr(RPN_SHR, 0), Instr(RPN_AND, 0), Instr(RPN_MUL, 0)]
  {
  }

  lemma ClassicBytebeatValue(ws: WideShifts)
    ensures Denote(Binary(RPN_MUL, TVar, Binary(RPN_AND, Const(0x2a), Binary(RPN_SHR, TVar, Const(0xa)))), 0x3e8, ws) == 0
  {
    assert Denote(Binary(RPN_SHR, TVar, Const(0xa)), 0x3e8, ws) == 0;
    assert Denote(Binary(RPN_AND, Const(0x2a), Binary(RPN_SHR, TVar, Const(0xa))), 0x3e8, ws) == 0;
    assert Denote(Binary(RPN_MUL, TVar, Binary(RPN_AND, Const(0x2a), Binary(RPN_SHR, TVar, Const(0xa)))), 0x3e8, ws) == 0;
  }

  /** `t*(42&t>>10)` compiles to the postfix code of the C expression, which it computes for every t; at t = 1000 that is 0. */
  lemma ClassicBytebeat(ws: WideShifts)
    ensures Compile("t*(42&t>>10)") == Ok(Emit(Binary(RPN_MUL, TVar, Binary(RPN_AND, Const(0x2a), Binary(RPN_SHR, TVar, Const(0xa))))))
    ensures Evaluate(Emit(Binary(RPN_MUL, TVar, Binary(RPN_AND, Const(0x2a), Binary(RPN_SHR, TVar, Const(0xa))))), 0x3e8, ws) == 0
    ensures forall t :: Evaluate(Emit(Binary(RPN_MUL, TVar, Binary(RPN_AND, Const(0x2a), Binary(RPN_SHR, TVar, Const(0xa))))), t, ws) == Denote(Binary(RPN_MUL, TVar, Binary(RPN_AND, Const(0x2a), Binary(RPN_SHR, TVar, Const(0xa)))), t, ws)
  {
    ClassicBytebeatCompiles("t*(42&t>>10)");
    ClassicBytebeatTree();
    EmitEvaluates(Binary(RPN_MUL, TVar, Binary(RPN_AND, Const(0x2a), Binary(RPN_SHR, TVar, Const(0xa)))), 0x3e8, ws);
    ClassicBytebeatValue(ws);
    forall t
      ensures Evaluate(Emit(Binary(RPN_MUL, TVar, Binary(RPN_AND, Const(0x2a), Binary(RPN_SHR, TVar, Const(0xa))))), t, ws) == Denote(Binary(RPN_MUL, TVar, Binary(RPN_AND, Const(0x2a), Binary(RPN_SHR, TVar, Const(0xa)))), t, ws)
    {
      EmitEvaluates(Binary(RPN_MUL, TVar, Binary(RPN_AND, Const(0x2a), Binary(RPN_SHR, TVar, Const(0xa)))), t, ws);
    }
  }

  lemma MulBindsTighterStep0(src: seq<char>)
    requires Spells(src, "2+3*4")
    ensures CompileFrom(src, Scan(0, [], [], 0, true))
         == CompileFrom(src, Scan(1, [Instr(RPN_PUSH_NUM, 2)], [], 0, false))
  {
    assert DecDigits(src, 1, 2) == (1, 2);
    assert DecDigits(src, 0, 0) == (1, 2);
    assert NumberAt(src, 0) == Ok((1, 2));
    assert [] + [Instr(RPN_PUSH_NUM, 2)] == [Instr(RPN_PUSH_NUM, 2)];
    Advance(src, Scan(0, [], [], 0, true), Scan(1, [Instr(RPN_PUSH_NUM, 2)], [], 0, false));
  }

  lemma MulBindsTighterStep1(src: seq<char>)
    requires Spells(src, "2+3*4")
    ensures CompileFrom(src, Scan(1, [Instr(RPN_PUSH_NUM, 2)], [], 0, false))
         == CompileFrom(src, Scan(2, [Instr(RPN_PUSH_NUM, 2)], [Op(RPN_ADD)], 0, true))
  {
    assert PopWhile([Instr(RPN_PUSH_NUM, 2)], [], 5, false) == Ok(([Instr(RPN_PUSH_NUM, 2)], []));
    assert [] + [Op(RPN_ADD)] == [Op(RPN_ADD)];
    Advance(src, Scan(1, [Instr(RPN_PUSH_NUM, 2)], [], 0, false), Scan(2, [Instr(RPN_PUSH_NUM, 2)], [Op(RPN_ADD)], 0, true));
  }

  lemma MulBindsTighterStep2(src: seq<char>)
    requires Spells(src, "2+3*4")
    ensures CompileFrom(src, Scan(2, [Instr(RPN_PUSH_NUM, 2)], [Op(RPN_ADD)], 0, true))
         == CompileFrom(src, Scan(3, [Instr(RPN_PUSH_NUM, 2), Instr(RPN_PUSH_NUM, 3)], [Op(RPN_ADD)], 0, false))
  {
    assert DecDigits(src, 3, 3) == (3, 3);
    assert DecDigits(src, 2, 0) == (3, 3);
    assert NumberAt(src, 2) == Ok((3, 3));
    assert [Instr(RPN_PUSH_NUM, 2)] + [Instr(RPN_PUSH_NUM, 3)] == [Instr(RPN_PUSH_NUM, 2), Instr(RPN_PUSH_NUM, 3)];
    Advance(src, Scan(2, [Instr(RPN_PUSH_NUM, 2)], [Op(RPN_ADD)], 0, true), Scan(3, [Instr(RPN_PUSH_NUM, 2), Instr(RPN_PUSH_NUM, 3)], [Op(RPN_ADD)], 0, false));
  }

  lemma MulBindsTighterStep3(src: seq<char>)
    requires Spells(src, "2+3*4")
    ensures CompileFrom(src, Scan(3, [Instr(RPN_PUSH_NUM, 2), Instr(RPN_PUSH_NUM, 3)], [Op(RPN_ADD)], 0, false))
         == CompileFrom(src, Scan(4, [Instr(RPN_PUSH_NUM, 2), Instr(RPN_PUSH_NUM, 3)], [Op(RPN_ADD), Op(RPN_MUL)], 0, true))
  {
    assert PopWhile([Instr(RPN_PUSH_NUM, 2), Instr(RPN_PUSH_NUM, 3)], [Op(RPN_ADD)], 6, false) == Ok(([Instr(RPN_PUSH_NUM, 2), Instr(RPN_PUSH_NUM, 3)], [Op(RPN_ADD)]));
    assert [Op(RPN_ADD)] + [Op(RPN_MUL)] == [Op(RPN_ADD), Op(RPN_MUL)];
    Advance(src, Scan(3, [Instr(RPN_PUSH_NUM, 2), Instr(RPN_PUSH_NUM, 3)], [Op(RPN_ADD)], 0, false), Scan(4, [Instr(RPN_PUSH_NUM, 2), Instr(RPN_PUSH_NUM, 3)], [Op(RPN_ADD), Op(RPN_MUL)], 0, true));
  }

  lemma MulBindsTighterStep4(src: seq<char>)
    requires Spells(src, "2+3*4")
    ensures CompileFrom(src, Scan(4, [Instr(RPN_PUSH_NUM, 2), Instr(RPN_PUSH_NUM, 3)], [Op(RPN_ADD), Op(RPN_MUL)], 0, true))
         == CompileFrom(src, Scan(5, [Instr(RPN_PUSH_NUM, 2), Instr(RPN_PUSH_NUM, 3), Instr(RPN_PUSH_NUM, 4)], [Op(RPN_ADD), Op(RPN_MUL)], 0, false))
  {
    assert DecDigits(src, 5, 4) == (5, 4);
    assert DecDigits(src, 4, 0) == (5, 4);
    assert NumberAt(src, 4) == Ok((5, 4));
    assert [Instr(RPN_PUSH_NUM, 2), Instr(RPN_PUSH_NUM, 3)] + [Instr(RPN_PUSH_NUM, 4)] == [Instr(RPN_PUSH_NUM, 2), Instr(RPN_PUSH_NUM, 3), Instr(RPN_PUSH_NUM, 4)];
    Advance(src, Scan(4, [Instr(RPN_PUSH_NUM, 2), Instr(RPN_PUSH_NUM, 3)], [Op(RPN_ADD), Op(RPN_MUL)], 0, true), Scan(5, [Instr(RPN_PUSH_NUM, 2), Instr(RPN_PUSH_NUM, 3), Instr(RPN_PUSH_NUM, 4)], [Op(RPN_ADD), Op(RPN_MUL)], 0, false));
  }

  lemma MulBindsTighterFinish(src: seq<char>)
    requires Spells(src, "2+3*4")
    ensures CompileFrom(src, Scan(5, [Instr(RPN_PUSH_NUM, 2), Instr(RPN_PUSH_NUM, 3), Instr(RPN_PUSH_NUM, 4)], [Op(RPN_ADD), Op(RPN_MUL)], 0, false)) == Ok([Instr(RPN_PUSH_NUM, 2), Instr(RPN_PUSH_NUM, 3), Instr(RPN_PUSH_NUM, 4), Instr(RPN_MUL, 0), Instr(RPN_ADD, 0)])
  {
    Stop(src, Scan(5, [Instr(RPN_PUSH_NUM, 2), Instr(RPN_PUSH_NUM, 3), Instr(RPN_PUSH_NUM, 4)], [Op(RPN_ADD), Op(RPN_MUL)], 0, false));
    assert [Op(RPN_ADD), Op(RPN_MUL)][..1] == [Op(RPN_ADD)];
    assert [Instr(RPN_PUSH_NUM, 2), Instr(RPN_PUSH_NUM, 3), Instr(RPN_PUSH_NUM, 4)] + [Instr(RPN_MUL, 0)] == [Instr(RPN_PUSH_NUM, 2), Instr(RPN_PUSH_NUM, 3), Instr(RPN_PUSH_NUM, 4), Instr(RPN_MUL, 0)];
    assert EmitTop([Instr(RPN_PUSH_NUM, 2), Instr(RPN_PUSH_NUM, 3), Instr(RPN_PUSH_NUM, 4)], [Op(RPN_ADD), Op(RPN_MUL)]) == Ok([Instr(RPN_PUSH_NUM, 2), Instr(RPN_PUSH_NUM, 3), Instr(RPN_PUSH_NUM, 4), Instr(RPN_MUL, 0)]);
    assert [Op(RPN_ADD)][..0] == [];
    assert [Instr(RPN_PUSH_NUM, 2), Instr(RPN_PUSH_NUM, 3), Instr(RPN_PUSH_NUM, 4), Instr(RPN_MUL, 0)] + [Instr(RPN_ADD, 0)] == [Instr(RPN_PUSH_NUM, 2), Instr(RPN_PUSH_NUM, 3), Instr(RPN_PUSH_NUM, 4), Instr(RPN_MUL, 0), Instr(RPN_ADD, 0)];
    assert EmitTop([Instr(RPN_PUSH_NUM, 2), Instr(RPN_PUSH_NUM, 3), Instr(RPN_PUSH_NUM, 4), Instr(RPN_MUL, 0)], [Op(RPN_ADD)]) == Ok([Instr(RPN_PUSH_NUM, 2), Instr(RPN_PUSH_NUM, 3), Instr(RPN_PUSH_NUM, 4), Instr(RPN_MUL, 0), Instr(RPN_ADD, 0)]);
    assert PopAll([Instr(RPN_PUSH_NUM, 2), Instr(RPN_PUSH_NUM, 3), Instr(RPN_PUSH_NUM, 4), Instr(RPN_MUL, 0), Instr(RPN_ADD, 0)], []) == Ok([Instr(RPN_PUSH_NUM, 2), Instr(RPN_PUSH_NUM, 3), Instr(RPN_PUSH_NUM, 4), Instr(RPN_MUL, 0), Instr(RPN_ADD, 0)]);
    assert PopAll([Instr(RPN_PUSH_NUM, 2), Instr(RPN_PUSH_NUM, 3), Instr(RPN_PUSH_NUM, 4), Instr(RPN_MUL, 0)], [Op(RPN_ADD)]) == Ok([Instr(RPN_PUSH_NUM, 2), Instr(RPN_PUSH_NUM, 3), Instr(RPN_PUSH_NUM, 4), Instr(RPN_MUL, 0), Instr(RPN_ADD, 0)]);
    assert PopAll([Instr(RPN_PUSH_NUM, 2), Instr(RPN_PUSH_NUM, 3), Instr(RPN_PUSH_NUM, 4)], [Op(RPN_ADD), Op(RPN_MUL)]) == Ok([Instr(RPN_PUSH_NUM, 2), Instr(RPN_PUSH_NUM, 3), Instr(RPN_PUSH_NUM, 4), Instr(RPN_MUL, 0), Instr(RPN_ADD, 0)]);
  }

  lemma MulBindsTighterCompiles(src: seq<char>)
    requires Spells(src, "2+3*4")
    ensures Compile(src) == Ok([Instr(RPN_PUSH_NUM, 2), Instr(RPN_PUSH_NUM, 3), Instr(RPN_PUSH_NUM, 4), Instr(RPN_MUL, 0), Instr(RPN_ADD, 0)])
  {
    MulBindsTighterStep0(src);
    MulBindsTighterStep1(src);
    MulBindsTighterStep2(src);
    MulBindsTighterStep3(src);
    MulBindsTighterStep4(src);
    MulBindsTighterFinish(src);
  }

  lemma MulBindsTighterTree()
    ensures Emit(Binary(RPN_ADD, Const(2), Binary(RPN_MUL, Const(3), Const(4)))) == [Instr(RPN_PUSH_NUM, 2), Instr(RPN_PUSH_NUM, 3), Instr(RPN_PUSH_NUM, 4), Instr(RPN_MUL, 0), Instr(RPN_ADD, 0)]
  {
  }

  lemma MulBindsTighterValue(ws: WideShifts)
    ensures Denote(Binary(RPN_ADD, Const(2), Binary(RPN_MUL, Const(3), Const(4))), 0, ws) == 0xe
  {
    assert Denote(Binary(RPN_MUL, Const(3), Const(4)), 0, ws) == 0xc;
    assert Denote(Binary(RPN_ADD, Const(2), Binary(RPN_MUL, Const(3), Const(4))), 0, ws) == 0xe;
  }

  /** Precedence: `2+3*4` evaluates to 14. */
  lemma MulBindsTighter(ws: WideShifts)
    ensures Compile("2+3*4") == Ok(Emit(Binary(RPN_ADD, Const(2), Binary(RPN_MUL, Const(3), Const(4)))))
    ensures Evaluate(Emit(Binary(RPN_ADD, Const(2), Binary(RPN_MUL, Const(3), Const(4)))), 0, ws) == 0xe
  {
    MulBindsTighterCompiles("2+3*4");
    MulBindsTighterTree();
    EmitEvaluates(Binary(RPN_ADD, Const(2), Binary(RPN_MUL, Const(3), Const(4))), 0, ws);
    MulBindsTighterValue(ws);
  }

  lemma ParensOverrideStep0(src: seq<char>)
    requires Spells(src, "(2+3)*4")
    ensures CompileFrom(src, Scan(0, [], [], 0, true))
         == CompileFrom(src, Scan(1, [], [OpenParen], 1, true))
  {
    assert [] + [OpenParen] == [OpenParen];
    Advance(src, Scan(0, [], [], 0, true), Scan(1, [], [OpenParen], 1, true));
  }

  lemma ParensOverrideStep1(src: seq<char>)
    requires Spells(src, "(2+3)*4")
    ensures CompileFrom(src, Scan(1, [], [OpenParen], 1, true))
         == CompileFrom(src, Scan(2, [Instr(RPN_PUSH_NUM, 2)], [OpenParen], 1, false))
  {
    assert DecDigits(src, 2, 2) == (2, 2);
    assert DecDigits(src, 1, 0) == (2, 2);
    assert NumberAt(src, 1) == Ok((2, 2));
    assert [] + [Instr(RPN_PUSH_NUM, 2)] == [Instr(RPN_PUSH_NUM, 2)];
    Advance(src, Scan(1, [], [OpenParen], 1, true), Scan(2, [Instr(RPN_PUSH_NUM, 2)], [OpenParen], 1, false));
  }

  lemma ParensOverrideStep2(src: seq<char>)
    requires Spells(src, "(2+3)*4")
    ensures CompileFrom(src, Scan(2, [Instr(RPN_PUSH_NUM, 2)], [OpenParen], 1, false))
         == CompileFrom(src, Scan(3, [Instr(RPN_PUSH_NUM, 2)], [OpenParen, Op(RPN_ADD)], 1, true))
  {
    assert PopWhile([Instr(RPN_PUSH_NUM, 2)], [OpenParen], 5, false) == Ok(([Instr(RPN_PUSH_NUM, 2)], [OpenParen]));
    assert [OpenParen] + [Op(RPN_ADD)] == [OpenParen, Op(RPN_ADD)];
    Advance(src, Scan(2, [Instr(RPN_PUSH_NUM, 2)], [OpenParen], 1, false), Scan(3, [Instr(RPN_PUSH_NUM, 2)], [OpenParen, Op(RPN_ADD)], 1, true));
  }

  lemma ParensOverrideStep3(src: seq<char>)
    requires Spells(src, "(2+3)*4")
    ensures CompileFrom(src, Scan(3, [Instr(RPN_PUSH_NUM, 2)], [OpenParen, Op(RPN_ADD)], 1, true))
         == CompileFrom(src, Scan(4, [Instr(RPN_PUSH_NUM, 2), Instr(RPN_PUSH_NUM, 3)], [OpenParen, Op(RPN_ADD)], 1, false))
  {
    assert DecDigits(src, 4, 3) == (4, 3);
    assert DecDigits(src, 3, 0) == (4, 3);
    assert NumberAt(src, 3) == Ok((4, 3));
    assert [Instr(RPN_PUSH_NUM, 2)] + [Instr(RPN_PUSH_NUM, 3)] == [Instr(RPN_PUSH_NUM, 2), Instr(RPN_PUSH_NUM, 3)];
    Advance(src, Scan(3, [Instr(RPN_PUSH_NUM, 2)], [OpenParen, Op(RPN_ADD)], 1, true), Scan(4, [Instr(RPN_PUSH_NUM, 2), Instr(RPN_PUSH_NUM, 3)], [OpenParen, Op(RPN_ADD)], 1, false));
  }

  lemma ParensOverrideStep4(src: seq<char>)
    requires Spells(src, "(2+3)*4")
    ensures CompileFrom(src, Scan(4, [Instr(RPN_PUSH_NUM, 2), Instr(RPN_PUSH_NUM, 3)], [OpenParen, Op(RPN_ADD)], 1, false))
         == CompileFrom(src, Scan(5, [Instr(RPN_PUSH_NUM, 2), Instr(RPN_PUSH_NUM, 3), Instr(RPN_ADD, 0)], [], 0, false))
  {
    assert [OpenParen, Op(RPN_ADD)][..1] == [OpenParen];
    assert [Instr(RPN_PUSH_NUM, 2), Instr(RPN_PUSH_NUM, 3)] + [Instr(RPN_ADD, 0)] == [Instr(RPN_PUSH_NUM, 2), Instr(RPN_PUSH_NUM, 3), Instr(RPN_ADD, 0)];
    assert EmitTop([Instr(RPN_PUSH_NUM, 2), Instr(RPN_PUSH_NUM, 3)], [OpenParen, Op(RPN_ADD)]) == Ok([Instr(RPN_PUSH_NUM, 2), Instr(RPN_PUSH_NUM, 3), Instr(RPN_ADD, 0)]);
    assert PopToParen([Instr(RPN_PUSH_NUM, 2), Instr(RPN_PUSH_NUM, 3), Instr(RPN_ADD, 0)], [OpenParen]) == Ok(([Instr(RPN_PUSH_NUM, 2), Instr(RPN_PUSH_NUM, 3), Instr(RPN_ADD, 0)], [OpenParen]));
    assert PopToParen([Instr(RPN_PUSH_NUM, 2), Instr(RPN_PUSH_NUM, 3)], [OpenParen, Op(RPN_ADD)]) == Ok(([Instr(RPN_PUSH_NUM, 2), Instr(RPN_PUSH_NUM, 3), Instr(RPN_ADD, 0)], [OpenParen]));
    assert [OpenParen, Op(RPN_ADD)][..1] == [OpenParen];
    assert [OpenParen][..0] == [];
    assert [Instr(RPN_PUSH_NUM, 2), Instr(RPN_PUSH_NUM, 3)] + [Instr(RPN_ADD, 0)] == [Instr(RPN_PUSH_NUM, 2), Instr(RPN_PUSH_NUM, 3), Instr(RPN_ADD, 0)];
    Advance(src, Scan(4, [Instr(RPN_PUSH_NUM, 2), Instr(RPN_PUSH_NUM, 3)], [OpenParen, Op(RPN_ADD)], 1, false), Scan(5, [Instr(RPN_PUSH_NUM, 2), Instr(RPN_PUSH_NUM, 3), Instr(RPN_ADD, 0)], [], 0, false));
  }

  lemma ParensOverrideStep5(src: seq<char>)
    requires Spells(src, "(2+3)*4")
    ensures CompileFrom(src, Scan(5, [Instr(RPN_PUSH_NUM, 2), Instr(RPN_PUSH_NUM, 3), Instr(RPN_ADD, 0)], [], 0, false))
         == CompileFrom(src, Scan(6, [Instr(RPN_PUSH_NUM, 2), Instr(RPN_PUSH_NUM, 3), Instr(RPN_ADD, 0)], [Op(RPN_MUL)], 0, true))
  {
    assert PopWhile([Instr(RPN_PUSH_NUM, 2), Instr(RPN_PUSH_NUM, 3), Instr(RPN_ADD, 0)], [], 6, false) == Ok(([Instr(RPN_PUSH_NUM, 2), Instr(RPN_PUSH_NUM, 3), Instr(RPN_ADD, 0)], []));
    assert [] + [Op(RPN_MUL)] == [Op(RPN_MUL)];
    Advance(src, Scan(5, [Instr(RPN_PUSH_NUM, 2), Instr(RPN_PUSH_NUM, 3), Instr(RPN_ADD, 0)], [], 0, false), Scan(6, [Instr(RPN_PUSH_NUM, 2), Instr(RPN_PUSH_NUM, 3), Instr(RPN_ADD, 0)], [Op(RPN_MUL)], 0, true));
  }

  lemma ParensOverrideStep6(src: seq<char>)
    requires Spells(src, "(2+3)*4")
    ensures CompileFrom(src, Scan(6, [Instr(RPN_PUSH_NUM, 2), Instr(RPN_PUSH_NUM, 3), Instr(RPN_ADD, 0)], [Op(RPN_MUL)], 0, true))
         == CompileFrom(src, Scan(7, [Instr(RPN_PUSH_NUM, 2), Instr(RPN_PUSH_NUM, 3), Instr(RPN_ADD, 0), Instr(RPN_PUSH_NUM, 4)], [Op(RPN_MUL)], 0, false))
  {
    assert DecDigits(src, 7, 4) == (7, 4);
    assert DecDigits(src, 6, 0) == (7, 4);
    assert NumberAt(src, 6) == Ok((7, 4));
    assert [Instr(RPN_PUSH_NUM, 2), Instr(RPN_PUSH_NUM, 3), Instr(RPN_ADD, 0)] + [Instr(RPN_PUSH_NUM, 4)] == [Instr(RPN_PUSH_NUM, 2), Instr(RPN_PUSH_NUM, 3), Instr(RPN_ADD, 0), Instr(RPN_PUSH_NUM, 4)];
    Advance(src, Scan(6, [Instr(RPN_PUSH_NUM, 2), Instr(RPN_PUSH_NUM, 3), Instr(RPN_ADD, 0)], [Op(RPN_MUL)], 0, true), Scan(7, [Instr(RPN_PUSH_NUM, 2), Instr(RPN_PUSH_NUM, 3), Instr(RPN_ADD, 0), Instr(RPN_PUSH_NUM, 4)], [Op(RPN_MUL)], 0, false));
  }

  lemma ParensOverrideFinish(src: seq<char>)
    requires Spells(src, "(2+3)*4")
    ensures CompileFrom(src, Scan(7, [Instr(RPN_PUSH_NUM, 2), Instr(RPN_PUSH_NUM, 3), Instr(RPN_ADD, 0), Instr(RPN_PUSH_NUM, 4)], [Op(RPN_MUL)], 0, false)) == Ok([Instr(RPN_PUSH_NUM, 2), Instr(RPN_PUSH_NUM, 3), Instr(RPN_ADD, 0), Instr(RPN_PUSH_NUM, 4), Instr(RPN_MUL, 0)])
  {
    Stop(src, Scan(7, [Instr(RPN_PUSH_NUM, 2), Instr(RPN_PUSH_NUM, 3), Instr(RPN_ADD, 0), Instr(RPN_PUSH_NUM, 4)], [Op(RPN_MUL)], 0, false));
    assert [Op(RPN_MUL)][..0] == [];
    assert [Instr(RPN_PUSH_NUM, 2), Instr(RPN_PUSH_NUM, 3), Instr(RPN_ADD, 0), Instr(RPN_PUSH_NUM, 4)] + [Instr(RPN_MUL, 0)] == [Instr(RPN_PUSH_NUM, 2), Instr(RPN_PUSH_NUM, 3), Instr(RPN_ADD, 0), Instr(RPN_PUSH_NUM, 4), Instr(RPN_MUL, 0)];
    assert EmitTop([Instr(RPN_PUSH_NUM, 2), Instr(RPN_PUSH_NUM, 3), Instr(RPN_ADD, 0), Instr(RPN_PUSH_NUM, 4)], [Op(RPN_MUL)]) == Ok([Instr(RPN_PUSH_NUM, 2), Instr(RPN_PUSH_NUM, 3), Instr(RPN_ADD, 0), Instr(RPN_PUSH_NUM, 4), Instr(RPN_MUL, 0)]);
    assert PopAll([Instr(RPN_PUSH_NUM, 2), Instr(RPN_PUSH_NUM, 3), Instr(RPN_ADD, 0), Instr(RPN_PUSH_NUM, 4), Instr(RPN_MUL, 0)], []) == Ok([Instr(RPN_PUSH_NUM, 2), Instr(RPN_PUSH_NUM, 3), Instr(RPN_ADD, 0), Instr(RPN_PUSH_NUM, 4), Instr(RPN_MUL, 0)]);
    assert PopAll([Instr(RPN_PUSH_NUM, 2), Instr(RPN_PUSH_NUM, 3), Instr(RPN_ADD, 0), Instr(RPN_PUSH_NUM, 4)], [Op(RPN_MUL)]) == Ok([Instr(RPN_PUSH_NUM, 2), Instr(RPN_PUSH_NUM, 3), Instr(RPN_ADD, 0), Instr(RPN_PUSH_NUM, 4), Instr(RPN_MUL, 0)]);
  }

  lemma ParensOverrideCompiles(src: seq<char>)
    requires Spells(src, "(2+3)*4")
    ensures Compile(src) == Ok([Instr(RPN_PUSH_NUM, 2), Instr(RPN_PUSH_NUM, 3), Instr(RPN_ADD, 0), Instr(RPN_PUSH_NUM, 4), Instr(RPN_MUL, 0)])
  {
    ParensOverrideStep0(src);
    ParensOverrideStep1(src);
    ParensOverrideStep2(src);
    ParensOverrideStep3(src);
    ParensOverrideStep4(src);
    ParensOverrideStep5(src);
    ParensOverrideStep6(src);
    ParensOverrideFinish(src);
  }

  lemma ParensOverrideTree()
    ensures Emit(Binary(RPN_MUL, Binary(RPN_ADD, Const(2), Const(3)), Const(4))) == [Instr(RPN_PUSH_NUM, 2), Instr(RPN_PUSH_NUM, 3), Instr(RPN_ADD, 0), Instr(RPN_PUSH_NUM, 4), Instr(RPN_MUL, 0)]
  {
  }

  lemma ParensOverrideValue(ws: WideShifts)
    ensures Denote(Binary(RPN_MUL, Binary(RPN_ADD, Const(2), Const(3)), Const(4)), 0, ws) == 0x14
  {
    assert Denote(Binary(RPN_ADD, Const(2), Const(3)), 0, ws) == 5;
    assert Denote(Binary(RPN_MUL, Binary(RPN_ADD, Const(2), Const(3)), Const(4)), 0, ws) == 0x14;
  }

  /** Parentheses: `(2+3)*4` evaluates to 20. */
  lemma ParensOverride(ws: WideShifts)
    ensures Compile("(2+3)*4") == Ok(Emit(Binary(RPN_MUL, Binary(RPN_ADD, Const(2), Const(3)), Const(4))))
    ensures Evaluate(Emit(Binary(RPN_MUL, Binary(RPN_ADD, Const(2), Const(3)), Const(4))), 0, ws) == 0x14
  {
    ParensOverrideCompiles("(2+3)*4");
    ParensOverrideTree();
    EmitEvaluates(Binary(RPN_MUL, Binary(RPN_ADD, Const(2), Const(3)), Const(4)), 0, ws);
    ParensOverrideValue(ws);
  }

  lemma LonePlusStep0(src: seq<char>)
    requires Spells(src, "+")
    ensures CompileFrom(src, Scan(0, [], [], 0, true))
         == CompileFrom(src, Scan(1, [], [], 0, true))
  {
    Advance(src, Scan(0, [], [], 0, true), Scan(1, [], [], 0, true));
  }

  lemma LonePlusFinish(src: seq<char>)
    requires Spells(src, "+")
    ensures CompileFrom(src, Scan(1, [], [], 0, true)) == Fail(ErrToken)
  {
    Stop(src, Scan(1, [], [], 0, true));
  }

  lemma LonePlusCompiles(src: seq<char>)
    requires Spells(src, "+")
    ensures Compile(src) == Fail(ErrToken)
  {
    LonePlusStep0(src);
    LonePlusFinish(src);
  }

  /** A lone unary plus leaves no operand: ErrToken. */
  lemma LonePlus()
    ensures Compile("+") == Fail(ErrToken)
  {
    LonePlusCompiles("+");
  }

  lemma UnclosedParenStep0(src: seq<char>)
    requires Spells(src, "(1+2")
    ensures CompileFrom(src, Scan(0, [], [], 0, true))
         == CompileFrom(src, Scan(1, [], [OpenParen], 1, true))
  {
    assert [] + [OpenParen] == [OpenParen];
    Advance(src, Scan(0, [], [], 0, true), Scan(1, [], [OpenParen], 1, true));
  }

  lemma UnclosedParenStep1(src: seq<char>)
    requires Spells(src, "(1+2")
    ensures CompileFrom(src, Scan(1, [], [OpenParen], 1, true))
         == CompileFrom(src, Scan(2, [Instr(RPN_PUSH_NUM, 1)], [OpenParen], 1, false))
  {
    assert DecDigits(src, 2, 1) == (2, 1);
    assert DecDigits(src, 1, 0) == (2, 1);
    assert NumberAt(src, 1) == Ok((2, 1));
    assert [] + [Instr(RPN_PUSH_NUM, 1)] == [Instr(RPN_PUSH_NUM, 1)];
    Advance(src, Scan(1, [], [OpenParen], 1, true), Scan(2, [Instr(RPN_PUSH_NUM, 1)], [OpenParen], 1, false));
  }

  lemma UnclosedParenStep2(src: seq<char>)
    requires Spells(src, "(1+2")
    ensures CompileFrom(src, Scan(2, [Instr(RPN_PUSH_NUM, 1)], [OpenParen], 1, false))
         == CompileFrom(src, Scan(3, [Instr(RPN_PUSH_NUM, 1)], [OpenParen, Op(RPN_ADD)], 1, true))
  {
    assert PopWhile([Instr(RPN_PUSH_NUM, 1)], [OpenParen], 5, false) == Ok(([Instr(RPN_PUSH_NUM, 1)], [OpenParen]));
    assert [OpenParen] + [Op(RPN_ADD)] == [OpenParen, Op(RPN_ADD)];
    Advance(src, Scan(2, [Instr(RPN_PUSH_NUM, 1)], [OpenParen], 1, false), Scan(3, [Instr(RPN_PUSH_NUM, 1)], [OpenParen, Op(RPN_ADD)], 1, true));
  }

  lemma UnclosedParenStep3(src: seq<char>)
    requires Spells(src, "(1+2")
    ensures CompileFrom(src, Scan(3, [Instr(RPN_PUSH_NUM, 1)], [OpenParen, Op(RPN_ADD)], 1, true))
         == CompileFrom(src, Scan(4, [Instr(RPN_PUSH_NUM, 1), Instr(RPN_PUSH_NUM, 2)], [OpenParen, Op(RPN_ADD)], 1, false))
  {
    assert DecDigits(src, 4, 2) == (4, 2);
    assert DecDigits(src, 3, 0) == (4, 2);
    assert NumberAt(src, 3) == Ok((4, 2));
    assert [Instr(RPN_PUSH_NUM, 1)] + [Instr(RPN_PUSH_NUM, 2)] == [Instr(RPN_PUSH_NUM, 1), Instr(RPN_PUSH_NUM, 2)];
    Advance(src, Scan(3, [Instr(RPN_PUSH_NUM, 1)], [OpenParen, Op(RPN_ADD)], 1, true), Scan(4, [Instr(RPN_PUSH_NUM, 1), Instr(RPN_PUSH_NUM, 2)], [OpenParen, Op(RPN_ADD)], 1, false));
  }

  lemma UnclosedParenFinish(src: seq<char>)
    requires Spells(src, "(1+2")
    ensures CompileFrom(src, Scan(4, [Instr(RPN_PUSH_NUM, 1), Instr(RPN_PUSH_NUM, 2)], [OpenParen, Op(RPN_ADD)], 1, false)) == Fail(ErrParen)
  {
    Stop(src, Scan(4, [Instr(RPN_PUSH_NUM, 1), Instr(RPN_PUSH_NUM, 2)], [OpenParen, Op(RPN_ADD)], 1, false));
  }

  lemma UnclosedParenCompiles(src: seq<char>)
    requires Spells(src, "(1+2")
    ensures Compile(src) == Fail(ErrParen)
  {
    UnclosedParenStep0(src);
    UnclosedParenStep1(src);
    UnclosedParenStep2(src);
    UnclosedParenStep3(src);
    UnclosedParenFinish(src);
  }

  /** An unclosed parenthesis: ErrParen. */
  lemma UnclosedParen()
    ensures Compile("(1+2") == Fail(ErrParen)
  {
    UnclosedParenCompiles("(1+2");
  }

  // ----------------------------------------------------------- test_main.c

  lemma SquareShiftStep0(src: seq<char>)
    requires Spells(src, "t*t>>8")
    ensures CompileFrom(src, Scan(0, [], [], 0, true))
         == CompileFrom(src, Scan(1, [Instr(RPN_PUSH_T, 0)], [], 0, false))
  {
    assert [] + [Instr(RPN_PUSH_T, 0)] == [Instr(RPN_PUSH_T, 0)];
    Advance(src, Scan(0, [], [], 0, true), Scan(1, [Instr(RPN_PUSH_T, 0)], [], 0, false));
  }

  lemma SquareShiftStep1(src: seq<char>)
    requires Spells(src, "t*t>>8")
    ensures CompileFrom(src, Scan(1, [Instr(RPN_PUSH_T, 0)], [], 0, false))
         == CompileFrom(src, Scan(2, [Instr(RPN_PUSH_T, 0)], [Op(RPN_MUL)], 0, true))
  {
    assert PopWhile([Instr(RPN_PUSH_T, 0)], [], 6, false) == Ok(([Instr(RPN_PUSH_T, 0)], []));
    assert [] + [Op(RPN_MUL)] == [Op(RPN_MUL)];
    Advance(src, Scan(1, [Instr(RPN_PUSH_T, 0)], [], 0, false), Scan(2, [Instr(RPN_PUSH_T, 0)], [Op(RPN_MUL)], 0, true));
  }

  lemma SquareShiftStep2(src: seq<char>)
    requires Spells(src, "t*t>>8")
    ensures CompileFrom(src, Scan(2, [Instr(RPN_PUSH_T, 0)], [Op(RPN_MUL)], 0, true))
         == CompileFrom(src, Scan(3, [Instr(RPN_PUSH_T, 0), Instr(RPN_PUSH_T, 0)], [Op(RPN_MUL)], 0, false))
  {
    assert [Instr(RPN_PUSH_T, 0)] + [Instr(RPN_PUSH_T, 0)] == [Instr(RPN_PUSH_T, 0), Instr(RPN_PUSH_T, 0)];
    Advance(src, Scan(2, [Instr(RPN_PUSH_T, 0)], [Op(RPN_MUL)], 0, true), Scan(3, [Instr(RPN_PUSH_T, 0), Instr(RPN_PUSH_T, 0)], [Op(RPN_MUL)], 0, false));
  }

  lemma SquareShiftStep3(src: seq<char>)
    requires Spells(src, "t*t>>8")
    ensures CompileFrom(src, Scan(3, [Instr(RPN_PUSH_T, 0), Instr(RPN_PUSH_T, 0)], [Op(RPN_MUL)], 0, false))
         == CompileFrom(src, Scan(5, [Instr(RPN_PUSH_T, 0), Instr(RPN_PUSH_T, 0), Instr(RPN_MUL, 0)], [Op(RPN_SHR)], 0, true))
  {
    assert [Op(RPN_MUL)][..0] == [];
    assert [Instr(RPN_PUSH_T, 0), Instr(RPN_PUSH_T, 0)] + [Instr(RPN_MUL, 0)] == [Instr(RPN_PUSH_T, 0), Instr(RPN_PUSH_T, 0), Instr(RPN_MUL, 0)];
    assert EmitTop([Instr(RPN_PUSH_T, 0), Instr(RPN_PUSH_T, 0)], [Op(RPN_MUL)]) == Ok([Instr(RPN_PUSH_T, 0), Instr(RPN_PUSH_T, 0), Instr(RPN_MUL, 0)]);
    assert PopWhile([Instr(RPN_PUSH_T, 0), Instr(RPN_PUSH_T, 0), Instr(RPN_MUL, 0)], [], 4, false) == Ok(([Instr(RPN_PUSH_T, 0), Instr(RPN_PUSH_T, 0), Instr(RPN_MUL, 0)], []));
    assert PopWhile([Instr(RPN_PUSH_T, 0), Instr(RPN_PUSH_T, 0)], [Op(RPN_MUL)], 4, false) == Ok(([Instr(RPN_PUSH_T, 0), Instr(RPN_PUSH_T, 0), Instr(RPN_MUL, 0)], []));
    assert [Op(RPN_MUL)][..0] == [];
    assert [] + [Op(RPN_SHR)] == [Op(RPN_SHR)];
    assert [Instr(RPN_PUSH_T, 0), Instr(RPN_PUSH_T, 0)] + [Instr(RPN_MUL, 0)] == [Instr(RPN_PUSH_T, 0), Instr(RPN_PUSH_T, 0), Instr(RPN_MUL, 0)];
    Advance(src, Scan(3, [Instr(RPN_PUSH_T, 0), Instr(RPN_PUSH_T, 0)], [Op(RPN_MUL)], 0, false), Scan(5, [Instr(RPN_PUSH_T, 0), Instr(RPN_PUSH_T, 0), Instr(RPN_MUL, 0)], [Op(RPN_SHR)], 0, true));
  }

  lemma SquareShiftStep4(src: seq<char>)
    requires Spells(src, "t*t>>8")
    ensures CompileFrom(src, Scan(5, [Instr(RPN_PUSH_T, 0), Instr(RPN_PUSH_T, 0), Instr(RPN_MUL, 0)], [Op(RPN_SHR)], 0, true))
         == CompileFrom(src, Scan(6, [Instr(RPN_PUSH_T, 0), Instr(RPN_PUSH_T, 0), Instr(RPN_MUL, 0), Instr(RPN_PUSH_NUM, 8)], [Op(RPN_SHR)], 0, false))
  {
    assert DecDigits(src, 6, 8) == (6, 8);
    assert DecDigits(src, 5, 0) == (6, 8);
    assert NumberAt(src, 5) == Ok((6, 8));
    assert [Instr(RPN_PUSH_T, 0), Instr(RPN_PUSH_T, 0), Instr(RPN_MUL, 0)] + [Instr(RPN_PUSH_NUM, 8)] == [Instr(RPN_PUSH_T, 0), Instr(RPN_PUSH_T, 0), Instr(RPN_MUL, 0), Instr(RPN_PUSH_NUM, 8)];
    Advance(src, Scan(5, [Instr(RPN_PUSH_T, 0), Instr(RPN_PUSH_T, 0), Instr(RPN_MUL, 0)], [Op(RPN_SHR)], 0, true), Scan(6, [Instr(RPN_PUSH_T, 0), Instr(RPN_PUSH_T, 0), Instr(RPN_MUL, 0), Instr(RPN_PUSH_NUM, 8)], [Op(RPN_SHR)], 0, false));
  }

  lemma SquareShiftFinish(src: seq<char>)
    requires Spells(src, "t*t>>8")
    ensures CompileFrom(src, Scan(6, [Instr(RPN_PUSH_T, 0), Instr(RPN_PUSH_T, 0), Instr(RPN_MUL, 0), Instr(RPN_PUSH_NUM, 8)], [Op(RPN_SHR)], 0, false)) == Ok([Instr(RPN_PUSH_T, 0), Instr(RPN_PUSH_T, 0), Instr(RPN_MUL, 0), Instr(RPN_PUSH_NUM, 8), Instr(RPN_SHR, 0)])
  {
    Stop(src, Scan(6, [Instr(RPN_PUSH_T, 0), Instr(RPN_PUSH_T, 0), Instr(RPN_MUL, 0), Instr(RPN_PUSH_NUM, 8)], [Op(RPN_SHR)], 0, false));
    assert [Op(RPN_SHR)][..0] == [];
    assert [Instr(RPN_PUSH_T, 0), Instr(RPN_PUSH_T, 0), Instr(RPN_MUL, 0), Instr(RPN_PUSH_NUM, 8)] + [Instr(RPN_SHR, 0)] == [Instr(RPN_PUSH_T, 0), Instr(RPN_PUSH_T, 0), Instr(RPN_MUL, 0), Instr(RPN_PUSH_NUM, 8), Instr(RPN_SHR, 0)];
    assert EmitTop([Instr(RPN_PUSH_T, 0), Instr(RPN_PUSH_T, 0), Instr(RPN_MUL, 0), Instr(RPN_PUSH_NUM, 8)], [Op(RPN_SHR)]) == Ok([Instr(RPN_PUSH_T, 0), Instr(RPN_PUSH_T, 0), Instr(RPN_MUL, 0), Instr(RPN_PUSH_NUM, 8), Instr(RPN_SHR, 0)]);
    assert PopAll([Instr(RPN_PUSH_T, 0), Instr(RPN_PUSH_T, 0), Instr(RPN_MUL, 0), Instr(RPN_PUSH_NUM, 8), Instr(RPN_SHR, 0)], []) == Ok([Instr(RPN_PUSH_T, 0), Instr(RPN_PUSH_T, 0), Instr(RPN_MUL, 0), Instr(RPN_PUSH_NUM, 8), Instr(RPN_SHR, 0)]);
    assert PopAll([Instr(RPN_PUSH_T, 0), Instr(RPN_PUSH_T, 0), Instr(RPN_MUL, 0), Instr(RPN_PUSH_NUM, 8)], [Op(RPN_SHR)]) == Ok([Instr(RPN_PUSH_T, 0), Instr(RPN_PUSH_T, 0), Instr(RPN_MUL, 0), Instr(RPN_PUSH_NUM, 8), Instr(RPN_SHR, 0)]);
  }

  lemma SquareShiftCompiles(src: seq<char>)
    requires Spells(src, "t*t>>8")
    ensures Compile(src) == Ok([Instr(RPN_PUSH_T, 0), Instr(RPN_PUSH_T, 0), Instr(RPN_MUL, 0), Instr(RPN_PUSH_NUM, 8), Instr(RPN_SHR, 0)])
  {
    SquareShiftStep0(src);
    SquareShiftStep1(src);
    SquareShiftStep2(src);
    SquareShiftStep3(src);
    SquareShiftStep4(src);
    SquareShiftFinish(src);
  }

  lemma SquareShiftTree()
    ensures Emit(Binary(RPN_SHR, Binary(RPN_MUL, TVar, TVar), Const(8))) == [Instr(RPN_PUSH_T, 0), Instr(RPN_PUSH_T, 0), Instr(RPN_MUL, 0), Instr(RPN_PUSH_NUM, 8), Instr(RPN_SHR, 0)]
  {
  }

  /** `t*t>>8` compiles to the postfix code of the C expression tree, which the VM computes for every t. */
  lemma SquareShift(ws: WideShifts)
    ensures Compile("t*t>>8") == Ok(Emit(Binary(RPN_SHR, Binary(RPN_MUL, TVar, TVar), Const(8))))
    ensures forall t :: Evaluate(Emit(Binary(RPN_SHR, Binary(RPN_MUL, TVar, TVar), Const(8))), t, ws) == Denote(Binary(RPN_SHR, Binary(RPN_MUL, TVar, TVar), Const(8)), t, ws)
  {
    SquareShiftCompiles("t*t>>8");
    SquareShiftTree();
    forall t
      ensures Evaluate(Emit(Binary(RPN_SHR, Binary(RPN_MUL, TVar, TVar), Const(8))), t, ws) == Denote(Binary(RPN_SHR, Binary(RPN_MUL, TVar, TVar), Const(8)), t, ws)
    {
      EmitEvaluates(Binary(RPN_SHR, Binary(RPN_MUL, TVar, TVar), Const(8)), t, ws);
    }
  }

  lemma MaskTimesStep0(src: seq<char>)
    requires Spells(src, "(t>>10&42)*t")
    ensures CompileFrom(src, Scan(0, [], [], 0, true))
         == CompileFrom(src, Scan(1, [], [OpenParen], 1, true))
  {
    assert [] + [OpenParen] == [OpenParen];
    Advance(src, Scan(0, [], [], 0, true), Scan(1, [], [OpenParen], 1, true));
  }

  lemma MaskTimesStep1(src: seq<char>)
    requires Spells(src, "(t>>10&42)*t")
    ensures CompileFrom(src, Scan(1, [], [OpenParen], 1, true))
         == CompileFrom(src, Scan(2, [Instr(RPN_PUSH_T, 0)], [OpenParen], 1, false))
  {
    assert [] + [Instr(RPN_PUSH_T, 0)] == [Instr(RPN_PUSH_T, 0)];
    Advance(src, Scan(1, [], [OpenParen], 1, true), Scan(2, [Instr(RPN_PUSH_T, 0)], [OpenParen], 1, false));
  }

  lemma MaskTimesStep2(src: seq<char>)
    requires Spells(src, "(t>>10&42)*t")
    ensures CompileFrom(src, Scan(2, [Instr(RPN_PUSH_T, 0)], [OpenParen], 1, false))
         == CompileFrom(src, Scan(4, [Instr(RPN_PUSH_T, 0)], [OpenParen, Op(RPN_SHR)], 1, true))
  {
    assert PopWhile([Instr(RPN_PUSH_T, 0)], [OpenParen], 4, false) == Ok(([Instr(RPN_PUSH_T, 0)], [OpenParen]));
    assert [OpenParen] + [Op(RPN_SHR)] == [OpenParen, Op(RPN_SHR)];
    Advance(src, Scan(2, [Instr(RPN_PUSH_T, 0)], [OpenParen], 1, false), Scan(4, [Instr(RPN_PUSH_T, 0)], [OpenParen, Op(RPN_SHR)], 1, true));
  }

  lemma MaskTimesStep3(src: seq<char>)
    requires Spells(src, "(t>>10&42)*t")
    ensures CompileFrom(src, Scan(4, [Instr(RPN_PUSH_T, 0)], [OpenParen, Op(RPN_SHR)], 1, true))
         == CompileFrom(src, Scan(6, [Instr(RPN_PUSH_T, 0), Instr(RPN_PUSH_NUM, 0xa)], [OpenParen, Op(RPN_SHR)], 1, false))
  {
    assert DecDigits(src, 6, 0xa) == (6, 0xa);
    assert DecDigits(src, 5, 1) == (6, 0xa);
    assert DecDigits(src, 4, 0) == (6, 0xa);
    assert NumberAt(src, 4) == Ok((6, 0xa));
    assert [Instr(RPN_PUSH_T, 0)] + [Instr(RPN_PUSH_NUM, 0xa)] == [Instr(RPN_PUSH_T, 0), Instr(RPN_PUSH_NUM, 0xa)];
    Advance(src, Scan(4, [Instr(RPN_PUSH_T, 0)], [OpenParen, Op(RPN_SHR)], 1, true), Scan(6, [Instr(RPN_PUSH_T, 0), Instr(RPN_PUSH_NUM, 0xa)], [OpenParen, Op(RPN_SHR)], 1, false));
  }

  lemma MaskTimesStep4(src: seq<char>)
    requires Spells(src, "(t>>10&42)*t")
    ensures CompileFrom(src, Scan(6, [Instr(RPN_PUSH_T, 0), Instr(RPN_PUSH_NUM, 0xa)], [OpenParen, Op(RPN_SHR)], 1, false))
         == CompileFrom(src, Scan(7, [Instr(RPN_PUSH_T, 0), Instr(RPN_PUSH_NUM, 0xa), Instr(RPN_SHR, 0)], [OpenParen, Op(RPN_AND)], 1, true))
  {
    assert [OpenParen, Op(RPN_SHR)][..1] == [OpenParen];
    assert [Instr(RPN_PUSH_T, 0), Instr(RPN_PUSH_NUM, 0xa)] + [Instr(RPN_SHR, 0)] == [Instr(RPN_PUSH_T, 0), Instr(RPN_PUSH_NUM, 0xa), Instr(RPN_SHR, 0)];
    assert EmitTop([Instr(RPN_PUSH_T, 0), Instr(RPN_PUSH_NUM, 0xa)], [OpenParen, Op(RPN_SHR)]) == Ok([Instr(RPN_PUSH_T, 0), Instr(RPN_PUSH_NUM, 0xa), Instr(RPN_SHR, 0)]);
    assert PopWhile([Instr(RPN_PUSH_T, 0), Instr(RPN_PUSH_NUM, 0xa), Instr(RPN_SHR, 0)], [OpenParen], 1, false) == Ok(([Instr(RPN_PUSH_T, 0), Instr(RPN_PUSH_NUM, 0xa), Instr(RPN_SHR, 0)], [OpenParen]));
    assert PopWhile([Instr(RPN_PUSH_T, 0), Instr(RPN_PUSH_NUM, 0xa)], [OpenParen, Op(RPN_SHR)], 1, false) == Ok(([Instr(RPN_PUSH_T, 0), Instr(RPN_PUSH_NUM, 0xa), Instr(RPN_SHR, 0)], [OpenParen]));
    assert [OpenParen, Op(RPN_SHR)][..1] == [OpenParen];
    assert [OpenParen] + [Op(RPN_AND)] == [OpenParen, Op(RPN_AND)];
    assert [Instr(RPN_PUSH_T, 0), Instr(RPN_PUSH_NUM, 0xa)] + [Instr(RPN_SHR, 0)] == [Instr(RPN_PUSH_T, 0), Instr(RPN_PUSH_NUM, 0xa), Instr(RPN_SHR, 0)];
    Advance(src, Scan(6, [Instr(RPN_PUSH_T, 0), Instr(RPN_PUSH_NUM, 0xa)], [OpenParen, Op(RPN_SHR)], 1, false), Scan(7, [Instr(RPN_PUSH_T, 0), Instr(RPN_PUSH_NUM, 0xa), Instr(RPN_SHR, 0)], [OpenParen, Op(RPN_AND)], 1, true));
  }

  lemma MaskTimesStep5(src: seq<char>)
    requires Spells(src, "(t>>10&42)*t")
    ensures CompileFrom(src, Scan(7, [Instr(RPN_PUSH_T, 0), Instr(RPN_PUSH_NUM, 0xa), Instr(RPN_SHR, 0)], [OpenParen, Op(RPN_AND)], 1, true))
         == CompileFrom(src, Scan(9, [Instr(RPN_PUSH_T, 0), Instr(RPN_PUSH_NUM, 0xa), Instr(RPN_SHR, 0), Instr(RPN_PUSH_NUM, 0x2a)], [OpenParen, Op(RPN_AND)], 1, false))
  {
    assert DecDigits(src, 9, 0x2a) == (9, 0x2a);
    assert DecDigits(src, 8, 4) == (9, 0x2a);
    assert DecDigits(src, 7, 0) == (9, 0x2a);
    assert NumberAt(src, 7) == Ok((9, 0x2a));
    assert [Instr(RPN_PUSH_T, 0), Instr(RPN_PUSH_NUM, 0xa), Instr(RPN_SHR, 0)] + [Instr(RPN_PUSH_NUM, 0x2a)] == [Instr(RPN_PUSH_T, 0), Instr(RPN_PUSH_NUM, 0xa), Instr(RPN_SHR, 0), Instr(RPN_PUSH_NUM, 0x2a)];
    Advance(src, Scan(7, [Instr(RPN_PUSH_T, 0), Instr(RPN_PUSH_NUM, 0xa), Instr(RPN_SHR, 0)], [OpenParen, Op(RPN_AND)], 1, true), Scan(9, [Instr(RPN_PUSH_T, 0), Instr(RPN_PUSH_NUM, 0xa), Instr(RPN_SHR, 0), Instr(RPN_PUSH_NUM, 0x2a)], [OpenParen, Op(RPN_AND)], 1, false));
  }

  lemma MaskTimesStep6(src: seq<char>)
    requires Spells(src, "(t>>10&42)*t")
    ensures CompileFrom(src, Scan(9, [Instr(RPN_PUSH_T, 0), Instr(RPN_PUSH_NUM, 0xa), Instr(RPN_SHR, 0), Instr(RPN_PUSH_NUM, 0x2a)], [OpenParen, Op(RPN_AND)], 1, false))
         == CompileFrom(src, Scan(10, [Instr(RPN_PUSH_T, 0), Instr(RPN_PUSH_NUM, 0xa), Instr(RPN_SHR, 0), Instr(RPN_PUSH_NUM, 0x2a), Instr(RPN_AND, 0)], [], 0, false))
  {
    assert [OpenParen, Op(RPN_AND)][..1] == [OpenParen];
    assert [Instr(RPN_PUSH_T, 0), Instr(RPN_PUSH_NUM, 0xa), Instr(RPN_SHR, 0), Instr(RPN_PUSH_NUM, 0x2a)] + [Instr(RPN_AND, 0)] == [Instr(RPN_PUSH_T, 0), Instr(RPN_PUSH_NUM, 0xa), Instr(RPN_SHR, 0), Instr(RPN_PUSH_NUM, 0x2a), Instr(RPN_AND, 0)];
    assert EmitTop([Instr(RPN_PUSH_T, 0), Instr(RPN_PUSH_NUM, 0xa), Instr(RPN_SHR, 0), Instr(RPN_PUSH_NUM, 0x2a)], [OpenParen, Op(RPN_AND)]) == Ok([Instr(RPN_PUSH_T, 0), Instr(RPN_PUSH_NUM, 0xa), Instr(RPN_SHR, 0), Instr(RPN_PUSH_NUM, 0x2a), Instr(RPN_AND, 0)]);
    assert PopToParen([Instr(RPN_PUSH_T, 0), Instr(RPN_PUSH_NUM, 0xa), Instr(RPN_SHR, 0), Instr(RPN_PUSH_NUM, 0x2a), Instr(RPN_AND, 0)], [OpenParen]) == Ok(([Instr(RPN_PUSH_T, 0), Instr(RPN_PUSH_NUM, 0xa), Instr(RPN_SHR, 0), Instr(RPN_PUSH_NUM, 0x2a), Instr(RPN_AND, 0)], [OpenParen]));
    assert PopToParen([Instr(RPN_PUSH_T, 0), Instr(RPN_PUSH_NUM, 0xa), Instr(RPN_SHR, 0), Instr(RPN_PUSH_NUM, 0x2a)], [OpenParen, Op(RPN_AND)]) == Ok(([Instr(RPN_PUSH_T, 0), Instr(RPN_PUSH_NUM, 0xa), Instr(RPN_SHR, 0), Instr(RPN_PUSH_NUM, 0x2a), Instr(RPN_AND, 0)], [OpenParen]));
    assert [OpenParen, Op(RPN_AND)][..1] == [OpenParen];
    assert [OpenParen][..0] == [];
    assert [Instr(RPN_PUSH_T, 0), Instr(RPN_PUSH_NUM, 0xa), Instr(RPN_SHR, 0), Instr(RPN_PUSH_NUM, 0x2a)] + [Instr(RPN_AND, 0)] == [Instr(RPN_PUSH_T, 0), Instr(RPN_PUSH_NUM, 0xa), Instr(RPN_SHR, 0), Instr(RPN_PUSH_NUM, 0x2a), Instr(RPN_AND, 0)];
    Advance(src, Scan(9, [Instr(RPN_PUSH_T, 0), Instr(RPN_PUSH_NUM, 0xa), Instr(RPN_SHR, 0), Instr(RPN_PUSH_NUM, 0x2a)], [OpenParen, Op(RPN_AND)], 1, false), Scan(10, [Instr(RPN_PUSH_T, 0), Instr(RPN_PUSH_NUM, 0xa), Instr(RPN_SHR, 0), Instr(RPN_PUSH_NUM, 0x2a), Instr(RPN_AND, 0)], [], 0, false));
  }

  lemma MaskTimesStep7(src: seq<char>)
    requires Spells(src, "(t>>10&42)*t")
    ensures CompileFrom(src, Scan(10, [Instr(RPN_PUSH_T, 0), Instr(RPN_PUSH_NUM, 0xa), Instr(RPN_SHR, 0), Instr(RPN_PUSH_NUM, 0x2a), Instr(RPN_AND, 0)], [], 0, false))
         == CompileFrom(src, Scan(11, [Instr(RPN_PUSH_T, 0), Instr(RPN_PUSH_NUM, 0xa), Instr(RPN_SHR, 0), Instr(RPN_PUSH_NUM, 0x2a), Instr(RPN_AND, 0)], [Op(RPN_MUL)], 0, true))
  {
    assert PopWhile([Instr(RPN_PUSH_T, 0), Instr(RPN_PUSH_NUM, 0xa), Instr(RPN_SHR, 0), Instr(RPN_PUSH_NUM, 0x2a), Instr(RPN_AND, 0)], [], 6, false) == Ok(([Instr(RPN_PUSH_T, 0), Instr(RPN_PUSH_NUM, 0xa), Instr(RPN_SHR, 0), Instr(RPN_PUSH_NUM, 0x2a), Instr(RPN_AND, 0)], []));
    assert [] + [Op(RPN_MUL)] == [Op(RPN_MUL)];
    Advance(src, Scan(10, [Instr(RPN_PUSH_T, 0), Instr(RPN_PUSH_NUM, 0xa), Instr(RPN_SHR, 0), Instr(RPN_PUSH_NUM, 0x2a), Instr(RPN_AND, 0)], [], 0, false), Scan(11, [Instr(RPN_PUSH_T, 0), Instr(RPN_PUSH_NUM, 0xa), Instr(RPN_SHR, 0), Instr(RPN_PUSH_NUM, 0x2a), Instr(RPN_AND, 0)], [Op(RPN_MUL)], 0, true));
  }

  lemma MaskTimesStep8(src: seq<char>)
    requires Spells(src, "(t>>10&42)*t")
    ensures CompileFrom(src, Scan(11, [Instr(RPN_PUSH_T, 0), Instr(RPN_PUSH_NUM, 0xa), Instr(RPN_SHR, 0), Instr(RPN_PUSH_NUM, 0x2a), Instr(RPN_AND, 0)], [Op(RPN_MUL)], 0, true))
         == CompileFrom(src, Scan(12, [Instr(RPN_PUSH_T, 0), Instr(RPN_PUSH_NUM, 0xa), Instr(RPN_SHR, 0), Instr(RPN_PUSH_NUM, 0x2a), Instr(RPN_AND, 0), Instr(RPN_PUSH_T, 0)], [Op(RPN_MUL)], 0, false))
  {
    assert [Instr(RPN_PUSH_T, 0), Instr(RPN_PUSH_NUM, 0xa), Instr(RPN_SHR, 0), Instr(RPN_PUSH_NUM, 0x2a), Instr(RPN_AND, 0)] + [Instr(RPN_PUSH_T, 0)] == [Instr(RPN_PUSH_T, 0), Instr(RPN_PUSH_NUM, 0xa), Instr(RPN_SHR, 0), Instr(RPN_PUSH_NUM, 0x2a), Instr(RPN_AND, 0), Instr(RPN_PUSH_T, 0)];
    Advance(src, Scan(11, [Instr(RPN_PUSH_T, 0), Instr(RPN_PUSH_NUM, 0xa), Instr(RPN_SHR, 0), Instr(RPN_PUSH_NUM, 0x2a), Instr(RPN_AND, 0)], [Op(RPN_MUL)], 0, true), Scan(12, [Instr(RPN_PUSH_T, 0), Instr(RPN_PUSH_NUM, 0xa), Instr(RPN_SHR, 0), Instr(RPN_PUSH_NUM, 0x2a), Instr(RPN_AND, 0), Instr(RPN_PUSH_T, 0)], [Op(RPN_MUL)], 0, false));
  }

  lemma MaskTimesFinish(src: seq<char>)
    requires Spells(src, "(t>>10&42)*t")
    ensures CompileFrom(src, Scan(12, [Instr(RPN_PUSH_T, 0), Instr(RPN_PUSH_NUM, 0xa), Instr(RPN_SHR, 0), Instr(RPN_PUSH_NUM, 0x2a), Instr(RPN_AND, 0), Instr(RPN_PUSH_T, 0)], [Op(RPN_MUL)], 0, false)) == Ok([Instr(RPN_PUSH_T, 0), Instr(RPN_PUSH_NUM, 0xa), Instr(RPN_SHR, 0), Instr(RPN_PUSH_NUM, 0x2a), Instr(RPN_AND, 0), Instr(RPN_PUSH_T, 0), Instr(RPN_MUL, 0)])
  {
    Stop(src, Scan(12, [Instr(RPN_PUSH_T, 0), Instr(RPN_PUSH_NUM, 0xa), Instr(RPN_SHR, 0), Instr(RPN_PUSH_NUM, 0x2a), Instr(RPN_AND, 0), Instr(RPN_PUSH_T, 0)], [Op(RPN_MUL)], 0, false));
    assert [Op(RPN_MUL)][..0] == [];
    assert [Instr(RPN_PUSH_T, 0), Instr(RPN_PUSH_NUM, 0xa), Instr(RPN_SHR, 0), Instr(RPN_PUSH_NUM, 0x2a), Instr(RPN_AND, 0), Instr(RPN_PUSH_T, 0)] + [Instr(RPN_MUL, 0)] == [Instr(RPN_PUSH_T, 0), Instr(RPN_PUSH_NUM, 0xa), Instr(RPN_SHR, 0), Instr(RPN_PUSH_NUM, 0x2a), Instr(RPN_AND, 0), Instr(RPN_PUSH_T, 0), Instr(RPN_MUL, 0)];
    assert EmitTop([Instr(RPN_PUSH_T, 0), Instr(RPN_PUSH_NUM, 0xa), Instr(RPN_SHR, 0), Instr(RPN_PUSH_NUM, 0x2a), Instr(RPN_AND, 0), Instr(RPN_PUSH_T, 0)], [Op(RPN_MUL)]) == Ok([Instr(RPN_PUSH_T, 0), Instr(RPN_PUSH_NUM, 0xa), Instr(RPN_SHR, 0), Instr(RPN_PUSH_NUM, 0x2a), Instr(RPN_AND, 0), Instr(RPN_PUSH_T, 0), Instr(RPN_MUL, 0)]);
    assert PopAll([Instr(RPN_PUSH_T, 0), Instr(RPN_PUSH_NUM, 0xa), Instr(RPN_SHR, 0), Instr(RPN_PUSH_NUM, 0x2a), Instr(RPN_AND, 0), Instr(RPN_PUSH_T, 0), Instr(RPN_MUL, 0)], []) == Ok([Instr(RPN_PUSH_T, 0), Instr(RPN_PUSH_NUM, 0xa), Instr(RPN_SHR, 0), Instr(RPN_PUSH_NUM, 0x2a), Instr(RPN_AND, 0), Instr(RPN_PUSH_T, 0), Instr(RPN_MUL, 0)]);
    assert PopAll([Instr(RPN_PUSH_T, 0), Instr(RPN_PUSH_NUM, 0xa), Instr(RPN_SHR, 0), Instr(RPN_PUSH_NUM, 0x2a), Instr(RPN_AND, 0), Instr(RPN_PUSH_T, 0)], [Op(RPN_MUL)]) == Ok([Instr(RPN_PUSH_T, 0), Instr(RPN_PUSH_NUM, 0xa), Instr(RPN_SHR, 0), Instr(RPN_PUSH_NUM, 0x2a), Instr(RPN_AND, 0), Instr(RPN_PUSH_T, 0), Instr(RPN_MUL, 0)]);
  }

  lemma MaskTimesCompiles(src: seq<char>)
    requires Spells(src, "(t>>10&42)*t")
    ensures Compile(src) == Ok([Instr(RPN_PUSH_T, 0), Instr(RPN_PUSH_NUM, 0xa), Instr(RPN_SHR, 0), Instr(RPN_PUSH_NUM, 0x2a), Instr(RPN_AND, 0), Instr(RPN_PUSH_T, 0), Instr(RPN_MUL, 0)])
  {
    MaskTimesStep0(src);
    MaskTimesStep1(src);
    MaskTimesStep2(src);
    MaskTimesStep3(src);
    MaskTimesStep4(src);
    MaskTimesStep5(src);
    MaskTimesStep6(src);
    MaskTimesStep7(src);
    MaskTimesStep8(src);
    MaskTimesFinish(src);
  }

  lemma MaskTimesTree()
    ensures Emit(Binary(RPN_MUL, Binary(RPN_AND, Binary(RPN_SHR, TVar, Const(0xa)), Const(0x2a)), TVar)) == [Instr(RPN_PUSH_T, 0), Instr(RPN_PUSH_NUM, 0xa), Instr(RPN_SHR, 0), Instr(RPN_PUSH_NUM, 0x2a), Instr(RPN_AND, 0), Instr(RPN_PUSH_T, 0), Instr(RPN_MUL, 0)]
  {
  }

  /** `(t>>10&42)*t` compiles to the postfix code of the C expression tree, which the VM computes for every t. */
  lemma MaskTimes(ws: WideShifts)
    ensures Compile("(t>>10&42)*t") == Ok(Emit(Binary(RPN_MUL, Binary(RPN_AND, Binary(RPN_SHR, TVar, Const(0xa)), Const(0x2a)), TVar)))
    ensures forall t :: Evaluate(Emit(Binary(RPN_MUL, Binary(RPN_AND, Binary(RPN_SHR, TVar, Const(0xa)), Const(0x2a)), TVar)), t, ws) == Denote(Binary(RPN_MUL, Binary(RPN_AND, Binary(RPN_SHR, TVar, Const(0xa)), Const(0x2a)), TVar), t, ws)
  {
    MaskTimesCompiles("(t>>10&42)*t");
    MaskTimesTree();
    forall t
      ensures Evaluate(Emit(Binary(RPN_MUL, Binary(RPN_AND, Binary(RPN_SHR, TVar, Const(0xa)), Const(0x2a)), TVar)), t, ws) == Denote(Binary(RPN_MUL, Binary(RPN_AND, Binary(RPN_SHR, TVar, Const(0xa)), Const(0x2a)), TVar), t, ws)
    {
      EmitEvaluates(Binary(RPN_MUL, Binary(RPN_AND, Binary(RPN_SHR, TVar, Const(0xa)), Const(0x2a)), TVar), t, ws);
    }
  }

  lemma OrOfShiftsStep0(src: seq<char>)
    requires Spells(src, "t*(t>>8|t>>9)")
    ensures CompileFrom(src, Scan(0, [], [], 0, true))
         == CompileFrom(src, Scan(1, [Instr(RPN_PUSH_T, 0)], [], 0, false))
  {
    assert [] + [Instr(RPN_PUSH_T, 0)] == [Instr(RPN_PUSH_T, 0)];
    Advance(src, Scan(0, [], [], 0, true), Scan(1, [Instr(RPN_PUSH_T, 0)], [], 0, false));
  }

  lemma OrOfShiftsStep1(src: seq<char>)
    requires Spells(src, "t*(t>>8|t>>9)")
    ensures CompileFrom(src, Scan(1, [Instr(RPN_PUSH_T, 0)], [], 0, false))
         == CompileFrom(src, Scan(2, [Instr(RPN_PUSH_T, 0)], [Op(RPN_MUL)], 0, true))
  {
    assert PopWhile([Instr(RPN_PUSH_T, 0)], [], 6, false) == Ok(([Instr(RPN_PUSH_T, 0)], []));
    assert [] + [Op(RPN_MUL)] == [Op(RPN_MUL)];
    Advance(src, Scan(1, [Instr(RPN_PUSH_T, 0)], [], 0, false), Scan(2, [Instr(RPN_PUSH_T, 0)], [Op(RPN_MUL)], 0, true));
  }

  lemma OrOfShiftsStep2(src: seq<char>)
    requires Spells(src, "t*(t>>8|t>>9)")
    ensures CompileFrom(src, Scan(2, [Instr(RPN_PUSH_T, 0)], [Op(RPN_MUL)], 0, true))
         == CompileFrom(src, Scan(3, [Instr(RPN_PUSH_T, 0)], [Op(RPN_MUL), OpenParen], 1, true))
  {
    assert [Op(RPN_MUL)] + [OpenParen] == [Op(RPN_MUL), OpenParen];
    Advance(src, Scan(2, [Instr(RPN_PUSH_T, 0)], [Op(RPN_MUL)], 0, true), Scan(3, [Instr(RPN_PUSH_T, 0)], [Op(RPN_MUL), OpenParen], 1, true));
  }

  lemma OrOfShiftsStep3(src: seq<char>)
    requires Spells(src, "t*(t>>8|t>>9)")
    ensures CompileFrom(src, Scan(3, [Instr(RPN_PUSH_T, 0)], [Op(RPN_MUL), OpenParen], 1, true))
         == CompileFrom(src, Scan(4, [Instr(RPN_PUSH_T, 0), Instr(RPN_PUSH_T, 0)], [Op(RPN_MUL), OpenParen], 1, false))
  {
    assert [Instr(RPN_PUSH_T, 0)] + [Instr(RPN_PUSH_T, 0)] == [Instr(RPN_PUSH_T, 0), Instr(RPN_PUSH_T, 0)];
    Advance(src, Scan(3, [Instr(RPN_PUSH_T, 0)], [Op(RPN_MUL), OpenParen], 1, true), Scan(4, [Instr(RPN_PUSH_T, 0), Instr(RPN_PUSH_T, 0)], [Op(RPN_MUL), OpenParen], 1, false));
  }

  lemma OrOfShiftsStep4(src: seq<char>)
    requires Spells(src, "t*(t>>8|t>>9)")
    ensures CompileFrom(src, Scan(4, [Instr(RPN_PUSH_T, 0), Instr(RPN_PUSH_T, 0)], [Op(RPN_MUL), OpenParen], 1, false))
         == CompileFrom(src, Scan(6, [Instr(RPN_PUSH_T, 0), Instr(RPN_PUSH_T, 0)], [Op(RPN_MUL), OpenParen, Op(RPN_SHR)], 1, true))
  {
    assert PopWhile([Instr(RPN_PUSH_T, 0), Instr(RPN_PUSH_T, 0)], [Op(RPN_MUL), OpenParen], 4, false) == Ok(([Instr(RPN_PUSH_T, 0), Instr(RPN_PUSH_T, 0)], [Op(RPN_MUL), OpenParen]));
    assert [Op(RPN_MUL), OpenParen] + [Op(RPN_SHR)] == [Op(RPN_MUL), OpenParen, Op(RPN_SHR)];
    Advance(src, Scan(4, [Instr(RPN_PUSH_T, 0), Instr(RPN_PUSH_T, 0)], [Op(RPN_MUL), OpenParen], 1, false), Scan(6, [Instr(RPN_PUSH_T, 0), Instr(RPN_PUSH_T, 0)], [Op(RPN_MUL), OpenParen, Op(RPN_SHR)], 1, true));
  }

  lemma OrOfShiftsStep5(src: seq<char>)
    requires Spells(src, "t*(t>>8|t>>9)")
    ensures CompileFrom(src, Scan(6, [Instr(RPN_PUSH_T, 0), Instr(RPN_PUSH_T, 0)], [Op(RPN_MUL), OpenParen, Op(RPN_SHR)], 1, true))
         == CompileFrom(src, Scan(7, [Instr(RPN_PUSH_T, 0), Instr(RPN_PUSH_T, 0), Instr(RPN_PUSH_NUM, 8)], [Op(RPN_MUL), OpenParen, Op(RPN_SHR)], 1, false))
  {
    assert DecDigits(src, 7, 8) == (7, 8);
    assert DecDigits(src, 6, 0) == (7, 8);
    assert NumberAt(src, 6) == Ok((7, 8));
    assert [Instr(RPN_PUSH_T, 0), Instr(RPN_PUSH_T, 0)] + [Instr(RPN_PUSH_NUM, 8)] == [Instr(RPN_PUSH_T, 0), Instr(RPN_PUSH_T, 0), Instr(RPN_PUSH_NUM, 8)];
    Advance(src, Scan(6, [Instr(RPN_PUSH_T, 0), Instr(RPN_PUSH_T, 0)], [Op(RPN_MUL), OpenParen, Op(RPN_SHR)], 1, true), Scan(7, [Instr(RPN_PUSH_T, 0), Instr(RPN_PUSH_T, 0), Instr(RPN_PUSH_NUM, 8)], [Op(RPN_MUL), OpenParen, Op(RPN_SHR)], 1, false));
  }

  lemma OrOfShiftsStep6(src: seq<char>)
    requires Spells(src, "t*(t>>8|t>>9)")
    ensures CompileFrom(src, Scan(7, [Instr(RPN_PUSH_T, 0), Instr(RPN_PUSH_T, 0), Instr(RPN_PUSH_NUM, 8)], [Op(RPN_MUL), OpenParen, Op(RPN_SHR)], 1, false))
         == CompileFrom(src, Scan(8, [Instr(RPN_PUSH_T, 0), Instr(RPN_PUSH_T, 0), Instr(RPN_PUSH_NUM, 8), Instr(RPN_SHR, 0)], [Op(RPN_MUL), OpenParen, Op(RPN_OR)], 1, true))
  {
    assert [Op(RPN_MUL), OpenParen, Op(RPN_SHR)][..2] == [Op(RPN_MUL), OpenParen];
    assert [Instr(RPN_PUSH_T, 0), Instr(RPN_PUSH_T, 0), Instr(RPN_PUSH_NUM, 8)] + [Instr(RPN_SHR, 0)] == [Instr(RPN_PUSH_T, 0), Instr(RPN_PUSH_T, 0), Instr(RPN_PUSH_NUM, 8), Instr(RPN_SHR, 0)];
    assert EmitTop([Instr(RPN_PUSH_T, 0), Instr(RPN_PUSH_T, 0), Instr(RPN_PUSH_NUM, 8)], [Op(RPN_MUL), OpenParen, Op(RPN_SHR)]) == Ok([Instr(RPN_PUSH_T, 0), Instr(RPN_PUSH_T, 0), Instr(RPN_PUSH_NUM, 8), Instr(RPN_SHR, 0)]);
    assert PopWhile([Instr(RPN_PUSH_T, 0), Instr(RPN_PUSH_T, 0), Instr(RPN_PUSH_NUM, 8), Instr(RPN_SHR, 0)], [Op(RPN_MUL), OpenParen], 0, false) == Ok(([Instr(RPN_PUSH_T, 0), Instr(RPN_PUSH_T, 0), Instr(RPN_PUSH_NUM, 8), Instr(RPN_SHR, 0)], [Op(RPN_MUL), OpenParen]));
    assert PopWhile([Instr(RPN_PUSH_T, 0), Instr(RPN_PUSH_T, 0), Instr(RPN_PUSH_NUM, 8)], [Op(RPN_MUL), OpenParen, Op(RPN_SHR)], 0, false) == Ok(([Instr(RPN_PUSH_T, 0), Instr(RPN_PUSH_T, 0), Instr(RPN_PUSH_NUM, 8), Instr(RPN_SHR, 0)], [Op(RPN_MUL), OpenParen]));
    assert [Op(RPN_MUL), OpenParen, Op(RPN_SHR)][..2] == [Op(RPN_MUL), OpenParen];
    assert [Op(RPN_MUL), OpenParen] + [Op(RPN_OR)] == [Op(RPN_MUL), OpenParen, Op(RPN_OR)];
    assert [Instr(RPN_PUSH_T, 0), Instr(RPN_PUSH_T, 0), Instr(RPN_PUSH_NUM, 8)] + [Instr(RPN_SHR, 0)] == [Instr(RPN_PUSH_T, 0), Instr(RPN_PUSH_T, 0), Instr(RPN_PUSH_NUM, 8), Instr(RPN_SHR, 0)];
    Advance(src, Scan(7, [Instr(RPN_PUSH_T, 0), Instr(RPN_PUSH_T, 0), Instr(RPN_PUSH_NUM, 8)], [Op(RPN_MUL), OpenParen, Op(RPN_SHR)], 1, false), Scan(8, [Instr(RPN_PUSH_T, 0), Instr(RPN_PUSH_T, 0), Instr(RPN_PUSH_NUM, 8), Instr(RPN_SHR, 0)], [Op(RPN_MUL), OpenParen, Op(RPN_OR)], 1, true));
  }

  lemma OrOfShiftsStep7(src: seq<char>)
    requires Spells(src, "t*(t>>8|t>>9)")
    ensures CompileFrom(src, Scan(8, [Instr(RPN_PUSH_T, 0), Instr(RPN_PUSH_T, 0), Instr(RPN_PUSH_NUM, 8), Instr(RPN_SHR, 0)], [Op(RPN_MUL), OpenParen, Op(RPN_OR)], 1, true))
         == CompileFrom(src, Scan(9, [Instr(RPN_PUSH_T, 0), Instr(RPN_PUSH_T, 0), Instr(RPN_PUSH_NUM, 8), Instr(RPN_SHR, 0), Instr(RPN_PUSH_T, 0)], [Op(RPN_MUL), OpenParen, Op(RPN_OR)], 1, false))
  {
    assert [Instr(RPN_PUSH_T, 0), Instr(RPN_PUSH_T, 0), Instr(RPN_PUSH_NUM, 8), Instr(RPN_SHR, 0)] + [Instr(RPN_PUSH_T, 0)] == [Instr(RPN_PUSH_T, 0), Instr(RPN_PUSH_T, 0), Instr(RPN_PUSH_NUM, 8), Instr(RPN_SHR, 0), Instr(RPN_PUSH_T, 0)];
    Advance(src, Scan(8, [Instr(RPN_PUSH_T, 0), Instr(RPN_PUSH_T, 0), Instr(RPN_PUSH_NUM, 8), Instr(RPN_SHR, 0)], [Op(RPN_MUL), OpenParen, Op(RPN_OR)], 1, true), Scan(9, [Instr(RPN_PUSH_T, 0), Instr(RPN_PUSH_T, 0), Instr(RPN_PUSH_NUM, 8), Instr(RPN_SHR, 0), Instr(RPN_PUSH_T, 0)], [Op(RPN_MUL), OpenParen, Op(RPN_OR)], 1, false));
  }

  lemma OrOfShiftsStep8(src: seq<char>)
    requires Spells(src, "t*(t>>8|t>>9)")
    ensures CompileFrom(src, Scan(9, [Instr(RPN_PUSH_T, 0), Instr(RPN_PUSH_T, 0), Instr(RPN_PUSH_NUM, 8), Instr(RPN_SHR, 0), Instr(RPN_PUSH_T, 0)], [Op(RPN_MUL), OpenParen, Op(RPN_OR)], 1, false))
         == CompileFrom(src, Scan(11, [Instr(RPN_PUSH_T, 0), Instr(RPN_PUSH_T, 0), Instr(RPN_PUSH_NUM, 8), Instr(RPN_SHR, 0), Instr(RPN_PUSH_T, 0)], [Op(RPN_MUL), OpenParen, Op(RPN_OR), Op(RPN_SHR)], 1, true))
  {
    assert PopWhile([Instr(RPN_PUSH_T, 0), Instr(RPN_PUSH_T, 0), Instr(RPN_PUSH_NUM, 8), Instr(RPN_SHR, 0), Instr(RPN_PUSH_T, 0)], [Op(RPN_MUL), OpenParen, Op(RPN_OR)], 4, false) == Ok(([Instr(RPN_PUSH_T, 0), Instr(RPN_PUSH_T, 0), Instr(RPN_PUSH_NUM, 8), Instr(RPN_SHR, 0), Instr(RPN_PUSH_T, 0)], [Op(RPN_MUL), OpenParen, Op(RPN_OR)]));
    assert [Op(RPN_MUL), OpenParen, Op(RPN_OR)] + [Op(RPN_SHR)] == [Op(RPN_MUL), OpenParen, Op(RPN_OR), Op(RPN_SHR)];
    Advance(src, Scan(9, [Instr(RPN_PUSH_T, 0), Instr(RPN_PUSH_T, 0), Instr(RPN_PUSH_NUM, 8), Instr(RPN_SHR, 0), Instr(RPN_PUSH_T, 0)], [Op(RPN_MUL), OpenParen, Op(RPN_OR)], 1, false), Scan(11, [Instr(RPN_PUSH_T, 0), Instr(RPN_PUSH_T, 0), Instr(RPN_PUSH_NUM, 8), Instr(RPN_SHR, 0), Instr(RPN_PUSH_T, 0)], [Op(RPN_MUL), OpenParen, Op(RPN_OR), Op(RPN_SHR)], 1, true));
  }

  lemma OrOfShiftsStep9(src: seq<char>)
    requires Spells(src, "t*(t>>8|t>>9)")
    ensures CompileFrom(src, Scan(11, [Instr(RPN_PUSH_T, 0), Instr(RPN_PUSH_T, 0), Instr(RPN_PUSH_NUM, 8), Instr(RPN_SHR, 0), Instr(RPN_PUSH_T, 0)], [Op(RPN_MUL), OpenParen, Op(RPN_OR), Op(RPN_SHR)], 1, true))
         == CompileFrom(src, Scan(12, [Instr(RPN_PUSH_T, 0), Instr(RPN_PUSH_T, 0), Instr(RPN_PUSH_NUM, 8), Instr(RPN_SHR, 0), Instr(RPN_PUSH_T, 0), Instr(RPN_PUSH_NUM, 9)], [Op(RPN_MUL), OpenParen, Op(RPN_OR), Op(RPN_SHR)], 1, false))
  {
    assert DecDigits(src, 12, 9) == (12, 9);
    assert DecDigits(src, 11, 0) == (12, 9);
    assert NumberAt(src, 11) == Ok((12, 9));
    assert [Instr(RPN_PUSH_T, 0), Instr(RPN_PUSH_T, 0), Instr(RPN_PUSH_NUM, 8), Instr(RPN_SHR, 0), Instr(RPN_PUSH_T, 0)] + [Instr(RPN_PUSH_NUM, 9)] == [Instr(RPN_PUSH_T, 0), Instr(RPN_PUSH_T, 0), Instr(RPN_PUSH_NUM, 8), Instr(RPN_SHR, 0), Instr(RPN_PUSH_T, 0), Instr(RPN_PUSH_NUM, 9)];
    Advance(src, Scan(11, [Instr(RPN_PUSH_T, 0), Instr(RPN_PUSH_T, 0), Instr(RPN_PUSH_NUM, 8), Instr(RPN_SHR, 0), Instr(RPN_PUSH_T, 0)], [Op(RPN_MUL), OpenParen, Op(RPN_OR), Op(RPN_SHR)], 1, true), Scan(12, [Instr(RPN_PUSH_T, 0), Instr(RPN_PUSH_T, 0), Instr(RPN_PUSH_NUM, 8), Instr(RPN_SHR, 0), Instr(RPN_PUSH_T, 0), Instr(RPN_PUSH_NUM, 9)], [Op(RPN_MUL), OpenParen, Op(RPN_OR), Op(RPN_SHR)], 1, false));
  }

  lemma OrOfShiftsStep10(src: seq<char>)
    requires Spells(src, "t*(t>>8|t>>9)")
    ensures CompileFrom(src, Scan(12, [Instr(RPN_PUSH_T, 0), Instr(RPN_PUSH_T, 0), Instr(RPN_PUSH_NUM, 8), Instr(RPN_SHR, 0), Instr(RPN_PUSH_T, 0), Instr(RPN_PUSH_NUM, 9)], [Op(RPN_MUL), OpenParen, Op(RPN_OR), Op(RPN_SHR)], 1, false))
         == CompileFrom(src, Scan(13, [Instr(RPN_PUSH_T, 0), Instr(RPN_PUSH_T, 0), Instr(RPN_PUSH_NUM, 8), Instr(RPN_SHR, 0), Instr(RPN_PUSH_T, 0), Instr(RPN_PUSH_NUM, 9), Instr(RPN_SHR, 0), Instr(RPN_OR, 0)], [Op(RPN_MUL)], 0, false))
  {
    assert [Op(RPN_MUL), OpenParen, Op(RPN_OR), Op(RPN_SHR)][..3] == [Op(RPN_MUL), OpenParen, Op(RPN_OR)];
    assert [Instr(RPN_PUSH_T, 0), Instr(RPN_PUSH_T, 0), Instr(RPN_PUSH_NUM, 8), Instr(RPN_SHR, 0), Instr(RPN_PUSH_T, 0), Instr(RPN_PUSH_NUM, 9)] + [Instr(RPN_SHR, 0)] == [Instr(RPN_PUSH_T, 0), Instr(RPN_PUSH_T, 0), Instr(RPN_PUSH_NUM, 8), Instr(RPN_SHR, 0), Instr(RPN_PUSH_T, 0), Instr(RPN_PUSH_NUM, 9), Instr(RPN_SHR, 0)];
    assert EmitTop([Instr(RPN_PUSH_T, 0), Instr(RPN_PUSH_T, 0), Instr(RPN_PUSH_NUM, 8), Instr(RPN_SHR, 0), Instr(RPN_PUSH_T, 0), Instr(RPN_PUSH_NUM, 9)], [Op(RPN_MUL), OpenParen, Op(RPN_OR), Op(RPN_SHR)]) == Ok([Instr(RPN_PUSH_T, 0), Instr(RPN_PUSH_T, 0), Instr(RPN_PUSH_NUM, 8), Instr(RPN_SHR, 0), Instr(RPN_PUSH_T, 0), Instr(RPN_PUSH_NUM, 9), Instr(RPN_SHR, 0)]);
    assert [Op(RPN_MUL), OpenParen, Op(RPN_OR)][..2] == [Op(RPN_MUL), OpenParen];
    assert [Instr(RPN_PUSH_T, 0), Instr(RPN_PUSH_T, 0), Instr(RPN_PUSH_NUM, 8), Instr(RPN_SHR, 0), Instr(RPN_PUSH_T, 0), Instr(RPN_PUSH_NUM, 9), Instr(RPN_SHR, 0)] + [Instr(RPN_OR, 0)] == [Instr(RPN_PUSH_T, 0), Instr(RPN_PUSH_T, 0), Instr(RPN_PUSH_NUM, 8), Instr(RPN_SHR, 0), Instr(RPN_PUSH_T, 0), Instr(RPN_PUSH_NUM, 9), Instr(RPN_SHR, 0), Instr(RPN_OR, 0)];
    assert EmitTop([Instr(RPN_PUSH_T, 0), Instr(RPN_PUSH_T, 0), Instr(RPN_PUSH_NUM, 8), Instr(RPN_SHR, 0), Instr(RPN_PUSH_T, 0), Instr(RPN_PUSH_NUM, 9), Instr(RPN_SHR, 0)], [Op(RPN_MUL), OpenParen, Op(RPN_OR)]) == Ok([Instr(RPN_PUSH_T, 0), Instr(RPN_PUSH_T, 0), Instr(RPN_PUSH_NUM, 8), Instr(RPN_SHR, 0), Instr(RPN_PUSH_T, 0), Instr(RPN_PUSH_NUM, 9), Instr(RPN_SHR, 0), Instr(RPN_OR, 0)]);
    assert PopToParen([Instr(RPN_PUSH_T, 0), Instr(RPN_PUSH_T, 0), Instr(RPN_PUSH_NUM, 8), Instr(RPN_SHR, 0), Instr(RPN_PUSH_T, 0), Instr(RPN_PUSH_NUM, 9), Instr(RPN_SHR, 0), Instr(RPN_OR, 0)], [Op(RPN_MUL), OpenParen]) == Ok(([Instr(RPN_PUSH_T, 0), Instr(RPN_PUSH_T, 0), Instr(RPN_PUSH_NUM, 8), Instr(RPN_SHR, 0), Instr(RPN_PUSH_T, 0), Instr(RPN_PUSH_NUM, 9), Instr(RPN_SHR, 0), Instr(RPN_OR, 0)], [Op(RPN_MUL), OpenParen]));
    assert PopToParen([Instr(RPN_PUSH_T, 0), Instr(RPN_PUSH_T, 0), Instr(RPN_PUSH_NUM, 8), Instr(RPN_SHR, 0), Instr(RPN_PUSH_T, 0), Instr(RPN_PUSH_NUM, 9), Instr(RPN_SHR, 0)], [Op(RPN_MUL), OpenParen, Op(RPN_OR)]) == Ok(([Instr(RPN_PUSH_T, 0), Instr(RPN_PUSH_T, 0), Instr(RPN_PUSH_NUM, 8), Instr(RPN_SHR, 0), Instr(RPN_PUSH_T, 0), Instr(RPN_PUSH_NUM, 9), Instr(RPN_SHR, 0), Instr(RPN_OR, 0)], [Op(RPN_MUL), OpenParen]));
    assert PopToParen([Instr(RPN_PUSH_T, 0), Instr(RPN_PUSH_T, 0), Instr(RPN_PUSH_NUM, 8), Instr(RPN_SHR, 0), Instr(RPN_PUSH_T, 0), Instr(RPN_PUSH_NUM, 9)], [Op(RPN_MUL), OpenParen, Op(RPN_OR), Op(RPN_SHR)]) == Ok(([Instr(RPN_PUSH_T, 0), Instr(RPN_PUSH_T, 0), Instr(RPN_PUSH_NUM, 8), Instr(RPN_SHR, 0), Instr(RPN_PUSH_T, 0), Instr(RPN_PUSH_NUM, 9), Instr(RPN_SHR, 0), Instr(RPN_OR, 0)], [Op(RPN_MUL), OpenParen]));
    assert [Op(RPN_MUL), OpenParen, Op(RPN_OR), Op(RPN_SHR)][..3] == [Op(RPN_MUL), OpenParen, Op(RPN_OR)];
    assert [Op(RPN_MUL), OpenParen, Op(RPN_OR)][..2] == [Op(RPN_MUL), OpenParen];
    assert [Op(RPN_MUL), OpenParen][..1] == [Op(RPN_MUL)];
    assert [Instr(RPN_PUSH_T, 0), Instr(RPN_PUSH_T, 0), Instr(RPN_PUSH_NUM, 8), Instr(RPN_SHR, 0), Instr(RPN_PUSH_T, 0), Instr(RPN_PUSH_NUM, 9)] + [Instr(RPN_SHR, 0)] == [Instr(RPN_PUSH_T, 0), Instr(RPN_PUSH_T, 0), Instr(RPN_PUSH_NUM, 8), Instr(RPN_SHR, 0), Instr(RPN_PUSH_T, 0), Instr(RPN_PUSH_NUM, 9), Instr(RPN_SHR, 0)];
    assert [Instr(RPN_PUSH_T, 0), Instr(RPN_PUSH_T, 0), Instr(RPN_PUSH_NUM, 8), Instr(RPN_SHR, 0), Instr(RPN_PUSH_T, 0), Instr(RPN_PUSH_NUM, 9), Instr(RPN_SHR, 0)] + [Instr(RPN_OR, 0)] == [Instr(RPN_PUSH_T, 0), Instr(RPN_PUSH_T, 0), Instr(RPN_PUSH_NUM, 8), Instr(RPN_SHR, 0), Instr(RPN_PUSH_T, 0), Instr(RPN_PUSH_NUM, 9), Instr(RPN_SHR, 0), Instr(RPN_OR, 0)];
    Advance(src, Scan(12, [Instr(RPN_PUSH_T, 0), Instr(RPN_PUSH_T, 0), Instr(RPN_PUSH_NUM, 8), Instr(RPN_SHR, 0), Instr(RPN_PUSH_T, 0), Instr(RPN_PUSH_NUM, 9)], [Op(RPN_MUL), OpenParen, Op(RPN_OR), Op(RPN_SHR)], 1, false), Scan(13, [Instr(RPN_PUSH_T, 0), Instr(RPN_PUSH_T, 0), Instr(RPN_PUSH_NUM, 8), Instr(RPN_SHR, 0), Instr(RPN_PUSH_T, 0), Instr(RPN_PUSH_NUM, 9), Instr(RPN_SHR, 0), Instr(RPN_OR, 0)], [Op(RPN_MUL)], 0, false));
  }

  lemma OrOfShiftsFinish(src: seq<char>)
    requires Spells(src, "t*(t>>8|t>>9)")
    ensures CompileFrom(src, Scan(13, [Instr(RPN_PUSH_T, 0), Instr(RPN_PUSH_T, 0), Instr(RPN_PUSH_NUM, 8), Instr(RPN_SHR, 0), Instr(RPN_PUSH_T, 0), Instr(RPN_PUSH_NUM, 9), Instr(RPN_SHR, 0), Instr(RPN_OR, 0)], [Op(RPN_MUL)], 0, false)) == Ok([Instr(RPN_PUSH_T, 0), Instr(RPN_PUSH_T, 0), Instr(RPN_PUSH_NUM, 8), Instr(RPN_SHR, 0), Instr(RPN_PUSH_T, 0), Instr(RPN_PUSH_NUM, 9), Instr(RPN_SHR, 0), Instr(RPN_OR, 0), Instr(RPN_MUL, 0)])
  {
    Stop(src, Scan(13, [Instr(RPN_PUSH_T, 0), Instr(RPN_PUSH_T, 0), Instr(RPN_PUSH_NUM, 8), Instr(RPN_SHR, 0), Instr(RPN_PUSH_T, 0), Instr(RPN_PUSH_NUM, 9), Instr(RPN_SHR, 0), Instr(RPN_OR, 0)], [Op(RPN_MUL)], 0, false));
    assert [Op(RPN_MUL)][..0] == [];
    assert [Instr(RPN_PUSH_T, 0), Instr(RPN_PUSH_T, 0), Instr(RPN_PUSH_NUM, 8), Instr(RPN_SHR, 0), Instr(RPN_PUSH_T, 0), Instr(RPN_PUSH_NUM, 9), Instr(RPN_SHR, 0), Instr(RPN_OR, 0)] + [Instr(RPN_MUL, 0)] == [Instr(RPN_PUSH_T, 0), Instr(RPN_PUSH_T, 0), Instr(RPN_PUSH_NUM, 8), Instr(RPN_SHR, 0), Instr(RPN_PUSH_T, 0), Instr(RPN_PUSH_NUM, 9), Instr(RPN_SHR, 0), Instr(RPN_OR, 0), Instr(RPN_MUL, 0)];
    assert EmitTop([Instr(RPN_PUSH_T, 0), Instr(RPN_PUSH_T, 0), Instr(RPN_PUSH_NUM, 8), Instr(RPN_SHR, 0), Instr(RPN_PUSH_T, 0), Instr(RPN_PUSH_NUM, 9), Instr(RPN_SHR, 0), Instr(RPN_OR, 0)], [Op(RPN_MUL)]) == Ok([Instr(RPN_PUSH_T, 0), Instr(RPN_PUSH_T, 0), Instr(RPN_PUSH_NUM, 8), Instr(RPN_SHR, 0), Instr(RPN_PUSH_T, 0), Instr(RPN_PUSH_NUM, 9), Instr(RPN_SHR, 0), Instr(RPN_OR, 0), Instr(RPN_MUL, 0)]);
    assert PopAll([Instr(RPN_PUSH_T, 0), Instr(RPN_PUSH_T, 0), Instr(RPN_PUSH_NUM, 8), Instr(RPN_SHR, 0), Instr(RPN_PUSH_T, 0), Instr(RPN_PUSH_NUM, 9), Instr(RPN_SHR, 0), Instr(RPN_OR, 0), Instr(RPN_MUL, 0)], []) == Ok([Instr(RPN_PUSH_T, 0), Instr(RPN_PUSH_T, 0), Instr(RPN_PUSH_NUM, 8), Instr(RPN_SHR, 0), Instr(RPN_PUSH_T, 0), Instr(RPN_PUSH_NUM, 9), Instr(RPN_SHR, 0), Instr(RPN_OR, 0), Instr(RPN_MUL, 0)]);
    assert PopAll([Instr(RPN_PUSH_T, 0), Instr(RPN_PUSH_T, 0), Instr(RPN_PUSH_NUM, 8), Instr(RPN_SHR, 0), Instr(RPN_PUSH_T, 0), Instr(RPN_PUSH_NUM, 9), Instr(RPN_SHR, 0), Instr(RPN_OR, 0)], [Op(RPN_MUL)]) == Ok([Instr(RPN_PUSH_T, 0), Instr(RPN_PUSH_T, 0), Instr(RPN_PUSH_NUM, 8), Instr(RPN_SHR, 0), Instr(RPN_PUSH_T, 0), Instr(RPN_PUSH_NUM, 9), Instr(RPN_SHR, 0), Instr(RPN_OR, 0), Instr(RPN_MUL, 0)]);
  }

  lemma OrOfShiftsCompiles(src: seq<char>)
    requires Spells(src, "t*(t>>8|t>>9)")
    ensures Compile(src) == Ok([Instr(RPN_PUSH_T, 0), Instr(RPN_PUSH_T, 0), Instr(RPN_PUSH_NUM, 8), Instr(RPN_SHR, 0), Instr(RPN_PUSH_T, 0), Instr(RPN_PUSH_NUM, 9), Instr(RPN_SHR, 0), Instr(RPN_OR, 0), Instr(RPN_MUL, 0)])
  {
    OrOfShiftsStep0(src);
    OrOfShiftsStep1(src);
    OrOfShiftsStep2(src);
    OrOfShiftsStep3(src);
    OrOfShiftsStep4(src);
    OrOfShiftsStep5(src);
    OrOfShiftsStep6(src);
    OrOfShiftsStep7(src);
    OrOfShiftsStep8(src);
    OrOfShiftsStep9(src);
    OrOfShiftsStep10(src);
    OrOfShiftsFinish(src);
  }

  lemma OrOfShiftsTree()
    ensures Emit(Binary(RPN_MUL, TVar, Binary(RPN_OR, Binary(RPN_SHR, TVar, Const(8)), Binary(RPN_SHR, TVar, Const(9))))) == [Instr(RPN_PUSH_T, 0), Instr(RPN_PUSH_T, 0), Instr(RPN_PUSH_NUM, 8), Instr(RPN_SHR, 0), Instr(RPN_PUSH_T, 0), Instr(RPN_PUSH_NUM, 9), Instr(RPN_SHR, 0), Instr(RPN_OR, 0), Instr(RPN_MUL, 0)]
  {
  }

  /** `t*(t>>8|t>>9)` compiles to the postfix code of the C expression tree, which the VM computes for every t. */
  lemma OrOfShifts(ws: WideShifts)
    ensures Compile("t*(t>>8|t>>9)") == Ok(Emit(Binary(RPN_MUL, TVar, Binary(RPN_OR, Binary(RPN_SHR, TVar, Const(8)), Binary(RPN_SHR, TVar, Const(9))))))
    ensures forall t :: Evaluate(Emit(Binary(RPN_MUL, TVar, Binary(RPN_OR, Binary(RPN_SHR, TVar, Const(8)), Binary(RPN_SHR, TVar, Const(9))))), t, ws) == Denote(Binary(RPN_MUL, TVar, Binary(RPN_OR, Binary(RPN_SHR, TVar, Const(8)), Binary(RPN_SHR, TVar, Const(9)))), t, ws)
  {
    OrOfShiftsCompiles("t*(t>>8|t>>9)");
    OrOfShiftsTree();
    forall t
      ensures Evaluate(Emit(Binary(RPN_MUL, TVar, Binary(RPN_OR, Binary(RPN_SHR, TVar, Const(8)), Binary(RPN_SHR, TVar, Const(9))))), t, ws) == Denote(Binary(RPN_MUL, TVar, Binary(RPN_OR, Binary(RPN_SHR, TVar, Const(8)), Binary(RPN_SHR, TVar, Const(9)))), t, ws)
    {
      EmitEvaluates(Binary(RPN_MUL, TVar, Binary(RPN_OR, Binary(RPN_SHR, TVar, Const(8)), Binary(RPN_SHR, TVar, Const(9)))), t, ws);
    }
  }

  lemma MultipleOrStep0(src: seq<char>)
    requires Spells(src, "t|(t>>9|t>>7)")
    ensures CompileFrom(src, Scan(0, [], [], 0, true))
         == CompileFrom(src, Scan(1, [Instr(RPN_PUSH_T, 0)], [], 0, false))
  {
    assert [] + [Instr(RPN_PUSH_T, 0)] == [Instr(RPN_PUSH_T, 0)];
    Advance(src, Scan(0, [], [], 0, true), Scan(1, [Instr(RPN_PUSH_T, 0)], [], 0, false));
  }

  lemma MultipleOrStep1(src: seq<char>)
    requires Spells(src, "t|(t>>9|t>>7)")
    ensures CompileFrom(src, Scan(1, [Instr(RPN_PUSH_T, 0)], [], 0, false))
         == CompileFrom(src, Scan(2, [Instr(RPN_PUSH_T, 0)], [Op(RPN_OR)], 0, true))
  {
    assert PopWhile([Instr(RPN_PUSH_T, 0)], [], 0, false) == Ok(([Instr(RPN_PUSH_T, 0)], []));
    assert [] + [Op(RPN_OR)] == [Op(RPN_OR)];
    Advance(src, Scan(1, [Instr(RPN_PUSH_T, 0)], [], 0, false), Scan(2, [Instr(RPN_PUSH_T, 0)], [Op(RPN_OR)], 0, true));
  }

  lemma MultipleOrStep2(src: seq<char>)
    requires Spells(src, "t|(t>>9|t>>7)")
    ensures CompileFrom(src, Scan(2, [Instr(RPN_PUSH_T, 0)], [Op(RPN_OR)], 0, true))
         == CompileFrom(src, Scan(3, [Instr(RPN_PUSH_T, 0)], [Op(RPN_OR), OpenParen], 1, true))
  {
    assert [Op(RPN_OR)] + [OpenParen] == [Op(RPN_OR), OpenParen];
    Advance(src, Scan(2, [Instr(RPN_PUSH_T, 0)], [Op(RPN_OR)], 0, true), Scan(3, [Instr(RPN_PUSH_T, 0)], [Op(RPN_OR), OpenParen], 1, true));
  }

  lemma MultipleOrStep3(src: seq<char>)
    requires Spells(src, "t|(t>>9|t>>7)")
    ensures CompileFrom(src, Scan(3, [Instr(RPN_PUSH_T, 0)], [Op(RPN_OR), OpenParen], 1, true))
         == CompileFrom(src, Scan(4, [Instr(RPN_PUSH_T, 0), Instr(RPN_PUSH_T, 0)], [Op(RPN_OR), OpenParen], 1, false))
  {
    assert [Instr(RPN_PUSH_T, 0)] + [Instr(RPN_PUSH_T, 0)] == [Instr(RPN_PUSH_T, 0), Instr(RPN_PUSH_T, 0)];
    Advance(src, Scan(3, [Instr(RPN_PUSH_T, 0)], [Op(RPN_OR), OpenParen], 1, true), Scan(4, [Instr(RPN_PUSH_T, 0), Instr(RPN_PUSH_T, 0)], [Op(RPN_OR), OpenParen], 1, false));
  }

  lemma MultipleOrStep4(src: seq<char>)
    requires Spells(src, "t|(t>>9|t>>7)")
    ensures CompileFrom(src, Scan(4, [Instr(RPN_PUSH_T, 0), Instr(RPN_PUSH_T, 0)], [Op(RPN_OR), OpenParen], 1, false))
         == CompileFrom(src, Scan(6, [Instr(RPN_PUSH_T, 0), Instr(RPN_PUSH_T, 0)], [Op(RPN_OR), OpenParen, Op(RPN_SHR)], 1, true))
  {
    assert PopWhile([Instr(RPN_PUSH_T, 0), Instr(RPN_PUSH_T, 0)], [Op(RPN_OR), OpenParen], 4, false) == Ok(([Instr(RPN_PUSH_T, 0), Instr(RPN_PUSH_T, 0)], [Op(RPN_OR), OpenParen]));
    assert [Op(RPN_OR), OpenParen] + [Op(RPN_SHR)] == [Op(RPN_OR), OpenParen, Op(RPN_SHR)];
    Advance(src, Scan(4, [Instr(RPN_PUSH_T, 0), Instr(RPN_PUSH_T, 0)], [Op(RPN_OR), OpenParen], 1, false), Scan(6, [Instr(RPN_PUSH_T, 0), Instr(RPN_PUSH_T, 0)], [Op(RPN_OR), OpenParen, Op(RPN_SHR)], 1, true));
  }

  lemma MultipleOrStep5(src: seq<char>)
    requires Spells(src, "t|(t>>9|t>>7)")
    ensures CompileFrom(src, Scan(6, [Instr(RPN_PUSH_T, 0), Instr(RPN_PUSH_T, 0)], [Op(RPN_OR), OpenParen, Op(RPN_SHR)], 1, true))
         == CompileFrom(src, Scan(7, [Instr(RPN_PUSH_T, 0), Instr(RPN_PUSH_T, 0), Instr(RPN_PUSH_NUM, 9)], [Op(RPN_OR), OpenParen, Op(RPN_SHR)], 1, false))
  {
    assert DecDigits(src, 7, 9) == (7, 9);
    assert DecDigits(src, 6, 0) == (7, 9);
    assert NumberAt(src, 6) == Ok((7, 9));
    assert [Instr(RPN_PUSH_T, 0), Instr(RPN_PUSH_T, 0)] + [Instr(RPN_PUSH_NUM, 9)] == [Instr(RPN_PUSH_T, 0), Instr(RPN_PUSH_T, 0), Instr(RPN_PUSH_NUM, 9)];
    Advance(src, Scan(6, [Instr(RPN_PUSH_T, 0), Instr(RPN_PUSH_T, 0)], [Op(RPN_OR), OpenParen, Op(RPN_SHR)], 1, true), Scan(7, [Instr(RPN_PUSH_T, 0), Instr(RPN_PUSH_T, 0), Instr(RPN_PUSH_NUM, 9)], [Op(RPN_OR), OpenParen, Op(RPN_SHR)], 1, false));
  }

  lemma MultipleOrStep6(src: seq<char>)
    requires Spells(src, "t|(t>>9|t>>7)")
    ensures CompileFrom(src, Scan(7, [Instr(RPN_PUSH_T, 0), Instr(RPN_PUSH_T, 0), Instr(RPN_PUSH_NUM, 9)], [Op(RPN_OR), OpenParen, Op(RPN_SHR)], 1, false))
         == CompileFrom(src, Scan(8, [Instr(RPN_PUSH_T, 0), Instr(RPN_PUSH_T, 0), Instr(RPN_PUSH_NUM, 9), Instr(RPN_SHR, 0)], [Op(RPN_OR), OpenParen, Op(RPN_OR)], 1, true))
  {
    assert [Op(RPN_OR), OpenParen, Op(RPN_SHR)][..2] == [Op(RPN_OR), OpenParen];
    assert [Instr(RPN_PUSH_T, 0), Instr(RPN_PUSH_T, 0), Instr(RPN_PUSH_NUM, 9)] + [Instr(RPN_SHR, 0)] == [Instr(RPN_PUSH_T, 0), Instr(RPN_PUSH_T, 0), Instr(RPN_PUSH_NUM, 9), Instr(RPN_SHR, 0)];
    assert EmitTop([Instr(RPN_PUSH_T, 0), Instr(RPN_PUSH_T, 0), Instr(RPN_PUSH_NUM, 9)], [Op(RPN_OR), OpenParen, Op(RPN_SHR)]) == Ok([Instr(RPN_PUSH_T, 0), Instr(RPN_PUSH_T, 0), Instr(RPN_PUSH_NUM, 9), Instr(RPN_SHR, 0)]);
    assert PopWhile([Instr(RPN_PUSH_T, 0), Instr(RPN_PUSH_T, 0), Instr(RPN_PUSH_NUM, 9), Instr(RPN_SHR, 0)], [Op(RPN_OR), OpenParen], 0, false) == Ok(([Instr(RPN_PUSH_T, 0), Instr(RPN_PUSH_T, 0), Instr(RPN_PUSH_NUM, 9), Instr(RPN_SHR, 0)], [Op(RPN_OR), OpenParen]));
    assert PopWhile([Instr(RPN_PUSH_T, 0), Instr(RPN_PUSH_T, 0), Instr(RPN_PUSH_NUM, 9)], [Op(RPN_OR), OpenParen, Op(RPN_SHR)], 0, false) == Ok(([Instr(RPN_PUSH_T, 0), Instr(RPN_PUSH_T, 0), Instr(RPN_PUSH_NUM, 9), Instr(RPN_SHR, 0)], [Op(RPN_OR), OpenParen]));
    assert [Op(RPN_OR), OpenParen, Op(RPN_SHR)][..2] == [Op(RPN_OR), OpenParen];
    assert [Op(RPN_OR), OpenParen] + [Op(RPN_OR)] == [Op(RPN_OR), OpenParen, Op(RPN_OR)];
    assert [Instr(RPN_PUSH_T, 0), Instr(RPN_PUSH_T, 0), Instr(RPN_PUSH_NUM, 9)] + [Instr(RPN_SHR, 0)] == [Instr(RPN_PUSH_T, 0), Instr(RPN_PUSH_T, 0), Instr(RPN_PUSH_NUM, 9), Instr(RPN_SHR, 0)];
    Advance(src, Scan(7, [Instr(RPN_PUSH_T, 0), Instr(RPN_PUSH_T, 0), Instr(RPN_PUSH_NUM, 9)], [Op(RPN_OR), OpenParen, Op(RPN_SHR)], 1, false), Scan(8, [Instr(RPN_PUSH_T, 0), Instr(RPN_PUSH_T, 0), Instr(RPN_PUSH_NUM, 9), Instr(RPN_SHR, 0)], [Op(RPN_OR), OpenParen, Op(RPN_OR)], 1, true));
  }

  lemma MultipleOrStep7(src: seq<char>)
    requires Spells(src, "t|(t>>9|t>>7)")
    ensures CompileFrom(src, Scan(8, [Instr(RPN_PUSH_T, 0), Instr(RPN_PUSH_T, 0), Instr(RPN_PUSH_NUM, 9), Instr(RPN_SHR, 0)], [Op(RPN_OR), OpenParen, Op(RPN_OR)], 1, true))
         == CompileFrom(src, Scan(9, [Instr(RPN_PUSH_T, 0), Instr(RPN_PUSH_T, 0), Instr(RPN_PUSH_NUM, 9), Instr(RPN_SHR, 0), Instr(RPN_PUSH_T, 0)], [Op(RPN_OR), OpenParen, Op(RPN_OR)], 1, false))
  {
    assert [Instr(RPN_PUSH_T, 0), Instr(RPN_PUSH_T, 0), Instr(RPN_PUSH_NUM, 9), Instr(RPN_SHR, 0)] + [Instr(RPN_PUSH_T, 0)] == [Instr(RPN_PUSH_T, 0), Instr(RPN_PUSH_T, 0), Instr(RPN_PUSH_NUM, 9), Instr(RPN_SHR, 0), Instr(RPN_PUSH_T, 0)];
    Advance(src, Scan(8, [Instr(RPN_PUSH_T, 0), Instr(RPN_PUSH_T, 0), Instr(RPN_PUSH_NUM, 9), Instr(RPN_SHR, 0)], [Op(RPN_OR), OpenParen, Op(RPN_OR)], 1, true), Scan(9, [Instr(RPN_PUSH_T, 0), Instr(RPN_PUSH_T, 0), Instr(RPN_PUSH_NUM, 9), Instr(RPN_SHR, 0), Instr(RPN_PUSH_T, 0)], [Op(RPN_OR), OpenParen, Op(RPN_OR)], 1, false));
  }

  lemma MultipleOrStep8(src: seq<char>)
    requires Spells(src, "t|(t>>9|t>>7)")
    ensures CompileFrom(src, Scan(9, [Instr(RPN_PUSH_T, 0), Instr(RPN_PUSH_T, 0), Instr(RPN_PUSH_NUM, 9), Instr(RPN_SHR, 0), Instr(RPN_PUSH_T, 0)], [Op(RPN_OR), OpenParen, Op(RPN_OR)], 1, false))
         == CompileFrom(src, Scan(11, [Instr(RPN_PUSH_T, 0), Instr(RPN_PUSH_T, 0), Instr(RPN_PUSH_NUM, 9), Instr(RPN_SHR, 0), Instr(RPN_PUSH_T, 0)], [Op(RPN_OR), OpenParen, Op(RPN_OR), Op(RPN_SHR)], 1, true))
  {
    assert PopWhile([Instr(RPN_PUSH_T, 0), Instr(RPN_PUSH_T, 0), Instr(RPN_PUSH_NUM, 9), Instr(RPN_SHR, 0), Instr(RPN_PUSH_T, 0)], [Op(RPN_OR), OpenParen, Op(RPN_OR)], 4, false) == Ok(([Instr(RPN_PUSH_T, 0), Instr(RPN_PUSH_T, 0), Instr(RPN_PUSH_NUM, 9), Instr(RPN_SHR, 0), Instr(RPN_PUSH_T, 0)], [Op(RPN_OR), OpenParen, Op(RPN_OR)]));
    assert [Op(RPN_OR), OpenParen, Op(RPN_OR)] + [Op(RPN_SHR)] == [Op(RPN_OR), OpenParen, Op(RPN_OR), Op(RPN_SHR)];
    Advance(src, Scan(9, [Instr(RPN_PUSH_T, 0), Instr(RPN_PUSH_T, 0), Instr(RPN_PUSH_NUM, 9), Instr(RPN_SHR, 0), Instr(RPN_PUSH_T, 0)], [Op(RPN_OR), OpenParen, Op(RPN_OR)], 1, false), Scan(11, [Instr(RPN_PUSH_T, 0), Instr(RPN_PUSH_T, 0), Instr(RPN_PUSH_NUM, 9), Instr(RPN_SHR, 0), Instr(RPN_PUSH_T, 0)], [Op(RPN_OR), OpenParen, Op(RPN_OR), Op(RPN_SHR)], 1, true));
  }

  lemma MultipleOrStep9(src: seq<char>)
    requires Spells(src, "t|(t>>9|t>>7)")
    ensures CompileFrom(src, Scan(11, [Instr(RPN_PUSH_T, 0), Instr(RPN_PUSH_T, 0), Instr(RPN_PUSH_NUM, 9), Instr(RPN_SHR, 0), Instr(RPN_PUSH_T, 0)], [Op(RPN_OR), OpenParen, Op(RPN_OR), Op(RPN_SHR)], 1, true))
         == CompileFrom(src, Scan(12, [Instr(RPN_PUSH_T, 0), Instr(RPN_PUSH_T, 0), Instr(RPN_PUSH_NUM, 9), Instr(RPN_SHR, 0), Instr(RPN_PUSH_T, 0), Instr(RPN_PUSH_NUM, 7)], [Op(RPN_OR), OpenParen, Op(RPN_OR), Op(RPN_SHR)], 1, false))
  {
    assert DecDigits(src, 12, 7) == (12, 7);
    assert DecDigits(src, 11, 0) == (12, 7);
    assert NumberAt(src, 11) == Ok((12, 7));
    assert [Instr(RPN_PUSH_T, 0), Instr(RPN_PUSH_T, 0), Instr(RPN_PUSH_NUM, 9), Instr(RPN_SHR, 0), Instr(RPN_PUSH_T, 0)] + [Instr(RPN_PUSH_NUM, 7)] == [Instr(RPN_PUSH_T, 0), Instr(RPN_PUSH_T, 0), Instr(RPN_PUSH_NUM, 9), Instr(RPN_SHR, 0), Instr(RPN_PUSH_T, 0), Instr(RPN_PUSH_NUM, 7)];
    Advance(src, Scan(11, [Instr(RPN_PUSH_T, 0), Instr(RPN_PUSH_T, 0), Instr(RPN_PUSH_NUM, 9), Instr(RPN_SHR, 0), Instr(RPN_PUSH_T, 0)], [Op(RPN_OR), OpenParen, Op(RPN_OR), Op(RPN_SHR)], 1, true), Scan(12, [Instr(RPN_PUSH_T, 0), Instr(RPN_PUSH_T, 0), Instr(RPN_PUSH_NUM, 9), Instr(RPN_SHR, 0), Instr(RPN_PUSH_T, 0), Instr(RPN_PUSH_NUM, 7)], [Op(RPN_OR), OpenParen, Op(RPN_OR), Op(RPN_SHR)], 1, false));
  }

  lemma MultipleOrStep10(src: seq<char>)
    requires Spells(src, "t|(t>>9|t>>7)")
    ensures CompileFrom(src, Scan(12, [Instr(RPN_PUSH_T, 0), Instr(RPN_PUSH_T, 0), Instr(RPN_PUSH_NUM, 9), Instr(RPN_SHR, 0), Instr(RPN_PUSH_T, 0), Instr(RPN_PUSH_NUM, 7)], [Op(RPN_OR), OpenParen, Op(RPN_OR), Op(RPN_SHR)], 1, false))
         == CompileFrom(src, Scan(13, [Instr(RPN_PUSH_T, 0), Instr(RPN_PUSH_T, 0), Instr(RPN_PUSH_NUM, 9), Instr(RPN_SHR, 0), Instr(RPN_PUSH_T, 0), Instr(RPN_PUSH_NUM, 7), Instr(RPN_SHR, 0), Instr(RPN_OR, 0)], [Op(RPN_OR)], 0, false))
  {
    assert [Op(RPN_OR), OpenParen, Op(RPN_OR), Op(RPN_SHR)][..3] == [Op(RPN_OR), OpenParen, Op(RPN_OR)];
    assert [Instr(RPN_PUSH_T, 0), Instr(RPN_PUSH_T, 0), Instr(RPN_PUSH_NUM, 9), Instr(RPN_SHR, 0), Instr(RPN_PUSH_T, 0), Instr(RPN_PUSH_NUM, 7)] + [Instr(RPN_SHR, 0)] == [Instr(RPN_PUSH_T, 0), Instr(RPN_PUSH_T, 0), Instr(RPN_PUSH_NUM, 9), Instr(RPN_SHR, 0), Instr(RPN_PUSH_T, 0), Instr(RPN_PUSH_NUM, 7), Instr(RPN_SHR, 0)];
    assert EmitTop([Instr(RPN_PUSH_T, 0), Instr(RPN_PUSH_T, 0), Instr(RPN_PUSH_NUM, 9), Instr(RPN_SHR, 0), Instr(RPN_PUSH_T, 0), Instr(RPN_PUSH_NUM, 7)], [Op(RPN_OR), OpenParen, Op(RPN_OR), Op(RPN_SHR)]) == Ok([Instr(RPN_PUSH_T, 0), Instr(RPN_PUSH_T, 0), Instr(RPN_PUSH_NUM, 9), Instr(RPN_SHR, 0), Instr(RPN_PUSH_T, 0), Instr(RPN_PUSH_NUM, 7), Instr(RPN_SHR, 0)]);
    assert [Op(RPN_OR), OpenParen, Op(RPN_OR)][..2] == [Op(RPN_OR), OpenParen];
    assert [Instr(RPN_PUSH_T, 0), Instr(RPN_PUSH_T, 0), Instr(RPN_PUSH_NUM, 9), Instr(RPN_SHR, 0), Instr(RPN_PUSH_T, 0), Instr(RPN_PUSH_NUM, 7), Instr(RPN_SHR, 0)] + [Instr(RPN_OR, 0)] == [Instr(RPN_PUSH_T, 0), Instr(RPN_PUSH_T, 0), Instr(RPN_PUSH_NUM, 9), Instr(RPN_SHR, 0), Instr(RPN_PUSH_T, 0), Instr(RPN_PUSH_NUM, 7), Instr(RPN_SHR, 0), Instr(RPN_OR, 0)];
    assert EmitTop([Instr(RPN_PUSH_T, 0), Instr(RPN_PUSH_T, 0), Instr(RPN_PUSH_NUM, 9), Instr(RPN_SHR, 0), Instr(RPN_PUSH_T, 0), Instr(RPN_PUSH_NUM, 7), Instr(RPN_SHR, 0)], [Op(RPN_OR), OpenParen, Op(RPN_OR)]) == Ok([Instr(RPN_PUSH_T, 0), Instr(RPN_PUSH_T, 0), Instr(RPN_PUSH_NUM, 9), Instr(RPN_SHR, 0), Instr(RPN_PUSH_T, 0), Instr(RPN_PUSH_NUM, 7), Instr(RPN_SHR, 0), Instr(RPN_OR, 0)]);
    assert PopToParen([Instr(RPN_PUSH_T, 0), Instr(RPN_PUSH_T, 0), Instr(RPN_PUSH_NUM, 9), Instr(RPN_SHR, 0), Instr(RPN_PUSH_T, 0), Instr(RPN_PUSH_NUM, 7), Instr(RPN_SHR, 0), Instr(RPN_OR, 0)], [Op(RPN_OR), OpenParen]) == Ok(([Instr(RPN_PUSH_T, 0), Instr(RPN_PUSH_T, 0), Instr(RPN_PUSH_NUM, 9), Instr(RPN_SHR, 0), Instr(RPN_PUSH_T, 0), Instr(RPN_PUSH_NUM, 7), Instr(RPN_SHR, 0), Instr(RPN_OR, 0)], [Op(RPN_OR), OpenParen]));
    assert PopToParen([Instr(RPN_PUSH_T, 0), Instr(RPN_PUSH_T, 0), Instr(RPN_PUSH_NUM, 9), Instr(RPN_SHR, 0), Instr(RPN_PUSH_T, 0), Instr(RPN_PUSH_NUM, 7), Instr(RPN_SHR, 0)], [Op(RPN_OR), OpenParen, Op(RPN_OR)]) == Ok(([Instr(RPN_PUSH_T, 0), Instr(RPN_PUSH_T, 0), Instr(RPN_PUSH_NUM, 9), Instr(RPN_SHR, 0), Instr(RPN_PUSH_T, 0), Instr(RPN_PUSH_NUM, 7), Instr(RPN_SHR, 0), Instr(RPN_OR, 0)], [Op(RPN_OR), OpenParen]));
    assert PopToParen([Instr(RPN_PUSH_T, 0), Instr(RPN_PUSH_T, 0), Instr(RPN_PUSH_NUM, 9), Instr(RPN_SHR, 0), Instr(RPN_PUSH_T, 0), Instr(RPN_PUSH_NUM, 7)], [Op(RPN_OR), OpenParen, Op(RPN_OR), Op(RPN_SHR)]) == Ok(([Instr(RPN_PUSH_T, 0), Instr(RPN_PUSH_T, 0), Instr(RPN_PUSH_NUM, 9), Instr(RPN_SHR, 0), Instr(RPN_PUSH_T, 0), Instr(RPN_PUSH_NUM, 7), Instr(RPN_SHR, 0), Instr(RPN_OR, 0)], [Op(RPN_OR), OpenParen]));
    assert [Op(RPN_OR), OpenParen, Op(RPN_OR), Op(RPN_SHR)][..3] == [Op(RPN_OR), OpenParen, Op(RPN_OR)];
    assert [Op(RPN_OR), OpenParen, Op(RPN_OR)][..2] == [Op(RPN_OR), OpenParen];
    assert [Op(RPN_OR), OpenParen][..1] == [Op(RPN_OR)];
    assert [Instr(RPN_PUSH_T, 0), Instr(RPN_PUSH_T, 0), Instr(RPN_PUSH_NUM, 9), Instr(RPN_SHR, 0), Instr(RPN_PUSH_T, 0), Instr(RPN_PUSH_NUM, 7)] + [Instr(RPN_SHR, 0)] == [Instr(RPN_PUSH_T, 0), Instr(RPN_PUSH_T, 0), Instr(RPN_PUSH_NUM, 9), Instr(RPN_SHR, 0), Instr(RPN_PUSH_T, 0), Instr(RPN_PUSH_NUM, 7), Instr(RPN_SHR, 0)];
    assert [Instr(RPN_PUSH_T, 0), Instr(RPN_PUSH_T, 0), Instr(RPN_PUSH_NUM, 9), Instr(RPN_SHR, 0), Instr(RPN_PUSH_T, 0), Instr(RPN_PUSH_NUM, 7), Instr(RPN_SHR, 0)] + [Instr(RPN_OR, 0)] == [Instr(RPN_PUSH_T, 0), Instr(RPN_PUSH_T, 0), Instr(RPN_PUSH_NUM, 9), Instr(RPN_SHR, 0), Instr(RPN_PUSH_T, 0), Instr(RPN_PUSH_NUM, 7), Instr(RPN_SHR, 0), Instr(RPN_OR, 0)];
    Advance(src, Scan(12, [Instr(RPN_PUSH_T, 0), Instr(RPN_PUSH_T, 0), Instr(RPN_PUSH_NUM, 9), Instr(RPN_SHR, 0), Instr(RPN_PUSH_T, 0), Instr(RPN_PUSH_NUM, 7)], [Op(RPN_OR), OpenParen, Op(RPN_OR), Op(RPN_SHR)], 1, false), Scan(13, [Instr(RPN_PUSH_T, 0), Instr(RPN_PUSH_T, 0), Instr(RPN_PUSH_NUM, 9), Instr(RPN_SHR, 0), Instr(RPN_PUSH_T, 0), Instr(RPN_PUSH_NUM, 7), Instr(RPN_SHR, 0), Instr(RPN_OR, 0)], [Op(RPN_OR)], 0, false));
  }

  lemma MultipleOrFinish(src: seq<char>)
    requires Spells(src, "t|(t>>9|t>>7)")
    ensures CompileFrom(src, Scan(13, [Instr(RPN_PUSH_T, 0), Instr(RPN_PUSH_T, 0), Instr(RPN_PUSH_NUM, 9), Instr(RPN_SHR, 0), Instr(RPN_PUSH_T, 0), Instr(RPN_PUSH_NUM, 7), Instr(RPN_SHR, 0), Instr(RPN_OR, 0)], [Op(RPN_OR)], 0, false)) == Ok([Instr(RPN_PUSH_T, 0), Instr(RPN_PUSH_T, 0), Instr(RPN_PUSH_NUM, 9), Instr(RPN_SHR, 0), Instr(RPN_PUSH_T, 0), Instr(RPN_PUSH_NUM, 7), Instr(RPN_SHR, 0), Instr(RPN_OR, 0), Instr(RPN_OR, 0)])
  {
    Stop(src, Scan(13, [Instr(RPN_PUSH_T, 0), Instr(RPN_PUSH_T, 0), Instr(RPN_PUSH_NUM, 9), Instr(RPN_SHR, 0), Instr(RPN_PUSH_T, 0), Instr(RPN_PUSH_NUM, 7), Instr(RPN_SHR, 0), Instr(RPN_OR, 0)], [Op(RPN_OR)], 0, false));
    assert [Op(RPN_OR)][..0] == [];
    assert [Instr(RPN_PUSH_T, 0), Instr(RPN_PUSH_T, 0), Instr(RPN_PUSH_NUM, 9), Instr(RPN_SHR, 0), Instr(RPN_PUSH_T, 0), Instr(RPN_PUSH_NUM, 7), Instr(RPN_SHR, 0), Instr(RPN_OR, 0)] + [Instr(RPN_OR, 0)] == [Instr(RPN_PUSH_T, 0), Instr(RPN_PUSH_T, 0), Instr(RPN_PUSH_NUM, 9), Instr(RPN_SHR, 0), Instr(RPN_PUSH_T, 0), Instr(RPN_PUSH_NUM, 7), Instr(RPN_SHR, 0), Instr(RPN_OR, 0), Instr(RPN_OR, 0)];
    assert EmitTop([Instr(RPN_PUSH_T, 0), Instr(RPN_PUSH_T, 0), Instr(RPN_PUSH_NUM, 9), Instr(RPN_SHR, 0), Instr(RPN_PUSH_T, 0), Instr(RPN_PUSH_NUM, 7), Instr(RPN_SHR, 0), Instr(RPN_OR, 0)], [Op(RPN_OR)]) == Ok([Instr(RPN_PUSH_T, 0), Instr(RPN_PUSH_T, 0), Instr(RPN_PUSH_NUM, 9), Instr(RPN_SHR, 0), Instr(RPN_PUSH_T, 0), Instr(RPN_PUSH_NUM, 7), Instr(RPN_SHR, 0), Instr(RPN_OR, 0), Instr(RPN_OR, 0)]);
    assert PopAll([Instr(RPN_PUSH_T, 0), Instr(RPN_PUSH_T, 0), Instr(RPN_PUSH_NUM, 9), Instr(RPN_SHR, 0), Instr(RPN_PUSH_T, 0), Instr(RPN_PUSH_NUM, 7), Instr(RPN_SHR, 0), Instr(RPN_OR, 0), Instr(RPN_OR, 0)], []) == Ok([Instr(RPN_PUSH_T, 0), Instr(RPN_PUSH_T, 0), Instr(RPN_PUSH_NUM, 9), Instr(RPN_SHR, 0), Instr(RPN_PUSH_T, 0), Instr(RPN_PUSH_NUM, 7), Instr(RPN_SHR, 0), Instr(RPN_OR, 0), Instr(RPN_OR, 0)]);
    assert PopAll([Instr(RPN_PUSH_T, 0), Instr(RPN_PUSH_T, 0), Instr(RPN_PUSH_NUM, 9), Instr(RPN_SHR, 0), Instr(RPN_PUSH_T, 0), Instr(RPN_PUSH_NUM, 7), Instr(RPN_SHR, 0), Instr(RPN_OR, 0)], [Op(RPN_OR)]) == Ok([Instr(RPN_PUSH_T, 0), Instr(RPN_PUSH_T, 0), Instr(RPN_PUSH_NUM, 9), Instr(RPN_SHR, 0), Instr(RPN_PUSH_T, 0), Instr(RPN_PUSH_NUM, 7), Instr(RPN_SHR, 0), Instr(RPN_OR, 0), Instr(RPN_OR, 0)]);
  }

  lemma MultipleOrCompiles(src: seq<char>)
    requires Spells(src, "t|(t>>9|t>>7)")
    ensures Compile(src) == Ok([Instr(RPN_PUSH_T, 0), Instr(RPN_PUSH_T, 0), Instr(RPN_PUSH_NUM, 9), Instr(RPN_SHR, 0), Instr(RPN_PUSH_T, 0), Instr(RPN_PUSH_NUM, 7), Instr(RPN_SHR, 0), Instr(RPN_OR, 0), Instr(RPN_OR, 0)])
  {
    MultipleOrStep0(src);
    MultipleOrStep1(src);
    MultipleOrStep2(src);
    MultipleOrStep3(src);
    MultipleOrStep4(src);
    MultipleOrStep5(src);
    MultipleOrStep6(src);
    MultipleOrStep7(src);
    MultipleOrStep8(src);
    MultipleOrStep9(src);
    MultipleOrStep10(src);
    MultipleOrFinish(src);
  }

  lemma MultipleOrTree()
    ensures Emit(Binary(RPN_OR, TVar, Binary(RPN_OR, Binary(RPN_SHR, TVar, Const(9)), Binary(RPN_SHR, TVar, Const(7))))) == [Instr(RPN_PUSH_T, 0), Instr(RPN_PUSH_T, 0), Instr(RPN_PUSH_NUM, 9), Instr(RPN_SHR, 0), Instr(RPN_PUSH_T, 0), Instr(RPN_PUSH_NUM, 7), Instr(RPN_SHR, 0), Instr(RPN_OR, 0), Instr(RPN_OR, 0)]
  {
  }

  /** `t|(t>>9|t>>7)` compiles to the postfix code of the C expression tree, which the VM computes for every t. */
  lemma MultipleOr(ws: WideShifts)
    ensures Compile("t|(t>>9|t>>7)") == Ok(Emit(Binary(RPN_OR, TVar, Binary(RPN_OR, Binary(RPN_SHR, TVar, Const(9)), Binary(RPN_SHR, TVar, Const(7))))))
    ensures forall t :: Evaluate(Emit(Binary(RPN_OR, TVar, Binary(RPN_OR, Binary(RPN_SHR, TVar, Const(9)), Binary(RPN_SHR, TVar, Const(7))))), t, ws) == Denote(Binary(RPN_OR, TVar, Binary(RPN_OR, Binary(RPN_SHR, TVar, Const(9)), Binary(RPN_SHR, TVar, Const(7)))), t, ws)
  {
    MultipleOrCompiles("t|(t>>9|t>>7)");
    MultipleOrTree();
    forall t
      ensures Evaluate(Emit(Binary(RPN_OR, TVar, Binary(RPN_OR, Binary(RPN_SHR, TVar, Const(9)), Binary(RPN_SHR, TVar, Const(7))))), t, ws) == Denote(Binary(RPN_OR, TVar, Binary(RPN_OR, Binary(RPN_SHR, TVar, Const(9)), Binary(RPN_SHR, TVar, Const(7)))), t, ws)
    {
      EmitEvaluates(Binary(RPN_OR, TVar, Binary(RPN_OR, Binary(RPN_SHR, TVar, Const(9)), Binary(RPN_SHR, TVar, Const(7)))), t, ws);
    }
  }

  lemma MaskOperationsStep0(src: seq<char>)
    requires Spells(src, "t*5&t>>7|t*3&t>>10")
    ensures CompileFrom(src, Scan(0, [], [], 0, true))
         == CompileFrom(src, Scan(1, [Instr(RPN_PUSH_T, 0)], [], 0, false))
  {
    assert [] + [Instr(RPN_PUSH_T, 0)] == [Instr(RPN_PUSH_T, 0)];
    Advance(src, Scan(0, [], [], 0, true), Scan(1, [Instr(RPN_PUSH_T, 0)], [], 0, false));
  }

  lemma MaskOperationsStep1(src: seq<char>)
    requires Spells(src, "t*5&t>>7|t*3&t>>10")
    ensures CompileFrom(src, Scan(1, [Instr(RPN_PUSH_T, 0)], [], 0, false))
         == CompileFrom(src, Scan(2, [Instr(RPN_PUSH_T, 0)], [Op(RPN_MUL)], 0, true))
  {
    assert PopWhile([Instr(RPN_PUSH_T, 0)], [], 6, false) == Ok(([Instr(RPN_PUSH_T, 0)], []));
    assert [] + [Op(RPN_MUL)] == [Op(RPN_MUL)];
    Advance(src, Scan(1, [Instr(RPN_PUSH_T, 0)], [], 0, false), Scan(2, [Instr(RPN_PUSH_T, 0)], [Op(RPN_MUL)], 0, true));
  }

  lemma MaskOperationsStep2(src: seq<char>)
    requires Spells(src, "t*5&t>>7|t*3&t>>10")
    ensures CompileFrom(src, Scan(2, [Instr(RPN_PUSH_T, 0)], [Op(RPN_MUL)], 0, true))
         == CompileFrom(src, Scan(3, [Instr(RPN_PUSH_T, 0), Instr(RPN_PUSH_NUM, 5)], [Op(RPN_MUL)], 0, false))
  {
    assert DecDigits(src, 3, 5) == (3, 5);
    assert DecDigits(src, 2, 0) == (3, 5);
    assert NumberAt(src, 2) == Ok((3, 5));
    assert [Instr(RPN_PUSH_T, 0)] + [Instr(RPN_PUSH_NUM, 5)] == [Instr(RPN_PUSH_T, 0), Instr(RPN_PUSH_NUM, 5)];
    Advance(src, Scan(2, [Instr(RPN_PUSH_T, 0)], [Op(RPN_MUL)], 0, true), Scan(3, [Instr(RPN_PUSH_T, 0), Instr(RPN_PUSH_NUM, 5)], [Op(RPN_MUL)], 0, false));
  }

  lemma MaskOperationsStep3(src: seq<char>)
    requires Spells(src, "t*5&t>>7|t*3&t>>10")
    ensures CompileFrom(src, Scan(3, [Instr(RPN_PUSH_T, 0), Instr(RPN_PUSH_NUM, 5)], [Op(RPN_MUL)], 0, false))
         == CompileFrom(src, Scan(4, [Instr(RPN_PUSH_T, 0), Instr(RPN_PUSH_NUM, 5), Instr(RPN_MUL, 0)], [Op(RPN_AND)], 0, true))
  {
    assert [Op(RPN_MUL)][..0] == [];
    assert [Instr(RPN_PUSH_T, 0), Instr(RPN_PUSH_NUM, 5)] + [Instr(RPN_MUL, 0)] == [Instr(RPN_PUSH_T, 0), Instr(RPN_PUSH_NUM, 5), Instr(RPN_MUL, 0)];
    assert EmitTop([Instr(RPN_PUSH_T, 0), Instr(RPN_PUSH_NUM, 5)], [Op(RPN_MUL)]) == Ok([Instr(RPN_PUSH_T, 0), Instr(RPN_PUSH_NUM, 5), Instr(RPN_MUL, 0)]);
    assert PopWhile([Instr(RPN_PUSH_T, 0), Instr(RPN_PUSH_NUM, 5), Instr(RPN_MUL, 0)], [], 1, false) == Ok(([Instr(RPN_PUSH_T, 0), Instr(RPN_PUSH_NUM, 5), Instr(RPN_MUL, 0)], []));
    assert PopWhile([Instr(RPN_PUSH_T, 0), Instr(RPN_PUSH_NUM, 5)], [Op(RPN_MUL)], 1, false) == Ok(([Instr(RPN_PUSH_T, 0), Instr(RPN_PUSH_NUM, 5), Instr(RPN_MUL, 0)], []));
    assert [Op(RPN_MUL)][..0] == [];
    assert [] + [Op(RPN_AND)] == [Op(RPN_AND)];
    assert [Instr(RPN_PUSH_T, 0), Instr(RPN_PUSH_NUM, 5)] + [Instr(RPN_MUL, 0)] == [Instr(RPN_PUSH_T, 0), Instr(RPN_PUSH_NUM, 5), Instr(RPN_MUL, 0)];
    Advance(src, Scan(3, [Instr(RPN_PUSH_T, 0), Instr(RPN_PUSH_NUM, 5)], [Op(RPN_MUL)], 0, false), Scan(4, [Instr(RPN_PUSH_T, 0), Instr(RPN_PUSH_NUM, 5), Instr(RPN_MUL, 0)], [Op(RPN_AND)], 0, true));
  }

  lemma MaskOperationsStep4(src: seq<char>)
    requires Spells(src, "t*5&t>>7|t*3&t>>10")
    ensures CompileFrom(src, Scan(4, [Instr(RPN_PUSH_T, 0), Instr(RPN_PUSH_NUM, 5), Instr(RPN_MUL, 0)], [Op(RPN_AND)], 0, true))
         == CompileFrom(src, Scan(5, [Instr(RPN_PUSH_T, 0), Instr(RPN_PUSH_NUM, 5), Instr(RPN_MUL, 0), Instr(RPN_PUSH_T, 0)], [Op(RPN_AND)], 0, false))
  {
    assert [Instr(RPN_PUSH_T, 0), Instr(RPN_PUSH_NUM, 5), Instr(RPN_MUL, 0)] + [Instr(RPN_PUSH_T, 0)] == [Instr(RPN_PUSH_T, 0), Instr(RPN_PUSH_NUM, 5), Instr(RPN_MUL, 0), Instr(RPN_PUSH_T, 0)];
    Advance(src, Scan(4, [Instr(RPN_PUSH_T, 0), Instr(RPN_PUSH_NUM, 5), Instr(RPN_MUL, 0)], [Op(RPN_AND)], 0, true), Scan(5, [Instr(RPN_PUSH_T, 0), Instr(RPN_PUSH_NUM, 5), Instr(RPN_MUL, 0), Instr(RPN_PUSH_T, 0)], [Op(RPN_AND)], 0, false));
  }

  lemma MaskOperationsStep5(src: seq<char>)
    requires Spells(src, "t*5&t>>7|t*3&t>>10")
    ensures CompileFrom(src, Scan(5, [Instr(RPN_PUSH_T, 0), Instr(RPN_PUSH_NUM, 5), Instr(RPN_MUL, 0), Instr(RPN_PUSH_T, 0)], [Op(RPN_AND)], 0, false))
         == CompileFrom(src, Scan(7, [Instr(RPN_PUSH_T, 0), Instr(RPN_PUSH_NUM, 5), Instr(RPN_MUL, 0), Instr(RPN_PUSH_T, 0)], [Op(RPN_AND), Op(RPN_SHR)], 0, true))
  {
    assert PopWhile([Instr(RPN_PUSH_T, 0), Instr(RPN_PUSH_NUM, 5), Instr(RPN_MUL, 0), Instr(RPN_PUSH_T, 0)], [Op(RPN_AND)], 4, false) == Ok(([Instr(RPN_PUSH_T, 0), Instr(RPN_PUSH_NUM, 5), Instr(RPN_MUL, 0), Instr(RPN_PUSH_T, 0)], [Op(RPN_AND)]));
    assert [Op(RPN_AND)] + [Op(RPN_SHR)] == [Op(RPN_AND), Op(RPN_SHR)];
    Advance(src, Scan(5, [Instr(RPN_PUSH_T, 0), Instr(RPN_PUSH_NUM, 5), Instr(RPN_MUL, 0), Instr(RPN_PUSH_T, 0)], [Op(RPN_AND)], 0, false), Scan(7, [Instr(RPN_PUSH_T, 0), Instr(RPN_PUSH_NUM, 5), Instr(RPN_MUL, 0), Instr(RPN_PUSH_T, 0)], [Op(RPN_AND), Op(RPN_SHR)], 0, true));
  }

  lemma MaskOperationsStep6(src: seq<char>)
    requires Spells(src, "t*5&t>>7|t*3&t>>10")
    ensures CompileFrom(src, Scan(7, [Instr(RPN_PUSH_T, 0), Instr(RPN_PUSH_NUM, 5), Instr(RPN_MUL, 0), Instr(RPN_PUSH_T, 0)], [Op(RPN_AND), Op(RPN_SHR)], 0, true))
         == CompileFrom(src, Scan(8, [Instr(RPN_PUSH_T, 0), Instr(RPN_PUSH_NUM, 5), Instr(RPN_MUL, 0), Instr(RPN_PUSH_T, 0), Instr(RPN_PUSH_NUM, 7)], [Op(RPN_AND), Op(RPN_SHR)], 0, false))
  {
    assert DecDigits(src, 8, 7) == (8, 7);
    assert DecDigits(src, 7, 0) == (8, 7);
    assert NumberAt(src, 7) == Ok((8, 7));
    assert [Instr(RPN_PUSH_T, 0), Instr(RPN_PUSH_NUM, 5), Instr(RPN_MUL, 0), Instr(RPN_PUSH_T, 0)] + [Instr(RPN_PUSH_NUM, 7)] == [Instr(RPN_PUSH_T, 0), Instr(RPN_PUSH_NUM, 5), Instr(RPN_MUL, 0), Instr(RPN_PUSH_T, 0), Instr(RPN_PUSH_NUM, 7)];
    Advance(src, Scan(7, [Instr(RPN_PUSH_T, 0), Instr(RPN_PUSH_NUM, 5), Instr(RPN_MUL, 0), Instr(RPN_PUSH_T, 0)], [Op(RPN_AND), Op(RPN_SHR)], 0, true), Scan(8, [Instr(RPN_PUSH_T, 0), Instr(RPN_PUSH_NUM, 5), Instr(RPN_MUL, 0), Instr(RPN_PUSH_T, 0), Instr(RPN_PUSH_NUM, 7)], [Op(RPN_AND), Op(RPN_SHR)], 0, false));
  }

  lemma MaskOperationsStep7(src: seq<char>)
    requires Spells(src, "t*5&t>>7|t*3&t>>10")
    ensures CompileFrom(src, Scan(8, [Instr(RPN_PUSH_T, 0), Instr(RPN_PUSH_NUM, 5), Instr(RPN_MUL, 0), Instr(RPN_PUSH_T, 0), Instr(RPN_PUSH_NUM, 7)], [Op(RPN_AND), Op(RPN_SHR)], 0, false))
         == CompileFrom(src, Scan(9, [Instr(RPN_PUSH_T, 0), Instr(RPN_PUSH_NUM, 5), Instr(RPN_MUL, 0), Instr(RPN_PUSH_T, 0), Instr(RPN_PUSH_NUM, 7), Instr(RPN_SHR, 0), Instr(RPN_AND, 0)], [Op(RPN_OR)], 0, true))
  {
    assert [Op(RPN_AND), Op(RPN_SHR)][..1] == [Op(RPN_AND)];
    assert [Instr(RPN_PUSH_T, 0), Instr(RPN_PUSH_NUM, 5), Instr(RPN_MUL, 0), Instr(RPN_PUSH_T, 0), Instr(RPN_PUSH_NUM, 7)] + [Instr(RPN_SHR, 0)] == [Instr(RPN_PUSH_T, 0), Instr(RPN_PUSH_NUM, 5), Instr(RPN_MUL, 0), Instr(RPN_PUSH_T, 0), Instr(RPN_PUSH_NUM, 7), Instr(RPN_SHR, 0)];
    assert EmitTop([Instr(RPN_PUSH_T, 0), Instr(RPN_PUSH_NUM, 5), Instr(RPN_MUL, 0), Instr(RPN_PUSH_T, 0), Instr(RPN_PUSH_NUM, 7)], [Op(RPN_AND), Op(RPN_SHR)]) == Ok([Instr(RPN_PUSH_T, 0), Instr(RPN_PUSH_NUM, 5), Instr(RPN_MUL, 0), Instr(RPN_PUSH_T, 0), Instr(RPN_PUSH_NUM, 7), Instr(RPN_SHR, 0)]);
    assert [Op(RPN_AND)][..0] == [];
    assert [Instr(RPN_PUSH_T, 0), Instr(RPN_PUSH_NUM, 5), Instr(RPN_MUL, 0), Instr(RPN_PUSH_T, 0), Instr(RPN_PUSH_NUM, 7), Instr(RPN_SHR, 0)] + [Instr(RPN_AND, 0)] == [Instr(RPN_PUSH_T, 0), Instr(RPN_PUSH_NUM, 5), Instr(RPN_MUL, 0), Instr(RPN_PUSH_T, 0), Instr(RPN_PUSH_NUM, 7), Instr(RPN_SHR, 0), Instr(RPN_AND, 0)];
    assert EmitTop([Instr(RPN_PUSH_T, 0), Instr(RPN_PUSH_NUM, 5), Instr(RPN_MUL, 0), Instr(RPN_PUSH_T, 0), Instr(RPN_PUSH_NUM, 7), Instr(RPN_SHR, 0)], [Op(RPN_AND)]) == Ok([Instr(RPN_PUSH_T, 0), Instr(RPN_PUSH_NUM, 5), Instr(RPN_MUL, 0), Instr(RPN_PUSH_T, 0), Instr(RPN_PUSH_NUM, 7), Instr(RPN_SHR, 0), Instr(RPN_AND, 0)]);
    assert PopWhile([Instr(RPN_PUSH_T, 0), Instr(RPN_PUSH_NUM, 5), Instr(RPN_MUL, 0), Instr(RPN_PUSH_T, 0), Instr(RPN_PUSH_NUM, 7), Instr(RPN_SHR, 0), Instr(RPN_AND, 0)], [], 0, false) == Ok(([Instr(RPN_PUSH_T, 0), Instr(RPN_PUSH_NUM, 5), Instr(RPN_MUL, 0), Instr(RPN_PUSH_T, 0), Instr(RPN_PUSH_NUM, 7), Instr(RPN_SHR, 0), Instr(RPN_AND, 0)], []));
    assert PopWhile([Instr(RPN_PUSH_T, 0), Instr(RPN_PUSH_NUM, 5), Instr(RPN_MUL, 0), Instr(RPN_PUSH_T, 0), Instr(RPN_PUSH_NUM, 7), Instr(RPN_SHR, 0)], [Op(RPN_AND)], 0, false) == Ok(([Instr(RPN_PUSH_T, 0), Instr(RPN_PUSH_NUM, 5), Instr(RPN_MUL, 0), Instr(RPN_PUSH_T, 0), Instr(RPN_PUSH_NUM, 7), Instr(RPN_SHR, 0), Instr(RPN_AND, 0)], []));
    assert PopWhile([Instr(RPN_PUSH_T, 0), Instr(RPN_PUSH_NUM, 5), Instr(RPN_MUL, 0), Instr(RPN_PUSH_T, 0), Instr(RPN_PUSH_NUM, 7)], [Op(RPN_AND), Op(RPN_SHR)], 0, false) == Ok(([Instr(RPN_PUSH_T, 0), Instr(RPN_PUSH_NUM, 5), Instr(RPN_MUL, 0), Instr(RPN_PUSH_T, 0), Instr(RPN_PUSH_NUM, 7), Instr(RPN_SHR, 0), Instr(RPN_AND, 0)], []));
    assert [Op(RPN_AND), Op(RPN_SHR)][..1] == [Op(RPN_AND)];
    assert [Op(RPN_AND)][..0] == [];
    assert [] + [Op(RPN_OR)] == [Op(RPN_OR)];
    assert [Instr(RPN_PUSH_T, 0), Instr(RPN_PUSH_NUM, 5), Instr(RPN_MUL, 0), Instr(RPN_PUSH_T, 0), Instr(RPN_PUSH_NUM, 7)] + [Instr(RPN_SHR, 0)] == [Instr(RPN_PUSH_T, 0), Instr(RPN_PUSH_NUM, 5), Instr(RPN_MUL, 0), Instr(RPN_PUSH_T, 0), Instr(RPN_PUSH_NUM, 7), Instr(RPN_SHR, 0)];
    assert [Instr(RPN_PUSH_T, 0), Instr(RPN_PUSH_NUM, 5), Instr(RPN_MUL, 0), Instr(RPN_PUSH_T, 0), Instr(RPN_PUSH_NUM, 7), Instr(RPN_SHR, 0)] + [Instr(RPN_AND, 0)] == [Instr(RPN_PUSH_T, 0), Instr(RPN_PUSH_NUM, 5), Instr(RPN_MUL, 0), Instr(RPN_PUSH_T, 0), Instr(RPN_PUSH_NUM, 7), Instr(RPN_SHR, 0), Instr(RPN_AND, 0)];
    Advance(src, Scan(8, [Instr(RPN_PUSH_T, 0), Instr(RPN_PUSH_NUM, 5), Instr(RPN_MUL, 0), Instr(RPN_PUSH_T, 0), Instr(RPN_PUSH_NUM, 7)], [Op(RPN_AND), Op(RPN_SHR)], 0, false), Scan(9, [Instr(RPN_PUSH_T, 0), Instr(RPN_PUSH_NUM, 5), Instr(RPN_MUL, 0), Instr(RPN_PUSH_T, 0), Instr(RPN_PUSH_NUM, 7), Instr(RPN_SHR, 0), Instr(RPN_AND, 0)], [Op(RPN_OR)], 0, true));
  }

  lemma MaskOperationsStep8(src: seq<char>)
    requires Spells(src, "t*5&t>>7|t*3&t>>10")
    ensures CompileFrom(src, Scan(9, [Instr(RPN_PUSH_T, 0), Instr(RPN_PUSH_NUM, 5), Instr(RPN_MUL, 0), Instr(RPN_PUSH_T, 0), Instr(RPN_PUSH_NUM, 7), Instr(RPN_SHR, 0), Instr(RPN_AND, 0)], [Op(RPN_OR)], 0, true))
         == CompileFrom(src, Scan(10, [Instr(RPN_PUSH_T, 0), Instr(RPN_PUSH_NUM, 5), Instr(RPN_MUL, 0), Instr(RPN_PUSH_T, 0), Instr(RPN_PUSH_NUM, 7), Instr(RPN_SHR, 0), Instr(RPN_AND, 0), Instr(RPN_PUSH_T, 0)], [Op(RPN_OR)], 0, false))
  {
    assert [Instr(RPN_PUSH_T, 0), Instr(RPN_PUSH_NUM, 5), Instr(RPN_MUL, 0), Instr(RPN_PUSH_T, 0), Instr(RPN_PUSH_NUM, 7), Instr(RPN_SHR, 0), Instr(RPN_AND, 0)] + [Instr(RPN_PUSH_T, 0)] == [Instr(RPN_PUSH_T, 0), Instr(RPN_PUSH_NUM, 5), Instr(RPN_MUL, 0), Instr(RPN_PUSH_T, 0), Instr(RPN_PUSH_NUM, 7), Instr(RPN_SHR, 0), Instr(RPN_AND, 0), Instr(RPN_PUSH_T, 0)];
    Advance(src, Scan(9, [Instr(RPN_PUSH_T, 0), Instr(RPN_PUSH_NUM, 5), Instr(RPN_MUL, 0), Instr(RPN_PUSH_T, 0), Instr(RPN_PUSH_NUM, 7), Instr(RPN_SHR, 0), Instr(RPN_AND, 0)], [Op(RPN_OR)], 0, true), Scan(10, [Instr(RPN_PUSH_T, 0), Instr(RPN_PUSH_NUM, 5), Instr(RPN_MUL, 0), Instr(RPN_PUSH_T, 0), Instr(RPN_PUSH_NUM, 7), Instr(RPN_SHR, 0), Instr(RPN_AND, 0), Instr(RPN_PUSH_T, 0)], [Op(RPN_OR)], 0, false));
  }

  lemma MaskOperationsStep9(src: seq<char>)
    requires Spells(src, "t*5&t>>7|t*3&t>>10")
    ensures CompileFrom(src, Scan(10, [Instr(RPN_PUSH_T, 0), Instr(RPN_PUSH_NUM, 5), Instr(RPN_MUL, 0), Instr(RPN_PUSH_T, 0), Instr(RPN_PUSH_NUM, 7), Instr(RPN_SHR, 0), Instr(RPN_AND, 0), Instr(RPN_PUSH_T, 0)], [Op(RPN_OR)], 0, false))
         == CompileFrom(src, Scan(11, [Instr(RPN_PUSH_T, 0), Instr(RPN_PUSH_NUM, 5), Instr(RPN_MUL, 0), Instr(RPN_PUSH_T, 0), Instr(RPN_PUSH_NUM, 7), Instr(RPN_SHR, 0), Instr(RPN_AND, 0), Instr(RPN_PUSH_T, 0)], [Op(RPN_OR), Op(RPN_MUL)], 0, true))
  {
    assert PopWhile([Instr(RPN_PUSH_T, 0), Instr(RPN_PUSH_NUM, 5), Instr(RPN_MUL, 0), Instr(RPN_PUSH_T, 0), Instr(RPN_PUSH_NUM, 7), Instr(RPN_SHR, 0), Instr(RPN_AND, 0), Instr(RPN_PUSH_T, 0)], [Op(RPN_OR)], 6, false) == Ok(([Instr(RPN_PUSH_T, 0), Instr(RPN_PUSH_NUM, 5), Instr(RPN_MUL, 0), Instr(RPN_PUSH_T, 0), Instr(RPN_PUSH_NUM, 7), Instr(RPN_SHR, 0), Instr(RPN_AND, 0), Instr(RPN_PUSH_T, 0)], [Op(RPN_OR)]));
    assert [Op(RPN_OR)] + [Op(RPN_MUL)] == [Op(RPN_OR), Op(RPN_MUL)];
    Advance(src, Scan(10, [Instr(RPN_PUSH_T, 0), Instr(RPN_PUSH_NUM, 5), Instr(RPN_MUL, 0), Instr(RPN_PUSH_T, 0), Instr(RPN_PUSH_NUM, 7), Instr(RPN_SHR, 0), Instr(RPN_AND, 0), Instr(RPN_PUSH_T, 0)], [Op(RPN_OR)], 0, false), Scan(11, [Instr(RPN_PUSH_T, 0), Instr(RPN_PUSH_NUM, 5), Instr(RPN_MUL, 0), Instr(RPN_PUSH_T, 0), Instr(RPN_PUSH_NUM, 7), Instr(RPN_SHR, 0), Instr(RPN_AND, 0), Instr(RPN_PUSH_T, 0)], [Op(RPN_OR), Op(RPN_MUL)], 0, true));
  }

  lemma MaskOperationsStep10(src: seq<char>)
    requires Spells(src, "t*5&t>>7|t*3&t>>10")
    ensures CompileFrom(src, Scan(11, [Instr(RPN_PUSH_T, 0), Instr(RPN_PUSH_NUM, 5), Instr(RPN_MUL, 0), Instr(RPN_PUSH_T, 0), Instr(RPN_PUSH_NUM, 7), Instr(RPN_SHR, 0), Instr(RPN_AND, 0), Instr(RPN_PUSH_T, 0)], [Op(RPN_OR), Op(RPN_MUL)], 0, true))
         == CompileFrom(src, Scan(12, [Instr(RPN_PUSH_T, 0), Instr(RPN_PUSH_NUM, 5), Instr(RPN_MUL, 0), Instr(RPN_PUSH_T, 0), Instr(RPN_PUSH_NUM, 7), Instr(RPN_SHR, 0), Instr(RPN_AND, 0), Instr(RPN_PUSH_T, 0), Instr(RPN_PUSH_NUM, 3)], [Op(RPN_OR), Op(RPN_MUL)], 0, false))
  {
    assert DecDigits(src, 12, 3) == (12, 3);
    assert DecDigits(src, 11, 0) == (12, 3);
    assert NumberAt(src, 11) == Ok((12, 3));
    assert [Instr(RPN_PUSH_T, 0), Instr(RPN_PUSH_NUM, 5), Instr(RPN_MUL, 0), Instr(RPN_PUSH_T, 0), Instr(RPN_PUSH_NUM, 7), Instr(RPN_SHR, 0), Instr(RPN_AND, 0), Instr(RPN_PUSH_T, 0)] + [Instr(RPN_PUSH_NUM, 3)] == [Instr(RPN_PUSH_T, 0), Instr(RPN_PUSH_NUM, 5), Instr(RPN_MUL, 0), Instr(RPN_PUSH_T, 0), Instr(RPN_PUSH_NUM, 7), Instr(RPN_SHR, 0), Instr(RPN_AND, 0), Instr(RPN_PUSH_T, 0), Instr(RPN_PUSH_NUM, 3)];
    Advance(src, Scan(11, [Instr(RPN_PUSH_T, 0), Instr(RPN_PUSH_NUM, 5), Instr(RPN_MUL, 0), Instr(RPN_PUSH_T, 0), Instr(RPN_PUSH_NUM, 7), Instr(RPN_SHR, 0), Instr(RPN_AND, 0), Instr(RPN_PUSH_T, 0)], [Op(RPN_OR), Op(RPN_MUL)], 0, true), Scan(12, [Instr(RPN_PUSH_T, 0), Instr(RPN_PUSH_NUM, 5), Instr(RPN_MUL, 0), Instr(RPN_PUSH_T, 0), Instr(RPN_PUSH_NUM, 7), Instr(RPN_SHR, 0), Instr(RPN_AND, 0), Instr(RPN_PUSH_T, 0), Instr(RPN_PUSH_NUM, 3)], [Op(RPN_OR), Op(RPN_MUL)], 0, false));
  }

  lemma MaskOperationsStep11(src: seq<char>)
    requires Spells(src, "t*5&t>>7|t*3&t>>10")
    ensures CompileFrom(src, Scan(12, [Instr(RPN_PUSH_T, 0), Instr(RPN_PUSH_NUM, 5), Instr(RPN_MUL, 0), Instr(RPN_PUSH_T, 0), Instr(RPN_PUSH_NUM, 7), Instr(RPN_SHR, 0), Instr(RPN_AND, 0), Instr(RPN_PUSH_T, 0), Instr(RPN_PUSH_NUM, 3)], [Op(RPN_OR), Op(RPN_MUL)], 0, false))
         == CompileFrom(src, Scan(13, [Instr(RPN_PUSH_T, 0), Instr(RPN_PUSH_NUM, 5), Instr(RPN_MUL, 0), Instr(RPN_PUSH_T, 0), Instr(RPN_PUSH_NUM, 7), Instr(RPN_SHR, 0), Instr(RPN_AND, 0), Instr(RPN_PUSH_T, 0), Instr(RPN_PUSH_NUM, 3), Instr(RPN_MUL, 0)], [Op(RPN_OR), Op(RPN_AND)], 0, true))
  {
    assert [Op(RPN_OR), Op(RPN_MUL)][..1] == [Op(RPN_OR)];
    assert [Instr(RPN_PUSH_T, 0), Instr(RPN_PUSH_NUM, 5), Instr(RPN_MUL, 0), Instr(RPN_PUSH_T, 0), Instr(RPN_PUSH_NUM, 7), Instr(RPN_SHR, 0), Instr(RPN_AND, 0), Instr(RPN_PUSH_T, 0), Instr(RPN_PUSH_NUM, 3)] + [Instr(RPN_MUL, 0)] == [Instr(RPN_PUSH_T, 0), Instr(RPN_PUSH_NUM, 5), Instr(RPN_MUL, 0), Instr(RPN_PUSH_T, 0), Instr(RPN_PUSH_NUM, 7), Instr(RPN_SHR, 0), Instr(RPN_AND, 0), Instr(RPN_PUSH_T, 0), Instr(RPN_PUSH_NUM, 3), Instr(RPN_MUL, 0)];
    assert EmitTop([Instr(RPN_PUSH_T, 0), Instr(RPN_PUSH_NUM, 5), Instr(RPN_MUL, 0), Instr(RPN_PUSH_T, 0), Instr(RPN_PUSH_NUM, 7), Instr(RPN_SHR, 0), Instr(RPN_AND, 0), Instr(RPN_PUSH_T, 0), Instr(RPN_PUSH_NUM, 3)], [Op(RPN_OR), Op(RPN_MUL)]) == Ok([Instr(RPN_PUSH_T, 0), Instr(RPN_PUSH_NUM, 5), Instr(RPN_MUL, 0), Instr(RPN_PUSH_T, 0), Instr(RPN_PUSH_NUM, 7), Instr(RPN_SHR, 0), Instr(RPN_AND, 0), Instr(RPN_PUSH_T, 0), Instr(RPN_PUSH_NUM, 3), Instr(RPN_MUL, 0)]);
    assert PopWhile([Instr(RPN_PUSH_T, 0), Instr(RPN_PUSH_NUM, 5), Instr(RPN_MUL, 0), Instr(RPN_PUSH_T, 0), Instr(RPN_PUSH_NUM, 7), Instr(RPN_SHR, 0), Instr(RPN_AND, 0), Instr(RPN_PUSH_T, 0), Instr(RPN_PUSH_NUM, 3), Instr(RPN_MUL, 0)], [Op(RPN_OR)], 1, false) == Ok(([Instr(RPN_PUSH_T, 0), Instr(RPN_PUSH_NUM, 5), Instr(RPN_MUL, 0), Instr(RPN_PUSH_T, 0), Instr(RPN_PUSH_NUM, 7), Instr(RPN_SHR, 0), Instr(RPN_AND, 0), Instr(RPN_PUSH_T, 0), Instr(RPN_PUSH_NUM, 3), Instr(RPN_MUL, 0)], [Op(RPN_OR)]));
    assert PopWhile([Instr(RPN_PUSH_T, 0), Instr(RPN_PUSH_NUM, 5), Instr(RPN_MUL, 0), Instr(RPN_PUSH_T, 0), Instr(RPN_PUSH_NUM, 7), Instr(RPN_SHR, 0), Instr(RPN_AND, 0), Instr(RPN_PUSH_T, 0), Instr(RPN_PUSH_NUM, 3)], [Op(RPN_OR), Op(RPN_MUL)], 1, false) == Ok(([Instr(RPN_PUSH_T, 0), Instr(RPN_PUSH_NUM, 5), Instr(RPN_MUL, 0), Instr(RPN_PUSH_T, 0), Instr(RPN_PUSH_NUM, 7), Instr(RPN_SHR, 0), Instr(RPN_AND, 0), Instr(RPN_PUSH_T, 0), Instr(RPN_PUSH_NUM, 3), Instr(RPN_MUL, 0)], [Op(RPN_OR)]));
    assert [Op(RPN_OR), Op(RPN_MUL)][..1] == [Op(RPN_OR)];
    assert [Op(RPN_OR)] + [Op(RPN_AND)] == [Op(RPN_OR), Op(RPN_AND)];
    assert [Instr(RPN_PUSH_T, 0), Instr(RPN_PUSH_NUM, 5), Instr(RPN_MUL, 0), Instr(RPN_PUSH_T, 0), Instr(RPN_PUSH_NUM, 7), Instr(RPN_SHR, 0), Instr(RPN_AND, 0), Instr(RPN_PUSH_T, 0), Instr(RPN_PUSH_NUM, 3)] + [Instr(RPN_MUL, 0)] == [Instr(RPN_PUSH_T, 0), Instr(RPN_PUSH_NUM, 5), Instr(RPN_MUL, 0), Instr(RPN_PUSH_T, 0), Instr(RPN_PUSH_NUM, 7), Instr(RPN_SHR, 0), Instr(RPN_AND, 0), Instr(RPN_PUSH_T, 0), Instr(RPN_PUSH_NUM, 3), Instr(RPN_MUL, 0)];
    Advance(src, Scan(12, [Instr(RPN_PUSH_T, 0), Instr(RPN_PUSH_NUM, 5), Instr(RPN_MUL, 0), Instr(RPN_PUSH_T, 0), Instr(RPN_PUSH_NUM, 7), Instr(RPN_SHR, 0), Instr(RPN_AND, 0), Instr(RPN_PUSH_T, 0), Instr(RPN_PUSH_NUM, 3)], [Op(RPN_OR), Op(RPN_MUL)], 0, false), Scan(13, [Instr(RPN_PUSH_T, 0), Instr(RPN_PUSH_NUM, 5), Instr(RPN_MUL, 0), Instr(RPN_PUSH_T, 0), Instr(RPN_PUSH_NUM, 7), Instr(RPN_SHR, 0), Instr(RPN_AND, 0), Instr(RPN_PUSH_T, 0), Instr(RPN_PUSH_NUM, 3), Instr(RPN_MUL, 0)], [Op(RPN_OR), Op(RPN_AND)], 0, true));
  }

  lemma MaskOperationsStep12(src: seq<char>)
    requires Spells(src, "t*5&t>>7|t*3&t>>10")
    ensures CompileFrom(src, Scan(13, [Instr(RPN_PUSH_T, 0), Instr(RPN_PUSH_NUM, 5), Instr(RPN_MUL, 0), Instr(RPN_PUSH_T, 0), Instr(RPN_PUSH_NUM, 7), Instr(RPN_SHR, 0), Instr(RPN_AND, 0), Instr(RPN_PUSH_T, 0), Instr(RPN_PUSH_NUM, 3), Instr(RPN_MUL, 0)], [Op(RPN_OR), Op(RPN_AND)], 0, true))
         == CompileFrom(src, Scan(14, [Instr(RPN_PUSH_T, 0), Instr(RPN_PUSH_NUM, 5), Instr(RPN_MUL, 0), Instr(RPN_PUSH_T, 0), Instr(RPN_PUSH_NUM, 7), Instr(RPN_SHR, 0), Instr(RPN_AND, 0), Instr(RPN_PUSH_T, 0), Instr(RPN_PUSH_NUM, 3), Instr(RPN_MUL, 0), Instr(RPN_PUSH_T, 0)], [Op(RPN_OR), Op(RPN_AND)], 0, false))
  {
    assert [Instr(RPN_PUSH_T, 0), Instr(RPN_PUSH_NUM, 5), Instr(RPN_MUL, 0), Instr(RPN_PUSH_T, 0), Instr(RPN_PUSH_NUM, 7), Instr(RPN_SHR, 0), Instr(RPN_AND, 0), Instr(RPN_PUSH_T, 0), Instr(RPN_PUSH_NUM, 3), Instr(RPN_MUL, 0)] + [Instr(RPN_PUSH_T, 0)] == [Instr(RPN_PUSH_T, 0), Instr(RPN_PUSH_NUM, 5), Instr(RPN_MUL, 0), Instr(RPN_PUSH_T, 0), Instr(RPN_PUSH_NUM, 7), Instr(RPN_SHR, 0), Instr(RPN_AND, 0), Instr(RPN_PUSH_T, 0), Instr(RPN_PUSH_NUM, 3), Instr(RPN_MUL, 0), Instr(RPN_PUSH_T, 0)];
    Advance(src, Scan(13, [Instr(RPN_PUSH_T, 0), Instr(RPN_PUSH_NUM, 5), Instr(RPN_MUL, 0), Instr(RPN_PUSH_T, 0), Instr(RPN_PUSH_NUM, 7), Instr(RPN_SHR, 0), Instr(RPN_AND, 0), Instr(RPN_PUSH_T, 0), Instr(RPN_PUSH_NUM, 3), Instr(RPN_MUL, 0)], [Op(RPN_OR), Op(RPN_AND)], 0, true), Scan(14, [Instr(RPN_PUSH_T, 0), Instr(RPN_PUSH_NUM, 5), Instr(RPN_MUL, 0), Instr(RPN_PUSH_T, 0), Instr(RPN_PUSH_NUM, 7), Instr(RPN_SHR, 0), Instr(RPN_AND, 0), Instr(RPN_PUSH_T, 0), Instr(RPN_PUSH_NUM, 3), Instr(RPN_MUL, 0), Instr(RPN_PUSH_T, 0)], [Op(RPN_OR), Op(RPN_AND)], 0, false));
  }

  lemma MaskOperationsStep13(src: seq<char>)
    requires Spells(src, "t*5&t>>7|t*3&t>>10")
    ensures CompileFrom(src, Scan(14, [Instr(RPN_PUSH_T, 0), Instr(RPN_PUSH_NUM, 5), Instr(RPN_MUL, 0), Instr(RPN_PUSH_T, 0), Instr(RPN_PUSH_NUM, 7), Instr(RPN_SHR, 0), Instr(RPN_AND, 0), Instr(RPN_PUSH_T, 0), Instr(RPN_PUSH_NUM, 3), Instr(RPN_MUL, 0), Instr(RPN_PUSH_T, 0)], [Op(RPN_OR), Op(RPN_AND)], 0, false))
         == CompileFrom(src, Scan(16, [Instr(RPN_PUSH_T, 0), Instr(RPN_PUSH_NUM, 5), Instr(RPN_MUL, 0), Instr(RPN_PUSH_T, 0), Instr(RPN_PUSH_NUM, 7), Instr(RPN_SHR, 0), Instr(RPN_AND, 0), Instr(RPN_PUSH_T, 0), Instr(RPN_PUSH_NUM, 3), Instr(RPN_MUL, 0), Instr(RPN_PUSH_T, 0)], [Op(RPN_OR), Op(RPN_AND), Op(RPN_SHR)], 0, true))
  {
    assert PopWhile([Instr(RPN_PUSH_T, 0), Instr(RPN_PUSH_NUM, 5), Instr(RPN_MUL, 0), Instr(RPN_PUSH_T, 0), Instr(RPN_PUSH_NUM, 7), Instr(RPN_SHR, 0), Instr(RPN_AND, 0), Instr(RPN_PUSH_T, 0), Instr(RPN_PUSH_NUM, 3), Instr(RPN_MUL, 0), Instr(RPN_PUSH_T, 0)], [Op(RPN_OR), Op(RPN_AND)], 4, false) == Ok(([Instr(RPN_PUSH_T, 0), Instr(RPN_PUSH_NUM, 5), Instr(RPN_MUL, 0), Instr(RPN_PUSH_T, 0), Instr(RPN_PUSH_NUM, 7), Instr(RPN_SHR, 0), Instr(RPN_AND, 0), Instr(RPN_PUSH_T, 0), Instr(RPN_PUSH_NUM, 3), Instr(RPN_MUL, 0), Instr(RPN_PUSH_T, 0)], [Op(RPN_OR), Op(RPN_AND)]));
    assert [Op(RPN_OR), Op(RPN_AND)] + [Op(RPN_SHR)] == [Op(RPN_OR), Op(RPN_AND), Op(RPN_SHR)];
    Advance(src, Scan(14, [Instr(RPN_PUSH_T, 0), Instr(RPN_PUSH_NUM, 5), Instr(RPN_MUL, 0), Instr(RPN_PUSH_T, 0), Instr(RPN_PUSH_NUM, 7), Instr(RPN_SHR, 0), Instr(RPN_AND, 0), Instr(RPN_PUSH_T, 0), Instr(RPN_PUSH_NUM, 3), Instr(RPN_MUL, 0), Instr(RPN_PUSH_T, 0)], [Op(RPN_OR), Op(RPN_AND)], 0, false), Scan(16, [Instr(RPN_PUSH_T, 0), Instr(RPN_PUSH_NUM, 5), Instr(RPN_MUL, 0), Instr(RPN_PUSH_T, 0), Instr(RPN_PUSH_NUM, 7), Instr(RPN_SHR, 0), Instr(RPN_AND, 0), Instr(RPN_PUSH_T, 0), Instr(RPN_PUSH_NUM, 3), Instr(RPN_MUL, 0), Instr(RPN_PUSH_T, 0)], [Op(RPN_OR), Op(RPN_AND), Op(RPN_SHR)], 0, true));
  }

  lemma MaskOperationsStep14(src: seq<char>)
    requires Spells(src, "t*5&t>>7|t*3&t>>10")
    ensures CompileFrom(src, Scan(16, [Instr(RPN_PUSH_T, 0), Instr(RPN_PUSH_NUM, 5), Instr(RPN_MUL, 0), Instr(RPN_PUSH_T, 0), Instr(RPN_PUSH_NUM, 7), Instr(RPN_SHR, 0), Instr(RPN_AND, 0), Instr(RPN_PUSH_T, 0), Instr(RPN_PUSH_NUM, 3), Instr(RPN_MUL, 0), Instr(RPN_PUSH_T, 0)], [Op(RPN_OR), Op(RPN_AND), Op(RPN_SHR)], 0, true))
         == CompileFrom(src, Scan(18, [Instr(RPN_PUSH_T, 0), Instr(RPN_PUSH_NUM, 5), Instr(RPN_MUL, 0), Instr(RPN_PUSH_T, 0), Instr(RPN_PUSH_NUM, 7), Instr(RPN_SHR, 0), Instr(RPN_AND, 0), Instr(RPN_PUSH_T, 0), Instr(RPN_PUSH_NUM, 3), Instr(RPN_MUL, 0), Instr(RPN_PUSH_T, 0), Instr(RPN_PUSH_NUM, 0xa)], [Op(RPN_OR), Op(RPN_AND), Op(RPN_SHR)], 0, false))
  {
    assert DecDigits(src, 18, 0xa) == (18, 0xa);
    assert DecDigits(src, 17, 1) == (18, 0xa);
    assert DecDigits(src, 16, 0) == (18, 0xa);
    assert NumberAt(src, 16) == Ok((18, 0xa));
    assert [Instr(RPN_PUSH_T, 0), Instr(RPN_PUSH_NUM, 5), Instr(RPN_MUL, 0), Instr(RPN_PUSH_T, 0), Instr(RPN_PUSH_NUM, 7), Instr(RPN_SHR, 0), Instr(RPN_AND, 0), Instr(RPN_PUSH_T, 0), Instr(RPN_PUSH_NUM, 3), Instr(RPN_MUL, 0), Instr(RPN_PUSH_T, 0)] + [Instr(RPN_PUSH_NUM, 0xa)] == [Instr(RPN_PUSH_T, 0), Instr(RPN_PUSH_NUM, 5), Instr(RPN_MUL, 0), Instr(RPN_PUSH_T, 0), Instr(RPN_PUSH_NUM, 7), Instr(RPN_SHR, 0), Instr(RPN_AND, 0), Instr(RPN_PUSH_T, 0), Instr(RPN_PUSH_NUM, 3), Instr(RPN_MUL, 0), Instr(RPN_PUSH_T, 0), Instr(RPN_PUSH_NUM, 0xa)];
    Advance(src, Scan(16, [Instr(RPN_PUSH_T, 0), Instr(RPN_PUSH_NUM, 5), Instr(RPN_MUL, 0), Instr(RPN_PUSH_T, 0), Instr(RPN_PUSH_NUM, 7), Instr(RPN_SHR, 0), Instr(RPN_AND, 0), Instr(RPN_PUSH_T, 0), Instr(RPN_PUSH_NUM, 3), Instr(RPN_MUL, 0), Instr(RPN_PUSH_T, 0)], [Op(RPN_OR), Op(RPN_AND), Op(RPN_SHR)], 0, true), Scan(18, [Instr(RPN_PUSH_T, 0), Instr(RPN_PUSH_NUM, 5), Instr(RPN_MUL, 0), Instr(RPN_PUSH_T, 0), Instr(RPN_PUSH_NUM, 7), Instr(RPN_SHR, 0), Instr(RPN_AND, 0), Instr(RPN_PUSH_T, 0), Instr(RPN_PUSH_NUM, 3), Instr(RPN_MUL, 0), Instr(RPN_PUSH_T, 0), Instr(RPN_PUSH_NUM, 0xa)], [Op(RPN_OR), Op(RPN_AND), Op(RPN_SHR)], 0, false));
  }

  lemma MaskOperationsFinish(src: seq<char>)
    requires Spells(src, "t*5&t>>7|t*3&t>>10")
    ensures CompileFrom(src, Scan(18, [Instr(RPN_PUSH_T, 0), Instr(RPN_PUSH_NUM, 5), Instr(RPN_MUL, 0), Instr(RPN_PUSH_T, 0), Instr(RPN_PUSH_NUM, 7), Instr(RPN_SHR, 0), Instr(RPN_AND, 0), Instr(RPN_PUSH_T, 0), Instr(RPN_PUSH_NUM, 3), Instr(RPN_MUL, 0), Instr(RPN_PUSH_T, 0), Instr(RPN_PUSH_NUM, 0xa)], [Op(RPN_OR), Op(RPN_AND), Op(RPN_SHR)], 0, false)) == Ok([Instr(RPN_PUSH_T, 0), Instr(RPN_PUSH_NUM, 5), Instr(RPN_MUL, 0), Instr(RPN_PUSH_T, 0), Instr(RPN_PUSH_NUM, 7), Instr(RPN_SHR, 0), Instr(RPN_AND, 0), Instr(RPN_PUSH_T, 0), Instr(RPN_PUSH_NUM, 3), Instr(RPN_MUL, 0), Instr(RPN_PUSH_T, 0), Instr(RPN_PUSH_NUM, 0xa), Instr(RPN_SHR, 0), Instr(RPN_AND, 0), Instr(RPN_OR, 0)])
  {
    Stop(src, Scan(18, [Instr(RPN_PUSH_T, 0), Instr(RPN_PUSH_NUM, 5), Instr(RPN_MUL, 0), Instr(RPN_PUSH_T, 0), Instr(RPN_PUSH_NUM, 7), Instr(RPN_SHR, 0), Instr(RPN_AND, 0), Instr(RPN_PUSH_T, 0), Instr(RPN_PUSH_NUM, 3), Instr(RPN_MUL, 0), Instr(RPN_PUSH_T, 0), Instr(RPN_PUSH_NUM, 0xa)], [Op(RPN_OR), Op(RPN_AND), Op(RPN_SHR)], 0, false));
    assert [Op(RPN_OR), Op(RPN_AND), Op(RPN_SHR)][..2] == [Op(RPN_OR), Op(RPN_AND)];
    assert [Instr(RPN_PUSH_T, 0), Instr(RPN_PUSH_NUM, 5), Instr(RPN_MUL, 0), Instr(RPN_PUSH_T, 0), Instr(RPN_PUSH_NUM, 7), Instr(RPN_SHR, 0), Instr(RPN_AND, 0), Instr(RPN_PUSH_T, 0), Instr(RPN_PUSH_NUM, 3), Instr(RPN_MUL, 0), Instr(RPN_PUSH_T, 0), Instr(RPN_PUSH_NUM, 0xa)] + [Instr(RPN_SHR, 0)] == [Instr(RPN_PUSH_T, 0), Instr(RPN_PUSH_NUM, 5), Instr(RPN_MUL, 0), Instr(RPN_PUSH_T, 0), Instr(RPN_PUSH_NUM, 7), Instr(RPN_SHR, 0), Instr(RPN_AND, 0), Instr(RPN_PUSH_T, 0), Instr(RPN_PUSH_NUM, 3), Instr(RPN_MUL, 0), Instr(RPN_PUSH_T, 0), Instr(RPN_PUSH_NUM, 0xa), Instr(RPN_SHR, 0)];
    assert EmitTop([Instr(RPN_PUSH_T, 0), Instr(RPN_PUSH_NUM, 5), Instr(RPN_MUL, 0), Instr(RPN_PUSH_T, 0), Instr(RPN_PUSH_NUM, 7), Instr(RPN_SHR, 0), Instr(RPN_AND, 0), Instr(RPN_PUSH_T, 0), Instr(RPN_PUSH_NUM, 3), Instr(RPN_MUL, 0), Instr(RPN_PUSH_T, 0), Instr(RPN_PUSH_NUM, 0xa)], [Op(RPN_OR), Op(RPN_AND), Op(RPN_SHR)]) == Ok([Instr(RPN_PUSH_T, 0), Instr(RPN_PUSH_NUM, 5), Instr(RPN_MUL, 0), Instr(RPN_PUSH_T, 0), Instr(RPN_PUSH_NUM, 7), Instr(RPN_SHR, 0), Instr(RPN_AND, 0), Instr(RPN_PUSH_T, 0), Instr(RPN_PUSH_NUM, 3), Instr(RPN_MUL, 0), Instr(RPN_PUSH_T, 0), Instr(RPN_PUSH_NUM, 0xa), Instr(RPN_SHR, 0)]);
    assert [Op(RPN_OR), Op(RPN_AND)][..1] == [Op(RPN_OR)];
    assert [Instr(RPN_PUSH_T, 0), Instr(RPN_PUSH_NUM, 5), Instr(RPN_MUL, 0), Instr(RPN_PUSH_T, 0), Instr(RPN_PUSH_NUM, 7), Instr(RPN_SHR, 0), Instr(RPN_AND, 0), Instr(RPN_PUSH_T, 0), Instr(RPN_PUSH_NUM, 3), Instr(RPN_MUL, 0), Instr(RPN_PUSH_T, 0), Instr(RPN_PUSH_NUM, 0xa), Instr(RPN_SHR, 0)] + [Instr(RPN_AND, 0)] == [Instr(RPN_PUSH_T, 0), Instr(RPN_PUSH_NUM, 5), Instr(RPN_MUL, 0), Instr(RPN_PUSH_T, 0), Instr(RPN_PUSH_NUM, 7), Instr(RPN_SHR, 0), Instr(RPN_AND, 0), Instr(RPN_PUSH_T, 0), Instr(RPN_PUSH_NUM, 3), Instr(RPN_MUL, 0), Instr(RPN_PUSH_T, 0), Instr(RPN_PUSH_NUM, 0xa), Instr(RPN_SHR, 0), Instr(RPN_AND, 0)];
    assert EmitTop([Instr(RPN_PUSH_T, 0), Instr(RPN_PUSH_NUM, 5), Instr(RPN_MUL, 0), Instr(RPN_PUSH_T, 0), Instr(RPN_PUSH_NUM, 7), Instr(RPN_SHR, 0), Instr(RPN_AND, 0), Instr(RPN_PUSH_T, 0), Instr(RPN_PUSH_NUM, 3), Instr(RPN_MUL, 0), Instr(RPN_PUSH_T, 0), Instr(RPN_PUSH_NUM, 0xa), Instr(RPN_SHR, 0)], [Op(RPN_OR), Op(RPN_AND)]) == Ok([Instr(RPN_PUSH_T, 0), Instr(RPN_PUSH_NUM, 5), Instr(RPN_MUL, 0), Instr(RPN_PUSH_T, 0), Instr(RPN_PUSH_NUM, 7), Instr(RPN_SHR, 0), Instr(RPN_AND, 0), Instr(RPN_PUSH_T, 0), Instr(RPN_PUSH_NUM, 3), Instr(RPN_MUL, 0), Instr(RPN_PUSH_T, 0), Instr(RPN_PUSH_NUM, 0xa), Instr(RPN_SHR, 0), Instr(RPN_AND, 0)]);
    assert [Op(RPN_OR)][..0] == [];
    assert [Instr(RPN_PUSH_T, 0), Instr(RPN_PUSH_NUM, 5), Instr(RPN_MUL, 0), Instr(RPN_PUSH_T, 0), Instr(RPN_PUSH_NUM, 7), Instr(RPN_SHR, 0), Instr(RPN_AND, 0), Instr(RPN_PUSH_T, 0), Instr(RPN_PUSH_NUM, 3), Instr(RPN_MUL, 0), Instr(RPN_PUSH_T, 0), Instr(RPN_PUSH_NUM, 0xa), Instr(RPN_SHR, 0), Instr(RPN_AND, 0)] + [Instr(RPN_OR, 0)] == [Instr(RPN_PUSH_T, 0), Instr(RPN_PUSH_NUM, 5), Instr(RPN_MUL, 0), Instr(RPN_PUSH_T, 0), Instr(RPN_PUSH_NUM, 7), Instr(RPN_SHR, 0), Instr(RPN_AND, 0), Instr(RPN_PUSH_T, 0), Instr(RPN_PUSH_NUM, 3), Instr(RPN_MUL, 0), Instr(RPN_PUSH_T, 0), Instr(RPN_PUSH_NUM, 0xa), Instr(RPN_SHR, 0), Instr(RPN_AND, 0), Instr(RPN_OR, 0)];
    assert EmitTop([Instr(RPN_PUSH_T, 0), Instr(RPN_PUSH_NUM, 5), Instr(RPN_MUL, 0), Instr(RPN_PUSH_T, 0), Instr(RPN_PUSH_NUM, 7), Instr(RPN_SHR, 0), Instr(RPN_AND, 0), Instr(RPN_PUSH_T, 0), Instr(RPN_PUSH_NUM, 3), Instr(RPN_MUL, 0), Instr(RPN_PUSH_T, 0), Instr(RPN_PUSH_NUM, 0xa), Instr(RPN_SHR, 0), Instr(RPN_AND, 0)], [Op(RPN_OR)]) == Ok([Instr(RPN_PUSH_T, 0), Instr(RPN_PUSH_NUM, 5), Instr(RPN_MUL, 0), Instr(RPN_PUSH_T, 0), Instr(RPN_PUSH_NUM, 7), Instr(RPN_SHR, 0), Instr(RPN_AND, 0), Instr(RPN_PUSH_T, 0), Instr(RPN_PUSH_NUM, 3), Instr(RPN_MUL, 0), Instr(RPN_PUSH_T, 0), Instr(RPN_PUSH_NUM, 0xa), Instr(RPN_SHR, 0), Instr(RPN_AND, 0), Instr(RPN_OR, 0)]);
    assert PopAll([Instr(RPN_PUSH_T, 0), Instr(RPN_PUSH_NUM, 5), Instr(RPN_MUL, 0), Instr(RPN_PUSH_T, 0), Instr(RPN_PUSH_NUM, 7), Instr(RPN_SHR, 0), Instr(RPN_AND, 0), Instr(RPN_PUSH_T, 0), Instr(RPN_PUSH_NUM, 3), Instr(RPN_MUL, 0), Instr(RPN_PUSH_T, 0), Instr(RPN_PUSH_NUM, 0xa), Instr(RPN_SHR, 0), Instr(RPN_AND, 0), Instr(RPN_OR, 0)], []) == Ok([Instr(RPN_PUSH_T, 0), Instr(RPN_PUSH_NUM, 5), Instr(RPN_MUL, 0), Instr(RPN_PUSH_T, 0), Instr(RPN_PUSH_NUM, 7), Instr(RPN_SHR, 0), Instr(RPN_AND, 0), Instr(RPN_PUSH_T, 0), Instr(RPN_PUSH_NUM, 3), Instr(RPN_MUL, 0), Instr(RPN_PUSH_T, 0), Instr(RPN_PUSH_NUM, 0xa), Instr(RPN_SHR, 0), Instr(RPN_AND, 0), Instr(RPN_OR, 0)]);
    assert PopAll([Instr(RPN_PUSH_T, 0), Instr(RPN_PUSH_NUM, 5), Instr(RPN_MUL, 0), Instr(RPN_PUSH_T, 0), Instr(RPN_PUSH_NUM, 7), Instr(RPN_SHR, 0), Instr(RPN_AND, 0), Instr(RPN_PUSH_T, 0), Instr(RPN_PUSH_NUM, 3), Instr(RPN_MUL, 0), Instr(RPN_PUSH_T, 0), Instr(RPN_PUSH_NUM, 0xa), Instr(RPN_SHR, 0), Instr(RPN_AND, 0)], [Op(RPN_OR)]) == Ok([Instr(RPN_PUSH_T, 0), Instr(RPN_PUSH_NUM, 5), Instr(RPN_MUL, 0), Instr(RPN_PUSH_T, 0), Instr(RPN_PUSH_NUM, 7), Instr(RPN_SHR, 0), Instr(RPN_AND, 0), Instr(RPN_PUSH_T, 0), Instr(RPN_PUSH_NUM, 3), Instr(RPN_MUL, 0), Instr(RPN_PUSH_T, 0), Instr(RPN_PUSH_NUM, 0xa), Instr(RPN_SHR, 0), Instr(RPN_AND, 0), Instr(RPN_OR, 0)]);
    assert PopAll([Instr(RPN_PUSH_T, 0), Instr(RPN_PUSH_NUM, 5), Instr(RPN_MUL, 0), Instr(RPN_PUSH_T, 0), Instr(RPN_PUSH_NUM, 7), Instr(RPN_SHR, 0), Instr(RPN_AND, 0), Instr(RPN_PUSH_T, 0), Instr(RPN_PUSH_NUM, 3), Instr(RPN_MUL, 0), Instr(RPN_PUSH_T, 0), Instr(RPN_PUSH_NUM, 0xa), Instr(RPN_SHR, 0)], [Op(RPN_OR), Op(RPN_AND)]) == Ok([Instr(RPN_PUSH_T, 0), Instr(RPN_PUSH_NUM, 5), Instr(RPN_MUL, 0), Instr(RPN_PUSH_T, 0), Instr(RPN_PUSH_NUM, 7), Instr(RPN_SHR, 0), Instr(RPN_AND, 0), Instr(RPN_PUSH_T, 0), Instr(RPN_PUSH_NUM, 3), Instr(RPN_MUL, 0), Instr(RPN_PUSH_T, 0), Instr(RPN_PUSH_NUM, 0xa), Instr(RPN_SHR, 0), Instr(RPN_AND, 0), Instr(RPN_OR, 0)]);
    assert PopAll([Instr(RPN_PUSH_T, 0), Instr(RPN_PUSH_NUM, 5), Instr(RPN_MUL, 0), Instr(RPN_PUSH_T, 0), Instr(RPN_PUSH_NUM, 7), Instr(RPN_SHR, 0), Instr(RPN_AND, 0), Instr(RPN_PUSH_T, 0), Instr(RPN_PUSH_NUM, 3), Instr(RPN_MUL, 0), Instr(RPN_PUSH_T, 0), Instr(RPN_PUSH_NUM, 0xa)], [Op(RPN_OR), Op(RPN_AND), Op(RPN_SHR)]) == Ok([Instr(RPN_PUSH_T, 0), Instr(RPN_PUSH_NUM, 5), Instr(RPN_MUL, 0), Instr(RPN_PUSH_T, 0), Instr(RPN_PUSH_NUM, 7), Instr(RPN_SHR, 0), Instr(RPN_AND, 0), Instr(RPN_PUSH_T, 0), Instr(RPN_PUSH_NUM, 3), Instr(RPN_MUL, 0), Instr(RPN_PUSH_T, 0), Instr(RPN_PUSH_NUM, 0xa), Instr(RPN_SHR, 0), Instr(RPN_AND, 0), Instr(RPN_OR, 0)]);
  }

  lemma MaskOperationsCompiles(src: seq<char>)
    requires Spells(src, "t*5&t>>7|t*3&t>>10")
    ensures Compile(src) == Ok([Instr(RPN_PUSH_T, 0), Instr(RPN_PUSH_NUM, 5), Instr(RPN_MUL, 0), Instr(RPN_PUSH_T, 0), Instr(RPN_PUSH_NUM, 7), Instr(RPN_SHR, 0), Instr(RPN_AND, 0), Instr(RPN_PUSH_T, 0), Instr(RPN_PUSH_NUM, 3), Instr(RPN_MUL, 0), Instr(RPN_PUSH_T, 0), Instr(RPN_PUSH_NUM, 0xa), Instr(RPN_SHR, 0), Instr(RPN_AND, 0), Instr(RPN_OR, 0)])
  {
    MaskOperationsStep0(src);
    MaskOperationsStep1(src);
    MaskOperationsStep2(src);
    MaskOperationsStep3(src);
    MaskOperationsStep4(src);
    MaskOperationsStep5(src);
    MaskOperationsStep6(src);
    MaskOperationsStep7(src);
    MaskOperationsStep8(src);
    MaskOperationsStep9(src);
    MaskOperationsStep10(src);
    MaskOperationsStep11(src);
    MaskOperationsStep12(src);
    MaskOperationsStep13(src);
    MaskOperationsStep14(src);
    MaskOperationsFinish(src);
  }

  lemma MaskOperationsTree()
    ensures Emit(Binary(RPN_OR, Binary(RPN_AND, Binary(RPN_MUL, TVar, Const(5)), Binary(RPN_SHR, TVar, Const(7))), Binary(RPN_AND, Binary(RPN_MUL, TVar, Const(3)), Binary(RPN_SHR, TVar, Const(0xa))))) == [Instr(RPN_PUSH_T, 0), Instr(RPN_PUSH_NUM, 5), Instr(RPN_MUL, 0), Instr(RPN_PUSH_T, 0), Instr(RPN_PUSH_NUM, 7), Instr(RPN_SHR, 0), Instr(RPN_AND, 0), Instr(RPN_PUSH_T, 0), Instr(RPN_PUSH_NUM, 3), Instr(RPN_MUL, 0), Instr(RPN_PUSH_T, 0), Instr(RPN_PUSH_NUM, 0xa), Instr(RPN_SHR, 0), Instr(RPN_AND, 0), Instr(RPN_OR, 0)]
  {
  }

  /** `t*5&t>>7|t*3&t>>10` compiles to the postfix code of the C expression tree, which the VM computes for every t. */
  lemma MaskOperations(ws: WideShifts)
    ensures Compile("t*5&t>>7|t*3&t>>10") == Ok(Emit(Binary(RPN_OR, Binary(RPN_AND, Binary(RPN_MUL, TVar, Const(5)), Binary(RPN_SHR, TVar, Const(7))), Binary(RPN_AND, Binary(RPN_MUL, TVar, Const(3)), Binary(RPN_SHR, TVar, Const(0xa))))))
    ensures forall t :: Evaluate(Emit(Binary(RPN_OR, Binary(RPN_AND, Binary(RPN_MUL, TVar, Const(5)), Binary(RPN_SHR, TVar, Const(7))), Binary(RPN_AND, Binary(RPN_MUL, TVar, Const(3)), Binary(RPN_SHR, TVar, Const(0xa))))), t, ws) == Denote(Binary(RPN_OR, Binary(RPN_AND, Binary(RPN_MUL, TVar, Const(5)), Binary(RPN_SHR, TVar, Const(7))), Binary(RPN_AND, Binary(RPN_MUL, TVar, Const(3)), Binary(RPN_SHR, TVar, Const(0xa)))), t, ws)
  {
    MaskOperationsCompiles("t*5&t>>7|t*3&t>>10");
    MaskOperationsTree();
    forall t
      ensures Evaluate(Emit(Binary(RPN_OR, Binary(RPN_AND, Binary(RPN_MUL, TVar, Const(5)), Binary(RPN_SHR, TVar, Const(7))), Binary(RPN_AND, Binary(RPN_MUL, TVar, Const(3)), Binary(RPN_SHR, TVar, Const(0xa))))), t, ws) == Denote(Binary(RPN_OR, Binary(RPN_AND, Binary(RPN_MUL, TVar, Const(5)), Binary(RPN_SHR, TVar, Const(7))), Binary(RPN_AND, Binary(RPN_MUL, TVar, Const(3)), Binary(RPN_SHR, TVar, Const(0xa)))), t, ws)
    {
      EmitEvaluates(Binary(RPN_OR, Binary(RPN_AND, Binary(RPN_MUL, TVar, Const(5)), Binary(RPN_SHR, TVar, Const(7))), Binary(RPN_AND, Binary(RPN_MUL, TVar, Const(3)), Binary(RPN_SHR, TVar, Const(0xa)))), t, ws);
    }
  }

  // ---------------------------------------------------- errors by position

  lemma OperandAfterOperandStep0(src: seq<char>)
    requires Spells(src, "2 3")
    ensures CompileFrom(src, Scan(0, [], [], 0, true))
         == CompileFrom(src, Scan(1, [Instr(RPN_PUSH_NUM, 2)], [], 0, false))
  {
    assert DecDigits(src, 1, 2) == (1, 2);
    assert DecDigits(src, 0, 0) == (1, 2);
    assert NumberAt(src, 0) == Ok((1, 2));
    assert [] + [Instr(RPN_PUSH_NUM, 2)] == [Instr(RPN_PUSH_NUM, 2)];
    Advance(src, Scan(0, [], [], 0, true), Scan(1, [Instr(RPN_PUSH_NUM, 2)], [], 0, false));
  }

  lemma OperandAfterOperandStep1(src: seq<char>)
    requires Spells(src, "2 3")
    ensures CompileFrom(src, Scan(1, [Instr(RPN_PUSH_NUM, 2)], [], 0, false))
         == CompileFrom(src, Scan(2, [Instr(RPN_PUSH_NUM, 2)], [], 0, false))
  {
    Advance(src, Scan(1, [Instr(RPN_PUSH_NUM, 2)], [], 0, false), Scan(2, [Instr(RPN_PUSH_NUM, 2)], [], 0, false));
  }

  lemma OperandAfterOperandStep2(src: seq<char>)
    requires Spells(src, "2 3")
    ensures CompileFrom(src, Scan(2, [Instr(RPN_PUSH_NUM, 2)], [], 0, false)) == Fail(ErrToken)
  {
    Halt(src, Scan(2, [Instr(RPN_PUSH_NUM, 2)], [], 0, false));
  }

  lemma OperandAfterOperandCompiles(src: seq<char>)
    requires Spells(src, "2 3")
    ensures Compile(src) == Fail(ErrToken)
  {
    OperandAfterOperandStep0(src);
    OperandAfterOperandStep1(src);
    OperandAfterOperandStep2(src);
  }

  /** An operand where an operator is expected: ErrToken. */
  lemma OperandAfterOperand()
    ensures Compile("2 3") == Fail(ErrToken)
  {
    OperandAfterOperandCompiles("2 3");
  }

  lemma ParenAfterOperandStep0(src: seq<char>)
    requires Spells(src, "2(3)")
    ensures CompileFrom(src, Scan(0, [], [], 0, true))
         == CompileFrom(src, Scan(1, [Instr(RPN_PUSH_NUM, 2)], [], 0, false))
  {
    assert DecDigits(src, 1, 2) == (1, 2);
    assert DecDigits(src, 0, 0) == (1, 2);
    assert NumberAt(src, 0) == Ok((1, 2));
    assert [] + [Instr(RPN_PUSH_NUM, 2)] == [Instr(RPN_PUSH_NUM, 2)];
    Advance(src, Scan(0, [], [], 0, true), Scan(1, [Instr(RPN_PUSH_NUM, 2)], [], 0, false));
  }

  lemma ParenAfterOperandStep1(src: seq<char>)
    requires Spells(src, "2(3)")
    ensures CompileFrom(src, Scan(1, [Instr(RPN_PUSH_NUM, 2)], [], 0, false)) == Fail(ErrToken)
  {
    Halt(src, Scan(1, [Instr(RPN_PUSH_NUM, 2)], [], 0, false));
  }

  lemma ParenAfterOperandCompiles(src: seq<char>)
    requires Spells(src, "2(3)")
    ensures Compile(src) == Fail(ErrToken)
  {
    ParenAfterOperandStep0(src);
    ParenAfterOperandStep1(src);
  }

  /** `(` where an operator is expected: ErrToken. */
  lemma ParenAfterOperand()
    ensures Compile("2(3)") == Fail(ErrToken)
  {
    ParenAfterOperandCompiles("2(3)");
  }

  lemma NotAfterOperandStep0(src: seq<char>)
    requires Spells(src, "2~3")
    ensures CompileFrom(src, Scan(0, [], [], 0, true))
         == CompileFrom(src, Scan(1, [Instr(RPN_PUSH_NUM, 2)], [], 0, false))
  {
    assert DecDigits(src, 1, 2) == (1, 2);
    assert DecDigits(src, 0, 0) == (1, 2);
    assert NumberAt(src, 0) == Ok((1, 2));
    assert [] + [Instr(RPN_PUSH_NUM, 2)] == [Instr(RPN_PUSH_NUM, 2)];
    Advance(src, Scan(0, [], [], 0, true), Scan(1, [Instr(RPN_PUSH_NUM, 2)], [], 0, false));
  }

  lemma NotAfterOperandStep1(src: seq<char>)
    requires Spells(src, "2~3")
    ensures CompileFrom(src, Scan(1, [Instr(RPN_PUSH_NUM, 2)], [], 0, false)) == Fail(ErrToken)
  {
    Halt(src, Scan(1, [Instr(RPN_PUSH_NUM, 2)], [], 0, false));
  }

  lemma NotAfterOperandCompiles(src: seq<char>)
    requires Spells(src, "2~3")
    ensures Compile(src) == Fail(ErrToken)
  {
    NotAfterOperandStep0(src);
    NotAfterOperandStep1(src);
  }

  /** `~` where an operator is expected: ErrToken. */
  lemma NotAfterOperand()
    ensures Compile("2~3") == Fail(ErrToken)
  {
    NotAfterOperandCompiles("2~3");
  }

  lemma OperatorAtStartStep0(src: seq<char>)
    requires Spells(src, "*2")
    ensures CompileFrom(src, Scan(0, [], [], 0, true)) == Fail(ErrToken)
  {
    Halt(src, Scan(0, [], [], 0, true));
  }

  lemma OperatorAtStartCompiles(src: seq<char>)
    requires Spells(src, "*2")
    ensures Compile(src) == Fail(ErrToken)
  {
    OperatorAtStartStep0(src);
  }

  /** A binary operator where an operand is expected: ErrToken. */
  lemma OperatorAtStart()
    ensures Compile("*2") == Fail(ErrToken)
  {
    OperatorAtStartCompiles("*2");
  }

  lemma CloseAfterOperatorStep0(src: seq<char>)
    requires Spells(src, "(1+)")
    ensures CompileFrom(src, Scan(0, [], [], 0, true))
         == CompileFrom(src, Scan(1, [], [OpenParen], 1, true))
  {
    assert [] + [OpenParen] == [OpenParen];
    Advance(src, Scan(0, [], [], 0, true), Scan(1, [], [OpenParen], 1, true));
  }

  lemma CloseAfterOperatorStep1(src: seq<char>)
    requires Spells(src, "(1+)")
    ensures CompileFrom(src, Scan(1, [], [OpenParen], 1, true))
         == CompileFrom(src, Scan(2, [Instr(RPN_PUSH_NUM, 1)], [OpenParen], 1, false))
  {
    assert DecDigits(src, 2, 1) == (2, 1);
    assert DecDigits(src, 1, 0) == (2, 1);
    assert NumberAt(src, 1) == Ok((2, 1));
    assert [] + [Instr(RPN_PUSH_NUM, 1)] == [Instr(RPN_PUSH_NUM, 1)];
    Advance(src, Scan(1, [], [OpenParen], 1, true), Scan(2, [Instr(RPN_PUSH_NUM, 1)], [OpenParen], 1, false));
  }

  lemma CloseAfterOperatorStep2(src: seq<char>)
    requires Spells(src, "(1+)")
    ensures CompileFrom(src, Scan(2, [Instr(RPN_PUSH_NUM, 1)], [OpenParen], 1, false))
         == CompileFrom(src, Scan(3, [Instr(RPN_PUSH_NUM, 1)], [OpenParen, Op(RPN_ADD)], 1, true))
  {
    assert PopWhile([Instr(RPN_PUSH_NUM, 1)], [OpenParen], 5, false) == Ok(([Instr(RPN_PUSH_NUM, 1)], [OpenParen]));
    assert [OpenParen] + [Op(RPN_ADD)] == [OpenParen, Op(RPN_ADD)];
    Advance(src, Scan(2, [Instr(RPN_PUSH_NUM, 1)], [OpenParen], 1, false), Scan(3, [Instr(RPN_PUSH_NUM, 1)], [OpenParen, Op(RPN_ADD)], 1, true));
  }

  lemma CloseAfterOperatorStep3(src: seq<char>)
    requires Spells(src, "(1+)")
    ensures CompileFrom(src, Scan(3, [Instr(RPN_PUSH_NUM, 1)], [OpenParen, Op(RPN_ADD)], 1, true)) == Fail(ErrParen)
  {
    Halt(src, Scan(3, [Instr(RPN_PUSH_NUM, 1)], [OpenParen, Op(RPN_ADD)], 1, true));
  }

  lemma CloseAfterOperatorCompiles(src: seq<char>)
    requires Spells(src, "(1+)")
    ensures Compile(src) == Fail(ErrParen)
  {
    CloseAfterOperatorStep0(src);
    CloseAfterOperatorStep1(src);
    CloseAfterOperatorStep2(src);
    CloseAfterOperatorStep3(src);
  }

  /** `)` right after an operator: ErrParen. */
  lemma CloseAfterOperator()
    ensures Compile("(1+)") == Fail(ErrParen)
  {
    CloseAfterOperatorCompiles("(1+)");
  }

  lemma EmptyParensStep0(src: seq<char>)
    requires Spells(src, "()")
    ensures CompileFrom(src, Scan(0, [], [], 0, true))
         == CompileFrom(src, Scan(1, [], [OpenParen], 1, true))
  {
    assert [] + [OpenParen] == [OpenParen];
    Advance(src, Scan(0, [], [], 0, true), Scan(1, [], [OpenParen], 1, true));
  }

  lemma EmptyParensStep1(src: seq<char>)
    requires Spells(src, "()")
    ensures CompileFrom(src, Scan(1, [], [OpenParen], 1, true)) == Fail(ErrParen)
  {
    Halt(src, Scan(1, [], [OpenParen], 1, true));
  }

  lemma EmptyParensCompiles(src: seq<char>)
    requires Spells(src, "()")
    ensures Compile(src) == Fail(ErrParen)
  {
    EmptyParensStep0(src);
    EmptyParensStep1(src);
  }

  /** `)` right after `(`: ErrParen. */
  lemma EmptyParens()
    ensures Compile("()") == Fail(ErrParen)
  {
    EmptyParensCompiles("()");
  }

  lemma UnmatchedCloseStep0(src: seq<char>)
    requires Spells(src, "1+2)")
    ensures CompileFrom(src, Scan(0, [], [], 0, true))
         == CompileFrom(src, Scan(1, [Instr(RPN_PUSH_NUM, 1)], [], 0, false))
  {
    assert DecDigits(src, 1, 1) == (1, 1);
    assert DecDigits(src, 0, 0) == (1, 1);
    assert NumberAt(src, 0) == Ok((1, 1));
    assert [] + [Instr(RPN_PUSH_NUM, 1)] == [Instr(RPN_PUSH_NUM, 1)];
    Advance(src, Scan(0, [], [], 0, true), Scan(1, [Instr(RPN_PUSH_NUM, 1)], [], 0, false));
  }

  lemma UnmatchedCloseStep1(src: seq<char>)
    requires Spells(src, "1+2)")
    ensures CompileFrom(src, Scan(1, [Instr(RPN_PUSH_NUM, 1)], [], 0, false))
         == CompileFrom(src, Scan(2, [Instr(RPN_PUSH_NUM, 1)], [Op(RPN_ADD)], 0, true))
  {
    assert PopWhile([Instr(RPN_PUSH_NUM, 1)], [], 5, false) == Ok(([Instr(RPN_PUSH_NUM, 1)], []));
    assert [] + [Op(RPN_ADD)] == [Op(RPN_ADD)];
    Advance(src, Scan(1, [Instr(RPN_PUSH_NUM, 1)], [], 0, false), Scan(2, [Instr(RPN_PUSH_NUM, 1)], [Op(RPN_ADD)], 0, true));
  }

  lemma UnmatchedCloseStep2(src: seq<char>)
    requires Spells(src, "1+2)")
    ensures CompileFrom(src, Scan(2, [Instr(RPN_PUSH_NUM, 1)], [Op(RPN_ADD)], 0, true))
         == CompileFrom(src, Scan(3, [Instr(RPN_PUSH_NUM, 1), Instr(RPN_PUSH_NUM, 2)], [Op(RPN_ADD)], 0, false))
  {
    assert DecDigits(src, 3, 2) == (3, 2);
    assert DecDigits(src, 2, 0) == (3, 2);
    assert NumberAt(src, 2) == Ok((3, 2));
    assert [Instr(RPN_PUSH_NUM, 1)] + [Instr(RPN_PUSH_NUM, 2)] == [Instr(RPN_PUSH_NUM, 1), Instr(RPN_PUSH_NUM, 2)];
    Advance(src, Scan(2, [Instr(RPN_PUSH_NUM, 1)], [Op(RPN_ADD)], 0, true), Scan(3, [Instr(RPN_PUSH_NUM, 1), Instr(RPN_PUSH_NUM, 2)], [Op(RPN_ADD)], 0, false));
  }

  lemma UnmatchedCloseStep3(src: seq<char>)
    requires Spells(src, "1+2)")
    ensures CompileFrom(src, Scan(3, [Instr(RPN_PUSH_NUM, 1), Instr(RPN_PUSH_NUM, 2)], [Op(RPN_ADD)], 0, false)) == Fail(ErrToken)
  {
    Halt(src, Scan(3, [Instr(RPN_PUSH_NUM, 1), Instr(RPN_PUSH_NUM, 2)], [Op(RPN_ADD)], 0, false));
  }

  lemma UnmatchedCloseCompiles(src: seq<char>)
    requires Spells(src, "1+2)")
    ensures Compile(src) == Fail(ErrToken)
  {
    UnmatchedCloseStep0(src);
    UnmatchedCloseStep1(src);
    UnmatchedCloseStep2(src);
    UnmatchedCloseStep3(src);
  }

  /** `)` with no open parenthesis: ErrToken. */
  lemma UnmatchedClose()
    ensures Compile("1+2)") == Fail(ErrToken)
  {
    UnmatchedCloseCompiles("1+2)");
  }

  lemma TrailingOperatorStep0(src: seq<char>)
    requires Spells(src, "1+")
    ensures CompileFrom(src, Scan(0, [], [], 0, true))
         == CompileFrom(src, Scan(1, [Instr(RPN_PUSH_NUM, 1)], [], 0, false))
  {
    assert DecDigits(src, 1, 1) == (1, 1);
    assert DecDigits(src, 0, 0) == (1, 1);
    assert NumberAt(src, 0) == Ok((1, 1));
    assert [] + [Instr(RPN_PUSH_NUM, 1)] == [Instr(RPN_PUSH_NUM, 1)];
    Advance(src, Scan(0, [], [], 0, true), Scan(1, [Instr(RPN_PUSH_NUM, 1)], [], 0, false));
  }

  lemma TrailingOperatorStep1(src: seq<char>)
    requires Spells(src, "1+")
    ensures CompileFrom(src, Scan(1, [Instr(RPN_PUSH_NUM, 1)], [], 0, false))
         == CompileFrom(src, Scan(2, [Instr(RPN_PUSH_NUM, 1)], [Op(RPN_ADD)], 0, true))
  {
    assert PopWhile([Instr(RPN_PUSH_NUM, 1)], [], 5, false) == Ok(([Instr(RPN_PUSH_NUM, 1)], []));
    assert [] + [Op(RPN_ADD)] == [Op(RPN_ADD)];
    Advance(src, Scan(1, [Instr(RPN_PUSH_NUM, 1)], [], 0, false), Scan(2, [Instr(RPN_PUSH_NUM, 1)], [Op(RPN_ADD)], 0, true));
  }

  lemma TrailingOperatorFinish(src: seq<char>)
    requires Spells(src, "1+")
    ensures CompileFrom(src, Scan(2, [Instr(RPN_PUSH_NUM, 1)], [Op(RPN_ADD)], 0, true)) == Fail(ErrToken)
  {
    Stop(src, Scan(2, [Instr(RPN_PUSH_NUM, 1)], [Op(RPN_ADD)], 0, true));
  }

  lemma TrailingOperatorCompiles(src: seq<char>)
    requires Spells(src, "1+")
    ensures Compile(src) == Fail(ErrToken)
  {
    TrailingOperatorStep0(src);
    TrailingOperatorStep1(src);
    TrailingOperatorFinish(src);
  }

  /** Text ending after an operator: ErrToken. */
  lemma TrailingOperator()
    ensures Compile("1+") == Fail(ErrToken)
  {
    TrailingOperatorCompiles("1+");
  }

  lemma EmptyTextFinish(src: seq<char>)
    requires Spells(src, "")
    ensures CompileFrom(src, Scan(0, [], [], 0, true)) == Fail(ErrToken)
  {
    Stop(src, Scan(0, [], [], 0, true));
  }

  lemma EmptyTextCompiles(src: seq<char>)
    requires Spells(src, "")
    ensures Compile(src) == Fail(ErrToken)
  {
    EmptyTextFinish(src);
  }

  /** Empty text: ErrToken. */
  lemma EmptyText()
    ensures Compile("") == Fail(ErrToken)
  {
    EmptyTextCompiles("");
  }

  lemma DoubleEqualsStep0(src: seq<char>)
    requires Spells(src, "1==1")
    ensures CompileFrom(src, Scan(0, [], [], 0, true))
         == CompileFrom(src, Scan(1, [Instr(RPN_PUSH_NUM, 1)], [], 0, false))
  {
    assert DecDigits(src, 1, 1) == (1, 1);
    assert DecDigits(src, 0, 0) == (1, 1);
    assert NumberAt(src, 0) == Ok((1, 1));
    assert [] + [Instr(RPN_PUSH_NUM, 1)] == [Instr(RPN_PUSH_NUM, 1)];
    Advance(src, Scan(0, [], [], 0, true), Scan(1, [Instr(RPN_PUSH_NUM, 1)], [], 0, false));
  }

  lemma DoubleEqualsStep1(src: seq<char>)
    requires Spells(src, "1==1")
    ensures CompileFrom(src, Scan(1, [Instr(RPN_PUSH_NUM, 1)], [], 0, false))
         == CompileFrom(src, Scan(2, [Instr(RPN_PUSH_NUM, 1)], [Op(RPN_EQ)], 0, true))
  {
    assert PopWhile([Instr(RPN_PUSH_NUM, 1)], [], 2, false) == Ok(([Instr(RPN_PUSH_NUM, 1)], []));
    assert [] + [Op(RPN_EQ)] == [Op(RPN_EQ)];
    Advance(src, Scan(1, [Instr(RPN_PUSH_NUM, 1)], [], 0, false), Scan(2, [Instr(RPN_PUSH_NUM, 1)], [Op(RPN_EQ)], 0, true));
  }

  lemma DoubleEqualsStep2(src: seq<char>)
    requires Spells(src, "1==1")
    ensures CompileFrom(src, Scan(2, [Instr(RPN_PUSH_NUM, 1)], [Op(RPN_EQ)], 0, true)) == Fail(ErrToken)
  {
    Halt(src, Scan(2, [Instr(RPN_PUSH_NUM, 1)], [Op(RPN_EQ)], 0, true));
  }

  lemma DoubleEqualsCompiles(src: seq<char>)
    requires Spells(src, "1==1")
    ensures Compile(src) == Fail(ErrToken)
  {
    DoubleEqualsStep0(src);
    DoubleEqualsStep1(src);
    DoubleEqualsStep2(src);
  }

  /** `==` is not an operator: the second `=` stands where an operand is expected. */
  lemma DoubleEquals()
    ensures Compile("1==1") == Fail(ErrToken)
  {
    DoubleEqualsCompiles("1==1");
  }

  lemma UnknownCharacterStep0(src: seq<char>)
    requires Spells(src, "1#2")
    ensures CompileFrom(src, Scan(0, [], [], 0, true))
         == CompileFrom(src, Scan(1, [Instr(RPN_PUSH_NUM, 1)], [], 0, false))
  {
    assert DecDigits(src, 1, 1) == (1, 1);
    assert DecDigits(src, 0, 0) == (1, 1);
    assert NumberAt(src, 0) == Ok((1, 1));
    assert [] + [Instr(RPN_PUSH_NUM, 1)] == [Instr(RPN_PUSH_NUM, 1)];
    Advance(src, Scan(0, [], [], 0, true), Scan(1, [Instr(RPN_PUSH_NUM, 1)], [], 0, false));
  }

  lemma UnknownCharacterStep1(src: seq<char>)
    requires Spells(src, "1#2")
    ensures CompileFrom(src, Scan(1, [Instr(RPN_PUSH_NUM, 1)], [], 0, false)) == Fail(ErrToken)
  {
    Halt(src, Scan(1, [Instr(RPN_PUSH_NUM, 1)], [], 0, false));
  }

  lemma UnknownCharacterCompiles(src: seq<char>)
    requires Spells(src, "1#2")
    ensures Compile(src) == Fail(ErrToken)
  {
    UnknownCharacterStep0(src);
    UnknownCharacterStep1(src);
  }

  /** An unknown character: ErrToken. */
  lemma UnknownCharacter()
    ensures Compile("1#2") == Fail(ErrToken)
  {
    UnknownCharacterCompiles("1#2");
  }

  lemma HexWithoutDigitsStep0(src: seq<char>)
    requires Spells(src, "0x")
    ensures CompileFrom(src, Scan(0, [], [], 0, true)) == Fail(ErrToken)
  {
    Halt(src, Scan(0, [], [], 0, true));
  }

  lemma HexWithoutDigitsCompiles(src: seq<char>)
    requires Spells(src, "0x")
    ensures Compile(src) == Fail(ErrToken)
  {
    HexWithoutDigitsStep0(src);
  }

  /** `0x` without a hex digit: ErrToken. */
  lemma HexWithoutDigits()
    ensures Compile("0x") == Fail(ErrToken)
  {
    HexWithoutDigitsCompiles("0x");
  }

  lemma BinaryWithoutDigitsStep0(src: seq<char>)
    requires Spells(src, "0b2")
    ensures CompileFrom(src, Scan(0, [], [], 0, true)) == Fail(ErrToken)
  {
    Halt(src, Scan(0, [], [], 0, true));
  }

  lemma BinaryWithoutDigitsCompiles(src: seq<char>)
    requires Spells(src, "0b2")
    ensures Compile(src) == Fail(ErrToken)
  {
    BinaryWithoutDigitsStep0(src);
  }

  /** `0b` without a binary digit: ErrToken. */
  lemma BinaryWithoutDigits()
    ensures Compile("0b2") == Fail(ErrToken)
  {
    BinaryWithoutDigitsCompiles("0b2");
  }

  // ------------------------------------------ grammar and arithmetic edges

  /** The decimal loop over `4294967297`, one digit at a time, wrapping modulo 2^32. */
  lemma DecimalWrapsDigits(src: seq<char>)
    requires Spells(src, "4294967297")
    ensures DecDigits(src, 0, 0) == (10, 1)
  {
    assert DecDigits(src, 10, 1) == (10, 1);
    assert DecDigits(src, 9, 0x19999999) == (10, 1);
    assert DecDigits(src, 8, 0x28f5c28) == (10, 1);
    assert DecDigits(src, 7, 0x418937) == (10, 1);
    assert DecDigits(src, 6, 0x68db8) == (10, 1);
    assert DecDigits(src, 5, 0xa7c5) == (10, 1);
    assert DecDigits(src, 4, 0x10c6) == (10, 1);
    assert DecDigits(src, 3, 0x1ad) == (10, 1);
    assert DecDigits(src, 2, 0x2a) == (10, 1);
    assert DecDigits(src, 1, 4) == (10, 1);
    assert DecDigits(src, 0, 0) == (10, 1);
  }

  lemma DecimalWrapsStep0(src: seq<char>)
    requires Spells(src, "4294967297")
    ensures CompileFrom(src, Scan(0, [], [], 0, true))
         == CompileFrom(src, Scan(10, [Instr(RPN_PUSH_NUM, 1)], [], 0, false))
  {
    DecimalWrapsDigits(src);
    assert NumberAt(src, 0) == Ok((10, 1));
    assert [] + [Instr(RPN_PUSH_NUM, 1)] == [Instr(RPN_PUSH_NUM, 1)];
    Advance(src, Scan(0, [], [], 0, true), Scan(10, [Instr(RPN_PUSH_NUM, 1)], [], 0, false));
  }

  lemma DecimalWrapsFinish(src: seq<char>)
    requires Spells(src, "4294967297")
    ensures CompileFrom(src, Scan(10, [Instr(RPN_PUSH_NUM, 1)], [], 0, false)) == Ok([Instr(RPN_PUSH_NUM, 1)])
  {
    Stop(src, Scan(10, [Instr(RPN_PUSH_NUM, 1)], [], 0, false));
    assert PopAll([Instr(RPN_PUSH_NUM, 1)], []) == Ok([Instr(RPN_PUSH_NUM, 1)]);
  }

  lemma DecimalWrapsCompiles(src: seq<char>)
    requires Spells(src, "4294967297")
    ensures Compile(src) == Ok([Instr(RPN_PUSH_NUM, 1)])
  {
    DecimalWrapsStep0(src);
    DecimalWrapsFinish(src);
  }

  lemma DecimalWrapsTree()
    ensures Emit(Const(1)) == [Instr(RPN_PUSH_NUM, 1)]
  {
  }

  lemma DecimalWrapsValue(ws: WideShifts)
    ensures Denote(Const(1), 0, ws) == 1
  {
  }

  /** Decimal literals wrap modulo 2^32. */
  lemma DecimalWraps(ws: WideShifts)
    ensures Compile("4294967297") == Ok(Emit(Const(1)))
    ensures Evaluate(Emit(Const(1)), 0, ws) == 1
  {
    DecimalWrapsCompiles("4294967297");
    DecimalWrapsTree();
    EmitEvaluates(Const(1), 0, ws);
    DecimalWrapsValue(ws);
  }

  lemma UnaryMinusStep0(src: seq<char>)
    requires Spells(src, "-5")
    ensures CompileFrom(src, Scan(0, [], [], 0, true))
         == CompileFrom(src, Scan(1, [], [Op(RPN_NEG)], 0, true))
  {
    assert PopWhile([], [], 7, true) == Ok(([], []));
    assert [] + [Op(RPN_NEG)] == [Op(RPN_NEG)];
    Advance(src, Scan(0, [], [], 0, true), Scan(1, [], [Op(RPN_NEG)], 0, true));
  }

  lemma UnaryMinusStep1(src: seq<char>)
    requires Spells(src, "-5")
    ensures CompileFrom(src, Scan(1, [], [Op(RPN_NEG)], 0, true))
         == CompileFrom(src, Scan(2, [Instr(RPN_PUSH_NUM, 5)], [Op(RPN_NEG)], 0, false))
  {
    assert DecDigits(src, 2, 5) == (2, 5);
    assert DecDigits(src, 1, 0) == (2, 5);
    assert NumberAt(src, 1) == Ok((2, 5));
    assert [] + [Instr(RPN_PUSH_NUM, 5)] == [Instr(RPN_PUSH_NUM, 5)];
    Advance(src, Scan(1, [], [Op(RPN_NEG)], 0, true), Scan(2, [Instr(RPN_PUSH_NUM, 5)], [Op(RPN_NEG)], 0, false));
  }

  lemma UnaryMinusFinish(src: seq<char>)
    requires Spells(src, "-5")
    ensures CompileFrom(src, Scan(2, [Instr(RPN_PUSH_NUM, 5)], [Op(RPN_NEG)], 0, false)) == Ok([Instr(RPN_PUSH_NUM, 5), Instr(RPN_NEG, 0)])
  {
    Stop(src, Scan(2, [Instr(RPN_PUSH_NUM, 5)], [Op(RPN_NEG)], 0, false));
    assert [Op(RPN_NEG)][..0] == [];
    assert [Instr(RPN_PUSH_NUM, 5)] + [Instr(RPN_NEG, 0)] == [Instr(RPN_PUSH_NUM, 5), Instr(RPN_NEG, 0)];
    assert EmitTop([Instr(RPN_PUSH_NUM, 5)], [Op(RPN_NEG)]) == Ok([Instr(RPN_PUSH_NUM, 5), Instr(RPN_NEG, 0)]);
    assert PopAll([Instr(RPN_PUSH_NUM, 5), Instr(RPN_NEG, 0)], []) == Ok([Instr(RPN_PUSH_NUM, 5), Instr(RPN_NEG, 0)]);
    assert PopAll([Instr(RPN_PUSH_NUM, 5)], [Op(RPN_NEG)]) == Ok([Instr(RPN_PUSH_NUM, 5), Instr(RPN_NEG, 0)]);
  }

  lemma UnaryMinusCompiles(src: seq<char>)
    requires Spells(src, "-5")
    ensures Compile(src) == Ok([Instr(RPN_PUSH_NUM, 5), Instr(RPN_NEG, 0)])
  {
    UnaryMinusStep0(src);
    UnaryMinusStep1(src);
    UnaryMinusFinish(src);
  }

  lemma UnaryMinusTree()
    ensures Emit(Unary(RPN_NEG, Const(5))) == [Instr(RPN_PUSH_NUM, 5), Instr(RPN_NEG, 0)]
  {
  }

  lemma UnaryMinusValue(ws: WideShifts)
    ensures Denote(Unary(RPN_NEG, Const(5)), 0, ws) == 0xfffffffb
  {
    assert Denote(Unary(RPN_NEG, Const(5)), 0, ws) == 0xfffffffb;
  }

  /** Unary minus is two's complement negation. */
  lemma UnaryMinus(ws: WideShifts)
    ensures Compile("-5") == Ok(Emit(Unary(RPN_NEG, Const(5))))
    ensures Evaluate(Emit(Unary(RPN_NEG, Const(5))), 0, ws) == 0xfffffffb
  {
    UnaryMinusCompiles("-5");
    UnaryMinusTree();
    EmitEvaluates(Unary(RPN_NEG, Const(5)), 0, ws);
    UnaryMinusValue(ws);
  }

  lemma DoubleNegationStep0(src: seq<char>)
    requires Spells(src, "--t")
    ensures CompileFrom(src, Scan(0, [], [], 0, true))
         == CompileFrom(src, Scan(1, [], [Op(RPN_NEG)], 0, true))
  {
    assert PopWhile([], [], 7, true) == Ok(([], []));
    assert [] + [Op(RPN_NEG)] == [Op(RPN_NEG)];
    Advance(src, Scan(0, [], [], 0, true), Scan(1, [], [Op(RPN_NEG)], 0, true));
  }

  lemma DoubleNegationStep1(src: seq<char>)
    requires Spells(src, "--t")
    ensures CompileFrom(src, Scan(1, [], [Op(RPN_NEG)], 0, true))
         == CompileFrom(src, Scan(2, [], [Op(RPN_NEG), Op(RPN_NEG)], 0, true))
  {
    assert PopWhile([], [Op(RPN_NEG)], 7, true) == Ok(([], [Op(RPN_NEG)]));
    assert [Op(RPN_NEG)] + [Op(RPN_NEG)] == [Op(RPN_NEG), Op(RPN_NEG)];
    Advance(src, Scan(1, [], [Op(RPN_NEG)], 0, true), Scan(2, [], [Op(RPN_NEG), Op(RPN_NEG)], 0, true));
  }

  lemma DoubleNegationStep2(src: seq<char>)
    requires Spells(src, "--t")
    ensures CompileFrom(src, Scan(2, [], [Op(RPN_NEG), Op(RPN_NEG)], 0, true))
         == CompileFrom(src, Scan(3, [Instr(RPN_PUSH_T, 0)], [Op(RPN_NEG), Op(RPN_NEG)], 0, false))
  {
    assert [] + [Instr(RPN_PUSH_T, 0)] == [Instr(RPN_PUSH_T, 0)];
    Advance(src, Scan(2, [], [Op(RPN_NEG), Op(RPN_NEG)], 0, true), Scan(3, [Instr(RPN_PUSH_T, 0)], [Op(RPN_NEG), Op(RPN_NEG)], 0, false));
  }

  lemma DoubleNegationFinish(src: seq<char>)
    requires Spells(src, "--t")
    ensures CompileFrom(src, Scan(3, [Instr(RPN_PUSH_T, 0)], [Op(RPN_NEG), Op(RPN_NEG)], 0, false)) == Ok([Instr(RPN_PUSH_T, 0), Instr(RPN_NEG, 0), Instr(RPN_NEG, 0)])
  {
    Stop(src, Scan(3, [Instr(RPN_PUSH_T, 0)], [Op(RPN_NEG), Op(RPN_NEG)], 0, false));
    assert [Op(RPN_NEG), Op(RPN_NEG)][..1] == [Op(RPN_NEG)];
    assert [Instr(RPN_PUSH_T, 0)] + [Instr(RPN_NEG, 0)] == [Instr(RPN_PUSH_T, 0), Instr(RPN_NEG, 0)];
    assert EmitTop([Instr(RPN_PUSH_T, 0)], [Op(RPN_NEG), Op(RPN_NEG)]) == Ok([Instr(RPN_PUSH_T, 0), Instr(RPN_NEG, 0)]);
    assert [Op(RPN_NEG)][..0] == [];
    assert [Instr(RPN_PUSH_T, 0), Instr(RPN_NEG, 0)] + [Instr(RPN_NEG, 0)] == [Instr(RPN_PUSH_T, 0), Instr(RPN_NEG, 0), Instr(RPN_NEG, 0)];
    assert EmitTop([Instr(RPN_PUSH_T, 0), Instr(RPN_NEG, 0)], [Op(RPN_NEG)]) == Ok([Instr(RPN_PUSH_T, 0), Instr(RPN_NEG, 0), Instr(RPN_NEG, 0)]);
    assert PopAll([Instr(RPN_PUSH_T, 0), Instr(RPN_NEG, 0), Instr(RPN_NEG, 0)], []) == Ok([Instr(RPN_PUSH_T, 0), Instr(RPN_NEG, 0), Instr(RPN_NEG, 0)]);
    assert PopAll([Instr(RPN_PUSH_T, 0), Instr(RPN_NEG, 0)], [Op(RPN_NEG)]) == Ok([Instr(RPN_PUSH_T, 0), Instr(RPN_NEG, 0), Instr(RPN_NEG, 0)]);
    assert PopAll([Instr(RPN_PUSH_T, 0)], [Op(RPN_NEG), Op(RPN_NEG)]) == Ok([Instr(RPN_PUSH_T, 0), Instr(RPN_NEG, 0), Instr(RPN_NEG, 0)]);
  }

  lemma DoubleNegationCompiles(src: seq<char>)
    requires Spells(src, "--t")
    ensures Compile(src) == Ok([Instr(RPN_PUSH_T, 0), Instr(RPN_NEG, 0), Instr(RPN_NEG, 0)])
  {
    DoubleNegationStep0(src);
    DoubleNegationStep1(src);
    DoubleNegationStep2(src);
    DoubleNegationFinish(src);
  }

  lemma DoubleNegationTree()
    ensures Emit(Unary(RPN_NEG, Unary(RPN_NEG, TVar))) == [Instr(RPN_PUSH_T, 0), Instr(RPN_NEG, 0), Instr(RPN_NEG, 0)]
  {
  }

  lemma DoubleNegationValue(t: bv32, ws: WideShifts)
    ensures Denote(Unary(RPN_NEG, Unary(RPN_NEG, TVar)), t, ws) == t
  {
    assert Denote(Unary(RPN_NEG, TVar), t, ws) == (0 - t);
  }

  /** Unary operators nest: `--t` is t. */
  lemma DoubleNegation(ws: WideShifts)
    ensures Compile("--t") == Ok(Emit(Unary(RPN_NEG, Unary(RPN_NEG, TVar))))
    ensures forall t :: Evaluate(Emit(Unary(RPN_NEG, Unary(RPN_NEG, TVar))), t, ws) == t
  {
    DoubleNegationCompiles("--t");
    DoubleNegationTree();
    forall t
      ensures Evaluate(Emit(Unary(RPN_NEG, Unary(RPN_NEG, TVar))), t, ws) == t
    {
      EmitEvaluates(Unary(RPN_NEG, Unary(RPN_NEG, TVar)), t, ws);
      DoubleNegationValue(t, ws);
    }
  }

  lemma NotZeroStep0(src: seq<char>)
    requires Spells(src, "~0")
    ensures CompileFrom(src, Scan(0, [], [], 0, true))
         == CompileFrom(src, Scan(1, [], [Op(RPN_NOT)], 0, true))
  {
    assert PopWhile([], [], 7, true) == Ok(([], []));
    assert [] + [Op(RPN_NOT)] == [Op(RPN_NOT)];
    Advance(src, Scan(0, [], [], 0, true), Scan(1, [], [Op(RPN_NOT)], 0, true));
  }

  lemma NotZeroStep1(src: seq<char>)
    requires Spells(src, "~0")
    ensures CompileFrom(src, Scan(1, [], [Op(RPN_NOT)], 0, true))
         == CompileFrom(src, Scan(2, [Instr(RPN_PUSH_NUM, 0)], [Op(RPN_NOT)], 0, false))
  {
    assert DecDigits(src, 2, 0) == (2, 0);
    assert DecDigits(src, 1, 0) == (2, 0);
    assert NumberAt(src, 1) == Ok((2, 0));
    assert [] + [Instr(RPN_PUSH_NUM, 0)] == [Instr(RPN_PUSH_NUM, 0)];
    Advance(src, Scan(1, [], [Op(RPN_NOT)], 0, true), Scan(2, [Instr(RPN_PUSH_NUM, 0)], [Op(RPN_NOT)], 0, false));
  }

  lemma NotZeroFinish(src: seq<char>)
    requires Spells(src, "~0")
    ensures CompileFrom(src, Scan(2, [Instr(RPN_PUSH_NUM, 0)], [Op(RPN_NOT)], 0, false)) == Ok([Instr(RPN_PUSH_NUM, 0), Instr(RPN_NOT, 0)])
  {
    Stop(src, Scan(2, [Instr(RPN_PUSH_NUM, 0)], [Op(RPN_NOT)], 0, false));
    assert [Op(RPN_NOT)][..0] == [];
    assert [Instr(RPN_PUSH_NUM, 0)] + [Instr(RPN_NOT, 0)] == [Instr(RPN_PUSH_NUM, 0), Instr(RPN_NOT, 0)];
    assert EmitTop([Instr(RPN_PUSH_NUM, 0)], [Op(RPN_NOT)]) == Ok([Instr(RPN_PUSH_NUM, 0), Instr(RPN_NOT, 0)]);
    assert PopAll([Instr(RPN_PUSH_NUM, 0), Instr(RPN_NOT, 0)], []) == Ok([Instr(RPN_PUSH_NUM, 0), Instr(RPN_NOT, 0)]);
    assert PopAll([Instr(RPN_PUSH_NUM, 0)], [Op(RPN_NOT)]) == Ok([Instr(RPN_PUSH_NUM, 0), Instr(RPN_NOT, 0)]);
  }

  lemma NotZeroCompiles(src: seq<char>)
    requires Spells(src, "~0")
    ensures Compile(src) == Ok([Instr(RPN_PUSH_NUM, 0), Instr(RPN_NOT, 0)])
  {
    NotZeroStep0(src);
    NotZeroStep1(src);
    NotZeroFinish(src);
  }

  lemma NotZeroTree()
    ensures Emit(Unary(RPN_NOT, Const(0))) == [Instr(RPN_PUSH_NUM, 0), Instr(RPN_NOT, 0)]
  {
  }

  lemma NotZeroValue(ws: WideShifts)
    ensures Denote(Unary(RPN_NOT, Const(0)), 0, ws) == 0xffffffff
  {
    assert Denote(Unary(RPN_NOT, Const(0)), 0, ws) == 0xffffffff;
  }

  /** `~0` is all ones. */
  lemma NotZero(ws: WideShifts)
    ensures Compile("~0") == Ok(Emit(Unary(RPN_NOT, Const(0))))
    ensures Evaluate(Emit(Unary(RPN_NOT, Const(0))), 0, ws) == 0xffffffff
  {
    NotZeroCompiles("~0");
    NotZeroTree();
    EmitEvaluates(Unary(RPN_NOT, Const(0)), 0, ws);
    NotZeroValue(ws);
  }

  lemma UnaryPlusSkippedStep0(src: seq<char>)
    requires Spells(src, "+t")
    ensures CompileFrom(src, Scan(0, [], [], 0, true))
         == CompileFrom(src, Scan(1, [], [], 0, true))
  {
    Advance(src, Scan(0, [], [], 0, true), Scan(1, [], [], 0, true));
  }

  lemma UnaryPlusSkippedStep1(src: seq<char>)
    requires Spells(src, "+t")
    ensures CompileFrom(src, Scan(1, [], [], 0, true))
         == CompileFrom(src, Scan(2, [Instr(RPN_PUSH_T, 0)], [], 0, false))
  {
    assert [] + [Instr(RPN_PUSH_T, 0)] == [Instr(RPN_PUSH_T, 0)];
    Advance(src, Scan(1, [], [], 0, true), Scan(2, [Instr(RPN_PUSH_T, 0)], [], 0, false));
  }

  lemma UnaryPlusSkippedFinish(src: seq<char>)
    requires Spells(src, "+t")
    ensures CompileFrom(src, Scan(2, [Instr(RPN_PUSH_T, 0)], [], 0, false)) == Ok([Instr(RPN_PUSH_T, 0)])
  {
    Stop(src, Scan(2, [Instr(RPN_PUSH_T, 0)], [], 0, false));
    assert PopAll([Instr(RPN_PUSH_T, 0)], []) == Ok([Instr(RPN_PUSH_T, 0)]);
  }

  lemma UnaryPlusSkippedCompiles(src: seq<char>)
    requires Spells(src, "+t")
    ensures Compile(src) == Ok([Instr(RPN_PUSH_T, 0)])
  {
    UnaryPlusSkippedStep0(src);
    UnaryPlusSkippedStep1(src);
    UnaryPlusSkippedFinish(src);
  }

  lemma UnaryPlusSkippedTree()
    ensures Emit(TVar) == [Instr(RPN_PUSH_T, 0)]
  {
  }

  lemma UnaryPlusSkippedValue(t: bv32, ws: WideShifts)
    ensures Denote(TVar, t, ws) == t
  {
  }

  /** A leading `+` emits nothing. */
  lemma UnaryPlusSkipped(ws: WideShifts)
    ensures Compile("+t") == Ok(Emit(TVar))
    ensures forall t :: Evaluate(Emit(TVar), t, ws) == t
  {
    UnaryPlusSkippedCompiles("+t");
    UnaryPlusSkippedTree();
    forall t
      ensures Evaluate(Emit(TVar), t, ws) == t
    {
      EmitEvaluates(TVar, t, ws);
      UnaryPlusSkippedValue(t, ws);
    }
  }

  lemma NegBindsTighterStep0(src: seq<char>)
    requires Spells(src, "-t*2")
    ensures CompileFrom(src, Scan(0, [], [], 0, true))
         == CompileFrom(src, Scan(1, [], [Op(RPN_NEG)], 0, true))
  {
    assert PopWhile([], [], 7, true) == Ok(([], []));
    assert [] + [Op(RPN_NEG)] == [Op(RPN_NEG)];
    Advance(src, Scan(0, [], [], 0, true), Scan(1, [], [Op(RPN_NEG)], 0, true));
  }

  lemma NegBindsTighterStep1(src: seq<char>)
    requires Spells(src, "-t*2")
    ensures CompileFrom(src, Scan(1, [], [Op(RPN_NEG)], 0, true))
         == CompileFrom(src, Scan(2, [Instr(RPN_PUSH_T, 0)], [Op(RPN_NEG)], 0, false))
  {
    assert [] + [Instr(RPN_PUSH_T, 0)] == [Instr(RPN_PUSH_T, 0)];
    Advance(src, Scan(1, [], [Op(RPN_NEG)], 0, true), Scan(2, [Instr(RPN_PUSH_T, 0)], [Op(RPN_NEG)], 0, false));
  }

  lemma NegBindsTighterStep2(src: seq<char>)
    requires Spells(src, "-t*2")
    ensures CompileFrom(src, Scan(2, [Instr(RPN_PUSH_T, 0)], [Op(RPN_NEG)], 0, false))
         == CompileFrom(src, Scan(3, [Instr(RPN_PUSH_T, 0), Instr(RPN_NEG, 0)], [Op(RPN_MUL)], 0, true))
  {
    assert [Op(RPN_NEG)][..0] == [];
    assert [Instr(RPN_PUSH_T, 0)] + [Instr(RPN_NEG, 0)] == [Instr(RPN_PUSH_T, 0), Instr(RPN_NEG, 0)];
    assert EmitTop([Instr(RPN_PUSH_T, 0)], [Op(RPN_NEG)]) == Ok([Instr(RPN_PUSH_T, 0), Instr(RPN_NEG, 0)]);
    assert PopWhile([Instr(RPN_PUSH_T, 0), Instr(RPN_NEG, 0)], [], 6, false) == Ok(([Instr(RPN_PUSH_T, 0), Instr(RPN_NEG, 0)], []));
    assert PopWhile([Instr(RPN_PUSH_T, 0)], [Op(RPN_NEG)], 6, false) == Ok(([Instr(RPN_PUSH_T, 0), Instr(RPN_NEG, 0)], []));
    assert [Op(RPN_NEG)][..0] == [];
    assert [] + [Op(RPN_MUL)] == [Op(RPN_MUL)];
    assert [Instr(RPN_PUSH_T, 0)] + [Instr(RPN_NEG, 0)] == [Instr(RPN_PUSH_T, 0), Instr(RPN_NEG, 0)];
    Advance(src, Scan(2, [Instr(RPN_PUSH_T, 0)], [Op(RPN_NEG)], 0, false), Scan(3, [Instr(RPN_PUSH_T, 0), Instr(RPN_NEG, 0)], [Op(RPN_MUL)], 0, true));
  }

  lemma NegBindsTighterStep3(src: seq<char>)
    requires Spells(src, "-t*2")
    ensures CompileFrom(src, Scan(3, [Instr(RPN_PUSH_T, 0), Instr(RPN_NEG, 0)], [Op(RPN_MUL)], 0, true))
         == CompileFrom(src, Scan(4, [Instr(RPN_PUSH_T, 0), Instr(RPN_NEG, 0), Instr(RPN_PUSH_NUM, 2)], [Op(RPN_MUL)], 0, false))
  {
    assert DecDigits(src, 4, 2) == (4, 2);
    assert DecDigits(src, 3, 0) == (4, 2);
    assert NumberAt(src, 3) == Ok((4, 2));
    assert [Instr(RPN_PUSH_T, 0), Instr(RPN_NEG, 0)] + [Instr(RPN_PUSH_NUM, 2)] == [Instr(RPN_PUSH_T, 0), Instr(RPN_NEG, 0), Instr(RPN_PUSH_NUM, 2)];
    Advance(src, Scan(3, [Instr(RPN_PUSH_T, 0), Instr(RPN_NEG, 0)], [Op(RPN_MUL)], 0, true), Scan(4, [Instr(RPN_PUSH_T, 0), Instr(RPN_NEG, 0), Instr(RPN_PUSH_NUM, 2)], [Op(RPN_MUL)], 0, false));
  }

  lemma NegBindsTighterFinish(src: seq<char>)
    requires Spells(src, "-t*2")
    ensures CompileFrom(src, Scan(4, [Instr(RPN_PUSH_T, 0), Instr(RPN_NEG, 0), Instr(RPN_PUSH_NUM, 2)], [Op(RPN_MUL)], 0, false)) == Ok([Instr(RPN_PUSH_T, 0), Instr(RPN_NEG, 0), Instr(RPN_PUSH_NUM, 2), Instr(RPN_MUL, 0)])
  {
    Stop(src, Scan(4, [Instr(RPN_PUSH_T, 0), Instr(RPN_NEG, 0), Instr(RPN_PUSH_NUM, 2)], [Op(RPN_MUL)], 0, false));
    assert [Op(RPN_MUL)][..0] == [];
    assert [Instr(RPN_PUSH_T, 0), Instr(RPN_NEG, 0), Instr(RPN_PUSH_NUM, 2)] + [Instr(RPN_MUL, 0)] == [Instr(RPN_PUSH_T, 0), Instr(RPN_NEG, 0), Instr(RPN_PUSH_NUM, 2), Instr(RPN_MUL, 0)];
    assert EmitTop([Instr(RPN_PUSH_T, 0), Instr(RPN_NEG, 0), Instr(RPN_PUSH_NUM, 2)], [Op(RPN_MUL)]) == Ok([Instr(RPN_PUSH_T, 0), Instr(RPN_NEG, 0), Instr(RPN_PUSH_NUM, 2), Instr(RPN_MUL, 0)]);
    assert PopAll([Instr(RPN_PUSH_T, 0), Instr(RPN_NEG, 0), Instr(RPN_PUSH_NUM, 2), Instr(RPN_MUL, 0)], []) == Ok([Instr(RPN_PUSH_T, 0), Instr(RPN_NEG, 0), Instr(RPN_PUSH_NUM, 2), Instr(RPN_MUL, 0)]);
    assert PopAll([Instr(RPN_PUSH_T, 0), Instr(RPN_NEG, 0), Instr(RPN_PUSH_NUM, 2)], [Op(RPN_MUL)]) == Ok([Instr(RPN_PUSH_T, 0), Instr(RPN_NEG, 0), Instr(RPN_PUSH_NUM, 2), Instr(RPN_MUL, 0)]);
  }

  lemma NegBindsTighterCompiles(src: seq<char>)
    requires Spells(src, "-t*2")
    ensures Compile(src) == Ok([Instr(RPN_PUSH_T, 0), Instr(RPN_NEG, 0), Instr(RPN_PUSH_NUM, 2), Instr(RPN_MUL, 0)])
  {
    NegBindsTighterStep0(src);
    NegBindsTighterStep1(src);
    NegBindsTighterStep2(src);
    NegBindsTighterStep3(src);
    NegBindsTighterFinish(src);
  }

  lemma NegBindsTighterTree()
    ensures Emit(Binary(RPN_MUL, Unary(RPN_NEG, TVar), Const(2))) == [Instr(RPN_PUSH_T, 0), Instr(RPN_NEG, 0), Instr(RPN_PUSH_NUM, 2), Instr(RPN_MUL, 0)]
  {
  }

  /** Unary minus binds tighter than `*`. */
  lemma NegBindsTighter(ws: WideShifts)
    ensures Compile("-t*2") == Ok(Emit(Binary(RPN_MUL, Unary(RPN_NEG, TVar), Const(2))))
    ensures forall t :: Evaluate(Emit(Binary(RPN_MUL, Unary(RPN_NEG, TVar), Const(2))), t, ws) == Denote(Binary(RPN_MUL, Unary(RPN_NEG, TVar), Const(2)), t, ws)
  {
    NegBindsTighterCompiles("-t*2");
    NegBindsTighterTree();
    forall t
      ensures Evaluate(Emit(Binary(RPN_MUL, Unary(RPN_NEG, TVar), Const(2))), t, ws) == Denote(Binary(RPN_MUL, Unary(RPN_NEG, TVar), Const(2)), t, ws)
    {
      EmitEvaluates(Binary(RPN_MUL, Unary(RPN_NEG, TVar), Const(2)), t, ws);
    }
  }

  lemma SubtractionOrderStep0(src: seq<char>)
    requires Spells(src, "2-5")
    ensures CompileFrom(src, Scan(0, [], [], 0, true))
         == CompileFrom(src, Scan(1, [Instr(RPN_PUSH_NUM, 2)], [], 0, false))
  {
    assert DecDigits(src, 1, 2) == (1, 2);
    assert DecDigits(src, 0, 0) == (1, 2);
    assert NumberAt(src, 0) == Ok((1, 2));
    assert [] + [Instr(RPN_PUSH_NUM, 2)] == [Instr(RPN_PUSH_NUM, 2)];
    Advance(src, Scan(0, [], [], 0, true), Scan(1, [Instr(RPN_PUSH_NUM, 2)], [], 0, false));
  }

  lemma SubtractionOrderStep1(src: seq<char>)
    requires Spells(src, "2-5")
    ensures CompileFrom(src, Scan(1, [Instr(RPN_PUSH_NUM, 2)], [], 0, false))
         == CompileFrom(src, Scan(2, [Instr(RPN_PUSH_NUM, 2)], [Op(RPN_SUB)], 0, true))
  {
    assert PopWhile([Instr(RPN_PUSH_NUM, 2)], [], 5, false) == Ok(([Instr(RPN_PUSH_NUM, 2)], []));
    assert [] + [Op(RPN_SUB)] == [Op(RPN_SUB)];
    Advance(src, Scan(1, [Instr(RPN_PUSH_NUM, 2)], [], 0, false), Scan(2, [Instr(RPN_PUSH_NUM, 2)], [Op(RPN_SUB)], 0, true));
  }

  lemma SubtractionOrderStep2(src: seq<char>)
    requires Spells(src, "2-5")
    ensures CompileFrom(src, Scan(2, [Instr(RPN_PUSH_NUM, 2)], [Op(RPN_SUB)], 0, true))
         == CompileFrom(src, Scan(3, [Instr(RPN_PUSH_NUM, 2), Instr(RPN_PUSH_NUM, 5)], [Op(RPN_SUB)], 0, false))
  {
    assert DecDigits(src, 3, 5) == (3, 5);
    assert DecDigits(src, 2, 0) == (3, 5);
    assert NumberAt(src, 2) == Ok((3, 5));
    assert [Instr(RPN_PUSH_NUM, 2)] + [Instr(RPN_PUSH_NUM, 5)] == [Instr(RPN_PUSH_NUM, 2), Instr(RPN_PUSH_NUM, 5)];
    Advance(src, Scan(2, [Instr(RPN_PUSH_NUM, 2)], [Op(RPN_SUB)], 0, true), Scan(3, [Instr(RPN_PUSH_NUM, 2), Instr(RPN_PUSH_NUM, 5)], [Op(RPN_SUB)], 0, false));
  }

  lemma SubtractionOrderFinish(src: seq<char>)
    requires Spells(src, "2-5")
    ensures CompileFrom(src, Scan(3, [Instr(RPN_PUSH_NUM, 2), Instr(RPN_PUSH_NUM, 5)], [Op(RPN_SUB)], 0, false)) == Ok([Instr(RPN_PUSH_NUM, 2), Instr(RPN_PUSH_NUM, 5), Instr(RPN_SUB, 0)])
  {
    Stop(src, Scan(3, [Instr(RPN_PUSH_NUM, 2), Instr(RPN_PUSH_NUM, 5)], [Op(RPN_SUB)], 0, false));
    assert [Op(RPN_SUB)][..0] == [];
    assert [Instr(RPN_PUSH_NUM, 2), Instr(RPN_PUSH_NUM, 5)] + [Instr(RPN_SUB, 0)] == [Instr(RPN_PUSH_NUM, 2), Instr(RPN_PUSH_NUM, 5), Instr(RPN_SUB, 0)];
    assert EmitTop([Instr(RPN_PUSH_NUM, 2), Instr(RPN_PUSH_NUM, 5)], [Op(RPN_SUB)]) == Ok([Instr(RPN_PUSH_NUM, 2), Instr(RPN_PUSH_NUM, 5), Instr(RPN_SUB, 0)]);
    assert PopAll([Instr(RPN_PUSH_NUM, 2), Instr(RPN_PUSH_NUM, 5), Instr(RPN_SUB, 0)], []) == Ok([Instr(RPN_PUSH_NUM, 2), Instr(RPN_PUSH_NUM, 5), Instr(RPN_SUB, 0)]);
    assert PopAll([Instr(RPN_PUSH_NUM, 2), Instr(RPN_PUSH_NUM, 5)], [Op(RPN_SUB)]) == Ok([Instr(RPN_PUSH_NUM, 2), Instr(RPN_PUSH_NUM, 5), Instr(RPN_SUB, 0)]);
  }

  lemma SubtractionOrderCompiles(src: seq<char>)
    requires Spells(src, "2-5")
    ensures Compile(src) == Ok([Instr(RPN_PUSH_NUM, 2), Instr(RPN_PUSH_NUM, 5), Instr(RPN_SUB, 0)])
  {
    SubtractionOrderStep0(src);
    SubtractionOrderStep1(src);
    SubtractionOrderStep2(src);
    SubtractionOrderFinish(src);
  }

  lemma SubtractionOrderTree()
    ensures Emit(Binary(RPN_SUB, Const(2), Const(5))) == [Instr(RPN_PUSH_NUM, 2), Instr(RPN_PUSH_NUM, 5), Instr(RPN_SUB, 0)]
  {
  }

  lemma SubtractionOrderValue(ws: WideShifts)
    ensures Denote(Binary(RPN_SUB, Const(2), Const(5)), 0, ws) == 0xfffffffd
  {
    assert Denote(Binary(RPN_SUB, Const(2), Const(5)), 0, ws) == 0xfffffffd;
  }

  /** The left operand is the one pushed first: `2-5` wraps to 2^32 - 3. */
  lemma SubtractionOrder(ws: WideShifts)
    ensures Compile("2-5") == Ok(Emit(Binary(RPN_SUB, Const(2), Const(5))))
    ensures Evaluate(Emit(Binary(RPN_SUB, Const(2), Const(5))), 0, ws) == 0xfffffffd
  {
    SubtractionOrderCompiles("2-5");
    SubtractionOrderTree();
    EmitEvaluates(Binary(RPN_SUB, Const(2), Const(5)), 0, ws);
    SubtractionOrderValue(ws);
  }

  lemma ShiftOrderStep0(src: seq<char>)
    requires Spells(src, "t>>4<<2")
    ensures CompileFrom(src, Scan(0, [], [], 0, true))
         == CompileFrom(src, Scan(1, [Instr(RPN_PUSH_T, 0)], [], 0, false))
  {
    assert [] + [Instr(RPN_PUSH_T, 0)] == [Instr(RPN_PUSH_T, 0)];
    Advance(src, Scan(0, [], [], 0, true), Scan(1, [Instr(RPN_PUSH_T, 0)], [], 0, false));
  }

  lemma ShiftOrderStep1(src: seq<char>)
    requires Spells(src, "t>>4<<2")
    ensures CompileFrom(src, Scan(1, [Instr(RPN_PUSH_T, 0)], [], 0, false))
         == CompileFrom(src, Scan(3, [Instr(RPN_PUSH_T, 0)], [Op(RPN_SHR)], 0, true))
  {
    assert PopWhile([Instr(RPN_PUSH_T, 0)], [], 4, false) == Ok(([Instr(RPN_PUSH_T, 0)], []));
    assert [] + [Op(RPN_SHR)] == [Op(RPN_SHR)];
    Advance(src, Scan(1, [Instr(RPN_PUSH_T, 0)], [], 0, false), Scan(3, [Instr(RPN_PUSH_T, 0)], [Op(RPN_SHR)], 0, true));
  }

  lemma ShiftOrderStep2(src: seq<char>)
    requires Spells(src, "t>>4<<2")
    ensures CompileFrom(src, Scan(3, [Instr(RPN_PUSH_T, 0)], [Op(RPN_SHR)], 0, true))
         == CompileFrom(src, Scan(4, [Instr(RPN_PUSH_T, 0), Instr(RPN_PUSH_NUM, 4)], [Op(RPN_SHR)], 0, false))
  {
    assert DecDigits(src, 4, 4) == (4, 4);
    assert DecDigits(src, 3, 0) == (4, 4);
    assert NumberAt(src, 3) == Ok((4, 4));
    assert [Instr(RPN_PUSH_T, 0)] + [Instr(RPN_PUSH_NUM, 4)] == [Instr(RPN_PUSH_T, 0), Instr(RPN_PUSH_NUM, 4)];
    Advance(src, Scan(3, [Instr(RPN_PUSH_T, 0)], [Op(RPN_SHR)], 0, true), Scan(4, [Instr(RPN_PUSH_T, 0), Instr(RPN_PUSH_NUM, 4)], [Op(RPN_SHR)], 0, false));
  }

  lemma ShiftOrderStep3(src: seq<char>)
    requires Spells(src, "t>>4<<2")
    ensures CompileFrom(src, Scan(4, [Instr(RPN_PUSH_T, 0), Instr(RPN_PUSH_NUM, 4)], [Op(RPN_SHR)], 0, false))
         == CompileFrom(src, Scan(6, [Instr(RPN_PUSH_T, 0), Instr(RPN_PUSH_NUM, 4), Instr(RPN_SHR, 0)], [Op(RPN_SHL)], 0, true))
  {
    assert [Op(RPN_SHR)][..0] == [];
    assert [Instr(RPN_PUSH_T, 0), Instr(RPN_PUSH_NUM, 4)] + [Instr(RPN_SHR, 0)] == [Instr(RPN_PUSH_T, 0), Instr(RPN_PUSH_NUM, 4), Instr(RPN_SHR, 0)];
    assert EmitTop([Instr(RPN_PUSH_T, 0), Instr(RPN_PUSH_NUM, 4)], [Op(RPN_SHR)]) == Ok([Instr(RPN_PUSH_T, 0), Instr(RPN_PUSH_NUM, 4), Instr(RPN_SHR, 0)]);
    assert PopWhile([Instr(RPN_PUSH_T, 0), Instr(RPN_PUSH_NUM, 4), Instr(RPN_SHR, 0)], [], 4, false) == Ok(([Instr(RPN_PUSH_T, 0), Instr(RPN_PUSH_NUM, 4), Instr(RPN_SHR, 0)], []));
    assert PopWhile([Instr(RPN_PUSH_T, 0), Instr(RPN_PUSH_NUM, 4)], [Op(RPN_SHR)], 4, false) == Ok(([Instr(RPN_PUSH_T, 0), Instr(RPN_PUSH_NUM, 4), Instr(RPN_SHR, 0)], []));
    assert [Op(RPN_SHR)][..0] == [];
    assert [] + [Op(RPN_SHL)] == [Op(RPN_SHL)];
    assert [Instr(RPN_PUSH_T, 0), Instr(RPN_PUSH_NUM, 4)] + [Instr(RPN_SHR, 0)] == [Instr(RPN_PUSH_T, 0), Instr(RPN_PUSH_NUM, 4), Instr(RPN_SHR, 0)];
    Advance(src, Scan(4, [Instr(RPN_PUSH_T, 0), Instr(RPN_PUSH_NUM, 4)], [Op(RPN_SHR)], 0, false), Scan(6, [Instr(RPN_PUSH_T, 0), Instr(RPN_PUSH_NUM, 4), Instr(RPN_SHR, 0)], [Op(RPN_SHL)], 0, true));
  }

  lemma ShiftOrderStep4(src: seq<char>)
    requires Spells(src, "t>>4<<2")
    ensures CompileFrom(src, Scan(6, [Instr(RPN_PUSH_T, 0), Instr(RPN_PUSH_NUM, 4), Instr(RPN_SHR, 0)], [Op(RPN_SHL)], 0, true))
         == CompileFrom(src, Scan(7, [Instr(RPN_PUSH_T, 0), Instr(RPN_PUSH_NUM, 4), Instr(RPN_SHR, 0), Instr(RPN_PUSH_NUM, 2)], [Op(RPN_SHL)], 0, false))
  {
    assert DecDigits(src, 7, 2) == (7, 2);
    assert DecDigits(src, 6, 0) == (7, 2);
    assert NumberAt(src, 6) == Ok((7, 2));
    assert [Instr(RPN_PUSH_T, 0), Instr(RPN_PUSH_NUM, 4), Instr(RPN_SHR, 0)] + [Instr(RPN_PUSH_NUM, 2)] == [Instr(RPN_PUSH_T, 0), Instr(RPN_PUSH_NUM, 4), Instr(RPN_SHR, 0), Instr(RPN_PUSH_NUM, 2)];
    Advance(src, Scan(6, [Instr(RPN_PUSH_T, 0), Instr(RPN_PUSH_NUM, 4), Instr(RPN_SHR, 0)], [Op(RPN_SHL)], 0, true), Scan(7, [Instr(RPN_PUSH_T, 0), Instr(RPN_PUSH_NUM, 4), Instr(RPN_SHR, 0), Instr(RPN_PUSH_NUM, 2)], [Op(RPN_SHL)], 0, false));
  }

  lemma ShiftOrderFinish(src: seq<char>)
    requires Spells(src, "t>>4<<2")
    ensures CompileFrom(src, Scan(7, [Instr(RPN_PUSH_T, 0), Instr(RPN_PUSH_NUM, 4), Instr(RPN_SHR, 0), Instr(RPN_PUSH_NUM, 2)], [Op(RPN_SHL)], 0, false)) == Ok([Instr(RPN_PUSH_T, 0), Instr(RPN_PUSH_NUM, 4), Instr(RPN_SHR, 0), Instr(RPN_PUSH_NUM, 2), Instr(RPN_SHL, 0)])
  {
    Stop(src, Scan(7, [Instr(RPN_PUSH_T, 0), Instr(RPN_PUSH_NUM, 4), Instr(RPN_SHR, 0), Instr(RPN_PUSH_NUM, 2)], [Op(RPN_SHL)], 0, false));
    assert [Op(RPN_SHL)][..0] == [];
    assert [Instr(RPN_PUSH_T, 0), Instr(RPN_PUSH_NUM, 4), Instr(RPN_SHR, 0), Instr(RPN_PUSH_NUM, 2)] + [Instr(RPN_SHL, 0)] == [Instr(RPN_PUSH_T, 0), Instr(RPN_PUSH_NUM, 4), Instr(RPN_SHR, 0), Instr(RPN_PUSH_NUM, 2), Instr(RPN_SHL, 0)];
    assert EmitTop([Instr(RPN_PUSH_T, 0), Instr(RPN_PUSH_NUM, 4), Instr(RPN_SHR, 0), Instr(RPN_PUSH_NUM, 2)], [Op(RPN_SHL)]) == Ok([Instr(RPN_PUSH_T, 0), Instr(RPN_PUSH_NUM, 4), Instr(RPN_SHR, 0), Instr(RPN_PUSH_NUM, 2), Instr(RPN_SHL, 0)]);
    assert PopAll([Instr(RPN_PUSH_T, 0), Instr(RPN_PUSH_NUM, 4), Instr(RPN_SHR, 0), Instr(RPN_PUSH_NUM, 2), Instr(RPN_SHL, 0)], []) == Ok([Instr(RPN_PUSH_T, 0), Instr(RPN_PUSH_NUM, 4), Instr(RPN_SHR, 0), Instr(RPN_PUSH_NUM, 2), Instr(RPN_SHL, 0)]);
    assert PopAll([Instr(RPN_PUSH_T, 0), Instr(RPN_PUSH_NUM, 4), Instr(RPN_SHR, 0), Instr(RPN_PUSH_NUM, 2)], [Op(RPN_SHL)]) == Ok([Instr(RPN_PUSH_T, 0), Instr(RPN_PUSH_NUM, 4), Instr(RPN_SHR, 0), Instr(RPN_PUSH_NUM, 2), Instr(RPN_SHL, 0)]);
  }

  lemma ShiftOrderCompiles(src: seq<char>)
    requires Spells(src, "t>>4<<2")
    ensures Compile(src) == Ok([Instr(RPN_PUSH_T, 0), Instr(RPN_PUSH_NUM, 4), Instr(RPN_SHR, 0), Instr(RPN_PUSH_NUM, 2), Instr(RPN_SHL, 0)])
  {
    ShiftOrderStep0(src);
    ShiftOrderStep1(src);
    ShiftOrderStep2(src);
    ShiftOrderStep3(src);
    ShiftOrderStep4(src);
    ShiftOrderFinish(src);
  }

  lemma ShiftOrderTree()
    ensures Emit(Binary(RPN_SHL, Binary(RPN_SHR, TVar, Const(4)), Const(2))) == [Instr(RPN_PUSH_T, 0), Instr(RPN_PUSH_NUM, 4), Instr(RPN_SHR, 0), Instr(RPN_PUSH_NUM, 2), Instr(RPN_SHL, 0)]
  {
  }

  /** Two-character shifts group left to right. */
  lemma ShiftOrder(ws: WideShifts)
    ensures Compile("t>>4<<2") == Ok(Emit(Binary(RPN_SHL, Binary(RPN_SHR, TVar, Const(4)), Const(2))))
    ensures forall t :: Evaluate(Emit(Binary(RPN_SHL, Binary(RPN_SHR, TVar, Const(4)), Const(2))), t, ws) == Denote(Binary(RPN_SHL, Binary(RPN_SHR, TVar, Const(4)), Const(2)), t, ws)
  {
    ShiftOrderCompiles("t>>4<<2");
    ShiftOrderTree();
    forall t
      ensures Evaluate(Emit(Binary(RPN_SHL, Binary(RPN_SHR, TVar, Const(4)), Const(2))), t, ws) == Denote(Binary(RPN_SHL, Binary(RPN_SHR, TVar, Const(4)), Const(2)), t, ws)
    {
      EmitEvaluates(Binary(RPN_SHL, Binary(RPN_SHR, TVar, Const(4)), Const(2)), t, ws);
    }
  }

  lemma DivideByZeroStep0(src: seq<char>)
    requires Spells(src, "t/0")
    ensures CompileFrom(src, Scan(0, [], [], 0, true))
         == CompileFrom(src, Scan(1, [Instr(RPN_PUSH_T, 0)], [], 0, false))
  {
    assert [] + [Instr(RPN_PUSH_T, 0)] == [Instr(RPN_PUSH_T, 0)];
    Advance(src, Scan(0, [], [], 0, true), Scan(1, [Instr(RPN_PUSH_T, 0)], [], 0, false));
  }

  lemma DivideByZeroStep1(src: seq<char>)
    requires Spells(src, "t/0")
    ensures CompileFrom(src, Scan(1, [Instr(RPN_PUSH_T, 0)], [], 0, false))
         == CompileFrom(src, Scan(2, [Instr(RPN_PUSH_T, 0)], [Op(RPN_DIV)], 0, true))
  {
    assert PopWhile([Instr(RPN_PUSH_T, 0)], [], 6, false) == Ok(([Instr(RPN_PUSH_T, 0)], []));
    assert [] + [Op(RPN_DIV)] == [Op(RPN_DIV)];
    Advance(src, Scan(1, [Instr(RPN_PUSH_T, 0)], [], 0, false), Scan(2, [Instr(RPN_PUSH_T, 0)], [Op(RPN_DIV)], 0, true));
  }

  lemma DivideByZeroStep2(src: seq<char>)
    requires Spells(src, "t/0")
    ensures CompileFrom(src, Scan(2, [Instr(RPN_PUSH_T, 0)], [Op(RPN_DIV)], 0, true))
         == CompileFrom(src, Scan(3, [Instr(RPN_PUSH_T, 0), Instr(RPN_PUSH_NUM, 0)], [Op(RPN_DIV)], 0, false))
  {
    assert DecDigits(src, 3, 0) == (3, 0);
    assert DecDigits(src, 2, 0) == (3, 0);
    assert NumberAt(src, 2) == Ok((3, 0));
    assert [Instr(RPN_PUSH_T, 0)] + [Instr(RPN_PUSH_NUM, 0)] == [Instr(RPN_PUSH_T, 0), Instr(RPN_PUSH_NUM, 0)];
    Advance(src, Scan(2, [Instr(RPN_PUSH_T, 0)], [Op(RPN_DIV)], 0, true), Scan(3, [Instr(RPN_PUSH_T, 0), Instr(RPN_PUSH_NUM, 0)], [Op(RPN_DIV)], 0, false));
  }

  lemma DivideByZeroFinish(src: seq<char>)
    requires Spells(src, "t/0")
    ensures CompileFrom(src, Scan(3, [Instr(RPN_PUSH_T, 0), Instr(RPN_PUSH_NUM, 0)], [Op(RPN_DIV)], 0, false)) == Ok([Instr(RPN_PUSH_T, 0), Instr(RPN_PUSH_NUM, 0), Instr(RPN_DIV, 0)])
  {
    Stop(src, Scan(3, [Instr(RPN_PUSH_T, 0), Instr(RPN_PUSH_NUM, 0)], [Op(RPN_DIV)], 0, false));
    assert [Op(RPN_DIV)][..0] == [];
    assert [Instr(RPN_PUSH_T, 0), Instr(RPN_PUSH_NUM, 0)] + [Instr(RPN_DIV, 0)] == [Instr(RPN_PUSH_T, 0), Instr(RPN_PUSH_NUM, 0), Instr(RPN_DIV, 0)];
    assert EmitTop([Instr(RPN_PUSH_T, 0), Instr(RPN_PUSH_NUM, 0)], [Op(RPN_DIV)]) == Ok([Instr(RPN_PUSH_T, 0), Instr(RPN_PUSH_NUM, 0), Instr(RPN_DIV, 0)]);
    assert PopAll([Instr(RPN_PUSH_T, 0), Instr(RPN_PUSH_NUM, 0), Instr(RPN_DIV, 0)], []) == Ok([Instr(RPN_PUSH_T, 0), Instr(RPN_PUSH_NUM, 0), Instr(RPN_DIV, 0)]);
    assert PopAll([Instr(RPN_PUSH_T, 0), Instr(RPN_PUSH_NUM, 0)], [Op(RPN_DIV)]) == Ok([Instr(RPN_PUSH_T, 0), Instr(RPN_PUSH_NUM, 0), Instr(RPN_DIV, 0)]);
  }

  lemma DivideByZeroCompiles(src: seq<char>)
    requires Spells(src, "t/0")
    ensures Compile(src) == Ok([Instr(RPN_PUSH_T, 0), Instr(RPN_PUSH_NUM, 0), Instr(RPN_DIV, 0)])
  {
    DivideByZeroStep0(src);
    DivideByZeroStep1(src);
    DivideByZeroStep2(src);
    DivideByZeroFinish(src);
  }

  lemma DivideByZeroTree()
    ensures Emit(Binary(RPN_DIV, TVar, Const(0))) == [Instr(RPN_PUSH_T, 0), Instr(RPN_PUSH_NUM, 0), Instr(RPN_DIV, 0)]
  {
  }

  lemma DivideByZeroValue(t: bv32, ws: WideShifts)
    ensures Denote(Binary(RPN_DIV, TVar, Const(0)), t, ws) == 0
  {
  }

  /** Division by zero yields 0. */
  lemma DivideByZero(ws: WideShifts)
    ensures Compile("t/0") == Ok(Emit(Binary(RPN_DIV, TVar, Const(0))))
    ensures forall t :: Evaluate(Emit(Binary(RPN_DIV, TVar, Const(0))), t, ws) == 0
  {
    DivideByZeroCompiles("t/0");
    DivideByZeroTree();
    forall t
      ensures Evaluate(Emit(Binary(RPN_DIV, TVar, Const(0))), t, ws) == 0
    {
      EmitEvaluates(Binary(RPN_DIV, TVar, Const(0)), t, ws);
      DivideByZeroValue(t, ws);
    }
  }

  lemma ModuloByZeroStep0(src: seq<char>)
    requires Spells(src, "t%0")
    ensures CompileFrom(src, Scan(0, [], [], 0, true))
         == CompileFrom(src, Scan(1, [Instr(RPN_PUSH_T, 0)], [], 0, false))
  {
    assert [] + [Instr(RPN_PUSH_T, 0)] == [Instr(RPN_PUSH_T, 0)];
    Advance(src, Scan(0, [], [], 0, true), Scan(1, [Instr(RPN_PUSH_T, 0)], [], 0, false));
  }

  lemma ModuloByZeroStep1(src: seq<char>)
    requires Spells(src, "t%0")
    ensures CompileFrom(src, Scan(1, [Instr(RPN_PUSH_T, 0)], [], 0, false))
         == CompileFrom(src, Scan(2, [Instr(RPN_PUSH_T, 0)], [Op(RPN_MOD)], 0, true))
  {
    assert PopWhile([Instr(RPN_PUSH_T, 0)], [], 6, false) == Ok(([Instr(RPN_PUSH_T, 0)], []));
    assert [] + [Op(RPN_MOD)] == [Op(RPN_MOD)];
    Advance(src, Scan(1, [Instr(RPN_PUSH_T, 0)], [], 0, false), Scan(2, [Instr(RPN_PUSH_T, 0)], [Op(RPN_MOD)], 0, true));
  }

  lemma ModuloByZeroStep2(src: seq<char>)
    requires Spells(src, "t%0")
    ensures CompileFrom(src, Scan(2, [Instr(RPN_PUSH_T, 0)], [Op(RPN_MOD)], 0, true))
         == CompileFrom(src, Scan(3, [Instr(RPN_PUSH_T, 0), Instr(RPN_PUSH_NUM, 0)], [Op(RPN_MOD)], 0, false))
  {
    assert DecDigits(src, 3, 0) == (3, 0);
    assert DecDigits(src, 2, 0) == (3, 0);
    assert NumberAt(src, 2) == Ok((3, 0));
    assert [Instr(RPN_PUSH_T, 0)] + [Instr(RPN_PUSH_NUM, 0)] == [Instr(RPN_PUSH_T, 0), Instr(RPN_PUSH_NUM, 0)];
    Advance(src, Scan(2, [Instr(RPN_PUSH_T, 0)], [Op(RPN_MOD)], 0, true), Scan(3, [Instr(RPN_PUSH_T, 0), Instr(RPN_PUSH_NUM, 0)], [Op(RPN_MOD)], 0, false));
  }

  lemma ModuloByZeroFinish(src: seq<char>)
    requires Spells(src, "t%0")
    ensures CompileFrom(src, Scan(3, [Instr(RPN_PUSH_T, 0), Instr(RPN_PUSH_NUM, 0)], [Op(RPN_MOD)], 0, false)) == Ok([Instr(RPN_PUSH_T, 0), Instr(RPN_PUSH_NUM, 0), Instr(RPN_MOD, 0)])
  {
    Stop(src, Scan(3, [Instr(RPN_PUSH_T, 0), Instr(RPN_PUSH_NUM, 0)], [Op(RPN_MOD)], 0, false));
    assert [Op(RPN_MOD)][..0] == [];
    assert [Instr(RPN_PUSH_T, 0), Instr(RPN_PUSH_NUM, 0)] + [Instr(RPN_MOD, 0)] == [Instr(RPN_PUSH_T, 0), Instr(RPN_PUSH_NUM, 0), Instr(RPN_MOD, 0)];
    assert EmitTop([Instr(RPN_PUSH_T, 0), Instr(RPN_PUSH_NUM, 0)], [Op(RPN_MOD)]) == Ok([Instr(RPN_PUSH_T, 0), Instr(RPN_PUSH_NUM, 0), Instr(RPN_MOD, 0)]);
    assert PopAll([Instr(RPN_PUSH_T, 0), Instr(RPN_PUSH_NUM, 0), Instr(RPN_MOD, 0)], []) == Ok([Instr(RPN_PUSH_T, 0), Instr(RPN_PUSH_NUM, 0), Instr(RPN_MOD, 0)]);
    assert PopAll([Instr(RPN_PUSH_T, 0), Instr(RPN_PUSH_NUM, 0)], [Op(RPN_MOD)]) == Ok([Instr(RPN_PUSH_T, 0), Instr(RPN_PUSH_NUM, 0), Instr(RPN_MOD, 0)]);
  }

  lemma ModuloByZeroCompiles(src: seq<char>)
    requires Spells(src, "t%0")
    ensures Compile(src) == Ok([Instr(RPN_PUSH_T, 0), Instr(RPN_PUSH_NUM, 0), Instr(RPN_MOD, 0)])
  {
    ModuloByZeroStep0(src);
    ModuloByZeroStep1(src);
    ModuloByZeroStep2(src);
    ModuloByZeroFinish(src);
  }

  lemma ModuloByZeroTree()
    ensures Emit(Binary(RPN_MOD, TVar, Const(0))) == [Instr(RPN_PUSH_T, 0), Instr(RPN_PUSH_NUM, 0), Instr(RPN_MOD, 0)]
  {
  }

  lemma ModuloByZeroValue(t: bv32, ws: WideShifts)
    ensures Denote(Binary(RPN_MOD, TVar, Const(0)), t, ws) == 0
  {
  }

  /** Modulo by zero yields 0. */
  lemma ModuloByZero(ws: WideShifts)
    ensures Compile("t%0") == Ok(Emit(Binary(RPN_MOD, TVar, Const(0))))
    ensures forall t :: Evaluate(Emit(Binary(RPN_MOD, TVar, Const(0))), t, ws) == 0
  {
    ModuloByZeroCompiles("t%0");
    ModuloByZeroTree();
    forall t
      ensures Evaluate(Emit(Binary(RPN_MOD, TVar, Const(0))), t, ws) == 0
    {
      EmitEvaluates(Binary(RPN_MOD, TVar, Const(0)), t, ws);
      ModuloByZeroValue(t, ws);
    }
  }

  lemma ComparisonsStep0(src: seq<char>)
    requires Spells(src, "(t<5)+(t>=5)")
    ensures CompileFrom(src, Scan(0, [], [], 0, true))
         == CompileFrom(src, Scan(1, [], [OpenParen], 1, true))
  {
    assert [] + [OpenParen] == [OpenParen];
    Advance(src, Scan(0, [], [], 0, true), Scan(1, [], [OpenParen], 1, true));
  }

  lemma ComparisonsStep1(src: seq<char>)
    requires Spells(src, "(t<5)+(t>=5)")
    ensures CompileFrom(src, Scan(1, [], [OpenParen], 1, true))
         == CompileFrom(src, Scan(2, [Instr(RPN_PUSH_T, 0)], [OpenParen], 1, false))
  {
    assert [] + [Instr(RPN_PUSH_T, 0)] == [Instr(RPN_PUSH_T, 0)];
    Advance(src, Scan(1, [], [OpenParen], 1, true), Scan(2, [Instr(RPN_PUSH_T, 0)], [OpenParen], 1, false));
  }

  lemma ComparisonsStep2(src: seq<char>)
    requires Spells(src, "(t<5)+(t>=5)")
    ensures CompileFrom(src, Scan(2, [Instr(RPN_PUSH_T, 0)], [OpenParen], 1, false))
         == CompileFrom(src, Scan(3, [Instr(RPN_PUSH_T, 0)], [OpenParen, Op(RPN_LT)], 1, true))
  {
    assert PopWhile([Instr(RPN_PUSH_T, 0)], [OpenParen], 3, false) == Ok(([Instr(RPN_PUSH_T, 0)], [OpenParen]));
    assert [OpenParen] + [Op(RPN_LT)] == [OpenParen, Op(RPN_LT)];
    Advance(src, Scan(2, [Instr(RPN_PUSH_T, 0)], [OpenParen], 1, false), Scan(3, [Instr(RPN_PUSH_T, 0)], [OpenParen, Op(RPN_LT)], 1, true));
  }

  lemma ComparisonsStep3(src: seq<char>)
    requires Spells(src, "(t<5)+(t>=5)")
    ensures CompileFrom(src, Scan(3, [Instr(RPN_PUSH_T, 0)], [OpenParen, Op(RPN_LT)], 1, true))
         == CompileFrom(src, Scan(4, [Instr(RPN_PUSH_T, 0), Instr(RPN_PUSH_NUM, 5)], [OpenParen, Op(RPN_LT)], 1, false))
  {
    assert DecDigits(src, 4, 5) == (4, 5);
    assert DecDigits(src, 3, 0) == (4, 5);
    assert NumberAt(src, 3) == Ok((4, 5));
    assert [Instr(RPN_PUSH_T, 0)] + [Instr(RPN_PUSH_NUM, 5)] == [Instr(RPN_PUSH_T, 0), Instr(RPN_PUSH_NUM, 5)];
    Advance(src, Scan(3, [Instr(RPN_PUSH_T, 0)], [OpenParen, Op(RPN_LT)], 1, true), Scan(4, [Instr(RPN_PUSH_T, 0), Instr(RPN_PUSH_NUM, 5)], [OpenParen, Op(RPN_LT)], 1, false));
  }

  lemma ComparisonsStep4(src: seq<char>)
    requires Spells(src, "(t<5)+(t>=5)")
    ensures CompileFrom(src, Scan(4, [Instr(RPN_PUSH_T, 0), Instr(RPN_PUSH_NUM, 5)], [OpenParen, Op(RPN_LT)], 1, false))
         == CompileFrom(src, Scan(5, [Instr(RPN_PUSH_T, 0), Instr(RPN_PUSH_NUM, 5), Instr(RPN_LT, 0)], [], 0, false))
  {
    assert [OpenParen, Op(RPN_LT)][..1] == [OpenParen];
    assert [Instr(RPN_PUSH_T, 0), Instr(RPN_PUSH_NUM, 5)] + [Instr(RPN_LT, 0)] == [Instr(RPN_PUSH_T, 0), Instr(RPN_PUSH_NUM, 5), Instr(RPN_LT, 0)];
    assert EmitTop([Instr(RPN_PUSH_T, 0), Instr(RPN_PUSH_NUM, 5)], [OpenParen, Op(RPN_LT)]) == Ok([Instr(RPN_PUSH_T, 0), Instr(RPN_PUSH_NUM, 5), Instr(RPN_LT, 0)]);
    assert PopToParen([Instr(RPN_PUSH_T, 0), Instr(RPN_PUSH_NUM, 5), Instr(RPN_LT, 0)], [OpenParen]) == Ok(([Instr(RPN_PUSH_T, 0), Instr(RPN_PUSH_NUM, 5), Instr(RPN_LT, 0)], [OpenParen]));
    assert PopToParen([Instr(RPN_PUSH_T, 0), Instr(RPN_PUSH_NUM, 5)], [OpenParen, Op(RPN_LT)]) == Ok(([Instr(RPN_PUSH_T, 0), Instr(RPN_PUSH_NUM, 5), Instr(RPN_LT, 0)], [OpenParen]));
    assert [OpenParen, Op(RPN_LT)][..1] == [OpenParen];
    assert [OpenParen][..0] == [];
    assert [Instr(RPN_PUSH_T, 0), Instr(RPN_PUSH_NUM, 5)] + [Instr(RPN_LT, 0)] == [Instr(RPN_PUSH_T, 0), Instr(RPN_PUSH_NUM, 5), Instr(RPN_LT, 0)];
    Advance(src, Scan(4, [Instr(RPN_PUSH_T, 0), Instr(RPN_PUSH_NUM, 5)], [OpenParen, Op(RPN_LT)], 1, false), Scan(5, [Instr(RPN_PUSH_T, 0), Instr(RPN_PUSH_NUM, 5), Instr(RPN_LT, 0)], [], 0, false));
  }

  lemma ComparisonsStep5(src: seq<char>)
    requires Spells(src, "(t<5)+(t>=5)")
    ensures CompileFrom(src, Scan(5, [Instr(RPN_PUSH_T, 0), Instr(RPN_PUSH_NUM, 5), Instr(RPN_LT, 0)], [], 0, false))
         == CompileFrom(src, Scan(6, [Instr(RPN_PUSH_T, 0), Instr(RPN_PUSH_NUM, 5), Instr(RPN_LT, 0)], [Op(RPN_ADD)], 0, true))
  {
    assert PopWhile([Instr(RPN_PUSH_T, 0), Instr(RPN_PUSH_NUM, 5), Instr(RPN_LT, 0)], [], 5, false) == Ok(([Instr(RPN_PUSH_T, 0), Instr(RPN_PUSH_NUM, 5), Instr(RPN_LT, 0)], []));
    assert [] + [Op(RPN_ADD)] == [Op(RPN_ADD)];
    Advance(src, Scan(5, [Instr(RPN_PUSH_T, 0), Instr(RPN_PUSH_NUM, 5), Instr(RPN_LT, 0)], [], 0, false), Scan(6, [Instr(RPN_PUSH_T, 0), Instr(RPN_PUSH_NUM, 5), Instr(RPN_LT, 0)], [Op(RPN_ADD)], 0, true));
  }

  lemma ComparisonsStep6(src: seq<char>)
    requires Spells(src, "(t<5)+(t>=5)")
    ensures CompileFrom(src, Scan(6, [Instr(RPN_PUSH_T, 0), Instr(RPN_PUSH_NUM, 5), Instr(RPN_LT, 0)], [Op(RPN_ADD)], 0, true))
         == CompileFrom(src, Scan(7, [Instr(RPN_PUSH_T, 0), Instr(RPN_PUSH_NUM, 5), Instr(RPN_LT, 0)], [Op(RPN_ADD), OpenParen], 1, true))
  {
    assert [Op(RPN_ADD)] + [OpenParen] == [Op(RPN_ADD), OpenParen];
    Advance(src, Scan(6, [Instr(RPN_PUSH_T, 0), Instr(RPN_PUSH_NUM, 5), Instr(RPN_LT, 0)], [Op(RPN_ADD)], 0, true), Scan(7, [Instr(RPN_PUSH_T, 0), Instr(RPN_PUSH_NUM, 5), Instr(RPN_LT, 0)], [Op(RPN_ADD), OpenParen], 1, true));
  }

  lemma ComparisonsStep7(src: seq<char>)
    requires Spells(src, "(t<5)+(t>=5)")
    ensures CompileFrom(src, Scan(7, [Instr(RPN_PUSH_T, 0), Instr(RPN_PUSH_NUM, 5), Instr(RPN_LT, 0)], [Op(RPN_ADD), OpenParen], 1, true))
         == CompileFrom(src, Scan(8, [Instr(RPN_PUSH_T, 0), Instr(RPN_PUSH_NUM, 5), Instr(RPN_LT, 0), Instr(RPN_PUSH_T, 0)], [Op(RPN_ADD), OpenParen], 1, false))
  {
    assert [Instr(RPN_PUSH_T, 0), Instr(RPN_PUSH_NUM, 5), Instr(RPN_LT, 0)] + [Instr(RPN_PUSH_T, 0)] == [Instr(RPN_PUSH_T, 0), Instr(RPN_PUSH_NUM, 5), Instr(RPN_LT, 0), Instr(RPN_PUSH_T, 0)];
    Advance(src, Scan(7, [Instr(RPN_PUSH_T, 0), Instr(RPN_PUSH_NUM, 5), Instr(RPN_LT, 0)], [Op(RPN_ADD), OpenParen], 1, true), Scan(8, [Instr(RPN_PUSH_T, 0), Instr(RPN_PUSH_NUM, 5), Instr(RPN_LT, 0), Instr(RPN_PUSH_T, 0)], [Op(RPN_ADD), OpenParen], 1, false));
  }

  lemma ComparisonsStep8(src: seq<char>)
    requires Spells(src, "(t<5)+(t>=5)")
    ensures CompileFrom(src, Scan(8, [Instr(RPN_PUSH_T, 0), Instr(RPN_PUSH_NUM, 5), Instr(RPN_LT, 0), Instr(RPN_PUSH_T, 0)], [Op(RPN_ADD), OpenParen], 1, false))
         == CompileFrom(src, Scan(10, [Instr(RPN_PUSH_T, 0), Instr(RPN_PUSH_NUM, 5), Instr(RPN_LT, 0), Instr(RPN_PUSH_T, 0)], [Op(RPN_ADD), OpenParen, Op(RPN_GE)], 1, true))
  {
    assert PopWhile([Instr(RPN_PUSH_T, 0), Instr(RPN_PUSH_NUM, 5), Instr(RPN_LT, 0), Instr(RPN_PUSH_T, 0)], [Op(RPN_ADD), OpenParen], 3, false) == Ok(([Instr(RPN_PUSH_T, 0), Instr(RPN_PUSH_NUM, 5), Instr(RPN_LT, 0), Instr(RPN_PUSH_T, 0)], [Op(RPN_ADD), OpenParen]));
    assert [Op(RPN_ADD), OpenParen] + [Op(RPN_GE)] == [Op(RPN_ADD), OpenParen, Op(RPN_GE)];
    Advance(src, Scan(8, [Instr(RPN_PUSH_T, 0), Instr(RPN_PUSH_NUM, 5), Instr(RPN_LT, 0), Instr(RPN_PUSH_T, 0)], [Op(RPN_ADD), OpenParen], 1, false), Scan(10, [Instr(RPN_PUSH_T, 0), Instr(RPN_PUSH_NUM, 5), Instr(RPN_LT, 0), Instr(RPN_PUSH_T, 0)], [Op(RPN_ADD), OpenParen, Op(RPN_GE)], 1, true));
  }

  lemma ComparisonsStep9(src: seq<char>)
    requires Spells(src, "(t<5)+(t>=5)")
    ensures CompileFrom(src, Scan(10, [Instr(RPN_PUSH_T, 0), Instr(RPN_PUSH_NUM, 5), Instr(RPN_LT, 0), Instr(RPN_PUSH_T, 0)], [Op(RPN_ADD), OpenParen, Op(RPN_GE)], 1, true))
         == CompileFrom(src, Scan(11, [Instr(RPN_PUSH_T, 0), Instr(RPN_PUSH_NUM, 5), Instr(RPN_LT, 0), Instr(RPN_PUSH_T, 0), Instr(RPN_PUSH_NUM, 5)], [Op(RPN_ADD), OpenParen, Op(RPN_GE)], 1, false))
  {
    assert DecDigits(src, 11, 5) == (11, 5);
    assert DecDigits(src, 10, 0) == (11, 5);
    assert NumberAt(src, 10) == Ok((11, 5));
    assert [Instr(RPN_PUSH_T, 0), Instr(RPN_PUSH_NUM, 5), Instr(RPN_LT, 0), Instr(RPN_PUSH_T, 0)] + [Instr(RPN_PUSH_NUM, 5)] == [Instr(RPN_PUSH_T, 0), Instr(RPN_PUSH_NUM, 5), Instr(RPN_LT, 0), Instr(RPN_PUSH_T, 0), Instr(RPN_PUSH_NUM, 5)];
    Advance(src, Scan(10, [Instr(RPN_PUSH_T, 0), Instr(RPN_PUSH_NUM, 5), Instr(RPN_LT, 0), Instr(RPN_PUSH_T, 0)], [Op(RPN_ADD), OpenParen, Op(RPN_GE)], 1, true), Scan(11, [Instr(RPN_PUSH_T, 0), Instr(RPN_PUSH_NUM, 5), Instr(RPN_LT, 0), Instr(RPN_PUSH_T, 0), Instr(RPN_PUSH_NUM, 5)], [Op(RPN_ADD), OpenParen, Op(RPN_GE)], 1, false));
  }

  lemma ComparisonsStep10(src: seq<char>)
    requires Spells(src, "(t<5)+(t>=5)")
    ensures CompileFrom(src, Scan(11, [Instr(RPN_PUSH_T, 0), Instr(RPN_PUSH_NUM, 5), Instr(RPN_LT, 0), Instr(RPN_PUSH_T, 0), Instr(RPN_PUSH_NUM, 5)], [Op(RPN_ADD), OpenParen, Op(RPN_GE)], 1, false))
         == CompileFrom(src, Scan(12, [Instr(RPN_PUSH_T, 0), Instr(RPN_PUSH_NUM, 5), Instr(RPN_LT, 0), Instr(RPN_PUSH_T, 0), Instr(RPN_PUSH_NUM, 5), Instr(RPN_GE, 0)], [Op(RPN_ADD)], 0, false))
  {
    assert [Op(RPN_ADD), OpenParen, Op(RPN_GE)][..2] == [Op(RPN_ADD), OpenParen];
    assert [Instr(RPN_PUSH_T, 0), Instr(RPN_PUSH_NUM, 5), Instr(RPN_LT, 0), Instr(RPN_PUSH_T, 0), Instr(RPN_PUSH_NUM, 5)] + [Instr(RPN_GE, 0)] == [Instr(RPN_PUSH_T, 0), Instr(RPN_PUSH_NUM, 5), Instr(RPN_LT, 0), Instr(RPN_PUSH_T, 0), Instr(RPN_PUSH_NUM, 5), Instr(RPN_GE, 0)];
    assert EmitTop([Instr(RPN_PUSH_T, 0), Instr(RPN_PUSH_NUM, 5), Instr(RPN_LT, 0), Instr(RPN_PUSH_T, 0), Instr(RPN_PUSH_NUM, 5)], [Op(RPN_ADD), OpenParen, Op(RPN_GE)]) == Ok([Instr(RPN_PUSH_T, 0), Instr(RPN_PUSH_NUM, 5), Instr(RPN_LT, 0), Instr(RPN_PUSH_T, 0), Instr(RPN_PUSH_NUM, 5), Instr(RPN_GE, 0)]);
    assert PopToParen([Instr(RPN_PUSH_T, 0), Instr(RPN_PUSH_NUM, 5), Instr(RPN_LT, 0), Instr(RPN_PUSH_T, 0), Instr(RPN_PUSH_NUM, 5), Instr(RPN_GE, 0)], [Op(RPN_ADD), OpenParen]) == Ok(([Instr(RPN_PUSH_T, 0), Instr(RPN_PUSH_NUM, 5), Instr(RPN_LT, 0), Instr(RPN_PUSH_T, 0), Instr(RPN_PUSH_NUM, 5), Instr(RPN_GE, 0)], [Op(RPN_ADD), OpenParen]));
    assert PopToParen([Instr(RPN_PUSH_T, 0), Instr(RPN_PUSH_NUM, 5), Instr(RPN_LT, 0), Instr(RPN_PUSH_T, 0), Instr(RPN_PUSH_NUM, 5)], [Op(RPN_ADD), OpenParen, Op(RPN_GE)]) == Ok(([Instr(RPN_PUSH_T, 0), Instr(RPN_PUSH_NUM, 5), Instr(RPN_LT, 0), Instr(RPN_PUSH_T, 0), Instr(RPN_PUSH_NUM, 5), Instr(RPN_GE, 0)], [Op(RPN_ADD), OpenParen]));
    assert [Op(RPN_ADD), OpenParen, Op(RPN_GE)][..2] == [Op(RPN_ADD), OpenParen];
    assert [Op(RPN_ADD), OpenParen][..1] == [Op(RPN_ADD)];
    assert [Instr(RPN_PUSH_T, 0), Instr(RPN_PUSH_NUM, 5), Instr(RPN_LT, 0), Instr(RPN_PUSH_T, 0), Instr(RPN_PUSH_NUM, 5)] + [Instr(RPN_GE, 0)] == [Instr(RPN_PUSH_T, 0), Instr(RPN_PUSH_NUM, 5), Instr(RPN_LT, 0), Instr(RPN_PUSH_T, 0), Instr(RPN_PUSH_NUM, 5), Instr(RPN_GE, 0)];
    Advance(src, Scan(11, [Instr(RPN_PUSH_T, 0), Instr(RPN_PUSH_NUM, 5), Instr(RPN_LT, 0), Instr(RPN_PUSH_T, 0), Instr(RPN_PUSH_NUM, 5)], [Op(RPN_ADD), OpenParen, Op(RPN_GE)], 1, false), Scan(12, [Instr(RPN_PUSH_T, 0), Instr(RPN_PUSH_NUM, 5), Instr(RPN_LT, 0), Instr(RPN_PUSH_T, 0), Instr(RPN_PUSH_NUM, 5), Instr(RPN_GE, 0)], [Op(RPN_ADD)], 0, false));
  }

  lemma ComparisonsFinish(src: seq<char>)
    requires Spells(src, "(t<5)+(t>=5)")
    ensures CompileFrom(src, Scan(12, [Instr(RPN_PUSH_T, 0), Instr(RPN_PUSH_NUM, 5), Instr(RPN_LT, 0), Instr(RPN_PUSH_T, 0), Instr(RPN_PUSH_NUM, 5), Instr(RPN_GE, 0)], [Op(RPN_ADD)], 0, false)) == Ok([Instr(RPN_PUSH_T, 0), Instr(RPN_PUSH_NUM, 5), Instr(RPN_LT, 0), Instr(RPN_PUSH_T, 0), Instr(RPN_PUSH_NUM, 5), Instr(RPN_GE, 0), Instr(RPN_ADD, 0)])
  {
    Stop(src, Scan(12, [Instr(RPN_PUSH_T, 0), Instr(RPN_PUSH_NUM, 5), Instr(RPN_LT, 0), Instr(RPN_PUSH_T, 0), Instr(RPN_PUSH_NUM, 5), Instr(RPN_GE, 0)], [Op(RPN_ADD)], 0, false));
    assert [Op(RPN_ADD)][..0] == [];
    assert [Instr(RPN_PUSH_T, 0), Instr(RPN_PUSH_NUM, 5), Instr(RPN_LT, 0), Instr(RPN_PUSH_T, 0), Instr(RPN_PUSH_NUM, 5), Instr(RPN_GE, 0)] + [Instr(RPN_ADD, 0)] == [Instr(RPN_PUSH_T, 0), Instr(RPN_PUSH_NUM, 5), Instr(RPN_LT, 0), Instr(RPN_PUSH_T, 0), Instr(RPN_PUSH_NUM, 5), Instr(RPN_GE, 0), Instr(RPN_ADD, 0)];
    assert EmitTop([Instr(RPN_PUSH_T, 0), Instr(RPN_PUSH_NUM, 5), Instr(RPN_LT, 0), Instr(RPN_PUSH_T, 0), Instr(RPN_PUSH_NUM, 5), Instr(RPN_GE, 0)], [Op(RPN_ADD)]) == Ok([Instr(RPN_PUSH_T, 0), Instr(RPN_PUSH_NUM, 5), Instr(RPN_LT, 0), Instr(RPN_PUSH_T, 0), Instr(RPN_PUSH_NUM, 5), Instr(RPN_GE, 0), Instr(RPN_ADD, 0)]);
    assert PopAll([Instr(RPN_PUSH_T, 0), Instr(RPN_PUSH_NUM, 5), Instr(RPN_LT, 0), Instr(RPN_PUSH_T, 0), Instr(RPN_PUSH_NUM, 5), Instr(RPN_GE, 0), Instr(RPN_ADD, 0)], []) == Ok([Instr(RPN_PUSH_T, 0), Instr(RPN_PUSH_NUM, 5), Instr(RPN_LT, 0), Instr(RPN_PUSH_T, 0), Instr(RPN_PUSH_NUM, 5), Instr(RPN_GE, 0), Instr(RPN_ADD, 0)]);
    assert PopAll([Instr(RPN_PUSH_T, 0), Instr(RPN_PUSH_NUM, 5), Instr(RPN_LT, 0), Instr(RPN_PUSH_T, 0), Instr(RPN_PUSH_NUM, 5), Instr(RPN_GE, 0)], [Op(RPN_ADD)]) == Ok([Instr(RPN_PUSH_T, 0), Instr(RPN_PUSH_NUM, 5), Instr(RPN_LT, 0), Instr(RPN_PUSH_T, 0), Instr(RPN_PUSH_NUM, 5), Instr(RPN_GE, 0), Instr(RPN_ADD, 0)]);
  }

  lemma ComparisonsCompiles(src: seq<char>)
    requires Spells(src, "(t<5)+(t>=5)")
    ensures Compile(src) == Ok([Instr(RPN_PUSH_T, 0), Instr(RPN_PUSH_NUM, 5), Instr(RPN_LT, 0), Instr(RPN_PUSH_T, 0), Instr(RPN_PUSH_NUM, 5), Instr(RPN_GE, 0), Instr(RPN_ADD, 0)])
  {
    ComparisonsStep0(src);
    ComparisonsStep1(src);
    ComparisonsStep2(src);
    ComparisonsStep3(src);
    ComparisonsStep4(src);
    ComparisonsStep5(src);
    ComparisonsStep6(src);
    ComparisonsStep7(src);
    ComparisonsStep8(src);
    ComparisonsStep9(src);
    ComparisonsStep10(src);
    ComparisonsFinish(src);
  }

  lemma ComparisonsTree()
    ensures Emit(Binary(RPN_ADD, Binary(RPN_LT, TVar, Const(5)), Binary(RPN_GE, TVar, Const(5)))) == [Instr(RPN_PUSH_T, 0), Instr(RPN_PUSH_NUM, 5), Instr(RPN_LT, 0), Instr(RPN_PUSH_T, 0), Instr(RPN_PUSH_NUM, 5), Instr(RPN_GE, 0), Instr(RPN_ADD, 0)]
  {
  }

  lemma ComparisonsValue(t: bv32, ws: WideShifts)
    ensures Denote(Binary(RPN_ADD, Binary(RPN_LT, TVar, Const(5)), Binary(RPN_GE, TVar, Const(5))), t, ws) == 1
  {
    assert Denote(Binary(RPN_LT, TVar, Const(5)), t, ws) == BinaryResult(RPN_LT, t, (5 as bv32), ws);
    assert Denote(Binary(RPN_GE, TVar, Const(5)), t, ws) == BinaryResult(RPN_GE, t, (5 as bv32), ws);
  }

  /** Comparisons push 0 or 1, and `<` and `>=` are complementary. */
  lemma Comparisons(ws: WideShifts)
    ensures Compile("(t<5)+(t>=5)") == Ok(Emit(Binary(RPN_ADD, Binary(RPN_LT, TVar, Const(5)), Binary(RPN_GE, TVar, Const(5)))))
    ensures forall t :: Evaluate(Emit(Binary(RPN_ADD, Binary(RPN_LT, TVar, Const(5)), Binary(RPN_GE, TVar, Const(5)))), t, ws) == 1
  {
    ComparisonsCompiles("(t<5)+(t>=5)");
    ComparisonsTree();
    forall t
      ensures Evaluate(Emit(Binary(RPN_ADD, Binary(RPN_LT, TVar, Const(5)), Binary(RPN_GE, TVar, Const(5)))), t, ws) == 1
    {
      EmitEvaluates(Binary(RPN_ADD, Binary(RPN_LT, TVar, Const(5)), Binary(RPN_GE, TVar, Const(5))), t, ws);
      ComparisonsValue(t, ws);
    }
  }

  lemma LessOrEqualStep0(src: seq<char>)
    requires Spells(src, "3<=3")
    ensures CompileFrom(src, Scan(0, [], [], 0, true))
         == CompileFrom(src, Scan(1, [Instr(RPN_PUSH_NUM, 3)], [], 0, false))
  {
    assert DecDigits(src, 1, 3) == (1, 3);
    assert DecDigits(src, 0, 0) == (1, 3);
    assert NumberAt(src, 0) == Ok((1, 3));
    assert [] + [Instr(RPN_PUSH_NUM, 3)] == [Instr(RPN_PUSH_NUM, 3)];
    Advance(src, Scan(0, [], [], 0, true), Scan(1, [Instr(RPN_PUSH_NUM, 3)], [], 0, false));
  }

  lemma LessOrEqualStep1(src: seq<char>)
    requires Spells(src, "3<=3")
    ensures CompileFrom(src, Scan(1, [Instr(RPN_PUSH_NUM, 3)], [], 0, false))
         == CompileFrom(src, Scan(3, [Instr(RPN_PUSH_NUM, 3)], [Op(RPN_LE)], 0, true))
  {
    assert PopWhile([Instr(RPN_PUSH_NUM, 3)], [], 3, false) == Ok(([Instr(RPN_PUSH_NUM, 3)], []));
    assert [] + [Op(RPN_LE)] == [Op(RPN_LE)];
    Advance(src, Scan(1, [Instr(RPN_PUSH_NUM, 3)], [], 0, false), Scan(3, [Instr(RPN_PUSH_NUM, 3)], [Op(RPN_LE)], 0, true));
  }

  lemma LessOrEqualStep2(src: seq<char>)
    requires Spells(src, "3<=3")
    ensures CompileFrom(src, Scan(3, [Instr(RPN_PUSH_NUM, 3)], [Op(RPN_LE)], 0, true))
         == CompileFrom(src, Scan(4, [Instr(RPN_PUSH_NUM, 3), Instr(RPN_PUSH_NUM, 3)], [Op(RPN_LE)], 0, false))
  {
    assert DecDigits(src, 4, 3) == (4, 3);
    assert DecDigits(src, 3, 0) == (4, 3);
    assert NumberAt(src, 3) == Ok((4, 3));
    assert [Instr(RPN_PUSH_NUM, 3)] + [Instr(RPN_PUSH_NUM, 3)] == [Instr(RPN_PUSH_NUM, 3), Instr(RPN_PUSH_NUM, 3)];
    Advance(src, Scan(3, [Instr(RPN_PUSH_NUM, 3)], [Op(RPN_LE)], 0, true), Scan(4, [Instr(RPN_PUSH_NUM, 3), Instr(RPN_PUSH_NUM, 3)], [Op(RPN_LE)], 0, false));
  }

  lemma LessOrEqualFinish(src: seq<char>)
    requires Spells(src, "3<=3")
    ensures CompileFrom(src, Scan(4, [Instr(RPN_PUSH_NUM, 3), Instr(RPN_PUSH_NUM, 3)], [Op(RPN_LE)], 0, false)) == Ok([Instr(RPN_PUSH_NUM, 3), Instr(RPN_PUSH_NUM, 3), Instr(RPN_LE, 0)])
  {
    Stop(src, Scan(4, [Instr(RPN_PUSH_NUM, 3), Instr(RPN_PUSH_NUM, 3)], [Op(RPN_LE)], 0, false));
    assert [Op(RPN_LE)][..0] == [];
    assert [Instr(RPN_PUSH_NUM, 3), Instr(RPN_PUSH_NUM, 3)] + [Instr(RPN_LE, 0)] == [Instr(RPN_PUSH_NUM, 3), Instr(RPN_PUSH_NUM, 3), Instr(RPN_LE, 0)];
    assert EmitTop([Instr(RPN_PUSH_NUM, 3), Instr(RPN_PUSH_NUM, 3)], [Op(RPN_LE)]) == Ok([Instr(RPN_PUSH_NUM, 3), Instr(RPN_PUSH_NUM, 3), Instr(RPN_LE, 0)]);
    assert PopAll([Instr(RPN_PUSH_NUM, 3), Instr(RPN_PUSH_NUM, 3), Instr(RPN_LE, 0)], []) == Ok([Instr(RPN_PUSH_NUM, 3), Instr(RPN_PUSH_NUM, 3), Instr(RPN_LE, 0)]);
    assert PopAll([Instr(RPN_PUSH_NUM, 3), Instr(RPN_PUSH_NUM, 3)], [Op(RPN_LE)]) == Ok([Instr(RPN_PUSH_NUM, 3), Instr(RPN_PUSH_NUM, 3), Instr(RPN_LE, 0)]);
  }

  lemma LessOrEqualCompiles(src: seq<char>)
    requires Spells(src, "3<=3")
    ensures Compile(src) == Ok([Instr(RPN_PUSH_NUM, 3), Instr(RPN_PUSH_NUM, 3), Instr(RPN_LE, 0)])
  {
    LessOrEqualStep0(src);
    LessOrEqualStep1(src);
    LessOrEqualStep2(src);
    LessOrEqualFinish(src);
  }

  lemma LessOrEqualTree()
    ensures Emit(Binary(RPN_LE, Const(3), Const(3))) == [Instr(RPN_PUSH_NUM, 3), Instr(RPN_PUSH_NUM, 3), Instr(RPN_LE, 0)]
  {
  }

  lemma LessOrEqualValue(ws: WideShifts)
    ensures Denote(Binary(RPN_LE, Const(3), Const(3)), 0, ws) == 1
  {
    assert Denote(Binary(RPN_LE, Const(3), Const(3)), 0, ws) == 1;
  }

  /** `<=` is read as one operator. */
  lemma LessOrEqual(ws: WideShifts)
    ensures Compile("3<=3") == Ok(Emit(Binary(RPN_LE, Const(3), Const(3))))
    ensures Evaluate(Emit(Binary(RPN_LE, Const(3), Const(3))), 0, ws) == 1
  {
    LessOrEqualCompiles("3<=3");
    LessOrEqualTree();
    EmitEvaluates(Binary(RPN_LE, Const(3), Const(3)), 0, ws);
    LessOrEqualValue(ws);
  }

  lemma SingleEqualsStep0(src: seq<char>)
    requires Spells(src, "t=t")
    ensures CompileFrom(src, Scan(0, [], [], 0, true))
         == CompileFrom(src, Scan(1, [Instr(RPN_PUSH_T, 0)], [], 0, false))
  {
    assert [] + [Instr(RPN_PUSH_T, 0)] == [Instr(RPN_PUSH_T, 0)];
    Advance(src, Scan(0, [], [], 0, true), Scan(1, [Instr(RPN_PUSH_T, 0)], [], 0, false));
  }

  lemma SingleEqualsStep1(src: seq<char>)
    requires Spells(src, "t=t")
    ensures CompileFrom(src, Scan(1, [Instr(RPN_PUSH_T, 0)], [], 0, false))
         == CompileFrom(src, Scan(2, [Instr(RPN_PUSH_T, 0)], [Op(RPN_EQ)], 0, true))
  {
    assert PopWhile([Instr(RPN_PUSH_T, 0)], [], 2, false) == Ok(([Instr(RPN_PUSH_T, 0)], []));
    assert [] + [Op(RPN_EQ)] == [Op(RPN_EQ)];
    Advance(src, Scan(1, [Instr(RPN_PUSH_T, 0)], [], 0, false), Scan(2, [Instr(RPN_PUSH_T, 0)], [Op(RPN_EQ)], 0, true));
  }

  lemma SingleEqualsStep2(src: seq<char>)
    requires Spells(src, "t=t")
    ensures CompileFrom(src, Scan(2, [Instr(RPN_PUSH_T, 0)], [Op(RPN_EQ)], 0, true))
         == CompileFrom(src, Scan(3, [Instr(RPN_PUSH_T, 0), Instr(RPN_PUSH_T, 0)], [Op(RPN_EQ)], 0, false))
  {
    assert [Instr(RPN_PUSH_T, 0)] + [Instr(RPN_PUSH_T, 0)] == [Instr(RPN_PUSH_T, 0), Instr(RPN_PUSH_T, 0)];
    Advance(src, Scan(2, [Instr(RPN_PUSH_T, 0)], [Op(RPN_EQ)], 0, true), Scan(3, [Instr(RPN_PUSH_T, 0), Instr(RPN_PUSH_T, 0)], [Op(RPN_EQ)], 0, false));
  }

  lemma SingleEqualsFinish(src: seq<char>)
    requires Spells(src, "t=t")
    ensures CompileFrom(src, Scan(3, [Instr(RPN_PUSH_T, 0), Instr(RPN_PUSH_T, 0)], [Op(RPN_EQ)], 0, false)) == Ok([Instr(RPN_PUSH_T, 0), Instr(RPN_PUSH_T, 0), Instr(RPN_EQ, 0)])
  {
    Stop(src, Scan(3, [Instr(RPN_PUSH_T, 0), Instr(RPN_PUSH_T, 0)], [Op(RPN_EQ)], 0, false));
    assert [Op(RPN_EQ)][..0] == [];
    assert [Instr(RPN_PUSH_T, 0), Instr(RPN_PUSH_T, 0)] + [Instr(RPN_EQ, 0)] == [Instr(RPN_PUSH_T, 0), Instr(RPN_PUSH_T, 0), Instr(RPN_EQ, 0)];
    assert EmitTop([Instr(RPN_PUSH_T, 0), Instr(RPN_PUSH_T, 0)], [Op(RPN_EQ)]) == Ok([Instr(RPN_PUSH_T, 0), Instr(RPN_PUSH_T, 0), Instr(RPN_EQ, 0)]);
    assert PopAll([Instr(RPN_PUSH_T, 0), Instr(RPN_PUSH_T, 0), Instr(RPN_EQ, 0)], []) == Ok([Instr(RPN_PUSH_T, 0), Instr(RPN_PUSH_T, 0), Instr(RPN_EQ, 0)]);
    assert PopAll([Instr(RPN_PUSH_T, 0), Instr(RPN_PUSH_T, 0)], [Op(RPN_EQ)]) == Ok([Instr(RPN_PUSH_T, 0), Instr(RPN_PUSH_T, 0), Instr(RPN_EQ, 0)]);
  }

  lemma SingleEqualsCompiles(src: seq<char>)
    requires Spells(src, "t=t")
    ensures Compile(src) == Ok([Instr(RPN_PUSH_T, 0), Instr(RPN_PUSH_T, 0), Instr(RPN_EQ, 0)])
  {
    SingleEqualsStep0(src);
    SingleEqualsStep1(src);
    SingleEqualsStep2(src);
    SingleEqualsFinish(src);
  }

  lemma SingleEqualsTree()
    ensures Emit(Binary(RPN_EQ, TVar, TVar)) == [Instr(RPN_PUSH_T, 0), Instr(RPN_PUSH_T, 0), Instr(RPN_EQ, 0)]
  {
  }

  lemma SingleEqualsValue(t: bv32, ws: WideShifts)
    ensures Denote(Binary(RPN_EQ, TVar, TVar), t, ws) == 1
  {
  }

  /** A single `=` is equality. */
  lemma SingleEquals(ws: WideShifts)
    ensures Compile("t=t") == Ok(Emit(Binary(RPN_EQ, TVar, TVar)))
    ensures forall t :: Evaluate(Emit(Binary(RPN_EQ, TVar, TVar)), t, ws) == 1
  {
    SingleEqualsCompiles("t=t");
    SingleEqualsTree();
    forall t
      ensures Evaluate(Emit(Binary(RPN_EQ, TVar, TVar)), t, ws) == 1
    {
      EmitEvaluates(Binary(RPN_EQ, TVar, TVar), t, ws);
      SingleEqualsValue(t, ws);
    }
  }

  lemma XorOrLeftToRightStep0(src: seq<char>)
    requires Spells(src, "1|1^1")
    ensures CompileFrom(src, Scan(0, [], [], 0, true))
         == CompileFrom(src, Scan(1, [Instr(RPN_PUSH_NUM, 1)], [], 0, false))
  {
    assert DecDigits(src, 1, 1) == (1, 1);
    assert DecDigits(src, 0, 0) == (1, 1);
    assert NumberAt(src, 0) == Ok((1, 1));
    assert [] + [Instr(RPN_PUSH_NUM, 1)] == [Instr(RPN_PUSH_NUM, 1)];
    Advance(src, Scan(0, [], [], 0, true), Scan(1, [Instr(RPN_PUSH_NUM, 1)], [], 0, false));
  }

  lemma XorOrLeftToRightStep1(src: seq<char>)
    requires Spells(src, "1|1^1")
    ensures CompileFrom(src, Scan(1, [Instr(RPN_PUSH_NUM, 1)], [], 0, false))
         == CompileFrom(src, Scan(2, [Instr(RPN_PUSH_NUM, 1)], [Op(RPN_OR)], 0, true))
  {
    assert PopWhile([Instr(RPN_PUSH_NUM, 1)], [], 0, false) == Ok(([Instr(RPN_PUSH_NUM, 1)], []));
    assert [] + [Op(RPN_OR)] == [Op(RPN_OR)];
    Advance(src, Scan(1, [Instr(RPN_PUSH_NUM, 1)], [], 0, false), Scan(2, [Instr(RPN_PUSH_NUM, 1)], [Op(RPN_OR)], 0, true));
  }

  lemma XorOrLeftToRightStep2(src: seq<char>)
    requires Spells(src, "1|1^1")
    ensures CompileFrom(src, Scan(2, [Instr(RPN_PUSH_NUM, 1)], [Op(RPN_OR)], 0, true))
         == CompileFrom(src, Scan(3, [Instr(RPN_PUSH_NUM, 1), Instr(RPN_PUSH_NUM, 1)], [Op(RPN_OR)], 0, false))
  {
    assert DecDigits(src, 3, 1) == (3, 1);
    assert DecDigits(src, 2, 0) == (3, 1);
    assert NumberAt(src, 2) == Ok((3, 1));
    assert [Instr(RPN_PUSH_NUM, 1)] + [Instr(RPN_PUSH_NUM, 1)] == [Instr(RPN_PUSH_NUM, 1), Instr(RPN_PUSH_NUM, 1)];
    Advance(src, Scan(2, [Instr(RPN_PUSH_NUM, 1)], [Op(RPN_OR)], 0, true), Scan(3, [Instr(RPN_PUSH_NUM, 1), Instr(RPN_PUSH_NUM, 1)], [Op(RPN_OR)], 0, false));
  }

  lemma XorOrLeftToRightStep3(src: seq<char>)
    requires Spells(src, "1|1^1")
    ensures CompileFrom(src, Scan(3, [Instr(RPN_PUSH_NUM, 1), Instr(RPN_PUSH_NUM, 1)], [Op(RPN_OR)], 0, false))
         == CompileFrom(src, Scan(4, [Instr(RPN_PUSH_NUM, 1), Instr(RPN_PUSH_NUM, 1), Instr(RPN_OR, 0)], [Op(RPN_XOR)], 0, true))
  {
    assert [Op(RPN_OR)][..0] == [];
    assert [Instr(RPN_PUSH_NUM, 1), Instr(RPN_PUSH_NUM, 1)] + [Instr(RPN_OR, 0)] == [Instr(RPN_PUSH_NUM, 1), Instr(RPN_PUSH_NUM, 1), Instr(RPN_OR, 0)];
    assert EmitTop([Instr(RPN_PUSH_NUM, 1), Instr(RPN_PUSH_NUM, 1)], [Op(RPN_OR)]) == Ok([Instr(RPN_PUSH_NUM, 1), Instr(RPN_PUSH_NUM, 1), Instr(RPN_OR, 0)]);
    assert PopWhile([Instr(RPN_PUSH_NUM, 1), Instr(RPN_PUSH_NUM, 1), Instr(RPN_OR, 0)], [], 0, false) == Ok(([Instr(RPN_PUSH_NUM, 1), Instr(RPN_PUSH_NUM, 1), Instr(RPN_OR, 0)], []));
    assert PopWhile([Instr(RPN_PUSH_NUM, 1), Instr(RPN_PUSH_NUM, 1)], [Op(RPN_OR)], 0, false) == Ok(([Instr(RPN_PUSH_NUM, 1), Instr(RPN_PUSH_NUM, 1), Instr(RPN_OR, 0)], []));
    assert [Op(RPN_OR)][..0] == [];
    assert [] + [Op(RPN_XOR)] == [Op(RPN_XOR)];
    assert [Instr(RPN_PUSH_NUM, 1), Instr(RPN_PUSH_NUM, 1)] + [Instr(RPN_OR, 0)] == [Instr(RPN_PUSH_NUM, 1), Instr(RPN_PUSH_NUM, 1), Instr(RPN_OR, 0)];
    Advance(src, Scan(3, [Instr(RPN_PUSH_NUM, 1), Instr(RPN_PUSH_NUM, 1)], [Op(RPN_OR)], 0, false), Scan(4, [Instr(RPN_PUSH_NUM, 1), Instr(RPN_PUSH_NUM, 1), Instr(RPN_OR, 0)], [Op(RPN_XOR)], 0, true));
  }

  lemma XorOrLeftToRightStep4(src: seq<char>)
    requires Spells(src, "1|1^1")
    ensures CompileFrom(src, Scan(4, [Instr(RPN_PUSH_NUM, 1), Instr(RPN_PUSH_NUM, 1), Instr(RPN_OR, 0)], [Op(RPN_XOR)], 0, true))
         == CompileFrom(src, Scan(5, [Instr(RPN_PUSH_NUM, 1), Instr(RPN_PUSH_NUM, 1), Instr(RPN_OR, 0), Instr(RPN_PUSH_NUM, 1)], [Op(RPN_XOR)], 0, false))
  {
    assert DecDigits(src, 5, 1) == (5, 1);
    assert DecDigits(src, 4, 0) == (5, 1);
    assert NumberAt(src, 4) == Ok((5, 1));
    assert [Instr(RPN_PUSH_NUM, 1), Instr(RPN_PUSH_NUM, 1), Instr(RPN_OR, 0)] + [Instr(RPN_PUSH_NUM, 1)] == [Instr(RPN_PUSH_NUM, 1), Instr(RPN_PUSH_NUM, 1), Instr(RPN_OR, 0), Instr(RPN_PUSH_NUM, 1)];
    Advance(src, Scan(4, [Instr(RPN_PUSH_NUM, 1), Instr(RPN_PUSH_NUM, 1), Instr(RPN_OR, 0)], [Op(RPN_XOR)], 0, true), Scan(5, [Instr(RPN_PUSH_NUM, 1), Instr(RPN_PUSH_NUM, 1), Instr(RPN_OR, 0), Instr(RPN_PUSH_NUM, 1)], [Op(RPN_XOR)], 0, false));
  }

  lemma XorOrLeftToRightFinish(src: seq<char>)
    requires Spells(src, "1|1^1")
    ensures CompileFrom(src, Scan(5, [Instr(RPN_PUSH_NUM, 1), Instr(RPN_PUSH_NUM, 1), Instr(RPN_OR, 0), Instr(RPN_PUSH_NUM, 1)], [Op(RPN_XOR)], 0, false)) == Ok([Instr(RPN_PUSH_NUM, 1), Instr(RPN_PUSH_NUM, 1), Instr(RPN_OR, 0), Instr(RPN_PUSH_NUM, 1), Instr(RPN_XOR, 0)])
  {
    Stop(src, Scan(5, [Instr(RPN_PUSH_NUM, 1), Instr(RPN_PUSH_NUM, 1), Instr(RPN_OR, 0), Instr(RPN_PUSH_NUM, 1)], [Op(RPN_XOR)], 0, false));
    assert [Op(RPN_XOR)][..0] == [];
    assert [Instr(RPN_PUSH_NUM, 1), Instr(RPN_PUSH_NUM, 1), Instr(RPN_OR, 0), Instr(RPN_PUSH_NUM, 1)] + [Instr(RPN_XOR, 0)] == [Instr(RPN_PUSH_NUM, 1), Instr(RPN_PUSH_NUM, 1), Instr(RPN_OR, 0), Instr(RPN_PUSH_NUM, 1), Instr(RPN_XOR, 0)];
    assert EmitTop([Instr(RPN_PUSH_NUM, 1), Instr(RPN_PUSH_NUM, 1), Instr(RPN_OR, 0), Instr(RPN_PUSH_NUM, 1)], [Op(RPN_XOR)]) == Ok([Instr(RPN_PUSH_NUM, 1), Instr(RPN_PUSH_NUM, 1), Instr(RPN_OR, 0), Instr(RPN_PUSH_NUM, 1), Instr(RPN_XOR, 0)]);
    assert PopAll([Instr(RPN_PUSH_NUM, 1), Instr(RPN_PUSH_NUM, 1), Instr(RPN_OR, 0), Instr(RPN_PUSH_NUM, 1), Instr(RPN_XOR, 0)], []) == Ok([Instr(RPN_PUSH_NUM, 1), Instr(RPN_PUSH_NUM, 1), Instr(RPN_OR, 0), Instr(RPN_PUSH_NUM, 1), Instr(RPN_XOR, 0)]);
    assert PopAll([Instr(RPN_PUSH_NUM, 1), Instr(RPN_PUSH_NUM, 1), Instr(RPN_OR, 0), Instr(RPN_PUSH_NUM, 1)], [Op(RPN_XOR)]) == Ok([Instr(RPN_PUSH_NUM, 1), Instr(RPN_PUSH_NUM, 1), Instr(RPN_OR, 0), Instr(RPN_PUSH_NUM, 1), Instr(RPN_XOR, 0)]);
  }

  lemma XorOrLeftToRightCompiles(src: seq<char>)
    requires Spells(src, "1|1^1")
    ensures Compile(src) == Ok([Instr(RPN_PUSH_NUM, 1), Instr(RPN_PUSH_NUM, 1), Instr(RPN_OR, 0), Instr(RPN_PUSH_NUM, 1), Instr(RPN_XOR, 0)])
  {
    XorOrLeftToRightStep0(src);
    XorOrLeftToRightStep1(src);
    XorOrLeftToRightStep2(src);
    XorOrLeftToRightStep3(src);
    XorOrLeftToRightStep4(src);
    XorOrLeftToRightFinish(src);
  }

  lemma XorOrLeftToRightTree()
    ensures Emit(Binary(RPN_XOR, Binary(RPN_OR, Const(1), Const(1)), Const(1))) == [Instr(RPN_PUSH_NUM, 1), Instr(RPN_PUSH_NUM, 1), Instr(RPN_OR, 0), Instr(RPN_PUSH_NUM, 1), Instr(RPN_XOR, 0)]
  {
  }

  lemma XorOrLeftToRightValue(ws: WideShifts)
    ensures Denote(Binary(RPN_XOR, Binary(RPN_OR, Const(1), Const(1)), Const(1)), 0, ws) == 0
  {
    assert Denote(Binary(RPN_OR, Const(1), Const(1)), 0, ws) == 1;
    assert Denote(Binary(RPN_XOR, Binary(RPN_OR, Const(1), Const(1)), Const(1)), 0, ws) == 0;
  }

  /** `^` and `|` share the lowest precedence and group left to right: (1|1)^1 = 0, where C reads 1|(1^1) = 1. */
  lemma XorOrLeftToRight(ws: WideShifts)
    ensures Compile("1|1^1") == Ok(Emit(Binary(RPN_XOR, Binary(RPN_OR, Const(1), Const(1)), Const(1))))
    ensures Evaluate(Emit(Binary(RPN_XOR, Binary(RPN_OR, Const(1), Const(1)), Const(1))), 0, ws) == 0
  {
    XorOrLeftToRightCompiles("1|1^1");
    XorOrLeftToRightTree();
    EmitEvaluates(Binary(RPN_XOR, Binary(RPN_OR, Const(1), Const(1)), Const(1)), 0, ws);
    XorOrLeftToRightValue(ws);
  }

  lemma AndBelowEqualityStep0(src: seq<char>)
    requires Spells(src, "1&1=2")
    ensures CompileFrom(src, Scan(0, [], [], 0, true))
         == CompileFrom(src, Scan(1, [Instr(RPN_PUSH_NUM, 1)], [], 0, false))
  {
    assert DecDigits(src, 1, 1) == (1, 1);
    assert DecDigits(src, 0, 0) == (1, 1);
    assert NumberAt(src, 0) == Ok((1, 1));
    assert [] + [Instr(RPN_PUSH_NUM, 1)] == [Instr(RPN_PUSH_NUM, 1)];
    Advance(src, Scan(0, [], [], 0, true), Scan(1, [Instr(RPN_PUSH_NUM, 1)], [], 0, false));
  }

  lemma AndBelowEqualityStep1(src: seq<char>)
    requires Spells(src, "1&1=2")
    ensures CompileFrom(src, Scan(1, [Instr(RPN_PUSH_NUM, 1)], [], 0, false))
         == CompileFrom(src, Scan(2, [Instr(RPN_PUSH_NUM, 1)], [Op(RPN_AND)], 0, true))
  {
    assert PopWhile([Instr(RPN_PUSH_NUM, 1)], [], 1, false) == Ok(([Instr(RPN_PUSH_NUM, 1)], []));
    assert [] + [Op(RPN_AND)] == [Op(RPN_AND)];
    Advance(src, Scan(1, [Instr(RPN_PUSH_NUM, 1)], [], 0, false), Scan(2, [Instr(RPN_PUSH_NUM, 1)], [Op(RPN_AND)], 0, true));
  }

  lemma AndBelowEqualityStep2(src: seq<char>)
    requires Spells(src, "1&1=2")
    ensures CompileFrom(src, Scan(2, [Instr(RPN_PUSH_NUM, 1)], [Op(RPN_AND)], 0, true))
         == CompileFrom(src, Scan(3, [Instr(RPN_PUSH_NUM, 1), Instr(RPN_PUSH_NUM, 1)], [Op(RPN_AND)], 0, false))
  {
    assert DecDigits(src, 3, 1) == (3, 1);
    assert DecDigits(src, 2, 0) == (3, 1);
    assert NumberAt(src, 2) == Ok((3, 1));
    assert [Instr(RPN_PUSH_NUM, 1)] + [Instr(RPN_PUSH_NUM, 1)] == [Instr(RPN_PUSH_NUM, 1), Instr(RPN_PUSH_NUM, 1)];
    Advance(src, Scan(2, [Instr(RPN_PUSH_NUM, 1)], [Op(RPN_AND)], 0, true), Scan(3, [Instr(RPN_PUSH_NUM, 1), Instr(RPN_PUSH_NUM, 1)], [Op(RPN_AND)], 0, false));
  }

  lemma AndBelowEqualityStep3(src: seq<char>)
    requires Spells(src, "1&1=2")
    ensures CompileFrom(src, Scan(3, [Instr(RPN_PUSH_NUM, 1), Instr(RPN_PUSH_NUM, 1)], [Op(RPN_AND)], 0, false))
         == CompileFrom(src, Scan(4, [Instr(RPN_PUSH_NUM, 1), Instr(RPN_PUSH_NUM, 1)], [Op(RPN_AND), Op(RPN_EQ)], 0, true))
  {
    assert PopWhile([Instr(RPN_PUSH_NUM, 1), Instr(RPN_PUSH_NUM, 1)], [Op(RPN_AND)], 2, false) == Ok(([Instr(RPN_PUSH_NUM, 1), Instr(RPN_PUSH_NUM, 1)], [Op(RPN_AND)]));
    assert [Op(RPN_AND)] + [Op(RPN_EQ)] == [Op(RPN_AND), Op(RPN_EQ)];
    Advance(src, Scan(3, [Instr(RPN_PUSH_NUM, 1), Instr(RPN_PUSH_NUM, 1)], [Op(RPN_AND)], 0, false), Scan(4, [Instr(RPN_PUSH_NUM, 1), Instr(RPN_PUSH_NUM, 1)], [Op(RPN_AND), Op(RPN_EQ)], 0, true));
  }

  lemma AndBelowEqualityStep4(src: seq<char>)
    requires Spells(src, "1&1=2")
    ensures CompileFrom(src, Scan(4, [Instr(RPN_PUSH_NUM, 1), Instr(RPN_PUSH_NUM, 1)], [Op(RPN_AND), Op(RPN_EQ)], 0, true))
         == CompileFrom(src, Scan(5, [Instr(RPN_PUSH_NUM, 1), Instr(RPN_PUSH_NUM, 1), Instr(RPN_PUSH_NUM, 2)], [Op(RPN_AND), Op(RPN_EQ)], 0, false))
  {
    assert DecDigits(src, 5, 2) == (5, 2);
    assert DecDigits(src, 4, 0) == (5, 2);
    assert NumberAt(src, 4) == Ok((5, 2));
    assert [Instr(RPN_PUSH_NUM, 1), Instr(RPN_PUSH_NUM, 1)] + [Instr(RPN_PUSH_NUM, 2)] == [Instr(RPN_PUSH_NUM, 1), Instr(RPN_PUSH_NUM, 1), Instr(RPN_PUSH_NUM, 2)];
    Advance(src, Scan(4, [Instr(RPN_PUSH_NUM, 1), Instr(RPN_PUSH_NUM, 1)], [Op(RPN_AND), Op(RPN_EQ)], 0, true), Scan(5, [Instr(RPN_PUSH_NUM, 1), Instr(RPN_PUSH_NUM, 1), Instr(RPN_PUSH_NUM, 2)], [Op(RPN_AND), Op(RPN_EQ)], 0, false));
  }

  lemma AndBelowEqualityFinish(src: seq<char>)
    requires Spells(src, "1&1=2")
    ensures CompileFrom(src, Scan(5, [Instr(RPN_PUSH_NUM, 1), Instr(RPN_PUSH_NUM, 1), Instr(RPN_PUSH_NUM, 2)], [Op(RPN_AND), Op(RPN_EQ)], 0, false)) == Ok([Instr(RPN_PUSH_NUM, 1), Instr(RPN_PUSH_NUM, 1), Instr(RPN_PUSH_NUM, 2), Instr(RPN_EQ, 0), Instr(RPN_AND, 0)])
  {
    Stop(src, Scan(5, [Instr(RPN_PUSH_NUM, 1), Instr(RPN_PUSH_NUM, 1), Instr(RPN_PUSH_NUM, 2)], [Op(RPN_AND), Op(RPN_EQ)], 0, false));
    assert [Op(RPN_AND), Op(RPN_EQ)][..1] == [Op(RPN_AND)];
    assert [Instr(RPN_PUSH_NUM, 1), Instr(RPN_PUSH_NUM, 1), Instr(RPN_PUSH_NUM, 2)] + [Instr(RPN_EQ, 0)] == [Instr(RPN_PUSH_NUM, 1), Instr(RPN_PUSH_NUM, 1), Instr(RPN_PUSH_NUM, 2), Instr(RPN_EQ, 0)];
    assert EmitTop([Instr(RPN_PUSH_NUM, 1), Instr(RPN_PUSH_NUM, 1), Instr(RPN_PUSH_NUM, 2)], [Op(RPN_AND), Op(RPN_EQ)]) == Ok([Instr(RPN_PUSH_NUM, 1), Instr(RPN_PUSH_NUM, 1), Instr(RPN_PUSH_NUM, 2), Instr(RPN_EQ, 0)]);
    assert [Op(RPN_AND)][..0] == [];
    assert [Instr(RPN_PUSH_NUM, 1), Instr(RPN_PUSH_NUM, 1), Instr(RPN_PUSH_NUM, 2), Instr(RPN_EQ, 0)] + [Instr(RPN_AND, 0)] == [Instr(RPN_PUSH_NUM, 1), Instr(RPN_PUSH_NUM, 1), Instr(RPN_PUSH_NUM, 2), Instr(RPN_EQ, 0), Instr(RPN_AND, 0)];
    assert EmitTop([Instr(RPN_PUSH_NUM, 1), Instr(RPN_PUSH_NUM, 1), Instr(RPN_PUSH_NUM, 2), Instr(RPN_EQ, 0)], [Op(RPN_AND)]) == Ok([Instr(RPN_PUSH_NUM, 1), Instr(RPN_PUSH_NUM, 1), Instr(RPN_PUSH_NUM, 2), Instr(RPN_EQ, 0), Instr(RPN_AND, 0)]);
    assert PopAll([Instr(RPN_PUSH_NUM, 1), Instr(RPN_PUSH_NUM, 1), Instr(RPN_PUSH_NUM, 2), Instr(RPN_EQ, 0), Instr(RPN_AND, 0)], []) == Ok([Instr(RPN_PUSH_NUM, 1), Instr(RPN_PUSH_NUM, 1), Instr(RPN_PUSH_NUM, 2), Instr(RPN_EQ, 0), Instr(RPN_AND, 0)]);
    assert PopAll([Instr(RPN_PUSH_NUM, 1), Instr(RPN_PUSH_NUM, 1), Instr(RPN_PUSH_NUM, 2), Instr(RPN_EQ, 0)], [Op(RPN_AND)]) == Ok([Instr(RPN_PUSH_NUM, 1), Instr(RPN_PUSH_NUM, 1), Instr(RPN_PUSH_NUM, 2), Instr(RPN_EQ, 0), Instr(RPN_AND, 0)]);
    assert PopAll([Instr(RPN_PUSH_NUM, 1), Instr(RPN_PUSH_NUM, 1), Instr(RPN_PUSH_NUM, 2)], [Op(RPN_AND), Op(RPN_EQ)]) == Ok([Instr(RPN_PUSH_NUM, 1), Instr(RPN_PUSH_NUM, 1), Instr(RPN_PUSH_NUM, 2), Instr(RPN_EQ, 0), Instr(RPN_AND, 0)]);
  }

  lemma AndBelowEqualityCompiles(src: seq<char>)
    requires Spells(src, "1&1=2")
    ensures Compile(src) == Ok([Instr(RPN_PUSH_NUM, 1), Instr(RPN_PUSH_NUM, 1), Instr(RPN_PUSH_NUM, 2), Instr(RPN_EQ, 0), Instr(RPN_AND, 0)])
  {
    AndBelowEqualityStep0(src);
    AndBelowEqualityStep1(src);
    AndBelowEqualityStep2(src);
    AndBelowEqualityStep3(src);
    AndBelowEqualityStep4(src);
    AndBelowEqualityFinish(src);
  }

  lemma AndBelowEqualityTree()
    ensures Emit(Binary(RPN_AND, Const(1), Binary(RPN_EQ, Const(1), Const(2)))) == [Instr(RPN_PUSH_NUM, 1), Instr(RPN_PUSH_NUM, 1), Instr(RPN_PUSH_NUM, 2), Instr(RPN_EQ, 0), Instr(RPN_AND, 0)]
  {
  }

  lemma AndBelowEqualityValue(ws: WideShifts)
    ensures Denote(Binary(RPN_AND, Const(1), Binary(RPN_EQ, Const(1), Const(2))), 0, ws) == 0
  {
    assert Denote(Binary(RPN_EQ, Const(1), Const(2)), 0, ws) == 0;
    assert Denote(Binary(RPN_AND, Const(1), Binary(RPN_EQ, Const(1), Const(2))), 0, ws) == 0;
  }

  /** `&` binds more loosely than `=`: 1&(1=2) = 0. */
  lemma AndBelowEquality(ws: WideShifts)
    ensures Compile("1&1=2") == Ok(Emit(Binary(RPN_AND, Const(1), Binary(RPN_EQ, Const(1), Const(2)))))
    ensures Evaluate(Emit(Binary(RPN_AND, Const(1), Binary(RPN_EQ, Const(1), Const(2)))), 0, ws) == 0
  {
    AndBelowEqualityCompiles("1&1=2");
    AndBelowEqualityTree();
    EmitEvaluates(Binary(RPN_AND, Const(1), Binary(RPN_EQ, Const(1), Const(2))), 0, ws);
    AndBelowEqualityValue(ws);
  }

}
