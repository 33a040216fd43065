# Bytebeat pocket: a verified model of the firmware core

This project is a Dafny model of the core of the bytebeat pocket synthesizer firmware.
On the device an expression in `t` is typed on a key matrix, compiled to postfix bytecode and run once per audio sample.
The model covers the following parts.

- **The expression compiler** (`compileToRPN`).
  - It is specified as a pure scanner (`RpnCompilerSpec`): one step per character, an explicit operator stack, and the final flush.
  - It is implemented over the 32-entry program array and the 64-entry operator stack (`RpnCompiler`).
  - The implementation is proved to return exactly what the specification computes, including which error it reports.
  - Every program it produces is proved well formed: 1 to 32 known opcodes, no stack underflow, and net depth 1 (`RpnProperties`).
- **The stack VM** (`executeRPN`).
  - It runs over an 8-entry `uint32` stack (`RpnVm`) and is proved equal to a functional evaluator.
  - The postfix code of an expression tree is proved to compute the tree's value (`RpnTerms`).
- **Concrete compilations** (`RpnOracles`).
  - These cover the firmware's own test expressions, every compiler error path, and grammar and arithmetic edge cases.
  - Each one proves the program or error `compileToRPN` returns, and the value where the tests check one.
- **The editor** (`keyboard.c`, `ui.c`). `EditorSpec` states it as functions on a record of the editor globals:
  - the text buffer, `text_len` and the cursor;
  - the mode and the current slot;
  - the play, recompile, reset and redraw flags;
  - the 4096-byte preset sector.

  `Firmware.Device` is a class over the same globals, with a 256-byte `textBuffer` array. Each of its methods is proved equal to its function.
- **The preset sector** (`preset.c`, `PresetLayout`).
  - It is modelled as nine 256-byte slots, with `0xFF` as the erased marker and a factory preset for each slot.
  - Save and load are proved to round-trip, and a save is proved to leave the other slots alone.
- **The main loop** (`main.c`).
  - The key-repeat state machine (`KeyRepeat`).
  - The serial line editor (`SerialLine`).
  - The double-buffered program swap and the audio callback (`ProgramSwap`).
  - One pass of `core1_main` (`MainLoop`).

Each of the following is a parameter of the model:

- the clock;
- the scanned key matrix;
- the serial character and whether USB is connected;
- the flash contents at boot.

`uint32_t` values are `bv32`, and `uint8_t` values are a `byte` newtype. In C, a shift by 32 or more is undefined. The VM takes a `WideShifts` parameter that supplies an arbitrary result for those shifts and is used for nothing else.
The literal scanner's `uint32_t` accumulator is kept as a natural number below 2^32: the hex step `(num << 4) | digit` and the binary step `(num << 1) | bit` are written as `(num * 16 + digit) % 2^32` and `(num * 2 + bit) % 2^32`, which `RpnCompilerSpec.ShiftOrIsMulAdd` shows to be the same values.

## Model

| member | source | states |
|---|---|---|
| RpnTypes.Precedence | src/rpn_vm.c:26-55 | the binding strength of each opcode: unary 7, `* / %` 6, `+ -` 5, shifts 4, relations 3, equality 2, `&` 1, and `^ \|` and every other code 0 |
| RpnTypes.HexDigitCharacters | src/rpn_vm.c:20-24 | `IsHexDigit` holds exactly for 0-9, a-f and A-F |
| RpnTypes.ShiftLeft | src/rpn_vm.c:440-446 | `a << b` on a `uint32_t`: for a count below 32 it is the product with 2^b modulo 2^32, and its low b bits are zero; a wider count gives the undefined-shift result |
| RpnTypes.ShiftRight | src/rpn_vm.c:448-454 | `a >> b` on a `uint32_t`: for a count below 32 its top b bits are zero; a wider count gives the undefined-shift result |
| RpnTypes.PendingCode | src/rpn_vm.c:273-279 | an operator-stack entry's code is the open-parenthesis code exactly for `(` |
| RpnVm.Bit | src/rpn_vm.c:456-503 | a comparison pushes 1 when it holds and 0 otherwise |
| RpnVm.ZeroDivisorResults | src/rpn_vm.c:386-400 | `/` and `%` by zero yield 0 instead of trapping |
| RpnVm.ComparisonResults | src/rpn_vm.c:456-479 | `<`, `>` and `=` are unsigned comparisons that give 1 when they hold and 0 otherwise |
| RpnVm.NegatedComparisonResults | src/rpn_vm.c:480-503 | `<=`, `>=` and `!=` give 0 exactly when `>`, `<` and `=` hold |
| RpnVm.CommutativeResults | src/rpn_vm.c:362-425 | `+`, `*`, `&`, `\|`, `^`, `=` and `!=` do not depend on the order of their operands |
| RpnVm.ShiftResults | src/rpn_vm.c:440-455 | with a count below 32 the shift opcodes are the plain `uint32_t` shifts, whatever the undefined wide shifts give |
| RpnVm.UnaryResult | src/rpn_vm.c:426-439 | `~a` is the bitwise complement (disjoint from a, and together all ones), and `-a` is the two's complement (adding a gives 0) |
| RpnVm.Evaluate | src/rpn_vm.c:506 | executeRPN's result: 0 for the empty program, otherwise the top of the final stack; a program ending in a push that fits returns the pushed `t` or immediate |
| RpnVm.Apply | src/rpn_vm.c:352-504 | one instruction never grows the stack past its 8 entries |
| RpnVm.Run | src/rpn_vm.c:346-505 | running a program never grows the stack past its 8 entries |
| RpnVm.ApplyPush | src/rpn_vm.c:354-361 | a push appends `t` or the immediate while the stack has room, and is dropped on a full stack |
| RpnVm.ApplyBinary | src/rpn_vm.c:362-425 | a binary operator replaces the top two entries, with the older one as left operand, by `RpnVm.BinaryResult`, the operator switch of rpn_vm.c:362-504 whose cases the `RpnVm` result lemmas below state; with fewer than two entries nothing happens |
| RpnVm.ApplyUnary | src/rpn_vm.c:426-439 | `~` and unary `-` replace the top entry; on an empty stack nothing happens |
| RpnVm.ApplyOther | src/rpn_vm.c:352-504 | an unknown opcode leaves the stack unchanged |
| RpnVm.ExecuteRPN | src/rpn_vm.c:346-507 | executeRPN's loop over the array stack returns the top of the functional evaluation of the first `program_len` instructions, or 0 when the stack is empty |
| RpnVm.ExecuteOne | src/rpn_vm.c:352-504 | one pass of the dispatch leaves in the array stack exactly what `Apply` gives |
| RpnVm.ExecuteBinary | src/rpn_vm.c:362-425 | the binary cases on the array stack equal `Apply` |
| RpnVm.PushValue | src/rpn_vm.c:354-361 | a push stores the value on top when there is room, and otherwise leaves the stack unchanged |
| RpnVm.ReplaceTop | src/rpn_vm.c:426-439 | popping n entries and pushing v leaves the old stack minus n entries, plus v |
| RpnCompilerSpec.At | src/rpn_vm.c:71-72 | reading past the end of the text gives NUL, and inside it gives the character |
| RpnCompilerSpec.HexValue | src/rpn_vm.c:105-116 | a hex digit's value is below 16 |
| RpnCompilerSpec.DecValue | src/rpn_vm.c:132-146 | a decimal digit's value is below 10 |
| RpnCompilerSpec.BitValue | src/rpn_vm.c:127 | a binary digit's value is its character minus `0`, below 2 |
| RpnCompilerSpec.HexDigits | src/rpn_vm.c:103-118 | the hex loop consumes only hex digits and stops at the end of the text or at the first non-hex character, with a `uint32_t` accumulator |
| RpnCompilerSpec.BinDigits | src/rpn_vm.c:126-130 | the binary loop consumes only 0 and 1 and stops at the end of the text or at the first other character |
| RpnCompilerSpec.DecDigits | src/rpn_vm.c:132-146 | the decimal loop consumes only digits and stops at the end of the text or at the first non-digit |
| RpnCompilerSpec.ShiftOrIsMulAdd | src/rpn_vm.c:115-127 | on a `uint32_t`, `(num << 4) \| digit` is `num * 16 + digit` and `(num << 1) \| bit` is `num * 2 + bit`, both modulo 2^32 |
| RpnCompilerSpec.HexDigitsPrefix | src/rpn_vm.c:103-118 | after consuming a run of hex digits the accumulator holds their value modulo 2^32 |
| RpnCompilerSpec.BinDigitsPrefix | src/rpn_vm.c:126-130 | after consuming a run of binary digits the accumulator holds their value modulo 2^32 |
| RpnCompilerSpec.DecDigitsPrefix | src/rpn_vm.c:132-146 | after consuming a run of decimal digits the accumulator holds their value modulo 2^32 |
| RpnCompilerSpec.HexDigitsValue | src/rpn_vm.c:103-118 | the hex loop's result is the value of the digits it consumed, read most significant first, modulo 2^32 |
| RpnCompilerSpec.BinDigitsValue | src/rpn_vm.c:126-130 | the binary loop's result is the value of the digits it consumed modulo 2^32 |
| RpnCompilerSpec.DecDigitsValue | src/rpn_vm.c:132-146 | the decimal loop's result is the value of the digits it consumed modulo 2^32 (so `4294967297` gives 1) |
| RpnCompilerSpec.NumberAt | src/rpn_vm.c:86-147 | a literal fails exactly when a `0x` or `0b` prefix that passes the bounds test has no digit of its radix after it, and then with ErrToken; otherwise it consumes at least one character |
| RpnCompilerSpec.NumberAtValue | src/rpn_vm.c:91-147 | a literal's value is that of the digits after a `0x` prefix in base 16, after a `0b` prefix in base 2, and otherwise of the decimal digits, modulo 2^32; every consumed digit is of that radix |
| RpnCompilerSpec.HexAt | src/rpn_vm.c:103-118 | the hex digits from i: at least one is consumed, all are hex, and the value is theirs modulo 2^32 |
| RpnCompilerSpec.BinaryAt | src/rpn_vm.c:126-130 | the binary digits from i: at least one is consumed, all are 0 or 1, and the value is theirs modulo 2^32 |
| RpnCompilerSpec.DecimalAt | src/rpn_vm.c:132-146 | the decimal digits from i: at least one is consumed, all are digits, and the value is theirs modulo 2^32 |
| RpnCompilerSpec.OperatorAt | src/rpn_vm.c:187-263 | operator classification: it fails, with ErrToken, exactly on `~` after an operand and on a character outside the operator set; `<<`, `<=`, `>>` and `>=` are matched as two-character operators before `<` and `>`, and a `<` or `>` followed by anything else is one character wide; binary operators are left-associative and unary ones right-associative; `!=` is never produced |
| RpnCompilerSpec.PopsOver | src/rpn_vm.c:294-306 | an incoming operator pops the top entry only if it is an operator binding at least as tightly; it always pops a strictly tighter one, and at equal precedence it pops exactly when the incoming operator is left-associative; `(` never pops |
| RpnCompilerSpec.EmitTop | src/rpn_vm.c:296-303 | emitting the top operator fails with ErrProgramTooLong exactly when the program already has 32 instructions; otherwise it appends that operator's code with no immediate and keeps the program before it |
| RpnCompilerSpec.PopToParen | src/rpn_vm.c:280-291 | popping to `(` fails only with ErrProgramTooLong |
| RpnCompilerSpec.PopWhile | src/rpn_vm.c:294-306 | the precedence pops fail only with ErrProgramTooLong |
| RpnCompilerSpec.PopAll | src/rpn_vm.c:330-340 | the final flush fails only with ErrProgramTooLong |
| RpnCompilerSpec.Step | src/rpn_vm.c:71-316 | each pass of the scanning loop moves forward within the text, or stops with ErrParen, ErrToken or ErrProgramTooLong |
| RpnCompilerSpec.NumberStep | src/rpn_vm.c:86-159 | a literal moves forward, or fails with one of the three compile errors |
| RpnCompilerSpec.CloseStep | src/rpn_vm.c:197-210 | `)` consumes exactly one character, or fails with one of the three compile errors |
| RpnCompilerSpec.OperatorStep | src/rpn_vm.c:187-315 | an operator moves forward, or fails with one of the three compile errors |
| RpnCompilerSpec.Finish | src/rpn_vm.c:318-342 | the final checks and flush fail only with one of the three compile errors |
| RpnCompilerSpec.PositionErrors | src/rpn_vm.c:74-269 | in any scanner state, with room in the program: a literal, `t`, `(` or `~` after an operand is ErrToken; a binary operator where an operand is expected is ErrToken; `)` there is ErrParen; `)` with no `(` open is ErrToken; an unknown character is ErrToken; a full program is ErrProgramTooLong first |
| RpnCompilerSpec.FinishErrors | src/rpn_vm.c:318-328 | after the last character a missing operand is ErrToken; otherwise an unclosed `(` is ErrParen; otherwise the operator stack is flushed |
| RpnCompilerSpec.CompileFrom | src/rpn_vm.c:71-342 | the scanner from a given state fails only with ErrParen, ErrToken or ErrProgramTooLong; ErrStack is never reported |
| RpnCompilerSpec.Compile | src/rpn_vm.c:58-343 | compileToRPN fails only with ErrParen, ErrToken or ErrProgramTooLong, and an empty text is ErrToken |
| RpnCompiler.CompileToRPN | src/rpn_vm.c:58-343 | compileToRPN over the program and operator-stack arrays: on success, ErrNone and the returned length and the first `len` instructions are the specified program; on failure, the specified error and length 0 |
| RpnCompiler.CompileStep | src/rpn_vm.c:71-316 | one pass of the array loop computes the specified `Step`, both the error and the new scan state |
| RpnCompiler.ScanNumber | src/rpn_vm.c:86-147 | scanning a literal gives the specified end position and value, and fails exactly when the specification does |
| RpnCompiler.ScanHex | src/rpn_vm.c:103-118 | the hex loop over a `uint32_t` accumulator computes `HexAt`: the end position and the digits' value modulo 2^32 |
| RpnCompiler.ScanBinary | src/rpn_vm.c:126-130 | the binary loop computes `BinaryAt` |
| RpnCompiler.ScanDecimal | src/rpn_vm.c:132-146 | the decimal loop computes `DecimalAt` |
| RpnCompiler.CompileNumber | src/rpn_vm.c:86-159 | a literal on the arrays computes `NumberStep` |
| RpnCompiler.CompileClose | src/rpn_vm.c:197-210 | `)` on the arrays computes `CloseStep` |
| RpnCompiler.CompileOperator | src/rpn_vm.c:187-315 | an operator on the arrays computes `OperatorStep` |
| RpnCompiler.StackOperator | src/rpn_vm.c:294-315 | the pops and the push of an operator on the arrays: the specified `PopWhile` result, plus the operator on top, or the error |
| RpnCompiler.EmitUntilParen | src/rpn_vm.c:280-291 | the pop-to-`(` loop on the arrays equals `PopToParen` |
| RpnCompiler.EmitWhileBinding | src/rpn_vm.c:294-306 | the precedence loop on the arrays equals `PopWhile` |
| RpnCompiler.EmitRemaining | src/rpn_vm.c:330-340 | the final loop on the arrays equals `PopAll` |
| RpnProperties.InvStart | src/rpn_vm.c:60-67 | the initial compiler state satisfies the scanner invariant |
| RpnProperties.AppendInstr | src/rpn_vm.c:352-504 | appending an instruction changes the net stack depth by its effect; the result underflows exactly when the prefix did or the instruction needs more than the depth; opcodes stay known exactly when the new one is known |
| RpnProperties.PushPending | src/rpn_vm.c:273-315 | pushing onto the operator stack counts one more pending binary operator or one more open parenthesis |
| RpnProperties.PopOne | src/rpn_vm.c:294-306 | emitting the top pending operator keeps the program shape and the parenthesis count |
| RpnProperties.PopWhileShape | src/rpn_vm.c:294-306 | the precedence pops keep the shape invariant and the parenthesis count |
| RpnProperties.PopWhileUnary | src/rpn_vm.c:294-306 | a unary operator (precedence 7, right-associative) pops nothing |
| RpnProperties.PopToParenShape | src/rpn_vm.c:280-291 | popping to `(` keeps the shape invariant and stops at the open parenthesis when one is pending |
| RpnProperties.PopAllShape | src/rpn_vm.c:330-340 | with no open parenthesis, the final flush leaves a program of net depth 1 that never underflows |
| RpnProperties.UnaryOnlyInOperandPosition | src/rpn_vm.c:211-242 | a unary operator is produced only where an operand is expected, with precedence 7 |
| RpnProperties.StepKeepsInv | src/rpn_vm.c:71-316 | every pass of the scanning loop keeps the invariant: the output so far is a well-formed prefix whose depth is the number of pending binary operators, plus 1 after an operand, and `numParentheses` counts the pending `(` |
| RpnProperties.NumberStepKeepsInv | src/rpn_vm.c:86-159 | a literal keeps the invariant |
| RpnProperties.CloseStepKeepsInv | src/rpn_vm.c:197-210 | `)` keeps the invariant |
| RpnProperties.OperatorStepKeepsInv | src/rpn_vm.c:187-315 | an operator keeps the invariant |
| RpnProperties.BinaryPushKeepsInv | src/rpn_vm.c:265-315 | stacking a binary operator after the pops keeps the invariant and now expects an operand |
| RpnProperties.UnaryPushKeepsInv | src/rpn_vm.c:211-242 | stacking a unary operator keeps the invariant |
| RpnProperties.OperatorStepValue | src/rpn_vm.c:294-315 | a successful operator step is the pops, then the push of the operator, then a move past its one or two characters |
| RpnProperties.PushOperator | src/rpn_vm.c:308-314 | a pending binary operator lowers the extra depth by one, and a unary operator leaves it unchanged |
| RpnProperties.CompileFromSound | src/rpn_vm.c:71-342 | from any state satisfying the invariant, a successful compile yields a program of net depth 1 that never underflows |
| RpnProperties.CompiledProgramWellFormed | src/rpn_vm.c:58-343 | every program compileToRPN accepts has 1 to 32 instructions, only known opcodes, no underflow, and net depth 1 |
| RpnProperties.DepthBelowPeak | src/rpn_vm.c:352-504 | the final depth is at most the peak depth, which only grows with the program |
| RpnProperties.RunMatchesDepth | src/rpn_vm.c:346-507 | a program that never underflows and peaks within 8 entries leaves exactly its net depth on the VM's stack |
| RpnProperties.CompiledProgramLeavesOneValue | src/rpn_vm.c:506 | a compiled program that fits the stack leaves one value, which executeRPN returns |
| RpnTerms.Height | src/rpn_vm.c:346-507 | an expression tree needs at least one stack slot |
| RpnTerms.RunSnoc | src/rpn_vm.c:350-505 | the VM runs a program one instruction after another |
| RpnTerms.RunPush | src/rpn_vm.c:354-361 | a push with room appends its value |
| RpnTerms.RunUnaryAfter | src/rpn_vm.c:426-439 | a unary instruction after a prefix replaces that prefix's top value |
| RpnTerms.ApplyBinaryOnTop | src/rpn_vm.c:362-425 | a binary instruction combines the top two values, the older one as left operand |
| RpnTerms.RunBinaryAfter | src/rpn_vm.c:362-425 | a binary instruction after a prefix combines that prefix's top two values |
| RpnTerms.EmitBinaryShape | src/rpn_vm.c:294-340 | the postfix code of `l op r` is the code of l, then the code of r, then op |
| RpnTerms.EmitUnaryStep | src/rpn_vm.c:426-439 | the postfix code of a unary node pushes the node's value |
| RpnTerms.EmitBinaryStep | src/rpn_vm.c:362-425 | the postfix code of a binary node pushes the node's value |
| RpnTerms.RunEmit | src/rpn_vm.c:346-507 | the postfix code of a tree that fits the stack pushes exactly the tree's value onto whatever was there |
| RpnTerms.EmitEvaluates | src/rpn_vm.c:346-507 | executeRPN on the postfix code of a tree that fits the stack returns the tree's value at every t |
| RpnTerms.EmitNegates | src/rpn_vm.c:433-438 | the code of a negation node returns the two's complement of its operand's value: the two add to 0, at every t |
| RpnOracles.OnePlusTwo | src/test_rpn.c:12-21 | `1+2` compiles to push 1, push 2, add, which evaluates to 3 |
| RpnOracles.TimesTwo | src/test_rpn.c:23-31 | `t*2` compiles to the code of `t*2`, which gives 10 at t = 5 |
| RpnOracles.BinaryLiterals | src/test_rpn.c:33-41 | `0b1010&0b1100` compiles to `10 & 12`, which is 8 |
| RpnOracles.HexLiterals | src/test_rpn.c:43-51 | `0xFF+0x01` compiles to `255 + 1`, which is 256 |
| RpnOracles.ClassicBytebeat | src/test_rpn.c:53-61 | `t*(42&t>>10)` compiles to the code of the tree `t*(42&(t>>10))`, which is the grouping C gives the expression; at every t that code returns the tree's value under the VM's operators, and at t = 1000 it returns 0 |
| RpnOracles.MulBindsTighter | src/test_rpn.c:63-71 | `2+3*4` is `2+(3*4)` = 14 |
| RpnOracles.ParensOverride | src/test_rpn.c:73-81 | `(2+3)*4` = 20 |
| RpnOracles.LonePlus | src/test_rpn.c:83-89 | `+` alone fails with ErrToken |
| RpnOracles.UnclosedParen | src/test_rpn.c:91-96 | `(1+2` fails with ErrParen |
| RpnOracles.SquareShift | test_main.c:72-73 | `t*t>>8` compiles to the code of the tree `(t*t)>>8`, the grouping C gives it; at every t that code returns the tree's value under the VM's operators |
| RpnOracles.MaskTimes | test_main.c:77-78 | `(t>>10&42)*t` compiles to the code of the tree `((t>>10)&42)*t`; at every t that code returns the tree's value |
| RpnOracles.OrOfShifts | test_main.c:82-83 | `t*(t>>8\|t>>9)` compiles to the code of the tree `t*((t>>8)\|(t>>9))`; at every t that code returns the tree's value |
| RpnOracles.MultipleOr | test_main.c:92-93 | `t\|(t>>9\|t>>7)` compiles to the code of the tree `t\|((t>>9)\|(t>>7))`; at every t that code returns the tree's value |
| RpnOracles.MaskOperations | test_main.c:97-98 | `t*5&t>>7\|t*3&t>>10` compiles to the code of the tree `((t*5)&(t>>7))\|((t*3)&(t>>10))`, the grouping C gives it; at every t that code returns the tree's value |
| RpnOracles.OperandAfterOperand | src/rpn_vm.c:86-90 | `2 3` fails with ErrToken at the second literal; the rule for every state is `RpnCompilerSpec.PositionErrors` |
| RpnOracles.ParenAfterOperand | src/rpn_vm.c:188-192 | `2(3)` fails with ErrToken at the `(`; the rule for every state is `RpnCompilerSpec.PositionErrors` |
| RpnOracles.NotAfterOperand | src/rpn_vm.c:211-215 | `2~3` fails with ErrToken at the `~`; the rule for every state is `RpnCompilerSpec.PositionErrors` |
| RpnOracles.OperatorAtStart | src/rpn_vm.c:265-269 | `*2` fails with ErrToken at the `*`; the rule for every state is `RpnCompilerSpec.PositionErrors` |
| RpnOracles.CloseAfterOperator | src/rpn_vm.c:197-201 | `(1+)` fails with ErrParen at the `)`; the rule for every state is `RpnCompilerSpec.PositionErrors` |
| RpnOracles.EmptyParens | src/rpn_vm.c:197-201 | `()` is ErrParen |
| RpnOracles.UnmatchedClose | src/rpn_vm.c:202-205 | `1+2)` fails with ErrToken at the `)`; the rule for every state is `RpnCompilerSpec.PositionErrors` |
| RpnOracles.TrailingOperator | src/rpn_vm.c:318-322 | `1+` fails with ErrToken at the end of the text; the rule for every state is `RpnCompilerSpec.FinishErrors` |
| RpnOracles.EmptyText | src/rpn_vm.c:318-322 | the empty text is ErrToken |
| RpnOracles.DoubleEquals | src/rpn_vm.c:258 | `==` fails: the second `=` is a binary operator where an operand is expected |
| RpnOracles.UnknownCharacter | src/rpn_vm.c:259-262 | `1#2` fails with ErrToken at the `#`; the rule for every state is `RpnCompilerSpec.PositionErrors` |
| RpnOracles.HexWithoutDigits | src/rpn_vm.c:97-103 | `0x` with no hex digit is ErrToken |
| RpnOracles.BinaryWithoutDigits | src/rpn_vm.c:120-126 | `0b` with no binary digit is ErrToken |
| RpnOracles.DecimalWraps | src/rpn_vm.c:132-146 | `4294967297` wraps to 1 in the `uint32` accumulator |
| RpnOracles.UnaryMinus | src/rpn_vm.c:231-242 | `-5` compiles to a negation of 5, which returns 2^32 - 5 |
| RpnOracles.DoubleNegation | src/rpn_vm.c:231-242 | `--t` compiles to two negations and is t |
| RpnOracles.NotZero | src/rpn_vm.c:426-432 | `~0` is 0xFFFFFFFF |
| RpnOracles.UnaryPlusSkipped | src/rpn_vm.c:221-230 | a leading `+` emits nothing: `+t` is t |
| RpnOracles.NegBindsTighter | src/rpn_vm.c:26-55 | `-t*2` is `(-t)*2` |
| RpnOracles.SubtractionOrder | src/rpn_vm.c:370-377 | `2-5` is 2^32 - 3: the first-pushed operand is on the left |
| RpnOracles.ShiftOrder | src/rpn_vm.c:246-257 | `<<` and `>>` are read as one operator each and group left to right |
| RpnOracles.DivideByZero | src/rpn_vm.c:386-392 | `t/0` is 0 |
| RpnOracles.ModuloByZero | src/rpn_vm.c:394-400 | `t%0` is 0 |
| RpnOracles.Comparisons | src/rpn_vm.c:456-495 | comparisons push 1 or 0, and `<` and `>=` are complementary |
| RpnOracles.LessOrEqual | src/rpn_vm.c:246-251 | `<=` is read as one operator |
| RpnOracles.SingleEquals | src/rpn_vm.c:258 | a single `=` is equality |
| RpnOracles.XorOrLeftToRight | src/rpn_vm.c:50-51 | `^` and `\|` share precedence 0 and group left to right: `1\|1^1` is 0 |
| RpnOracles.AndBelowEquality | src/rpn_vm.c:46-49 | `&` binds more loosely than `=`: `1&1=2` is 0 |
| Keyboard.Layer | src/keyboard.c:32-91 | each of the four layers has an action for each of the keys |
| Keyboard.ResolveAction | src/keyboard.c:141-157 | keys outside the matrix resolve to no action; otherwise the action comes from the current mode's layer; the mode keys and DEL are the same in every layer |
| Keyboard.CursorKeysOutsideMem | src/keyboard.c:32-73 | outside the preset layer, keys 15, 17 and 19 are LEFT, RIGHT and ENTER |
| Keyboard.IsKeyPressed | src/keyboard.c:137-139 | only keys inside the matrix can be pressed |
| Keyboard.LowestPressed | src/keyboard.c:127-135 | the key reported for a scan: 255 exactly when no key is pressed, otherwise a pressed key with no pressed key below it |
| Keyboard.LowestPressedFrom | src/keyboard.c:128-133 | the scan from index i finds a pressed key at or above i with none pressed between, or 255 |
| Keyboard.GetPressedKey | src/keyboard.c:127-135 | the scanning loop returns 255 exactly when no key is pressed, otherwise the lowest pressed key; it computes `LowestPressed` |
| Keyboard.KeyChar | src/keyboard.c:221-266 | a typing key's character is printable ASCII and every other action gives NUL; it is a digit exactly for the digit keys, `a`-`f` exactly for the letter keys, and `t` exactly for the T key |
| Keyboard.InsertedText | src/keyboard.c:221-266 | a typing key inserts one or two characters, with no NUL; two exactly for the `0b` and `0x` keys |
| Keyboard.PresetSlot | src/keyboard.c:285-302 | preset keys 1-9 load slots 0-8 |
| Keyboard.ToggleMode | src/keyboard.c:269-282 | a mode key switches back to BASE exactly when its own mode is active, and otherwise to that mode |
| Keyboard.ToggleTwice | src/keyboard.c:269-282 | pressing a mode key twice, from BASE or from its own mode, comes back there |
| EditorSpec.Terminated | src/keyboard.c:160-196 | a buffer holding the text, its NUL and then the old bytes |
| EditorSpec.TerminatedWf | src/ui.c:35-37 | a text of fewer than 256 characters with no NUL, followed by its NUL, fills the 256-byte buffer |
| EditorSpec.InsertChar | src/keyboard.c:160-173 | succeeds exactly when `text_len < 255`; the character goes in at the cursor, cursor and length grow by one, the bytes past the new NUL stay, and a recompile is requested; otherwise nothing changes |
| EditorSpec.InsertCharByShift | src/keyboard.c:163-170 | the byte-wise shift, the write at the cursor and the NUL give the result of `InsertChar` |
| EditorSpec.DeleteChar | src/keyboard.c:184-196 | succeeds exactly when the cursor is past the start, removes the character before it, and moves the cursor back; otherwise nothing changes |
| EditorSpec.DeleteCharByShift | src/keyboard.c:187-193 | the byte-wise shift and the NUL give the result of `DeleteChar` |
| EditorSpec.InsertEach | src/keyboard.c:178-180 | inserting the characters one by one inserts the whole string at the cursor |
| EditorSpec.InsertSplits | src/keyboard.c:178-180 | inserting the first character and then the rest inserts the whole string |
| EditorSpec.InsertString | src/keyboard.c:175-182 | all or nothing: succeeds exactly when `text_len + len < 256`, and then the string is at the cursor and the cursor is past it; mode, playback and the sector are untouched |
| EditorSpec.SetExpression | src/ui.c:32-43 | an expression of 256 characters or more is ignored; otherwise it becomes the text with the cursor at its end, and a recompile and a redraw are requested |
| EditorSpec.PlayStop | src/ui.c:18-30 | play state flips, audio follows it, and a redraw is requested |
| EditorSpec.PlayStopTwice | src/ui.c:18-30 | play/stop twice restores the play and audio state |
| EditorSpec.LoadPreset | src/preset.c:57-99 | a slot past the ninth is refused and nothing changes; otherwise the load succeeds; the sector, the mode and playback are untouched |
| EditorSpec.LoadFactoryCase | src/preset.c:65-78 | an empty slot loads its factory preset, sets the cursor and length to its end, and requests a reset and a recompile |
| EditorSpec.LoadFoundCase | src/preset.c:84-95 | a stored slot is copied up to and including its first NUL, and the length, cursor, slot and flags are set |
| EditorSpec.LoadUnterminatedCase | src/preset.c:84-98 | a slot with no NUL in its 256 bytes is copied whole, and the length, cursor, slot and flags stay as they were |
| EditorSpec.LoadPresetLoads | src/preset.c:57-99 | under the invariant every slot loads its factory or stored text, with the cursor at the end, and becomes the current slot |
| EditorSpec.LoadStoredPreset | src/preset.c:80-98 | under the invariant a non-empty slot loads its stored text |
| EditorSpec.LoadPresetKeepsWf | src/preset.c:57-99 | every load keeps the editor invariant |
| EditorSpec.SavePreset | src/preset.c:101-140 | a slot past the ninth is refused; otherwise the sector becomes the saved image and the slot becomes current, with nothing else changing |
| EditorSpec.SavedTextLoads | src/preset.c:101-140 | a saved text that does not start with 0xFF is what that slot loads afterwards |
| EditorSpec.ClearAll | src/preset.c:38-47 | after clearing, every slot reads as empty |
| EditorSpec.SaveThenLoad | src/preset.c:57-140 | saving and then loading the same slot gives the text back, with the cursor at its end; this includes the empty text |
| EditorSpec.EditKey | src/keyboard.c:200-282 | the editing keys keep the invariant; only DEL can fail, and a failure changes nothing; every key but DEL leaves the text unchanged; none writes the sector; only the mode keys change the mode and only ENTER changes playback |
| EditorSpec.MemoryKey | src/keyboard.c:304-319 | PREV, NEXT and SAVE keep the slot within 0-8 and leave mode and playback alone; a failure changes nothing; SAVE always succeeds and changes only the sector, and only SAVE writes it |
| EditorSpec.Execute | src/keyboard.c:198-324 | every action keeps the editor invariant; an action that reports false changes nothing; only SAVE writes the flash sector, only the three mode keys change the mode, only ENTER starts or stops playback, and only typing, DEL and preset loads change the text |
| EditorSpec.ExecuteTyping | src/keyboard.c:221-266 | a typing key inserts its text at the cursor when it fits with room for the NUL, and otherwise changes nothing and reports false |
| EditorSpec.ExecuteCursor | src/keyboard.c:204-210 | LEFT and RIGHT always succeed, move by one, and stop at the ends of the text |
| EditorSpec.ExecuteModeKey | src/keyboard.c:269-282 | FN1, FN2 and MEM toggle between their mode and BASE and change nothing else |
| EditorSpec.PresetStepLoads | src/keyboard.c:304-316 | away from slots 0 and 8, PREV and NEXT succeed, move to the neighbouring slot and load its text with the cursor at the end |
| EditorSpec.ExecutePresetStep | src/keyboard.c:304-316 | PREV and NEXT refuse at slots 0 and 8 and change nothing there; otherwise they move by one slot and load that slot's text (its stored text, or its factory preset when the slot is empty) with the cursor at the end |
| EditorSpec.ExecuteSaveKey | src/keyboard.c:318-319 | SAVE stores the text in the current slot, from where the slot loads it again, and changes only the sector |
| EditorSpec.SaveKeySaves | src/keyboard.c:318-319 | SAVE is preset_save of the current slot |
| EditorSpec.SaveKeyIsMemoryKey | src/keyboard.c:318-319 | SAVE inserts nothing and is dispatched to the SAVE branch |
| EditorSpec.ExecutePresetKey | src/keyboard.c:285-302 | a preset key always succeeds; it loads its slot's text with the cursor at the end and makes that slot current |
| PresetLayout.FactoryPresetsFit | src/preset.c:12-22 | there are nine factory presets, each shorter than 256 with no NUL |
| PresetLayout.Bytes | src/preset.c:121-123 | copying a C string into bytes keeps its length, and maps exactly NUL to 0 |
| PresetLayout.Chars | src/preset.c:86-87 | reading bytes as characters keeps the length |
| PresetLayout.CharsOfBytes | src/preset.c:86-123 | bytes written from a text read back as that text |
| PresetLayout.SlotStart | src/preset.c:27-28 | the nine 256-byte slots lie inside the 4096-byte sector |
| PresetLayout.IsSlotEmpty | src/preset.c:49-55 | a slot past the ninth is empty; otherwise a slot is empty exactly when its first byte is 0xFF |
| PresetLayout.FindNul | src/preset.c:84-95 | the first NUL of a range, or its end when it has none |
| PresetLayout.FindNulFrame | src/preset.c:84-95 | the first NUL depends only on the bytes of the range |
| PresetLayout.FindNulAt | src/preset.c:84-95 | a NUL with no NUL before it is the first one |
| PresetLayout.StoredText | src/preset.c:84-95 | a slot's stored text fits in the slot, and for a terminated slot it is shorter than 256 with no NUL |
| PresetLayout.SlotImage | src/preset.c:117-124 | a saved slot is at most 255 bytes of text, then a NUL, then 0xFF for the rest |
| PresetLayout.SavedSector | src/preset.c:112-134 | saving rewrites exactly that slot's 256 bytes with the slot image and keeps every other byte |
| PresetLayout.ErasedSector | src/preset.c:38-47 | the erased sector has 4096 bytes |
| PresetLayout.ErasedSectorEmpty | src/preset.c:38-55 | after erasing, every slot is empty |
| PresetLayout.SavedSectorBytes | src/preset.c:112-124 | a sector built byte by byte as preset_save does is the saved sector |
| PresetLayout.SavedSlotReadsBack | src/preset.c:101-140 | a saved slot is terminated, and its stored text is the saved text cut to 255 characters |
| PresetLayout.SavedSlotEmptiness | src/preset.c:49-55 | a saved slot reads as empty exactly when the text starts with 0xFF |
| PresetLayout.SaveKeepsOtherSlots | src/preset.c:112-134 | a save leaves every other slot's emptiness, termination and text unchanged |
| PresetLayout.SaveKeepsSectorOk | src/preset.c:101-140 | a save keeps every non-empty slot terminated |
| Firmware.Device.constructor | src/rpn_vm.c:13-17 | at boot the buffer is all NUL, the text is empty and no recompile or reset is pending (rpn_vm.c:13-17), the mode is BASE (keyboard.c:19), the slot is 0 and playback is stopped (ui.c:10-11), audio is disabled (audio.c:9), no redraw is pending (display.c:20), and the sector is the flash contents |
| Firmware.Device.StrLen | src/preset.c:121 | strlen of the buffer is `text_len`, the position of the first NUL |
| Firmware.Device.InsertChar | src/keyboard.c:160-173 | insertChar on the array equals `EditorSpec.InsertChar` |
| Firmware.Device.ShiftRight | src/keyboard.c:163-165 | the loop moves the bytes one place right and keeps the rest |
| Firmware.Device.DeleteChar | src/keyboard.c:184-196 | deleteChar on the array equals `EditorSpec.DeleteChar` |
| Firmware.Device.ShiftLeft | src/keyboard.c:187-189 | the loop moves the bytes one place left and keeps the rest |
| Firmware.Device.InsertString | src/keyboard.c:175-182 | insertString on the array equals `EditorSpec.InsertString` |
| Firmware.Device.InsertEach | src/keyboard.c:178-180 | the insertChar loop equals `EditorSpec.InsertEach` |
| Firmware.Device.StrCpy | src/ui.c:35 | strcpy leaves the characters, their NUL and the old tail |
| Firmware.Device.SetExpression | src/ui.c:32-43 | ui_set_expression on the array equals `EditorSpec.SetExpression` |
| Firmware.Device.HandlePlayStop | src/ui.c:18-30 | ui_handle_play_stop equals `EditorSpec.PlayStop` |
| Firmware.Device.PresetLoad | src/preset.c:57-99 | preset_load into the array equals `EditorSpec.LoadPreset` |
| Firmware.Device.CopySlot | src/preset.c:84-95 | the copy loop copies up to and including the first NUL, or all 256 bytes, and keeps the rest |
| Firmware.Device.PresetSave | src/preset.c:101-140 | preset_save equals `EditorSpec.SavePreset` |
| Firmware.Device.SaveImage | src/preset.c:112-124 | the prepared sector buffer is `SavedSector` of the text |
| Firmware.Device.ExecuteAction | src/keyboard.c:198-324 | keyboard_execute_action on the array equals `EditorSpec.Execute` |
| Firmware.Device.CommandKey | src/keyboard.c:200-219 | the non-typing keys equal `EditorSpec.Execute` |
| Firmware.Device.EditKey | src/keyboard.c:200-282 | the editing branches equal `EditorSpec.EditKey` |
| Firmware.Device.MemoryKey | src/keyboard.c:304-319 | the PREV, NEXT and SAVE branches equal `EditorSpec.MemoryKey` |
| Firmware.Device.PresetPrev | src/keyboard.c:304-309 | PREV equals its specification |
| Firmware.Device.PresetNext | src/keyboard.c:311-316 | NEXT equals its specification |
| Firmware.Device.StepTo | src/keyboard.c:306-308 | setting the slot and loading it equals `LoadPreset` on that slot |
| Firmware.Device.ClearAll | src/preset.c:38-47 | preset_clear_all equals `EditorSpec.ClearAll` |
| Firmware.Memcpy | src/preset.c:114-122 | memcpy copies the source bytes into the range and keeps the rest |
| Firmware.Memset | src/preset.c:118 | memset fills the range and keeps the rest |
| KeyRepeat.Elapsed | src/main.c:275-284 | `now - since` in `uint32`: the difference modulo 2^32, and the plain difference when the clock has not wrapped |
| KeyRepeat.Step | src/main.c:262-297 | one pass of the repeat machine: no key never acts and forgets the held key and the arming; a pressed key becomes the held key, keeping its press time only if it was already held; a new key always acts and is not armed; an action records now as the last repeat time; a held key acts only once armed and KEY_REPEAT_RATE_MS after the last repeat; the pass that arms it does not act, and arms exactly when KEY_REPEAT_DELAY_MS have passed since the press |
| KeyRepeat.NewKeyActs | src/main.c:264-273 | a key other than the held one acts at once and becomes the held key, with press and repeat times set to now and the repeat not armed |
| KeyRepeat.ReleaseResets | src/main.c:292-296 | with no key pressed nothing acts, the held key is forgotten, and the repeat is disarmed |
| KeyRepeat.ArmingDoesNotAct | src/main.c:275-281 | while not armed, a held key never acts; the repeat arms once 500 ms have passed since the press |
| KeyRepeat.HeldKeyRepeats | src/main.c:262-297 | while a key stays held, every pass that acts comes at least 600 ms after the press and at least 100 ms after the last repeat |
| KeyRepeat.FirstRepeatAfterDelay | src/main.c:262-297 | a pressed key acts on the press and then not again until KEY_REPEAT_DELAY_MS + KEY_REPEAT_RATE_MS (600 ms) later |
| KeyRepeat.RepeatsSpaced | src/main.c:282-289 | two passes that both act on a held key are at least 100 ms apart |
| KeyRepeat.KeyRepeater.constructor | src/main.c:246-250 | the repeat statics start idle |
| KeyRepeat.KeyRepeater.Pass | src/main.c:262-297 | the statics are updated as the state machine says; when it acts, the editor is the resolved action's result with the redraw flag set on success; otherwise the editor is unchanged |
| KeyRepeat.Act | src/main.c:266-269 | resolve, execute, and mark the display dirty when the action reports a change |
| KeyRepeat.RunAction | src/main.c:266-269 | executing an action and marking the redraw keeps the editor invariant |
| SerialLine.UpToNul | src/main.c:220-221 | the string process_command sees is the line up to its first NUL |
| SerialLine.UpToFirstNul | src/main.c:220-221 | the string ends at the line's length or at its first NUL |
| SerialLine.Feed | src/main.c:214-236 | with USB disconnected or nothing read nothing changes; a command is handed over exactly on a line end with a non-empty line, which is then emptied, and it is the line up to its first NUL; otherwise the line keeps its text, loses its last character (only on a backspace) or gains `c` at its end (exactly for an ordinary character when fewer than 255 are held); the line never outgrows the buffer with its NUL |
| SerialLine.TypeThenErase | src/main.c:226-233 | a character followed by a backspace leaves the line as it was |
| SerialLine.FullIgnoresTyping | src/main.c:230-233 | a full buffer ignores ordinary characters |
| SerialLine.Chars | src/main.c:231 | the `(char)c` cast keeps each code |
| SerialLine.TypingAppends | src/main.c:230-233 | typing ordinary characters that fit appends them to the line |
| SerialLine.TypedLineDispatched | src/main.c:214-236 | typing a line and then a line end dispatches that line and leaves the buffer empty |
| SerialLine.Console.constructor | src/main.c:28-29 | the command buffer starts empty |
| SerialLine.Console.Poll | src/main.c:214-236 | check_serial_input on the buffer equals `Feed` on the line typed so far, including the command handed over |
| SerialLine.Console.StrLen | src/main.c:220-221 | the NUL-terminated string at the start of the buffer |
| ProgramSwap.Published | src/main.c:306-307 | a compile publishes its program, or the empty program when it failed |
| ProgramSwap.FailedCompileIsSilent | src/main.c:306-307 | a failed compile plays 0 at every t |
| ProgramSwap.PwmLevel | src/main.c:93-94 | the PWM level is the low byte of the result |
| ProgramSwap.Tick | src/main.c:89-91 | the sample counter advances by one, wrapping from 2^32 - 1 to 0 |
| ProgramSwap.ProgramBuffer.constructor | src/main.c:32-37 | a program buffer has 32 slots and starts empty |
| ProgramSwap.Player.constructor | src/main.c:37-39 | both buffers start empty, buffer 0 is active, and the counter is 0 |
| ProgramSwap.Player.AudioCallback | src/main.c:85-96 | one sample: the level is the low byte of the active program's value at the counter, and the counter advances by one modulo 2^32 |
| ProgramSwap.Player.CompileIntoInactive | src/main.c:300-307 | the text is compiled into the buffer the callback is not reading, and the active program is untouched |
| ProgramSwap.Player.Publish | src/main.c:314-315 | the pointer swap exchanges the active and standby programs and leaves the counter alone |
| MainLoop.Recompile | src/main.c:299-320 | with no key held and a recompile pending, the newly compiled program becomes active, the old one becomes standby, the counter resets if asked, and the flags are cleared; otherwise nothing changes |
| MainLoop.SwapIn | src/main.c:300-320 | the body of the recompile step |
| MainLoop.KeyEdited | src/main.c:262-297 | the editor after the key half of a pass keeps the invariant, and is unchanged when the repeat machine does not act or no key is pressed |
| MainLoop.ReadKeys | src/main.c:256-297 | reading the matrix reports the lowest pressed key; the repeat statics become `Step`'s, and the editor becomes the resolved action's result when the machine acts |
| MainLoop.Pass | src/main.c:252-320 | one pass of core1_main: the serial line advances as `Feed`; the repeat statics follow `Step` on the lowest pressed key; the editor is the key action's result; with no key pressed and a recompile pending after that, the text after the key step is compiled and published, the old program becomes standby, the counter restarts if asked, and the flags are cleared; otherwise the programs and the counter are unchanged; while any key is pressed the playing program does not change, and with none pressed no recompile is left pending |
| MainLoop.KeyStep | src/main.c:256-320 | the keyboard half of the pass: the repeat statics follow `Step` on the lowest pressed key, the editor is the key action's result, and the recompile step publishes the compiled text after the key step exactly when no key is pressed and a recompile is pending; otherwise the programs and the counter are unchanged |

## Left out

- Display, audio PWM hardware, USB and flash drivers, `keyboard_scan`, `keyboard_init`, `main`, boot, `ui_update`, `ui_show_toaster` and every `printf`: these are I/O outside the core. The clock, the scanned key matrix, the serial character, the USB connection state and the flash contents at boot are parameters instead.
- EditorSpec.LoadPreset and EditorSpec.SavePreset: `preset_load` and `preset_save` call display.c's `show_toaster` (preset.c:62 and preset.c:106), which stores the message and its start time and sets `oledDirty` (display.c:210-215). The toaster text and time are display state and are not modelled, and these two functions leave `oledDirty` unchanged. For slots 0-8 both return true, and the caller then sets `oledDirty` itself (`KeyRepeat.RunAction`, main.c:268 and main.c:287), so the flag after a key press is the same. A call with a slot of 9 or more returns false before reaching `show_toaster`.
- `process_command` and `i2c_scan` are not part of this model. `SerialLine.Console.Poll` returns the command line that would be handed to `process_command`.
- The two cores, the timer interrupt and the atomic pointer loads and stores: concurrency is not modelled. The swap is a plain assignment, and the audio callback is a method that runs between passes.
- `audio_write` is not modelled: `ProgramSwap.Player.AudioCallback` returns the level it would write.
- The audio callback's gating is not modelled: `audio_write` writes the level only while `audio_enabled` is set (audio.c:33-36), and `audio_enable` drives the pin to silence; both are hardware-side.
- `RpnVm.Run`: a shift by 32 or more is undefined behaviour in C. The VM takes any result for it from its `WideShifts` parameter and states nothing about that value.
- `RpnCompilerSpec.Step`: the text is a sequence whose end reads as NUL. The `i >= TEXT_BUFFER_SIZE` guards are dead for a NUL-terminated 256-byte buffer and are not modelled. The `i + 2 < TEXT_BUFFER_SIZE` condition for a `0x` or `0b` prefix is kept.
- RpnVm.UnaryResult: negation is `(uint32_t)(-(int32_t)a)` (rpn_vm.c:436). For a = 0x80000000 the `int32_t` negation overflows, which is undefined behaviour in C. The model gives 2^32 - a there too, which is 0x80000000, the value a two's-complement target produces; it does not model the undefined behaviour.
- The three test expressions "Complex expression 1", "Complex expression 2" and "Complex shifts" in test_main.c are not replayed as concrete lemmas. Each shifts by an amount computed from `t` (`t>>(t>>10)`, `0xdeadbeef>>((15&t>>10)*4)`, `t>>(t>>16)`), which reaches 32 or more for some t, so their value there is undefined in C and the model leaves it to the `WideShifts` parameter.
- RpnOracles.ClassicBytebeat, RpnOracles.SquareShift, RpnOracles.MaskTimes, RpnOracles.OrOfShifts, RpnOracles.MultipleOr and RpnOracles.MaskOperations: the value at every t is stated as the value of the expression tree under the VM's operators (`RpnTerms.Denote`), not as a native `bv32` formula; the operator results themselves are stated by the `RpnVm` result lemmas.
- RpnProperties.CompiledProgramLeavesOneValue: requires that the program never needs more than the VM's 8 stack entries. A deeper program loses pushes, and nothing is claimed about its value.
- Firmware.Device.InsertString: requires a string shorter than 256. In C, `len` is a `uint8_t`, so a longer string would be truncated. The only callers pass `0b` and `0x`.
- Firmware.Device.constructor: requires that every non-empty slot of the flash sector holds a NUL. The firmware only ever writes such slots, and `PresetLayout.SaveKeepsSectorOk` and `PresetLayout.ErasedSectorEmpty` show that saving and erasing keep this.
- EditorSpec.SaveThenLoad: requires that the text does not start with the byte 0xFF. Such a text is saved, but its slot then reads as empty and loads the factory preset. `PresetLayout.SavedSlotEmptiness` states this. The keyboard cannot type that byte. It can come from `ui_set_expression`, or from a flash slot read at boot whose text starts with 0xFF after a NUL-free prefix has been deleted with DEL.
- SerialLine.Console.Poll: requires a character below 256, since `getchar_timeout_us` returns a byte or a negative timeout.
- Keyboard.InsertedText: states only the length and that the text holds no NUL. Which character each key types is the body's table. `EditorSpec.ExecuteTyping` states what the insertion does.
- KeyRepeat.HeldKeyRepeats: assumes the clock does not wrap during the hold. `KeyRepeat.Elapsed` models the `uint32` wrap of the subtraction itself.
- KeyRepeat.RepeatsSpaced: assumes the clock does not wrap during the hold.
- KeyRepeat.FirstRepeatAfterDelay: assumes the clock does not wrap during the hold.
- Several loops and `switch` branches are separate methods (`CopySlot`, `ShiftRight`, `ShiftLeft`, `SaveImage`, `Memcpy`, `Memset`, `StrCpy`, `InsertEach`, `CommandKey`, `EditKey`, `MemoryKey`, `PresetPrev`, `PresetNext`, `StepTo`, `StackOperator`, `ExecuteBinary`, `PushValue`, `ReplaceTop`, `SwapIn`, `KeyStep`). Each is proved against its own contract; in the source the code is inline.
