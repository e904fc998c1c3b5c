# A verified model of the "do" toolchain

"do" is a small language with two generations of tooling. This project models
the sequential core of both and proves what each part promises.

**The C++ front end**

- `lexer.dfy` models the tokenizer of `src/lexer.cc`. It reads one character
  of lookahead over the source text, taken as Unicode characters where the
  source reads bytes (see "## Left out"), and uses the keyword, builtin and operator
  tables. Its loops are methods of the class `Lexer.Lexer`, and each method is
  proved against a pure scanning function. `lexer_properties.dfy` states what
  the tokens carry: the table order, comments, real literals and the operator
  assertion.
- `grammar.dfy` models the recursive-descent parser of `src/parser.cc` as
  functions over the token list. `collection_grammar.dfy`, `while_grammar.dfy`
  and `func_grammar.dfy` do the same for the collection, `while` and
  function-literal parsers. `parser.dfy` holds the same procedures as methods
  of the class `Parser.Parser`, which advances a token cursor. Each method is
  proved to agree with its grammar function.
- `grammar_properties.dfy` states how precedence climbing groups operands and
  which inputs each rule rejects.
- `printer.dfy` is a reference printer. `round_trip.dfy` proves that parsing a
  printed program gives back the same program and consumes every token.
- `scopes.dfy` models the scope stack of `src/ast.cc` (push, pop, set, get)
  and the choice of a new variable's slot type.

**The Rust bytecode toolchain**

- `compiler.dfy` models the register-allocating compiler of
  `src/compiler/mod.rs`. `compiler_invariant.dfy` proves the register-accounting
  invariant behind its integrity check. `compiler_properties.dfy` and
  `compiler_examples.dfy` state what each kind of node does and replay the
  source's own programs.
- The assembler of `src/asm/` is covered by:
  - `assembler.dfy` (the two passes, the header and the read-only section);
  - `symbols.dfy` (the symbol table);
  - `instruction_parsers.dfy` (the operand and instruction encoding);
  - the grammar files `operand_parsers.dfy`, `register_parsers.dfy` and
    `label_parsers.dfy`, over a small model of `nom` in `nom.dfy`;
  - the opcode tables in `opcode.dfy` and `instruction.dfy`.
- `register.dfy` models the register values and the register-byte encoding.
- `vm.dfy` models the virtual machine of `src/vm/mod.rs`: loading, `step`
  and `run`. The class `Vm.VM` executes the pure transition in place.
- `handler_machine.dfy` is the machine with a vector register bank that the
  opcode handlers are written against. `arith_opcode.dfy`,
  `compare_opcode.dfy` and `logic_opcode.dfy` model the handlers on it.

`builtin_name.dfy` and `type_name.dfy` hold the compiler's name tables.
`bytes.dfy`, `float.dfy`, `text.dfy`, `utf8.dfy` and `wrappers.dfy` are shared
support modules.

**Conventions**

- A Rust panic is an explicit `Panicked` outcome. This covers an `unwrap` of
  nothing, an index out of bounds, arithmetic overflow in a debug build and
  division by zero.
- `std::process::exit` is an explicit `Exit` outcome.
- The C++ `assert` in the tokenizer is an `Aborted` result.
- A null returned by the C++ parser is a `Failed` result. It carries the
  message prefix and the index of the token where the failure was detected.

**Behaviour modelled as written**

Where two source snapshots disagree, each file is modelled as written:

- The VM decodes the opcode numbering of `src/asm/instruction.rs`, not the
  one in `src/asm/opcode.rs`.
- `if` and `not` share one token code in `src/lexer.h:13-14`. The model keeps
  this, and `LexerProperties.IfIsUnop` with
  `GrammarProperties.NotStatementIsIf` shows the consequence: a statement
  that starts with `not` is parsed as an `if`.
- `src/parser.cc:92` reads a builtin name that `src/lexer.cc` never sets.
  The model carries the name as the token's payload.
- `src/lexer.h` has no code for the `func` keyword that
  `old/src/parser/func.cc` expects. The model gives it a code of its own.
- The second guard of `ALLOC` re-tests the destination register instead of
  the count register (`Vm.AllocRealCountPanics`).
- Reassigning a variable removes its old register from the compiler's stack
  of registers in use. The stored indices of later variables are not updated
  (`CompilerExamples.ReassignShiftExample`).

## Model

| member | source | states |
|---|---|---|
| Bytes.BigEndian | src/vm/mod.rs:62-67 | The value of `n` bytes read most significant first is below 256^n |
| Bytes.ToBigEndian | src/asm/mod.rs:215-219 | A value written most significant byte first takes exactly the width asked for |
| Bytes.BigEndianOfToBigEndian | src/asm/mod.rs:215-219 | Reading back the bytes a value was written as gives the value |
| Bytes.ToBigEndianOfBigEndian | src/vm/mod.rs:62-67 | Writing back the value read from some bytes, in as many bytes, gives those bytes |
| Bytes.I32ToBytes | src/asm/instruction_parsers.rs:110 | `i32::to_be_bytes` is four bytes |
| Bytes.BytesToI32 | src/vm/mod.rs:178-187 | `i32::from_be_bytes` of four bytes is an `i32` |
| Bytes.I32RoundTrip | src/vm/mod.rs:178-187 | The two's-complement big-endian encoding of `i32` is invertible in both directions |
| Float.PartialCmp | src/vm/compare_opcode.rs:116-126 | `partial_cmp` is undefined exactly when an operand is NaN and gives `Equal` exactly for equal non-NaN numbers |
| Float.ToI32 | src/vm/register.rs:18-21 | `as i32` is always an `i32`, and the truncation of a finite number whenever that fits |
| Float.Trichotomy | src/vm/compare_opcode.rs:95-115 | Less, equal and greater exclude each other, without NaN one of them holds, and less is greater with the operands swapped |
| Utf8.EncodeChar | src/asm/mod.rs:198-200 | One character's UTF-8 encoding is 1 to 4 bytes, a single byte equal to the code exactly for ASCII, with a lead byte of at least 0xC0 and continuation bytes otherwise |
| Utf8.Encode | src/asm/mod.rs:198-200 | A string's encoding is between one and four bytes per character |
| Utf8.EncodeAscii | src/asm/mod.rs:198-200 | An ASCII string is encoded byte for byte |
| Utf8.EncodeHasNoZero | src/asm/mod.rs:198-202 | The encoding of a string without NUL holds no zero byte, so the terminator the assembler appends marks its end |
| Utf8.SequenceLength | src/vm/mod.rs:140 | The well-formed sequence at the front of some bytes, by Table 3-7 of section 3.9 of the Unicode Standard, is at most 4 bytes and within them |
| Utf8.EncodeCharWellFormed | src/vm/mod.rs:140 | One character's encoding is exactly one well-formed sequence |
| Utf8.ValidConcat | src/vm/mod.rs:140 | Valid UTF-8 byte strings concatenate to valid UTF-8 |
| Utf8.EncodeValid | src/vm/mod.rs:140 | Every string's encoding is valid UTF-8, so `from_utf8` accepts what `as_bytes` produced |
| Text.Lower | src/asm/opcode.rs:30 | Lower-casing turns an upper-case ASCII letter into a lower-case one and leaves every other character alone |
| Text.ToLower | src/asm/opcode.rs:30 | Lower-casing a string lower-cases each character in place and keeps the length |
| Register.ToI32 | src/vm/register.rs:12-25 | An integer converts as it is and a real is truncated to `i32`; only a vector register is refused |
| Register.ToF64 | src/vm/register.rs:27-37 | An integer widens exactly and a real passes through; only a vector register is refused |
| Register.ToVec | src/vm/register.rs:39-49 | Only a vector register converts, to its own contents; integer and real registers are refused |
| Register.IsInt | src/vm/register.rs:51-61 | A register byte names an integer register exactly when neither bit 7 nor bit 6 is set, that is when it is below 64 |
| Register.IdxFromReal | src/vm/register.rs:67-69 | Clearing bit 7 leaves a byte below 128 that no longer reads as real |
| Register.IdxFromVector | src/vm/register.rs:71-73 | Clearing bit 6 leaves a byte that no longer reads as vector and keeps bit 7 |
| Register.RealToIdx | src/vm/register.rs:79-81 | Setting bit 7 gives a byte that reads as real and keeps bit 6 |
| Register.VectorToIdx | src/vm/register.rs:83-85 | Setting bit 6 gives a byte that reads as vector and keeps bit 7 |
| Register.IndexRoundTrips | src/vm/register.rs:63-85 | Decoding an encoded index gives it back: always for integers, below 128 for reals, and with bit 6 clear for vectors |
| Register.Classification | src/vm/register.rs:116-141 | The three encodings of an index below 64 each fall in exactly one class, as the tests check for 24; 0xC0 reads as both real and vector |
| Opcode.ToByte | src/asm/opcode.rs:4-26 | The byte of an opcode is its declaration index, and 255 exactly for IGL |
| Opcode.TryFromByte | src/asm/opcode.rs:4-26 | Decoding succeeds exactly on the discriminants, below 18 or 255, and gives the opcode whose byte it is |
| Opcode.ByteRoundTrip | src/asm/opcode.rs:68-78 | Converting an opcode to its byte and back gives the opcode again |
| Opcode.FromMnemonic | src/asm/opcode.rs:28-53 | The result's mnemonic is the lower-cased input, and the result is IGL exactly when no opcode has that mnemonic |
| Opcode.FromMnemonicRoundTrip | src/asm/opcode.rs:80-85 | Every opcode but IGL is recognised from its mnemonic written in any mix of cases |
| Opcode.HltIsIllegal | src/asm/opcode.rs:32 | The halt opcode is spelled `halt`, so `hlt` gives IGL |
| Opcode.MnemonicInjective | src/asm/opcode.rs:31-51 | No two opcodes share a mnemonic |
| Instruction.ToByte | src/asm/instruction.rs:4-24 | The byte of an opcode is its declaration index, and 255 exactly for IGL |
| Instruction.TryFromByte | src/asm/instruction.rs:4-24 | Decoding succeeds exactly on the discriminants, below 16 or 255, and gives the opcode whose byte it is |
| Instruction.ByteRoundTrip | src/asm/instruction.rs:81-91 | Converting an opcode to its byte and back gives the opcode again; byte 0 is HLT and byte 200 is no opcode |
| Instruction.FromMnemonic | src/asm/instruction.rs:37-60 | The result's mnemonic is the lower-cased input, and the result is IGL exactly when no opcode has that mnemonic |
| Instruction.MnemonicInjective | src/asm/instruction.rs:40-58 | No two opcodes share a mnemonic |
| Instruction.FromMnemonicRoundTrip | src/asm/instruction.rs:93-98 | Every opcode but IGL is recognised from its mnemonic written in any mix of cases |
| Instruction.New | src/asm/instruction.rs:31-35 | The new instruction carries the given opcode |
| Vm.Loaded | src/vm/mod.rs:54-78 | Bytecode without the header prefix, or no longer than the header, is refused with "Invalid bytecode" and the machine unchanged; on success the program is the bytecode, `pc` sits just past the read-only section the big-endian length field names, that section is appended to `ro_data`, and registers and heap are unchanged |
| Vm.AsUsize | src/vm/mod.rs:104-107 | `target as usize` keeps a non-negative `i32` and sends a negative one to the top of the `usize` range |
| Vm.WrapI32 | src/vm/mod.rs:127-128 | `heap.len() as i32` is an `i32`, equal to the length while that fits |
| Vm.ReadRegister | src/vm/mod.rs:209-223 | An operand byte with bit 7 clear reads the integer bank, otherwise the real bank at the byte with bit 7 cleared; the read fails exactly when that index is past the 32 registers |
| Vm.AsI32 | src/vm/mod.rs:226-234 | An integer operand is used as it is; a real one is cast with `as i32` into the `i32` range |
| Vm.StoreInt | src/vm/mod.rs:236 | Writing an integer register succeeds exactly when the index is in the bank, and changes only that register |
| Vm.StoreReal | src/vm/mod.rs:248 | Writing a real register succeeds exactly when the index with bit 7 cleared is in the bank, and changes only that register |
| Vm.TruncDiv | src/vm/mod.rs:348-394 | `i32` division truncates toward zero, agreeing with Euclidean division on non-negative operands |
| Vm.IntArith | src/vm/mod.rs:204-394 | Integer arithmetic gives the exact sum, difference or product whenever it fits in `i32`, and fails (the Rust overflow or divide-by-zero panic) otherwise |
| Vm.Arith | src/vm/mod.rs:204-394 | `add`, `sub`, `mul` and `div` never return an error; when they continue, `pc` has moved past the three operand bytes and the machine has not halted |
| Vm.Compare | src/vm/mod.rs:396-670 | The six comparisons never return an error; when they continue, `pc` has moved past the three operand bytes and the machine has not halted |
| Vm.Load | src/vm/mod.rs:90-99 | `LOAD` never returns an error: it stores the next four or eight bytes or panics when the program ends first |
| Vm.Jump | src/vm/mod.rs:104-107 | `JMP` never returns an error: it sets `pc` or panics on a register index past the bank |
| Vm.JumpIfEqual | src/vm/mod.rs:672-712 | `jeq` keeps the machine well-formed on every path |
| Vm.Resize | src/vm/mod.rs:129 | `resize(n, 0)` gives `n` bytes: the old ones where they reach, zeros beyond |
| Vm.Alloc | src/vm/mod.rs:115-130 | `ALLOC` keeps the machine well-formed on every path |
| Vm.FirstNul | src/vm/mod.rs:133-138 | The scan finds the first zero byte at or after the offset, or reports that there is none |
| Vm.Print | src/vm/mod.rs:131-152 | `PRINT` keeps the machine well-formed on every path |
| Vm.Execute | src/vm/mod.rs:86-156 | Every opcode's arm keeps the machine well-formed |
| Vm.Next | src/vm/mod.rs:81-85 | A step with `pc` past the program fails with "Ran out of program to run" and changes nothing; every step keeps the machine well-formed |
| Vm.Iterate | src/vm/mod.rs:46-52 | Iterating a step that keeps machines well-formed keeps the machine well-formed |
| Vm.Execution | src/vm/mod.rs:46-52 | `run` with no steps left stops with `Ok(false)` on the unchanged machine |
| Vm.VM.constructor | src/vm/mod.rs:35-44 | `VM::new` gives zeroed registers, an empty program, heap and `ro_data`, and `pc` 0 |
| Vm.VM.SetBytecode | src/vm/mod.rs:54-78 | The method's outcome and new state are those of `Loaded`, with the length field assembled by shifts |
| Vm.VM.Fetch | src/vm/mod.rs:166-202 | `next_u8`, `next_u16`, `next_i32` and `next_f64` return the bytes at `pc` and move `pc` past them, or report that the program ends first and leave `pc` alone |
| Vm.VM.Read | src/vm/mod.rs:209-223 | Reading an operand register from the arrays agrees with `ReadRegister` on the state |
| Vm.VM.DoLoad | src/vm/mod.rs:90-99 | The `LOAD` arm's outcome and new state are those of `Load` |
| Vm.VM.DoArith | src/vm/mod.rs:204-394 | The arithmetic arms' outcome and new state are those of `Arith` |
| Vm.VM.DoCompare | src/vm/mod.rs:396-670 | The comparison arms' outcome and new state are those of `Compare` |
| Vm.VM.DoJump | src/vm/mod.rs:104-107 | The `JMP` arm's outcome and new state are those of `Jump` |
| Vm.VM.DoJumpIfEqual | src/vm/mod.rs:672-712 | `jeq`'s outcome and new state are those of `JumpIfEqual` |
| Vm.VM.DoAlloc | src/vm/mod.rs:115-130 | The `ALLOC` arm's outcome and new state are those of `Alloc` |
| Vm.VM.DoPrint | src/vm/mod.rs:131-152 | The `PRINT` arm's loop finds the terminator `FirstNul` names, and the outcome and new state are those of `Print` |
| Vm.VM.Step | src/vm/mod.rs:81-164 | `step`'s outcome and new state are those of `Next` |
| Vm.VM.Advance | src/vm/mod.rs:47-50 | One pass of `run`'s loop: a step that continues leaves a run with one step fewer from the new state, a halt ends the run with `Ok(true)`, and an error or panic is the run's result |
| Vm.VM.Run | src/vm/mod.rs:46-52 | `run`'s outcome and new state are those of `Execution` for the fuel given |
| Vm.ExecutionTakesStep | src/vm/mod.rs:46-52 | A run with steps left takes one step and goes on from the new state only when that step neither halted nor failed; otherwise the step's result is the run's |
| Vm.LoadsAssembledProgram | src/vm/mod.rs:54-78 | Bytecode made of the assembler's header, a read-only section and code loads with `pc` at the start of the code and the section appended to `ro_data` |
| Vm.SetBytecodeExample | src/vm/mod.rs:940-957 | Bytecode without the prefix is refused; a bare header with code behind it loads nothing into `ro_data` and starts at byte 32, the header length |
| Vm.HaltAndIllegal | src/vm/mod.rs:87-164 | Byte 0 halts with `pc` just past it, byte 255 is an error with `pc` just past it, and a byte that is no opcode panics |
| Vm.LoadInteger | src/vm/mod.rs:90-99 | `LOAD` into an integer register stores the `i32` whose big-endian encoding follows, so every `i32` can be loaded |
| Vm.LoadExample | src/vm/mod.rs:749-757 | `LOAD $0` with bytes 0, 0, 1, 244 continues and stores 500 |
| Vm.ArithOnIntegers | src/vm/mod.rs:204-250 | On integer registers the arithmetic stores the exact result when it fits in `i32` and panics on overflow or a zero divisor |
| Vm.IntegerComparison | src/vm/mod.rs:417-427 | Widened to `f64`, two integers are within `f64::EPSILON` exactly when equal, and every comparison agrees with the integer one |
| Vm.CompareIntegers | src/vm/mod.rs:396-440 | A comparison of integer registers writes 1 into the integer destination when the integer relation holds and 0 otherwise |
| Vm.NegatedComparisons | src/vm/mod.rs:396-670 | On integers `neq` is the negation of `eq` and `lte` of `gt`; against NaN both `eq` and `neq` are false |
| Vm.ComparisonWritesFlag | src/vm/mod.rs:396-670 | Whatever the operands, a comparison that continues writes only 0 or 1 into the one destination register and changes nothing else but `pc` |
| Vm.JumpTarget | src/vm/mod.rs:104-107 | `JMP` sets `pc` to the register's value wrapped to `usize`, which is the value itself when non-negative |
| Vm.JumpIfEqualBranches | src/vm/mod.rs:672-712 | A real target register is refused with "Cannot jump to non-integer location"; otherwise `jeq` jumps exactly when the operands are within `f64::EPSILON` and continues after its operands else |
| Vm.AllocGrowsHeap | src/vm/mod.rs:115-130 | `ALLOC` stores the old heap length in the destination and appends as many zero bytes as the count register holds, read before the destination is written |
| Vm.AllocExample | src/vm/mod.rs:910-919 | With 1024 in `$0`, `ALLOC $0 $0` continues with a heap of 1024 bytes |
| Vm.AllocRealCountPanics | src/vm/mod.rs:122-126 | The second guard tests the destination again, so a real count register is not refused with its message but indexes the integer bank out of bounds and panics |
| Vm.PrintsStoredString | src/vm/mod.rs:131-152 | `PRINT` of the offset of a zero-terminated UTF-8 string in `ro_data` prints that string as one line and continues |
| Vm.PrintsAt | src/vm/mod.rs:131-152 | The `PRINT` arm, from its operand bytes, prints the stored string and moves `pc` past the offset |
| Vm.StoredStringFound | src/vm/mod.rs:133-140 | The scan from the start of a stored string stops right behind it, and the bytes it finds are valid UTF-8 |
| Vm.TerminatedAt | src/vm/mod.rs:133-138 | Bytes without a zero, stored with a zero behind them, are exactly what the scan from their start finds |
| Vm.FirstNulAt | src/vm/mod.rs:133-138 | The scan stops at the first zero byte |
| Vm.IterateStable | src/vm/mod.rs:46-52 | Once a run has stopped, more steps change nothing |
| Vm.IterateSplits | src/vm/mod.rs:46-52 | Running for `a + b` steps is running for `a` steps and then `b` more from where the first run left off |
| Nom.Span | src/asm/register_parsers.rs:9 | The longest prefix of one character class: all of it in the class, and the character after it not |
| Nom.SpanOfConcat | src/asm/register_parsers.rs:9 | A string of one class followed by input that does not start with that class spans exactly that string |
| Nom.SpNoBlank | src/asm/register_parsers.rs:6 | `ws!` leaves input that does not start with a blank alone |
| Nom.Tag | src/asm/register_parsers.rs:8 | `tag!` succeeds exactly when the input starts with the literal, and leaves what follows it |
| Nom.TagOf | src/asm/register_parsers.rs:8 | A literal is found at the head of any input it starts |
| Nom.TagMismatch | src/asm/register_parsers.rs:8 | Input whose first character differs from the literal's is rejected by `tag!` |
| Nom.IndexOf | src/asm/operand_parsers.rs:60-70 | `take_until!` finds the first occurrence of the character, or reports that there is none |
| Nom.Run | src/asm/register_parsers.rs:9 | `digit` and `alphanumeric` read a non-empty run of their class and stop at the first character outside it; they reject exactly input that does not start with one, and never panic |
| Nom.RunOf | src/asm/register_parsers.rs:9 | A run is read whole when nothing of its class follows it |
| Nom.Alt | src/asm/register_parsers.rs:35-37 | `alt!` takes the first alternative that parses, tries the second only when the first rejects, rejects only when both do, and does not recover from a panic |
| Symbols.NewSymbol | src/asm/symbols.rs:9-15 | A new symbol has the given name and type and no offset |
| Symbols.WithOffset | src/asm/symbols.rs:17-19 | Setting a symbol's offset changes only the offset |
| Symbols.Find | src/asm/symbols.rs:52-59 | The position of the first symbol with the name, or none when no symbol has it |
| Symbols.ValueOf | src/asm/symbols.rs:52-59 | A name some symbol has gives the offset of the first symbol with it, which may be unset; a name no symbol has gives nothing |
| Symbols.SetOffsets | src/asm/symbols.rs:61-67 | Every symbol with the name gets the offset, every other symbol is unchanged, and the table keeps its length |
| Symbols.Table.constructor | src/asm/symbols.rs:35-37 | A new table is empty |
| Symbols.Table.Add | src/asm/symbols.rs:39-41 | Adding appends the symbol behind the existing ones |
| Symbols.Table.Has | src/asm/symbols.rs:43-50 | `has` is true exactly when some symbol has the name |
| Symbols.Table.Value | src/asm/symbols.rs:52-59 | `value` gives exactly the offset of the first symbol with the name, and nothing when no symbol has it |
| Symbols.Table.SetOffset | src/asm/symbols.rs:61-67 | The loop leaves the table `SetOffsets` describes |
| Symbols.SetOffsetUnknownName | src/asm/symbols.rs:61-67 | Setting the offset of a name no symbol has changes nothing |
| Symbols.SetOffsetKeepsNames | src/asm/symbols.rs:61-67 | Setting an offset keeps every name, so `has` answers as before |
| Symbols.ValueAfterAddAndSetOffset | src/asm/symbols.rs:74-86 | After adding a fresh label and setting its offset, `value` gives that offset |
| Symbols.FindLast | src/asm/symbols.rs:52-59 | A name whose only occurrence is the last symbol is found there |
| RegisterParsers.Index | src/asm/register_parsers.rs:9-12 | A register index that parses is below 256; a larger one panics in `unwrap` |
| RegisterParsers.PrefixedIndex | src/asm/register_parsers.rs:6-16 | A prefix followed by digits gives an index below 256 |
| RegisterParsers.IRegister | src/asm/register_parsers.rs:5-17 | `iregister` produces only integer registers |
| RegisterParsers.RRegister | src/asm/register_parsers.rs:19-31 | `rregister` produces only real registers |
| RegisterParsers.Register | src/asm/register_parsers.rs:33-42 | `register` produces an integer or a real register |
| RegisterParsers.IndexAccepts | src/asm/register_parsers.rs:9-12 | A string of digits is read whole, and its value is the index unless above 255, where the parse panics |
| RegisterParsers.PrefixedIndexAccepts | src/asm/register_parsers.rs:6-16 | A prefix followed by digits reads the digits' value and consumes everything |
| RegisterParsers.RegisterAccepts | src/asm/register_parsers.rs:48-62 | `$` or `%` followed by digits names that integer or real register with nothing left over; an index above 255 panics |
| RegisterParsers.IntRegisterAccepts | src/asm/register_parsers.rs:50-55 | `$` followed by digits names that integer register with nothing left over |
| RegisterParsers.RealRegisterAccepts | src/asm/register_parsers.rs:57-62 | `%` followed by digits names that real register with nothing left over |
| RegisterParsers.RegisterRejects | src/asm/register_parsers.rs:64-71 | Input that starts with neither `$` nor `%`, or whose prefix is not followed by a digit, is rejected |
| RegisterParsers.NoPrefix | src/asm/register_parsers.rs:8 | Input that starts with another character than the prefix is rejected |
| RegisterParsers.NoDigit | src/asm/register_parsers.rs:9 | A prefix followed by a character that is no digit is rejected |
| LabelParsers.LabelDeclaration | src/asm/label_parsers.rs:5-16 | A label declaration names a non-empty run of letters and digits, and the parser never panics |
| LabelParsers.Colon | src/asm/label_parsers.rs:9-12 | After the name, the colon yields the declaration of that name |
| LabelParsers.LabelReference | src/asm/label_parsers.rs:18-29 | A label reference names a non-empty run of letters and digits, and the parser never panics |
| LabelParsers.LabelDeclarationAccepts | src/asm/label_parsers.rs:36-45 | A name followed by a colon declares that label, consuming the whole input |
| LabelParsers.NameBeforeColon | src/asm/label_parsers.rs:8 | The name is the run of letters and digits before the colon |
| LabelParsers.ColonAlone | src/asm/label_parsers.rs:9-10 | A lone colon ends a declaration with nothing left |
| LabelParsers.LabelDeclarationNeedsColon | src/asm/label_parsers.rs:47-48 | Without its colon a name is not a label declaration |
| LabelParsers.LabelReferenceAccepts | src/asm/label_parsers.rs:52-61 | `@` followed by a name refers to that label, consuming the whole input |
| LabelParsers.LabelReferenceNeedsAt | src/asm/label_parsers.rs:63-64 | Without its `@` a name is not a label reference |
| LabelParsers.DeclarationOrReference | src/asm/label_parsers.rs:5-29 | No input is both a label declaration and a label reference |
| OperandParsers.Literal | src/asm/operand_parsers.rs:19-22 | After `#` and an optional `-`, the blanks are skipped: what is left is empty or starts with a non-blank |
| OperandParsers.Signed | src/asm/operand_parsers.rs:26-30 | The digits' value carries the sign: negative exactly when a minus sign was read (unless zero) |
| OperandParsers.IntegerOperand | src/asm/operand_parsers.rs:18-36 | An accepted integer operand is an `Integer` token whose value fits an `i32` |
| OperandParsers.AsI32 | src/asm/operand_parsers.rs:31 | The conversion succeeds exactly for numbers in the `i32` range, yielding that number; others panic |
| OperandParsers.DecimalReal | src/asm/operand_parsers.rs:52-55 | The value of an unsigned decimal literal is never negative |
| OperandParsers.Fraction | src/asm/operand_parsers.rs:44-45 | A fraction is a non-empty run of digits, and reading one never panics |
| OperandParsers.RealOperand | src/asm/operand_parsers.rs:38-60 | An accepted real operand is a finite `Real` token, and reading one never panics |
| OperandParsers.RealNumber | src/asm/operand_parsers.rs:43-55 | The digits, point and digits after the sign give a finite `Real`, without panicking |
| OperandParsers.StringOperand | src/asm/operand_parsers.rs:62-71 | A string operand is the text between the first two single quotes: the input is quote, text, quote, rest, and the text holds no quote |
| OperandParsers.Operand | src/asm/operand_parsers.rs:8-16 | An operand is a real, an integer, a label reference, a register or a string |
| OperandParsers.LiteralOf | src/asm/operand_parsers.rs:19-22 | `#`, an optional `-` and a non-blank rest are read as that sign and that rest |
| OperandParsers.IntegerOperandAccepts | src/asm/operand_parsers.rs:18-36 | `#`, an optional `-` and digits are read whole as the signed number when it fits an `i32`, and panic otherwise |
| OperandParsers.IntegerOperandNeedsHash | src/asm/operand_parsers.rs:86-87 | Digits without `#` are rejected |
| OperandParsers.RealOperandAccepts | src/asm/operand_parsers.rs:38-60 | `#`, an optional `-`, digits, `.` and digits are read whole as the signed decimal number |
| OperandParsers.RealOperandNeedsHash | src/asm/operand_parsers.rs:99-100 | A decimal number without `#` is rejected |
| OperandParsers.WholeNumberIsInteger | src/asm/operand_parsers.rs:112-117 | `#` and digits within the `i32` range are an integer operand of that value: the real rule gives way |
| OperandParsers.WholeNumberIsNotReal | src/asm/operand_parsers.rs:38-45 | `#` and digits without a point are not a real operand |
| OperandParsers.RealNumberNeedsPoint | src/asm/operand_parsers.rs:43-45 | Digits with no point after them are not a real number |
| OperandParsers.NoFraction | src/asm/operand_parsers.rs:44 | Empty input has no fraction |
| OperandParsers.StringOperandAccepts | src/asm/operand_parsers.rs:138-154 | Quoted text without inner quotes is read as that string, leaving the rest; without its closing quote it is rejected |
| OperandParsers.RealExample | src/asm/operand_parsers.rs:105-110 | `#3.145` is the real 3.145 with nothing left over |
| OperandParsers.RealFirst | src/asm/operand_parsers.rs:9-10 | Input the real rule accepts is always read as a real |
| OperandParsers.IntegerExample | src/asm/operand_parsers.rs:112-117 | `#4` is the integer 4 with nothing left over |
| OperandParsers.LabelExample | src/asm/operand_parsers.rs:121-132 | `@test` is a reference to label `test` |
| OperandParsers.BareWordExample | src/asm/operand_parsers.rs:134-135 | A bare word is not an operand |
| OperandParsers.NotALiteral | src/asm/operand_parsers.rs:18-71 | Input not starting with `#` or a quote is no integer, real or string operand |
| InstructionParsers.LabelName | src/asm/instruction_parsers.rs:30-38 | A name is returned exactly when the label slot holds a label declaration, and it is that declaration's name |
| InstructionParsers.DirectiveName | src/asm/instruction_parsers.rs:44-52 | A name is returned exactly when the directive slot holds a directive, and it is that directive's name |
| InstructionParsers.HasOperands | src/asm/instruction_parsers.rs:58-60 | True exactly when some of the three operand slots is filled |
| InstructionParsers.StringConstant | src/asm/instruction_parsers.rs:62-70 | A string is returned exactly when the first operand is a string token, and it is that token's text |
| InstructionParsers.OperandBytes | src/asm/instruction_parsers.rs:100-134 | An integer register is its index byte; a real register its index with the top bit set; an `i32` its four big-endian two's-complement bytes; a label reference exits exactly when the label is unknown and is otherwise its offset's high and low bytes |
| InstructionParsers.PadTo4 | src/asm/instruction_parsers.rs:93-95 | Zeros are appended up to four bytes; nothing is truncated and the original bytes come first |
| InstructionParsers.Encode | src/asm/instruction_parsers.rs:72-98 | An encoded line is at least four bytes, starts with the opcode's byte, and is the opcode byte and the operands' encodings in slot order, zero-padded |
| InstructionParsers.ExtractOperand | src/asm/instruction_parsers.rs:100-134 | Appending one token's bytes yields the earlier bytes followed by the token's encoding, or the process exit |
| InstructionParsers.ToBytes | src/asm/instruction_parsers.rs:72-98 | The bytes produced are the line's encoding |
| InstructionParsers.ExtractOperands | src/asm/instruction_parsers.rs:87-91 | The loop over the operand slots appends the slots' encodings in order to what was already there, or exits when one of them does |
| InstructionParsers.PadZeros | src/asm/instruction_parsers.rs:93-97 | The padding loop yields the bytes padded with zeros to four |
| InstructionParsers.OperandsBytesStep | src/asm/instruction_parsers.rs:87-91 | Encoding one more slot appends that slot's encoding |
| InstructionParsers.ExitPropagates | src/asm/instruction_parsers.rs:126-127 | Once an operand exits the process, so does the whole line |
| InstructionParsers.OperandExamples | src/asm/instruction_parsers.rs:183-217 | Integer register 4 is `[4]`, real register 3 is `[131]`, 42 is `[0,0,0,42]` and -42 is `[255,255,255,214]` |
| InstructionParsers.EncodeExamples | src/asm/instruction_parsers.rs:72-97 | A line with three operands is its opcode byte and their encodings; a bare opcode is padded with three zeros |
| Asm.SectionFrom | src/asm/mod.rs:246-254 | Exactly `data` names the data section and exactly `code` the code section, each without an offset; every other name is unknown |
| Asm.U32 | src/asm/mod.rs:215 | The cast to `u32` keeps the length modulo 2^32 |
| Asm.Header | src/asm/mod.rs:20-21 | The header is 32 bytes: the four bytes of "DOVM", the read-only length as a big-endian 32-bit number, then zeros |
| Asm.LabelDeclStep | src/asm/mod.rs:112-129 | A line without a declared label records an error; a taken name records `SymbolAlreadyDeclared`; a new name is added as a label; nothing else changes |
| Asm.SectionHeaderStep | src/asm/mod.rs:170-180 | An unknown section name records an error; a known one is appended to the sections and becomes the current section |
| Asm.SetOffsetsKeepsUnique | src/asm/mod.rs:191 | Setting a symbol's offset keeps the table's names distinct |
| Asm.FirstStepKeepsUnique | src/asm/mod.rs:95-108 | One line of the first pass never gives two symbols the same name |
| Asm.FirstStepsKeepUnique | src/asm/mod.rs:95-110 | The whole first pass keeps the symbol table free of duplicate names |
| Asm.DirectiveAppendsErrors | src/asm/mod.rs:145-168 | A directive never removes or rewrites recorded errors; it only appends |
| Asm.LabelOutsideSection | src/asm/mod.rs:97-102 | A label before any section header records `NoSectionDecl` and, without a directive, adds no symbol |
| Asm.LabelRecorded | src/asm/mod.rs:97-99 | A label declared inside a section is in the table after its line |
| Asm.StrDeclaresConstant | src/asm/mod.rs:182-208 | A labelled `.str` in the first phase sets the label's offset to the read-only length before it, appends the text's UTF-8 bytes and a zero, and records no error |
| Asm.DirectiveErrors | src/asm/mod.rs:156-207 | A directive with operands other than `str` records `UnknownDirective`; a `.str` without a string records `EmptyString`; one without a label records `UnlabeledString`; nothing else changes |
| Asm.DirectiveKeepsSectionsKnown | src/asm/mod.rs:170-180 | A directive only ever records the data or code section |
| Asm.FirstStepsKeepSectionsKnown | src/asm/mod.rs:95-110 | The first pass records only data and code sections |
| Asm.DirectiveInSecondPhase | src/asm/mod.rs:182-185 | In the second phase a directive leaves the symbol table and the read-only section alone |
| Asm.SecondPassKeepsData | src/asm/mod.rs:131-143 | The second pass changes neither the symbol table nor the read-only section, so every line is encoded against the table the first pass built |
| Asm.AssembledLayout | src/asm/mod.rs:65-85 | A successful assembly had no first-pass error and two sections, and is the header (prefix, big-endian read-only length), the read-only section, then the second pass's program bytes |
| Asm.AssemblyFailures | src/asm/mod.rs:65-93 | Assembly fails on a parse error, then on the first pass's errors, then with `MissingSection` when there are not two sections; a failure always carries an error |
| Asm.HelloExample | src/asm/mod.rs:331-338 | `test: .str 'Hello'` as the first constant gives six read-only bytes, so the header's length field is 0, 0, 0, 6 |
| Asm.Assembler.constructor | src/asm/mod.rs:54-63 | A new assembler has an empty table, empty read-only section, no sections or errors, and is in the first phase |
| Asm.Assembler.ProcessLabelDecl | src/asm/mod.rs:112-129 | The assembler's new state is the label step applied to the old one |
| Asm.Assembler.ProcessSectionHeader | src/asm/mod.rs:170-180 | The assembler's new state is the section-header step applied to the old one |
| Asm.Assembler.HandleStr | src/asm/mod.rs:182-208 | Pushing the bytes one at a time and then the zero gives the `.str` step's state |
| Asm.Assembler.ProcessDirective | src/asm/mod.rs:145-168 | The assembler's new state is the directive step applied to the old one |
| Asm.Assembler.ProcessFirst | src/asm/mod.rs:95-110 | The loop over the lines gives the first pass's state, ending in the second phase |
| Asm.Assembler.ProcessSecond | src/asm/mod.rs:131-143 | The loop over the lines gives the second pass's state and program bytes, or the process exit |
| Asm.Assembler.WriteHeader | src/asm/mod.rs:210-224 | The header written is the header for the current read-only length |
| Asm.Assembler.Assemble | src/asm/mod.rs:65-93 | The state and outcome are those of the whole assembly of the parsed program |
| Asm.ExitRemains | src/asm/instruction_parsers.rs:126-127 | Once a line has exited the process, later lines change nothing |
| Asm.LengthBytes | src/asm/mod.rs:215-219 | The four shifts of `write_header` give the big-endian bytes of a 32-bit length |
| Builtin.Name | src/compiler/builtin.rs:13-17 | A builtin's display name is its variant name: non-empty and capitalised |
| Builtin.FirstNamed | src/compiler/builtin.rs:23-27 | A candidate is found exactly when one of them has the input's lower-cased name, and the one found is such a candidate |
| Builtin.TryFrom | src/compiler/builtin.rs:19-30 | Lookup succeeds exactly when some builtin's name matches the input ignoring case, returns such a builtin, and otherwise fails with an `IsNot` error carrying the input |
| Builtin.TryFromName | src/compiler/builtin.rs:44-52 | Looking up a builtin's display name gives that builtin back |
| Builtin.TryFromIgnoresCase | src/compiler/builtin.rs:50-52 | Two spellings that lower-case the same look up the same builtin, or both fail |
| TypeName.Name | src/compiler/type.rs:12-16 | A type's display name is its variant name: non-empty and capitalised |
| TypeName.FirstNamed | src/compiler/type.rs:22-26 | A candidate is found exactly when one of them has the input's lower-cased name, and the one found is such a candidate |
| TypeName.TryFrom | src/compiler/type.rs:18-29 | Lookup succeeds exactly when some type's name matches the input ignoring case, returns such a type, and otherwise fails with an `IsNot` error carrying the input |
| TypeName.TryFromName | src/compiler/type.rs:21-27 | Looking up a type's display name gives that type back |
| Compiler.KindChar | src/compiler/mod.rs:30-38 | A register is written with the letter of its bank: `i`, `r` or `v` |
| Compiler.Bank | src/compiler/mod.rs:58-75 | Each bank is the 32 registers 0..31 of one kind, in index order |
| Compiler.SetFree | src/compiler/mod.rs:111-117 | Replacing one kind's free list leaves the other lists and every other field alone |
| Compiler.PushFree | src/compiler/mod.rs:111-117 | A register goes to the end of its own kind's free list; nothing else changes |
| Compiler.Compiler.constructor | src/compiler/mod.rs:54-81 | A new compiler has all 32 registers of each kind free and nothing in use, emitted or bound |
| Compiler.Compiler.IntegrityCheck | src/compiler/mod.rs:98-109 | The check passes exactly when no register in use is on its kind's free list |
| Compiler.Compiler.PushFreeReg | src/compiler/mod.rs:111-117 | The new state is the old one with the register returned to its kind's free list |
| Compiler.Compiler.GetBinopResultReg | src/compiler/mod.rs:119-134 | The result is the last free register of the widened kind, taken off its list; an empty list is the `unwrap` panic |
| Compiler.Compiler.Pop | src/compiler/mod.rs:122-132 | `pop` gives the last register of the list and removes it, or nothing when the list is empty |
| Compiler.Compiler.AddArithInstruction | src/compiler/mod.rs:136-155 | The outcome and new state are those of the arithmetic operator step |
| Compiler.Compiler.AddCompareInstruction | src/compiler/mod.rs:157-176 | The outcome and new state are those of the comparison step, whose result is an integer register |
| Compiler.Compiler.VisitToken | src/compiler/mod.rs:180-412 | Visiting a node ends as the visit function says: success with its state, its error, or a panic (including a failed integrity check) |
| Compiler.Compiler.VisitNodeOf | src/compiler/mod.rs:183-407 | The match over node kinds ends as the node's own step says |
| Compiler.Compiler.VisitCompare | src/compiler/mod.rs:202-206 | A comparison visits left, right, then the operator, stopping at the first failure |
| Compiler.Compiler.VisitAssign | src/compiler/mod.rs:208-237 | An assignment visits its right-hand side and then binds the name |
| Compiler.Compiler.BindResult | src/compiler/mod.rs:212-236 | Binding ends as the bind step says, including the change-of-kind error |
| Compiler.Compiler.VisitBuiltin | src/compiler/mod.rs:239-283 | `write` with one argument visits it and prints it; other arities and other builtins are errors |
| Compiler.Compiler.WriteRegister | src/compiler/mod.rs:250-268 | The print syscall on the argument's register ends as the write step says |
| Compiler.Compiler.VisitIdentifier | src/compiler/mod.rs:285-316 | An identifier ends as the copy step says: an unknown name is an error |
| Compiler.Compiler.VisitReal | src/compiler/mod.rs:318-323 | A literal is loaded into the last free real register, which goes on the used stack |
| Compiler.Compiler.VisitColl | src/compiler/mod.rs:324-376 | A collection ends as the collection step says: allocation, one store per element, then the vector load |
| Compiler.Compiler.StartColl | src/compiler/mod.rs:326-337 | Fewer than two free integer registers panics; otherwise the last two become the allocation and cursor registers and the state is the collection start |
| Compiler.Compiler.StoreCollectionElement | src/compiler/mod.rs:342-362 | One loop turn ends as the store step says: a non-real element is an error |
| Compiler.Compiler.FinishColl | src/compiler/mod.rs:364-375 | The end of a collection ends as the finish step says |
| Compiler.Compiler.VisitChain | src/compiler/mod.rs:379-398 | A term or expression visits its left operand, then each operand before its operator |
| Compiler.Compiler.VisitProgram | src/compiler/mod.rs:399-406 | A program opens the data and code sections, visits each statement in order and ends with `halt` |
| CompilerInvariant.InitialAccounted | src/compiler/mod.rs:54-81 | In a new compiler every one of the 96 registers is free exactly once |
| CompilerInvariant.AllRegistersOnce | src/compiler/mod.rs:58-75 | No register occurs twice among those `new` creates |
| CompilerInvariant.BalancedIntegrity | src/compiler/mod.rs:98-109 | When every register is free or in use exactly once, the integrity check passes |
| CompilerInvariant.PopFree | src/compiler/mod.rs:119-134 | Taking the last free register of a kind yields a register of that kind and removes exactly it from the pool |
| CompilerInvariant.PushFreeKeeps | src/compiler/mod.rs:111-117 | Returning a register to its kind's list keeps each list of one kind and adds exactly it to the pool |
| CompilerInvariant.BinopMoves | src/compiler/mod.rs:136-176 | An operator only moves registers between the free lists and the used stack |
| CompilerInvariant.BinopBalanced | src/compiler/mod.rs:136-176 | An operator keeps every register free or in use exactly once |
| CompilerInvariant.BindBalanced | src/compiler/mod.rs:208-237 | A successful assignment keeps every register accounted for |
| CompilerInvariant.WriteBalanced | src/compiler/mod.rs:239-269 | A successful `write` keeps every register accounted for |
| CompilerInvariant.CopyVariableBalanced | src/compiler/mod.rs:285-316 | A successful identifier copy keeps every register accounted for |
| CompilerInvariant.LoadLiteralBalanced | src/compiler/mod.rs:318-323 | Loading a literal keeps every register accounted for |
| CompilerInvariant.FinishMoves | src/compiler/mod.rs:364-375 | The end of a collection returns the allocation and cursor registers and moves one vector register into use |
| CompilerInvariant.FinishCollectionBalanced | src/compiler/mod.rs:364-375 | With the allocation and cursor registers held, the end of a collection restores the invariant without them |
| CompilerInvariant.StoreElementBalanced | src/compiler/mod.rs:342-362 | A successful loop turn of a collection keeps every register accounted for |
| CompilerInvariant.ElementsBalanced | src/compiler/mod.rs:338-363 | The whole element loop keeps every register accounted for |
| CompilerInvariant.CollectionLoopBalanced | src/compiler/mod.rs:324-363 | After the start of a collection the two integer registers it took are held, and the loop keeps that |
| CompilerInvariant.CollectionBalanced | src/compiler/mod.rs:324-376 | A successful collection keeps every register accounted for |
| CompilerInvariant.CompareBalanced | src/compiler/mod.rs:202-206 | A successful comparison keeps every register accounted for |
| CompilerInvariant.AssignBalanced | src/compiler/mod.rs:208-237 | A successful assignment node keeps every register accounted for |
| CompilerInvariant.BuiltinBalanced | src/compiler/mod.rs:239-283 | A successful builtin node keeps every register accounted for |
| CompilerInvariant.ChainBalanced | src/compiler/mod.rs:379-398 | A successful term or expression keeps every register accounted for |
| CompilerInvariant.OperandsBalanced | src/compiler/mod.rs:384-397 | The operand loop of a chain keeps every register accounted for |
| CompilerInvariant.ProgramBalanced | src/compiler/mod.rs:399-406 | A successful program keeps every register accounted for |
| CompilerInvariant.StatementsBalanced | src/compiler/mod.rs:402-404 | The statement loop keeps every register accounted for |
| CompilerInvariant.VisitNodeBalanced | src/compiler/mod.rs:183-407 | Every successful node visit keeps every register accounted for |
| CompilerInvariant.VisitBalanced | src/compiler/mod.rs:180-412 | Under the invariant the integrity check never fires, and a successful visit keeps the invariant |
| CompilerInvariant.PerKind | src/compiler/mod.rs:58-75 | Under the invariant, each kind's free list and its registers in use are exactly its 32 registers |
| CompilerInvariant.VisitKeepsAccounted | src/compiler/mod.rs:180-412 | From `new` on, every successful visit leaves each register free or in use exactly once, 32 per kind, and the integrity check never fires |
| CompilerProperties.ResultKindIsWider | src/compiler/mod.rs:119-134 | An arithmetic result is of the wider operand kind (integer, then real, then vector), whatever the operand order |
| CompilerProperties.BinopEffect | src/compiler/mod.rs:136-176 | An operator panics exactly when fewer than two registers are in use or the result kind has none free, never errs, and otherwise replaces the two top operands by the last free register of the result kind, emits the line and frees left then right |
| CompilerProperties.BindEffect | src/compiler/mod.rs:208-237 | An assignment binds the name to the top of the stack holding the value's register; a rebound name's old register leaves the stack and is freed, the registers above it moving down |
| CompilerProperties.ReassignKindMismatch | src/compiler/mod.rs:216-223 | Rebinding a name to a register of another kind is the kind-change error; both registers are then neither in use nor free |
| CompilerProperties.IdentifierCopies | src/compiler/mod.rs:285-316 | An unknown name is an error that changes nothing; a known one is copied into a fresh register of its kind pushed on the stack, bindings unchanged |
| CompilerProperties.BuiltinArguments | src/compiler/mod.rs:239-283 | A builtin other than `write` and `write` with other than one argument are errors that change nothing |
| CompilerProperties.WriteFrees | src/compiler/mod.rs:250-268 | `write` panics exactly without an argument register or a free integer register; otherwise the argument register leaves the stack and is freed, and the syscall register stays free |
| CompilerProperties.NonRealElementRefused | src/compiler/mod.rs:343-350 | A collection element in a non-real register is the "Unable to put non-real into a vector" error |
| CompilerProperties.VisitAppends | src/compiler/mod.rs:180-412 | A successful visit only appends to the emitted lines |
| CompilerProperties.VisitNodeAppends | src/compiler/mod.rs:183-407 | Every node kind only appends to the emitted lines |
| CompilerProperties.CompareAppends | src/compiler/mod.rs:202-206 | A comparison only appends to the emitted lines |
| CompilerProperties.CollAppends | src/compiler/mod.rs:324-376 | A collection only appends to the emitted lines |
| CompilerProperties.ChainAppends | src/compiler/mod.rs:379-398 | A term or expression only appends to the emitted lines |
| CompilerProperties.ElementsAppend | src/compiler/mod.rs:338-363 | The element loop only appends to the emitted lines |
| CompilerProperties.OperandsAppend | src/compiler/mod.rs:384-397 | The operand loop only appends to the emitted lines |
| CompilerProperties.StatementsAppend | src/compiler/mod.rs:402-404 | The statement loop only appends to the emitted lines |
| CompilerProperties.CollectionShape | src/compiler/mod.rs:324-376 | A collection allocates 8 bytes per element first and ends by loading the vector register it leaves on top of the stack |
| CompilerProperties.CollectionYieldsVector | src/compiler/mod.rs:366-375 | Between visits, what a collection leaves on the stack is a vector register |
| CompilerProperties.PostfixOrder | src/compiler/mod.rs:384-387 | Each pair contributes its operand and then its operator, in order |
| CompilerProperties.OperandsArePostfix | src/compiler/mod.rs:384-397 | The operand loop visits the operands and operators in postfix order |
| CompilerProperties.VisitEachPair | src/compiler/mod.rs:384-387 | Two visits then a list run in order, each only after its predecessor succeeded |
| CompilerProperties.ChainIsPostfix | src/compiler/mod.rs:379-398 | A term or expression is its left operand and then each operand before its operator, left to right |
| CompilerExamples.Transparent | src/compiler/mod.rs:378-398 | A factor, and a term or expression without operators, is its inner node |
| CompilerExamples.NumberVisit | src/compiler/mod.rs:318-323 | The parse-tree wrappers around a literal visit as the literal |
| CompilerExamples.VariableVisit | src/compiler/mod.rs:285 | The parse-tree wrappers around a variable visit as the identifier |
| CompilerExamples.OneOperator | src/compiler/mod.rs:389-397 | An expression with one operator visits the left operand, the right operand, then the operator |
| CompilerExamples.CompareVisit | src/compiler/mod.rs:202-206 | A comparison visits left, right, then the operator |
| CompilerExamples.SingleStatement | src/compiler/mod.rs:399-406 | A program of one statement opens the sections, visits it and appends `halt` |
| CompilerExamples.TwoStatements | src/compiler/mod.rs:399-406 | A program of two statements visits them in order before `halt`, stopping at the first failure |
| CompilerExamples.ProgramVisit | src/compiler/mod.rs:399-412 | A non-empty program ends with `halt` after its statements, which already passed the integrity check |
| CompilerExamples.OperatorNode | src/compiler/mod.rs:189-200 | Each operator token is its arithmetic or comparison instruction with its mnemonic |
| CompilerExamples.ArithmeticExample | src/compiler/mod.rs:454-564 | `1.2 + 3.4` (and `-`, `*`, `/`) loads r31 and r30, puts the result in r29, leaves 31 reals free and ends with `halt` |
| CompilerExamples.ComparisonExample | src/compiler/mod.rs:593-727 | `1.2 neq 3.4` (and the other comparisons) puts the result in i31 and frees both reals |
| CompilerExamples.EqualsChainExample | src/compiler/mod.rs:564-592 | `1.2 + 4.1 eq 3.4` adds into r29, reloads r30, compares into i31 |
| CompilerExamples.AssignExample | src/compiler/mod.rs:729-748 | `foo = 42.0` loads r31 and binds `foo` to stack position 0 |
| CompilerExamples.IdentifierExample | src/compiler/mod.rs:755-796 | `foo = 42.0` then `bar = foo` copies r31 into r30 through the zero register i31 and binds `bar` to position 1 |
| CompilerExamples.WriteExample | src/compiler/mod.rs:834-858 | `do(write, 42.0)` prints r31 through the syscall register i31 and leaves every register free |
| CompilerExamples.UnknownBuiltinExample | src/compiler/mod.rs:281 | An unknown builtin is the "Unknown builtin" error |
| CompilerExamples.CollectionExample | src/compiler/mod.rs:798-832 | `[0, 1.2]` allocates 16 bytes in i31, stores each element through the cursor i30, and loads v31 |
| CompilerExamples.ReassignKindExample | src/compiler/mod.rs:750-751 | `foo = 42.0` then `foo=[1,2]` is the error naming the real and the vector kinds |
| CompilerExamples.ReassignShiftExample | src/compiler/mod.rs:216-228 | After `a = 1.0` and `b = 2.0`, `a = 3.0` moves `b`'s register down to position 0 while `b` keeps index 1, which now holds `a`'s new register |
| HandlerMachine.RegisterAt | src/vm/register.rs:51-73 | A successful read of an integer-bank byte is below 32 and holds that integer register, an `i32`; of a real-bank byte, the real register at the byte without bit 7; of any other byte, the vector register at the byte without bit 6 |
| HandlerMachine.RegisterAtEncodings | src/vm/register.rs:51-73 | A register byte is readable exactly when it is below 32, in 64..96 or in 128..160, and the read gives a vector exactly for the vector encodings, whichever bank bit is checked first |
| HandlerMachine.WriteInt | src/vm/arith_opcode.rs:21 | Storing an `i32` into a readable integer register keeps the machine well formed |
| HandlerMachine.WriteReal | src/vm/arith_opcode.rs:27 | Storing an `f64` into a readable real register keeps the machine well formed |
| HandlerMachine.WriteVector | src/vm/arith_opcode.rs:36-37 | Storing a vector into a readable vector register keeps the machine well formed |
| HandlerMachine.Zip | src/vm/arith_opcode.rs:32-37 | The pairwise combination of two equally long vectors has their length and at every position the operation applied to the two elements there |
| HandlerMachine.MapRight | src/vm/arith_opcode.rs:39-42 | Broadcasting a scalar on the right keeps the vector's length and applies the operation to each element and the scalar |
| HandlerMachine.MapLeft | src/vm/arith_opcode.rs:44-48 | Broadcasting a scalar on the left keeps the vector's length and applies the operation to the scalar and each element |
| HandlerMachine.Binary | src/vm/arith_opcode.rs:8-57 | A binary handler leaves the machine well formed and, unless it panics, moves the program counter past its three operand bytes without touching the program |
| HandlerMachine.Combine | src/vm/arith_opcode.rs:16-54 | Once the operands are read, the destination's bank decides the combination; the result is well formed and, unless it panics, the counter stands past the three bytes |
| HandlerMachine.BinaryScalarDestinations | src/vm/arith_opcode.rs:16-28 | Into an integer register two scalar operands combine as `i32` values and the result is stored, into a real register as `f64` values; a vector operand fails its conversion and nothing is written |
| HandlerMachine.BinaryIntegerDestination | src/vm/arith_opcode.rs:16-22 | Into an integer register the handler stores the `i32` operation of the two scalars, panics where that operation panics, and fails on a vector operand |
| HandlerMachine.BinaryVectorDestination | src/vm/arith_opcode.rs:29-53 | Into a vector register two vectors of unequal length fail, of equal length combine pairwise; a vector and a scalar broadcast the scalar where the handler allows it; two scalars fail; every stored vector has its vector operand's length |
| HandlerMachine.VM.constructor | src/vm/mod.rs:37-46 | A new machine has zeroed integer and real registers, empty vectors, an empty program and counter 0 |
| HandlerMachine.VM.NextU8 | src/vm/mod.rs:166-170 | Reads the byte at the counter and advances past it, or reports the read past the end of the program and changes nothing |
| HandlerMachine.VM.NextThree | src/vm/arith_opcode.rs:9-11 | Three bytes are read exactly when the program holds them; they are the bytes at the counter in order and the counter advances by three |
| HandlerMachine.VM.NextTwo | src/vm/logic_opcode.rs:149-150 | Two bytes are read exactly when the program holds them; they are the bytes at the counter in order and the counter advances by two |
| HandlerMachine.VM.GetRegisters | src/vm/arith_opcode.rs:13-14 | The first operand's read error wins, then the second's; otherwise both registers as `get_register` reads them |
| HandlerMachine.VM.GetRegister | src/vm/register.rs:51-73 | Reads the register the byte names, as the model of `get_register` does |
| HandlerMachine.ApplyBinary | src/vm/arith_opcode.rs:8-57 | The shared body of the binary handlers changes the machine exactly as `Binary` describes |
| HandlerMachine.CombineInto | src/vm/arith_opcode.rs:16-54 | With the operands read, the stored result and the outcome are those of `Combine` |
| ArithOpcode.MessagesOf | src/vm/arith_opcode.rs:8-206 | `sub` and `div` refuse a scalar left of a vector; `add` and `mul` broadcast it |
| ArithOpcode.IntOp | src/vm/arith_opcode.rs:8-206 | The `i32` operation of a handler is the VM's integer arithmetic, panicking on overflow and on a zero divisor |
| ArithOpcode.RealOp | src/vm/arith_opcode.rs:8-206 | The `f64` operation of a handler is the VM's real arithmetic |
| ArithOpcode.Arith | src/vm/arith_opcode.rs:8-206 | Every arithmetic handler keeps the machine well formed |
| ArithOpcode.Add | src/vm/arith_opcode.rs:8-57 | `add` changes the machine as the arithmetic transition for `+` says |
| ArithOpcode.Sub | src/vm/arith_opcode.rs:59-105 | `sub` changes the machine as the arithmetic transition for `-` says |
| ArithOpcode.Mul | src/vm/arith_opcode.rs:107-156 | `mul` changes the machine as the arithmetic transition for `*` says |
| ArithOpcode.Div | src/vm/arith_opcode.rs:158-206 | `div` changes the machine as the arithmetic transition for `/` says |
| ArithOpcode.IntegerDestination | src/vm/arith_opcode.rs:16-22 | Into an integer register: a vector operand is an error with only the counter moved; two scalars store their `i32` result and change nothing else, or panic where the operation has no `i32` result |
| ArithOpcode.DivisionByZeroPanics | src/vm/arith_opcode.rs:167-171 | Dividing by an integer register that holds zero into an integer register panics |
| ArithOpcode.RealDestination | src/vm/arith_opcode.rs:23-28 | Into a real register two scalars taken as `f64` store their `f64` result and nothing else changes |
| ArithOpcode.ScalarFirstRefused | src/vm/arith_opcode.rs:95-96 | `sub` and `div` into a vector register refuse a scalar left of a vector with their own message |
| ArithOpcode.AddIntegersExample | src/vm/arith_opcode.rs:217-235 | 3 + 2 into an integer register is 5, and so is the real 3.2 plus 2 |
| ArithOpcode.VectorAddExample | src/vm/arith_opcode.rs:252-265 | [1, 2, 3.1] + [2, 3, 4] is [3, 5, 7.1] |
| ArithOpcode.ScalarFirstExample | src/vm/arith_opcode.rs:282-295 | 1.2 + [1, 2, 3.1] into a vector register is [2.2, 3.2, 4.3] |
| ArithOpcode.SubVectorFromRealExample | src/vm/arith_opcode.rs:370-381 | 1.2 - [1, 2, 3.1] into a vector register is refused |
| CompareOpcode.Decide | src/vm/compare_opcode.rs:284-309 | A comparison succeeds exactly when both operands are vectors or neither is; a vector left of a scalar gives the mixed-kinds error |
| CompareOpcode.ContentsEqual | src/vm/compare_opcode.rs:284-309 | With both operands readable it is the `==` comparison of the two registers; an unreadable first operand reports its error |
| CompareOpcode.Comparison | src/vm/compare_opcode.rs:8-282 | Every comparison handler keeps the machine well formed |
| CompareOpcode.Settle | src/vm/compare_opcode.rs:41-77 | Once the operands are read, the flag or the comparison's error keeps the machine well formed |
| CompareOpcode.Eq | src/vm/compare_opcode.rs:8-27 | `eq` changes the machine as the comparison transition for `==` says |
| CompareOpcode.AreRegisterContentsEqual | src/vm/compare_opcode.rs:284-309 | Returns the model of `are_register_contents_equal` on the current registers |
| CompareOpcode.Compare | src/vm/compare_opcode.rs:29-78 | The body shared by the ordering handlers changes the machine as the comparison transition for its operator says |
| CompareOpcode.StoreFlag | src/vm/compare_opcode.rs:44-76 | With the operands read, the flag stored and the outcome are those of `Settle` |
| CompareOpcode.Neq | src/vm/compare_opcode.rs:29-78 | `neq` changes the machine as the comparison transition for `!=` says |
| CompareOpcode.Gt | src/vm/compare_opcode.rs:80-129 | `gt` changes the machine as the comparison transition for `>` says |
| CompareOpcode.Lt | src/vm/compare_opcode.rs:131-180 | `lt` changes the machine as the comparison transition for `<` says |
| CompareOpcode.Gte | src/vm/compare_opcode.rs:182-231 | `gte` changes the machine as the comparison transition for `>=` says |
| CompareOpcode.Lte | src/vm/compare_opcode.rs:233-282 | `lte` changes the machine as the comparison transition for `<=` says |
| CompareOpcode.OutputCheckedFirst | src/vm/compare_opcode.rs:9-15 | A destination outside the integer bank is refused after reading only that byte, before any operand is read, and no register changes |
| CompareOpcode.WritesOnlyFlag | src/vm/compare_opcode.rs:8-78 | A comparison that succeeds writes 1 or 0, as the operator decides, into its integer destination and changes no other register |
| CompareOpcode.ContentsEqualDecides | src/vm/compare_opcode.rs:8-27 | Once the destination passes the integer check, `eq` records the lookup error `are_register_contents_equal` reports, or writes the flag it decides into the destination, panicking on an index past the bank |
| CompareOpcode.IntegerNegations | src/vm/compare_opcode.rs:29-282 | Between an integer and a scalar, `neq` negates `eq`, `lte` negates `gt` and `gte` negates `lt` |
| CompareOpcode.RealEqualityGap | src/vm/compare_opcode.rs:284-309 | Between reals `eq` and `neq` never both hold, and neither holds of a NaN or of two reals exactly `f64::EPSILON` apart |
| CompareOpcode.LexCmpEqual | src/vm/compare_opcode.rs:301-303 | The lexicographic vector order finds two vectors equal exactly when vector `==` does |
| CompareOpcode.LexCmpSwap | src/vm/compare_opcode.rs:116-122 | Swapping two vectors swaps less and greater, and leaves them unordered exactly when they were |
| CompareOpcode.VectorNegations | src/vm/compare_opcode.rs:65-75 | Between vectors `neq` negates `eq` and, where they are ordered, `lte` negates `gt`; a NaN at the head makes every ordering comparison false |
| CompareOpcode.MixedOperandsRefused | src/vm/compare_opcode.rs:301-306 | A vector compared with a scalar, in either order, is an error |
| CompareOpcode.EqualIntegerRealExample | src/vm/compare_opcode.rs:358-376 | The integer 2 equals the real 2.0 and the integer 3 does not |
| CompareOpcode.EqualVectorsExample | src/vm/compare_opcode.rs:421-434 | [2, 3, 4] equals [2, 3, 4] |
| CompareOpcode.UnequalVectorsExample | src/vm/compare_opcode.rs:406-420 | [1, 2, 3.1] does not equal [2, 3, 4] |
| LogicOpcode.IntAnd | src/vm/logic_opcode.rs:8-28 | The `i32` conjunction is 1 or 0 and true exactly when both inputs are non-zero |
| LogicOpcode.IntOr | src/vm/logic_opcode.rs:30-36 | The `i32` disjunction is 1 or 0 and true exactly when either input is non-zero |
| LogicOpcode.IntNot | src/vm/logic_opcode.rs:38-44 | The `i32` negation is 1 or 0 and true exactly when the input is zero |
| LogicOpcode.RealAnd | src/vm/logic_opcode.rs:8-28 | The `f64` conjunction is 0.0 or 1.0 and true exactly when both inputs are non-zero |
| LogicOpcode.RealOr | src/vm/logic_opcode.rs:30-36 | The `f64` disjunction is 0.0 or 1.0 and true exactly when either input is non-zero |
| LogicOpcode.RealNot | src/vm/logic_opcode.rs:38-44 | The `f64` negation is 0.0 or 1.0 and true exactly when the input is zero |
| LogicOpcode.InstancesAgree | src/vm/logic_opcode.rs:22-44 | On integers widened to `f64` the real helpers give the widened integer results |
| LogicOpcode.NotLaws | src/vm/logic_opcode.rs:22-44 | Double negation gives the truth value as 1 or 0, and negated conjunction is the disjunction of the negations |
| LogicOpcode.IntLogicOp | src/vm/logic_opcode.rs:55-60 | The `i32` operation of `and` and `or` never panics |
| LogicOpcode.RealLogicOp | src/vm/logic_opcode.rs:61-66 | The `f64` operation of `and` and `or` is the real helper |
| LogicOpcode.Logic | src/vm/logic_opcode.rs:46-146 | `and` and `or` keep the machine well formed and, unless they panic, leave the counter past the three operand bytes |
| LogicOpcode.And | src/vm/logic_opcode.rs:46-95 | `and` changes the machine as the logic transition for conjunction says |
| LogicOpcode.Or | src/vm/logic_opcode.rs:97-146 | `or` changes the machine as the logic transition for disjunction says |
| LogicOpcode.Negation | src/vm/logic_opcode.rs:148-177 | `not` keeps the machine well formed and, unless it panics, leaves the counter past its two operand bytes |
| LogicOpcode.Not | src/vm/logic_opcode.rs:148-177 | `not` changes the machine as the negation transition says |
| LogicOpcode.LogicIntegerTruth | src/vm/logic_opcode.rs:55-60 | A successful `and` or `or` into an integer register stores 1 or 0 there and changes nothing else |
| LogicOpcode.LogicRealTruth | src/vm/logic_opcode.rs:61-66 | A successful `and` or `or` into a real register stores 0.0 or 1.0 there and changes nothing else |
| LogicOpcode.LogicVectorTruth | src/vm/logic_opcode.rs:67-92 | A successful `and` or `or` into a vector register stores a vector of 0.0s and 1.0s there and changes nothing else |
| LogicOpcode.NegationKinds | src/vm/logic_opcode.rs:155-175 | `not` into a vector register negates each element of a vector input and refuses a scalar; into a scalar register it refuses a vector |
| LogicOpcode.TruthTables | src/vm/logic_opcode.rs:186-224 | The source's truth tables of `do_and`, `do_or` and `do_not` at `i32` and `f64` |
| LogicOpcode.AndExamples | src/vm/logic_opcode.rs:226-256 | `and` of the integers 3 and 2 is 1, of 3 and 0 is 0, and of the real 3.0 and the integer 2 is 1 |
| Lexer.ValidToken | src/lexer.cc:20-72 | A word the tables know gets a token kind in the range of the lexer's codes |
| Lexer.Precedence | src/lexer.cc:41-56 | An operator spelling has a precedence exactly when the operator table holds it; the spelling is then non-empty and its precedence between 2 and 40 |
| Lexer.SkipSpace | src/lexer.cc:79-80 | Skipping whitespace leaves a suffix of the text that is empty or starts with a non-space character |
| Lexer.WordTail | src/lexer.cc:85-88 | The identifier loop never takes more than the text holds |
| Lexer.NumberTail | src/lexer.cc:100-109 | The real-literal loop never takes more than the text holds |
| Lexer.NumberStep | src/lexer.cc:100-109 | The real-literal loop one character at a time: it stops at the end, takes a first `.`, stops at a second one, takes a digit and stops at anything else |
| Lexer.PunctRun | src/lexer.cc:133-136 | The operator loop never takes more than the text holds |
| Lexer.SkipLine | src/lexer.cc:118-120 | Skipping a comment leaves a suffix of the text that is empty or starts at the newline |
| Lexer.Word | src/lexer.cc:90-93 | A word is an identifier or a table kind and never carries an operator spelling |
| Lexer.ScanWord | src/lexer.cc:83-94 | A word from a letter always yields a token other than end of input and consumes at least one character |
| Lexer.ScanNumber | src/lexer.cc:97-114 | A literal from a digit always yields a real token and consumes at least one character |
| Lexer.ScanRun | src/lexer.cc:131-146 | An operator run that does not fail the assertion yields a token other than end of input and consumes at least one character |
| Lexer.Scan | src/lexer.cc:74-151 | `GetToken` consumes part of the text, at least one character for any token but end of input, and end of input leaves nothing behind |
| Lexer.ScanAt | src/lexer.cc:82-150 | Reading from a non-space character consumes at least one character for any token but end of input, and end of input leaves nothing |
| Lexer.ScanComment | src/lexer.cc:117-126 | A comment consumes at least the `#`, and a comment running to the end of input gives end of input with nothing left |
| Lexer.Tokenize | src/lexer.cc:154-156 | The tokens read up to end of input are never the end-of-input token |
| Lexer.Lexer.Stream | src/lexer.cc:11 | The text still to read is empty exactly when there is no lookahead, and otherwise the lookahead followed by the unread input |
| Lexer.Lexer.constructor | src/lexer.cc:11-16 | The lexer starts with a blank lookahead before the input and end of input as its current token |
| Lexer.Lexer.Get | src/lexer.cc:79-80 | Reading a character drops the lookahead from the text still to read |
| Lexer.Lexer.SkipWhitespace | src/lexer.cc:79-80 | The whitespace loop leaves the text with its leading whitespace skipped |
| Lexer.Lexer.Take | src/lexer.cc:86-87 | One loop step appends the lookahead to the lexeme and reads on: the lexeme grows by the next character of the text and the rest follows it |
| Lexer.Lexer.ReadWord | src/lexer.cc:84-88 | The identifier loop returns the letter and the word characters after it and leaves the text after them |
| Lexer.Lexer.ReadNumber | src/lexer.cc:98-109 | The real-literal loop returns the digit and the digits and single `.` after it and leaves the text after them |
| Lexer.Lexer.SkipComment | src/lexer.cc:118-120 | The comment loop leaves the text from the first newline after the `#` |
| Lexer.Lexer.ReadRun | src/lexer.cc:132-136 | The operator loop returns the longest run of characters that are neither alphanumeric nor whitespace and leaves the text after it |
| Lexer.Lexer.LexWord | src/lexer.cc:83-94 | A word yields the token, fields and remaining text `ScanWord` describes |
| Lexer.Lexer.LexNumber | src/lexer.cc:97-114 | A real literal yields the token, value and remaining text `ScanNumber` describes |
| Lexer.Lexer.LexRun | src/lexer.cc:131-146 | An operator run yields the token, spelling and remaining text `ScanRun` describes, or fails the assertion where it does |
| Lexer.Lexer.LexComment | src/lexer.cc:117-126 | A comment yields what `ScanComment` describes: the token after the line, or end of input |
| Lexer.Lexer.GetToken | src/lexer.cc:74-151 | `GetToken` yields the token and remaining text `Scan` describes |
| Lexer.Lexer.LexAt | src/lexer.cc:82-150 | The dispatch after whitespace yields what `ScanAt` describes |
| Lexer.Lexer.NextToken | src/lexer.cc:156 | `NextToken` stores the token read as the current token and leaves the text after it, or fails where the operator assertion fails |
| Lexer.Lexer.BinOpPrecedence | src/lexer.cc:158-164 | The current operator spelling has a precedence exactly when the operator table holds it, and then it is non-empty |
| LexerProperties.TableOrder | src/lexer.cc:58-72 | Keywords are looked up first, builtin names second and operators last |
| LexerProperties.IfIsUnop | src/lexer.cc:22-27 | `if` and `not` read as the same token kind |
| LexerProperties.RunIsNoWord | src/lexer.cc:131-143 | An operator run contains no letter, so it never matches a keyword, a builtin name or a word operator |
| LexerProperties.WordFields | src/lexer.cc:83-94 | A word token carries an identifier spelling, a builtin name or nothing |
| LexerProperties.RunFields | src/lexer.cc:138-145 | An operator token carries its table spelling, or nothing for a single character |
| LexerProperties.ScanFields | src/lexer.cc:74-151 | Every token `GetToken` reads carries only the fields its kind calls for; single characters leave the spelling empty, so no precedence is found for them |
| LexerProperties.CommentFields | src/lexer.cc:117-126 | The token read after a comment carries only the fields its kind calls for |
| LexerProperties.AbortedRun | src/lexer.cc:144 | An operator run fails the assertion only when it is at least two characters long and matches no table spelling |
| LexerProperties.CommentAborted | src/lexer.cc:117-144 | After a comment, too, the assertion fails only on a long unmatched run |
| LexerProperties.NumberTailShape | src/lexer.cc:100-109 | The real-literal loop takes only digits and at most one `.` and stops at a non-digit, or at a `.` once one has been taken |
| LexerProperties.NumberLexeme | src/lexer.cc:97-109 | A real literal holds digits and at most one `.`; a second `.` ends it and is left as the next character |
| LexerProperties.SkipsToNewline | src/lexer.cc:118-120 | The comment loop passes over every character that is not a newline |
| LexerProperties.ScanDispatch | src/lexer.cc:82-146 | After whitespace `GetToken` reads a word from a letter, a literal from a digit, a comment from `#` and an operator run from anything else |
| LexerProperties.CommentSkipped | src/lexer.cc:117-125 | A `#` comment and its newline are skipped and the token after them is read |
| LexerProperties.CommentThen | src/lexer.cc:117-125 | A comment whose first newline is at a position is followed by the token read after that newline |
| LexerProperties.CommentAtEnd | src/lexer.cc:117-128 | A comment running to the end of input yields end of input |
| LexerProperties.DashInWord | src/lexer.cc:88 | `a-b` is one identifier |
| LexerProperties.SecondDotEndsReal | src/lexer.cc:103-107 | `1.2.3` reads the literal 1.2 and leaves `.3` |
| LexerProperties.DoubleParenAborts | src/lexer.cc:133-144 | `))` is one run that matches no table spelling, so the single-character assertion fails |
| LexerProperties.AndHasNoSpelling | src/lexer.cc:158-164 | `and` is read as a logic token with no operator spelling, so `BinOpPrecedence` finds no precedence for it |
| Grammar.Prepend | src/parser.cc:95-110 | A list parser's result with earlier items in front: it succeeds exactly when the parser does, and then with those items followed by the parsed ones; a failure passes through |
| Grammar.PrependNothing | src/parser.cc:95-110 | A loop starts with an empty accumulator, which changes nothing |
| Grammar.PrependTwice | src/parser.cc:95-110 | Pushing items in two steps accumulates their concatenation |
| Grammar.Kind | src/parser.cc:54 | A current token other than end of input lies within the token sequence |
| Grammar.PrecedenceAt | src/parser.cc:153 | A precedence is found only at a token within the sequence |
| Grammar.RValue | src/parser.cc:53-76 | A successful right value consumes at least one token and stays within the sequence |
| Grammar.Nested | src/parser.cc:38-51 | A parenthesised expression consumes at least the `(` and stays within the sequence |
| Grammar.Do | src/parser.cc:78-113 | A `do` call consumes at least the `do` and stays within the sequence |
| Grammar.Arguments | src/parser.cc:96-110 | The argument loop ends at a `)`, which it leaves unconsumed |
| Grammar.Collection | src/parser.cc:115-137 | A collection consumes at least the `[` and yields a collection node with at least one member |
| Grammar.Members | src/parser.cc:120-133 | The member loop reads at least one member and ends at the closing token, which it leaves unconsumed |
| Grammar.Unary | src/parser.cc:139-148 | A successful unary expression consumes at least one token |
| Grammar.BinaryRHS | src/parser.cc:150-171 | The operator loop never moves backwards and stays within the sequence |
| Grammar.RightOperand | src/parser.cc:159-167 | A right operand consumes at least one token |
| Grammar.Expression | src/parser.cc:216-222 | A successful expression consumes at least one token |
| Grammar.If | src/parser.cc:173-209 | An `if` consumes at least the `if` and stays within the sequence |
| Grammar.StatementsUntil | src/parser.cc:181-198 | A statement loop ends at a token among its stop tokens, which it leaves unconsumed |
| Grammar.Statement | src/parser.cc:224-235 | A successful statement consumes at least one token |
| Grammar.Program | src/parser.cc:238-250 | A program ends at end of input |
| Parser.Parser.constructor | src/lexer.cc:154 | A parser over a token sequence starts at its first token |
| Parser.Parser.NextToken | src/lexer.cc:156 | The next token becomes current; at end of input the position stays |
| Parser.Parser.Ident | src/parser.cc:23-29 | An identifier becomes a variable of that name and the token is consumed |
| Parser.Parser.Real | src/parser.cc:31-36 | A real token becomes a real node of its value and the token is consumed |
| Parser.Parser.Nested | src/parser.cc:38-51 | Yields the expression and position `Grammar.Nested` describes, or fails where it fails |
| Parser.Parser.RValue | src/parser.cc:53-76 | Yields the right value and position `Grammar.RValue` describes, or fails where it fails |
| Parser.Parser.Do | src/parser.cc:78-113 | Yields the call and position `Grammar.Do` describes, or fails where it fails |
| Parser.Parser.ArgumentList | src/parser.cc:95-110 | The argument loop yields the arguments and position `Grammar.Arguments` describes |
| Parser.Parser.Collection | src/parser.cc:115-137 | Yields the collection and position `Grammar.Collection` describes |
| Parser.Parser.MemberList | src/parser.cc:119-133 | The member loop yields the members and position `Grammar.Members` describes |
| Parser.Parser.Unary | src/parser.cc:139-148 | Yields the unary expression and position `Grammar.Unary` describes |
| Parser.Parser.BinaryRHS | src/parser.cc:150-171 | The operator loop yields the tree and position `Grammar.BinaryRHS` describes |
| Parser.Parser.RightOperand | src/parser.cc:159-167 | Yields the right operand and position `Grammar.RightOperand` describes |
| Parser.Parser.If | src/parser.cc:173-209 | Yields the `if` node and position `Grammar.If` describes |
| Parser.Parser.StatementList | src/parser.cc:180-198 | The statement loops yield the statements and position `Grammar.StatementsUntil` describes |
| Parser.Parser.While | src/parser.cc:211-214 | `While` always yields null |
| Parser.Parser.Expression | src/parser.cc:216-222 | Yields the expression and position `Grammar.Expression` describes |
| Parser.Parser.Statement | src/parser.cc:224-235 | Yields the statement and position `Grammar.Statement` describes |
| Parser.Parser.Program | src/parser.cc:238-250 | Yields the program and position `Grammar.Program` describes |
| Parser.Parser.CollectionLiteral | src/parser/collection.cc:12-41 | Yields the collection or sequence literal and position `CollectionGrammar.CollectionLiteral` describes |
| Parser.Parser.WhileLoop | old/src/parser/while.cc:12-31 | Yields the loop and position `WhileGrammar.WhileLoop` describes |
| Parser.Parser.FuncLiteral | old/src/parser/func.cc:11-68 | Yields the function literal and position `FuncGrammar.FuncLiteral` describes |
| Parser.Parser.FuncBody | old/src/parser/func.cc:47-67 | Yields the function body and position `FuncGrammar.FuncBody` describes |
| Parser.Parser.ParameterList | old/src/parser/func.cc:22-44 | The parameter loop yields the names and position `FuncGrammar.Parameters` describes |
| CollectionGrammar.CollectionLiteral | src/parser/collection.cc:12-41 | A collection or sequence literal consumes at least its opening token and stays within the sequence |
| WhileGrammar.WhileLoop | old/src/parser/while.cc:12-31 | A `while` loop consumes at least the `while` and stays within the sequence |
| FuncGrammar.Parameters | old/src/parser/func.cc:22-44 | The parameter loop reads at least one name and ends at the closing `)`, which it leaves unconsumed |
| FuncGrammar.FuncLiteral | old/src/parser/func.cc:11-68 | A function literal consumes at least the `func` and stays within the sequence |
| FuncGrammar.FuncBody | old/src/parser/func.cc:47-67 | A function body consumes at least the `{` and stays within the sequence |
| GrammarProperties.ChainRightOperand | src/parser.cc:139-171 | In `a op b op c` each name is a unary expression of one token, and the precedences found are those of the two operators |
| GrammarProperties.TighterOperatorGroupsRight | src/parser.cc:150-171 | An operator that binds more tightly than the one before it takes the middle operand: `a + b * c` is `a + (b * c)` |
| GrammarProperties.LooserOperatorGroupsLeft | src/parser.cc:150-171 | Operators of equal or falling precedence group to the left: `a - b - c` is `(a - b) - c`, and so is `a = b = c` |
| GrammarProperties.EmptyCollectionRejected | src/parser.cc:115-123 | `[]` fails where the first member should start |
| GrammarProperties.CallArgumentIsRValue | src/parser.cc:96-110 | Each argument of `do` is a single right value: an operator after it is reported as a missing `,` |
| GrammarProperties.CallWithOperatorRejected | src/parser.cc:96-110 | `do(write, a + b)` fails at the `+` |
| GrammarProperties.ElifRejected | src/parser.cc:181-205 | `elif` ends the first branch of an `if`, and the `if` then fails there expecting `done` |
| GrammarProperties.NotStatementIsIf | src/parser.cc:224-227 | A statement that starts with `not` is read as an `if`, while the same tokens read as an expression give a negation |
| GrammarProperties.WhileStatementFails | src/parser.cc:224-235 | A `while` statement fails where it starts, with no message, and so does a statement list that reaches one |
| GrammarProperties.ProgramStartingWithWhileFails | src/parser.cc:238-250 | A program whose first token is `while` fails at once |
| GrammarProperties.EmptyWhileLoop | old/src/parser/while.cc:12-31 | `while x done` is a loop with an empty body, recorded at the position of `while` |
| GrammarProperties.EmptyFuncLiteral | old/src/parser/func.cc:11-68 | `func () {}` has no parameters and an empty body |
| GrammarProperties.FuncLiteralWithParameters | old/src/parser/func.cc:22-67 | `func (a, b) { a }` keeps its parameters in order and its body's statements |
| GrammarProperties.TrailingCommaInParameters | old/src/parser/func.cc:24-42 | A `,` in the parameter list must be followed by another name |
| GrammarProperties.FuncWithoutParameterList | old/src/parser/func.cc:15-18 | `func` must be followed by a parameter list |
| GrammarProperties.SequenceLiteral | src/parser/collection.cc:13-40 | Two names between bars, separated by a comma, form a sequence literal recorded at its opening bar |
| GrammarProperties.MismatchedCloseRejected | src/parser/collection.cc:19-34 | The closing token must match the opening one: a `[` closed by a bar is rejected |
| Scopes.LookupFindsBound | src/ast.cc:71-79 | The lookup finds a slot exactly when some frame binds the name |
| Scopes.LookupIsOutermost | src/ast.cc:72-77 | The lookup returns the binding of the outermost frame that has the name, so an outer binding hides an inner one |
| Scopes.InnerFramesAfterOuter | src/ast.cc:71-79 | Frames pushed later cannot change what the lookup finds for a name an outer frame binds; other names are looked up in the later frames alone |
| Scopes.Bind | src/ast.cc:81-83 | Inserting into the innermost frame leaves the outer frames alone, keeps a binding the frame already has, adds the new one otherwise and changes no other name |
| Scopes.BindThenLookup | src/ast.cc:71-83 | After a binding the name is found: at the new slot if no frame had it, at the earlier binding otherwise |
| Scopes.BindKeepsOtherNames | src/ast.cc:71-83 | A binding leaves the lookup of every other name as it was |
| Scopes.NoShadowing | src/ast.cc:71-85 | A name bound in an outer scope cannot be shadowed: binding it in a new inner scope leaves the lookup on the outer slot |
| Scopes.ScopeDiscardsItsBindings | src/ast.cc:81-86 | Opening a scope, binding in it and closing it restores the frames |
| Scopes.SlotTypeFor | src/ast.cc:40-65 | A collection gets the collection type, a variable or function the type of its value, a real or binary operation `double`, a call of a defined function its return type; an unknown callee or any other right-hand side is an error |
| Scopes.NamedValues.constructor | src/ast.cc:23 | The scope stack starts empty |
| Scopes.NamedValues.Push | src/ast.cc:85 | Pushing adds an empty innermost frame |
| Scopes.NamedValues.Pop | src/ast.cc:86 | Popping drops the innermost frame |
| Scopes.NamedValues.Set | src/ast.cc:81-83 | Setting a name inserts it into the innermost frame as `Bind` describes |
| Scopes.NamedValues.Get | src/ast.cc:71-79 | Getting a name returns the lookup from the outermost frame inwards, or nothing |
| Scopes.NamedValues.CreateNamedVariable | src/ast.cc:36-69 | A variable is created exactly when its right-hand side has a slot type; it is then bound in the innermost frame with that type, and otherwise the error is reported and nothing is bound |
| RoundTrip.OperandParses | src/parser.cc:53-76 | A printed operand reads back as one right value that ends where the operand ends |
| RoundTrip.OperandUnary | src/parser.cc:139-148 | A printed operand reads back as one unary expression |
| RoundTrip.CallParses | src/parser.cc:78-113 | A printed `do` call reads back as the same call |
| RoundTrip.CollectionParses | src/parser.cc:115-137 | A printed collection reads back as the same collection |
| RoundTrip.NestedParses | src/parser.cc:38-51 | An operator node printed in parentheses reads back as the same node |
| RoundTrip.OperatorParses | src/parser.cc:139-171 | An operator node printed bare and followed by a token that is no operator reads back as the same expression |
| RoundTrip.BinaryParses | src/parser.cc:150-171 | A printed binary node followed by a token that is no operator reads back as the same node |
| RoundTrip.UnaryChainParses | src/parser.cc:139-148 | A chain of prefix operators over an operand reads back as the same unary expression |
| RoundTrip.ArgumentsParse | src/parser.cc:96-110 | The printed arguments of a call read back in order up to its `)` |
| RoundTrip.MembersParse | src/parser.cc:120-133 | The printed members of a collection read back in order up to its `]` |
| RoundTrip.ExpressionParses | src/parser.cc:216-222 | Any printed expression followed by a token that is no operator reads back as the same expression |
| RoundTrip.StatementParses | src/parser.cc:224-235 | A printed statement followed by a token that is no operator reads back as the same statement |
| RoundTrip.IfParses | src/parser.cc:173-209 | A printed `if` reads back with the same condition and bodies |
| RoundTrip.StatementsParse | src/parser.cc:181-198 | Printed statements read back in order up to the token that stops the list |
| RoundTrip.ProgramRoundTrip | src/parser.cc:238-250 | Parsing a printed program gives the program back and reads every token |

## Left out

- LLVM lowering (`src/ast/*.cc`, `src/llvm_type.cc`) is not part of this model. The lowering calls into LLVM, whose code is not available. Only the scope stack and the slot-type choice of `src/ast.cc` are modelled. A slot is a name with a slot type; the `alloca` and the lowered value are not modelled.
- Native builtins, the thread pool, the stopwatch, the drivers, the command line and the REPL (`src/builtin.cc`, `src/threadpool.cc`, `src/stopwatch.cc`, `src/engine.cc`, `src/main.rs`, `src/repl/mod.rs`) are not part of this model. They are I/O, concurrency or clock reads.
- The lexer reads a string in place of `engine::file`; end of input is the end of the string. Line and column positions are not tracked. A recorded position is the index of the token.
- Lexer.Scan: the input is taken as a sequence of characters, whereas src/lexer.cc:11 and every `engine::file->get()` read one byte into a signed `char`. Three byte-level behaviours are therefore not modelled:
  - A multi-byte UTF-8 character outside the operator table, such as `é` (bytes C3 A9), is a two-byte run in the source that fails `assert(s.length() == 1)` at src/lexer.cc:144. The model reads it as a one-character run whose token is its code point.
  - The byte 0xFF reads as `(char)-1`, which is `EOF`, so the source ends its input there (src/lexer.cc:128). The model reads on.
  - A single byte above 0x7F returned by `return s[0]` is a negative token in the source. The model returns the code point.
- Lexer.ScanRun: reads operator runs over characters, with the gap described under `Lexer.Scan`.
- Lexer.Tokenize: tokenizes characters, with the gap described under `Lexer.Scan`.
- Lexer.Lexer.LexRun: follows `Lexer.ScanRun`, so it has the same gap.
- Lexer.Lexer.GetToken: follows `Lexer.Scan`, so it has the same gap.
- Lexer.Lexer.NextToken: stores the token `Lexer.Lexer.GetToken` reads, so it has the same gap.
- The parser reads the complete token sequence that `Lexer.Tokenize` produced up front, whereas `src/parser.cc` pulls each token from `lexer::NextToken` as it needs it. A parse failure therefore returns `nullptr` in the source before the lexer reaches a later operator run that would fail `assert(s.length() == 1)` (src/lexer.cc:144). The model lexes first and would abort on that run. The interleaving of lexer aborts with parse failures is not modelled.
- Text.ToLower: lower-cases ASCII letters only. Rust's `to_lowercase` also folds non-ASCII letters; U+212A KELVIN SIGN, for instance, becomes `k`. So opcode, builtin and type-name lookups that ignore case differ from the source on non-ASCII input.
- The interactive prompt `Program` writes to standard error is left out. So are the error texts the parser prints, beyond the message prefix each failure carries.
- `strtod` is modelled as the exact decimal value of the literal, with no rounding to binary64.
- `f64` is exact real arithmetic with signed infinities and NaN. Rounding and signed zeros are not modelled, so epsilon comparisons are decided on exact values. Encoding a real operand as 8 binary64 bytes is a parameter of the assembler; the VM's decoding of those bytes is modelled.
- Rust integer arithmetic follows a debug build: overflow panics. Wrap-around in release builds is not modelled.
- The nom rules `instruction`, `instruction_comb` and the program, directive and opcode parsers of `src/asm/` are not modelled; they only sequence the modelled sub-parsers. The assembler takes the parsed instruction list, or the parse error, as its input.
- The high-level nom grammar of `src/compiler/*_parsers.rs` is not part of this model. For the same reason `Compiler::compile` and `compile_expr`, which parse, visit and join the lines, are not modelled. The compiler is modelled from the token tree on.
- The compiler's assembly lines are kept structured. Their text rendering, including the two-decimal formatting of real literals in `load`, is not modelled.
- `get_register` and the vector register bank used by the opcode handlers are not in `src/vm/mod.rs`. `HandlerMachine.RegisterAt` reads the bank the byte's encoding names and fails past the 32 registers of that bank.
- Text `PRINT` writes to standard output is collected as a sequence of lines in the machine state.
- Vm.Execution: `run` loops until the program halts or fails, while the model runs for at most a given number of steps (fuel). A program that never halts is captured only up to that bound.
- Vm.Arith: its own contract states only that it never fails and how far `pc` moves. The integer results are stated by `Vm.ArithOnIntegers`.
- Vm.Compare: its own contract states only that it never fails and how far `pc` moves. The integer results are stated by `Vm.CompareIntegers`.
- Vm.JumpIfEqual: its own contract states only well-formedness. The branches are stated by `Vm.JumpIfEqualBranches`.
- Vm.Alloc: its own contract states only well-formedness. The heap growth is stated by `Vm.AllocGrowsHeap` and `Vm.AllocRealCountPanics`.
- Vm.Print: its own contract states only well-formedness. The output is stated by `Vm.PrintsAt` and `Vm.PrintsStoredString`.
- Superseded snapshots are not modelled: `src/vm/vm.rs`, `src/compiler.rs`, the root-level C++ files, `old/` outside `old/src/parser/while.cc` and `old/src/parser/func.cc`, and the split parser files under `src/parser/` other than `collection.cc`.
