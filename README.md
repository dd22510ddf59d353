# am4 toolchain in Dafny

A model of the am4 toolchain and the properties proved about it. The toolchain has three parts:

- **The assembler.** It turns am4 assembly text into tokens (`lexer.c`), then into instructions (`parser.c`), then into a binary of 32-bit words (`code_generation.c`).
- **The stack machine.** It loads that binary (`binary.c`) and executes it (`vm.c`).
- **The While front end.** It parses a token stream of the While language into a syntax tree (`parser.rs`) and writes am4 assembly for it (`code_gen.rs`).

The modules follow the source files:

| module | file | models |
|---|---|---|
| `Wrappers` | wrappers.dfy | `Option` and `Result`; every fatal `exit(1)` or `panic!` of the source becomes an `Err`. |
| `Words` | words.dfy | `uint32`/`int32` words, their wrap-around, the 24-bit operand field and its sign extension. |
| `Isa` | isa.dfy | The instruction kinds and their opcode bytes, from the assembler's and the machine's enums. |
| `AsmValue` | asm_value.dfy | The value a token or instruction carries. |
| `AsmLexer` | asm_lexer.dfy | `token_get`, `lex_string` and the growable token vector. |
| `AsmParser` | asm_parser.dfy | `parse_instruction`, `parse` and the growable instruction vector. |
| `AsmEncoder` | asm_encoder.dfy | `get_value_as_int`, the growable word buffer and the binary layout. |
| `Vm` | vm.dfy | The array-backed operand stack, decoding, one step of `run_vm`, and the whole run. |
| `Toolchain` | toolchain.dfy | The loader of `binary.c`. Also what the machine reads back from what the assembler writes. |
| `Lists` | lists.dfy | An inductive list used for token and code streams. |
| `WhileTokens`, `WhileParser` | while_tokens.dfy, while_parser.dfy | The While tokens, the syntax tree and the recursive-descent `Parser`. |
| `WhileCodeGen` | while_code_gen.dfy | `CodeGenerator`, label numbering, and the meaning of straight-line code. |

**How each part is modelled.**

- **Pure functions.** Each source operation that only computes is a Dafny function: `LexFrom`, `ParseFrom`, `TextSection`, `Step`, `Run`, `ArithmeticAt`, `StatementCode`, and others.
- **State-changing code.**
  - Code that updates state in place is a class with `modifies` clauses. This covers `TokenVec`, `InstructionVec`, `Binary`, `Stack`, `Parser` and `CodeGenerator`.
  - Code that runs a loop is a method with a loop. This covers `lex_string`, `parse`, `setup_data_section`, `generate_text_section`, `run_vm` and `Parser::parse`.
  - Each such method is proved to agree with the function that specifies it.
- **Properties.** The properties of those functions are proved as lemmas:
  - round trips (lexing rendered tokens, parsing unparsed instructions, decoding encoded words);
  - exact success conditions;
  - counting properties;
  - the unique definition of every label the code generator jumps to;
  - the run-time meaning of the generated code.

**Integer widths.** C and Rust integer widths are explicit:
- `ToWord` and `ToInt32` are the `uint32_t` and `int32_t` conversions.
- The machine's `add`, `sub` and `mul` wrap around modulo 2^32.
- `kind << 24` is modelled as unsigned arithmetic.

## Model

| member | source | states |
|---|---|---|
| Words.ToWord | assembler/src/code_generation.c:34-36 | The `uint32_t` a number is stored as: congruent to it modulo 2^32, and equal to it when it already fits. |
| Words.ToInt32 | vm/src/vm.c:100 | The `int32_t` reading of a number: congruent to it modulo 2^32, and equal to it inside the signed range. |
| Words.WordInt32RoundTrip | vm/src/vm.c:100-104 | An `int32_t` stored as a word reads back as the same `int32_t`. |
| Words.Low24 | assembler/src/code_generation.c:106 | `value & 0xFFFFFF` lies in [0, 2^24) and is congruent to the value modulo 2^24. |
| Words.SignExtend24 | vm/src/vm.c:41-42 | The sign-extended operand lies in [-2^23, 2^23) and is congruent to the 24-bit field modulo 2^24. |
| Words.SignExtendLow24 | assembler/src/code_generation.c:105-106 | Masking to 24 bits and then sign-extending gives back v exactly when -2^23 <= v < 2^23. |
| Isa.InstructionKind.Code | vm/src/vm.h:6-33 | Every opcode fits in the top byte of a word. |
| Isa.CodeInjective | assembler/src/parser.h:8-35 | Two kinds have the same opcode exactly when they are the same kind. |
| Isa.MachineKind | vm/src/vm.h:6-33 | A kind recognised from an opcode has that opcode, and is never the parse-time `label` or `ident` kind. |
| Isa.MachineKindOfCode | vm/src/vm.h:6-33 | Every kind the machine knows is recognised from its own opcode. |
| AsmLexer.CharIsWhiteSpace | assembler/src/lexer.c:9 | Space, `\n` and `\t` are whitespace, and no other character is. It has no contract of its own. `RunLengthMaximal` and `RunLengthUnique` state the runs in its terms, and `CarriageReturnIsPartOfRun` shows that `\r` is not whitespace. |
| AsmLexer.RunToken | assembler/src/lexer.c:74-76 | One run's tokens: none for an empty run, otherwise `token_get`'s token or its error. It has no contract of its own. `BadRun`, `GoodRun` and `LexOkStep` state its effect on the lex. |
| AsmLexer.Separator | assembler/src/lexer.c:77-79 | A newline token exactly for a `\n` separator. It has no contract of its own. `LexStep`, `LexCountsNewLines` and `PushSeparator` state what it adds. |
| AsmLexer.LexFrom | assembler/src/lexer.c:61-84 | The tokens `lex_string` appends from index p on, or the error it stops with. It has no contract of its own. Its properties are stated by `LexSucceeds`, `LexOkStep`, `BadRun`, `UnterminatedRun`, `GoodRun`, `LexStep`, `LexClassified`, `LexCountsRuns`, `LexCountsNewLines`, `LexTooLong` and `LexUnknown`. |
| AsmLexer.Lex | assembler/src/lexer.c:61-84 | The lex of a whole string. It has no contract of its own. `LexRender` proves that it inverts writing tokens out, and `LexString` proves that the C loop computes it. |
| AsmLexer.TokenGet | assembler/src/lexer.c:13-24 | A token it returns is a `noop` or newline token with no value. A failure reports the string it was given. |
| AsmLexer.TokenGetAccepts | assembler/src/lexer.c:13-24 | `token_get` succeeds exactly on `"noop"` and `"\n"`, and the token's lexeme is that string. |
| AsmLexer.TokenGetLexeme | assembler/src/lexer.c:13-24 | Classifying a token's lexeme gives back the token. |
| AsmLexer.RunLength | assembler/src/lexer.c:66-73 | The run read by the inner loop stays inside the string. |
| AsmLexer.RunLengthMaximal | assembler/src/lexer.c:66-73 | The run holds no space, tab or newline. It is followed by one of them or by the end of the string. |
| AsmLexer.RunLengthUnique | assembler/src/lexer.c:66-73 | Any whitespace-free stretch that ends at whitespace or at the end of the string is the run. |
| AsmLexer.LexSucceeds | assembler/src/lexer.c:61-84 | `lex_string` from p succeeds exactly when two things hold: every maximal run from p on is `noop`, and the rest is empty or ends in whitespace. |
| AsmLexer.LexOkStep | assembler/src/lexer.c:65-83 | Each iteration of a successful lex does three things: it reads a run of at most 254 characters that a separator ends, it emits a `noop` token for a non-empty run, and it then emits a newline token when the separator is `\n`. |
| AsmLexer.BadRun | assembler/src/lexer.c:66-76 | A non-empty run that is longer than 254 characters, or is not `noop`, makes the lex fail. |
| AsmLexer.UnterminatedRun | assembler/src/lexer.c:65-83 | A run that reaches the end of the string makes the lex fail. The scan steps over the terminator. |
| AsmLexer.GoodRun | assembler/src/lexer.c:74-82 | After an empty run or a `noop` run that a separator ends, the lex succeeds exactly when it succeeds after the separator. |
| AsmLexer.LexStep | assembler/src/lexer.c:65-83 | One iteration's tokens are the run's token, then the separator's newline token, then the tokens of the rest. |
| AsmLexer.LexClassified | assembler/src/lexer.c:74-79 | Every token a successful lex produces is a `noop` or newline token. |
| AsmLexer.LexCountsRuns | assembler/src/lexer.c:74-76 | A successful lex emits one `noop` token per maximal non-whitespace run. |
| AsmLexer.LexCountsNewLines | assembler/src/lexer.c:77-79 | A successful lex emits one newline token per `\n` in the input. |
| AsmLexer.LexTooLong | assembler/src/lexer.c:66-72 | A too-long-token failure names a run of the input longer than 254 characters. |
| AsmLexer.LexUnknown | assembler/src/lexer.c:74-75 | An unknown-token failure names a run of the input that has at most 254 characters and is not `noop`. |
| AsmLexer.LexRender | assembler/src/lexer.c:61-84 | Round trip: lexing the text of a list of `noop`/newline tokens gives back that list. |
| AsmLexer.CarriageReturnIsPartOfRun | assembler/src/lexer.c:9 | `\r` is not whitespace, so `"noop\r\n"` fails on the unknown token `noop\r`. |
| AsmLexer.TokenVec.constructor | assembler/src/lexer.c:86-92 | A new token vector is empty with capacity 1. |
| AsmLexer.TokenVec.Push | assembler/src/lexer.c:94-102 | Push appends the token and leaves the earlier ones. Capacity doubles exactly when the vector was full, and `len <= capacity` is kept. |
| AsmLexer.ReadRun | assembler/src/lexer.c:66-73 | The copy loop fails exactly when the run is longer than 254 characters. Otherwise the buffer holds the run. |
| AsmLexer.ClearBuffer | assembler/src/lexer.c:80 | The `memset` zeroes all 256 characters. |
| AsmLexer.PushRun | assembler/src/lexer.c:66-76 | Pushes the run's token and returns the run's length, or fails with the lex's own error. |
| AsmLexer.PushSeparator | assembler/src/lexer.c:77-79 | Appends a newline token exactly for a `\n` separator. |
| AsmLexer.LexRunAt | assembler/src/lexer.c:65-83 | One iteration of the outer loop appends exactly the tokens the specification emits for it, and the cursor moves forward. |
| AsmLexer.LexString | assembler/src/lexer.c:61-84 | The lex succeeds exactly when `Lex` does. It then appends exactly `Lex`'s tokens to the vector; otherwise it fails with `Lex`'s error. |
| AsmParser.Expect | assembler/src/parser.c:7-9 | The token has the expected kind. It has no contract of its own. `ParseInstructionOk`, `ParseInstructionLine` and `ParseInstructionErr` state where the parser checks it. |
| AsmParser.ParseInstruction | assembler/src/parser.c:11-162 | `parse_instruction` at index i: the instruction and the index past its newline, or the error. It has no contract of its own. `ParseInstructionOk`, `ParseInstructionLine`, `ParseInstructionErr` and `LineAtParseable` state it. |
| AsmParser.ParseFrom | assembler/src/parser.c:164-176 | The loop of `parse` from index i. It has no contract of its own. `ParseFromStep`, `ParseFromProgram`, `ParseFromSound` and `ProgramParseable` state it. |
| AsmParser.ParseTokens | assembler/src/parser.c:164-176 | `parse` of a whole token array. It has no contract of its own. `ParseUnparse`, `DoubleNewLine` and `TrailingNewLine` state its properties, and `Parse` proves that the C loop computes it. |
| AsmParser.Mnemonic | assembler/src/parser.c:11-155 | No instruction is written with the newline token. |
| AsmParser.MnemonicInverse | assembler/src/parser.c:36-155 | The mnemonic of an operation's kind is the token it was parsed from. `push` is the only other kind with a mnemonic. |
| AsmParser.ParseInstructionOk | assembler/src/parser.c:11-162 | A parsed instruction is the line at i: mnemonic, `push`'s operand, then a newline. The index moves past it, by 3 for `push` and 2 otherwise. |
| AsmParser.ParseInstructionLine | assembler/src/parser.c:11-162 | Conversely, a line at i parses to its instruction. |
| AsmParser.LineAtParseable | assembler/src/parser.c:13-21 | From well-typed tokens the parser yields only pushes of an int or bool value, or operations with no value. |
| AsmParser.ParseInstructionErr | assembler/src/parser.c:157-161 | A read past the end happens only with fewer than three tokens left. A newline in instruction position is an unexpected token. |
| AsmParser.ParseFromStep | assembler/src/parser.c:164-176 | Each iteration of `parse` skips at most one newline and then adds one instruction, or stops with that instruction's error. |
| AsmParser.ParseFromProgram | assembler/src/parser.c:164-176 | Any token array laid out as lines, each line optionally preceded by one newline, parses to those lines' instructions in order. |
| AsmParser.ParseFromSound | assembler/src/parser.c:164-176 | Every successful parse is such a layout of its instructions, in source order. |
| AsmParser.ProgramParseable | assembler/src/parser.c:164-176 | From well-typed tokens every parsed instruction has the shape the parser can produce. |
| AsmParser.InstructionTokens | assembler/src/parser.c:13-21 | An instruction's line takes as many tokens as the index advance for it. |
| AsmParser.InstructionTokensLine | assembler/src/parser.c:11-162 | The tokens written for an instruction form its line wherever they are placed. |
| AsmParser.UnparseProgram | assembler/src/parser.c:164-176 | Writing out instructions, with optional empty lines, gives a layout of those instructions. |
| AsmParser.ParseUnparse | assembler/src/parser.c:164-176 | Round trip: parsing the written-out tokens of any parseable instructions gives back those instructions. |
| AsmParser.DoubleNewLine | assembler/src/parser.c:168-172 | Two newlines in a row are an unexpected-token error. |
| AsmParser.TrailingNewLine | assembler/src/parser.c:168-172 | A newline after the last instruction makes the parser read past the end of the tokens. |
| AsmParser.InstructionVec.constructor | assembler/src/parser.c:237-243 | A new instruction vector is empty with capacity 1. |
| AsmParser.InstructionVec.Push | assembler/src/parser.c:245-254 | Push appends the instruction and leaves the earlier ones. Capacity doubles exactly when the vector was full. |
| AsmParser.ParseLine | assembler/src/parser.c:168-173 | One loop iteration pushes what the specification parses, and the index strictly increases. Otherwise it fails with the parse's error. |
| AsmParser.Parse | assembler/src/parser.c:164-176 | `parse` succeeds exactly when `ParseTokens` does. It then returns a fresh vector holding exactly those instructions; otherwise it fails with the same error. |
| AsmEncoder.LabelGet | assembler/src/parser.h:146 | A label's address, or -1 when the label is missing. It has no contract of its own. `GetValueAsIntLabel` and `LabelAddress` state how code generation uses it. |
| AsmEncoder.IdentGet | assembler/src/parser.h:191 | An identifier's slot, or -1 when the identifier is missing. It has no contract of its own. `GetValueAsIntIdentifier` states how code generation uses it. |
| AsmEncoder.GetValueAsInt | assembler/src/code_generation.c:52-93 | The operand as a number, or the unresolved name. It has no contract of its own. `GetValueAsIntLiteral`, `GetValueAsIntIdentifier` and `GetValueAsIntLabel` state every case. |
| AsmEncoder.TextSection | assembler/src/code_generation.c:95-110 | The text section, or the first unresolved operand. It has no contract of its own. `TextSectionLength`, `TextSectionWords`, `TextSectionError`, `TextSectionOk` and `ErrorPersists` state it, and `Binary.GenerateTextSection` proves that the C loop computes it. |
| AsmEncoder.Header | assembler/src/code_generation.c:31-37 | The two header words, truncated to 32 bits. It has no contract of its own. `ImageLayout` states them, and `Binary.CreateHeader` writes them. |
| AsmEncoder.Image | assembler/src/code_generation.c:125-136 | The whole binary, or the code generation error. It has no contract of its own. `ImageLayout` states its layout, `GenerateBinary` proves that the C code computes it, and `LoadImage` states what the machine loads from it. |
| AsmEncoder.GetValueAsIntLiteral | assembler/src/code_generation.c:54-61 | A missing value is 0 and an integer is itself; `true` is 1 and `false` is 0. None of these fails. |
| AsmEncoder.GetValueAsIntIdentifier | assembler/src/code_generation.c:62-75 | A name operand of `fetch`, `store` or `printv` resolves to its identifier slot without offset. A missing identifier (-1) is an error. |
| AsmEncoder.GetValueAsIntLabel | assembler/src/code_generation.c:76-88 | Any other name operand resolves to the label's index plus the identifier count. A missing label (-1) is an error. |
| AsmEncoder.EncodeWord | assembler/src/code_generation.c:101-108 | The top byte of an instruction word is the kind's opcode. The low 24 bits are the operand modulo 2^24. |
| AsmEncoder.Zeros | assembler/src/code_generation.c:43-47 | The data section is one zero word per identifier. |
| AsmEncoder.TextSectionLength | assembler/src/code_generation.c:95-110 | The text section has one word per instruction. |
| AsmEncoder.TextSectionWords | assembler/src/code_generation.c:95-110 | Word k of the text section encodes instruction k with its resolved operand. |
| AsmEncoder.TextSectionError | assembler/src/code_generation.c:95-110 | A failing text section fails with the error of the first instruction whose operand does not resolve. |
| AsmEncoder.TextSectionOk | assembler/src/code_generation.c:95-110 | When every operand resolves, the text section succeeds. |
| AsmEncoder.ErrorPersists | assembler/src/code_generation.c:98-109 | Once an instruction fails to resolve, the later instructions do not change the error. |
| AsmEncoder.ImageLayout | assembler/src/code_generation.c:125-136 | The binary's layout: its length is 2 + identifiers + instructions. Word 0 is the identifier count and word 1 is the instruction count plus identifier count. The data words are zero, and word 2 + identifiers + k encodes instruction k. |
| AsmEncoder.Binary.constructor | assembler/src/code_generation.c:112-123 | A new binary is empty with capacity 2. |
| AsmEncoder.Binary.Write | assembler/src/code_generation.c:18-29 | The value is appended and the earlier words are left unchanged. Capacity doubles exactly when `len >= capacity`, and `len <= capacity` is kept. |
| AsmEncoder.Binary.CreateHeader | assembler/src/code_generation.c:31-37 | Appends the two header words. |
| AsmEncoder.Binary.SetupDataSection | assembler/src/code_generation.c:43-47 | Appends one zero word per identifier. |
| AsmEncoder.Binary.GenerateTextSection | assembler/src/code_generation.c:95-110 | The loop succeeds exactly when `TextSection` does, and then appends exactly its words. Otherwise it fails with the same error. |
| AsmEncoder.GenerateBinary | assembler/src/code_generation.c:125-136 | `generate_binary` succeeds exactly when `Image` does. It then returns a fresh buffer holding exactly `Image`'s words; otherwise it fails with the same error. |
| Vm.PushValue | vm/src/vm.c:15-22 | A push fails with an overflow exactly when 256 values are on the stack. Otherwise the value goes on top. |
| Vm.PopValue | vm/src/vm.c:24-31 | A pop fails with an underflow exactly when the stack is empty. Otherwise it returns the top and the stack below it. |
| Vm.PopAfterPush | vm/src/vm.c:15-31 | A pop after a successful push returns the pushed value and the stack as it was before. |
| Vm.Decode | vm/src/vm.c:38-42 | The opcode is below 256 and the operand lies in [-2^23, 2^23). |
| Vm.DecodeFields | vm/src/vm.c:38-42 | The operand is the 24-bit field when bit 23 is clear, and the field minus 2^24 when it is set. Opcode * 2^24 + field is the word. |
| Vm.BinaryResult | vm/src/vm.c:56-95 | The value a two-operand instruction pushes. It has no contract of its own. `BinaryResultArithmetic` and `BinaryResultBoolean` state every case. |
| Vm.BinaryResultArithmetic | vm/src/vm.c:56-67 | Without overflow, `add`, `sub` and `mul` compute v1 + v2, v1 - v2 and v1 * v2. |
| Vm.BinaryResultBoolean | vm/src/vm.c:68-95 | Comparisons and `land`/`lor` push only 0 or 1, and push 1 exactly when v1 OP v2 holds. |
| Vm.BinaryStep | vm/src/vm.c:56-95 | Pop v2, pop v1, push the result. It has no contract of its own. `StepBinary` and `ExecuteBinary` state it. |
| Vm.JeqzStep | vm/src/vm.c:49-53 | Pop, and jump only on 0. It has no contract of its own. `StepProgramCounter` and `ExecuteJeqz` state it. |
| Vm.PushStep | vm/src/vm.c:54-55 | Push the operand. It has no contract of its own. `ExecutePush` and `PushPushSub` state it. |
| Vm.LNegStep | vm/src/vm.c:96-98 | Replace the top with its logical negation. It has no contract of its own. `StepLNeg` and `ExecuteLNeg` state it. |
| Vm.FetchStep | vm/src/vm.c:99-101 | Push the word at the operand's address. It has no contract of its own. `StepMemory` and `ExecuteFetch` state it. |
| Vm.StoreStep | vm/src/vm.c:102-104 | Pop into the word at the operand's address. It has no contract of its own. `StepMemory` and `ExecuteStore` state it. |
| Vm.Execute | vm/src/vm.c:46-108 | The dispatch on the opcode. It has no contract of its own. `StepProgramCounter`, `StepBinary`, `StepLNeg`, `StepMemory` and `StepUnknown` state its cases, and `ExecuteAt` proves that the C chain computes it. |
| Vm.Step | vm/src/vm.c:38-108 | One iteration of the loop: fetch, decode, move pc past the word, execute. It has no contract of its own. The `Step*` lemmas above state it, and `StepAt` proves that the C loop body computes it. |
| Vm.Run | vm/src/vm.c:33-111 | The run from a machine state, with a step budget. It has no contract of its own. `RunStops`, `RunSteps` and `PushPushSub` state it, and `RunVm` proves that `run_vm` computes it. |
| Vm.StepProgramCounter | vm/src/vm.c:44-53 | `jmp` sets pc to the operand. `jeqz` pops and jumps only on 0. Every other instruction leaves pc at the next word. |
| Vm.StepBinary | vm/src/vm.c:56-95 | A two-operand instruction pops v2 and then v1 and pushes the result. The stack shrinks by one and memory is unchanged. |
| Vm.StepLNeg | vm/src/vm.c:96-98 | `lneg` replaces the top with 1 when it is 0, and with 0 otherwise. |
| Vm.StepMemory | vm/src/vm.c:99-104 | `fetch a` pushes memory[a] and leaves memory unchanged. `store a` pops v into memory[a] and leaves every other cell unchanged. |
| Vm.StepUnknown | vm/src/vm.c:105-108 | An opcode outside the dispatch chain is fatal. This includes `printc` and `printv`. |
| Vm.RunStops | vm/src/vm.c:109-110 | Once pc reaches the total size, the run ends with the popped top. On an empty stack it ends with an underflow. |
| Vm.RunSteps | vm/src/vm.c:37-44 | Below the total size the run takes one step and goes on, or stops with that step's fault. |
| Vm.PushPushSub | vm/src/vm.c:54-63 | `push 5; push 3; sub` halts with 2. |
| Vm.Stack.constructor | vm/src/vm.c:34 | The stack starts empty (`sp = 0`). |
| Vm.Stack.Push | vm/src/vm.c:15-22 | Fatal when `sp >= 256`. Otherwise it writes at `stack[sp]` and increments `sp`, leaving every other slot unchanged, in agreement with `PushValue`. |
| Vm.Stack.Pop | vm/src/vm.c:24-31 | Fatal when `sp <= 0`. Otherwise it decrements `sp` and returns the old top, in agreement with `PopValue`. |
| Vm.BinaryFile.constructor | vm/src/vm.c:36-38 | The loaded file holds exactly the start address, total size and memory it is given. |
| Vm.ExecuteJeqz | vm/src/vm.c:49-53 | The resulting pc, stack and memory, or the fault, are those of `JeqzStep`. |
| Vm.ExecutePush | vm/src/vm.c:54-55 | The resulting pc, stack and memory, or the fault, are those of `PushStep`. |
| Vm.ExecuteBinary | vm/src/vm.c:56-95 | The resulting pc, stack and memory, or the fault, are those of `BinaryStep`. |
| Vm.ExecuteLNeg | vm/src/vm.c:96-98 | The resulting pc, stack and memory, or the fault, are those of `LNegStep`. |
| Vm.ExecuteFetch | vm/src/vm.c:99-101 | The resulting pc, stack and memory, or the fault, are those of `FetchStep`. |
| Vm.ExecuteStore | vm/src/vm.c:102-104 | The resulting pc, stack and memory, or the fault, are those of `StoreStep`. |
| Vm.ExecuteAt | vm/src/vm.c:46-108 | The dispatch chain agrees with `Execute`. |
| Vm.StepAt | vm/src/vm.c:38-108 | One loop iteration agrees with `Step`. |
| Vm.RunVm | vm/src/vm.c:33-111 | `run_vm` from the loaded start address ends with the outcome `Run` specifies. On a halt, memory holds `Run`'s final memory. |
| Toolchain.Load | vm/src/binary.c:5-26 | The loaded memory has as many words as the header announces, and the two header words are the start address and total size. |
| Toolchain.LoadExact | vm/src/binary.c:16-21 | A file holding exactly its header and the words it announces loads as those words. |
| Toolchain.DecodeEncode | assembler/src/code_generation.c:101-108 | The machine decodes an instruction word to the kind's opcode. It gets back the operand exactly when the operand lies in the signed 24-bit range; otherwise it gets a value changed by a multiple of 2^24. |
| Toolchain.OperandWraps | assembler/src/code_generation.c:106 | Every operand from 2^23 up to 2^24 - 1 comes back 2^24 lower: 2^23 as -2^23, 2^24 - 1 as -1. |
| Toolchain.LoadImage | assembler/src/code_generation.c:125-136 | A generated binary loads with these values: start address = identifier count, total size = identifiers + instructions, memory = zeros followed by the text section. |
| Toolchain.DecodeText | assembler/src/code_generation.c:98-109 | Each text word decodes to its instruction's opcode and, in the 24-bit range, to its resolved operand. |
| Toolchain.LabelAddress | assembler/src/code_generation.c:85-87 | A label operand resolves to the address of the labelled instruction once loaded, which is inside the text section. |
| WhileParser.ArithmeticOperator | whilec/src/parser.rs:233-240 | Succeeds exactly on `+`, `-` and `*`, and is the inverse of writing the operator. Any other token is unexpected. |
| WhileParser.BooleanOperator | whilec/src/parser.rs:242-249 | Succeeds exactly on `=`, `<=` and `!`, and is the inverse of writing the operator. Any other token is unexpected. |
| WhileParser.ExpectError | whilec/src/parser.rs:74-81 | `expect` fails only when a token is present and differs. It has no contract of its own. `Parser.Expect` is proved to agree with it, and `IfParts` and `WhileParts` state the keywords a successful parse has read. |
| WhileParser.ComponentAt | whilec/src/parser.rs:163-170 | Succeeds exactly on an integer or identifier. It advances by one and never returns a `Binary`. |
| WhileParser.ArithmeticRest | whilec/src/parser.rs:130-160 | On success the cursor moves forward and stays within the tokens. |
| WhileParser.ArithmeticAt | whilec/src/parser.rs:128-161 | On success the cursor moves forward and stays within the tokens. |
| WhileParser.ComparisonAt | whilec/src/parser.rs:189-201 | On success the cursor moves forward and stays within the tokens. |
| WhileParser.BooleanAt | whilec/src/parser.rs:172-202 | On success the cursor moves forward and stays within the tokens. |
| WhileParser.AssignmentAt | whilec/src/parser.rs:204-209 | On success the cursor moves forward and stays within the tokens. |
| WhileParser.StatementAt | whilec/src/parser.rs:95-126 | On success the cursor moves forward and stays within the tokens. |
| WhileParser.IfAt | whilec/src/parser.rs:211-223 | On success the cursor moves forward and stays within the tokens. |
| WhileParser.WhileAt | whilec/src/parser.rs:225-231 | On success the cursor moves forward and stays within the tokens. |
| WhileParser.Attach | whilec/src/parser.rs:136-155 | The new left operand after `lhs op rhs`. It has no contract of its own. `AttachTokens` and `ArithmeticRestSound` state it. |
| WhileParser.AttachTokens | whilec/src/parser.rs:136-155 | Attaching an operand keeps the tokens in source order. A non-`Binary` operand gives `Binary(lhs, op, rhs)`. |
| WhileParser.ArithmeticRestSound | whilec/src/parser.rs:130-160 | The operator loop consumes exactly the tokens it appends and stops at the end or before a non-operator. The tree stays left-linear. |
| WhileParser.ArithmeticSound | whilec/src/parser.rs:128-161 | `parse_arithmetic` returns a left-associated tree whose tokens are exactly those consumed, and stops before any operator. |
| WhileParser.ArithmeticComplete | whilec/src/parser.rs:128-161 | The tokens of a left-associated expression are read back as that expression. |
| WhileParser.ArithmeticParses | whilec/src/parser.rs:128-161 | `parse_arithmetic` gives a and stops at j exactly when three things hold: the tokens between are those of a, a is left-associated, and no operator follows. |
| WhileParser.BooleanSound | whilec/src/parser.rs:172-202 | `parse_boolean` consumes the tokens of its result, with every `!` dropped, and never builds a `!` comparison. |
| WhileParser.Compose | whilec/src/parser.rs:102-116 | The statement built when `;` joins two statements. It has no contract of its own. `ComposeTokens` and `ComposeLeaves` state it. |
| WhileParser.ComposeTokens | whilec/src/parser.rs:102-116 | The re-association of `;` does not change the statement's text. |
| WhileParser.ComposeLeaves | whilec/src/parser.rs:102-116 | Composition keeps source order: the leaves of the joined statement are lhs's leaves and then the new statement's. |
| WhileParser.AssignmentSound | whilec/src/parser.rs:204-209 | An identifier starts an assignment whose tokens are the ones consumed. |
| WhileParser.StatementSound | whilec/src/parser.rs:95-126 | `parse_statement` consumes the tokens of what it returns, with `!` dropped. Without a left-hand side the result is never a composition; with one, the result is the left-hand side joined by `;`. |
| WhileParser.IfParts | whilec/src/parser.rs:211-223 | A parsed `if` is a condition, `then`, a statement, `else` and a statement. |
| WhileParser.IfSound | whilec/src/parser.rs:211-223 | `parse_if` consumes the tokens of the conditional it returns. |
| WhileParser.WhileParts | whilec/src/parser.rs:225-231 | A parsed `while` is a condition, `do` and a statement. |
| WhileParser.WhileSound | whilec/src/parser.rs:225-231 | `parse_while` consumes the tokens of the loop it returns. |
| WhileParser.ProgramFromSound | whilec/src/parser.rs:83-93 | The loop of `parse` consumes every remaining token into the program. |
| WhileParser.ProgramSound | whilec/src/parser.rs:83-93 | A parsed program is written with exactly the input tokens less every `!`. |
| WhileParser.ProgramFromNotEmpty | whilec/src/parser.rs:83-93 | Once a statement has been read, `parse` never reports an empty program. |
| WhileParser.EmptyProgramIff | whilec/src/parser.rs:88-92 | `parse` reports an empty program exactly when there are no tokens. |
| WhileParser.ProgramFrom | whilec/src/parser.rs:83-93 | The loop of `parse` from cursor i. It has no contract of its own. `ProgramFromSound`, `ProgramFromNotEmpty` and `ProgramFromComplete` state it, and `Parser.Parse` proves that the Rust loop computes it. |
| WhileParser.Program | whilec/src/parser.rs:83-93 | `parse` of a whole token sequence. It has no contract of its own. `ProgramSound`, `EmptyProgramIff` and `ProgramComplete` state it. |
| WhileParser.SimpleCondition | whilec/src/parser.rs:172-202 | A condition that `parse_boolean` can read back as written: a literal, or a comparison other than `!` between left-associated expressions. It has no contract of its own; `BooleanComplete` uses it. |
| WhileParser.Simple | whilec/src/parser.rs:95-126 | A statement with no `;` inside whose conditions and expressions can be read back as written. It has no contract of its own; `StatementComplete` and `ProgramComplete` use it. |
| WhileParser.BooleanComplete | whilec/src/parser.rs:172-202 | The tokens of such a condition, followed by no arithmetic operator, are read back as that condition, ending just past them. |
| WhileParser.IfReads | whilec/src/parser.rs:211-223 | A condition, `then`, a statement, `else` and a statement read in turn make `parse_if` return that conditional. |
| WhileParser.WhileReads | whilec/src/parser.rs:225-231 | A condition, `do` and a statement read in turn make `parse_while` return that loop. |
| WhileParser.StatementComplete | whilec/src/parser.rs:95-126 | The tokens of a statement without `;`, followed by no arithmetic operator, are read back by `parse_statement` as that statement, ending just past them. |
| WhileParser.IfComplete | whilec/src/parser.rs:211-223 | The `if` case of the above. |
| WhileParser.WhileComplete | whilec/src/parser.rs:225-231 | The `while` case of the above. |
| WhileParser.ProgramFromComplete | whilec/src/parser.rs:83-93 | After a statement prev, the tokens of statements each preceded by `;` are all read. The program's leaves are prev's leaves followed by those statements. |
| WhileParser.ProgramComplete | whilec/src/parser.rs:83-93 | Completeness of `parse`: the tokens of statements without `;`, joined by `;`, parse. The program's leaves are exactly those statements, in order. |
| WhileParser.Parser.constructor | whilec/src/main.rs:17 | A new parser holds the given tokens with the cursor at 0. |
| WhileParser.Parser.Peek | whilec/src/parser.rs:64-66 | Returns the token under the cursor, if any, without moving. |
| WhileParser.Parser.Next | whilec/src/parser.rs:68-72 | Returns the token under the cursor, if any, and advances by one, even past the end. |
| WhileParser.Parser.Expect | whilec/src/parser.rs:74-81 | Fails only when a token is present and differs from the expected one. At the end it passes. It always advances by one. |
| WhileParser.Parser.ParseArithmeticComponent | whilec/src/parser.rs:163-170 | Agrees with `ComponentAt`: the same result and cursor, or the same error. |
| WhileParser.Parser.ParseArithmetic | whilec/src/parser.rs:128-161 | Agrees with `ArithmeticAt`: the same result and cursor, or the same error. |
| WhileParser.Parser.ParseBoolean | whilec/src/parser.rs:172-202 | Agrees with `BooleanAt`: the same result and cursor, or the same error. |
| WhileParser.Parser.ParseAssignment | whilec/src/parser.rs:204-209 | Agrees with `AssignmentAt`: the same result and cursor, or the same error. |
| WhileParser.Parser.ParseStatement | whilec/src/parser.rs:95-126 | Agrees with `StatementAt`: the same result and cursor, or the same error. |
| WhileParser.Parser.ParseIf | whilec/src/parser.rs:211-223 | Agrees with `IfAt`: the same result and cursor, or the same error. |
| WhileParser.Parser.ParseWhile | whilec/src/parser.rs:225-231 | Agrees with `WhileAt`: the same result and cursor, or the same error. |
| WhileParser.Parser.Parse | whilec/src/parser.rs:83-93 | Agrees with `ProgramFrom`: the program, an empty-program error, or the statement's error. |
| WhileCodeGen.LabelNameInjective | whilec/src/code_gen.rs:9-13 | Two label names are equal exactly when their numbers are, so the labels drawn from the counter are pairwise distinct. |
| WhileCodeGen.LabelName | whilec/src/code_gen.rs:9-13 | The name of label n: the number followed by `:`. It has no contract of its own. `LabelNameInjective` and `LabelLineText` state it, and `CodeGenerator.NextLabel` returns it. |
| WhileCodeGen.IntString | whilec/src/code_gen.rs:38 | The text `{}` writes for an `i32`: a minus sign before a negative number's digits. It has no contract of its own and no property is proved about it; it is the operand text of a `push` line. |
| WhileCodeGen.Render | whilec/src/code_gen.rs:15-88 | The text each `format!` call writes for one line. It has no contract of its own. `LabelLineText` states the label and jump lines, and the `CodeGen*` methods state that their output is the text of the lines. |
| WhileCodeGen.ArithmeticCode | whilec/src/code_gen.rs:36-47 | The postfix code of an expression. It has no contract of its own. `ArithmeticCodeNoLabels` and `ArithmeticCodeComputes` state it, and `CodeGenerator.CodeGenArithmetic` writes it. |
| WhileCodeGen.BooleanCode | whilec/src/code_gen.rs:49-65 | The code of a condition. It has no contract of its own. `BooleanCodeNoLabels` and `BooleanCodeComputes` state it, and `CodeGenerator.CodeGenBoolean` writes it. |
| WhileCodeGen.LabelsUsed | whilec/src/code_gen.rs:67-88 | How far a statement moves the label counter: two per `if` and per `while`. It has no contract of its own. `LabelsDefinedOnce` and `JumpTargetInRange` state the labels in its terms, and `CodeGenerator.CodeGen` advances the counter by it. |
| WhileCodeGen.StatementCode | whilec/src/code_gen.rs:15-34 | The code of a statement with the counter at l. It has no contract of its own. `LabelsDefinedOnce`, `JumpTargetInRange`, `JumpTargetsDefined` and `StatementCodeComputes` state it, and `CodeGenerator.CodeGen` writes it. |
| WhileCodeGen.IfCode | whilec/src/code_gen.rs:67-77 | The code of an `if`. It has no contract of its own. `IfDefinedOnce`, `IfJumpsInRange` and `IfCodeAfter` state it, and `CodeGenerator.CodeGenIf` writes it. |
| WhileCodeGen.WhileCode | whilec/src/code_gen.rs:79-88 | The code of a `while`. It has no contract of its own. `WhileDefinedOnce`, `WhileJumpsInRange` and `WhileCodeAfter` state it, and `CodeGenerator.CodeGenWhile` writes it. |
| WhileCodeGen.ArithmeticCodeNoLabels | whilec/src/code_gen.rs:36-47 | Arithmetic code defines no label and jumps nowhere. |
| WhileCodeGen.BooleanCodeNoLabels | whilec/src/code_gen.rs:49-65 | Condition code defines no label and jumps nowhere. |
| WhileCodeGen.LabelsDefinedOnce | whilec/src/code_gen.rs:67-88 | With the counter at l, a statement's code defines each label in [l, l + LabelsUsed) exactly once and defines no other label. |
| WhileCodeGen.IfDefinedOnce | whilec/src/code_gen.rs:67-77 | The `if` case of the above: its own two labels plus those of the branches. |
| WhileCodeGen.WhileDefinedOnce | whilec/src/code_gen.rs:79-88 | The `while` case of the above: its own two labels plus those of the body. |
| WhileCodeGen.JumpTargetInRange | whilec/src/code_gen.rs:67-88 | Every `jmp`/`jeqz` in a statement's code targets a label in [l, l + LabelsUsed). |
| WhileCodeGen.IfJumpsInRange | whilec/src/code_gen.rs:67-77 | The `if` case of the above. |
| WhileCodeGen.WhileJumpsInRange | whilec/src/code_gen.rs:79-88 | The `while` case of the above. |
| WhileCodeGen.IfShapeLabels | whilec/src/code_gen.rs:67-77 | The labels an `if` defines and jumps to are its two own labels plus those of its parts. |
| WhileCodeGen.WhileShapeLabels | whilec/src/code_gen.rs:79-88 | The labels a `while` defines and jumps to are its two own labels plus those of its parts. |
| WhileCodeGen.JumpTargetsDefined | whilec/src/code_gen.rs:67-88 | Every label the generated code jumps to is defined exactly once in it. |
| WhileCodeGen.ArithmeticCodeComputes | whilec/src/code_gen.rs:36-47 | Running the postfix code of an expression pushes its value, computed with the machine's 32-bit operations, and changes nothing else. |
| WhileCodeGen.BooleanCodeComputes | whilec/src/code_gen.rs:53-57 | Running a comparison's code pushes 1 when `=`/`<=` holds and 0 otherwise. |
| WhileCodeGen.StatementCodeComputes | whilec/src/code_gen.rs:15-25 | Running the code of an assignment, `skip` or composition leaves the variables as the statement's meaning prescribes and leaves the stack as it was. |
| WhileCodeGen.IfCodeAfter | whilec/src/code_gen.rs:67-77 | The seven pieces `code_gen_if` writes, in its order, make up the `if`'s code. |
| WhileCodeGen.WhileCodeAfter | whilec/src/code_gen.rs:79-88 | The six pieces `code_gen_while` writes, in its order, make up the `while`'s code. |
| WhileCodeGen.LabelLineText | whilec/src/code_gen.rs:71-76 | The `format!`ed label, `jmp` and `jeqz` lines are the text of those lines. |
| WhileCodeGen.CodeGenerator.constructor | whilec/src/code_gen.rs:3-6 | A new generator has empty output and its label counter at 0. |
| WhileCodeGen.CodeGenerator.NextLabel | whilec/src/code_gen.rs:9-13 | Returns the name of the current counter, the number followed by `:`, and increments the counter by one. |
| WhileCodeGen.CodeGenerator.Emit | whilec/src/code_gen.rs:19-21 | The output becomes the old output followed by the given text, which is the line's text, and the line is recorded after what was written. |
| WhileCodeGen.CodeGenerator.CodeGenArithmetic | whilec/src/code_gen.rs:36-47 | The output becomes the old output followed by exactly the text of the expression's postfix code. |
| WhileCodeGen.CodeGenerator.CodeGenBoolean | whilec/src/code_gen.rs:49-65 | The output becomes the old output followed by exactly the text of the condition's code. |
| WhileCodeGen.CodeGenerator.CodeGen | whilec/src/code_gen.rs:15-34 | The output becomes the old output followed by exactly the text of `StatementCode(ast, counter)`. The counter advances by the labels the statement uses. |
| WhileCodeGen.CodeGenerator.CodeGenIf | whilec/src/code_gen.rs:67-77 | The output becomes the old output followed by exactly the text of the `if`'s code, with else label l and end label l + 1. The counter advances by 2 plus the branches' labels. |
| WhileCodeGen.CodeGenerator.CodeGenWhile | whilec/src/code_gen.rs:79-88 | The output becomes the old output followed by exactly the text of the `while`'s code, with condition label l and end label l + 1. The counter advances by 2 plus the body's labels. |
| WhileCodeGen.Generate | whilec/src/code_gen.rs:3-34 | A fresh generator produces exactly the text of `StatementCode(ast, 0)`. |

## Left out

- **File and process I/O** is not modelled; each piece gets its input as a value. This covers:
  - `lex`'s `fopen`/`fgets` (assembler/src/lexer.c:48-59). `LexString` gets the string.
  - `generate_binary_and_write_to_file` (assembler/src/code_generation.c:138-145). `GenerateBinary` returns the words.
  - The file reading of `read_binary_file` (vm/src/binary.c). `Load` gets the file's words.
  - `free_binary_file`.
- **The While lexer** (whilec/src/lexer.rs) is generated by the `logos` derive macro. It is not part of this model; the parser starts from a token sequence.
- **Command-line handling and the `main` files** are plumbing and are not modelled: both `arguments.c`, the three `main` files and `print_help`.
- **Debug printing** is not modelled:
  - `token_vec_print`, `token_to_string`, `token_kind_to_string`;
  - `instruction_vec_print`, `instruction_to_string`, `instruction_kind_to_string`, which names `lneg` "lor";
  - `value_to_string`, `print_binary`.
- **Memory management** is not modelled: `*_destroy`, `free`, and the failure paths of `calloc`/`realloc`. Growth is modelled by the capacity field.
- **Token line and column** are not modelled. The lexer never sets them, and they appear only in diagnostics. Diagnostic texts are reduced to the error constructors.
- **Fatal exits** are modelled as `Err` results. The state after an error is not specified, because the process ends.
- **Out-of-bounds reads** that C leaves unchecked are explicit errors:
  - `lex_string` stepping over the string's terminator when the last run reaches the end of the string (`ReadPastEnd`);
  - `parse_instruction` reading `elements[i+1]` or `elements[i+2]` past `len` (`IndexPastEnd`);
  - the machine reading or writing memory outside the loaded words (`BadAddress`).
- AsmLexer.LexString: requires a string without `'\0'`. The C string ends at its first NUL, so such a character cannot occur inside it.
- **The label and identifier maps** are only declared in assembler/src/parser.h:122-205. They are abstract `map<string, int32>` values whose lookups return -1 on a miss. Their `len` is the number of names in the map.
- **Files that disagree with each other** are modelled as the code uses them:
  - `Value` also has the `BoolValue` and `StringValue` kinds that code_generation.c uses; assembler/src/value.h declares only `None` and `IntValue`.
  - `parse` returns the instruction vector as parser.c does, not the `ParseResult` parser.h:83 declares. `GenerateBinary` takes a `ParseResult` whose maps are given.
  - The machine's `BinaryFile` has the `start_addr`/`total_size`/`memory` fields vm.c uses; vm/src/binary.h names them differently. `Load` reads the header into those fields.
  - `Isa.InstructionKind` is the union of the assembler's kinds (with `label`, `ident`) and the machine's (with `printc` 0xd0, `printv` 0xd1). The kinds they share have the same opcodes.
- Vm.RunVm: takes a step budget (`fuel`) and returns `OutOfFuel` when it is used up. `run_vm`'s loop can run forever, which the model does not capture.
- Vm.BinaryResult: the signed overflow of `v1 + v2`, `v1 - v2` and `v1 * v2` is undefined in C. The model takes 32-bit wrap-around. `kind << 24` into `int32_t` is modelled as unsigned arithmetic.
- **The `parse_arithmetic` rotation.** The branch that rotates a `Binary` right operand (whilec/src/parser.rs:137-149) is modelled in `Attach`. It cannot be reached, because `parse_arithmetic_component` never returns a `Binary`.
- **Operator mnemonics.** parser.rs only derives `Debug` for the operators, so the `Display` text code_gen.rs prints is not shown. The model writes the am4 mnemonics `add`, `sub`, `mul`, `eq`, `le` and `lneg`.
- **code_gen.rs variants** `Paren`, `Cmp` and boolean `Binary` are not modelled as such, because parser.rs's syntax tree has no such variants. parser.rs's comparison `Binary` is generated as code_gen.rs generates `Cmp`.
- **Literal conditions.** `true`/`false` are written as code_gen.rs writes them, with no indentation and no newline. The meaning of code is proved only for expressions, comparisons and straight-line statements. Jumps and literal conditions have no run-time meaning in `Exec`, and `Exec`'s stack is unbounded.
- **`parse` errors.** The error of `parse` distinguishes an empty program from a statement's syntax error. The panics of parser.rs carry only messages.
- WhileParser.ArithmeticRest: its own contract states only that the cursor advances within the tokens. What it reads is stated by the `*Sound`, `*Parts` and `ArithmeticParses` lemmas.
- WhileParser.ArithmeticAt: its own contract states only that the cursor advances within the tokens. What it reads is stated by the `*Sound`, `*Parts` and `ArithmeticParses` lemmas.
- WhileParser.ComparisonAt: its own contract states only that the cursor advances within the tokens. What it reads is stated by the `*Sound`, `*Parts` and `ArithmeticParses` lemmas.
- WhileParser.BooleanAt: its own contract states only that the cursor advances within the tokens. What it reads is stated by the `*Sound`, `*Parts` and `ArithmeticParses` lemmas.
- WhileParser.AssignmentAt: its own contract states only that the cursor advances within the tokens. What it reads is stated by the `*Sound`, `*Parts` and `ArithmeticParses` lemmas.
- WhileParser.StatementAt: its own contract states only that the cursor advances within the tokens. What it reads is stated by the `*Sound`, `*Parts` and `ArithmeticParses` lemmas.
- WhileParser.IfAt: its own contract states only that the cursor advances within the tokens. What it reads is stated by the `*Sound`, `*Parts` and `ArithmeticParses` lemmas.
- WhileParser.WhileAt: its own contract states only that the cursor advances within the tokens. What it reads is stated by the `*Sound`, `*Parts` and `ArithmeticParses` lemmas.
