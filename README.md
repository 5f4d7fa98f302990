# uasm-rs printer, modelled in Dafny

uasm-rs turns an in-memory uasm program into the text listing the uasm
assembler reads. The in-memory program holds a data section (exported names
and variable declarations) and a code section (exported names and an
instruction stream). Every type has a `to_uasm` renderer. The renderers
compose bottom-up into one string, and the output is defined character by
character.

The model follows the library one renderer at a time. The library is pure,
with no state, no I/O and no mutation, so every renderer is a total Dafny
function from a datatype to `string`:

- `hex.dfy` (module `Hex`) covers Rust's `{:X}` formatting of an `i32`.
  `Bits32` is the 32-bit two's-complement bit pattern (`n as u32`). `ToHex`
  gives its upper-case digits, most significant first, with no leading
  zeros. `ParseHex` reads digits back.
- `strings.dfy` (module `Strings`) holds the text building blocks:
  - `FoldAppend` is the accumulator fold
    `iter().fold(acc, |s, x| format!("{}<sep>{}", s, f(x)))` that the
    renderers use for lists.
  - `Prefixed` and `Unlines` are reference joins.
  - `Lines` splits a text at every newline.
  - `Count` counts occurrences of a character.
- `uasm.dfy` (module `Uasm`) holds the data model (`VarName`, `TypeName`,
  `Literal`, `Addr`, `Inst`, `VarDecl`, `Data`, `Code`, `Program`) and one
  renderer per `to_uasm`, plus `StringOfExports`.
- `uasm_properties.dfy` (module `UasmProperties`) proves the shape of every
  renderer for all inputs:
  - the three cases of the export line;
  - immediates as canonical hex numerals that read back to the value modulo
    2^32;
  - the instruction table;
  - the declaration layout;
  - the member block;
  - sections and programs as lists of lines;
  - newline counts;
  - the program's frame.
- `golden.dfy` (module `Golden`) holds the two end-to-end listings of the
  printer tests and single-line examples.

Names are arbitrary strings because the library validates nothing. Only the
lemmas that count lines assume that names contain no newline.

The export line keeps the library's quirk. With two or more exports, the
fold starts from the empty string and puts `", "` before every name,
including the first. The line therefore begins `"    .export , "`. The model
reproduces this as written, and `UasmProperties.ExportLineMany` and
`Golden.ExportPair` state it.

A section's member block is the fold that puts a newline before every
member. The section template then adds a newline between the export line
and the block, and another newline between the block and the end marker. So
there is always one blank line after the export line, and with no members
that blank line is the whole body.

Each renderer has a lemma that states its shape in the table below:

| renderer | source | lemma |
|---|---|---|
| `ProgramToUasm` | `Program::to_uasm` | `ProgramText`, `ProgramLines`, `ProgramFrame` |
| `DataToUasm` | `Data::to_uasm` | `DataText`, `DataLines` |
| `CodeToUasm` | `Code::to_uasm` | `CodeText`, `CodeLines` |
| `StringOfExports` | `string_of_exports` | `ExportLineEmpty`, `ExportLineSingle`, `ExportLineFold`, `ExportLineMany` |
| `DeclToUasm` | `VarDecl::to_uasm` | `DeclLayout` |
| `LiteralToUasm` | `Literal::to_uasm` | `LiteralRoundTrip` |
| `AddrToUasm` | `Addr::to_uasm` | `AddrVarVerbatim`, `ImmediateNumeral` |
| `InstToUasm` | `Inst::to_uasm` | `InstLayout` |

## Model

| member | source | states |
|---|---|---|
| Hex.Bits32 | src/lib.rs:139 | the value `{:X}` prints for an `i32` is below 2^32, equals `n mod 2^32`, and reads back as `n` when taken as a signed word |
| Hex.ToHex | src/lib.rs:139 | the written digits form a canonical numeral (at least one upper-case hex digit, no leading zero) and start with `0` exactly when the number is 0 |
| Hex.ParseToHex | src/lib.rs:139 | reading the written digits back gives the number that was written |
| Hex.ToHexParse | src/lib.rs:139 | every canonical numeral is what `ToHex` writes for its value, so the written form is unique |
| Hex.ToHexLength | src/lib.rs:139 | a number is written with at most k digits exactly when it is below 16^k |
| Strings.FoldAppendIsPrefixed | src/lib.rs:46-48 | the accumulator fold is its start value followed by separator + rendering of each element, in order |
| Strings.PrefixedShift | src/lib.rs:40-48 | a newline before each member plus the template's closing newline is the same text as a leading newline and then each member ended by a newline |
| Strings.LinesJoin | src/lib.rs:9 | joining two texts with one newline joins their lists of lines |
| UasmProperties.ExportLineEmpty | src/lib.rs:53-57 | `string_of_exports`: no exports give exactly `"    .export "`, twelve characters ending in a space |
| UasmProperties.ExportLineSingle | src/lib.rs:58-59 | `string_of_exports`: one export gives the directive followed directly by the name, with no separator |
| UasmProperties.ExportLineFold | src/lib.rs:60-63 | `string_of_exports`: two or more exports give the directive followed by `", "` + name for every name in order |
| UasmProperties.ExportLineMany | src/lib.rs:60-63 | two or more exports always begin `"    .export , "`, then the first name, then `", "` + name for each further name |
| UasmProperties.ExportLineOneLine | src/lib.rs:53-66 | the export line contains no newline when the names contain none, whatever their number |
| UasmProperties.ImmediateNumeral | src/lib.rs:139 | `Addr::to_uasm`: an immediate is `0x` and 1 to 8 canonical upper-case digits that read back to the value mod 2^32; a negative value always has 8 digits |
| UasmProperties.ImmediateInjective | src/lib.rs:139 | distinct immediates render differently |
| UasmProperties.AddrVarVerbatim | src/lib.rs:138 | `Addr::to_uasm`: a named address is the name's characters verbatim, so two named addresses render alike exactly when the names are equal |
| UasmProperties.AddrOneLineRenders | src/lib.rs:135-141 | an address renders without newline when its name has none; an immediate never has one |
| UasmProperties.InstLayout | src/lib.rs:158-171 | `Inst::to_uasm`: every non-label instruction is eight spaces and its mnemonic, then `", "` and its operand when it has one; a label is four spaces, the name and `:` |
| UasmProperties.InstWithoutOperand | src/lib.rs:161-168 | `NOP`, `POP` and `COPY` are eight spaces and the mnemonic alone |
| UasmProperties.InstWithOperand | src/lib.rs:162-167 | `PUSH`, `JUMP_IF_FALSE`, `JUMP`, `EXTERN` and `JUMP_INDIRECT` have an operand (the rendered address, or the extern symbol verbatim) written after `", "` |
| UasmProperties.InstSingleLine | src/lib.rs:158-171 | an instruction with newline-free names is exactly one line |
| UasmProperties.DeclLayout | src/lib.rs:76-83 | `VarDecl::to_uasm`: a declaration is four spaces, name, `": "`, type, `", "`, then `null` or `this` for the initial value |
| UasmProperties.LiteralRoundTrip | src/lib.rs:93-98 | `Literal::to_uasm`: `Null` and `This` are written as the words `null` and `this`, which read back as those values, and no other word reads back |
| UasmProperties.DeclSingleLine | src/lib.rs:76-83 | a declaration with newline-free names is exactly one line |
| UasmProperties.MemberBlock | src/lib.rs:121-123 | the member block is each rendering preceded by a newline, and is empty exactly when there are no members |
| UasmProperties.MemberBlockNewlines | src/lib.rs:46-48 | with newline-free renderings the member block holds exactly one newline per member |
| UasmProperties.SectionText | src/lib.rs:39-49 | the section template is start marker, export line, a blank line, one line per member and the end marker, each followed by a newline |
| UasmProperties.DataText | src/lib.rs:38-50 | `Data::to_uasm`: a data section is its layout lines `.data_start`, export line, blank, declarations, `.data_end`, each ended by a newline, for all names |
| UasmProperties.CodeText | src/lib.rs:113-125 | `Code::to_uasm`: a code section is its layout lines `.code_start`, export line, blank, instructions, `.code_end`, each ended by a newline, for all names |
| UasmProperties.ProgramText | src/lib.rs:8-10 | `Program::to_uasm`: a program is the data section's lines, one blank line, then the code section's lines, each ended by a newline |
| UasmProperties.DataLines | src/lib.rs:38-50 | with newline-free names, a data section splits into exactly its layout lines and holds `#decls + 4` newlines |
| UasmProperties.CodeLines | src/lib.rs:113-125 | with newline-free names, a code section splits into exactly its layout lines and holds `#insts + 4` newlines |
| UasmProperties.ProgramLines | src/lib.rs:8-10 | with newline-free names, a program splits into data layout, a blank line and code layout, and holds `#decls + #insts + 9` newlines |
| UasmProperties.ProgramFrame | src/lib.rs:8-10 | every program starts with `.data_start` and a newline, ends with `.code_end` and a newline, and has `.data_end`, one blank line and `.code_start` where the sections meet |
| Golden.PlainDataSection | tests/printer.rs:18-21 | the empty data section is `.data_start`, the export directive with its trailing space, a blank line, `.data_end` |
| Golden.PlainCodeSection | tests/printer.rs:23-26 | the empty code section is laid out the same way with `.code_start` and `.code_end` |
| Golden.PlainProgram | tests/printer.rs:5-29 | the program with empty sections renders to the expected nine lines of the plain test |
| Golden.TinyDeclaration | tests/printer.rs:56 | the declaration of `Target` renders as `    Target: %UnityEngineTransform, this` |
| Golden.TinyJump | tests/printer.rs:63 | `Jump(Immediate(0xffffff))` renders as `        JUMP, 0xFFFFFF` |
| Golden.TinyDataLayout | tests/printer.rs:53-57 | the tiny data section's five lines |
| Golden.TinyCodeLayout | tests/printer.rs:59-64 | the tiny code section's six lines |
| Golden.TinyProgram | tests/printer.rs:33-67 | the tiny program renders to the expected twelve lines, each ended by a newline |
| Golden.ImmediateZero | src/lib.rs:139 | zero renders as `0x0` |
| Golden.ImmediateMinusOne | src/lib.rs:139 | minus one renders as its bit pattern `0xFFFFFFFF`, not with a sign |
| Golden.ImmediateFFFFFF | tests/printer.rs:47 | 0xffffff renders as `0xFFFFFF`, upper case and unpadded |
| Golden.ExportPair | src/lib.rs:60-63 | exports `A`, `B` render as `    .export , A, B`, with the stray leading separator |
| Golden.LabelExample | tests/printer.rs:62 | the label `_update` renders as `    _update:` |

## Left out

- The `#[derive(Debug)]` implementations are compiler-generated debug formatting and not part of the listing.
- The `Expr` enum (src/lib.rs:101-104) is declared but never rendered or used.
- `VarName::new` and `TypeName::new` (src/lib.rs:17-19, 26-28) only copy a `&str` into an owned `String`. The Dafny datatype constructors play their part.
- `format!` and `String` allocation are not modelled; only the resulting characters are. Strings are sequences of characters, so the UTF-8 byte encoding of a Rust `String` is not modelled.
- The test harness (`extern crate`, `#[test]`, `assert_eq!`) is left out. Its two expected listings appear as the `Golden` lemmas.
- Golden.TinyProgram: takes the two names as parameters that its precondition fixes to `Target` and `_update`, and states the expected text as `Unlines` of its twelve lines (`Golden.TinyListing`). This is the same text as the test's single literal, written line by line.
