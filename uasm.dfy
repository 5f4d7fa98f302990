/** The uasm program representation and its text renderers, one renderer per
    type, composed bottom-up into a single listing. Every renderer is total:
    nothing is validated, every value renders. */
module Uasm {
  import opened Hex
  import opened Strings

  /** A variable or label name; its characters are emitted unchanged. */
  datatype VarName = VarName(text: string)

  /** A type name; its characters are emitted unchanged. */
  datatype TypeName = TypeName(text: string)

  /** Initial value of a declared variable. */
  datatype Literal = Null | This

  /** An instruction operand: a named location or an immediate 32-bit value. */
  datatype Addr = Var(name: VarName) | Immediate(value: Int32)

  /** The closed set of instructions. */
  datatype Inst =
    | Nop
    | Push(addr: Addr)
    | Pop
    | JumpIfFalse(addr: Addr)
    | Jump(addr: Addr)
    | Extern(symbol: string)
    | JumpIndirect(addr: Addr)
    | Copy
    | Label(name: VarName)

  /** One variable of the data section. */
  datatype VarDecl = VarDecl(name: VarName, ty: TypeName, init: Literal)

  /** The data section: exported names and variable declarations, independent of each other. */
  datatype Data = Data(exports: seq<VarName>, decls: seq<VarDecl>)

  /** The code section: exported names and the instruction stream. */
  datatype Code = Code(exports: seq<VarName>, insts: seq<Inst>)

  datatype Program = Program(data: Data, code: Code)

  /** The data section, a newline, then the code section. */
  function ProgramToUasm(p: Program): string {
    DataToUasm(p.data) + "\n" + CodeToUasm(p.code)
  }

  function DataToUasm(d: Data): string {
    ".data_start\n" + StringOfExports(d.exports) + "\n"
    + FoldAppend("", d.decls, "\n", DeclToUasm) + "\n.data_end\n"
  }

  /** The characters of a name (the closure body `export.0`). */
  function NameText(v: VarName): string {
    v.text
  }

  /** The export line. With two or more names the fold puts `", "` before
      every name, the first one included. */
  function StringOfExports(exports: seq<VarName>): string {
    "    .export "
    + if |exports| == 0 then ""
      else if |exports| == 1 then exports[0].text
      else FoldAppend("", exports, ", ", NameText)
  }

  function DeclToUasm(d: VarDecl): string {
    "    " + d.name.text + ": " + d.ty.text + ", " + LiteralToUasm(d.init)
  }

  function LiteralToUasm(l: Literal): string {
    match l
    case Null => "null"
    case This => "this"
  }

  function CodeToUasm(c: Code): string {
    ".code_start\n" + StringOfExports(c.exports) + "\n"
    + FoldAppend("", c.insts, "\n", InstToUasm) + "\n.code_end\n"
  }

  /** A name as itself; an immediate as `0x` and the upper-case hex digits of its 32-bit pattern. */
  function AddrToUasm(a: Addr): string {
    match a
    case Var(name) => name.text
    case Immediate(n) => "0x" + ToHex(Bits32(n))
  }

  function InstToUasm(i: Inst): string {
    match i
    case Nop => "        NOP"
    case Push(a) => "        PUSH, " + AddrToUasm(a)
    case Pop => "        POP"
    case JumpIfFalse(a) => "        JUMP_IF_FALSE, " + AddrToUasm(a)
    case Jump(a) => "        JUMP, " + AddrToUasm(a)
    case Extern(symbol) => "        EXTERN, " + symbol
    case JumpIndirect(a) => "        JUMP_INDIRECT, " + AddrToUasm(a)
    case Copy => "        COPY"
    case Label(name) => "    " + name.text + ":"
  }
}
