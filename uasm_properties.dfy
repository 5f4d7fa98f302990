/** What the renderers promise about the text they produce: the export line's
    three cases, the immediate-address numeral, the per-instruction and
    per-declaration line templates, and the line structure of sections and
    of whole programs. */
module UasmProperties {
  import opened Hex
  import opened Strings
  import opened Uasm

  datatype Option<T> = None | Some(value: T)

  /* ---------- names without newlines ---------- */

  ghost predicate AddrOneLine(a: Addr) {
    a.Var? ==> '\n' !in a.name.text
  }

  /** Every name an instruction carries is free of newlines. */
  ghost predicate InstOneLine(i: Inst) {
    && ((i.Push? || i.JumpIfFalse? || i.Jump? || i.JumpIndirect?) ==> AddrOneLine(i.addr))
    && (i.Extern? ==> '\n' !in i.symbol)
    && (i.Label? ==> '\n' !in i.name.text)
  }

  ghost predicate DeclOneLine(d: VarDecl) {
    '\n' !in d.name.text && '\n' !in d.ty.text
  }

  ghost predicate ExportsOneLine(exports: seq<VarName>) {
    forall v :: v in exports ==> '\n' !in v.text
  }

  ghost predicate DataOneLine(d: Data) {
    ExportsOneLine(d.exports) && forall x :: x in d.decls ==> DeclOneLine(x)
  }

  ghost predicate CodeOneLine(c: Code) {
    ExportsOneLine(c.exports) && forall i :: i in c.insts ==> InstOneLine(i)
  }

  /* ---------- export line ---------- */

  /** No exports: the bare directive, with its trailing space. */
  lemma ExportLineEmpty()
    ensures StringOfExports([]) == "    .export "
    ensures |StringOfExports([])| == 12 && StringOfExports([])[11] == ' '
  {
  }

  /** One export: the name right after the directive, no separator. */
  lemma ExportLineSingle(v: VarName)
    ensures StringOfExports([v]) == "    .export " + v.text
  {
  }

  /** Two or more exports: the accumulator fold puts `", "` before every
      name, the first one included. */
  lemma ExportLineFold(exports: seq<VarName>)
    requires |exports| >= 2
    ensures StringOfExports(exports) == "    .export " + Prefixed(exports, ", ", NameText)
  {
    assert StringOfExports(exports) == "    .export " + FoldAppend("", exports, ", ", NameText);
    FoldAppendIsPrefixed("", exports, ", ", NameText);
  }

  /** Two or more exports: so the line always begins `"    .export , "`,
      then the first name and `", "` before each further name. */
  lemma ExportLineMany(exports: seq<VarName>)
    requires |exports| >= 2
    ensures StringOfExports(exports)
         == "    .export , " + exports[0].text + Prefixed(exports[1..], ", ", NameText)
  {
    var head, rest := exports[0].text, Prefixed(exports[1..], ", ", NameText);
    ExportLineFold(exports);
    assert Prefixed(exports, ", ", NameText) == ", " + head + rest;
  }

  /** The export line is a single line when the names are. */
  lemma ExportLineOneLine(exports: seq<VarName>)
    requires ExportsOneLine(exports)
    ensures '\n' !in StringOfExports(exports)
  {
    if |exports| >= 2 {
      FoldAppendIsPrefixed("", exports, ", ", NameText);
      PrefixedAvoids(exports, ", ", NameText, '\n');
    } else if |exports| == 1 {
      assert exports[0] in exports;
    }
  }

  /* ---------- immediate addresses ---------- */

  /** An immediate renders as `0x` and the canonical upper-case numeral of its
      32-bit two's-complement pattern: one to eight digits, no leading zero,
      exactly eight for a negative value, and reading the digits back gives
      the value modulo 2^32. */
  lemma ImmediateNumeral(n: Int32)
    ensures var s := AddrToUasm(Immediate(n));
      && 3 <= |s| <= 10
      && s[..2] == "0x"
      && IsNumeral(s[2..])
      && ParseHex(s[2..]) == n % Word
      && (n < 0 ==> |s| == 10)
  {
    var b := Bits32(n);
    var s := AddrToUasm(Immediate(n));
    assert s[2..] == ToHex(b);
    ParseToHex(b);
    assert Pow16(8) == Word;
    ToHexLength(b, 8);
    if n < 0 {
      assert Pow16(7) == 0x1000_0000;
      ToHexLength(b, 7);
    }
  }

  /** Distinct immediates render differently: the numeral determines the value. */
  lemma ImmediateInjective(m: Int32, n: Int32)
    requires AddrToUasm(Immediate(m)) == AddrToUasm(Immediate(n))
    ensures m == n
  {
    var sm, sn := AddrToUasm(Immediate(m)), AddrToUasm(Immediate(n));
    assert sm[2..] == ToHex(Bits32(m)) && sn[2..] == ToHex(Bits32(n));
    ParseToHex(Bits32(m));
    ParseToHex(Bits32(n));
  }

  /* ---------- instructions ---------- */

  /** The instruction table: the mnemonic of each non-label instruction. */
  ghost function Mnemonic(i: Inst): string
    requires !i.Label?
  {
    match i
    case Nop => "NOP"
    case Push(_) => "PUSH"
    case Pop => "POP"
    case JumpIfFalse(_) => "JUMP_IF_FALSE"
    case Jump(_) => "JUMP"
    case Extern(_) => "EXTERN"
    case JumpIndirect(_) => "JUMP_INDIRECT"
    case Copy => "COPY"
  }

  /** The instruction table: the operand text, if the instruction has one.
      An extern symbol is taken verbatim, an address is rendered. */
  ghost function Operand(i: Inst): Option<string> {
    match i
    case Push(a) => Some(AddrToUasm(a))
    case JumpIfFalse(a) => Some(AddrToUasm(a))
    case Jump(a) => Some(AddrToUasm(a))
    case JumpIndirect(a) => Some(AddrToUasm(a))
    case Extern(symbol) => Some(symbol)
    case _ => None
  }

  /** Every instruction follows its table row: eight spaces and the mnemonic,
      then `", "` and the operand when there is one; a label is four spaces,
      the name and a colon. */
  lemma InstLayout(i: Inst)
    ensures !i.Label? ==>
      match Operand(i)
      case Some(o) => InstToUasm(i) == "        " + Mnemonic(i) + ", " + o
      case None => InstToUasm(i) == "        " + Mnemonic(i)
    ensures i.Label? ==> InstToUasm(i) == "    " + i.name.text + ":"
  {
    if i.Nop? || i.Pop? || i.Copy? {
      InstWithoutOperand(i);
    } else if !i.Label? {
      InstWithOperand(i);
    }
  }

  /** `NOP`, `POP` and `COPY` take no operand. */
  lemma InstWithoutOperand(i: Inst)
    requires i.Nop? || i.Pop? || i.Copy?
    ensures InstToUasm(i) == "        " + Mnemonic(i)
  {
  }

  /** The other instructions write their operand after `", "`. */
  lemma InstWithOperand(i: Inst)
    requires !i.Label? && !(i.Nop? || i.Pop? || i.Copy?)
    ensures Operand(i).Some?
    ensures InstToUasm(i) == "        " + Mnemonic(i) + ", " + Operand(i).value
  {
    // each head literal is the indentation, the mnemonic and the separator
    match i
    case Push(_) => assert "        PUSH, " == "        " + "PUSH" + ", ";
    case JumpIfFalse(_) => assert "        JUMP_IF_FALSE, " == "        " + "JUMP_IF_FALSE" + ", ";
    case Jump(_) => assert "        JUMP, " == "        " + "JUMP" + ", ";
    case Extern(_) => assert "        EXTERN, " == "        " + "EXTERN" + ", ";
    case JumpIndirect(_) => assert "        JUMP_INDIRECT, " == "        " + "JUMP_INDIRECT" + ", ";
  }

  /** A named address is written as the name itself, character for
      character, so distinct names give distinct operands. */
  lemma AddrVarVerbatim(v: VarName, w: VarName)
    ensures AddrToUasm(Var(v)) == v.text
    ensures AddrToUasm(Var(v)) == AddrToUasm(Var(w)) <==> v == w
  {
  }

  lemma AddrOneLineRenders(a: Addr)
    requires AddrOneLine(a)
    ensures '\n' !in AddrToUasm(a)
  {
    if a.Immediate? {
      var digits := ToHex(Bits32(a.value));
      assert AllDigits(digits);
      assert AddrToUasm(a) == "0x" + digits;
    }
  }

  /** Each instruction renders to exactly one line when its names have no newline. */
  lemma InstSingleLine(i: Inst)
    requires InstOneLine(i)
    ensures '\n' !in InstToUasm(i)
    ensures Lines(InstToUasm(i)) == [InstToUasm(i)]
  {
    if i.Push? || i.JumpIfFalse? || i.Jump? || i.JumpIndirect? {
      AddrOneLineRenders(i.addr);
    }
    LinesSingle(InstToUasm(i));
  }

  /* ---------- literals ---------- */

  /** Reading an initial value back from its word. */
  ghost function LiteralOf(word: string): Option<Literal> {
    if word == "null" then Some(Null)
    else if word == "this" then Some(This)
    else None
  }

  /** The initial value's word reads back as that value, and the only words
      that read back are the ones the renderer writes. */
  lemma LiteralRoundTrip(l: Literal, word: string)
    ensures LiteralOf(LiteralToUasm(l)) == Some(l)
    ensures LiteralOf(word).Some? ==> LiteralToUasm(LiteralOf(word).value) == word
  {
    assert "null" != "this" by {
      assert "null"[0] != "this"[0];
    }
  }

  /* ---------- declarations ---------- */

  /** A declaration is four spaces, the name, `": "`, the type, `", "` and
      `null` or `this` for the initial value. */
  lemma DeclLayout(d: VarDecl)
    ensures DeclToUasm(d) == "    " + d.name.text + ": " + d.ty.text + ", "
      + (if d.init.Null? then "null" else "this")
  {
  }

  /** Each declaration renders to exactly one line when its names have no newline. */
  lemma DeclSingleLine(d: VarDecl)
    requires DeclOneLine(d)
    ensures '\n' !in DeclToUasm(d)
    ensures Lines(DeclToUasm(d)) == [DeclToUasm(d)]
  {
    LinesSingle(DeclToUasm(d));
  }

  /* ---------- sections and programs ---------- */

  /** The member block (the fold over the members) is the rendering of each
      member preceded by a newline: empty for no members. */
  lemma MemberBlock<T>(xs: seq<T>, render: T -> string)
    ensures FoldAppend("", xs, "\n", render) == Prefixed(xs, "\n", render)
    ensures xs == [] <==> FoldAppend("", xs, "\n", render) == ""
  {
    FoldAppendIsPrefixed("", xs, "\n", render);
    if xs != [] {
      assert Prefixed(xs, "\n", render)[0] == '\n';
    }
  }

  /** With newline-free renderings, the member block holds exactly one
      newline per member. */
  lemma MemberBlockNewlines<T>(xs: seq<T>, render: T -> string)
    requires forall x :: x in xs ==> '\n' !in render(x)
    ensures Count(FoldAppend("", xs, "\n", render), '\n') == |xs|
  {
    MemberBlock(xs, render);
    PrefixedNewlines(xs, render);
  }

  /** The lines of a data section: start marker, export line, a blank line,
      one line per declaration, end marker. */
  ghost function DataLayout(d: Data): seq<string> {
    [".data_start", StringOfExports(d.exports), ""] + Map(d.decls, DeclToUasm) + [".data_end"]
  }

  /** The lines of a code section: start marker, export line, a blank line,
      one line per instruction, end marker. */
  ghost function CodeLayout(c: Code): seq<string> {
    [".code_start", StringOfExports(c.exports), ""] + Map(c.insts, InstToUasm) + [".code_end"]
  }

  /** The section template: each of start marker, export line, blank line,
      members and end marker followed by a newline. */
  lemma SectionText<T>(start: string, exportLine: string, xs: seq<T>, render: T -> string, end: string)
    ensures start + "\n" + exportLine + "\n" + FoldAppend("", xs, "\n", render) + "\n" + end + "\n"
         == Unlines([start, exportLine, ""] + Map(xs, render) + [end])
  {
    var body := FoldAppend("", xs, "\n", render);
    var members := Map(xs, render);
    MemberBlock(xs, render);
    PrefixedShift(xs, render);
    UnlinesAppend([start, exportLine, ""] + members, [end]);
    UnlinesAppend([start, exportLine, ""], members);
    assert Unlines([start, exportLine, ""]) == start + "\n" + (exportLine + "\n" + "\n") by {
      assert [start, exportLine, ""][1..] == [exportLine, ""];
      assert [exportLine, ""][1..] == [""];
      calc {
        Unlines([start, exportLine, ""]);
        start + "\n" + Unlines([exportLine, ""]);
        start + "\n" + (exportLine + "\n" + Unlines([""]));
        { assert Unlines([""]) == "" + "\n" + Unlines([]); }
        start + "\n" + (exportLine + "\n" + "\n");
      }
    }
    assert Unlines([end]) == end + "\n" + "";
    calc {
      start + "\n" + exportLine + "\n" + body + "\n" + end + "\n";
      start + "\n" + exportLine + "\n" + (body + "\n") + (end + "\n");
      start + "\n" + exportLine + "\n" + ("\n" + Unlines(members)) + (end + "\n");
      Unlines([start, exportLine, ""]) + Unlines(members) + Unlines([end]);
    }
  }

  /** A data section is its layout, each line ended by a newline, whatever the names. */
  lemma DataText(d: Data)
    ensures DataToUasm(d) == Unlines(DataLayout(d))
  {
    var e, body := StringOfExports(d.exports), FoldAppend("", d.decls, "\n", DeclToUasm);
    SectionText(".data_start", e, d.decls, DeclToUasm, ".data_end");
    assert ".data_start\n" == ".data_start" + "\n";
    assert "\n.data_end\n" == "\n" + ".data_end" + "\n";
  }

  /** A code section is its layout, each line ended by a newline, whatever the names. */
  lemma CodeText(c: Code)
    ensures CodeToUasm(c) == Unlines(CodeLayout(c))
  {
    var e, body := StringOfExports(c.exports), FoldAppend("", c.insts, "\n", InstToUasm);
    SectionText(".code_start", e, c.insts, InstToUasm, ".code_end");
    assert ".code_start\n" == ".code_start" + "\n";
    assert "\n.code_end\n" == "\n" + ".code_end" + "\n";
  }

  /** A program is the data section's lines, one blank line, then the code
      section's lines, each ended by a newline. */
  lemma ProgramText(p: Program)
    ensures ProgramToUasm(p) == Unlines(DataLayout(p.data) + [""] + CodeLayout(p.code))
  {
    DataText(p.data);
    CodeText(p.code);
    UnlinesAppend(DataLayout(p.data) + [""], CodeLayout(p.code));
    UnlinesAppend(DataLayout(p.data), [""]);
    assert Unlines([""]) == "\n";
  }

  lemma LayoutOneLine(d: Data, c: Code)
    requires DataOneLine(d) && CodeOneLine(c)
    ensures forall l :: l in DataLayout(d) ==> '\n' !in l
    ensures forall l :: l in CodeLayout(c) ==> '\n' !in l
  {
    ExportLineOneLine(d.exports);
    ExportLineOneLine(c.exports);
    forall k | 0 <= k < |d.decls| ensures '\n' !in Map(d.decls, DeclToUasm)[k] {
      MapAt(d.decls, DeclToUasm, k);
      DeclSingleLine(d.decls[k]);
    }
    forall k | 0 <= k < |c.insts| ensures '\n' !in Map(c.insts, InstToUasm)[k] {
      MapAt(c.insts, InstToUasm, k);
      InstSingleLine(c.insts[k]);
    }
  }

  /** With newline-free names, a data section splits into exactly its layout
      lines (and the empty text after the final newline): `#decls + 4` newlines. */
  lemma DataLines(d: Data)
    requires DataOneLine(d)
    ensures Lines(DataToUasm(d)) == DataLayout(d) + [""]
    ensures Count(DataToUasm(d), '\n') == |d.decls| + 4
  {
    LayoutOneLine(d, Code([], []));
    DataText(d);
    LinesUnlines(DataLayout(d));
    NewlinesAreLineBreaks(DataToUasm(d));
  }

  /** With newline-free names, a code section splits into exactly its layout
      lines (and the empty text after the final newline): `#insts + 4` newlines. */
  lemma CodeLines(c: Code)
    requires CodeOneLine(c)
    ensures Lines(CodeToUasm(c)) == CodeLayout(c) + [""]
    ensures Count(CodeToUasm(c), '\n') == |c.insts| + 4
  {
    LayoutOneLine(Data([], []), c);
    CodeText(c);
    LinesUnlines(CodeLayout(c));
    NewlinesAreLineBreaks(CodeToUasm(c));
  }

  /** With newline-free names, a program splits into the data layout, one
      blank line, the code layout and the empty text after the final newline:
      `#decls + #insts + 9` newlines. */
  lemma ProgramLines(p: Program)
    requires DataOneLine(p.data) && CodeOneLine(p.code)
    ensures Lines(ProgramToUasm(p)) == DataLayout(p.data) + [""] + CodeLayout(p.code) + [""]
    ensures Count(ProgramToUasm(p), '\n') == |p.data.decls| + |p.code.insts| + 9
  {
    var ls := DataLayout(p.data) + [""] + CodeLayout(p.code);
    LayoutOneLine(p.data, p.code);
    assert forall l :: l in ls ==> '\n' !in l;
    ProgramText(p);
    LinesUnlines(ls);
    NewlinesAreLineBreaks(ProgramToUasm(p));
  }

  /** Whatever the names, a program starts with `.data_start`, ends with
      `.code_end` and a newline, and the data section's end marker is
      followed by exactly one blank line and the code section's start marker. */
  lemma ProgramFrame(p: Program)
    ensures var s, k := ProgramToUasm(p), |DataToUasm(p.data)|;
      && 12 <= k
      && s[..12] == ".data_start\n"
      && s[|s| - 10..] == ".code_end\n"
      && s[k - 10..k + 12] == ".data_end\n\n.code_start"
  {
    ProgramStart(p);
    ProgramEnd(p);
    SectionSeam(p);
  }

  lemma ProgramStart(p: Program)
    ensures ProgramToUasm(p)[..12] == ".data_start\n"
  {
    var data := DataToUasm(p.data);
    assert data[..12] == ".data_start\n";
    assert ProgramToUasm(p)[..12] == data[..12];
  }

  lemma ProgramEnd(p: Program)
    ensures var s := ProgramToUasm(p); |s| >= 10 && s[|s| - 10..] == ".code_end\n"
  {
    var s, code := ProgramToUasm(p), CodeToUasm(p.code);
    assert code[|code| - 10..] == ".code_end\n";
    assert s[|s| - 10..] == code[|code| - 10..];
  }

  /** The data section's end marker, one blank line, the code section's start marker. */
  lemma SectionSeam(p: Program)
    ensures var s, k := ProgramToUasm(p), |DataToUasm(p.data)|;
      && 12 <= k && k + 12 <= |s|
      && s[k - 10..k + 12] == ".data_end\n\n.code_start"
  {
    var s := ProgramToUasm(p);
    var data, code := DataToUasm(p.data), CodeToUasm(p.code);
    var k := |data|;
    assert data[k - 10..] == ".data_end\n";
    assert code[..11] == ".code_start";
    assert s[k - 10..k + 12] == data[k - 10..] + "\n" + code[..11];
  }
}
