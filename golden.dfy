/** Concrete listings: the two end-to-end programs of the printer tests and
    the immediate-address examples. Expected texts are written line by line,
    each piece one line of the listing with its newline. */
module Golden {
  import opened Hex
  import opened Strings
  import opened Uasm
  import opened UasmProperties

  /* ---------- the empty program ---------- */

  /** An empty data section: the export directive with its trailing space, then a blank line. */
  lemma PlainDataSection()
    ensures DataToUasm(Data([], [])) == ".data_start\n" + "    .export \n" + "\n" + ".data_end\n"
  {
  }

  /** An empty code section, laid out like the empty data section. */
  lemma PlainCodeSection()
    ensures CodeToUasm(Code([], [])) == ".code_start\n" + "    .export \n" + "\n" + ".code_end\n"
  {
  }

  /** The program with empty data and code sections. */
  lemma PlainProgram()
    ensures ProgramToUasm(Program(Data([], []), Code([], [])))
         == ".data_start\n"
          + "    .export \n"
          + "\n"
          + ".data_end\n"
          + "\n"
          + ".code_start\n"
          + "    .export \n"
          + "\n"
          + ".code_end\n"
  {
    PlainDataSection();
    PlainCodeSection();
  }

  /* ---------- the tiny program ---------- */

  /** The declaration line of the tiny program. */
  lemma TinyDeclaration()
    ensures DeclToUasm(VarDecl(VarName("Target"), TypeName("%UnityEngineTransform"), This))
         == "    Target: %UnityEngineTransform, this"
  {
    assert "    " + "Target" == "    Target";
    assert "    Target" + ": " == "    Target: ";
    assert "    Target: " + "%UnityEngineTransform" == "    Target: %UnityEngineTransform";
    assert "    Target: %UnityEngineTransform" + ", " == "    Target: %UnityEngineTransform, ";
    assert "    Target: %UnityEngineTransform, " + "this" == "    Target: %UnityEngineTransform, this";
  }

  /** The jump line of the tiny program: upper-case hex, no leading zeros. */
  lemma TinyJump()
    ensures InstToUasm(Jump(Immediate(0xff_ffff))) == "        JUMP, 0xFFFFFF"
  {
    ImmediateFFFFFF();
  }

  /** The tiny program's data section: one export and one declaration. */
  lemma TinyDataLayout()
    ensures DataLayout(Data([VarName("Target")],
              [VarDecl(VarName("Target"), TypeName("%UnityEngineTransform"), This)]))
         == [".data_start", "    .export Target", "", "    Target: %UnityEngineTransform, this", ".data_end"]
  {
    var decl := VarDecl(VarName("Target"), TypeName("%UnityEngineTransform"), This);
    assert StringOfExports([VarName("Target")]) == "    .export Target";
    assert Map([decl], DeclToUasm) == [DeclToUasm(decl)];
    TinyDeclaration();
  }

  /** The tiny program's code section: one export, the label `_update` and a jump to 0xFFFFFF. */
  lemma TinyCodeLayout()
    ensures CodeLayout(Code([VarName("_update")],
              [Label(VarName("_update")), Jump(Immediate(0xffffff))]))
         == [".code_start", "    .export _update", "", "    _update:", "        JUMP, 0xFFFFFF", ".code_end"]
  {
    var entry, jump := Label(VarName("_update")), Jump(Immediate(0xffffff));
    assert StringOfExports([VarName("_update")]) == "    .export _update";
    assert Map([entry, jump], InstToUasm) == [InstToUasm(entry), InstToUasm(jump)] by {
      assert [entry, jump][1..] == [jump];
    }
    LabelExample();
    TinyJump();
  }

  /** The expected listing of the tiny program, one entry per line. */
  const TinyListing: seq<string> :=
    [
      ".data_start",
      "    .export Target",
      "",
      "    Target: %UnityEngineTransform, this",
      ".data_end",
      "",
      ".code_start",
      "    .export _update",
      "",
      "    _update:",
      "        JUMP, 0xFFFFFF",
      ".code_end"
    ]

  /** The data section's lines, the blank line between the sections and the
      code section's lines make up the expected listing. */
  lemma TinyLines(dataLines: seq<string>, codeLines: seq<string>)
    requires dataLines == [".data_start", "    .export Target", "", "    Target: %UnityEngineTransform, this", ".data_end"]
    requires codeLines == [".code_start", "    .export _update", "", "    _update:", "        JUMP, 0xFFFFFF", ".code_end"]
    ensures dataLines + [""] + codeLines == TinyListing
  {
  }

  /** The tiny program is the expected listing, each line ended by a newline.
      Its names are parameters fixed by the precondition, so that the
      verifier does not evaluate the whole rendering symbolically. */
  lemma TinyProgram(target: VarName, update: VarName)
    requires target == VarName("Target") && update == VarName("_update")
    ensures ProgramToUasm(Program(
              Data([target], [VarDecl(target, TypeName("%UnityEngineTransform"), This)]),
              Code([update], [Label(update), Jump(Immediate(0xffffff))])))
         == Unlines(TinyListing)
  {
    var d := Data([target], [VarDecl(target, TypeName("%UnityEngineTransform"), This)]);
    var c := Code([update], [Label(update), Jump(Immediate(0xffffff))]);
    ProgramText(Program(d, c));
    TinyDataLayout();
    TinyCodeLayout();
    TinyLines(DataLayout(d), CodeLayout(c));
  }

  /* ---------- immediates, exports, labels ---------- */

  lemma ImmediateZero()
    ensures AddrToUasm(Immediate(0)) == "0x0"
  {
  }

  /** Minus one has all 32 bits set. */
  lemma ImmediateMinusOne()
    ensures AddrToUasm(Immediate(-1)) == "0xFFFFFFFF"
  {
    assert Bits32(-1) == 0xffff_ffff;
    assert ToHex(0xf) == "F";
    assert ToHex(0xff) == "FF";
    assert ToHex(0xfff) == "FFF";
    assert ToHex(0xffff) == "FFFF";
    assert ToHex(0xf_ffff) == "FFFFF";
    assert ToHex(0xff_ffff) == "FFFFFF";
    assert ToHex(0xfff_ffff) == "FFFFFFF";
    assert ToHex(0xffff_ffff) == "FFFFFFFF";
  }

  lemma ImmediateFFFFFF()
    ensures AddrToUasm(Immediate(0xff_ffff)) == "0xFFFFFF"
  {
    assert ToHex(0xf) == "F";
    assert ToHex(0xff) == "FF";
    assert ToHex(0xfff) == "FFF";
    assert ToHex(0xffff) == "FFFF";
    assert ToHex(0xf_ffff) == "FFFFF";
    assert ToHex(0xff_ffff) == "FFFFFF";
  }

  /** Two exports keep the stray leading separator. */
  lemma ExportPair()
    ensures StringOfExports([VarName("A"), VarName("B")]) == "    .export , A, B"
  {
    ExportLineMany([VarName("A"), VarName("B")]);
  }

  /** A label line. */
  lemma LabelExample()
    ensures InstToUasm(Label(VarName("_update"))) == "    _update:"
  {
  }
}
