/** The two-pass assembler (src/asm/mod.rs). The first pass records labels in
    the symbol table, section headers, and `.str` constants in the read-only
    section; the second pass encodes every opcode line. The output is a
    32-byte header, the read-only section, and the encoded program. */
module Asm {
  import opened Wrappers
  import opened Bytes
  import opened Float
  import opened AsmToken
  import opened Symbols
  import opened InstructionParsers
  import Utf8

  datatype Phase = First | Second

  /** `Section`; the offsets are never filled in by the assembler. */
  datatype Section = Data(offset: Option<u32>) | Code(offset: Option<u32>) | Unknown

  /** `Section::from(&str)`: only `data` and `code` name a section. */
  function SectionFrom(name: string): (s: Section)
    ensures s.Data? <==> name == "data"
    ensures s.Code? <==> name == "code"
    ensures !s.Unknown? ==> s.offset.None?
  {
    if name == "data" then Data(None)
    else if name == "code" then Code(None)
    else Unknown
  }

  /** `AsmError`; the instructions in two of them stand for their printed form. */
  datatype AsmError =
    | ParseError(error: string)
    | NoSectionDecl
    | MissingSection
    | StringConstantWithoutLabel(instr: AssemblerInstruction)
    | SymbolAlreadyDeclared(name: string)
    | InvalidDirectiveName(instr: AssemblerInstruction)
    | UnknownDirective(name: string)
    | UnknownSection(name: string)
    | UnknownLabel(name: string)
    | UnexpectedToken(token: Token)
    | NotAnOpcode
    | EmptyString
    | UnlabeledString

  /** The fields of an `Assembler`, as a value. */
  datatype AsmState = AsmState(
    symbols: seq<Symbol>,
    readonly: seq<u8>,
    phase: Phase,
    sections: seq<Section>,
    current: Option<Section>,
    errors: seq<AsmError>)

  /** The state of `Assembler::new`. */
  const Initial: AsmState := AsmState([], [], First, [], None, [])

  /** What `assemble` gives back; `Exited` is the process ending in `to_bytes`
      on a label the symbol table does not know. */
  datatype Outcome = Assembled(bytes: seq<u8>) | Failed(errors: seq<AsmError>) | Exited

  /** `ro_len as u32`. */
  function U32(n: nat): (r: u32)
    ensures r == n % 0x1_0000_0000
  {
    n % 0x1_0000_0000
  }

  /** The header `write_header` builds for a read-only section of `roLength`
      bytes: "DOVM", the length truncated to 32 bits in big-endian order, and
      zeros up to 32 bytes. */
  function Header(roLength: nat): (h: seq<u8>)
    ensures |h| == DO_HEADER_LEN
    ensures h[..4] == DO_HEADER_PREFIX
    ensures BigEndian(h[4..8]) == roLength % 0x1_0000_0000
    ensures forall k :: 8 <= k < DO_HEADER_LEN ==> h[k] == 0
  {
    assert Pow256(4) == 0x1_0000_0000;
    var length := ToBigEndian(U32(roLength), 4);
    BigEndianOfToBigEndian(U32(roLength), 4);
    var h := DO_HEADER_PREFIX + length + seq(24, _ => 0);
    assert h[4..8] == length;
    h
  }

  /** `process_label_decl`: a label is added unless its slot holds no
      declaration or the name is taken. */
  function LabelDeclStep(st: AsmState, i: AssemblerInstruction): (r: AsmState)
    ensures r.readonly == st.readonly && r.sections == st.sections && r.current == st.current
    ensures LabelName(i).None? ==> r == st.(errors := st.errors + [StringConstantWithoutLabel(i)])
    ensures LabelName(i).Some? && HasName(st.symbols, LabelName(i).value) ==>
      r == st.(errors := st.errors + [SymbolAlreadyDeclared(LabelName(i).value)])
    ensures LabelName(i).Some? && !HasName(st.symbols, LabelName(i).value) ==>
      r == st.(symbols := st.symbols + [NewSymbol(LabelName(i).value, Label)])
  {
    match LabelName(i)
    case None => st.(errors := st.errors + [StringConstantWithoutLabel(i)])
    case Some(name) =>
      if HasName(st.symbols, name) then st.(errors := st.errors + [SymbolAlreadyDeclared(name)])
      else st.(symbols := st.symbols + [NewSymbol(name, Label)])
  }

  /** `process_section_header`. */
  function SectionHeaderStep(st: AsmState, name: string): (r: AsmState)
    ensures SectionFrom(name).Unknown? ==> r == st.(errors := st.errors + [UnknownSection(name)])
    ensures !SectionFrom(name).Unknown? ==>
      r == st.(sections := st.sections + [SectionFrom(name)], current := Some(SectionFrom(name)))
  {
    var section := SectionFrom(name);
    if section.Unknown? then st.(errors := st.errors + [UnknownSection(name)])
    else st.(sections := st.sections + [section], current := Some(section))
  }

  /** `handle_str`: in the first phase, the label's offset becomes the current
      length of the read-only section and the string's UTF-8 bytes and a zero
      are appended to it. */
  function StrStep(st: AsmState, i: AssemblerInstruction): (r: AsmState)
  {
    if st.phase != First then st
    else
      match StringConstant(i)
      case None => st.(errors := st.errors + [EmptyString])
      case Some(s) =>
        match LabelName(i)
        case None => st.(errors := st.errors + [UnlabeledString])
        case Some(name) =>
          st.(symbols := SetOffsets(st.symbols, name, U32(|st.readonly|)),
              readonly := st.readonly + Utf8.Encode(s) + [0])
  }

  /** `process_directive`: a directive with operands must be `.str`; one
      without operands is a section header. */
  function DirectiveStep(st: AsmState, i: AssemblerInstruction): (r: AsmState)
  {
    match DirectiveName(i)
    case None => st.(errors := st.errors + [InvalidDirectiveName(i)])
    case Some(name) =>
      if HasOperands(i) then
        if name == "str" then StrStep(st, i)
        else st.(errors := st.errors + [UnknownDirective(name)])
      else SectionHeaderStep(st, name)
  }

  /** One iteration of `process_first`'s loop. */
  function FirstStep(st: AsmState, i: AssemblerInstruction): AsmState {
    var afterLabel :=
      if !IsLabel(i) then st
      else if st.current.Some? then LabelDeclStep(st, i)
      else st.(errors := st.errors + [NoSectionDecl]);
    if IsDirective(i) then DirectiveStep(afterLabel, i) else afterLabel
  }

  /** The first `k` iterations of `process_first`'s loop. */
  function FirstSteps(st: AsmState, instrs: seq<AssemblerInstruction>): AsmState
  {
    if instrs == [] then st
    else FirstStep(FirstSteps(st, instrs[..|instrs| - 1]), instrs[|instrs| - 1])
  }

  /** `process_first`. */
  function FirstPass(st: AsmState, instrs: seq<AssemblerInstruction>): AsmState {
    FirstSteps(st, instrs).(phase := Second)
  }

  /** `process_second`: the state after its directives, and the program bytes
      (or the process exiting). */
  function SecondPass(st: AsmState, instrs: seq<AssemblerInstruction>, realBytes: F64 -> Bytes8): (AsmState, Emit)
  {
    if instrs == [] then (st, Emitted([]))
    else
      var (before, program) := SecondPass(st, instrs[..|instrs| - 1], realBytes);
      var i := instrs[|instrs| - 1];
      if program.Exit? then (before, Exit)
      else
        var encoded := if IsOpcode(i) then Encode(i, before.symbols, realBytes) else Emitted([]);
        match encoded
        case Exit => (before, Exit)
        case Emitted(bytes) =>
          (if IsDirective(i) then DirectiveStep(before, i) else before, Emitted(program.bytes + bytes))
  }

  /** `assemble` on the outcome of parsing the source: the parse error, the
      first pass's errors, a missing section, or header ++ read-only ++
      program. The read-only bytes are moved into the output. */
  function Assembly(st: AsmState, parsed: Result<seq<AssemblerInstruction>, string>, realBytes: F64 -> Bytes8): (AsmState, Outcome)
  {
    match parsed
    case Err(message) =>
      var failed := st.(errors := st.errors + [ParseError(message)]);
      (failed, Failed(failed.errors))
    case Ok(instrs) =>
      var first := FirstPass(st, instrs);
      if first.errors != [] then (first, Failed(first.errors))
      else if |first.sections| != 2 then
        var failed := first.(errors := first.errors + [MissingSection]);
        (failed, Failed(failed.errors))
      else
        var (second, program) := SecondPass(first, instrs, realBytes);
        match program
        case Exit => (second, Exited)
        case Emitted(body) =>
          (second.(readonly := []), Assembled(Header(|second.readonly|) + second.readonly + body))
  }

  /** No two symbols share a name. */
  predicate UniqueNames(syms: seq<Symbol>) {
    forall a, b :: 0 <= a < b < |syms| ==> syms[a].name != syms[b].name
  }

  /** Setting offsets keeps every symbol's name where it was. */
  lemma SetOffsetsKeepsUnique(syms: seq<Symbol>, name: string, offset: u32)
    requires UniqueNames(syms)
    ensures UniqueNames(SetOffsets(syms, name, offset))
  {
    var r := SetOffsets(syms, name, offset);
    assert forall k :: 0 <= k < |syms| ==> r[k].name == syms[k].name;
  }

  /** One line of the first pass never gives two symbols the same name: a
      declared name is added only when it is not yet in the table. */
  lemma FirstStepKeepsUnique(st: AsmState, i: AssemblerInstruction)
    requires UniqueNames(st.symbols)
    ensures UniqueNames(FirstStep(st, i).symbols)
  {
    var afterLabel :=
      if !IsLabel(i) then st
      else if st.current.Some? then LabelDeclStep(st, i)
      else st.(errors := st.errors + [NoSectionDecl]);
    assert UniqueNames(afterLabel.symbols);
    if IsDirective(i) && DirectiveName(i).Some? && HasOperands(i) && DirectiveName(i).value == "str"
       && afterLabel.phase == First && StringConstant(i).Some? && LabelName(i).Some? {
      SetOffsetsKeepsUnique(afterLabel.symbols, LabelName(i).value, U32(|afterLabel.readonly|));
    }
  }

  /** The first pass keeps the symbol table free of duplicate names. */
  lemma {:induction false} FirstStepsKeepUnique(st: AsmState, instrs: seq<AssemblerInstruction>)
    requires UniqueNames(st.symbols)
    ensures UniqueNames(FirstSteps(st, instrs).symbols)
  {
    if instrs != [] {
      FirstStepsKeepUnique(st, instrs[..|instrs| - 1]);
      FirstStepKeepsUnique(FirstSteps(st, instrs[..|instrs| - 1]), instrs[|instrs| - 1]);
    }
  }

  /** A directive only ever appends errors. */
  lemma DirectiveAppendsErrors(st: AsmState, i: AssemblerInstruction)
    ensures |st.errors| <= |DirectiveStep(st, i).errors|
    ensures DirectiveStep(st, i).errors[..|st.errors|] == st.errors
  {
  }

  /** A label line before any section header records `NoSectionDecl` and
      adds no symbol. */
  lemma LabelOutsideSection(st: AsmState, i: AssemblerInstruction)
    requires st.current.None? && IsLabel(i)
    ensures |FirstStep(st, i).errors| > |st.errors|
    ensures FirstStep(st, i).errors[|st.errors|] == NoSectionDecl
    ensures !IsDirective(i) ==> FirstStep(st, i).symbols == st.symbols
  {
    var afterLabel := st.(errors := st.errors + [NoSectionDecl]);
    DirectiveAppendsErrors(afterLabel, i);
  }

  /** A label declared inside a section is in the table after its line,
      whether it was new or already there. */
  lemma LabelRecorded(st: AsmState, i: AssemblerInstruction)
    requires st.current.Some? && LabelName(i).Some?
    ensures HasName(FirstStep(st, i).symbols, LabelName(i).value)
  {
    var name := LabelName(i).value;
    var afterLabel := LabelDeclStep(st, i);
    if !HasName(st.symbols, name) {
      var syms := afterLabel.symbols;
      assert syms[|syms| - 1].name == name;
    }
    assert HasName(afterLabel.symbols, name);
    if IsDirective(i) && DirectiveName(i).Some? && HasOperands(i) && DirectiveName(i).value == "str"
       && afterLabel.phase == First && StringConstant(i).Some? {
      SetOffsetKeepsNames(afterLabel.symbols, name, U32(|afterLabel.readonly|), name);
    }
  }

  /** `name: .str 'text'` inside a section in the first phase, with `name`
      new: `name` is bound to the read-only length before the line, and the
      text's UTF-8 bytes and a zero are appended to the read-only section. */
  lemma StrDeclaresConstant(st: AsmState, name: string, text: string)
    requires st.phase == First && st.current.Some? && !HasName(st.symbols, name)
    ensures var i := AssemblerInstruction(Some(LabelDecl(name)), Some(Directive("str")), None,
                                          Some(DoString(text)), None, None);
      && ValueOf(FirstStep(st, i).symbols, name) == Some(U32(|st.readonly|))
      && FirstStep(st, i).readonly == st.readonly + Utf8.Encode(text) + [0]
      && FirstStep(st, i).errors == st.errors
  {
    ValueAfterAddAndSetOffset(st.symbols, name, U32(|st.readonly|));
  }

  /** A `.str` line without a label records `UnlabeledString`, one whose
      operand is not a string records `EmptyString`, and any other directive
      with operands records `UnknownDirective`; the read-only section is
      unchanged. */
  lemma DirectiveErrors(st: AsmState, i: AssemblerInstruction, name: string)
    requires st.phase == First && DirectiveName(i) == Some(name) && HasOperands(i)
    ensures name != "str" ==> DirectiveStep(st, i) == st.(errors := st.errors + [UnknownDirective(name)])
    ensures name == "str" && StringConstant(i).None? ==>
      DirectiveStep(st, i) == st.(errors := st.errors + [EmptyString])
    ensures name == "str" && StringConstant(i).Some? && LabelName(i).None? ==>
      DirectiveStep(st, i) == st.(errors := st.errors + [UnlabeledString])
  {
  }

  /** Sections and the current section are only ever `data` or `code`. */
  predicate KnownSections(st: AsmState) {
    (forall k :: 0 <= k < |st.sections| ==> !st.sections[k].Unknown?) &&
    (st.current.Some? ==> !st.current.value.Unknown?)
  }

  lemma DirectiveKeepsSectionsKnown(st: AsmState, i: AssemblerInstruction)
    requires KnownSections(st)
    ensures KnownSections(DirectiveStep(st, i))
  {
  }

  /** The first pass records only known sections. */
  lemma {:induction false} FirstStepsKeepSectionsKnown(st: AsmState, instrs: seq<AssemblerInstruction>)
    requires KnownSections(st)
    ensures KnownSections(FirstSteps(st, instrs))
  {
    if instrs != [] {
      var before := FirstSteps(st, instrs[..|instrs| - 1]);
      FirstStepsKeepSectionsKnown(st, instrs[..|instrs| - 1]);
      var i := instrs[|instrs| - 1];
      var afterLabel :=
        if !IsLabel(i) then before
        else if before.current.Some? then LabelDeclStep(before, i)
        else before.(errors := before.errors + [NoSectionDecl]);
      DirectiveKeepsSectionsKnown(afterLabel, i);
    }
  }

  /** In the second phase a directive leaves the symbol table and the
      read-only section alone: `.str` does nothing then. */
  lemma DirectiveInSecondPhase(st: AsmState, i: AssemblerInstruction)
    requires st.phase == Second
    ensures DirectiveStep(st, i).symbols == st.symbols
    ensures DirectiveStep(st, i).readonly == st.readonly
    ensures DirectiveStep(st, i).phase == Second
  {
  }

  /** The second pass changes neither the symbol table nor the read-only
      section, so every line is encoded against the table the first pass built. */
  lemma {:induction false} SecondPassKeepsData(st: AsmState, instrs: seq<AssemblerInstruction>, realBytes: F64 -> Bytes8)
    requires st.phase == Second
    ensures SecondPass(st, instrs, realBytes).0.symbols == st.symbols
    ensures SecondPass(st, instrs, realBytes).0.readonly == st.readonly
    ensures SecondPass(st, instrs, realBytes).0.phase == Second
  {
    if instrs != [] {
      SecondPassKeepsData(st, instrs[..|instrs| - 1], realBytes);
      var before := SecondPass(st, instrs[..|instrs| - 1], realBytes).0;
      DirectiveInSecondPhase(before, instrs[|instrs| - 1]);
    }
  }

  /** Assembly succeeds only when the first pass found no error and exactly
      two sections; its output is then the header for the read-only section
      the first pass built, that section, and the program bytes. */
  lemma AssembledLayout(st: AsmState, instrs: seq<AssemblerInstruction>, realBytes: F64 -> Bytes8)
    requires Assembly(st, Ok(instrs), realBytes).1.Assembled?
    ensures var first := FirstPass(st, instrs);
      var bytes := Assembly(st, Ok(instrs), realBytes).1.bytes;
      && first.errors == [] && |first.sections| == 2
      && |bytes| >= DO_HEADER_LEN + |first.readonly|
      && bytes[..4] == DO_HEADER_PREFIX
      && BigEndian(bytes[4..8]) == |first.readonly| % 0x1_0000_0000
      && bytes[DO_HEADER_LEN..DO_HEADER_LEN + |first.readonly|] == first.readonly
      && SecondPass(first, instrs, realBytes).1 ==
           Emitted(bytes[DO_HEADER_LEN + |first.readonly|..])
  {
    var first := FirstPass(st, instrs);
    SecondPassKeepsData(first, instrs, realBytes);
    var (second, program) := SecondPass(first, instrs, realBytes);
    var h := Header(|second.readonly|);
    var bytes := h + second.readonly + program.bytes;
    assert bytes[..4] == h[..4];
    assert bytes[4..8] == h[4..8];
    assert bytes[DO_HEADER_LEN..DO_HEADER_LEN + |first.readonly|] == first.readonly;
    assert bytes[DO_HEADER_LEN + |first.readonly|..] == program.bytes;
  }

  /** The ways assembly fails: a parse error, then the first pass's errors,
      then a section count other than two (`MissingSection`). */
  lemma AssemblyFailures(st: AsmState, parsed: Result<seq<AssemblerInstruction>, string>, realBytes: F64 -> Bytes8)
    ensures parsed.Err? ==> Assembly(st, parsed, realBytes).1 == Failed(st.errors + [ParseError(parsed.error)])
    ensures parsed.Ok? && FirstPass(st, parsed.value).errors != [] ==>
      Assembly(st, parsed, realBytes).1 == Failed(FirstPass(st, parsed.value).errors)
    ensures parsed.Ok? && FirstPass(st, parsed.value).errors == [] && |FirstPass(st, parsed.value).sections| != 2 ==>
      Assembly(st, parsed, realBytes).1 == Failed([MissingSection])
    ensures Assembly(st, parsed, realBytes).1.Failed? ==> Assembly(st, parsed, realBytes).1.errors != []
  {
  }

  /** `test: .str 'Hello'` as the first constant of the data section gives a
      six-byte read-only section, so the header's length field is 0, 0, 0, 6. */
  lemma HelloExample(st: AsmState, text: string)
    requires st.phase == First && st.current.Some? && st.readonly == [] && !HasName(st.symbols, "test")
    requires text == "Hello"
    ensures var i := AssemblerInstruction(Some(LabelDecl("test")), Some(Directive("str")), None,
                                          Some(DoString(text)), None, None);
      var ro := FirstStep(st, i).readonly;
      && |ro| == 6 && ro[5] == 0
      && Header(|ro|)[4..8] == [0, 0, 0, 6]
  {
    StrDeclaresConstant(st, "test", text);
    Utf8.EncodeAscii(text);
    LengthBytes(6);
    assert Header(6)[4..8] == ToBigEndian(6, 4);
  }

  /** `Assembler`: the symbol table object and the fields the passes update. */
  class Assembler {
    const symbols: Table
    var readonly: seq<u8>
    var phase: Phase
    var sections: seq<Section>
    var current: Option<Section>
    var errors: seq<AsmError>

    function State(): AsmState
      reads this, symbols
    {
      AsmState(symbols.symbols, readonly, phase, sections, current, errors)
    }

    /** `Assembler::new`. */
    constructor ()
      ensures State() == Initial
      ensures fresh(symbols)
    {
      symbols := new Table();
      readonly := [];
      phase := First;
      sections := [];
      current := None;
      errors := [];
    }

    /** `process_label_decl`. */
    method ProcessLabelDecl(i: AssemblerInstruction)
      modifies this, symbols
      ensures State() == LabelDeclStep(old(State()), i)
    {
      var name;
      match LabelName(i) {
        case None =>
          errors := errors + [StringConstantWithoutLabel(i)];
          return;
        case Some(n) =>
          name := n;
      }
      if symbols.Has(name) {
        errors := errors + [SymbolAlreadyDeclared(name)];
        return;
      }
      symbols.Add(NewSymbol(name, Label));
    }

    /** `process_section_header`. */
    method ProcessSectionHeader(name: string)
      modifies this
      ensures State() == SectionHeaderStep(old(State()), name)
    {
      var section := SectionFrom(name);
      if section == Unknown {
        errors := errors + [UnknownSection(name)];
        return;
      }
      sections := sections + [section];
      current := Some(section);
    }

    /** `handle_str`: the bytes are pushed one at a time, then the zero. */
    method HandleStr(i: AssemblerInstruction)
      modifies this, symbols
      ensures State() == StrStep(old(State()), i)
    {
      if phase != First {
        return;
      }
      match StringConstant(i) {
        case Some(s) =>
          var name;
          match LabelName(i) {
            case Some(n) =>
              name := n;
            case None =>
              errors := errors + [UnlabeledString];
              return;
          }
          symbols.SetOffset(name, U32(|readonly|));
          var bytes := Utf8.Encode(s);
          for k := 0 to |bytes|
            modifies this
            invariant readonly == old(readonly) + bytes[..k]
            invariant phase == old(phase) && errors == old(errors)
            invariant sections == old(sections) && current == old(current)
          {
            readonly := readonly + [bytes[k]];
          }
          assert bytes[..|bytes|] == bytes;
          readonly := readonly + [0];
        case None =>
          errors := errors + [EmptyString];
      }
    }

    /** `process_directive`. */
    method ProcessDirective(i: AssemblerInstruction)
      modifies this, symbols
      ensures State() == DirectiveStep(old(State()), i)
    {
      var name;
      match DirectiveName(i) {
        case None =>
          errors := errors + [InvalidDirectiveName(i)];
          return;
        case Some(n) =>
          name := n;
      }
      if HasOperands(i) {
        if name == "str" {
          HandleStr(i);
        } else {
          errors := errors + [UnknownDirective(name)];
        }
      } else {
        ProcessSectionHeader(name);
      }
    }

    /** `process_first`: every label and directive line in order, then the
        second phase begins. */
    method ProcessFirst(instrs: seq<AssemblerInstruction>)
      modifies this, symbols
      ensures State() == FirstPass(old(State()), instrs)
    {
      for k := 0 to |instrs|
        invariant State() == FirstSteps(old(State()), instrs[..k])
      {
        var i := instrs[k];
        assert instrs[..k + 1][..k] == instrs[..k];
        if IsLabel(i) {
          if current.Some? {
            ProcessLabelDecl(i);
          } else {
            errors := errors + [NoSectionDecl];
          }
        }
        if IsDirective(i) {
          ProcessDirective(i);
        }
      }
      assert instrs[..|instrs|] == instrs;
      phase := Second;
    }

    /** `process_second`: the bytes of every opcode line in order, the
        directives processed again; a label `to_bytes` cannot resolve ends
        the process. */
    method ProcessSecond(instrs: seq<AssemblerInstruction>, realBytes: F64 -> Bytes8) returns (r: Emit)
      modifies this, symbols
      ensures (State(), r) == SecondPass(old(State()), instrs, realBytes)
    {
      var program := [];
      for k := 0 to |instrs|
        invariant (State(), Emitted(program)) == SecondPass(old(State()), instrs[..k], realBytes)
      {
        var i := instrs[k];
        assert instrs[..k + 1][..k] == instrs[..k];
        if IsOpcode(i) {
          var bytes := ToBytes(i, symbols, realBytes);
          if bytes.Exit? {
            assert SecondPass(old(State()), instrs[..k + 1], realBytes) == (State(), Exit);
            ExitRemains(old(State()), instrs, k + 1, realBytes);
            return Exit;
          }
          program := program + bytes.bytes;
        } else {
          assert program + [] == program;
        }
        if IsDirective(i) {
          ProcessDirective(i);
        }
      }
      assert instrs[..|instrs|] == instrs;
      return Emitted(program);
    }

    /** `write_header`. */
    method WriteHeader() returns (header: seq<u8>)
      ensures header == Header(|readonly|)
    {
      header := [];
      for k := 0 to |DO_HEADER_PREFIX|
        invariant header == DO_HEADER_PREFIX[..k]
      {
        header := header + [DO_HEADER_PREFIX[k]];
      }
      var roLength := U32(|readonly|);
      header := header + [(roLength / 0x100_0000) % 256];
      header := header + [(roLength / 0x1_0000) % 256];
      header := header + [(roLength / 0x100) % 256];
      header := header + [roLength % 256];
      LengthBytes(roLength);
      assert DO_HEADER_PREFIX[..|DO_HEADER_PREFIX|] == DO_HEADER_PREFIX;
      assert header[..8] == DO_HEADER_PREFIX + ToBigEndian(roLength, 4);
      while |header| < DO_HEADER_LEN
        invariant 8 <= |header| <= DO_HEADER_LEN
        invariant header[..8] == DO_HEADER_PREFIX + ToBigEndian(roLength, 4)
        invariant forall k :: 8 <= k < |header| ==> header[k] == 0
        decreases DO_HEADER_LEN - |header|
      {
        header := header + [0];
      }
      assert header == Header(|readonly|);
    }

    /** `assemble`, given what the parser made of the source. */
    method Assemble(parsed: Result<seq<AssemblerInstruction>, string>, realBytes: F64 -> Bytes8) returns (r: Outcome)
      modifies this, symbols
      ensures (State(), r) == Assembly(old(State()), parsed, realBytes)
    {
      match parsed {
        case Ok(instrs) =>
          ProcessFirst(instrs);
          if errors != [] {
            return Failed(errors);
          }
          if |sections| != 2 {
            errors := errors + [MissingSection];
            return Failed(errors);
          }
          var body := ProcessSecond(instrs, realBytes);
          if body.Exit? {
            return Exited;
          }
          var assembled := WriteHeader();
          assembled := assembled + readonly;
          readonly := [];
          assembled := assembled + body.bytes;
          return Assembled(assembled);
        case Err(message) =>
          errors := errors + [ParseError(message)];
          return Failed(errors);
      }
    }
  }

  /** Once the second pass has exited it stays exited, whatever follows. */
  lemma {:induction false} ExitRemains(st: AsmState, instrs: seq<AssemblerInstruction>, k: nat, realBytes: F64 -> Bytes8)
    requires k <= |instrs| && SecondPass(st, instrs[..k], realBytes).1.Exit?
    ensures SecondPass(st, instrs, realBytes) == SecondPass(st, instrs[..k], realBytes)
    decreases |instrs| - k
  {
    if k < |instrs| {
      assert instrs[..k + 1][..k] == instrs[..k];
      ExitRemains(st, instrs, k + 1, realBytes);
    } else {
      assert instrs[..k] == instrs;
    }
  }

  /** The shifts `write_header` uses give the big-endian bytes of a 32-bit length. */
  lemma LengthBytes(n: nat)
    requires n < 0x1_0000_0000
    ensures Pow256(4) == 0x1_0000_0000
    ensures ToBigEndian(n, 4) == [(n / 0x100_0000) % 256, (n / 0x1_0000) % 256, (n / 0x100) % 256, n % 256]
  {
    assert Pow256(4) == 0x1_0000_0000;
    assert ToBigEndian(n, 4) == ToBigEndian(n / 256, 3) + [n % 256];
    assert ToBigEndian(n / 256, 3) == ToBigEndian(n / 256 / 256, 2) + [n / 256 % 256];
    assert ToBigEndian(n / 256 / 256, 2) == ToBigEndian(n / 256 / 256 / 256, 1) + [n / 256 / 256 % 256];
    assert ToBigEndian(n / 256 / 256 / 256, 1) == [n / 256 / 256 / 256 % 256];
  }
}
