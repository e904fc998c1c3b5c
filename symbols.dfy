/** The assembler's symbol table (src/asm/symbols.rs): a list of symbols, each
    with an optional offset, searched by name. */
module Symbols {
  import opened Wrappers

  /** A Rust `u32`. */
  type u32 = x: int | 0 <= x < 0x1_0000_0000

  datatype SymbolType = Label | Integer | IrString

  datatype Symbol = Symbol(name: string, symbolType: SymbolType, offset: Option<u32>)

  /** `Symbol::new`: a symbol without an offset. */
  function NewSymbol(name: string, symbolType: SymbolType): (s: Symbol)
    ensures s.name == name && s.symbolType == symbolType && s.offset.None?
  {
    Symbol(name, symbolType, None)
  }

  /** `Symbol::set_offset`. */
  function WithOffset(s: Symbol, offset: u32): (t: Symbol)
    ensures t.name == s.name && t.symbolType == s.symbolType && t.offset == Some(offset)
  {
    s.(offset := Some(offset))
  }

  /** Index of the first symbol called `name`, if any. */
  function Find(syms: seq<Symbol>, name: string): (r: Option<nat>)
    ensures r.Some? ==> (r.value < |syms| && syms[r.value].name == name &&
                         forall j :: 0 <= j < r.value ==> syms[j].name != name)
    ensures r.None? ==> forall j :: 0 <= j < |syms| ==> syms[j].name != name
  {
    if syms == [] then None
    else if syms[0].name == name then Some(0)
    else match Find(syms[1..], name)
      case Some(i) => Some(i + 1)
      case None => None
  }

  /** `Table::has` on the list of symbols. */
  predicate HasName(syms: seq<Symbol>, name: string) {
    Find(syms, name).Some?
  }

  /** `Table::value` on the list of symbols: the first match's offset. */
  function ValueOf(syms: seq<Symbol>, name: string): (r: Option<u32>)
    ensures r.Some? ==> exists i :: 0 <= i < |syms| && syms[i].name == name && syms[i].offset == r
    ensures !HasName(syms, name) ==> r.None?
    ensures HasName(syms, name) ==> r == syms[Find(syms, name).value].offset
  {
    match Find(syms, name)
    case Some(i) => syms[i].offset
    case None => None
  }

  /** `Table::set_offset` on the list of symbols: every symbol called `name`
      gets the offset, and nothing else changes. */
  function SetOffsets(syms: seq<Symbol>, name: string, offset: u32): (r: seq<Symbol>)
    ensures |r| == |syms|
    ensures forall i :: 0 <= i < |syms| ==>
      r[i] == if syms[i].name == name then WithOffset(syms[i], offset) else syms[i]
  {
    if syms == [] then []
    else
      var first := if syms[0].name == name then WithOffset(syms[0], offset) else syms[0];
      [first] + SetOffsets(syms[1..], name, offset)
  }

  class Table {
    var symbols: seq<Symbol>

    /** `Table::new`. */
    constructor ()
      ensures symbols == []
    {
      symbols := [];
    }

    /** `Table::add`: appends, leaving the existing symbols untouched. */
    method Add(s: Symbol)
      modifies this
      ensures symbols == old(symbols) + [s]
    {
      symbols := symbols + [s];
    }

    /** `Table::has`: some symbol has the name. */
    function Has(name: string): (b: bool)
      reads this
      ensures b <==> exists i :: 0 <= i < |symbols| && symbols[i].name == name
    {
      HasName(symbols, name)
    }

    /** `Table::value`: the first symbol with the name gives the answer. */
    function Value(name: string): (r: Option<u32>)
      reads this
      ensures r.Some? ==> exists i :: (0 <= i < |symbols| && symbols[i].name == name &&
                                       symbols[i].offset == r &&
                                       forall j :: 0 <= j < i ==> symbols[j].name != name)
      ensures (forall i :: 0 <= i < |symbols| ==> symbols[i].name != name) ==> r.None?
      ensures forall i :: 0 <= i < |symbols| && symbols[i].name == name &&
                          (forall j :: 0 <= j < i ==> symbols[j].name != name) ==>
                          r == symbols[i].offset
    {
      ValueOf(symbols, name)
    }

    /** `Table::set_offset`: a loop over the symbols updating those with the name. */
    method SetOffset(name: string, offset: u32)
      modifies this
      ensures symbols == SetOffsets(old(symbols), name, offset)
    {
      var i := 0;
      while i < |symbols|
        invariant 0 <= i <= |symbols| == |old(symbols)|
        invariant forall j :: 0 <= j < |symbols| ==>
          symbols[j] == if j < i && old(symbols)[j].name == name
            then WithOffset(old(symbols)[j], offset) else old(symbols)[j]
      {
        if symbols[i].name == name {
          symbols := symbols[i := WithOffset(symbols[i], offset)];
        }
        i := i + 1;
      }
    }
  }

  /** Setting the offset of a name no symbol has changes nothing. */
  lemma SetOffsetUnknownName(syms: seq<Symbol>, name: string, offset: u32)
    requires !HasName(syms, name)
    ensures SetOffsets(syms, name, offset) == syms
  {
  }

  /** Setting an offset keeps every name, so `has` is unaffected. */
  lemma {:induction false} SetOffsetKeepsNames(syms: seq<Symbol>, name: string, offset: u32, other: string)
    ensures HasName(SetOffsets(syms, name, offset), other) == HasName(syms, other)
  {
    if syms != [] {
      var r := SetOffsets(syms, name, offset);
      assert r[1..] == SetOffsets(syms[1..], name, offset);
      SetOffsetKeepsNames(syms[1..], name, offset, other);
    }
  }

  /** After adding a fresh label and setting its offset, looking it up gives that offset. */
  lemma {:induction false} ValueAfterAddAndSetOffset(syms: seq<Symbol>, name: string, offset: u32)
    requires !HasName(syms, name)
    ensures ValueOf(SetOffsets(syms + [NewSymbol(name, Label)], name, offset), name) == Some(offset)
  {
    var all := syms + [NewSymbol(name, Label)];
    var r := SetOffsets(all, name, offset);
    FindLast(r, name);
  }

  /** A name whose only occurrence is the last symbol is found there. */
  lemma {:induction false} FindLast(syms: seq<Symbol>, name: string)
    requires |syms| > 0 && syms[|syms| - 1].name == name
    requires forall j :: 0 <= j < |syms| - 1 ==> syms[j].name != name
    ensures Find(syms, name) == Some(|syms| - 1)
  {
    if |syms| > 1 {
      FindLast(syms[1..], name);
    }
  }
}
