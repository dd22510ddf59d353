/** The assembler's back end (assembler/src/code_generation.c): lays out an
    am4 binary as a header of two words, one zero word per identifier (the
    data section) and one word per instruction (the text section). */
module AsmEncoder {

  import opened Wrappers
  import opened Words
  import opened AsmValue
  import opened Isa
  import opened AsmParser

  /** The label and identifier maps of assembler/src/parser.h: only their
      interface is part of this model, so each is a finite map from a name to
      an address, and its `len` is the number of names in it. */
  type LabelMap = map<string, int32>
  type IdentMap = map<string, int32>

  /** label_map_get: the label's address, or -1 when it is missing. */
  function LabelGet(labels: LabelMap, name: string): int32
  {
    if name in labels then labels[name] else -1
  }

  /** ident_map_get: the identifier's address, or -1 when it is missing. */
  function IdentGet(idents: IdentMap, name: string): int32
  {
    if name in idents then idents[name] else -1
  }

  /** The result of the parser that code generation consumes. */
  datatype ParseResult = ParseResult(instructions: InstructionVec, labels: LabelMap, idents: IdentMap)

  /** The fatal diagnostics of get_value_as_int. */
  datatype CodeGenError =
    | UnknownIdentifier(name: string)
    | UnknownLabel(name: string)

  /** The operations whose string operand names a variable. */
  predicate TakesIdentifier(k: InstructionKind)
  {
    k == InstructionFetch || k == InstructionStore || k == InstructionPrintV
  }

  /** get_value_as_int: the operand as a number. Identifiers resolve to their
      slot in the data section; labels to their address shifted past it. */
  function GetValueAsInt(ins: Instruction, labels: LabelMap, idents: IdentMap): Result<int32, CodeGenError>
  {
    match ins.value
    case NoneValue => Ok(0)
    case IntValue(n) => Ok(n)
    case BoolValue(b) => Ok(if b then 1 else 0)
    case StringValue(name) =>
      if TakesIdentifier(ins.kind) then
        var slot := IdentGet(idents, name);
        if slot == -1 then Err(UnknownIdentifier(name)) else Ok(slot)
      else
        var address := LabelGet(labels, name);
        if address == -1 then Err(UnknownLabel(name)) else Ok(ToInt32(address + |idents|))
  }

  /** Operands that are not names never fail: none is 0, an integer is
      itself, false is 0 and true is 1. */
  lemma GetValueAsIntLiteral(ins: Instruction, labels: LabelMap, idents: IdentMap)
    requires !ins.value.StringValue?
    ensures GetValueAsInt(ins, labels, idents).Ok?
    ensures var v := GetValueAsInt(ins, labels, idents).value;
      match ins.value
      case IntValue(n) => v == n
      case BoolValue(b) => (v == 1 <==> b) && (v == 0 <==> !b)
      case _ => v == 0
  {
  }

  /** The name operand of fetch, store and printv resolves to the
      identifier's slot, with no offset, exactly when the identifier is known
      (an address of -1 counts as missing). */
  lemma GetValueAsIntIdentifier(ins: Instruction, labels: LabelMap, idents: IdentMap)
    requires ins.value.StringValue? && TakesIdentifier(ins.kind)
    ensures var name := ins.value.text;
      GetValueAsInt(ins, labels, idents) ==
        if name in idents && idents[name] != -1 then Ok(idents[name]) else Err(UnknownIdentifier(name))
  {
  }

  /** Any other name is a label; it resolves to the label's address plus the
      size of the data section, exactly when the label is known. */
  lemma GetValueAsIntLabel(ins: Instruction, labels: LabelMap, idents: IdentMap)
    requires ins.value.StringValue? && !TakesIdentifier(ins.kind)
    ensures var name := ins.value.text;
      GetValueAsInt(ins, labels, idents) ==
        if name in labels && labels[name] != -1 then Ok(ToInt32(labels[name] + |idents|)) else Err(UnknownLabel(name))
  {
  }

  /** `(kind << 24) | (value & 0xFFFFFF)` as an unsigned word: the opcode
      byte on top of the low 24 bits of the operand (the two parts occupy
      disjoint bits, so `|` is `+`). */
  function EncodeWord(kind: InstructionKind, value: int): (w: word)
    ensures w / Two24 == kind.Code() && w % Two24 == Low24(value)
  {
    kind.Code() * Two24 + Low24(value)
  }

  /** The text section of a program, or the first operand that fails to
      resolve. */
  function TextSection(ins: seq<Instruction>, labels: LabelMap, idents: IdentMap): Result<seq<word>, CodeGenError>
    decreases |ins|
  {
    if |ins| == 0 then Ok([])
    else match TextSection(ins[..|ins| - 1], labels, idents)
      case Err(e) => Err(e)
      case Ok(text) =>
        match GetValueAsInt(ins[|ins| - 1], labels, idents)
        case Err(e) => Err(e)
        case Ok(v) => Ok(text + [EncodeWord(ins[|ins| - 1].kind, v)])
  }

  /** The data section: one zero word per identifier. */
  function Zeros(n: nat): (r: seq<word>)
    ensures |r| == n && forall k :: 0 <= k < n ==> r[k] == 0
  {
    seq(n, _ => 0)
  }

  /** The header: where the text section starts and the total size, both
      truncated to 32 bits. */
  function Header(instructionCount: nat, identCount: nat): seq<word>
  {
    [ToWord(identCount), ToWord(instructionCount + identCount)]
  }

  /** The whole binary generate_binary builds from a program and its maps. */
  function Image(ins: seq<Instruction>, labels: LabelMap, idents: IdentMap): Result<seq<word>, CodeGenError>
  {
    match TextSection(ins, labels, idents)
    case Err(e) => Err(e)
    case Ok(text) => Ok(Header(|ins|, |idents|) + Zeros(|idents|) + text)
  }

  /** The text section has one word per instruction. */
  lemma {:induction false} TextSectionLength(ins: seq<Instruction>, labels: LabelMap, idents: IdentMap)
    requires TextSection(ins, labels, idents).Ok?
    ensures |TextSection(ins, labels, idents).value| == |ins|
    decreases |ins|
  {
    if |ins| > 0 {
      TextSectionLength(ins[..|ins| - 1], labels, idents);
    }
  }

  /** The text section has one word per instruction, in order: the opcode
      byte on top and the resolved operand in the low 24 bits. */
  lemma {:induction false} TextSectionWords(ins: seq<Instruction>, labels: LabelMap, idents: IdentMap)
    requires TextSection(ins, labels, idents).Ok?
    ensures var text := TextSection(ins, labels, idents).value;
      |text| == |ins| &&
      forall k :: 0 <= k < |ins| ==>
        GetValueAsInt(ins[k], labels, idents).Ok? &&
        text[k] == EncodeWord(ins[k].kind, GetValueAsInt(ins[k], labels, idents).value)
    decreases |ins|
  {
    if |ins| > 0 {
      var init := ins[..|ins| - 1];
      TextSectionWords(init, labels, idents);
      assert forall k :: 0 <= k < |init| ==> init[k] == ins[k];
    }
  }

  /** The text section fails exactly when some operand fails, and reports
      the first one. */
  lemma {:induction false} TextSectionError(ins: seq<Instruction>, labels: LabelMap, idents: IdentMap) returns (k: nat)
    requires TextSection(ins, labels, idents).Err?
    ensures k < |ins| && GetValueAsInt(ins[k], labels, idents) == Err(TextSection(ins, labels, idents).error)
    ensures forall j :: 0 <= j < k ==> GetValueAsInt(ins[j], labels, idents).Ok?
    decreases |ins|
  {
    var init := ins[..|ins| - 1];
    if TextSection(init, labels, idents).Err? {
      k := TextSectionError(init, labels, idents);
      assert ins[k] == init[k];
      assert forall j :: 0 <= j < k ==> ins[j] == init[j];
    } else {
      k := |ins| - 1;
      TextSectionWords(init, labels, idents);
      assert forall j :: 0 <= j < k ==> ins[j] == init[j];
    }
  }

  /** Conversely, when every operand resolves the text section is built. */
  lemma {:induction false} TextSectionOk(ins: seq<Instruction>, labels: LabelMap, idents: IdentMap)
    requires forall k :: 0 <= k < |ins| ==> GetValueAsInt(ins[k], labels, idents).Ok?
    ensures TextSection(ins, labels, idents).Ok?
    decreases |ins|
  {
    if |ins| > 0 {
      var init := ins[..|ins| - 1];
      assert forall k :: 0 <= k < |init| ==> init[k] == ins[k];
      TextSectionOk(init, labels, idents);
    }
  }

  /** Layout of a generated binary: word 0 is the number of identifiers,
      word 1 that plus the number of instructions, then a zero word per
      identifier and the text section. */
  lemma ImageLayout(ins: seq<Instruction>, labels: LabelMap, idents: IdentMap)
    requires Image(ins, labels, idents).Ok?
    ensures var image := Image(ins, labels, idents).value;
      var d := |idents|;
      |image| == 2 + d + |ins| &&
      image[0] == ToWord(d) && image[1] == ToWord(|ins| + d) &&
      (forall k :: 2 <= k < 2 + d ==> image[k] == 0) &&
      forall k :: 0 <= k < |ins| ==>
        GetValueAsInt(ins[k], labels, idents).Ok? &&
        image[2 + d + k] == EncodeWord(ins[k].kind, GetValueAsInt(ins[k], labels, idents).value)
  {
    TextSectionWords(ins, labels, idents);
    var d := |idents|;
    var text := TextSection(ins, labels, idents).value;
    var front := Header(|ins|, d) + Zeros(d);
    assert Image(ins, labels, idents).value == front + text;
    assert forall k :: 2 <= k < 2 + d ==> front[k] == 0;
    assert forall k :: 0 <= k < |ins| ==> (front + text)[2 + d + k] == text[k];
  }

  /** The growable word buffer of code_generation.c. */
  class Binary {
    var bin: array<word>
    var capacity: nat
    var len: nat

    ghost predicate Valid()
      reads this
    {
      bin.Length == capacity && 1 <= capacity && len <= capacity
    }

    ghost function Words(): seq<word>
      reads this, bin
      requires Valid()
    {
      bin[..len]
    }

    /** binary_new: room for the two header words, nothing written. */
    constructor ()
      ensures Valid() && fresh(bin)
      ensures Words() == [] && capacity == 2
    {
      bin := new word[2];
      capacity := 2;
      len := 0;
    }

    /** write_to_binary: doubles the capacity when full, then appends. */
    method Write(value: word)
      requires Valid()
      modifies this, bin
      ensures Valid() && (bin == old(bin) || fresh(bin))
      ensures Words() == old(Words()) + [value]
      ensures capacity == if old(len) >= old(capacity) then 2 * old(capacity) else old(capacity)
    {
      if len >= capacity {
        var grown := new word[2 * capacity];
        forall j | 0 <= j < len {
          grown[j] := bin[j];
        }
        bin := grown;
        capacity := 2 * capacity;
      }
      bin[len] := value;
      len := len + 1;
    }

    /** create_header */
    method CreateHeader(instructionCount: nat, identCount: nat)
      requires Valid()
      modifies this, bin
      ensures Valid() && (bin == old(bin) || fresh(bin))
      ensures Words() == old(Words()) + Header(instructionCount, identCount)
    {
      Write(ToWord(identCount));
      Write(ToWord(instructionCount + identCount));
    }

    /** setup_data_section: one zero word per identifier. */
    method SetupDataSection(identCount: nat)
      requires Valid()
      modifies this, bin
      ensures Valid() && (bin == old(bin) || fresh(bin))
      ensures Words() == old(Words()) + Zeros(identCount)
    {
      var i := 0;
      while i < identCount
        invariant i <= identCount
        invariant Valid() && (bin == old(bin) || fresh(bin))
        invariant Words() == old(Words()) + Zeros(i)
      {
        Write(0);
        assert Zeros(i) + [0] == Zeros(i + 1);
        i := i + 1;
      }
    }

    /** generate_text_section: one word per instruction, stopping at the
        first operand that does not resolve. */
    method GenerateTextSection(instructions: InstructionVec, labels: LabelMap, idents: IdentMap)
      returns (r: Result<(), CodeGenError>)
      requires Valid() && instructions.Valid()
      modifies this, bin
      ensures Valid() && (bin == old(bin) || fresh(bin))
      ensures var text := TextSection(instructions.Contents(), labels, idents);
        (r.Ok? <==> text.Ok?) &&
        (r.Ok? ==> Words() == old(Words()) + text.value) &&
        (r.Err? ==> r.error == text.error)
    {
      ghost var ins := instructions.Contents();
      ghost var base := Words();
      var i := 0;
      while i < instructions.len
        invariant i <= instructions.len && instructions.Valid()
        invariant ins == instructions.elements[..instructions.len]
        invariant Valid() && (bin == old(bin) || fresh(bin))
        invariant TextSection(ins[..i], labels, idents).Ok?
        invariant Words() == base + TextSection(ins[..i], labels, idents).value
      {
        var instruction := instructions.elements[i];
        assert ins[..i + 1][..i] == ins[..i] && ins[..i + 1][i] == instruction;
        var value := GetValueAsInt(instruction, labels, idents);
        if value.Err? {
          ErrorPersists(ins, i + 1, labels, idents);
          return Err(value.error);
        }
        Write(EncodeWord(instruction.kind, value.value));
        i := i + 1;
      }
      assert ins[..i] == ins;
      r := Ok(());
    }
  }

  /** Once a prefix of the program fails, the whole program fails with the
      same error. */
  lemma {:induction false} ErrorPersists(ins: seq<Instruction>, n: nat, labels: LabelMap, idents: IdentMap)
    requires n <= |ins| && TextSection(ins[..n], labels, idents).Err?
    ensures TextSection(ins, labels, idents) == TextSection(ins[..n], labels, idents)
    decreases |ins| - n
  {
    if n < |ins| {
      assert ins[..n + 1][..n] == ins[..n];
      ErrorPersists(ins, n + 1, labels, idents);
    } else {
      assert ins[..n] == ins;
    }
  }

  /** generate_binary: the header, the data section and the text section,
      written into a fresh buffer. */
  method GenerateBinary(result: ParseResult) returns (r: Result<Binary, CodeGenError>)
    requires result.instructions.Valid()
    ensures var image := Image(result.instructions.Contents(), result.labels, result.idents);
      (r.Ok? <==> image.Ok?) &&
      (r.Ok? ==> fresh(r.value) && r.value.Valid() && r.value.Words() == image.value) &&
      (r.Err? ==> r.error == image.error)
  {
    var binary := new Binary();
    binary.CreateHeader(result.instructions.len, |result.idents|);
    binary.SetupDataSection(|result.idents|);
    var text := binary.GenerateTextSection(result.instructions, result.labels, result.idents);
    if text.Err? {
      return Err(text.error);
    }
    r := Ok(binary);
  }
}
