/** The assembler's output as the machine reads it back: the loader of
    vm/src/binary.c over the words of a binary file, and the instruction
    word's two fields as the encoder writes them and the machine decodes
    them. */
module Toolchain {

  import opened Wrappers
  import opened Words
  import opened AsmValue
  import opened Isa
  import opened AsmParser
  import opened AsmEncoder
  import opened Vm

  /** What read_binary_file fills in: the start of the text section, the
      number of words after the header, and those words. */
  datatype LoadedFile = LoadedFile(startAddr: word, totalSize: word, memory: seq<word>)

  /** read_binary_file on the words of a file: the first header word is the
      start address, the second the number of words to read into a
      zero-filled array of that size. A short file leaves zeros: a missing
      header word reads as 0 and missing words stay 0. */
  function Load(file: seq<word>): (f: LoadedFile)
    ensures |f.memory| == f.totalSize
    ensures |file| >= 2 ==> f.startAddr == file[0] && f.totalSize == file[1]
  {
    var startAddr := if |file| > 0 then file[0] else 0;
    var totalSize := if |file| > 1 then file[1] else 0;
    LoadedFile(startAddr, totalSize, seq(totalSize, k => if 0 <= k < |file| - 2 then file[2 + k] else 0))
  }

  /** A file holding exactly its header and the words it announces loads as
      those words. */
  lemma LoadExact(file: seq<word>)
    requires |file| >= 2 && file[1] == |file| - 2
    ensures Load(file) == LoadedFile(file[0], file[1], file[2..])
  {
    assert Load(file).memory == file[2..];
  }

  /** An instruction word decodes to its kind's opcode byte, and to its
      operand exactly when the operand is in the signed 24-bit range; any
      other operand comes back changed by a multiple of 2^24. */
  lemma DecodeEncode(k: InstructionKind, v: int)
    ensures Decode(EncodeWord(k, v)).0 == k.Code()
    ensures Decode(EncodeWord(k, v)).1 == v <==> -Two23 <= v < Two23
    ensures (Decode(EncodeWord(k, v)).1 - v) % Two24 == 0
  {
    SignExtendLow24(v);
  }

  /** An operand from 2^23 up to 2^24 reads back 2^24 lower: 2^23 comes
      back as -2^23 and 2^24 - 1 as -1. */
  lemma OperandWraps(k: InstructionKind, v: int)
    requires Two23 <= v < Two24
    ensures Decode(EncodeWord(k, v)) == (k.Code(), v - Two24)
  {
    assert Low24(v) == v;
  }

  /** A generated binary loads with pc at the first instruction, the total
      size covering data and text, and the memory holding a zero word per
      identifier followed by the text section. */
  lemma LoadImage(ins: seq<Instruction>, labels: LabelMap, idents: IdentMap)
    requires Image(ins, labels, idents).Ok?
    requires |ins| + |idents| < Two32
    ensures TextSection(ins, labels, idents).Ok?
    ensures Load(Image(ins, labels, idents).value) ==
      LoadedFile(|idents|, |idents| + |ins|, Zeros(|idents|) + TextSection(ins, labels, idents).value)
  {
    var text := TextSection(ins, labels, idents).value;
    TextSectionLength(ins, labels, idents);
    var d, n := |idents|, |ins|;
    var header, body := Header(n, d), Zeros(d) + text;
    assert Image(ins, labels, idents) == Ok(header + Zeros(d) + text);
    assert header + Zeros(d) + text == header + body;
    hide Image, TextSection;
    assert |header| == 2 && header[0] == d && header[1] == n + d;
    assert (header + body)[2..] == body;
    LoadExact(header + body);
  }

  /** Each text word decodes to its instruction's opcode byte and, in the
      signed 24-bit range, to its resolved operand. */
  lemma DecodeText(ins: seq<Instruction>, labels: LabelMap, idents: IdentMap, k: nat)
    requires TextSection(ins, labels, idents).Ok? && k < |ins|
    ensures |TextSection(ins, labels, idents).value| == |ins|
    ensures GetValueAsInt(ins[k], labels, idents).Ok?
    ensures var w := TextSection(ins, labels, idents).value[k];
      var v := GetValueAsInt(ins[k], labels, idents).value;
      Decode(w).0 == ins[k].kind.Code() && (-Two23 <= v < Two23 ==> Decode(w).1 == v)
  {
    TextSectionWords(ins, labels, idents);
    DecodeEncode(ins[k].kind, GetValueAsInt(ins[k], labels, idents).value);
  }

  /** A label operand resolves to the memory address of the labelled
      instruction once loaded: the label's index past the data section. */
  lemma LabelAddress(ins: seq<Instruction>, labels: LabelMap, idents: IdentMap, k: nat, name: string)
    requires Image(ins, labels, idents).Ok?
    requires |ins| + |idents| < Two31
    requires k < |ins| && ins[k].value == StringValue(name) && !TakesIdentifier(ins[k].kind)
    requires name in labels && 0 <= labels[name] < |ins|
    ensures var f := Load(Image(ins, labels, idents).value);
      GetValueAsInt(ins[k], labels, idents) == Ok(|idents| + labels[name]) &&
      f.startAddr <= |idents| + labels[name] < f.totalSize
  {
    LoadImage(ins, labels, idents);
    GetValueAsIntLabel(ins[k], labels, idents);
  }
}
