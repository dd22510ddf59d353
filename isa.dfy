/** The am4 instruction set: the operation kinds and their opcode bytes.
    The assembler's enum (assembler/src/parser.h) and the machine's enum
    (vm/src/vm.h) agree on every shared kind; the assembler adds two parse-time
    kinds (label, ident) and the machine adds the two print operations. */
module Isa {

  import opened Wrappers

  datatype InstructionKind =
    | InstructionNoop
    | InstructionJmp
    | InstructionJEQZ
    | InstructionPush
    | InstructionAdd
    | InstructionSub
    | InstructionMul
    | InstructionEq
    | InstructionLt
    | InstructionLe
    | InstructionGt
    | InstructionGe
    | InstructionLAnd
    | InstructionLOr
    | InstructionLNeg
    | InstructionFetch
    | InstructionStore
    | InstructionLabel
    | InstructionIdent
    | InstructionPrintC
    | InstructionPrintV
  {
    /** The enumerator's numeric value, which is the opcode byte. */
    function Code(): (c: nat)
      ensures c < 256
    {
      match this
      case InstructionNoop => 0x00
      case InstructionJmp => 0x01
      case InstructionJEQZ => 0x02
      case InstructionPush => 0x10
      case InstructionAdd => 0x20
      case InstructionSub => 0x30
      case InstructionMul => 0x40
      case InstructionEq => 0xa0
      case InstructionLt => 0xa1
      case InstructionLe => 0xa2
      case InstructionGt => 0xa3
      case InstructionGe => 0xa4
      case InstructionLAnd => 0xaa
      case InstructionLOr => 0xab
      case InstructionLNeg => 0xb0
      case InstructionFetch => 0xc0
      case InstructionStore => 0xc1
      case InstructionLabel => 0xc2
      case InstructionIdent => 0xc3
      case InstructionPrintC => 0xd0
      case InstructionPrintV => 0xd1
    }
  }

  /** No two kinds share an opcode byte, so the byte identifies the kind. */
  lemma CodeInjective(a: InstructionKind, b: InstructionKind)
    ensures a.Code() == b.Code() <==> a == b
  {
  }

  /** The machine's view of an opcode byte: the kinds that vm/src/vm.h names.
      The assembler-only kinds (label, ident) are unknown to the machine. */
  function MachineKind(opcode: nat): (k: Option<InstructionKind>)
    ensures k.Some? ==> k.value.Code() == opcode
    ensures k.Some? ==> k.value != InstructionLabel && k.value != InstructionIdent
  {
    if opcode == 0x00 then Some(InstructionNoop)
    else if opcode == 0x01 then Some(InstructionJmp)
    else if opcode == 0x02 then Some(InstructionJEQZ)
    else if opcode == 0x10 then Some(InstructionPush)
    else if opcode == 0x20 then Some(InstructionAdd)
    else if opcode == 0x30 then Some(InstructionSub)
    else if opcode == 0x40 then Some(InstructionMul)
    else if opcode == 0xa0 then Some(InstructionEq)
    else if opcode == 0xa1 then Some(InstructionLt)
    else if opcode == 0xa2 then Some(InstructionLe)
    else if opcode == 0xa3 then Some(InstructionGt)
    else if opcode == 0xa4 then Some(InstructionGe)
    else if opcode == 0xaa then Some(InstructionLAnd)
    else if opcode == 0xab then Some(InstructionLOr)
    else if opcode == 0xb0 then Some(InstructionLNeg)
    else if opcode == 0xc0 then Some(InstructionFetch)
    else if opcode == 0xc1 then Some(InstructionStore)
    else if opcode == 0xd0 then Some(InstructionPrintC)
    else if opcode == 0xd1 then Some(InstructionPrintV)
    else None
  }

  /** Every kind the machine names is recognised from its own opcode byte. */
  lemma MachineKindOfCode(k: InstructionKind)
    requires k != InstructionLabel && k != InstructionIdent
    ensures MachineKind(k.Code()) == Some(k)
  {
  }
}
