/** The am4 stack machine (vm/src/vm.c): a program counter over a memory of
    32-bit words and an operand stack of 256 signed 32-bit slots. Each word
    holds an opcode in its top byte and a signed 24-bit operand below it. */
module Vm {

  import opened Wrappers
  import opened Words
  import opened Isa

  const StackSize: nat := 256

  /** The machine's fatal errors. Reading or writing memory outside the
      loaded words is undefined in the C code and is a fault here. */
  datatype Fault =
    | StackOverflow
    | StackUnderflow
    | UnknownOperation(opcode: nat)
    | BadAddress(address: int)

  /** push on the stack's contents. */
  function PushValue(stack: seq<int32>, v: int32): (r: Result<seq<int32>, Fault>)
    ensures r.Ok? <==> |stack| < StackSize
    ensures r.Ok? ==> r.value == stack + [v]
    ensures r.Err? ==> r.error == StackOverflow
  {
    if |stack| >= StackSize then Err(StackOverflow) else Ok(stack + [v])
  }

  /** pop on the stack's contents: the rest and the old top. */
  function PopValue(stack: seq<int32>): (r: Result<(seq<int32>, int32), Fault>)
    ensures r.Ok? <==> |stack| > 0
    ensures r.Ok? ==> r.value.0 + [r.value.1] == stack
    ensures r.Err? ==> r.error == StackUnderflow
  {
    if |stack| == 0 then Err(StackUnderflow) else Ok((stack[..|stack| - 1], stack[|stack| - 1]))
  }

  /** A pop right after a successful push returns the pushed value and the
      stack as it was. */
  lemma PopAfterPush(stack: seq<int32>, v: int32)
    requires PushValue(stack, v).Ok?
    ensures PopValue(PushValue(stack, v).value) == Ok((stack, v))
  {
    var pushed := stack + [v];
    assert pushed[..|pushed| - 1] == stack;
  }

  /** The two fields of an instruction word: `word >> 24` and the low 24
      bits sign-extended from bit 23. */
  function Decode(w: word): (r: (nat, int32))
    ensures r.0 < 256 && -Two23 <= r.1 < Two23
  {
    (w / Two24, SignExtend24(w % Two24))
  }

  /** The operand is the low 24 bits when bit 23 is clear, and those bits
      minus 2^24 when it is set; nothing of the word is lost. */
  lemma DecodeFields(w: word)
    ensures var (opcode, arg) := Decode(w);
      var field := w % Two24;
      (field < Two23 ==> arg == field) && (field >= Two23 ==> arg == field - Two24) &&
      opcode * Two24 + field == w
  {
  }

  /** The machine state: program counter, stack contents and memory. */
  datatype Machine = Machine(pc: word, stack: seq<int32>, memory: seq<word>)

  /** The ten two-operand operations. */
  predicate IsBinary(k: InstructionKind)
  {
    k == InstructionAdd || k == InstructionSub || k == InstructionMul ||
    k == InstructionEq || k == InstructionLt || k == InstructionLe || k == InstructionGt ||
    k == InstructionGe || k == InstructionLAnd || k == InstructionLOr
  }

  /** The operations among them that push only 0 or 1. */
  predicate IsBoolean(k: InstructionKind)
  {
    k == InstructionEq || k == InstructionLt || k == InstructionLe || k == InstructionGt ||
    k == InstructionGe || k == InstructionLAnd || k == InstructionLOr
  }

  /** The result of a two-operand operation on v1 (below) and v2 (top):
      arithmetic wraps around like two's complement `int32_t`; comparisons
      and the logical operations give 0 or 1. */
  function BinaryResult(k: InstructionKind, v1: int32, v2: int32): int32
    requires IsBinary(k)
  {
    if k == InstructionAdd then ToInt32(v1 + v2)
    else if k == InstructionSub then ToInt32(v1 - v2)
    else if k == InstructionMul then ToInt32(v1 * v2)
    else if k == InstructionEq then (if v1 == v2 then 1 else 0)
    else if k == InstructionLt then (if v1 < v2 then 1 else 0)
    else if k == InstructionLe then (if v1 <= v2 then 1 else 0)
    else if k == InstructionGt then (if v1 > v2 then 1 else 0)
    else if k == InstructionGe then (if v1 >= v2 then 1 else 0)
    else if k == InstructionLAnd then (if v1 != 0 && v2 != 0 then 1 else 0)
    else (if v1 != 0 || v2 != 0 then 1 else 0)
  }

  /** The comparisons and logical operations push only 0 or 1, each as the
      truth of `v1 OP v2`. */
  lemma BinaryResultBoolean(k: InstructionKind, v1: int32, v2: int32)
    requires IsBoolean(k)
    ensures IsBinary(k)
    ensures var r := BinaryResult(k, v1, v2);
      (r == 0 || r == 1) &&
      (k == InstructionEq ==> (r == 1 <==> v1 == v2)) &&
      (k == InstructionLt ==> (r == 1 <==> v1 < v2)) &&
      (k == InstructionLe ==> (r == 1 <==> v1 <= v2)) &&
      (k == InstructionGt ==> (r == 1 <==> v1 > v2)) &&
      (k == InstructionGe ==> (r == 1 <==> v1 >= v2)) &&
      (k == InstructionLAnd ==> (r == 1 <==> v1 != 0 && v2 != 0)) &&
      (k == InstructionLOr ==> (r == 1 <==> v1 != 0 || v2 != 0))
  {
  }

  /** Without overflow, add, sub and mul are the exact results. */
  lemma BinaryResultArithmetic(v1: int32, v2: int32)
    ensures -Two31 <= v1 + v2 < Two31 ==> BinaryResult(InstructionAdd, v1, v2) == v1 + v2
    ensures -Two31 <= v1 - v2 < Two31 ==> BinaryResult(InstructionSub, v1, v2) == v1 - v2
    ensures -Two31 <= v1 * v2 < Two31 ==> BinaryResult(InstructionMul, v1, v2) == v1 * v2
  {
  }

  /** The two-operand operations: pop v2, pop v1, push the result. */
  function BinaryStep(k: InstructionKind, m: Machine): Result<Machine, Fault>
    requires IsBinary(k)
  {
    match PopValue(m.stack)
    case Err(f) => Err(f)
    case Ok((s1, v2)) =>
      match PopValue(s1)
      case Err(f) => Err(f)
      case Ok((s2, v1)) =>
        match PushValue(s2, BinaryResult(k, v1, v2))
        case Err(f) => Err(f)
        case Ok(s3) => Ok(m.(stack := s3))
  }

  /** jeqz: pop; jump to the operand when the popped value is 0. */
  function JeqzStep(arg: int32, m: Machine): Result<Machine, Fault>
  {
    match PopValue(m.stack)
    case Err(f) => Err(f)
    case Ok((rest, v1)) => Ok(m.(pc := if v1 == 0 then ToWord(arg) else m.pc, stack := rest))
  }

  /** push: the operand onto the stack. */
  function PushStep(arg: int32, m: Machine): Result<Machine, Fault>
  {
    match PushValue(m.stack, arg)
    case Err(f) => Err(f)
    case Ok(s) => Ok(m.(stack := s))
  }

  /** lneg: pop, push 1 for 0 and 0 otherwise (C's `!`). */
  function LNegStep(m: Machine): Result<Machine, Fault>
  {
    match PopValue(m.stack)
    case Err(f) => Err(f)
    case Ok((rest, v1)) =>
      match PushValue(rest, if v1 == 0 then 1 else 0)
      case Err(f) => Err(f)
      case Ok(s) => Ok(m.(stack := s))
  }

  /** fetch: push the word at the operand's address, read as int32_t. */
  function FetchStep(arg: int32, m: Machine): Result<Machine, Fault>
  {
    if 0 <= arg < |m.memory| then
      match PushValue(m.stack, ToInt32(m.memory[arg]))
      case Err(f) => Err(f)
      case Ok(s) => Ok(m.(stack := s))
    else Err(BadAddress(arg))
  }

  /** store: pop a value into the word at the operand's address. */
  function StoreStep(arg: int32, m: Machine): Result<Machine, Fault>
  {
    match PopValue(m.stack)
    case Err(f) => Err(f)
    case Ok((rest, v)) =>
      if 0 <= arg < |m.memory| then Ok(m.(stack := rest, memory := m.memory[arg := ToWord(v)]))
      else Err(BadAddress(arg))
  }

  /** The effect of one decoded instruction on a machine whose program
      counter has already moved past it. */
  function Execute(opcode: nat, arg: int32, m: Machine): Result<Machine, Fault>
  {
    match MachineKind(opcode)
    case Some(InstructionNoop) => Ok(m)
    case Some(InstructionJmp) => Ok(m.(pc := ToWord(arg)))
    case Some(InstructionJEQZ) => JeqzStep(arg, m)
    case Some(InstructionPush) => PushStep(arg, m)
    case Some(InstructionAdd) => BinaryStep(InstructionAdd, m)
    case Some(InstructionSub) => BinaryStep(InstructionSub, m)
    case Some(InstructionMul) => BinaryStep(InstructionMul, m)
    case Some(InstructionEq) => BinaryStep(InstructionEq, m)
    case Some(InstructionLt) => BinaryStep(InstructionLt, m)
    case Some(InstructionLe) => BinaryStep(InstructionLe, m)
    case Some(InstructionGt) => BinaryStep(InstructionGt, m)
    case Some(InstructionGe) => BinaryStep(InstructionGe, m)
    case Some(InstructionLAnd) => BinaryStep(InstructionLAnd, m)
    case Some(InstructionLOr) => BinaryStep(InstructionLOr, m)
    case Some(InstructionLNeg) => LNegStep(m)
    case Some(InstructionFetch) => FetchStep(arg, m)
    case Some(InstructionStore) => StoreStep(arg, m)
    case _ => Err(UnknownOperation(opcode))
  }

  /** One iteration of run_vm's loop: fetch the word at pc, decode it, move
      pc past it, execute it. */
  function Step(m: Machine): Result<Machine, Fault>
  {
    if m.pc >= |m.memory| then Err(BadAddress(m.pc))
    else
      var (opcode, arg) := Decode(m.memory[m.pc]);
      Execute(opcode, arg, m.(pc := ToWord(m.pc + 1)))
  }

  /** How a bounded run ends: with the value popped after the loop and the
      final memory, with a fault, or with the step budget used up. */
  datatype Outcome =
    | Halted(value: int32, memory: seq<word>)
    | Faulted(fault: Fault)
    | OutOfFuel

  /** run_vm from machine m for at most fuel iterations of its loop. The
      loop stops once pc reaches the total size; the result is then popped. */
  function Run(m: Machine, totalSize: word, fuel: nat): Outcome
    decreases fuel
  {
    if m.pc >= totalSize then
      match PopValue(m.stack)
      case Err(f) => Faulted(f)
      case Ok((_, v)) => Halted(v, m.memory)
    else if fuel == 0 then OutOfFuel
    else match Step(m)
      case Err(f) => Faulted(f)
      case Ok(next) => Run(next, totalSize, fuel - 1)
  }

  /** pc is moved past the instruction before it executes: jmp sets it to
      the operand, jeqz pops and sets it to the operand only on 0, every
      other successful step leaves it at the next word. */
  lemma StepProgramCounter(m: Machine)
    requires Step(m).Ok?
    ensures var (opcode, arg) := Decode(m.memory[m.pc]);
      var next := Step(m).value;
      (MachineKind(opcode) == Some(InstructionJmp) ==> next.pc == ToWord(arg)) &&
      (MachineKind(opcode) == Some(InstructionJEQZ) ==>
        |m.stack| > 0 && next.stack == m.stack[..|m.stack| - 1] &&
        next.pc == if m.stack[|m.stack| - 1] == 0 then ToWord(arg) else ToWord(m.pc + 1)) &&
      (MachineKind(opcode) != Some(InstructionJmp) && MachineKind(opcode) != Some(InstructionJEQZ) ==>
        next.pc == ToWord(m.pc + 1))
  {
  }

  /** A successful two-operand step replaces the top two slots by the
      result, so the stack gets one shorter, and memory is untouched. */
  lemma StepBinary(m: Machine, k: InstructionKind)
    requires m.pc < |m.memory| && MachineKind(Decode(m.memory[m.pc]).0) == Some(k)
    requires IsBinary(k) && Step(m).Ok?
    ensures var n := |m.stack|;
      var next := Step(m).value;
      n >= 2 && next.memory == m.memory &&
      next.stack == m.stack[..n - 2] + [BinaryResult(k, m.stack[n - 2], m.stack[n - 1])]
  {
    var n := |m.stack|;
    assert m.stack[..n - 1][..n - 2] == m.stack[..n - 2];
  }

  /** lneg pushes 1 exactly when the popped value is 0. */
  lemma StepLNeg(m: Machine)
    requires m.pc < |m.memory| && MachineKind(Decode(m.memory[m.pc]).0) == Some(InstructionLNeg)
    requires Step(m).Ok?
    ensures var n := |m.stack|;
      n >= 1 && Step(m).value.stack == m.stack[..n - 1] + [if m.stack[n - 1] == 0 then 1 else 0]
  {
  }

  /** fetch pushes the addressed word and leaves memory alone; store pops a
      value into the addressed word and leaves every other word alone. */
  lemma StepMemory(m: Machine)
    requires Step(m).Ok?
    ensures var (opcode, arg) := Decode(m.memory[m.pc]);
      var next := Step(m).value;
      (MachineKind(opcode) == Some(InstructionFetch) ==>
        0 <= arg < |m.memory| && next.memory == m.memory && next.stack == m.stack + [ToInt32(m.memory[arg])]) &&
      (MachineKind(opcode) == Some(InstructionStore) ==>
        0 <= arg < |m.memory| && |m.stack| > 0 && |next.memory| == |m.memory| &&
        next.memory[arg] == ToWord(m.stack[|m.stack| - 1]) &&
        (forall a :: 0 <= a < |m.memory| && a != arg ==> next.memory[a] == m.memory[a]) &&
        next.stack == m.stack[..|m.stack| - 1])
  {
  }

  /** Every opcode outside the dispatch chain is fatal, printc and printv
      included. */
  lemma StepUnknown(m: Machine)
    requires m.pc < |m.memory|
    requires var k := MachineKind(Decode(m.memory[m.pc]).0);
      k.None? || k == Some(InstructionPrintC) || k == Some(InstructionPrintV)
    ensures Step(m) == Err(UnknownOperation(Decode(m.memory[m.pc]).0))
  {
  }

  /** The loop stops exactly when pc reaches the total size, and the result
      is the top of the stack then (an empty stack is fatal). */
  lemma RunStops(m: Machine, totalSize: word, fuel: nat)
    requires m.pc >= totalSize
    ensures Run(m, totalSize, fuel) ==
      if |m.stack| == 0 then Faulted(StackUnderflow) else Halted(m.stack[|m.stack| - 1], m.memory)
  {
  }

  /** The words of `push 5; push 3; sub`. */
  const SubProgram: seq<word> := [0x10_000005, 0x10_000003, 0x30_000000]

  /** `push 5; push 3; sub` leaves 2: sub computes v1 - v2 with v2 the top. */
  lemma PushPushSub()
    ensures Run(Machine(0, [], SubProgram), 3, 3) == Halted(2, SubProgram)
  {
    var m0 := Machine(0, [], SubProgram);
    assert Decode(SubProgram[0]) == (0x10, 5);
    assert [] + [5 as int32] == [5];
    var m1 := Machine(1, [5], SubProgram);
    assert Step(m0) == Ok(m1);
    assert Decode(SubProgram[1]) == (0x10, 3);
    assert [5 as int32] + [3] == [5, 3];
    var m2 := Machine(2, [5, 3], SubProgram);
    assert Step(m1) == Ok(m2);
    assert Decode(SubProgram[2]) == (0x30, 0);
    assert [5 as int32, 3][..1] == [5] && [5 as int32][..0] == [] && [] + [2 as int32] == [2];
    var m3 := Machine(3, [2], SubProgram);
    assert Step(m2) == Ok(m3);
  }

  /** The operand stack of vm.c. */
  class Stack {
    var stack: array<int32>
    var sp: int

    ghost predicate Valid()
      reads this
    {
      stack.Length == StackSize && 0 <= sp <= StackSize
    }

    ghost function Contents(): seq<int32>
      reads this, stack
      requires Valid()
    {
      stack[..sp]
    }

    /** `struct Stack stack = {.sp = 0}` */
    constructor ()
      ensures Valid() && fresh(stack) && Contents() == []
    {
      stack := new int32[StackSize];
      sp := 0;
    }

    /** push: fatal when full; otherwise writes slot sp, then increments sp. */
    method Push(value: int32) returns (r: Result<(), Fault>)
      requires Valid()
      modifies this, stack
      ensures Valid() && stack == old(stack)
      ensures r.Ok? <==> old(sp) < StackSize
      ensures r.Err? ==> r.error == StackOverflow && sp == old(sp) && stack[..] == old(stack[..])
      ensures r.Ok? ==>
        sp == old(sp) + 1 && stack[old(sp)] == value &&
        forall k :: 0 <= k < StackSize && k != old(sp) ==> stack[k] == old(stack[k])
      ensures PushValue(old(Contents()), value) == if r.Ok? then Ok(Contents()) else Err(r.error)
    {
      if sp >= StackSize {
        return Err(StackOverflow);
      }
      stack[sp] := value;
      sp := sp + 1;
      assert stack[..sp] == old(stack[..sp]) + [value];
      r := Ok(());
    }

    /** pop: fatal when empty; otherwise decrements sp and returns the slot
        it now points at. */
    method Pop() returns (r: Result<int32, Fault>)
      requires Valid()
      modifies this
      ensures Valid() && stack == old(stack)
      ensures r.Ok? <==> old(sp) > 0
      ensures r.Err? ==> r.error == StackUnderflow && sp == old(sp)
      ensures r.Ok? ==> sp == old(sp) - 1 && r.value == stack[sp]
      ensures PopValue(old(Contents())) == if r.Ok? then Ok((Contents(), r.value)) else Err(r.error)
    {
      if sp <= 0 {
        return Err(StackUnderflow);
      }
      sp := sp - 1;
      assert old(stack[..sp])[..sp] == stack[..sp];
      r := Ok(stack[sp]);
    }
  }

  /** The loaded program: where execution starts, how many words it has and
      the words themselves (data section first, then the text section). */
  class BinaryFile {
    var startAddr: word
    var totalSize: word
    var memory: array<word>

    constructor (startAddr: word, totalSize: word, memory: array<word>)
      ensures this.startAddr == startAddr && this.totalSize == totalSize && this.memory == memory
    {
      this.startAddr := startAddr;
      this.totalSize := totalSize;
      this.memory := memory;
    }
  }

  /** A method's result and final stack and memory agree with one step of
      the machine: the new pc, stack and memory, or the same fault. */
  ghost predicate Agrees(r: Result<word, Fault>, stack: seq<int32>, memory: seq<word>, next: Result<Machine, Fault>)
  {
    match next
    case Ok(m) => r == Ok(m.pc) && stack == m.stack && memory == m.memory
    case Err(f) => r == Err(f)
  }

  /** The jeqz branch of run_vm's dispatch. */
  method ExecuteJeqz(stack: Stack, memory: array<word>, arg: int32, pc: word) returns (r: Result<word, Fault>)
    requires stack.Valid()
    modifies stack
    ensures stack.Valid() && stack.stack == old(stack.stack)
    ensures Agrees(r, stack.Contents(), memory[..], JeqzStep(arg, Machine(pc, old(stack.Contents()), memory[..])))
  {
    var v1 := stack.Pop();
    if v1.Err? {
      return Err(v1.error);
    }
    r := Ok(if v1.value == 0 then ToWord(arg) else pc);
  }

  /** The push branch of run_vm's dispatch. */
  method ExecutePush(stack: Stack, memory: array<word>, arg: int32, pc: word) returns (r: Result<word, Fault>)
    requires stack.Valid()
    modifies stack, stack.stack
    ensures stack.Valid() && stack.stack == old(stack.stack)
    ensures Agrees(r, stack.Contents(), memory[..], PushStep(arg, Machine(pc, old(stack.Contents()), memory[..])))
  {
    var pushed := stack.Push(arg);
    if pushed.Err? {
      return Err(pushed.error);
    }
    r := Ok(pc);
  }

  /** The two-operand branches of run_vm's dispatch: pop v2, pop v1, push
      the result. The push cannot overflow after two pops. */
  method ExecuteBinary(stack: Stack, memory: array<word>, k: InstructionKind, pc: word) returns (r: Result<word, Fault>)
    requires stack.Valid() && IsBinary(k)
    modifies stack, stack.stack
    ensures stack.Valid() && stack.stack == old(stack.stack)
    ensures Agrees(r, stack.Contents(), memory[..], BinaryStep(k, Machine(pc, old(stack.Contents()), memory[..])))
  {
    ghost var m := Machine(pc, stack.Contents(), memory[..]);
    var v2 := stack.Pop();
    if v2.Err? {
      return Err(v2.error);
    }
    ghost var s1 := stack.Contents();
    var v1 := stack.Pop();
    if v1.Err? {
      return Err(v1.error);
    }
    ghost var s2 := stack.Contents();
    var result := BinaryResult(k, v1.value, v2.value);
    var pushed := stack.Push(result);
    assert pushed.Ok?;
    assert BinaryStep(k, m) == Ok(m.(stack := s2 + [result]));
    r := Ok(pc);
  }

  /** The lneg branch of run_vm's dispatch. The push cannot overflow after
      a pop. */
  method ExecuteLNeg(stack: Stack, memory: array<word>, pc: word) returns (r: Result<word, Fault>)
    requires stack.Valid()
    modifies stack, stack.stack
    ensures stack.Valid() && stack.stack == old(stack.stack)
    ensures Agrees(r, stack.Contents(), memory[..], LNegStep(Machine(pc, old(stack.Contents()), memory[..])))
  {
    var v1 := stack.Pop();
    if v1.Err? {
      return Err(v1.error);
    }
    var pushed := stack.Push(if v1.value == 0 then 1 else 0);
    assert pushed.Ok?;
    r := Ok(pc);
  }

  /** The fetch branch of run_vm's dispatch. */
  method ExecuteFetch(stack: Stack, memory: array<word>, arg: int32, pc: word) returns (r: Result<word, Fault>)
    requires stack.Valid()
    modifies stack, stack.stack
    ensures stack.Valid() && stack.stack == old(stack.stack)
    ensures Agrees(r, stack.Contents(), memory[..], FetchStep(arg, Machine(pc, old(stack.Contents()), memory[..])))
  {
    if !(0 <= arg < memory.Length) {
      return Err(BadAddress(arg));
    }
    var pushed := stack.Push(ToInt32(memory[arg]));
    if pushed.Err? {
      return Err(pushed.error);
    }
    r := Ok(pc);
  }

  /** The store branch of run_vm's dispatch. */
  method ExecuteStore(stack: Stack, memory: array<word>, arg: int32, pc: word) returns (r: Result<word, Fault>)
    requires stack.Valid()
    modifies stack, memory
    ensures stack.Valid() && stack.stack == old(stack.stack)
    ensures Agrees(r, stack.Contents(), memory[..], StoreStep(arg, Machine(pc, old(stack.Contents()), old(memory[..]))))
  {
    var value := stack.Pop();
    if value.Err? {
      return Err(value.error);
    }
    if !(0 <= arg < memory.Length) {
      return Err(BadAddress(arg));
    }
    memory[arg] := ToWord(value.value);
    r := Ok(pc);
  }

  /** The body of run_vm's loop after pc has been incremented: executes the
      decoded instruction and returns the new pc. */
  method ExecuteAt(stack: Stack, memory: array<word>, opcode: nat, arg: int32, pc: word) returns (r: Result<word, Fault>)
    requires stack.Valid()
    modifies stack, stack.stack, memory
    ensures stack.Valid() && stack.stack == old(stack.stack)
    ensures Agrees(r, stack.Contents(), memory[..], Execute(opcode, arg, Machine(pc, old(stack.Contents()), old(memory[..]))))
  {
    var kind := MachineKind(opcode);
    if kind == Some(InstructionNoop) {
      r := Ok(pc);
    } else if kind == Some(InstructionJmp) {
      r := Ok(ToWord(arg));
    } else if kind == Some(InstructionJEQZ) {
      r := ExecuteJeqz(stack, memory, arg, pc);
    } else if kind == Some(InstructionPush) {
      r := ExecutePush(stack, memory, arg, pc);
    } else if kind == Some(InstructionAdd) {
      r := ExecuteBinary(stack, memory, InstructionAdd, pc);
    } else if kind == Some(InstructionSub) {
      r := ExecuteBinary(stack, memory, InstructionSub, pc);
    } else if kind == Some(InstructionMul) {
      r := ExecuteBinary(stack, memory, InstructionMul, pc);
    } else if kind == Some(InstructionEq) {
      r := ExecuteBinary(stack, memory, InstructionEq, pc);
    } else if kind == Some(InstructionLt) {
      r := ExecuteBinary(stack, memory, InstructionLt, pc);
    } else if kind == Some(InstructionLe) {
      r := ExecuteBinary(stack, memory, InstructionLe, pc);
    } else if kind == Some(InstructionGt) {
      r := ExecuteBinary(stack, memory, InstructionGt, pc);
    } else if kind == Some(InstructionGe) {
      r := ExecuteBinary(stack, memory, InstructionGe, pc);
    } else if kind == Some(InstructionLAnd) {
      r := ExecuteBinary(stack, memory, InstructionLAnd, pc);
    } else if kind == Some(InstructionLOr) {
      r := ExecuteBinary(stack, memory, InstructionLOr, pc);
    } else if kind == Some(InstructionLNeg) {
      r := ExecuteLNeg(stack, memory, pc);
    } else if kind == Some(InstructionFetch) {
      r := ExecuteFetch(stack, memory, arg, pc);
    } else if kind == Some(InstructionStore) {
      r := ExecuteStore(stack, memory, arg, pc);
    } else {
      r := Err(UnknownOperation(opcode));
    }
  }

  /** Below the total size and with fuel left, a run is one step and then
      the rest of the run. */
  lemma RunSteps(m: Machine, totalSize: word, fuel: nat)
    requires m.pc < totalSize && fuel > 0
    ensures Run(m, totalSize, fuel) ==
      match Step(m)
      case Err(f) => Faulted(f)
      case Ok(next) => Run(next, totalSize, fuel - 1)
  {
  }

  /** One iteration of run_vm's loop: fetch, decode, increment pc, execute. */
  method StepAt(stack: Stack, memory: array<word>, pc: word) returns (r: Result<word, Fault>)
    requires stack.Valid()
    modifies stack, stack.stack, memory
    ensures stack.Valid() && stack.stack == old(stack.stack)
    ensures Agrees(r, stack.Contents(), memory[..], Step(Machine(pc, old(stack.Contents()), old(memory[..]))))
  {
    if pc >= memory.Length {
      return Err(BadAddress(pc));
    }
    ghost var m := Machine(pc, stack.Contents(), memory[..]);
    var (opcode, arg) := Decode(memory[pc]);
    assert Step(m) == Execute(opcode, arg, m.(pc := ToWord(pc + 1)));
    r := ExecuteAt(stack, memory, opcode, arg, ToWord(pc + 1));
  }

  /** run_vm with a bound on the number of loop iterations (the C loop need
      not terminate). */
  method RunVm(bin: BinaryFile, fuel: nat) returns (r: Outcome)
    modifies bin.memory
    ensures r == Run(Machine(bin.startAddr, [], old(bin.memory[..])), bin.totalSize, fuel)
    ensures r.Halted? ==> bin.memory[..] == r.memory
  {
    var memory, totalSize := bin.memory, bin.totalSize;
    var stack := new Stack();
    var pc: word := bin.startAddr;
    var steps := 0;
    ghost var m := Machine(pc, [], memory[..]);
    ghost var outcome := Run(m, totalSize, fuel);
    while pc < totalSize
      invariant steps <= fuel && stack.Valid() && fresh(stack) && fresh(stack.stack)
      invariant m == Machine(pc, stack.Contents(), memory[..])
      invariant outcome == Run(m, totalSize, fuel - steps)
      decreases fuel - steps
    {
      if steps == fuel {
        return OutOfFuel;
      }
      RunSteps(m, totalSize, fuel - steps);
      var next := StepAt(stack, memory, pc);
      if next.Err? {
        return Faulted(next.error);
      }
      pc := next.value;
      steps := steps + 1;
      m := Step(m).value;
    }
    RunStops(m, totalSize, fuel - steps);
    var result := stack.Pop();
    if result.Err? {
      return Faulted(result.error);
    }
    r := Halted(result.value, memory[..]);
  }
}
