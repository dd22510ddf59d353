/** The assembler's parser (assembler/src/parser.c): a fixed-arity pattern
    match over the token array. Every instruction ends in a newline token, a
    single newline token may precede an instruction, and `push` is the only
    operation that takes an operand in this version. */
module AsmParser {

  import opened Wrappers
  import opened AsmValue
  import opened Isa
  import opened AsmLexer

  datatype Instruction = Instruction(kind: InstructionKind, value: Value)

  /** The parser's fatal diagnostics, and the read past the end of the token
      array that the C code performs without a bounds check. */
  datatype ParseError =
    | PushWithoutOperand            // `push` not followed by an int or bool
    | PushWithoutNewLine            // `push <int/bool>` not followed by a newline
    | MissingNewLine(op: TokenKind) // an operation not followed by a newline
    | UnexpectedToken(found: TokenKind)
    | IndexPastEnd

  /** expect: the token has the given kind. */
  predicate Expect(kind: TokenKind, t: Token)
  {
    t.kind == kind
  }

  /** The operations without an operand that parse_instruction accepts, with
      the instruction each one becomes. */
  function ZeroOperandKind(k: TokenKind): Option<InstructionKind>
  {
    match k
    case TokenAdd => Some(InstructionAdd)
    case TokenEq => Some(InstructionEq)
    case TokenLt => Some(InstructionLt)
    case TokenLe => Some(InstructionLe)
    case TokenGt => Some(InstructionGt)
    case TokenGe => Some(InstructionGe)
    case TokenLAnd => Some(InstructionLAnd)
    case TokenLOr => Some(InstructionLOr)
    case TokenLNeg => Some(InstructionLNeg)
    case TokenNoop => Some(InstructionNoop)
    case _ => None
  }

  /** The token an instruction of kind k is written with. */
  function Mnemonic(k: InstructionKind): (t: Option<TokenKind>)
    ensures t.Some? ==> t.value != TokenNewLine
  {
    match k
    case InstructionPush => Some(TokenPush)
    case InstructionAdd => Some(TokenAdd)
    case InstructionEq => Some(TokenEq)
    case InstructionLt => Some(TokenLt)
    case InstructionLe => Some(TokenLe)
    case InstructionGt => Some(TokenGt)
    case InstructionGe => Some(TokenGe)
    case InstructionLAnd => Some(TokenLAnd)
    case InstructionLOr => Some(TokenLOr)
    case InstructionLNeg => Some(TokenLNeg)
    case InstructionNoop => Some(TokenNoop)
    case _ => None
  }

  /** Mnemonic undoes ZeroOperandKind, and push is the only other kind with a
      mnemonic. */
  lemma MnemonicInverse(t: TokenKind, k: InstructionKind)
    ensures ZeroOperandKind(t) == Some(k) ==> Mnemonic(k) == Some(t)
    ensures Mnemonic(k) == Some(t) ==> ZeroOperandKind(t) == Some(k) || (t == TokenPush && k == InstructionPush)
  {
  }

  /** An operand push accepts. */
  predicate PushOperand(t: Token)
  {
    Expect(TokenInt, t) || Expect(TokenBool, t)
  }

  /** An instruction the parser can produce: a push of an int or bool value,
      or an operation without operand that carries no value. */
  predicate Parseable(ins: Instruction)
  {
    if ins.kind == InstructionPush then ins.value.IntValue? || ins.value.BoolValue?
    else Mnemonic(ins.kind).Some? && ins.value == NoneValue
  }

  /** The number of tokens an instruction takes, its newline included. */
  function Width(ins: Instruction): nat
  {
    if ins.kind == InstructionPush then 3 else 2
  }

  /** parse_instruction at index i of the token array: the instruction there
      and the index just past its newline. */
  function ParseInstruction(ts: seq<Token>, i: nat): Result<(Instruction, nat), ParseError>
  {
    if i >= |ts| then Err(IndexPastEnd)
    else
      var token := ts[i];
      if token.kind == TokenPush then
        if i + 1 >= |ts| then Err(IndexPastEnd)
        else if PushOperand(ts[i + 1]) then
          if i + 2 >= |ts| then Err(IndexPastEnd)
          else if Expect(TokenNewLine, ts[i + 2]) then
            Ok((Instruction(InstructionPush, ts[i + 1].value), i + 3))
          else Err(PushWithoutNewLine)
        else Err(PushWithoutOperand)
      else match ZeroOperandKind(token.kind)
        case Some(kind) =>
          if i + 1 >= |ts| then Err(IndexPastEnd)
          else if Expect(TokenNewLine, ts[i + 1]) then Ok((Instruction(kind, NoneValue), i + 2))
          else Err(MissingNewLine(token.kind))
        case None => Err(UnexpectedToken(token.kind))
  }

  /** The instructions parse produces from index i on, or the error it stops
      with: a newline token before an instruction is skipped, then one
      instruction is parsed. */
  function ParseFrom(ts: seq<Token>, i: nat): Result<seq<Instruction>, ParseError>
    decreases |ts| - i
  {
    if i >= |ts| then Ok([])
    else
      var j := if ts[i].kind == TokenNewLine then i + 1 else i;
      match ParseInstruction(ts, j)
      case Err(e) => Err(e)
      case Ok((ins, next)) =>
        match ParseFrom(ts, next)
        case Err(e) => Err(e)
        case Ok(rest) => Ok([ins] + rest)
  }

  function ParseTokens(ts: seq<Token>): Result<seq<Instruction>, ParseError>
  {
    ParseFrom(ts, 0)
  }

  /** A token whose value matches its kind, as the tokenizer builds them. */
  predicate WellTyped(t: Token)
  {
    (t.kind == TokenInt ==> t.value.IntValue?) && (t.kind == TokenBool ==> t.value.BoolValue?)
  }

  /** The tokens from index j on start with the line of ins: its mnemonic,
      push's operand carrying the pushed value, and the closing newline. The
      values of the other tokens do not matter. */
  predicate LineAt(ts: seq<Token>, j: nat, ins: Instruction)
  {
    j + Width(ins) <= |ts| && Mnemonic(ins.kind) == Some(ts[j].kind) &&
    ts[j + Width(ins) - 1].kind == TokenNewLine &&
    if ins.kind == InstructionPush then PushOperand(ts[j + 1]) && ins.value == ts[j + 1].value
    else ins.value == NoneValue
  }

  /** A parsed instruction is the line at i, and parsing resumes right after
      that line. */
  lemma ParseInstructionOk(ts: seq<Token>, i: nat)
    requires ParseInstruction(ts, i).Ok?
    ensures var (ins, next) := ParseInstruction(ts, i).value;
      LineAt(ts, i, ins) && next == i + Width(ins)
  {
    if ts[i].kind != TokenPush {
      MnemonicInverse(ts[i].kind, ParseInstruction(ts, i).value.0.kind);
    }
  }

  /** Conversely, the line of any instruction parses to that instruction. */
  lemma ParseInstructionLine(ts: seq<Token>, j: nat, ins: Instruction)
    requires LineAt(ts, j, ins)
    ensures ParseInstruction(ts, j) == Ok((ins, j + Width(ins)))
  {
    if ins.kind != InstructionPush {
      MnemonicInverse(ts[j].kind, ins.kind);
    }
  }

  /** With well-typed tokens, a line holds a parseable instruction. */
  lemma LineAtParseable(ts: seq<Token>, j: nat, ins: Instruction)
    requires LineAt(ts, j, ins) && forall k :: 0 <= k < |ts| ==> WellTyped(ts[k])
    ensures Parseable(ins)
  {
    if ins.kind == InstructionPush {
      assert WellTyped(ts[j + 1]);
    }
  }

  /** parse_instruction reads past the end of the array only when the line
      would run past it, and a newline where an instruction should start is
      an unexpected token. */
  lemma ParseInstructionErr(ts: seq<Token>, i: nat)
    ensures ParseInstruction(ts, i) == Err(IndexPastEnd) ==> i + 2 >= |ts|
    ensures i < |ts| && ts[i].kind == TokenNewLine ==> ParseInstruction(ts, i) == Err(UnexpectedToken(TokenNewLine))
  {
  }

  /** done followed by the instructions of r, or r's error. */
  function Then(done: seq<Instruction>, r: Result<seq<Instruction>, ParseError>): Result<seq<Instruction>, ParseError>
  {
    match r
    case Ok(rest) => Ok(done + rest)
    case Err(e) => Err(e)
  }

  /** One step of ParseFrom: an empty line, then one instruction or the
      error that stops the parse. */
  lemma ParseFromStep(ts: seq<Token>, i: nat)
    requires i < |ts|
    ensures var j := if ts[i].kind == TokenNewLine then i + 1 else i;
      match ParseInstruction(ts, j)
      case Err(e) => ParseFrom(ts, i) == Err(e)
      case Ok((ins, next)) => ParseFrom(ts, i) == Then([ins], ParseFrom(ts, next))
  {
  }

  /** The tokens from index i to the end are the lines of ins, each preceded
      by a newline token where gaps says so. */
  predicate ProgramAt(ts: seq<Token>, i: nat, ins: seq<Instruction>, gaps: seq<bool>)
    requires |gaps| == |ins|
    decreases |ins|
  {
    if |ins| == 0 then i == |ts|
    else
      var j := if gaps[0] then i + 1 else i;
      (gaps[0] ==> i < |ts| && ts[i].kind == TokenNewLine) &&
      LineAt(ts, j, ins[0]) && ProgramAt(ts, j + Width(ins[0]), ins[1..], gaps[1..])
  }

  /** Every program laid out from i parses to its instructions. */
  lemma {:induction false} ParseFromProgram(ts: seq<Token>, i: nat, ins: seq<Instruction>, gaps: seq<bool>)
    requires |gaps| == |ins| && ProgramAt(ts, i, ins, gaps)
    ensures ParseFrom(ts, i) == Ok(ins)
    decreases |ins|
  {
    if |ins| > 0 {
      var j := if gaps[0] then i + 1 else i;
      ParseInstructionLine(ts, j, ins[0]);
      ParseFromStep(ts, i);
      ParseFromProgram(ts, j + Width(ins[0]), ins[1..], gaps[1..]);
      assert ins == [ins[0]] + ins[1..];
    }
  }

  /** Conversely, whatever parses from i is such a program; the empty lines
      it skips are returned. */
  lemma {:induction false} ParseFromSound(ts: seq<Token>, i: nat) returns (gaps: seq<bool>)
    requires i <= |ts| && ParseFrom(ts, i).Ok?
    ensures |gaps| == |ParseFrom(ts, i).value| && ProgramAt(ts, i, ParseFrom(ts, i).value, gaps)
    decreases |ts| - i
  {
    if i == |ts| {
      gaps := [];
    } else {
      var gap := ts[i].kind == TokenNewLine;
      var j := if gap then i + 1 else i;
      ParseInstructionOk(ts, j);
      ParseFromStep(ts, i);
      var (first, next) := ParseInstruction(ts, j).value;
      var more := ParseFromSound(ts, next);
      gaps := [gap] + more;
      var ins := ParseFrom(ts, i).value;
      assert ins == [first] + ParseFrom(ts, next).value;
      assert ins[1..] == ParseFrom(ts, next).value && gaps[1..] == more;
    }
  }

  /** With well-typed tokens, every parsed instruction is parseable. */
  lemma {:induction false} ProgramParseable(ts: seq<Token>, i: nat, ins: seq<Instruction>, gaps: seq<bool>)
    requires |gaps| == |ins| && ProgramAt(ts, i, ins, gaps)
    requires forall k :: 0 <= k < |ts| ==> WellTyped(ts[k])
    ensures forall k :: 0 <= k < |ins| ==> Parseable(ins[k])
    decreases |ins|
  {
    if |ins| > 0 {
      var j := if gaps[0] then i + 1 else i;
      LineAtParseable(ts, j, ins[0]);
      ProgramParseable(ts, j + Width(ins[0]), ins[1..], gaps[1..]);
      assert forall k :: 1 <= k < |ins| ==> ins[k] == ins[1..][k - 1];
    }
  }

  const NewLine: Token := Token(TokenNewLine, NoneValue)

  /** The tokens of one instruction line. */
  function InstructionTokens(ins: Instruction): (r: seq<Token>)
    requires Parseable(ins)
    ensures |r| == Width(ins)
  {
    [Token(Mnemonic(ins.kind).value, NoneValue)] +
    (if ins.kind == InstructionPush then [Token(if ins.value.IntValue? then TokenInt else TokenBool, ins.value)] else []) +
    [NewLine]
  }

  /** The tokens of an empty line, if there is one. */
  function Gap(gap: bool): seq<Token>
  {
    if gap then [NewLine] else []
  }

  /** The tokens of a program: each instruction line, preceded by an empty
      line where gaps says so. */
  function Unparse(ins: seq<Instruction>, gaps: seq<bool>): seq<Token>
    requires |gaps| == |ins| && forall k :: 0 <= k < |ins| ==> Parseable(ins[k])
  {
    if |ins| == 0 then []
    else Gap(gaps[0]) + InstructionTokens(ins[0]) + Unparse(ins[1..], gaps[1..])
  }

  /** The line of an instruction, wherever it sits in the token array. */
  lemma InstructionTokensLine(pre: seq<Token>, ins: Instruction, post: seq<Token>)
    requires Parseable(ins)
    ensures LineAt(pre + InstructionTokens(ins) + post, |pre|, ins)
  {
    var ts := pre + InstructionTokens(ins) + post;
    var line := InstructionTokens(ins);
    assert ts[|pre|] == line[0];
    assert ts[|pre| + 1] == line[1];
    if ins.kind == InstructionPush {
      assert ts[|pre| + 2] == line[2];
    }
  }

  /** A line stays a line when tokens are put in front of it. */
  lemma LineAtShift(pre: seq<Token>, ts: seq<Token>, j: nat, ins: Instruction)
    requires LineAt(ts, j, ins)
    ensures LineAt(pre + ts, |pre| + j, ins)
  {
    var w := Width(ins);
    assert (pre + ts)[|pre| + j] == ts[j];
    assert (pre + ts)[|pre| + j + 1] == ts[j + 1];
    assert (pre + ts)[|pre| + j + w - 1] == ts[j + w - 1];
  }

  /** A line stays a line when tokens are put after it. */
  lemma LineAtExtend(ts: seq<Token>, post: seq<Token>, j: nat, ins: Instruction)
    requires LineAt(ts, j, ins)
    ensures LineAt(ts + post, j, ins)
  {
    var w := Width(ins);
    assert (ts + post)[j] == ts[j];
    assert (ts + post)[j + 1] == ts[j + 1];
    assert (ts + post)[j + w - 1] == ts[j + w - 1];
  }

  /** A program stays a program when tokens are put in front of it. */
  lemma {:induction false} ProgramShift(pre: seq<Token>, ts: seq<Token>, i: nat, ins: seq<Instruction>, gaps: seq<bool>)
    requires |gaps| == |ins| && ProgramAt(ts, i, ins, gaps)
    ensures ProgramAt(pre + ts, |pre| + i, ins, gaps)
    decreases |ins|
  {
    if |ins| > 0 {
      var j := if gaps[0] then i + 1 else i;
      if gaps[0] {
        assert (pre + ts)[|pre| + i] == ts[i];
      }
      LineAtShift(pre, ts, j, ins[0]);
      ProgramShift(pre, ts, j + Width(ins[0]), ins[1..], gaps[1..]);
    }
  }

  /** The canonical rendering of a program is laid out as that program. */
  lemma {:induction false} UnparseProgram(ins: seq<Instruction>, gaps: seq<bool>)
    requires |gaps| == |ins| && forall k :: 0 <= k < |ins| ==> Parseable(ins[k])
    ensures ProgramAt(Unparse(ins, gaps), 0, ins, gaps)
    decreases |ins|
  {
    if |ins| > 0 {
      var head := Gap(gaps[0]) + InstructionTokens(ins[0]);
      var rest := Unparse(ins[1..], gaps[1..]);
      UnparseProgram(ins[1..], gaps[1..]);
      ProgramShift(head, rest, 0, ins[1..], gaps[1..]);
      InstructionTokensLine(Gap(gaps[0]), ins[0], rest);
      if gaps[0] {
        assert (head + rest)[0] == NewLine;
      }
    }
  }

  /** Every program of parseable instructions, with any choice of empty lines
      before them, parses back to those instructions. */
  lemma ParseUnparse(ins: seq<Instruction>, gaps: seq<bool>)
    requires |gaps| == |ins| && forall k :: 0 <= k < |ins| ==> Parseable(ins[k])
    ensures ParseTokens(Unparse(ins, gaps)) == Ok(ins)
  {
    UnparseProgram(ins, gaps);
    ParseFromProgram(Unparse(ins, gaps), 0, ins, gaps);
  }

  /** A newline token right before an instruction is taken as an empty line,
      but a second one is an unexpected token. */
  lemma DoubleNewLine(ts: seq<Token>)
    requires |ts| >= 2 && ts[0].kind == TokenNewLine && ts[1].kind == TokenNewLine
    ensures ParseTokens(ts) == Err(UnexpectedToken(TokenNewLine))
  {
    ParseInstructionErr(ts, 1);
  }

  /** An empty line after the last instruction of a program sends
      parse_instruction past the end of the token array. */
  lemma {:induction false} TrailingNewLine(ts: seq<Token>, i: nat, ins: seq<Instruction>, gaps: seq<bool>)
    requires |gaps| == |ins| && ProgramAt(ts, i, ins, gaps)
    ensures ParseFrom(ts + [NewLine], i) == Err(IndexPastEnd)
    decreases |ins|
  {
    var ext := ts + [NewLine];
    if |ins| == 0 {
      assert ext[i] == NewLine;
    } else {
      var j := if gaps[0] then i + 1 else i;
      var w := Width(ins[0]);
      TrailingNewLine(ts, j + w, ins[1..], gaps[1..]);
      LineAtExtend(ts, [NewLine], j, ins[0]);
      hide LineAt, ProgramAt;
      assert ext[i] == ts[i];
      ParseInstructionLine(ext, j, ins[0]);
    }
  }

  /** The growable instruction array of parser.c. */
  class InstructionVec {
    var elements: array<Instruction>
    var len: nat
    var capacity: nat

    ghost predicate Valid()
      reads this
    {
      elements.Length == capacity && 1 <= capacity && len <= capacity
    }

    ghost function Contents(): seq<Instruction>
      reads this, elements
      requires Valid()
    {
      elements[..len]
    }

    /** instruction_vec_new */
    constructor ()
      ensures Valid() && fresh(elements)
      ensures Contents() == [] && capacity == 1
    {
      elements := new Instruction[1];
      len := 0;
      capacity := 1;
    }

    /** instruction_vec_push: doubles the capacity when full, then appends. */
    method Push(ins: Instruction)
      requires Valid()
      modifies this, elements
      ensures Valid() && (elements == old(elements) || fresh(elements))
      ensures Contents() == old(Contents()) + [ins]
      ensures capacity == if old(len) == old(capacity) then 2 * old(capacity) else old(capacity)
    {
      if len == capacity {
        var grown := new Instruction[2 * capacity];
        forall j | 0 <= j < len {
          grown[j] := elements[j];
        }
        elements := grown;
        capacity := 2 * capacity;
      }
      elements[len] := ins;
      len := len + 1;
    }
  }

  lemma ThenThen(a: seq<Instruction>, b: seq<Instruction>, r: Result<seq<Instruction>, ParseError>)
    ensures Then(a, Then(b, r)) == Then(a + b, r)
  {
    if r.Ok? {
      assert a + (b + r.value) == (a + b) + r.value;
    }
  }

  /** One pass of parse's loop: an optional blank line, then one
      instruction appended to vec; parsing resumes after its newline. */
  method ParseLine(ts: seq<Token>, i: nat, vec: InstructionVec) returns (r: Result<nat, ParseError>)
    requires i < |ts| && vec.Valid()
    modifies vec, vec.elements
    ensures vec.Valid() && (vec.elements == old(vec.elements) || fresh(vec.elements))
    ensures r.Ok? ==> i < r.value <= |ts|
    ensures r.Ok? ==> Then(old(vec.Contents()), ParseFrom(ts, i)) == Then(vec.Contents(), ParseFrom(ts, r.value))
    ensures r.Err? ==> ParseFrom(ts, i) == Err(r.error)
  {
    var j := i;
    ParseFromStep(ts, i);
    if ts[j].kind == TokenNewLine {
      j := j + 1;
    }
    var parsed := ParseInstruction(ts, j);
    if parsed.Err? {
      return Err(parsed.error);
    }
    ParseInstructionOk(ts, j);
    var (ins, next) := parsed.value;
    ghost var done := vec.Contents();
    vec.Push(ins);
    ThenThen(done, [ins], ParseFrom(ts, next));
    r := Ok(next);
  }

  /** parse: the instructions of the whole token array, in a fresh vector. */
  method Parse(tokens: TokenVec) returns (r: Result<InstructionVec, ParseError>)
    requires tokens.Valid()
    ensures r.Ok? <==> ParseTokens(tokens.Contents()).Ok?
    ensures r.Ok? ==> fresh(r.value) && r.value.Valid() && r.value.Contents() == ParseTokens(tokens.Contents()).value
    ensures r.Err? ==> r.error == ParseTokens(tokens.Contents()).error
  {
    var ts := tokens.elements[..tokens.len];
    var vec := new InstructionVec();
    var i: nat := 0;
    assert Then([], ParseFrom(ts, 0)) == ParseFrom(ts, 0) by {
      if ParseFrom(ts, 0).Ok? {
        assert [] + ParseFrom(ts, 0).value == ParseFrom(ts, 0).value;
      }
    }
    while i < |ts|
      invariant i <= |ts|
      invariant fresh(vec) && fresh(vec.elements) && vec.Valid()
      invariant ParseTokens(ts) == Then(vec.Contents(), ParseFrom(ts, i))
      decreases |ts| - i
    {
      var next := ParseLine(ts, i, vec);
      if next.Err? {
        return Err(next.error);
      }
      i := next.value;
    }
    return Ok(vec);
  }
}
