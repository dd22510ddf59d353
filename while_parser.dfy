/** The While front end's recursive-descent parser (whilec/src/parser.rs).
    The parser walks a token vector with a cursor; every panic of the source
    is a ParseError here. The specification functions below take the token
    sequence and a cursor position and give the parsed value with the cursor
    after it; the Parser class runs the same steps on its own cursor and is
    proved to agree with them. */
module WhileParser {

  import opened Wrappers
  import opened Words
  import opened Lists
  import T = WhileTokens

  datatype ArithmeticOp = Add | Sub | Mul

  datatype Arithmetic =
    | Int(value: int32)
    | Ident(ident: string)
    | Binary(lhs: Arithmetic, op: ArithmeticOp, rhs: Arithmetic)

  datatype BooleanOp = Eq | LEq | Not

  datatype Boolean =
    | False
    | True
    | Binary(lhs: Arithmetic, op: BooleanOp, rhs: Arithmetic)

  datatype Statement =
    | Assignment(ident: string, value: Arithmetic)
    | Skip
    | Composision(first: Statement, second: Statement)
    | If(condition: Boolean, ifBranch: Statement, elseBranch: Statement)
    | While(condition: Boolean, body: Statement)

  /** The parser's panics. */
  datatype ParseError =
    | UnexpectedEndOfFile                               // a token was required and none was left
    | ExpectedToken(expected: T.Token, found: T.Token)  // expect met another token
    | MissingSemiColon(found: T.Token)                  // a statement follows another without `;`
    | NoLeftHandSide                                    // `;` with no statement before it
    | UnexpectedToken(found: T.Token)                   // a token no rule accepts there

  /** The outcome of parse: no statement at all, or a statement that fails. */
  datatype ProgramError = EmptyProgram | Syntax(error: ParseError)

  /** Distance from a cursor to the end of the tokens; zero once past it. */
  function Remaining(ts: seq<T.Token>, i: nat): nat
  {
    if i <= |ts| then |ts| - i else 0
  }

  /** The token under the cursor, if any. */
  function TokenAt(ts: seq<T.Token>, i: nat): Option<T.Token>
  {
    if i < |ts| then Some(ts[i]) else None
  }

  /** expect: fails only when a token is present and is another one; at the
      end of the tokens it passes. */
  function ExpectError(ts: seq<T.Token>, i: nat, expected: T.Token): Option<ParseError>
  {
    if i < |ts| && ts[i] != expected then Some(ExpectedToken(expected, ts[i])) else None
  }

  predicate IsArithmeticOperator(t: T.Token)
  {
    t.Add? || t.Sub? || t.Mul?
  }

  /** The token an arithmetic operator is written with. */
  function OperatorToken(op: ArithmeticOp): T.Token
  {
    match op
    case Add => T.Add
    case Sub => T.Sub
    case Mul => T.Mul
  }

  /** The token a boolean operator is written with. */
  function ComparisonToken(op: BooleanOp): T.Token
  {
    match op
    case Eq => T.Eq
    case LEq => T.LEq
    case Not => T.Not
  }

  /** get_arithmetic_operator: defined exactly on the three operator tokens,
      and the inverse of OperatorToken there. */
  function ArithmeticOperator(t: T.Token): (r: Result<ArithmeticOp, ParseError>)
    ensures r.Ok? <==> IsArithmeticOperator(t)
    ensures r.Ok? ==> OperatorToken(r.value) == t
    ensures r.Err? ==> r.error == UnexpectedToken(t)
  {
    match t
    case Add => Ok(Add)
    case Sub => Ok(Sub)
    case Mul => Ok(Mul)
    case _ => Err(UnexpectedToken(t))
  }

  /** get_boolean_operator: defined exactly on `=`, `<=` and `!`, and the
      inverse of ComparisonToken there. */
  function BooleanOperator(t: T.Token): (r: Result<BooleanOp, ParseError>)
    ensures r.Ok? <==> t.Eq? || t.LEq? || t.Not?
    ensures r.Ok? ==> ComparisonToken(r.value) == t
    ensures r.Err? ==> r.error == UnexpectedToken(t)
  {
    match t
    case Eq => Ok(Eq)
    case LEq => Ok(LEq)
    case Not => Ok(Not)
    case _ => Err(UnexpectedToken(t))
  }

  /** parse_arithmetic_component: one integer or identifier token. */
  function ComponentAt(ts: seq<T.Token>, i: nat): (r: Result<(Arithmetic, nat), ParseError>)
    ensures r.Ok? ==> r.value.1 == i + 1 <= |ts| && !r.value.0.Binary?
    ensures r.Ok? <==> i < |ts| && (ts[i].Int? || ts[i].Ident?)
  {
    if i >= |ts| then Err(UnexpectedEndOfFile)
    else match ts[i]
      case Int(n) => Ok((Int(n), i + 1))
      case Ident(x) => Ok((Ident(x), i + 1))
      case t => Err(UnexpectedToken(t))
  }

  /** The new left operand after reading `lhs op rhs`. A right operand that
      is itself a binary node is rotated to keep the tree leaning left;
      components are never binary, so the rotation never fires. */
  function Attach(lhs: Arithmetic, op: ArithmeticOp, rhs: Arithmetic): Arithmetic
  {
    match rhs
    case Binary(rl, rop, rr) => Arithmetic.Binary(Arithmetic.Binary(lhs, op, rl), rop, rr)
    case _ => Arithmetic.Binary(lhs, op, rhs)
  }

  /** The loop of parse_arithmetic from cursor i with left operand lhs: while
      an operator follows, read it and a component and attach them. */
  function ArithmeticRest(ts: seq<T.Token>, i: nat, lhs: Arithmetic): (r: Result<(Arithmetic, nat), ParseError>)
    requires i <= |ts|
    ensures r.Ok? ==> i <= r.value.1 <= |ts|
    decreases |ts| - i
  {
    if i == |ts| || !IsArithmeticOperator(ts[i]) then Ok((lhs, i))
    else
      var op := ArithmeticOperator(ts[i]).value;
      match ComponentAt(ts, i + 1)
      case Err(e) => Err(e)
      case Ok((rhs, j)) => ArithmeticRest(ts, j, Attach(lhs, op, rhs))
  }

  /** parse_arithmetic. */
  function ArithmeticAt(ts: seq<T.Token>, i: nat): (r: Result<(Arithmetic, nat), ParseError>)
    ensures r.Ok? ==> i < r.value.1 <= |ts|
  {
    match ComponentAt(ts, i)
    case Err(e) => Err(e)
    case Ok((lhs, j)) => ArithmeticRest(ts, j, lhs)
  }

  /** The comparison part of parse_boolean: after the left operand, `=` or
      `<=` and the right operand. */
  function ComparisonAt(ts: seq<T.Token>, j: nat, lhs: Arithmetic): (r: Result<(Boolean, nat), ParseError>)
    ensures r.Ok? ==> j < r.value.1 <= |ts|
  {
    if j >= |ts| then Err(UnexpectedEndOfFile)
    else if ts[j].Eq? || ts[j].LEq? then
      var op := BooleanOperator(ts[j]).value;
      match ArithmeticAt(ts, j + 1)
      case Err(e) => Err(e)
      case Ok((rhs, k)) => Ok((Boolean.Binary(lhs, op, rhs), k))
    else Err(UnexpectedToken(ts[j]))
  }

  /** parse_boolean: `false`, `true`, a `!` that is skipped, or a
      comparison of two arithmetic expressions. */
  function BooleanAt(ts: seq<T.Token>, i: nat): (r: Result<(Boolean, nat), ParseError>)
    ensures r.Ok? ==> i < r.value.1 <= |ts|
    decreases Remaining(ts, i)
  {
    if i >= |ts| then Err(UnexpectedEndOfFile)
    else if ts[i].False? then Ok((False, i + 1))
    else if ts[i].True? then Ok((True, i + 1))
    else if ts[i].Not? then BooleanAt(ts, i + 1)
    else
      match ArithmeticAt(ts, i)
      case Err(e) => Err(e)
      case Ok((lhs, j)) => ComparisonAt(ts, j, lhs)
  }

  /** The statement built when `;` joins lhs to the next statement s: a
      composition on the left is re-associated one level to the right. */
  function Compose(lhs: Statement, s: Statement): Statement
  {
    match lhs
    case Composision(s1, s2) => Composision(s1, Composision(s2, s))
    case _ => Composision(lhs, s)
  }

  /** parse_assignment, after the identifier: `:=` and an arithmetic
      expression. */
  function AssignmentAt(ts: seq<T.Token>, i: nat, ident: string): (r: Result<(Statement, nat), ParseError>)
    ensures r.Ok? ==> i < r.value.1 <= |ts|
  {
    if ExpectError(ts, i, T.Assign).Some? then Err(ExpectError(ts, i, T.Assign).value)
    else
      match ArithmeticAt(ts, i + 1)
      case Err(e) => Err(e)
      case Ok((value, j)) => Ok((Assignment(ident, value), j))
  }

  /** parse_statement with the statement already read, if any: one token
      decides the rule; after a statement only `;` may follow. */
  function StatementAt(ts: seq<T.Token>, i: nat, lhs: Option<Statement>): (r: Result<(Statement, nat), ParseError>)
    ensures r.Ok? ==> i < r.value.1 <= |ts|
    decreases Remaining(ts, i)
  {
    if i >= |ts| then Err(UnexpectedEndOfFile)
    else if !ts[i].SemiColon? && lhs.Some? then Err(MissingSemiColon(ts[i]))
    else
      match ts[i]
      case Skip => Ok((Skip, i + 1))
      case SemiColon =>
        if lhs.None? then Err(NoLeftHandSide)
        else
          (match StatementAt(ts, i + 1, None)
           case Err(e) => Err(e)
           case Ok((s, j)) => Ok((Compose(lhs.value, s), j)))
      case If => IfAt(ts, i + 1)
      case While => WhileAt(ts, i + 1)
      case Ident(x) => AssignmentAt(ts, i + 1, x)
      case t => Err(UnexpectedToken(t))
  }

  /** parse_if, after `if`: condition, `then`, statement, `else`,
      statement. */
  function IfAt(ts: seq<T.Token>, i: nat): (r: Result<(Statement, nat), ParseError>)
    ensures r.Ok? ==> i < r.value.1 <= |ts|
    decreases Remaining(ts, i)
  {
    match BooleanAt(ts, i)
    case Err(e) => Err(e)
    case Ok((condition, j)) =>
      if ExpectError(ts, j, T.Then).Some? then Err(ExpectError(ts, j, T.Then).value)
      else
        match StatementAt(ts, j + 1, None)
        case Err(e) => Err(e)
        case Ok((ifBranch, k)) =>
          if ExpectError(ts, k, T.Else).Some? then Err(ExpectError(ts, k, T.Else).value)
          else
            match StatementAt(ts, k + 1, None)
            case Err(e) => Err(e)
            case Ok((elseBranch, m)) => Ok((If(condition, ifBranch, elseBranch), m))
  }

  /** parse_while, after `while`: condition, `do`, statement. */
  function WhileAt(ts: seq<T.Token>, i: nat): (r: Result<(Statement, nat), ParseError>)
    ensures r.Ok? ==> i < r.value.1 <= |ts|
    decreases Remaining(ts, i)
  {
    match BooleanAt(ts, i)
    case Err(e) => Err(e)
    case Ok((condition, j)) =>
      if ExpectError(ts, j, T.Do).Some? then Err(ExpectError(ts, j, T.Do).value)
      else
        match StatementAt(ts, j + 1, None)
        case Err(e) => Err(e)
        case Ok((body, k)) => Ok((While(condition, body), k))
  }

  /** The loop of parse from cursor i with the statement read so far: read
      statements until the tokens run out. */
  function ProgramFrom(ts: seq<T.Token>, i: nat, statement: Option<Statement>): Result<Statement, ProgramError>
    decreases Remaining(ts, i)
  {
    if i >= |ts| then
      if statement.None? then Err(EmptyProgram) else Ok(statement.value)
    else
      match StatementAt(ts, i, statement)
      case Err(e) => Err(Syntax(e))
      case Ok((s, j)) => ProgramFrom(ts, j, Some(s))
  }

  /** parse. */
  function Program(ts: seq<T.Token>): Result<Statement, ProgramError>
  {
    ProgramFrom(ts, 0, None)
  }

  /** The tokens an arithmetic expression is written with. */
  function ArithmeticTokens(a: Arithmetic): List<T.Token>
  {
    match a
    case Int(n) => Cons(T.Int(n), Nil)
    case Ident(x) => Cons(T.Ident(x), Nil)
    case Binary(l, op, r) => Append(ArithmeticTokens(l), Cons(OperatorToken(op), ArithmeticTokens(r)))
  }

  /** The tokens a condition is written with. */
  function BooleanTokens(b: Boolean): List<T.Token>
  {
    match b
    case False => Cons(T.False, Nil)
    case True => Cons(T.True, Nil)
    case Binary(l, op, r) => Append(ArithmeticTokens(l), Cons(ComparisonToken(op), ArithmeticTokens(r)))
  }

  /** The tokens a statement is written with. */
  function StatementTokens(s: Statement): List<T.Token>
  {
    match s
    case Assignment(x, v) => Cons(T.Ident(x), Cons(T.Assign, ArithmeticTokens(v)))
    case Skip => Cons(T.Skip, Nil)
    case Composision(s1, s2) => Append(StatementTokens(s1), Cons(T.SemiColon, StatementTokens(s2)))
    case If(c, s1, s2) =>
      Cons(T.If, Append(BooleanTokens(c), Cons(T.Then, Append(StatementTokens(s1), Cons(T.Else, StatementTokens(s2))))))
    case While(c, body) => Cons(T.While, Append(BooleanTokens(c), Cons(T.Do, StatementTokens(body))))
  }

  /** The tokens from cursor i up to cursor j. */
  function Slice(ts: seq<T.Token>, i: nat, j: nat): List<T.Token>
    requires i <= j <= |ts|
    decreases j - i
  {
    if i == j then Nil else Cons(ts[i], Slice(ts, i + 1, j))
  }

  /** The tokens from cursor i up to cursor j with every `!` removed. */
  function WithoutNot(ts: seq<T.Token>, i: nat, j: nat): List<T.Token>
    requires i <= j <= |ts|
    decreases j - i
  {
    if i == j then Nil
    else if ts[i].Not? then WithoutNot(ts, i + 1, j)
    else Cons(ts[i], WithoutNot(ts, i + 1, j))
  }

  /** The statements of a program in the order they run, compositions
      flattened. */
  function Leaves(s: Statement): List<Statement>
  {
    if s.Composision? then Append(Leaves(s.first), Leaves(s.second)) else Cons(s, Nil)
  }

  /** Every right operand is a single component: the shape of a
      left-associative chain `c0 op1 c1 op2 c2 ...`. */
  predicate LeftLinear(a: Arithmetic)
  {
    match a
    case Binary(l, _, r) => LeftLinear(l) && !r.Binary?
    case _ => true
  }

  /** Attaching keeps the operands and operators in reading order, and is a
      plain binary node for a component on the right. */
  lemma AttachTokens(lhs: Arithmetic, op: ArithmeticOp, rhs: Arithmetic)
    ensures ArithmeticTokens(Attach(lhs, op, rhs)) == Append(ArithmeticTokens(lhs), Cons(OperatorToken(op), ArithmeticTokens(rhs)))
    ensures !rhs.Binary? ==> Attach(lhs, op, rhs) == Arithmetic.Binary(lhs, op, rhs)
  {
    match rhs
    case Binary(rl, rop, rr) =>
      AppendAssoc(ArithmeticTokens(lhs), Cons(OperatorToken(op), ArithmeticTokens(rl)), Cons(OperatorToken(rop), ArithmeticTokens(rr)));
    case _ =>
  }

  lemma {:induction false} SliceSplit(ts: seq<T.Token>, i: nat, j: nat, k: nat)
    requires i <= j <= k <= |ts|
    ensures Slice(ts, i, k) == Append(Slice(ts, i, j), Slice(ts, j, k))
    decreases j - i
  {
    if i < j {
      SliceSplit(ts, i + 1, j, k);
    }
  }

  lemma {:induction false} SliceLength(ts: seq<T.Token>, i: nat, j: nat)
    requires i <= j <= |ts|
    ensures Length(Slice(ts, i, j)) == j - i
    decreases j - i
  {
    if i < j {
      SliceLength(ts, i + 1, j);
    }
  }

  lemma {:induction false} WithoutNotSplit(ts: seq<T.Token>, i: nat, j: nat, k: nat)
    requires i <= j <= k <= |ts|
    ensures WithoutNot(ts, i, k) == Append(WithoutNot(ts, i, j), WithoutNot(ts, j, k))
    decreases j - i
  {
    if i < j {
      WithoutNotSplit(ts, i + 1, j, k);
    }
  }

  /** A stretch of tokens without `!` is kept as it is. */
  lemma {:induction false} WithoutNotUnchanged(ts: seq<T.Token>, i: nat, j: nat)
    requires i <= j <= |ts| && !Mem(T.Not, Slice(ts, i, j))
    ensures WithoutNot(ts, i, j) == Slice(ts, i, j)
    decreases j - i
  {
    if i < j {
      WithoutNotUnchanged(ts, i + 1, j);
    }
  }

  /** Arithmetic is written without `!`. */
  lemma {:induction false} ArithmeticHasNoNot(a: Arithmetic)
    ensures !Mem(T.Not, ArithmeticTokens(a))
  {
    match a
    case Binary(l, op, r) =>
      ArithmeticHasNoNot(l);
      ArithmeticHasNoNot(r);
      MemAppend(T.Not, ArithmeticTokens(l), Cons(OperatorToken(op), ArithmeticTokens(r)));
    case _ =>
  }

  /** The loop of parse_arithmetic consumes exactly the tokens it appends to
      its left operand, stops only at the end or before a non-operator, and
      keeps the tree left-linear. */
  lemma {:induction false} ArithmeticRestSound(ts: seq<T.Token>, i: nat, lhs: Arithmetic)
    requires i <= |ts|
    ensures var r := ArithmeticRest(ts, i, lhs);
      r.Ok? ==>
        ArithmeticTokens(r.value.0) == Append(ArithmeticTokens(lhs), Slice(ts, i, r.value.1)) &&
        (r.value.1 == |ts| || !IsArithmeticOperator(ts[r.value.1])) &&
        (LeftLinear(lhs) ==> LeftLinear(r.value.0))
    decreases |ts| - i
  {
    if i == |ts| || !IsArithmeticOperator(ts[i]) {
      AppendNil(ArithmeticTokens(lhs));
    } else if ComponentAt(ts, i + 1).Ok? {
      var op := ArithmeticOperator(ts[i]).value;
      var rhs := ComponentAt(ts, i + 1).value.0;
      assert ArithmeticTokens(rhs) == Cons(ts[i + 1], Nil);
      AttachTokens(lhs, op, rhs);
      var next := Attach(lhs, op, rhs);
      assert ArithmeticRest(ts, i, lhs) == ArithmeticRest(ts, i + 2, next);
      ArithmeticRestSound(ts, i + 2, next);
      var r := ArithmeticRest(ts, i + 2, next);
      if r.Ok? {
        var pair := Cons(ts[i], Cons(ts[i + 1], Nil));
        AppendAssoc(ArithmeticTokens(lhs), pair, Slice(ts, i + 2, r.value.1));
        assert Append(Cons(ts[i + 1], Nil), Slice(ts, i + 2, r.value.1)) == Cons(ts[i + 1], Slice(ts, i + 2, r.value.1));
        assert Append(pair, Slice(ts, i + 2, r.value.1)) == Cons(ts[i], Cons(ts[i + 1], Slice(ts, i + 2, r.value.1)));
        assert Slice(ts, i + 1, r.value.1) == Cons(ts[i + 1], Slice(ts, i + 2, r.value.1));
        assert Slice(ts, i, r.value.1) == Cons(ts[i], Slice(ts, i + 1, r.value.1));
      }
    }
  }

  /** parse_arithmetic reads a left-linear expression whose tokens are
      exactly the ones consumed, and stops before any operator. */
  lemma ArithmeticSound(ts: seq<T.Token>, i: nat)
    ensures var r := ArithmeticAt(ts, i);
      r.Ok? ==>
        Slice(ts, i, r.value.1) == ArithmeticTokens(r.value.0) &&
        LeftLinear(r.value.0) &&
        (r.value.1 == |ts| || !IsArithmeticOperator(ts[r.value.1]))
  {
    var c := ComponentAt(ts, i);
    if c.Ok? {
      assert ArithmeticTokens(c.value.0) == Cons(ts[i], Nil);
      ArithmeticRestSound(ts, i + 1, c.value.0);
    }
  }

  /** Conversely, the tokens of a left-linear expression are read back as
      that expression, and the loop goes on after them. */
  lemma {:induction false} ArithmeticComplete(ts: seq<T.Token>, i: nat, a: Arithmetic, j: nat)
    requires LeftLinear(a)
    requires i <= j <= |ts| && Slice(ts, i, j) == ArithmeticTokens(a)
    ensures ArithmeticAt(ts, i) == ArithmeticRest(ts, j, a)
  {
    SliceLength(ts, i, j);
    match a
    case Binary(l, op, r) =>
      assert Length(ArithmeticTokens(r)) == 1;
      AppendLength(ArithmeticTokens(l), Cons(OperatorToken(op), ArithmeticTokens(r)));
      var k := j - 2;
      SliceSplit(ts, i, k, j);
      SliceLength(ts, i, k);
      AppendCancel(Slice(ts, i, k), Slice(ts, k, j), ArithmeticTokens(l), Cons(OperatorToken(op), ArithmeticTokens(r)));
      ArithmeticComplete(ts, i, l, k);
      assert ComponentAt(ts, k + 1) == Ok((r, j));
      AttachTokens(l, op, r);
    case _ =>
  }

  /** parse_arithmetic from cursor i yields a and stops at j exactly when
      the tokens between are those of the left-linear expression a and no
      operator follows them. */
  lemma ArithmeticParses(ts: seq<T.Token>, i: nat, a: Arithmetic, j: nat)
    ensures ArithmeticAt(ts, i) == Ok((a, j)) <==>
      i <= j <= |ts| && Slice(ts, i, j) == ArithmeticTokens(a) && LeftLinear(a) &&
      (j == |ts| || !IsArithmeticOperator(ts[j]))
  {
    ArithmeticSound(ts, i);
    if i <= j <= |ts| && Slice(ts, i, j) == ArithmeticTokens(a) && LeftLinear(a) {
      ArithmeticComplete(ts, i, a, j);
    }
  }

  /** The tokens parse_arithmetic consumes, `!`-free, are those of its
      result. */
  lemma ArithmeticRange(ts: seq<T.Token>, i: nat)
    ensures var r := ArithmeticAt(ts, i);
      r.Ok? ==> WithoutNot(ts, i, r.value.1) == ArithmeticTokens(r.value.0)
  {
    var r := ArithmeticAt(ts, i);
    if r.Ok? {
      ArithmeticSound(ts, i);
      ArithmeticHasNoNot(r.value.0);
      WithoutNotUnchanged(ts, i, r.value.1);
    }
  }

  /** parse_boolean consumes the tokens of the condition it returns, with any
      number of `!` among them dropped; it never builds a `!` comparison. */
  lemma {:induction false} BooleanSound(ts: seq<T.Token>, i: nat)
    ensures var r := BooleanAt(ts, i);
      r.Ok? ==>
        WithoutNot(ts, i, r.value.1) == BooleanTokens(r.value.0) &&
        (r.value.0.Binary? ==> r.value.0.op != Not)
    decreases Remaining(ts, i)
  {
    var r := BooleanAt(ts, i);
    if r.Ok? {
      var j := r.value.1;
      if ts[i].Not? {
        BooleanSound(ts, i + 1);
      } else if !ts[i].False? && !ts[i].True? {
        var lhs := ArithmeticAt(ts, i).value;
        var k := lhs.1;
        var rhs := ArithmeticAt(ts, k + 1).value;
        assert r.value == (Boolean.Binary(lhs.0, BooleanOperator(ts[k]).value, rhs.0), rhs.1);
        ArithmeticRange(ts, i);
        ArithmeticRange(ts, k + 1);
        WithoutNotSplit(ts, i, k, j);
      }
    }
  }

  /** Joining with `;` writes the two statements with `;` between them: the
      re-association does not change the text. */
  lemma ComposeTokens(lhs: Statement, s: Statement)
    ensures StatementTokens(Compose(lhs, s)) == Append(StatementTokens(lhs), Cons(T.SemiColon, StatementTokens(s)))
  {
    match lhs
    case Composision(s1, s2) =>
      AppendAssoc(StatementTokens(s1), Cons(T.SemiColon, StatementTokens(s2)), Cons(T.SemiColon, StatementTokens(s)));
    case _ =>
  }

  lemma LeavesComposision(s1: Statement, s2: Statement)
    ensures Leaves(Composision(s1, s2)) == Append(Leaves(s1), Leaves(s2))
  {
  }

  /** Joining with `;` runs the statements of lhs before those of s. */
  lemma ComposeLeaves(lhs: Statement, s: Statement)
    ensures Leaves(Compose(lhs, s)) == Append(Leaves(lhs), Leaves(s))
  {
    if lhs.Composision? {
      var s1, s2 := lhs.first, lhs.second;
      assert Compose(lhs, s) == Composision(s1, Composision(s2, s));
      LeavesComposision(s2, s);
      LeavesComposision(s1, Composision(s2, s));
      LeavesComposision(s1, s2);
      AppendAssoc(Leaves(s1), Leaves(s2), Leaves(s));
    } else {
      assert Compose(lhs, s) == Composision(lhs, s);
      LeavesComposision(lhs, s);
    }
  }

  /** parse_assignment consumes the tokens of the assignment after its
      identifier. */
  lemma AssignmentSound(ts: seq<T.Token>, i: nat, ident: string)
    ensures var r := AssignmentAt(ts, i, ident);
      r.Ok? ==> r.value.0.Assignment? && Cons(T.Ident(ident), WithoutNot(ts, i, r.value.1)) == StatementTokens(r.value.0)
  {
    var r := AssignmentAt(ts, i, ident);
    if r.Ok? {
      ArithmeticRange(ts, i + 1);
    }
  }

  /** parse_statement consumes the tokens of the statement it returns, `!`
      aside. Without a statement before it, the result is never a
      composition; with one, the result is that statement joined to the
      next. */
  lemma {:induction false} StatementSound(ts: seq<T.Token>, i: nat, lhs: Option<Statement>)
    ensures var r := StatementAt(ts, i, lhs);
      r.Ok? ==>
        (lhs.None? ==> !r.value.0.Composision? && WithoutNot(ts, i, r.value.1) == StatementTokens(r.value.0)) &&
        (lhs.Some? ==> StatementTokens(r.value.0) == Append(StatementTokens(lhs.value), WithoutNot(ts, i, r.value.1)))
    decreases Remaining(ts, i)
  {
    var r := StatementAt(ts, i, lhs);
    if r.Ok? {
      match ts[i]
      case SemiColon =>
        StatementSound(ts, i + 1, None);
        ComposeTokens(lhs.value, StatementAt(ts, i + 1, None).value.0);
      case If =>
        IfSound(ts, i + 1);
      case While =>
        WhileSound(ts, i + 1);
      case Ident(x) =>
        AssignmentSound(ts, i + 1, x);
      case _ =>
    }
  }

  /** A conditional that parses is made of a condition, `then`, a statement,
      `else` and a statement. */
  lemma IfParts(ts: seq<T.Token>, i: nat)
    ensures var r := IfAt(ts, i);
      r.Ok? ==>
        var c := BooleanAt(ts, i);
        c.Ok? && c.value.1 < |ts| && ts[c.value.1] == T.Then &&
        var a := StatementAt(ts, c.value.1 + 1, None);
        a.Ok? && a.value.1 < |ts| && ts[a.value.1] == T.Else &&
        var b := StatementAt(ts, a.value.1 + 1, None);
        b.Ok? && r.value == (If(c.value.0, a.value.0, b.value.0), b.value.1)
  {
  }

  /** The text of a conditional from the text of its parts. */
  lemma IfText(ts: seq<T.Token>, i: nat, j: nat, k: nat, m: nat, c: Boolean, a: Statement, b: Statement)
    requires i <= j < k < m <= |ts| && ts[j] == T.Then && ts[k] == T.Else
    requires WithoutNot(ts, i, j) == BooleanTokens(c)
    requires WithoutNot(ts, j + 1, k) == StatementTokens(a)
    requires WithoutNot(ts, k + 1, m) == StatementTokens(b)
    ensures Cons(T.If, WithoutNot(ts, i, m)) == StatementTokens(If(c, a, b))
  {
    WithoutNotSplit(ts, i, j, m);
    WithoutNotSplit(ts, j + 1, k, m);
  }

  /** parse_if consumes the tokens of the conditional after `if`. */
  lemma {:induction false} IfSound(ts: seq<T.Token>, i: nat)
    ensures var r := IfAt(ts, i);
      r.Ok? ==> r.value.0.If? && Cons(T.If, WithoutNot(ts, i, r.value.1)) == StatementTokens(r.value.0)
    decreases Remaining(ts, i)
  {
    var r := IfAt(ts, i);
    if r.Ok? {
      IfParts(ts, i);
      var j := BooleanAt(ts, i).value.1;
      var k := StatementAt(ts, j + 1, None).value.1;
      var m := r.value.1;
      BooleanSound(ts, i);
      StatementSound(ts, j + 1, None);
      StatementSound(ts, k + 1, None);
      IfText(ts, i, j, k, m, BooleanAt(ts, i).value.0, StatementAt(ts, j + 1, None).value.0, r.value.0.elseBranch);
    }
  }

  /** A loop that parses is made of a condition, `do` and a statement. */
  lemma WhileParts(ts: seq<T.Token>, i: nat)
    ensures var r := WhileAt(ts, i);
      r.Ok? ==>
        var c := BooleanAt(ts, i);
        c.Ok? && c.value.1 < |ts| && ts[c.value.1] == T.Do &&
        var body := StatementAt(ts, c.value.1 + 1, None);
        body.Ok? && r.value == (While(c.value.0, body.value.0), body.value.1)
  {
  }

  /** parse_while consumes the tokens of the loop after `while`. */
  lemma {:induction false} WhileSound(ts: seq<T.Token>, i: nat)
    ensures var r := WhileAt(ts, i);
      r.Ok? ==> r.value.0.While? && Cons(T.While, WithoutNot(ts, i, r.value.1)) == StatementTokens(r.value.0)
    decreases Remaining(ts, i)
  {
    var r := WhileAt(ts, i);
    if r.Ok? {
      WhileParts(ts, i);
      var j := BooleanAt(ts, i).value.1;
      BooleanSound(ts, i);
      StatementSound(ts, j + 1, None);
      WithoutNotSplit(ts, i, j, r.value.1);
    }
  }

  /** The loop of parse consumes every remaining token into the program. */
  lemma {:induction false} ProgramFromSound(ts: seq<T.Token>, i: nat, statement: Option<Statement>)
    requires i <= |ts|
    ensures var r := ProgramFrom(ts, i, statement);
      r.Ok? ==>
        (statement.None? ==> StatementTokens(r.value) == WithoutNot(ts, i, |ts|)) &&
        (statement.Some? ==> StatementTokens(r.value) == Append(StatementTokens(statement.value), WithoutNot(ts, i, |ts|)))
    decreases Remaining(ts, i)
  {
    if i == |ts| && statement.Some? {
      AppendNil(StatementTokens(statement.value));
    } else if i < |ts| && StatementAt(ts, i, statement).Ok? {
      var next := StatementAt(ts, i, statement).value;
      assert ProgramFrom(ts, i, statement) == ProgramFrom(ts, next.1, Some(next.0));
      StatementSound(ts, i, statement);
      ProgramFromSound(ts, next.1, Some(next.0));
      WithoutNotSplit(ts, i, next.1, |ts|);
      if statement.Some? {
        AppendAssoc(StatementTokens(statement.value), WithoutNot(ts, i, next.1), WithoutNot(ts, next.1, |ts|));
      }
    }
  }

  /** A parsed program is written with exactly the input tokens, less every
      `!`: the parser keeps every statement and operand in reading order and
      drops negation. */
  lemma ProgramSound(ts: seq<T.Token>)
    ensures Program(ts).Ok? ==> StatementTokens(Program(ts).value) == WithoutNot(ts, 0, |ts|)
  {
    ProgramFromSound(ts, 0, None);
  }

  /** Once a statement is read the loop of parse never reports an empty
      program. */
  lemma {:induction false} ProgramFromNotEmpty(ts: seq<T.Token>, i: nat, s: Statement)
    ensures ProgramFrom(ts, i, Some(s)) != Err(EmptyProgram)
    decreases Remaining(ts, i)
  {
    if i < |ts| && StatementAt(ts, i, Some(s)).Ok? {
      var next := StatementAt(ts, i, Some(s)).value;
      ProgramFromNotEmpty(ts, next.1, next.0);
    }
  }

  /** parse reports an empty program exactly when there are no tokens. */
  lemma EmptyProgramIff(ts: seq<T.Token>)
    ensures Program(ts) == Err(EmptyProgram) <==> ts == []
  {
    if ts != [] && StatementAt(ts, 0, None).Ok? {
      var next := StatementAt(ts, 0, None).value;
      ProgramFromNotEmpty(ts, next.1, next.0);
    }
  }

  /** A condition parse_boolean reads back as written: a literal, or a
      comparison of two left-linear expressions. */
  predicate SimpleCondition(c: Boolean)
  {
    match c
    case Binary(l, op, r) => op != Not && LeftLinear(l) && LeftLinear(r)
    case _ => true
  }

  /** The statements parse_statement returns when no statement comes before
      it: an assignment of a left-linear expression, skip, or an if or while
      over a simple condition whose branches are again such statements. */
  predicate Simple(s: Statement)
  {
    match s
    case Assignment(_, v) => LeftLinear(v)
    case Skip => true
    case Composision(_, _) => false
    case If(c, s1, s2) => SimpleCondition(c) && Simple(s1) && Simple(s2)
    case While(c, body) => SimpleCondition(c) && Simple(body)
  }

  predicate AllSimple(ss: List<Statement>)
  {
    match ss
    case Nil => true
    case Cons(s, rest) => Simple(s) && AllSimple(rest)
  }

  /** `; s1 ; s2 ... ; sn`: every statement preceded by `;`. */
  function Separated(ss: List<Statement>): List<T.Token>
  {
    match ss
    case Nil => Nil
    case Cons(s, rest) => Cons(T.SemiColon, Append(StatementTokens(s), Separated(rest)))
  }

  /** `s ; s1 ; ... ; sn`: a program written as statements joined by `;`. */
  function Joined(s: Statement, rest: List<Statement>): List<T.Token>
  {
    Append(StatementTokens(s), Separated(rest))
  }

  /** A stretch of tokens written as xs followed by ys splits where xs ends. */
  lemma SliceCut(ts: seq<T.Token>, i: nat, j: nat, xs: List<T.Token>, ys: List<T.Token>) returns (k: nat)
    requires i <= j <= |ts| && Slice(ts, i, j) == Append(xs, ys)
    ensures i <= k <= j && k == i + Length(xs)
    ensures Slice(ts, i, k) == xs && Slice(ts, k, j) == ys
  {
    SliceLength(ts, i, j);
    AppendLength(xs, ys);
    k := i + Length(xs);
    SliceSplit(ts, i, k, j);
    SliceLength(ts, i, k);
    AppendCancel(Slice(ts, i, k), Slice(ts, k, j), xs, ys);
  }

  /** A stretch of tokens written as t followed by ys starts with t. */
  lemma SliceHead(ts: seq<T.Token>, i: nat, j: nat, t: T.Token, ys: List<T.Token>)
    requires i <= j <= |ts| && Slice(ts, i, j) == Cons(t, ys)
    ensures i < j && ts[i] == t && Slice(ts, i + 1, j) == ys
  {
  }

  /** parse_boolean reads the tokens of a simple condition back as that
      condition, when no arithmetic operator follows them. */
  lemma BooleanComplete(ts: seq<T.Token>, i: nat, c: Boolean, j: nat)
    requires SimpleCondition(c)
    requires i <= j <= |ts| && Slice(ts, i, j) == BooleanTokens(c)
    requires j == |ts| || !IsArithmeticOperator(ts[j])
    ensures BooleanAt(ts, i) == Ok((c, j))
  {
    match c
    case Binary(l, op, r) =>
      var k := SliceCut(ts, i, j, ArithmeticTokens(l), Cons(ComparisonToken(op), ArithmeticTokens(r)));
      ArithmeticParses(ts, i, l, k);
      ArithmeticParses(ts, k + 1, r, j);
      assert ComponentAt(ts, i).Ok?;
    case _ =>
  }

  /** parse_statement with nothing before it hands `if` and `while` to
      their rules. */
  lemma StatementDispatch(ts: seq<T.Token>, i: nat)
    requires i < |ts|
    ensures ts[i] == T.If ==> StatementAt(ts, i, None) == IfAt(ts, i + 1)
    ensures ts[i] == T.While ==> StatementAt(ts, i, None) == WhileAt(ts, i + 1)
  {
    hide IfAt, WhileAt, AssignmentAt;
  }

  /** parse_if reads a condition, `then`, a statement, `else` and a statement
      found at the cursors given. */
  lemma IfReads(ts: seq<T.Token>, i: nat, c: Boolean, s1: Statement, s2: Statement, k: nat, m: nat, j: nat)
    requires BooleanAt(ts, i) == Ok((c, k)) && k < |ts| && ts[k] == T.Then
    requires StatementAt(ts, k + 1, None) == Ok((s1, m)) && m < |ts| && ts[m] == T.Else
    requires StatementAt(ts, m + 1, None) == Ok((s2, j))
    ensures IfAt(ts, i) == Ok((If(c, s1, s2), j))
  {
    hide BooleanAt, StatementAt;
  }

  /** parse_while reads a condition, `do` and a statement found at the
      cursors given. */
  lemma WhileReads(ts: seq<T.Token>, i: nat, c: Boolean, body: Statement, k: nat, j: nat)
    requires BooleanAt(ts, i) == Ok((c, k)) && k < |ts| && ts[k] == T.Do
    requires StatementAt(ts, k + 1, None) == Ok((body, j))
    ensures WhileAt(ts, i) == Ok((While(c, body), j))
  {
    hide BooleanAt, StatementAt;
  }

  /** parse_statement with nothing before it reads the tokens of a simple
      statement back as that statement, when no arithmetic operator follows
      them. */
  lemma {:induction false} StatementComplete(ts: seq<T.Token>, i: nat, s: Statement, j: nat)
    requires Simple(s)
    requires i <= j <= |ts| && Slice(ts, i, j) == StatementTokens(s)
    requires j == |ts| || !IsArithmeticOperator(ts[j])
    ensures StatementAt(ts, i, None) == Ok((s, j))
    decreases s, 1
  {
    match s
    case Assignment(x, v) =>
      ArithmeticParses(ts, i + 2, v, j);
    case Skip =>
    case If(c, s1, s2) =>
      IfComplete(ts, i, c, s1, s2, j);
    case While(c, body) =>
      WhileComplete(ts, i, c, body, j);
  }

  lemma {:induction false} IfComplete(ts: seq<T.Token>, i: nat, c: Boolean, s1: Statement, s2: Statement, j: nat)
    requires SimpleCondition(c) && Simple(s1) && Simple(s2)
    requires i <= j <= |ts|
    requires Slice(ts, i, j) == Cons(T.If, Append(BooleanTokens(c), Cons(T.Then, Append(StatementTokens(s1), Cons(T.Else, StatementTokens(s2))))))
    requires j == |ts| || !IsArithmeticOperator(ts[j])
    ensures StatementAt(ts, i, None) == Ok((If(c, s1, s2), j))
    decreases If(c, s1, s2), 0
  {
    hide StatementAt, IfAt, WhileAt, BooleanAt, Slice, Append, StatementTokens, BooleanTokens, Simple, SimpleCondition;
    var rest := Cons(T.Then, Append(StatementTokens(s1), Cons(T.Else, StatementTokens(s2))));
    SliceHead(ts, i, j, T.If, Append(BooleanTokens(c), rest));
    var k := SliceCut(ts, i + 1, j, BooleanTokens(c), rest);
    SliceHead(ts, k, j, T.Then, Append(StatementTokens(s1), Cons(T.Else, StatementTokens(s2))));
    BooleanComplete(ts, i + 1, c, k);
    var m := SliceCut(ts, k + 1, j, StatementTokens(s1), Cons(T.Else, StatementTokens(s2)));
    SliceHead(ts, m, j, T.Else, StatementTokens(s2));
    StatementComplete(ts, k + 1, s1, m);
    StatementComplete(ts, m + 1, s2, j);
    IfReads(ts, i + 1, c, s1, s2, k, m, j);
    StatementDispatch(ts, i);
  }

  lemma {:induction false} WhileComplete(ts: seq<T.Token>, i: nat, c: Boolean, body: Statement, j: nat)
    requires SimpleCondition(c) && Simple(body)
    requires i <= j <= |ts|
    requires Slice(ts, i, j) == Cons(T.While, Append(BooleanTokens(c), Cons(T.Do, StatementTokens(body))))
    requires j == |ts| || !IsArithmeticOperator(ts[j])
    ensures StatementAt(ts, i, None) == Ok((While(c, body), j))
    decreases While(c, body), 0
  {
    hide StatementAt, IfAt, WhileAt, BooleanAt, Slice, Append, StatementTokens, BooleanTokens, Simple, SimpleCondition;
    SliceHead(ts, i, j, T.While, Append(BooleanTokens(c), Cons(T.Do, StatementTokens(body))));
    var k := SliceCut(ts, i + 1, j, BooleanTokens(c), Cons(T.Do, StatementTokens(body)));
    SliceHead(ts, k, j, T.Do, StatementTokens(body));
    BooleanComplete(ts, i + 1, c, k);
    StatementComplete(ts, k + 1, body, j);
    WhileReads(ts, i + 1, c, body, k, j);
    StatementDispatch(ts, i);
  }

  /** The loop of parse, with prev read, takes `; s1 ; ... ; sn` of simple
      statements and ends with a statement whose leaves are those of prev
      followed by s1 ... sn, in that order. */
  lemma {:induction false} ProgramFromComplete(ts: seq<T.Token>, i: nat, prev: Statement, ss: List<Statement>)
    requires AllSimple(ss)
    requires i <= |ts| && Slice(ts, i, |ts|) == Separated(ss)
    ensures ProgramFrom(ts, i, Some(prev)).Ok?
    ensures Leaves(ProgramFrom(ts, i, Some(prev)).value) == Append(Leaves(prev), ss)
    decreases ss
  {
    match ss
    case Nil =>
      AppendNil(Leaves(prev));
    case Cons(s, rest) =>
      var k := SliceCut(ts, i + 1, |ts|, StatementTokens(s), Separated(rest));
      StatementComplete(ts, i + 1, s, k);
      var next := Compose(prev, s);
      assert ProgramFrom(ts, i, Some(prev)) == ProgramFrom(ts, k, Some(next));
      ProgramFromComplete(ts, k, next, rest);
      ComposeLeaves(prev, s);
      AppendAssoc(Leaves(prev), Cons(s, Nil), rest);
  }

  /** parse reads `s ; s1 ; ... ; sn` of simple statements as a program whose
      statements, in running order, are s, s1, ..., sn: joining by `;`
      keeps source order. */
  lemma ProgramComplete(ts: seq<T.Token>, s: Statement, rest: List<Statement>)
    requires Simple(s) && AllSimple(rest)
    requires Slice(ts, 0, |ts|) == Joined(s, rest)
    ensures Program(ts).Ok? && Leaves(Program(ts).value) == Cons(s, rest)
  {
    var k := SliceCut(ts, 0, |ts|, StatementTokens(s), Separated(rest));
    StatementComplete(ts, 0, s, k);
    assert Program(ts) == ProgramFrom(ts, k, Some(s));
    ProgramFromComplete(ts, k, s, rest);
  }

  /** A method's outcome agrees with a specification result: the same
      value with the cursor where the specification leaves it, or the same
      error. */
  predicate Follows<X(==)>(r: Result<X, ParseError>, index: nat, spec: Result<(X, nat), ParseError>)
  {
    match spec
    case Ok((x, j)) => r == Ok(x) && index == j
    case Err(e) => r == Err(e)
  }

  /** The parser of parser.rs: the token vector and the cursor into it. */
  class Parser {
    const tokens: seq<T.Token>
    var index: nat

    constructor (tokens: seq<T.Token>)
      ensures this.tokens == tokens && index == 0
    {
      this.tokens := tokens;
      index := 0;
    }

    /** peek: the token under the cursor, if any. */
    method Peek() returns (t: Option<T.Token>)
      ensures t == TokenAt(tokens, index)
    {
      t := if index < |tokens| then Some(tokens[index]) else None;
    }

    /** next: the token under the cursor, if any; the cursor moves on even
        past the end. */
    method Next() returns (t: Option<T.Token>)
      modifies this
      ensures t == TokenAt(tokens, old(index)) && index == old(index) + 1
    {
      t := if index < |tokens| then Some(tokens[index]) else None;
      index := index + 1;
    }

    /** expect: reads one token and fails when it is another one. */
    method Expect(expected: T.Token) returns (e: Option<ParseError>)
      modifies this
      ensures e == ExpectError(tokens, old(index), expected) && index == old(index) + 1
    {
      var token := Next();
      e := if token.Some? && token.value != expected then Some(ExpectedToken(expected, token.value)) else None;
    }

    method ParseArithmeticComponent() returns (r: Result<Arithmetic, ParseError>)
      modifies this
      ensures Follows(r, index, ComponentAt(tokens, old(index)))
    {
      var token := Next();
      if token.None? {
        return Err(UnexpectedEndOfFile);
      }
      match token.value
      case Int(n) => r := Ok(Int(n));
      case Ident(x) => r := Ok(Ident(x));
      case t => r := Err(UnexpectedToken(t));
    }

    method ParseArithmetic() returns (r: Result<Arithmetic, ParseError>)
      modifies this
      ensures Follows(r, index, ArithmeticAt(tokens, old(index)))
    {
      var first := ParseArithmeticComponent();
      if first.Err? {
        return Err(first.error);
      }
      var lhs := first.value;
      while true
        invariant index <= |tokens|
        invariant ArithmeticAt(tokens, old(index)) == ArithmeticRest(tokens, index, lhs)
        decreases |tokens| - index
      {
        var token := Peek();
        if token.None? || !IsArithmeticOperator(token.value) {
          return Ok(lhs);
        }
        var operatorToken := Next();
        var op := ArithmeticOperator(operatorToken.value).value;
        var rhs := ParseArithmeticComponent();
        if rhs.Err? {
          return Err(rhs.error);
        }
        lhs := Attach(lhs, op, rhs.value);
      }
    }

    method ParseBoolean() returns (r: Result<Boolean, ParseError>)
      modifies this
      ensures Follows(r, index, BooleanAt(tokens, old(index)))
      decreases Remaining(tokens, index)
    {
      var token := Peek();
      if token.None? {
        return Err(UnexpectedEndOfFile);
      }
      if token.value.False? || token.value.True? || token.value.Not? {
        var skipped := Next();
        if token.value.False? {
          r := Ok(False);
        } else if token.value.True? {
          r := Ok(True);
        } else {
          r := ParseBoolean();
        }
        return;
      }
      var lhs := ParseArithmetic();
      if lhs.Err? {
        return Err(lhs.error);
      }
      var operatorToken := Next();
      if operatorToken.None? {
        return Err(UnexpectedEndOfFile);
      }
      if !operatorToken.value.Eq? && !operatorToken.value.LEq? {
        return Err(UnexpectedToken(operatorToken.value));
      }
      var op := BooleanOperator(operatorToken.value).value;
      var rhs := ParseArithmetic();
      if rhs.Err? {
        return Err(rhs.error);
      }
      r := Ok(Boolean.Binary(lhs.value, op, rhs.value));
    }

    method ParseAssignment(ident: string) returns (r: Result<Statement, ParseError>)
      modifies this
      ensures Follows(r, index, AssignmentAt(tokens, old(index), ident))
    {
      var e := Expect(T.Assign);
      if e.Some? {
        return Err(e.value);
      }
      var value := ParseArithmetic();
      if value.Err? {
        return Err(value.error);
      }
      r := Ok(Assignment(ident, value.value));
    }

    method ParseStatement(lhs: Option<Statement>) returns (r: Result<Statement, ParseError>)
      modifies this
      ensures Follows(r, index, StatementAt(tokens, old(index), lhs))
      decreases Remaining(tokens, index), 1
    {
      var token := Next();
      if token.None? {
        return Err(UnexpectedEndOfFile);
      }
      var t := token.value;
      if !t.SemiColon? && lhs.Some? {
        return Err(MissingSemiColon(t));
      }
      match t
      case Skip => r := Ok(Skip);
      case SemiColon =>
        if lhs.None? {
          return Err(NoLeftHandSide);
        }
        var next := ParseStatement(None);
        if next.Err? {
          return Err(next.error);
        }
        r := Ok(Compose(lhs.value, next.value));
      case If => r := ParseIf();
      case While => r := ParseWhile();
      case Ident(x) => r := ParseAssignment(x);
      case _ => r := Err(UnexpectedToken(t));
    }

    method ParseIf() returns (r: Result<Statement, ParseError>)
      modifies this
      ensures Follows(r, index, IfAt(tokens, old(index)))
      decreases Remaining(tokens, index), 0
    {
      var condition := ParseBoolean();
      if condition.Err? {
        return Err(condition.error);
      }
      var e := Expect(T.Then);
      if e.Some? {
        return Err(e.value);
      }
      var ifBranch := ParseStatement(None);
      if ifBranch.Err? {
        return Err(ifBranch.error);
      }
      e := Expect(T.Else);
      if e.Some? {
        return Err(e.value);
      }
      var elseBranch := ParseStatement(None);
      if elseBranch.Err? {
        return Err(elseBranch.error);
      }
      r := Ok(If(condition.value, ifBranch.value, elseBranch.value));
    }

    method ParseWhile() returns (r: Result<Statement, ParseError>)
      modifies this
      ensures Follows(r, index, WhileAt(tokens, old(index)))
      decreases Remaining(tokens, index), 0
    {
      var condition := ParseBoolean();
      if condition.Err? {
        return Err(condition.error);
      }
      var e := Expect(T.Do);
      if e.Some? {
        return Err(e.value);
      }
      var body := ParseStatement(None);
      if body.Err? {
        return Err(body.error);
      }
      r := Ok(While(condition.value, body.value));
    }

    /** parse: statements are read, each joined to the ones before, until
        the tokens run out; no statement at all is an error. */
    method Parse() returns (r: Result<Statement, ProgramError>)
      modifies this
      ensures r == ProgramFrom(tokens, old(index), None)
    {
      var statement: Option<Statement> := None;
      while index < |tokens|
        invariant ProgramFrom(tokens, old(index), None) == ProgramFrom(tokens, index, statement)
        decreases |tokens| - index
      {
        var s := ParseStatement(statement);
        if s.Err? {
          return Err(Syntax(s.error));
        }
        statement := Some(s.value);
      }
      if statement.None? {
        return Err(EmptyProgram);
      }
      r := Ok(statement.value);
    }
  }
}
