/** The While front end's code generator (whilec/src/code_gen.rs): a syntax
    tree becomes am4 assembly text. Expressions are written in postfix order
    for the stack machine; `if` and `while` jump to numbered labels drawn
    from a counter. The text is built from lines, one per `format!` of the
    source, and the generator is proved to write exactly the lines of the
    specification functions below. */
module WhileCodeGen {

  import opened Wrappers
  import opened Words
  import opened Lists
  import opened Isa
  import opened WhileParser
  import Vm

  /** One piece of output, as one `format!` of code_gen.rs writes it. */
  datatype Line =
    | Push(n: int32)                      // `    push n`
    | Fetch(ident: string)                // `    fetch x`
    | Store(ident: string)                // `    store x`
    | Noop                                // `    noop`
    | ArithmeticOperation(aop: ArithmeticOp)  // `    add`, `    sub`, `    mul`
    | BooleanOperation(bop: BooleanOp)        // `    eq`, `    le`, `    lneg`
    | Literal(b: bool)                    // `false` or `true`, as written: no indentation, no newline
    | JumpIfZero(target: nat)             // `    jeqz L` for the name L of label number target
    | Jump(target: nat)                   // `    jmp L`
    | Label(number: nat)                  // `L`

  function Digit(d: nat): char
    requires d < 10
  {
    ('0' as int + d) as char
  }

  /** The decimal digits of a number, as `to_string` writes them. */
  function NatString(n: nat): (s: string)
    ensures |s| >= 1 && (|s| == 1 <==> n < 10)
  {
    if n < 10 then [Digit(n)] else NatString(n / 10) + [Digit(n % 10)]
  }

  /** An `i32` as `{}` writes it: a minus sign before negative numbers. */
  function IntString(n: int32): string
  {
    if n < 0 then "-" + NatString(-(n as int)) else NatString(n)
  }

  /** The name next_label gives to label number n: the number and a colon.
      Jumps name their target with the same text. */
  function LabelName(n: nat): string
  {
    NatString(n) + ":"
  }

  /** The assembly mnemonic an arithmetic operator is written with. */
  function ArithmeticMnemonic(op: ArithmeticOp): string
  {
    match op
    case Add => "add"
    case Sub => "sub"
    case Mul => "mul"
  }

  /** The assembly mnemonic a comparison operator is written with. */
  function BooleanMnemonic(op: BooleanOp): string
  {
    match op
    case Eq => "eq"
    case LEq => "le"
    case Not => "lneg"
  }

  /** The machine operation an arithmetic operator is written as. */
  function ArithmeticKind(op: ArithmeticOp): InstructionKind
  {
    match op
    case Add => InstructionAdd
    case Sub => InstructionSub
    case Mul => InstructionMul
  }

  /** The machine operation a comparison operator is written as. */
  function BooleanKind(op: BooleanOp): InstructionKind
  {
    match op
    case Eq => InstructionEq
    case LEq => InstructionLe
    case Not => InstructionLNeg
  }

  /** The text of one line. */
  function Render(line: Line): string
  {
    match line
    case Push(n) => "    push " + IntString(n) + "\n"
    case Fetch(x) => "    fetch " + x + "\n"
    case Store(x) => "    store " + x + "\n"
    case Noop => "    noop\n"
    case ArithmeticOperation(op) => "    " + ArithmeticMnemonic(op) + "\n"
    case BooleanOperation(op) => "    " + BooleanMnemonic(op) + "\n"
    case Literal(b) => if b then "true" else "false"
    case JumpIfZero(t) => "    jeqz " + LabelName(t) + "\n"
    case Jump(t) => "    jmp " + LabelName(t) + "\n"
    case Label(n) => LabelName(n) + "\n"
  }

  /** The text of a list of lines. */
  function Text(code: List<Line>): string
  {
    match code
    case Nil => ""
    case Cons(line, rest) => Render(line) + Text(rest)
  }

  function One(line: Line): List<Line>
  {
    Cons(line, Nil)
  }

  /** code_gen_arithmetic: the operands' code, then the operator. */
  function ArithmeticCode(a: Arithmetic): List<Line>
  {
    match a
    case Int(n) => One(Push(n))
    case Ident(x) => One(Fetch(x))
    case Binary(l, op, r) => Append(Append(ArithmeticCode(l), ArithmeticCode(r)), One(ArithmeticOperation(op)))
  }

  /** code_gen_boolean. */
  function BooleanCode(b: Boolean): List<Line>
  {
    match b
    case False => One(Literal(false))
    case True => One(Literal(true))
    case Binary(l, op, r) => Append(Append(ArithmeticCode(l), ArithmeticCode(r)), One(BooleanOperation(op)))
  }

  /** How far a statement moves the label counter: two labels per `if` and
      per `while`. */
  function LabelsUsed(s: Statement): nat
  {
    match s
    case Assignment(_, _) => 0
    case Skip => 0
    case Composision(s1, s2) => LabelsUsed(s1) + LabelsUsed(s2)
    case If(_, s1, s2) => 2 + LabelsUsed(s1) + LabelsUsed(s2)
    case While(_, body) => 2 + LabelsUsed(body)
  }

  /** code_gen with the label counter at l. */
  function StatementCode(s: Statement, l: nat): List<Line>
    decreases s, 1
  {
    match s
    case Assignment(x, v) => Append(ArithmeticCode(v), One(Store(x)))
    case Skip => One(Noop)
    case Composision(s1, s2) => Append(StatementCode(s1, l), StatementCode(s2, l + LabelsUsed(s1)))
    case If(c, s1, s2) => IfCode(c, s1, s2, l)
    case While(c, body) => WhileCode(c, body, l)
  }

  /** code_gen_if with the label counter at l: else label l, end label
      l + 1; the branches draw their labels after those two. */
  function IfCode(c: Boolean, s1: Statement, s2: Statement, l: nat): List<Line>
    decreases If(c, s1, s2), 0
  {
    Append(Append(Append(Append(Append(Append(
      BooleanCode(c),
      One(JumpIfZero(l))),
      StatementCode(s1, l + 2)),
      One(Jump(l + 1))),
      One(Label(l))),
      StatementCode(s2, l + 2 + LabelsUsed(s1))),
      One(Label(l + 1)))
  }

  /** code_gen_while with the label counter at l: condition label l, end
      label l + 1. */
  function WhileCode(c: Boolean, body: Statement, l: nat): List<Line>
    decreases While(c, body), 0
  {
    Append(Append(Append(Append(Append(
      One(Label(l)),
      BooleanCode(c)),
      One(JumpIfZero(l + 1))),
      StatementCode(body, l + 2)),
      One(Jump(l))),
      One(Label(l + 1)))
  }

  /** The text of two pieces of code one after the other is the one text
      followed by the other. */
  lemma {:induction false} TextAppend(a: List<Line>, b: List<Line>)
    ensures Text(Append(a, b)) == Text(a) + Text(b)
  {
    hide Render;
    match a
    case Nil =>
    case Cons(line, rest) =>
      TextAppend(rest, b);
      ConcatAssoc(Render(line), Text(rest), Text(b));
  }

  /** Different numbers have different digits. */
  lemma {:induction false} NatStringInjective(m: nat, n: nat)
    ensures NatString(m) == NatString(n) <==> m == n
  {
    if NatString(m) == NatString(n) && m >= 10 && n >= 10 {
      var a, b := NatString(m), NatString(n);
      assert a[..|a| - 1] == NatString(m / 10);
      assert b[..|b| - 1] == NatString(n / 10);
      NatStringInjective(m / 10, n / 10);
      assert Digit(m % 10) == a[|a| - 1] == b[|b| - 1] == Digit(n % 10);
    } else if NatString(m) == NatString(n) && m < 10 && n < 10 {
      assert Digit(m) == NatString(m)[0] == NatString(n)[0] == Digit(n);
    }
  }

  /** next_label's names are pairwise distinct: label m and label n have
      the same name exactly when m == n. */
  lemma LabelNameInjective(m: nat, n: nat)
    ensures LabelName(m) == LabelName(n) <==> m == n
  {
    if LabelName(m) == LabelName(n) {
      assert NatString(m) == LabelName(m)[..|LabelName(m)| - 1];
      assert NatString(n) == LabelName(n)[..|LabelName(n)| - 1];
      NatStringInjective(m, n);
    }
  }

  /** How many lines of the code define label number n. */
  function Defines(code: List<Line>, n: nat): nat
  {
    match code
    case Nil => 0
    case Cons(line, rest) => (if line.Label? && line.number == n then 1 else 0) + Defines(rest, n)
  }

  /** Some jump of the code targets label number n. */
  predicate JumpsTo(code: List<Line>, n: nat)
  {
    match code
    case Nil => false
    case Cons(line, rest) => ((line.Jump? || line.JumpIfZero?) && line.target == n) || JumpsTo(rest, n)
  }

  lemma {:induction false} DefinesAppend(a: List<Line>, b: List<Line>, n: nat)
    ensures Defines(Append(a, b), n) == Defines(a, n) + Defines(b, n)
    ensures JumpsTo(Append(a, b), n) <==> JumpsTo(a, n) || JumpsTo(b, n)
  {
    match a
    case Nil =>
    case Cons(_, rest) => DefinesAppend(rest, b, n);
  }

  /** Expression code neither defines nor targets a label. */
  lemma {:induction false} ArithmeticCodeNoLabels(a: Arithmetic, n: nat)
    ensures Defines(ArithmeticCode(a), n) == 0 && !JumpsTo(ArithmeticCode(a), n)
  {
    match a
    case Binary(l, op, r) =>
      ArithmeticCodeNoLabels(l, n);
      ArithmeticCodeNoLabels(r, n);
      DefinesAppend(ArithmeticCode(l), ArithmeticCode(r), n);
      DefinesAppend(Append(ArithmeticCode(l), ArithmeticCode(r)), One(ArithmeticOperation(op)), n);
    case _ =>
  }

  lemma BooleanCodeNoLabels(b: Boolean, n: nat)
    ensures Defines(BooleanCode(b), n) == 0 && !JumpsTo(BooleanCode(b), n)
  {
    match b
    case Binary(l, op, r) =>
      ArithmeticCodeNoLabels(l, n);
      ArithmeticCodeNoLabels(r, n);
      DefinesAppend(ArithmeticCode(l), ArithmeticCode(r), n);
      DefinesAppend(Append(ArithmeticCode(l), ArithmeticCode(r)), One(BooleanOperation(op)), n);
    case _ =>
  }

  /** The code of a statement drawn from counter l defines each label
      l .. l + LabelsUsed(s) - 1 exactly once and no other label. */
  lemma {:induction false} LabelsDefinedOnce(s: Statement, l: nat, n: nat)
    ensures Defines(StatementCode(s, l), n) == if l <= n < l + LabelsUsed(s) then 1 else 0
  {
    match s
    case Assignment(x, v) =>
      ArithmeticCodeNoLabels(v, n);
      DefinesAppend(ArithmeticCode(v), One(Store(x)), n);
    case Skip =>
      DefinesOne(Noop, n);
    case Composision(s1, s2) =>
      LabelsDefinedOnce(s1, l, n);
      LabelsDefinedOnce(s2, l + LabelsUsed(s1), n);
      DefinesAppend(StatementCode(s1, l), StatementCode(s2, l + LabelsUsed(s1)), n);
    case If(c, s1, s2) =>
      LabelsDefinedOnce(s1, l + 2, n);
      LabelsDefinedOnce(s2, l + 2 + LabelsUsed(s1), n);
      IfDefinedOnce(c, s1, s2, l, n);
    case While(c, body) =>
      LabelsDefinedOnce(body, l + 2, n);
      WhileDefinedOnce(c, body, l, n);
  }

  lemma IfDefinedOnce(c: Boolean, s1: Statement, s2: Statement, l: nat, n: nat)
    requires Defines(StatementCode(s1, l + 2), n) == if l + 2 <= n < l + 2 + LabelsUsed(s1) then 1 else 0
    requires Defines(StatementCode(s2, l + 2 + LabelsUsed(s1)), n) ==
      if l + 2 + LabelsUsed(s1) <= n < l + 2 + LabelsUsed(s1) + LabelsUsed(s2) then 1 else 0
    ensures Defines(StatementCode(If(c, s1, s2), l), n) == if l <= n < l + LabelsUsed(If(c, s1, s2)) then 1 else 0
  {
    BooleanCodeNoLabels(c, n);
    IfShapeLabels(BooleanCode(c), StatementCode(s1, l + 2), StatementCode(s2, l + 2 + LabelsUsed(s1)), l, n);
    assert StatementCode(If(c, s1, s2), l) == IfCode(c, s1, s2, l);
  }

  lemma WhileDefinedOnce(c: Boolean, body: Statement, l: nat, n: nat)
    requires Defines(StatementCode(body, l + 2), n) == if l + 2 <= n < l + 2 + LabelsUsed(body) then 1 else 0
    ensures Defines(StatementCode(While(c, body), l), n) == if l <= n < l + LabelsUsed(While(c, body)) then 1 else 0
  {
    BooleanCodeNoLabels(c, n);
    WhileShapeLabels(BooleanCode(c), StatementCode(body, l + 2), l, n);
    assert StatementCode(While(c, body), l) == WhileCode(c, body, l);
  }

  /** Every jump in the code of a statement drawn from counter l targets
      one of the labels l .. l + LabelsUsed(s) - 1. */
  lemma {:induction false} JumpTargetInRange(s: Statement, l: nat, n: nat)
    ensures JumpsTo(StatementCode(s, l), n) ==> l <= n < l + LabelsUsed(s)
  {
    match s
    case Assignment(x, v) =>
      ArithmeticCodeNoLabels(v, n);
      DefinesAppend(ArithmeticCode(v), One(Store(x)), n);
    case Skip =>
      DefinesOne(Noop, n);
    case Composision(s1, s2) =>
      JumpTargetInRange(s1, l, n);
      JumpTargetInRange(s2, l + LabelsUsed(s1), n);
      DefinesAppend(StatementCode(s1, l), StatementCode(s2, l + LabelsUsed(s1)), n);
    case If(c, s1, s2) =>
      JumpTargetInRange(s1, l + 2, n);
      JumpTargetInRange(s2, l + 2 + LabelsUsed(s1), n);
      IfJumpsInRange(c, s1, s2, l, n);
    case While(c, body) =>
      JumpTargetInRange(body, l + 2, n);
      WhileJumpsInRange(c, body, l, n);
  }

  lemma IfJumpsInRange(c: Boolean, s1: Statement, s2: Statement, l: nat, n: nat)
    requires JumpsTo(StatementCode(s1, l + 2), n) ==> l + 2 <= n < l + 2 + LabelsUsed(s1)
    requires JumpsTo(StatementCode(s2, l + 2 + LabelsUsed(s1)), n) ==>
      l + 2 + LabelsUsed(s1) <= n < l + 2 + LabelsUsed(s1) + LabelsUsed(s2)
    ensures JumpsTo(StatementCode(If(c, s1, s2), l), n) ==> l <= n < l + LabelsUsed(If(c, s1, s2))
  {
    BooleanCodeNoLabels(c, n);
    IfShapeLabels(BooleanCode(c), StatementCode(s1, l + 2), StatementCode(s2, l + 2 + LabelsUsed(s1)), l, n);
    assert StatementCode(If(c, s1, s2), l) == IfCode(c, s1, s2, l);
  }

  lemma WhileJumpsInRange(c: Boolean, body: Statement, l: nat, n: nat)
    requires JumpsTo(StatementCode(body, l + 2), n) ==> l + 2 <= n < l + 2 + LabelsUsed(body)
    ensures JumpsTo(StatementCode(While(c, body), l), n) ==> l <= n < l + LabelsUsed(While(c, body))
  {
    BooleanCodeNoLabels(c, n);
    WhileShapeLabels(BooleanCode(c), StatementCode(body, l + 2), l, n);
    assert StatementCode(While(c, body), l) == WhileCode(c, body, l);
  }

  /** The label lines of one line of code. */
  lemma DefinesOne(line: Line, n: nat)
    ensures Defines(One(line), n) == if line.Label? && line.number == n then 1 else 0
    ensures JumpsTo(One(line), n) <==> (line.Jump? || line.JumpIfZero?) && line.target == n
  {
    assert Defines(Nil, n) == 0 && !JumpsTo(Nil, n);
  }

  /** The labels a conditional's code defines and targets, over any
      condition code c0 and branch codes p1 and p2 laid out as code_gen_if
      lays them out. */
  lemma IfShapeLabels(c0: List<Line>, p1: List<Line>, p2: List<Line>, l: nat, n: nat)
    ensures var code := Append(Append(Append(Append(Append(Append(
        c0, One(JumpIfZero(l))), p1), One(Jump(l + 1))), One(Label(l))), p2), One(Label(l + 1)));
      Defines(code, n) == Defines(c0, n) + Defines(p1, n) + Defines(p2, n)
        + (if n == l then 1 else 0) + (if n == l + 1 then 1 else 0)
      && (JumpsTo(code, n) <==> JumpsTo(c0, n) || JumpsTo(p1, n) || JumpsTo(p2, n) || n == l || n == l + 1)
  {
    var c1 := Append(c0, One(JumpIfZero(l)));
    var c2 := Append(c1, p1);
    var c3 := Append(c2, One(Jump(l + 1)));
    var c4 := Append(c3, One(Label(l)));
    var c5 := Append(c4, p2);
    DefinesOne(JumpIfZero(l), n);
    DefinesOne(Jump(l + 1), n);
    DefinesOne(Label(l), n);
    DefinesOne(Label(l + 1), n);
    DefinesAppend(c0, One(JumpIfZero(l)), n);
    DefinesAppend(c1, p1, n);
    DefinesAppend(c2, One(Jump(l + 1)), n);
    DefinesAppend(c3, One(Label(l)), n);
    DefinesAppend(c4, p2, n);
    DefinesAppend(c5, One(Label(l + 1)), n);
  }

  /** The labels a loop's code defines and targets, over any condition code
      c0 and body code p laid out as code_gen_while lays them out. */
  lemma WhileShapeLabels(c0: List<Line>, p: List<Line>, l: nat, n: nat)
    ensures var code := Append(Append(Append(Append(Append(
        One(Label(l)), c0), One(JumpIfZero(l + 1))), p), One(Jump(l))), One(Label(l + 1)));
      Defines(code, n) == Defines(c0, n) + Defines(p, n) + (if n == l then 1 else 0) + (if n == l + 1 then 1 else 0)
      && (JumpsTo(code, n) <==> JumpsTo(c0, n) || JumpsTo(p, n) || n == l || n == l + 1)
  {
    var c1 := Append(One(Label(l)), c0);
    var c2 := Append(c1, One(JumpIfZero(l + 1)));
    var c3 := Append(c2, p);
    var c4 := Append(c3, One(Jump(l)));
    DefinesOne(Label(l), n);
    DefinesOne(JumpIfZero(l + 1), n);
    DefinesOne(Jump(l), n);
    DefinesOne(Label(l + 1), n);
    DefinesAppend(One(Label(l)), c0, n);
    DefinesAppend(c1, One(JumpIfZero(l + 1)), n);
    DefinesAppend(c2, p, n);
    DefinesAppend(c3, One(Jump(l)), n);
    DefinesAppend(c4, One(Label(l + 1)), n);
  }

  /** Every jump of a statement's code lands on a label its code defines,
      and on exactly one. */
  lemma JumpTargetsDefined(s: Statement, l: nat, n: nat)
    ensures JumpsTo(StatementCode(s, l), n) ==> Defines(StatementCode(s, l), n) == 1
  {
    JumpTargetInRange(s, l, n);
    LabelsDefinedOnce(s, l, n);
  }

  /** The value of a variable: its slot in the data section, zero until it
      is first stored. */
  function Lookup(env: map<string, int32>, x: string): int32
  {
    if x in env then env[x] else 0
  }

  /** The value of an expression, each operator computed as the machine's
      operation computes it (32-bit wrap-around). */
  function Evaluate(a: Arithmetic, env: map<string, int32>): int32
  {
    match a
    case Int(n) => n
    case Ident(x) => Lookup(env, x)
    case Binary(l, op, r) => Vm.BinaryResult(ArithmeticKind(op), Evaluate(l, env), Evaluate(r, env))
  }

  /** Statements without jumps: assignments, skip and their compositions. */
  predicate StraightLine(s: Statement)
  {
    match s
    case Assignment(_, _) => true
    case Skip => true
    case Composision(s1, s2) => StraightLine(s1) && StraightLine(s2)
    case _ => false
  }

  /** What a straight-line statement does to the variables. */
  function Run(s: Statement, env: map<string, int32>): map<string, int32>
    requires StraightLine(s)
  {
    match s
    case Assignment(x, v) => env[x := Evaluate(v, env)]
    case Skip => env
    case Composision(s1, s2) => Run(s2, Run(s1, env))
  }

  /** One line on the machine's variables and stack (top first), with
      fetch and store naming the variable instead of its address. Lines
      that jump, define labels or are not instructions have no effect here. */
  function StepLine(line: Line, env: map<string, int32>, stack: List<int32>): Option<(map<string, int32>, List<int32>)>
  {
    match line
    case Push(n) => Some((env, Cons(n, stack)))
    case Fetch(x) => Some((env, Cons(Lookup(env, x), stack)))
    case Store(x) =>
      (match stack
       case Cons(v, rest) => Some((env[x := v], rest))
       case Nil => None)
    case Noop => Some((env, stack))
    case ArithmeticOperation(op) => ApplyBinary(ArithmeticKind(op), env, stack)
    case BooleanOperation(op) => ApplyBinary(BooleanKind(op), env, stack)
    case _ => None
  }

  /** A two-operand machine operation: the two top values are replaced by
      the result. */
  function ApplyBinary(k: InstructionKind, env: map<string, int32>, stack: List<int32>): Option<(map<string, int32>, List<int32>)>
  {
    if !Vm.IsBinary(k) then None
    else
      match stack
      case Cons(v2, Cons(v1, rest)) => Some((env, Cons(Vm.BinaryResult(k, v1, v2), rest)))
      case _ => None
  }

  /** The lines one after the other; None when one of them cannot run. */
  function Exec(code: List<Line>, env: map<string, int32>, stack: List<int32>): Option<(map<string, int32>, List<int32>)>
  {
    match code
    case Nil => Some((env, stack))
    case Cons(line, rest) =>
      match StepLine(line, env, stack)
      case None => None
      case Some((env', stack')) => Exec(rest, env', stack')
  }

  lemma {:induction false} ExecAppend(a: List<Line>, b: List<Line>, env: map<string, int32>, stack: List<int32>)
    ensures Exec(Append(a, b), env, stack) ==
      match Exec(a, env, stack)
      case None => None
      case Some((env', stack')) => Exec(b, env', stack')
  {
    match a
    case Nil =>
    case Cons(line, rest) =>
      match StepLine(line, env, stack)
      case None =>
      case Some((env', stack')) => ExecAppend(rest, b, env', stack');
  }

  /** The postfix code of an expression pushes its value and leaves the rest
      of the stack and the variables alone. */
  lemma {:induction false} ArithmeticCodeComputes(a: Arithmetic, env: map<string, int32>, stack: List<int32>)
    ensures Exec(ArithmeticCode(a), env, stack) == Some((env, Cons(Evaluate(a, env), stack)))
  {
    match a
    case Binary(l, op, r) =>
      var lv, rv := Evaluate(l, env), Evaluate(r, env);
      ArithmeticCodeComputes(l, env, stack);
      ArithmeticCodeComputes(r, env, Cons(lv, stack));
      ExecAppend(ArithmeticCode(l), ArithmeticCode(r), env, stack);
      ExecAppend(Append(ArithmeticCode(l), ArithmeticCode(r)), One(ArithmeticOperation(op)), env, stack);
    case _ =>
  }

  /** The code of a comparison pushes 1 when it holds and 0 when it does
      not. */
  lemma BooleanCodeComputes(b: Boolean, env: map<string, int32>, stack: List<int32>)
    requires b.Binary? && b.op != Not
    ensures var holds := if b.op == Eq then Evaluate(b.lhs, env) == Evaluate(b.rhs, env)
                         else Evaluate(b.lhs, env) <= Evaluate(b.rhs, env);
      Exec(BooleanCode(b), env, stack) == Some((env, Cons(if holds then 1 else 0, stack)))
  {
    var lv, rv := Evaluate(b.lhs, env), Evaluate(b.rhs, env);
    ArithmeticCodeComputes(b.lhs, env, stack);
    ArithmeticCodeComputes(b.rhs, env, Cons(lv, stack));
    ExecAppend(ArithmeticCode(b.lhs), ArithmeticCode(b.rhs), env, stack);
    ExecAppend(Append(ArithmeticCode(b.lhs), ArithmeticCode(b.rhs)), One(BooleanOperation(b.op)), env, stack);
    Vm.BinaryResultBoolean(BooleanKind(b.op), lv, rv);
  }

  /** The code of a straight-line statement does what the statement does
      to the variables and leaves the stack as it found it. */
  lemma {:induction false} StatementCodeComputes(s: Statement, l: nat, env: map<string, int32>, stack: List<int32>)
    requires StraightLine(s)
    ensures Exec(StatementCode(s, l), env, stack) == Some((Run(s, env), stack))
  {
    match s
    case Assignment(x, v) =>
      ArithmeticCodeComputes(v, env, stack);
      ExecAppend(ArithmeticCode(v), One(Store(x)), env, stack);
    case Skip =>
    case Composision(s1, s2) =>
      StatementCodeComputes(s1, l, env, stack);
      StatementCodeComputes(s2, l + LabelsUsed(s1), Run(s1, env), stack);
      ExecAppend(StatementCode(s1, l), StatementCode(s2, l + LabelsUsed(s1)), env, stack);
  }

  /** Lines written onto a history kept newest first: RevAppend(code, e)
      is e with the lines of code written after it, in order. */
  function RevAppend(code: List<Line>, e: List<Line>): List<Line>
  {
    match code
    case Nil => e
    case Cons(line, rest) => RevAppend(rest, Cons(line, e))
  }

  /** The history `after` is `before` with one line written on top. */
  ghost predicate WroteLine(line: Line, before: List<Line>, after: List<Line>)
  {
    after == RevAppend(One(line), before)
  }

  /** The history `after` is `before` with the lines of an arithmetic
      expression's code written on top. */
  ghost predicate WroteArithmetic(a: Arithmetic, before: List<Line>, after: List<Line>)
  {
    after == RevAppend(ArithmeticCode(a), before)
  }

  /** The history `after` is `before` with the lines of a condition's code
      written on top. */
  ghost predicate WroteBoolean(c: Boolean, before: List<Line>, after: List<Line>)
  {
    after == RevAppend(BooleanCode(c), before)
  }

  /** The history `after` is `before` with the lines of a statement's code,
      its labels numbered from l, written on top. */
  ghost predicate WroteStatement(s: Statement, l: nat, before: List<Line>, after: List<Line>)
  {
    after == RevAppend(StatementCode(s, l), before)
  }

  /** The text of a history kept newest first: the oldest line's text first. */
  function RevText(e: List<Line>): string
  {
    match e
    case Nil => ""
    case Cons(line, rest) => RevText(rest) + Render(line)
  }

  /** The string `after` is the string `before` with the text of code added
      at its end. */
  ghost predicate TextAppended(code: List<Line>, before: string, after: string)
  {
    after == before + Text(code)
  }

  /** Writing code on top of a history appends the code's text to the
      history's text. */
  lemma TextAfter(code: List<Line>, e: List<Line>, after: List<Line>)
    requires after == RevAppend(code, e)
    ensures TextAppended(code, RevText(e), RevText(after))
  {
    RevTextRevAppend(code, e);
  }

  /** The text of a history after a statement's code is written. */
  lemma StatementText(s: Statement, l: nat, e: List<Line>, after: List<Line>)
    requires WroteStatement(s, l, e, after)
    ensures TextAppended(StatementCode(s, l), RevText(e), RevText(after))
  {
    TextAfter(StatementCode(s, l), e, after);
  }

  /** Writing a + b is writing a, then b. */
  lemma {:induction false} RevAppendAppend(a: List<Line>, b: List<Line>, e: List<Line>)
    ensures RevAppend(Append(a, b), e) == RevAppend(b, RevAppend(a, e))
  {
    match a
    case Nil =>
    case Cons(line, rest) => RevAppendAppend(rest, b, Cons(line, e));
  }

  /** The text of a history after code is written: the old text, then the
      code's text. */
  lemma {:induction false} RevTextRevAppend(code: List<Line>, e: List<Line>)
    ensures RevText(RevAppend(code, e)) == RevText(e) + Text(code)
  {
    match code
    case Nil =>
      assert RevText(e) + "" == RevText(e);
    case Cons(line, rest) =>
      RevTextRevAppend(rest, Cons(line, e));
      ConcatAssoc(RevText(e), Render(line), Text(rest));
  }

  lemma ConcatAssoc(a: string, b: string, c: string)
    ensures (a + b) + c == a + (b + c)
  {
  }

  /** Three pieces written in turn, as code_gen_arithmetic writes a binary
      expression. */
  lemma RevAppendThree(e: List<Line>, p1: List<Line>, p2: List<Line>, p3: List<Line>)
    ensures RevAppend(p3, RevAppend(p2, RevAppend(p1, e))) == RevAppend(Append(Append(p1, p2), p3), e)
  {
    RevAppendAppend(p1, p2, e);
    RevAppendAppend(Append(p1, p2), p3, e);
  }

  /** The pieces code_gen_if writes in turn, each on top of the history the
      previous one left, make up the if statement's code. */
  lemma IfCodeAfter(e: List<Line>, c: Boolean, s1: Statement, s2: Statement, l: nat,
                    w1: List<Line>, w2: List<Line>, w3: List<Line>, w4: List<Line>,
                    w5: List<Line>, w6: List<Line>, w7: List<Line>)
    requires WroteBoolean(c, e, w1)
    requires WroteLine(JumpIfZero(l), w1, w2)
    requires WroteStatement(s1, l + 2, w2, w3)
    requires WroteLine(Jump(l + 1), w3, w4)
    requires WroteLine(Label(l), w4, w5)
    requires WroteStatement(s2, l + 2 + LabelsUsed(s1), w5, w6)
    requires WroteLine(Label(l + 1), w6, w7)
    ensures WroteStatement(If(c, s1, s2), l, e, w7)
  {
    assert StatementCode(If(c, s1, s2), l) == IfCode(c, s1, s2, l);
    var p1, p2, p3, p4 := BooleanCode(c), One(JumpIfZero(l)), StatementCode(s1, l + 2), One(Jump(l + 1));
    var p5, p6, p7 := One(Label(l)), StatementCode(s2, l + 2 + LabelsUsed(s1)), One(Label(l + 1));
    var q2 := Append(p1, p2);
    var q3 := Append(q2, p3);
    var q4 := Append(q3, p4);
    var q5 := Append(q4, p5);
    var q6 := Append(q5, p6);
    RevAppendAppend(p1, p2, e);
    RevAppendAppend(q2, p3, e);
    RevAppendAppend(q3, p4, e);
    RevAppendAppend(q4, p5, e);
    RevAppendAppend(q5, p6, e);
    RevAppendAppend(q6, p7, e);
  }

  /** The pieces code_gen_while writes in turn, each on top of the history
      the previous one left, make up the while statement's code. */
  lemma WhileCodeAfter(e: List<Line>, c: Boolean, body: Statement, l: nat,
                       w1: List<Line>, w2: List<Line>, w3: List<Line>, w4: List<Line>,
                       w5: List<Line>, w6: List<Line>)
    requires WroteLine(Label(l), e, w1)
    requires WroteBoolean(c, w1, w2)
    requires WroteLine(JumpIfZero(l + 1), w2, w3)
    requires WroteStatement(body, l + 2, w3, w4)
    requires WroteLine(Jump(l), w4, w5)
    requires WroteLine(Label(l + 1), w5, w6)
    ensures WroteStatement(While(c, body), l, e, w6)
  {
    assert StatementCode(While(c, body), l) == WhileCode(c, body, l);
    var p1, p2, p3 := One(Label(l)), BooleanCode(c), One(JumpIfZero(l + 1));
    var p4, p5, p6 := StatementCode(body, l + 2), One(Jump(l)), One(Label(l + 1));
    var q2 := Append(p1, p2);
    var q3 := Append(q2, p3);
    var q4 := Append(q3, p4);
    var q5 := Append(q4, p5);
    RevAppendAppend(p1, p2, e);
    RevAppendAppend(q2, p3, e);
    RevAppendAppend(q3, p4, e);
    RevAppendAppend(q4, p5, e);
    RevAppendAppend(q5, p6, e);
  }

  /** The text of a label line and of the jumps to it, written with the
      name next_label gave the label. */
  lemma LabelLineText(name: string, n: nat)
    requires name == LabelName(n)
    ensures name + "\n" == Render(Label(n))
    ensures "    jmp " + name + "\n" == Render(Jump(n))
    ensures "    jeqz " + name + "\n" == Render(JumpIfZero(n))
  {
  }

  /** The generator of code_gen.rs: the output text and the label counter. */
  class CodeGenerator {
    var outputString: string
    var labelCount: nat
    /** The lines written so far, newest first; outputString is their text. */
    ghost var written: List<Line>

    ghost predicate Valid()
      reads this`outputString, this`written
    {
      outputString == RevText(written)
    }

    constructor ()
      ensures Valid() && written == Nil && labelCount == 0
    {
      outputString := "";
      labelCount := 0;
      written := Nil;
    }

    /** The output so far is the text of the lines written. */
    lemma ValidText()
      requires Valid()
      ensures outputString == RevText(written)
    {
    }

    /** next_label: the counter's name, and the counter moves on. */
    method NextLabel() returns (name: string)
      modifies this`labelCount
      ensures name == LabelName(old(labelCount)) && labelCount == old(labelCount) + 1
    {
      name := NatString(labelCount) + ":";
      labelCount := labelCount + 1;
    }

    /** One `self.output_string += ...`: the text appended is that of a line. */
    method Emit(text: string, ghost line: Line)
      modifies this`outputString, this`written
      requires Valid() && text == Render(line)
      ensures Valid() && WroteLine(line, old(written), written)
      ensures outputString == old(outputString) + text
    {
      outputString := outputString + text;
      written := Cons(line, written);
    }

    /** code_gen_arithmetic: writes the lines of ArithmeticCode. */
    method CodeGenArithmetic(ast: Arithmetic)
      modifies this`outputString, this`written
      requires Valid()
      ensures Valid() && WroteArithmetic(ast, old(written), written)
      ensures TextAppended(ArithmeticCode(ast), old(outputString), outputString)
      decreases ast
    {
      ghost var e := written;
      match ast
      case Int(n) => Emit("    push " + IntString(n) + "\n", Push(n));
      case Ident(x) => Emit("    fetch " + x + "\n", Fetch(x));
      case Binary(lhs, op, rhs) =>
        CodeGenArithmetic(lhs);
        CodeGenArithmetic(rhs);
        Emit("    " + ArithmeticMnemonic(op) + "\n", ArithmeticOperation(op));
        RevAppendThree(e, ArithmeticCode(lhs), ArithmeticCode(rhs), One(ArithmeticOperation(op)));
      TextAfter(ArithmeticCode(ast), e, written);
    }

    /** code_gen_boolean: writes the lines of BooleanCode. */
    method CodeGenBoolean(ast: Boolean)
      modifies this`outputString, this`written
      requires Valid()
      ensures Valid() && WroteBoolean(ast, old(written), written)
      ensures TextAppended(BooleanCode(ast), old(outputString), outputString)
    {
      ghost var e := written;
      match ast
      case False => Emit("false", Literal(false));
      case True => Emit("true", Literal(true));
      case Binary(lhs, op, rhs) =>
        CodeGenArithmetic(lhs);
        CodeGenArithmetic(rhs);
        Emit("    " + BooleanMnemonic(op) + "\n", BooleanOperation(op));
        RevAppendThree(e, ArithmeticCode(lhs), ArithmeticCode(rhs), One(BooleanOperation(op)));
      TextAfter(BooleanCode(ast), e, written);
    }

    /** code_gen: writes the lines of StatementCode from the current counter,
        and moves the counter past the labels they use. */
    method CodeGen(ast: Statement)
      modifies this
      requires Valid()
      ensures Valid() && WroteStatement(ast, old(labelCount), old(written), written)
      ensures TextAppended(StatementCode(ast, old(labelCount)), old(outputString), outputString)
      ensures labelCount == old(labelCount) + LabelsUsed(ast)
      decreases ast, 1
    {
      ghost var e, l0 := written, labelCount;
      match ast {
        case Assignment(ident, value) =>
          CodeGenArithmetic(value);
          Emit("    store " + ident + "\n", Store(ident));
          RevAppendAppend(ArithmeticCode(value), One(Store(ident)), e);
        case Skip => Emit("    noop\n", Noop);
        case Composision(statement, statement1) =>
          CodeGen(statement);
          CodeGen(statement1);
          RevAppendAppend(StatementCode(statement, l0), StatementCode(statement1, l0 + LabelsUsed(statement)), e);
        case If(condition, ifBranch, elseBranch) => CodeGenIf(condition, ifBranch, elseBranch);
        case While(condition, body) => CodeGenWhile(condition, body);
      }
      TextAfter(StatementCode(ast, l0), e, written);
    }

    /** code_gen_if: writes the lines of IfCode. */
    method CodeGenIf(condition: Boolean, ifBranch: Statement, elseBranch: Statement)
      modifies this
      requires Valid()
      ensures Valid() && WroteStatement(If(condition, ifBranch, elseBranch), old(labelCount), old(written), written)
      ensures TextAppended(StatementCode(If(condition, ifBranch, elseBranch), old(labelCount)), old(outputString), outputString)
      ensures labelCount == old(labelCount) + LabelsUsed(If(condition, ifBranch, elseBranch))
      decreases If(condition, ifBranch, elseBranch), 0
    {
      hide Valid, WroteLine, WroteBoolean, WroteStatement, TextAppended, RevText, RevAppend, Text, Render, LabelName, NatString;
      ghost var e, l0 := written, labelCount;
      ValidText();
      var elseLabel := NextLabel();
      var endLabel := NextLabel();
      LabelLineText(elseLabel, l0);
      LabelLineText(endLabel, l0 + 1);
      CodeGenBoolean(condition);
      ghost var w1 := written;
      Emit("    jeqz " + elseLabel + "\n", JumpIfZero(l0));
      ghost var w2 := written;
      CodeGen(ifBranch);
      ghost var w3 := written;
      Emit("    jmp " + endLabel + "\n", Jump(l0 + 1));
      ghost var w4 := written;
      Emit(elseLabel + "\n", Label(l0));
      ghost var w5 := written;
      assert labelCount == l0 + 2 + LabelsUsed(ifBranch);
      CodeGen(elseBranch);
      ghost var w6 := written;
      Emit(endLabel + "\n", Label(l0 + 1));
      IfCodeAfter(e, condition, ifBranch, elseBranch, l0, w1, w2, w3, w4, w5, w6, written);
      StatementText(If(condition, ifBranch, elseBranch), l0, e, written);
      ValidText();
    }

    /** code_gen_while: writes the lines of WhileCode. */
    method CodeGenWhile(condition: Boolean, body: Statement)
      modifies this
      requires Valid()
      ensures Valid() && WroteStatement(While(condition, body), old(labelCount), old(written), written)
      ensures TextAppended(StatementCode(While(condition, body), old(labelCount)), old(outputString), outputString)
      ensures labelCount == old(labelCount) + LabelsUsed(While(condition, body))
      decreases While(condition, body), 0
    {
      hide Valid, WroteLine, WroteBoolean, WroteStatement, TextAppended, RevText, RevAppend, Text, Render, LabelName, NatString;
      ghost var e, l0 := written, labelCount;
      ValidText();
      var conditionLabel := NextLabel();
      var endLabel := NextLabel();
      LabelLineText(conditionLabel, l0);
      LabelLineText(endLabel, l0 + 1);
      Emit(conditionLabel + "\n", Label(l0));
      ghost var w1 := written;
      CodeGenBoolean(condition);
      ghost var w2 := written;
      Emit("    jeqz " + endLabel + "\n", JumpIfZero(l0 + 1));
      ghost var w3 := written;
      CodeGen(body);
      ghost var w4 := written;
      Emit("    jmp " + conditionLabel + "\n", Jump(l0));
      ghost var w5 := written;
      Emit(endLabel + "\n", Label(l0 + 1));
      WhileCodeAfter(e, condition, body, l0, w1, w2, w3, w4, w5, written);
      StatementText(While(condition, body), l0, e, written);
      ValidText();
    }
  }

  /** The whole output of code_gen on a fresh generator is the text of
      StatementCode from counter 0. */
  method Generate(ast: Statement) returns (output: string)
    ensures output == Text(StatementCode(ast, 0))
  {
    var g := new CodeGenerator();
    g.CodeGen(ast);
    RevTextRevAppend(StatementCode(ast, 0), Nil);
    output := g.outputString;
    assert output == "" + Text(StatementCode(ast, 0));
  }
}
