/** The assembler's tokenizer (assembler/src/lexer.c): one source line is split
    on blanks, tabs and newlines; each maximal run of other characters becomes
    one token and each newline character one newline token. This version of the
    tokenizer classifies only `noop` and the newline. */
module AsmLexer {

  import opened Wrappers
  import opened AsmValue

  datatype TokenKind =
    | TokenNoop
    | TokenJmp
    | TokenJEQZ
    | TokenPush
    | TokenAdd
    | TokenSub
    | TokenMul
    | TokenEq
    | TokenLt
    | TokenLe
    | TokenGt
    | TokenGe
    | TokenLAnd
    | TokenLOr
    | TokenLNeg
    | TokenFetch
    | TokenStore
    | TokenLabel
    | TokenIdent
    | TokenInt
    | TokenBool
    | TokenNewLine

  /** A token; its source line and column are only used in diagnostics and are
      not modelled. */
  datatype Token = Token(kind: TokenKind, value: Value)

  datatype LexError =
    | TokenTooLong          // a run of more than MaxTokenLength characters
    | UnknownToken(text: string)
    | ReadPastEnd           // the scan steps over the string's terminator

  /** The scratch buffer holds 256 characters; a run may fill 254 of them. */
  const BufferSize: nat := 256
  const MaxTokenLength: nat := 254

  predicate CharIsWhiteSpace(c: char)
  {
    c == ' ' || c == '\n' || c == '\t'
  }

  /** A token this tokenizer can produce. */
  predicate Classified(t: Token)
  {
    (t.kind == TokenNoop || t.kind == TokenNewLine) && t.value == NoneValue
  }

  /** The text a classified token is read from. */
  function Lexeme(k: TokenKind): string
    requires k == TokenNoop || k == TokenNewLine
  {
    if k == TokenNoop then "noop" else "\n"
  }

  /** s is the text "noop", compared character by character. */
  predicate IsNoop(s: string)
  {
    |s| == 4 && s[0] == 'n' && s[1] == 'o' && s[2] == 'o' && s[3] == 'p'
  }

  /** Classifies one run of characters. */
  function TokenGet(s: string): (r: Result<Token, LexError>)
    ensures r.Ok? ==> Classified(r.value)
    ensures r.Err? ==> r.error == UnknownToken(s)
  {
    if IsNoop(s) then Ok(Token(TokenNoop, NoneValue))
    else if |s| == 1 && s[0] == '\n' then Ok(Token(TokenNewLine, NoneValue))
    else Err(UnknownToken(s))
  }

  /** TokenGet accepts exactly the texts `noop` and a single newline. */
  lemma TokenGetAccepts(s: string)
    ensures TokenGet(s).Ok? <==> s == "noop" || s == "\n"
    ensures TokenGet(s).Ok? ==> Lexeme(TokenGet(s).value.kind) == s
  {
  }

  /** TokenGet reads back every token it can produce from that token's text. */
  lemma TokenGetLexeme(t: Token)
    requires Classified(t)
    ensures TokenGet(Lexeme(t.kind)) == Ok(t)
  {
  }

  /** Length of the maximal run of non-whitespace characters that starts at
      index p of s. */
  function RunLength(s: string, p: nat): (n: nat)
    requires p <= |s|
    ensures p + n <= |s|
    decreases |s| - p
  {
    if p == |s| || CharIsWhiteSpace(s[p]) then 0 else 1 + RunLength(s, p + 1)
  }

  /** The run is maximal: no whitespace inside it, whitespace or the end of
      the string right after it. */
  lemma {:induction false} RunLengthMaximal(s: string, p: nat)
    requires p <= |s|
    ensures forall j :: p <= j < p + RunLength(s, p) ==> !CharIsWhiteSpace(s[j])
    ensures p + RunLength(s, p) < |s| ==> CharIsWhiteSpace(s[p + RunLength(s, p)])
    decreases |s| - p
  {
    if p < |s| && !CharIsWhiteSpace(s[p]) {
      RunLengthMaximal(s, p + 1);
    }
  }

  /** The run length is the only length with no whitespace before it and
      whitespace or the end of the string at it. */
  lemma {:induction false} RunLengthUnique(s: string, p: nat, m: nat)
    requires p + m <= |s| && forall j :: p <= j < p + m ==> !CharIsWhiteSpace(s[j])
    requires p + m < |s| ==> CharIsWhiteSpace(s[p + m])
    ensures RunLength(s, p) == m
    decreases m
  {
    if m > 0 {
      assert !CharIsWhiteSpace(s[p]);
      RunLengthUnique(s, p + 1, m - 1);
    }
  }

  /** The token list for one run: nothing for an empty run. */
  function RunToken(run: string): Result<seq<Token>, LexError>
  {
    if |run| == 0 then Ok([])
    else match TokenGet(run)
      case Ok(t) => Ok([t])
      case Err(e) => Err(e)
  }

  /** The newline token a separator contributes. */
  function Separator(c: char): seq<Token>
  {
    if c == '\n' then [Token(TokenNewLine, NoneValue)] else []
  }

  /** ts followed by the tokens of r, or r's error. */
  function Prepend(ts: seq<Token>, r: Result<seq<Token>, LexError>): Result<seq<Token>, LexError>
  {
    match r
    case Ok(rest) => Ok(ts + rest)
    case Err(e) => Err(e)
  }

  lemma PrependPrepend(a: seq<Token>, b: seq<Token>, r: Result<seq<Token>, LexError>)
    ensures Prepend(a, Prepend(b, r)) == Prepend(a + b, r)
  {
    if r.Ok? {
      assert a + (b + r.value) == (a + b) + r.value;
    }
  }

  /** The tokens lex_string appends for the string s from index p on, or the
      error it stops with: each run is classified, a newline separator adds a
      newline token, and a run that reaches the end of the string makes the
      scan step over the terminator. */
  function LexFrom(s: string, p: nat): Result<seq<Token>, LexError>
    requires p <= |s|
    decreases |s| - p
  {
    if p == |s| then Ok([])
    else
      var n := RunLength(s, p);
      if n > MaxTokenLength then Err(TokenTooLong)
      else match RunToken(s[p..p + n])
        case Err(e) => Err(e)
        case Ok(run) =>
          if p + n == |s| then Err(ReadPastEnd)
          else Prepend(run + Separator(s[p + n]), LexFrom(s, p + n + 1))
  }

  function Lex(s: string): Result<seq<Token>, LexError>
  {
    LexFrom(s, 0)
  }

  /** The maximal runs of non-whitespace characters of s from index p on. */
  function WordsFrom(s: string, p: nat): seq<string>
    requires p <= |s|
    decreases |s| - p
  {
    if p == |s| then []
    else if CharIsWhiteSpace(s[p]) then WordsFrom(s, p + 1)
    else
      var n := RunLength(s, p);
      [s[p..p + n]] + WordsFrom(s, p + n)
  }

  /** Occurrences of c in s from index p on. */
  function CountFrom(s: string, p: nat, c: char): nat
    requires p <= |s|
    decreases |s| - p
  {
    if p == |s| then 0 else (if s[p] == c then 1 else 0) + CountFrom(s, p + 1, c)
  }

  /** Tokens of kind k in ts. */
  function CountKind(ts: seq<Token>, k: TokenKind): nat
  {
    if ts == [] then 0 else (if ts[0].kind == k then 1 else 0) + CountKind(ts[1..], k)
  }

  lemma {:induction false} CountKindAppend(a: seq<Token>, b: seq<Token>, k: TokenKind)
    ensures CountKind(a + b, k) == CountKind(a, k) + CountKind(b, k)
  {
    if a == [] {
      assert a + b == b;
    } else {
      assert (a + b)[0] == a[0];
      assert (a + b)[1..] == a[1..] + b;
      CountKindAppend(a[1..], b, k);
    }
  }

  /** The tokens of an accepted run: one `noop` token, or none for an empty
      run (a run holds no newline, so it is never read as one). */
  lemma RunTokenKinds(s: string, p: nat)
    requires p <= |s| && RunToken(s[p..p + RunLength(s, p)]).Ok?
    ensures RunToken(s[p..p + RunLength(s, p)]).value ==
      if RunLength(s, p) > 0 then [Token(TokenNoop, NoneValue)] else []
  {
    var run := s[p..p + RunLength(s, p)];
    if |run| > 0 {
      TokenGetAccepts(run);
      assert run[0] == s[p] && !CharIsWhiteSpace(s[p]);
      assert run != "\n";
    }
  }

  /** A successful LexFrom at a non-empty position: the run there is
      accepted, a separator follows it and the rest succeeds too. */
  lemma LexOkStep(s: string, p: nat)
    requires p < |s| && LexFrom(s, p).Ok?
    ensures var n := RunLength(s, p);
      n <= MaxTokenLength && p + n < |s| && LexFrom(s, p + n + 1).Ok? &&
      LexFrom(s, p).value ==
        (if n > 0 then [Token(TokenNoop, NoneValue)] else []) + Separator(s[p + n]) + LexFrom(s, p + n + 1).value
  {
    RunTokenKinds(s, p);
  }

  /** Skipping one run and its separator: the runs from p are that run (if
      not empty) followed by the runs after the separator. */
  lemma WordsAfterRun(s: string, p: nat)
    requires p < |s| && p + RunLength(s, p) < |s|
    ensures var n := RunLength(s, p);
      WordsFrom(s, p) == (if n > 0 then [s[p..p + n]] else []) + WordsFrom(s, p + n + 1)
  {
    RunLengthMaximal(s, p);
  }

  /** Every run from p on is `noop`, and the string is empty from there or
      ends in whitespace. */
  predicate AcceptedFrom(s: string, p: nat)
    requires p <= |s|
  {
    (forall w | w in WordsFrom(s, p) :: w == "noop") && (p == |s| || CharIsWhiteSpace(s[|s| - 1]))
  }

  /** A run that is too long or is not `noop` fails both sides. */
  lemma BadRun(s: string, p: nat)
    requires p < |s|
    requires var n := RunLength(s, p); n > 0 && (n > MaxTokenLength || s[p..p + n] != "noop")
    ensures !LexFrom(s, p).Ok? && !AcceptedFrom(s, p)
  {
    var n := RunLength(s, p);
    RunLengthMaximal(s, p);
    assert s[p..p + n][0] == s[p] && s[p] != '\n';
    assert WordsFrom(s, p)[0] == s[p..p + n];
    assert s[p..p + n] in WordsFrom(s, p);
  }

  /** A run that reaches the end of the string fails both sides. */
  lemma UnterminatedRun(s: string, p: nat)
    requires p < |s| && p + RunLength(s, p) == |s|
    ensures !LexFrom(s, p).Ok? && !AcceptedFrom(s, p)
  {
    RunLengthMaximal(s, p);
    if RunLength(s, p) == 0 {
      assert false;
    }
    assert !CharIsWhiteSpace(s[|s| - 1]);
  }

  /** An accepted run and its separator leave both sides unchanged. */
  lemma GoodRun(s: string, p: nat)
    requires p < |s| && p + RunLength(s, p) < |s|
    requires var n := RunLength(s, p); n == 0 || s[p..p + n] == "noop"
    ensures var q := p + RunLength(s, p) + 1;
      (LexFrom(s, p).Ok? <==> LexFrom(s, q).Ok?) && (AcceptedFrom(s, p) <==> AcceptedFrom(s, q))
  {
    var n := RunLength(s, p);
    var q := p + n + 1;
    WordsAfterRun(s, p);
    var first := if n > 0 then [s[p..p + n]] else [];
    assert forall w | w in first :: w == "noop";
    assert forall w :: w in WordsFrom(s, p) <==> w in first || w in WordsFrom(s, q);
    assert q == |s| ==> s[|s| - 1] == s[p + n];
    RunLengthMaximal(s, p);
    if n > 0 {
      assert IsNoop(s[p..p + n]);
    }
  }

  /** lex_string succeeds from p exactly when every run is `noop` and the
      string is empty from there or ends in whitespace (otherwise the scan
      steps past the terminator). */
  lemma {:induction false} LexSucceeds(s: string, p: nat)
    requires p <= |s|
    ensures LexFrom(s, p).Ok? <==> AcceptedFrom(s, p)
    decreases |s| - p
  {
    if p < |s| {
      var n := RunLength(s, p);
      if n > 0 && (n > MaxTokenLength || s[p..p + n] != "noop") {
        BadRun(s, p);
      } else if p + n == |s| {
        UnterminatedRun(s, p);
      } else {
        GoodRun(s, p);
        LexSucceeds(s, p + n + 1);
      }
    }
  }

  /** One step of LexFrom past an accepted run and its separator. */
  lemma LexStep(s: string, p: nat)
    requires p < |s|
    requires var n := RunLength(s, p); n <= MaxTokenLength && p + n < |s| && RunToken(s[p..p + n]).Ok?
    ensures var n := RunLength(s, p);
      LexFrom(s, p) == Prepend(RunToken(s[p..p + n]).value + Separator(s[p + n]), LexFrom(s, p + n + 1))
  {
    var n := RunLength(s, p);
    var run := RunToken(s[p..p + n]);
    assert !(n > MaxTokenLength) && run == Ok(run.value) && p + n != |s|;
  }

  /** The run at p, when not empty, is one of the runs from p. */
  lemma FirstWord(s: string, p: nat)
    requires p < |s| && RunLength(s, p) > 0
    ensures s[p..p + RunLength(s, p)] in WordsFrom(s, p)
  {
    assert WordsFrom(s, p)[0] == s[p..p + RunLength(s, p)];
  }

  /** The runs after the separator are runs from p. */
  lemma LaterWords(s: string, p: nat)
    requires p < |s| && p + RunLength(s, p) < |s|
    ensures forall w | w in WordsFrom(s, p + RunLength(s, p) + 1) :: w in WordsFrom(s, p)
  {
    WordsAfterRun(s, p);
  }

  /** On success every token is classified. */
  lemma {:induction false} LexClassified(s: string, p: nat)
    requires p <= |s| && LexFrom(s, p).Ok?
    ensures forall t | t in LexFrom(s, p).value :: Classified(t)
    decreases |s| - p
  {
    if p < |s| {
      LexOkStep(s, p);
      LexClassified(s, p + RunLength(s, p) + 1);
    }
  }

  /** Skipping a run and its separator drops one run from the count when the
      run is not empty. */
  lemma WordsCountAfterRun(s: string, p: nat)
    requires p < |s| && p + RunLength(s, p) < |s|
    ensures |WordsFrom(s, p)| == (if RunLength(s, p) > 0 then 1 else 0) + |WordsFrom(s, p + RunLength(s, p) + 1)|
  {
    WordsAfterRun(s, p);
  }

  /** The tokens of one accepted run and its separator, counted by kind. */
  lemma LineCounts(n: nat, c: char, rest: seq<Token>)
    ensures var ts := (if n > 0 then [Token(TokenNoop, NoneValue)] else []) + Separator(c) + rest;
      CountKind(ts, TokenNoop) == (if n > 0 then 1 else 0) + CountKind(rest, TokenNoop) &&
      CountKind(ts, TokenNewLine) == (if c == '\n' then 1 else 0) + CountKind(rest, TokenNewLine)
  {
    var run: seq<Token> := if n > 0 then [Token(TokenNoop, NoneValue)] else [];
    CountKindAppend(run + Separator(c), rest, TokenNoop);
    CountKindAppend(run, Separator(c), TokenNoop);
    CountKindAppend(run + Separator(c), rest, TokenNewLine);
    CountKindAppend(run, Separator(c), TokenNewLine);
  }

  /** On success there is one `noop` token per run. */
  lemma {:induction false} LexCountsRuns(s: string, p: nat)
    requires p <= |s| && LexFrom(s, p).Ok?
    ensures CountKind(LexFrom(s, p).value, TokenNoop) == |WordsFrom(s, p)|
    decreases |s| - p
  {
    if p < |s| {
      var n := RunLength(s, p);
      LexOkStep(s, p);
      LexCountsRuns(s, p + n + 1);
      WordsCountAfterRun(s, p);
      LineCounts(n, s[p + n], LexFrom(s, p + n + 1).value);
    }
  }

  /** A run holds no newline character. */
  lemma {:induction false} CountFromRun(s: string, p: nat)
    requires p <= |s|
    ensures CountFrom(s, p, '\n') == CountFrom(s, p + RunLength(s, p), '\n')
    decreases |s| - p
  {
    if p < |s| && !CharIsWhiteSpace(s[p]) {
      CountFromRun(s, p + 1);
    }
  }

  /** On success there is one newline token per newline character, each right
      after the token of the run before it. */
  lemma {:induction false} LexCountsNewLines(s: string, p: nat)
    requires p <= |s| && LexFrom(s, p).Ok?
    ensures CountKind(LexFrom(s, p).value, TokenNewLine) == CountFrom(s, p, '\n')
    decreases |s| - p
  {
    if p < |s| {
      var n := RunLength(s, p);
      LexOkStep(s, p);
      LexCountsNewLines(s, p + n + 1);
      LineCounts(n, s[p + n], LexFrom(s, p + n + 1).value);
      CountFromRun(s, p);
    }
  }

  /** A run too long for the buffer is the error reported only when there is
      one: the run returned. */
  lemma {:induction false} LexTooLong(s: string, p: nat) returns (w: string)
    requires p <= |s| && LexFrom(s, p) == Err(TokenTooLong)
    ensures w in WordsFrom(s, p) && |w| > MaxTokenLength
    decreases |s| - p
  {
    var n := RunLength(s, p);
    if n > MaxTokenLength {
      FirstWord(s, p);
      w := s[p..p + n];
    } else {
      LexStep(s, p);
      LaterWords(s, p);
      w := LexTooLong(s, p + n + 1);
    }
  }

  /** An unknown run is reported with its text, which is one of the runs, is
      not `noop` and fits the buffer. */
  lemma {:induction false} LexUnknown(s: string, p: nat, text: string)
    requires p <= |s| && LexFrom(s, p) == Err(UnknownToken(text))
    ensures text in WordsFrom(s, p) && text != "noop" && |text| <= MaxTokenLength
    decreases |s| - p
  {
    var n := RunLength(s, p);
    if RunToken(s[p..p + n]).Err? {
      FirstWord(s, p);
    } else {
      LexStep(s, p);
      LaterWords(s, p);
      LexUnknown(s, p + n + 1, text);
    }
  }

  /** A text that tokenizes to the classified tokens ts. */
  function Render(ts: seq<Token>): string
    requires forall t | t in ts :: Classified(t)
  {
    if ts == [] then ""
    else (if ts[0].kind == TokenNoop then "noop " else "\n") + Render(ts[1..])
  }

  /** `noop` and a blank at p: one noop token, then the rest after the blank. */
  lemma LexNoopAt(s: string, p: nat)
    requires p + 5 <= |s|
    requires s[p] == 'n' && s[p + 1] == 'o' && s[p + 2] == 'o' && s[p + 3] == 'p' && s[p + 4] == ' '
    ensures LexFrom(s, p) == Prepend([Token(TokenNoop, NoneValue)], LexFrom(s, p + 5))
  {
    assert RunLength(s, p + 4) == 0;
    assert RunLength(s, p + 3) == 1;
    assert RunLength(s, p + 2) == 2;
    assert RunLength(s, p + 1) == 3;
    assert RunLength(s, p) == 4;
    var w := s[p..p + 4];
    assert w[0] == s[p] && w[1] == s[p + 1] && w[2] == s[p + 2] && w[3] == s[p + 3];
    assert IsNoop(w);
    assert RunToken(w) == Ok([Token(TokenNoop, NoneValue)]);
    assert [Token(TokenNoop, NoneValue)] + Separator(s[p + 4]) == [Token(TokenNoop, NoneValue)];
  }

  /** A newline at p: one newline token, then the rest after it. */
  lemma LexNewLineAt(s: string, p: nat)
    requires p < |s| && s[p] == '\n'
    ensures LexFrom(s, p) == Prepend([Token(TokenNewLine, NoneValue)], LexFrom(s, p + 1))
  {
    assert RunLength(s, p) == 0;
    assert RunToken(s[p..p]) == Ok([]);
    assert [] + Separator(s[p]) == [Token(TokenNewLine, NoneValue)];
  }

  /** "noop " placed after pre is read as one noop token. */
  lemma LexRenderNoop(pre: string, rest: string)
    ensures var s := pre + "noop " + rest;
      LexFrom(s, |pre|) == Prepend([Token(TokenNoop, NoneValue)], LexFrom(s, |pre| + 5))
  {
    var line := "noop ";
    var s := pre + line + rest;
    var q := |pre|;
    assert s[q] == line[0] && s[q + 1] == line[1] && s[q + 2] == line[2] && s[q + 3] == line[3] && s[q + 4] == line[4];
    LexNoopAt(s, q);
  }

  /** A newline placed after pre is read as one newline token. */
  lemma LexRenderNewLine(pre: string, rest: string)
    ensures var s := pre + "\n" + rest;
      LexFrom(s, |pre|) == Prepend([Token(TokenNewLine, NoneValue)], LexFrom(s, |pre| + 1))
  {
    var s := pre + "\n" + rest;
    assert s[|pre|] == '\n';
    LexNewLineAt(s, |pre|);
  }

  /** The rendering of one token, placed after pre, is read as that token. */
  lemma LexRenderOne(pre: string, t: Token, rest: string)
    requires Classified(t)
    ensures var line := if t.kind == TokenNoop then "noop " else "\n";
      var s := pre + line + rest;
      LexFrom(s, |pre|) == Prepend([t], LexFrom(s, |pre| + |line|))
  {
    if t.kind == TokenNoop {
      LexRenderNoop(pre, rest);
    } else {
      LexRenderNewLine(pre, rest);
    }
  }

  /** One step of LexRender: the rendering of t, placed after pre and before
      a text read as tail, is read as t and then tail. */
  lemma LexRenderStep(pre: string, t: Token, line: string, rest: string, tail: seq<Token>)
    requires Classified(t) && line == (if t.kind == TokenNoop then "noop " else "\n")
    requires LexFrom((pre + line) + rest, |pre + line|) == Ok(tail)
    ensures LexFrom(pre + (line + rest), |pre|) == Ok([t] + tail)
  {
    hide LexFrom;
    assert pre + (line + rest) == (pre + line) + rest;
    assert |pre + line| == |pre| + |line|;
    LexRenderOne(pre, t, rest);
  }

  /** Tokenizing the rendering of classified tokens gives them back, wherever
      the rendering starts. */
  lemma {:induction false} LexRender(pre: string, ts: seq<Token>)
    requires forall t | t in ts :: Classified(t)
    ensures LexFrom(pre + Render(ts), |pre|) == Ok(ts)
    decreases |ts|
  {
    if ts == [] {
      assert pre + Render(ts) == pre;
    } else {
      var t := ts[0];
      assert t in ts;
      var line := if t.kind == TokenNoop then "noop " else "\n";
      var rest := Render(ts[1..]);
      assert Render(ts) == line + rest;
      LexRender(pre + line, ts[1..]);
      LexRenderStep(pre, t, line, rest, ts[1..]);
      assert ts == [t] + ts[1..];
    }
  }

  /** Carriage return is not a separator: a line ending in "\r\n" leaves the
      '\r' inside the last run. */
  lemma CarriageReturnIsPartOfRun()
    ensures !CharIsWhiteSpace('\r')
    ensures Lex("noop\r\n") == Err(UnknownToken("noop\r"))
  {
    var s := "noop\r\n";
    RunLengthUnique(s, 0, 5);
    assert s[0..5] == "noop\r";
  }

  /** The growable token array of lexer.c. */
  class TokenVec {
    var elements: array<Token>
    var len: nat
    var capacity: nat

    ghost predicate Valid()
      reads this
    {
      elements.Length == capacity && 1 <= capacity && len <= capacity
    }

    ghost function Contents(): seq<Token>
      reads this, elements
      requires Valid()
    {
      elements[..len]
    }

    /** token_vec_new */
    constructor ()
      ensures Valid() && fresh(elements)
      ensures Contents() == [] && capacity == 1
    {
      elements := new Token[1];
      len := 0;
      capacity := 1;
    }

    /** token_vec_push: doubles the capacity when full, then appends. */
    method Push(token: Token)
      requires Valid()
      modifies this, elements
      ensures Valid() && (elements == old(elements) || fresh(elements))
      ensures Contents() == old(Contents()) + [token]
      ensures capacity == if old(len) == old(capacity) then 2 * old(capacity) else old(capacity)
    {
      if len == capacity {
        var grown := new Token[2 * capacity];
        forall j | 0 <= j < len {
          grown[j] := elements[j];
        }
        elements := grown;
        capacity := 2 * capacity;
      }
      elements[len] := token;
      len := len + 1;
    }
  }

  /** The copying loop of lex_string: copies the run at start into buffer,
      giving up as soon as it outgrows the token limit. */
  method ReadRun(s: string, start: nat, buffer: array<char>) returns (pos: nat, tooLong: bool)
    requires start <= |s| && buffer.Length == BufferSize
    modifies buffer
    ensures tooLong <==> RunLength(s, start) > MaxTokenLength
    ensures !tooLong ==> pos == RunLength(s, start) && buffer[..pos] == s[start..start + pos]
  {
    pos := 0;
    while start + pos < |s| && !CharIsWhiteSpace(s[start + pos])
      invariant start + pos <= |s| && pos <= MaxTokenLength
      invariant buffer[..pos] == s[start..start + pos]
      invariant forall j :: start <= j < start + pos ==> !CharIsWhiteSpace(s[j])
    {
      buffer[pos] := s[start + pos];
      pos := pos + 1;
      if pos > MaxTokenLength {
        assert RunLength(s, start) > MaxTokenLength by {
          RunLengthMaximal(s, start);
          assert !CharIsWhiteSpace(s[start + pos - 1]);
        }
        return pos, true;
      }
    }
    RunLengthUnique(s, start, pos);
    tooLong := false;
  }

  /** The memset that empties the scratch buffer after each run. */
  method ClearBuffer(buffer: array<char>)
    modifies buffer
    ensures forall j :: 0 <= j < buffer.Length ==> buffer[j] == '\0'
  {
    forall j | 0 <= j < buffer.Length {
      buffer[j] := '\0';
    }
  }

  /** The first half of a pass of lex_string's outer loop: the run at p is
      copied into the buffer and, when not empty, its token is appended to
      vec; the result is the run's length. */
  method PushRun(s: string, p: nat, vec: TokenVec, buffer: array<char>) returns (r: Result<nat, LexError>)
    requires p < |s| && vec.Valid()
    requires buffer.Length == BufferSize
    modifies vec, vec.elements, buffer
    ensures vec.Valid() && (vec.elements == old(vec.elements) || fresh(vec.elements))
    ensures r.Ok? ==>
      r.value == RunLength(s, p) <= MaxTokenLength && RunToken(s[p..p + r.value]).Ok? &&
      vec.Contents() == old(vec.Contents()) + RunToken(s[p..p + r.value]).value
    ensures r.Err? ==> LexFrom(s, p) == Err(r.error)
  {
    var pos, tooLong := ReadRun(s, p, buffer);
    if tooLong {
      return Err(TokenTooLong);
    }
    if pos > 0 {
      var t := TokenGet(buffer[..pos]);
      if t.Err? {
        return Err(t.error);
      }
      vec.Push(t.value);
    }
    r := Ok(pos);
  }

  /** The separator after a run: a newline character is classified and
      appended as a newline token; a blank or tab adds nothing. */
  method PushSeparator(c: char, vec: TokenVec)
    requires vec.Valid()
    modifies vec, vec.elements
    ensures vec.Valid() && (vec.elements == old(vec.elements) || fresh(vec.elements))
    ensures vec.Contents() == old(vec.Contents()) + Separator(c)
  {
    if c == '\n' {
      var newline := TokenGet("\n");
      assert newline == Ok(Token(TokenNewLine, NoneValue));
      vec.Push(newline.value);
    }
  }

  /** One pass of lex_string's outer loop: the token of the run at p and the
      newline token of its separator (line) are appended to vec, and the scan
      resumes after the separator. */
  method LexRunAt(s: string, p: nat, vec: TokenVec, buffer: array<char>) returns (r: Result<nat, LexError>, ghost line: seq<Token>)
    requires p < |s| && vec.Valid()
    requires buffer.Length == BufferSize
    modifies vec, vec.elements, buffer
    ensures vec.Valid() && (vec.elements == old(vec.elements) || fresh(vec.elements))
    ensures r.Ok? ==>
      p < r.value <= |s| && vec.Contents() == old(vec.Contents()) + line &&
      LexFrom(s, p) == Prepend(line, LexFrom(s, r.value))
    ensures r.Err? ==> LexFrom(s, p) == Err(r.error)
  {
    ghost var before := vec.Contents();
    var run := PushRun(s, p, vec, buffer);
    if run.Err? {
      return Err(run.error), [];
    }
    var pos := run.value;
    ghost var tokens := RunToken(s[p..p + pos]).value;
    if p + pos == |s| {
      return Err(ReadPastEnd), [];
    }
    PushSeparator(s[p + pos], vec);
    line := tokens + Separator(s[p + pos]);
    assert before + tokens + Separator(s[p + pos]) == before + line;
    LexStep(s, p);
    ClearBuffer(buffer);
    r := Ok(p + pos + 1);
  }

  /** lex_string: appends the tokens of one C string to vec. */
  method LexString(s: string, vec: TokenVec) returns (r: Result<(), LexError>)
    requires '\0' !in s
    requires vec.Valid()
    modifies vec, vec.elements
    ensures vec.Valid()
    ensures r.Ok? <==> Lex(s).Ok?
    ensures r.Ok? ==> vec.Contents() == old(vec.Contents()) + Lex(s).value
    ensures r.Err? ==> r.error == Lex(s).error
  {
    var buffer := new char[BufferSize](_ => '\0');
    var p: nat := 0;
    ghost var emitted: seq<Token> := [];
    ghost var base := vec.Contents();
    assert Prepend([], Lex(s)) == Lex(s) by {
      if Lex(s).Ok? {
        assert [] + Lex(s).value == Lex(s).value;
      }
    }
    while p < |s|
      invariant p <= |s|
      invariant vec.Valid() && (vec.elements == old(vec.elements) || fresh(vec.elements))
      invariant buffer.Length == BufferSize
      invariant vec.Contents() == base + emitted
      invariant Lex(s) == Prepend(emitted, LexFrom(s, p))
      decreases |s| - p
    {
      hide Lex, LexFrom;
      var next, line := LexRunAt(s, p, vec, buffer);
      if next.Err? {
        return Err(next.error);
      }
      PrependPrepend(emitted, line, LexFrom(s, next.value));
      assert base + emitted + line == base + (emitted + line);
      emitted := emitted + line;
      p := next.value;
    }
    assert LexFrom(s, p) == Ok([]) && emitted + [] == emitted;
    r := Ok(());
  }
}
