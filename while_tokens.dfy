/** The tokens of the While language (whilec/src/lexer.rs). How text is cut
    into these tokens is the work of a derive macro and is not part of this
    model; the parser works on the token sequence. */
module WhileTokens {

  import opened Words

  datatype Token =
    | Int(value: int32)
    | Add
    | Sub
    | Mul
    | OpenParen
    | CloseParen
    | False
    | True
    | Eq
    | Lt
    | LEq
    | Gt
    | GEq
    | And
    | Or
    | Not
    | Assign
    | Skip
    | SemiColon
    | If
    | Then
    | Else
    | While
    | Do
    | Ident(name: string)
}
