/** The payload carried by an assembler token or instruction
    (assembler/src/value.h, with the kinds that value.c and
    code_generation.c use). */
module AsmValue {

  import opened Words

  datatype Value =
    | NoneValue
    | IntValue(integer: int32)
    | BoolValue(boolean: bool)
    | StringValue(text: string)
}
