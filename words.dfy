/** Fixed-width machine integers of the am4 toolchain and the 24-bit operand field. */
module Words {

  const Two23: int := 0x80_0000
  const Two24: int := 0x100_0000
  const Two31: int := 0x8000_0000
  const Two32: int := 0x1_0000_0000

  /** C `uint32_t`: one word of an am4 binary. */
  type word = x: int | 0 <= x < 0x1_0000_0000

  /** C `int32_t`. */
  type int32 = x: int | -0x8000_0000 <= x < 0x8000_0000

  /** Conversion of any integer to `uint32_t` (keeps the low 32 bits). */
  function ToWord(x: int): (w: word)
    ensures (w - x) % Two32 == 0
    ensures 0 <= x < Two32 ==> w == x
  {
    x % Two32
  }

  /** Conversion of any integer to `int32_t` (two's complement wrap-around). */
  function ToInt32(x: int): (v: int32)
    ensures (v - x) % Two32 == 0
    ensures -Two31 <= x < Two31 ==> v == x
  {
    var w := x % Two32;
    if w < Two31 then w else w - Two32
  }

  /** `uint32_t` to `int32_t` and back loses nothing. */
  lemma WordInt32RoundTrip(v: int32)
    ensures ToInt32(ToWord(v)) == v
  {
  }

  /** The low 24 bits of a value, as `value & 0xFFFFFF` gives them in two's complement. */
  function Low24(x: int): (f: int)
    ensures 0 <= f < Two24
    ensures (f - x) % Two24 == 0
  {
    x % Two24
  }

  /** The value of a 24-bit field read as a signed 24-bit number. */
  function SignExtend24(f: int): (v: int)
    requires 0 <= f < Two24
    ensures -Two23 <= v < Two23
    ensures (v - f) % Two24 == 0
  {
    if f < Two23 then f else f - Two24
  }

  /** Truncating to 24 bits and sign-extending again is the identity exactly on
      the signed 24-bit range. */
  lemma {:induction false} SignExtendLow24(v: int)
    ensures SignExtend24(Low24(v)) == v <==> -Two23 <= v < Two23
  {
    if -Two23 <= v < Two23 {
      if v < 0 {
        assert Low24(v) == v + Two24;
      } else {
        assert Low24(v) == v;
      }
    }
  }
}
