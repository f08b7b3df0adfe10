/** Bytes, C's signed `char` and the <ctype.h> classes in the "C" locale,
    as the scanner uses them. A byte read through a `char*` is sign-extended
    to an `int`, so byte 0xFF reads as -1, the value of EOF. */
module CType {

  newtype byte = x: int | 0 <= x < 256

  /** The EOF sentinel returned by the cursor past the end of the buffer. */
  const EOF: int := -1

  /** The value a byte has once read through a (signed) `char`. */
  function SignedChar(b: byte): (c: int)
    ensures -128 <= c < 128
    ensures c == EOF <==> b == 0xFF
    ensures 0 <= c <==> b < 128
  {
    if b < 128 then b as int else b as int - 256
  }

  predicate IsDigit(c: int) { '0' as int <= c <= '9' as int }

  predicate IsAlpha(c: int) {
    ('a' as int <= c <= 'z' as int) || ('A' as int <= c <= 'Z' as int)
  }

  predicate IsAlnum(c: int) { IsAlpha(c) || IsDigit(c) }

  /** space, \t, \n, \v, \f, \r */
  predicate IsSpace(c: int) { c == ' ' as int || (9 <= c <= 13) }
}
