/** Option and Result types shared by the model: Java's null and thrown exceptions
    become explicit values; Java's integer division and lower-casing. */
module Wrappers {

  datatype Option<+T> = None | Some(value: T)

  /** The exceptions the modelled Java code can throw. */
  datatype Exception =
    | IllegalArgument
    | IllegalState
    | ClassCast
    | NullPointer

  datatype Result<+T> = Ok(value: T) | Err(error: Exception)

  /** Java's `/` on int, which truncates toward zero (Dafny's rounds down). */
  function JavaDiv(a: int, b: int): int
    requires b > 0
  {
    if a >= 0 then a / b else -((-a) / b)
  }

  predicate IsUpper(c: char)
  {
    'A' <= c <= 'Z'
  }

  /** Java's `Character.toLowerCase` on the ASCII letters; every other
      character is left alone. */
  function ToLower(c: char): (r: char)
    ensures !IsUpper(r)
    ensures IsUpper(c) ==> r as int == c as int + 32
    ensures !IsUpper(c) ==> r == c
  {
    if IsUpper(c) then (c as int + 32) as char else c
  }

  /** Java's `String.toLowerCase`, on the ASCII letters. */
  function LowerCase(s: string): (r: string)
    ensures |r| == |s|
    ensures forall i :: 0 <= i < |s| ==> r[i] == ToLower(s[i])
  {
    if |s| == 0 then "" else [ToLower(s[0])] + LowerCase(s[1..])
  }
}
