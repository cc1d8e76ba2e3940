/** Shared wrappers and the ASCII text helpers the library's string comparisons rely on. */
module Common {

  datatype Option<+T> = None | Some(value: T)

  /** A value or the exception that replaced it. */
  datatype Result<+T, +E> = Ok(value: T) | Failure(error: E)

  /** An identifier character as the regular-expression class \w sees it (ASCII part). */
  predicate IsWordChar(c: char)
  {
    ('a' <= c <= 'z') || ('A' <= c <= 'Z') || ('0' <= c <= '9') || c == '_'
  }

  /** ASCII lower-casing of one character. */
  function LowerChar(c: char): (r: char)
    ensures 'A' <= c <= 'Z' ==> 'a' <= r <= 'z'
    ensures !('A' <= c <= 'Z') ==> r == c
  {
    if 'A' <= c <= 'Z' then (c as int + 32) as char else c
  }

  /** Names are equal ignoring (ASCII) case. */
  predicate EqualsIgnoreCase(a: string, b: string)
  {
    |a| == |b| && forall i :: 0 <= i < |a| ==> LowerChar(a[i]) == LowerChar(b[i])
  }

  /** `s.Contains(c)` for a one-character needle. */
  predicate ContainsChar(s: string, c: char)
  {
    exists i :: 0 <= i < |s| && s[i] == c
  }
}
