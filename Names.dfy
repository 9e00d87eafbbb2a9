/** Fruit names as the price table sees them.

    Every store operation addresses a fruit by the lower-cased form of the
    name it is given, so "Grape", "GRAPE" and "grape" are one entry. The
    HTTP layer in front of the tasks rejects a name that is blank once
    surrounding white space is trimmed. */
module Names {

  /** True of the ASCII capital letters, the characters lower-casing changes. */
  predicate IsUpper(c: char) {
    'A' <= c <= 'Z'
  }

  /** Lower-cases one ASCII letter and keeps every other character. */
  function LowerChar(c: char): char {
    if IsUpper(c) then (c as int - 'A' as int + 'a' as int) as char else c
  }

  /** The lower-cased form of a name: same length, each capital replaced by
      its small letter, every other character kept, and no capital left. */
  function ToLower(s: string): (r: string)
    ensures |r| == |s|
    ensures forall i :: 0 <= i < |s| && IsUpper(s[i]) ==> r[i] as int == s[i] as int + 32
    ensures forall i :: 0 <= i < |s| && !IsUpper(s[i]) ==> r[i] == s[i]
    ensures forall i :: 0 <= i < |r| ==> !IsUpper(r[i])
  {
    seq(|s|, i requires 0 <= i < |s| => LowerChar(s[i]))
  }

  /** Lower-casing twice is lower-casing once: a key that was stored in
      lower-cased form is found again under its own name. */
  lemma ToLowerIdempotent(s: string)
    ensures ToLower(ToLower(s)) == ToLower(s)
  {
  }

  /** A name without capital letters is already in lower-cased form. */
  lemma ToLowerOfLowercase(s: string)
    requires forall i :: 0 <= i < |s| ==> !IsUpper(s[i])
    ensures ToLower(s) == s
  {
  }

  /** Java's `trim().isEmpty()` is false exactly when some character is above
      the space character U+0020: trim strips everything up to and including it. */
  predicate NonBlank(s: string) {
    exists i :: 0 <= i < |s| && s[i] > ' '
  }
}
