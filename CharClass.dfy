/**
 * Character classification used by the name rewriter, over ASCII.
 * `IsUpper`, `IsLower`, `IsDigit` and `IsLetter` stand for .NET's
 * `char.IsUpper`, `char.IsLower`, `char.IsDigit` and `char.IsLetter`, and
 * `ToUpperInvariant` for `char.ToUpperInvariant`, restricted to the ASCII
 * range: the three classes are pairwise disjoint and every upper- or
 * lower-case character is a letter.
 */
module CharClass {

  predicate IsUpper(c: char) { 'A' <= c <= 'Z' }

  predicate IsLower(c: char) { 'a' <= c <= 'z' }

  predicate IsDigit(c: char) { '0' <= c <= '9' }

  predicate IsLetter(c: char) { IsUpper(c) || IsLower(c) }

  /** Culture-invariant upper-casing: lower-case letters become their
      upper-case partner, everything else is left alone. */
  function ToUpperInvariant(c: char): (u: char)
    ensures !IsLower(u)
    ensures IsLetter(u) == IsLetter(c) && IsDigit(u) == IsDigit(c)
    ensures IsUpper(c) || !IsLetter(c) ==> u == c
    ensures IsLower(c) ==> u as int == c as int - ('a' as int - 'A' as int)
  {
    if IsLower(c) then (c as int - 32) as char else c
  }
}
