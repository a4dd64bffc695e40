/**
 * The boundary classifier: the rules that decide whether a separator goes
 * in front of a character of the identifier, stated position by position
 * (CustomCaseNameWriter.cs, lines 27-56 for the main scan and lines 63-73
 * for the trailing digit group).
 */
module Boundaries {
  import opened CharClass

  predicate IsUpperOrDigit(c: char) { IsUpper(c) || IsDigit(c) }

  /** Length of the maximal run of characters in class `inClass` that ends
      just before index `end`: the backward scans over `j` (upper-case
      letters and digits) and over `lastIndex` (digits). */
  function RunBefore(s: string, end: nat, inClass: char -> bool): (n: nat)
    requires end <= |s|
    ensures n <= end
    ensures forall k :: end - n <= k < end ==> inClass(s[k])
    ensures n < end ==> !inClass(s[end - n - 1])
    decreases end
  {
    if end == 0 || !inClass(s[end - 1]) then 0 else 1 + RunBefore(s, end - 1, inClass)
  }

  /** A lower-case letter followed by an upper-case letter. It never fires
      together with the digit/acronym rule, whose character before i is a
      digit or an upper-case letter. */
  predicate LowerToUpper(name: string, i: nat): (b: bool)
    requires 1 <= i < |name|
    ensures b ==> !ClosesDigitsOrAcronym(name, i)
  {
    IsLetter(name[i]) && IsUpper(name[i]) && IsLetter(name[i - 1]) && IsLower(name[i - 1])
  }

  /** name[i] is an upper-case letter and the next character exists and is
      a lower-case letter. */
  predicate StartsCapitalizedWord(name: string, i: nat): (b: bool)
    requires i < |name|
    ensures b ==> i + 1 < |name| && IsUpperOrDigit(name[i]) && !IsUpperOrDigit(name[i + 1])
  {
    IsLetter(name[i]) && IsUpper(name[i]) &&
    i + 1 < |name| && IsLetter(name[i + 1]) && IsLower(name[i + 1])
  }

  /** A capitalised word starts at i right after a digit, or right after an
      acronym: a run of upper-case letters and digits at least 2 long. */
  predicate ClosesDigitsOrAcronym(name: string, i: nat): (b: bool)
    requires 1 <= i < |name|
    ensures b ==> IsUpper(name[i]) && RunBefore(name, i, IsUpperOrDigit) >= 1
  {
    StartsCapitalizedWord(name, i) &&
    (IsDigit(name[i - 1]) ||
     (IsLetter(name[i - 1]) && IsUpper(name[i - 1]) && RunBefore(name, i, IsUpperOrDigit) >= 2))
  }

  /** The separators the main scan appends before it copies name[i]: first
      the digit/acronym rule, then the lower-to-upper rule. The two rules
      never both fire, so there is at most one. */
  function SeparatorsAt(name: string, i: nat): (seps: string)
    requires 1 <= i < |name|
    ensures seps == "" || seps == "_"
    ensures seps == "_" <==> LowerToUpper(name, i) || ClosesDigitsOrAcronym(name, i)
  {
    (if ClosesDigitsOrAcronym(name, i) then "_" else "") + (if LowerToUpper(name, i) then "_" else "")
  }

  /** Number of digits at the end of the name. */
  function TrailingDigits(name: string): nat
  {
    RunBefore(name, |name|, IsDigit)
  }

  /** Index of the first character of the trailing digit run. */
  function TrailingStart(name: string): nat
  {
    |name| - TrailingDigits(name)
  }

  /** The name ends in digits and the character just before that digit run
      is a lower-case letter. */
  predicate HasTrailingSplice(name: string): (b: bool)
    ensures b ==> 0 < TrailingDigits(name) < |name| && IsLower(name[TrailingStart(name) - 1])
  {
    |name| > 0 && IsDigit(name[|name| - 1]) &&
    var lastIndex := |name| - 1 - TrailingDigits(name);
    lastIndex >= 0 && IsLetter(name[lastIndex]) && IsLower(name[lastIndex])
  }

  /** Whether the rewritten name has one separator in front of name[i]:
      a rule of the main scan fires at i, or i starts the trailing digit
      group that follows a lower-case letter. */
  predicate Boundary(name: string, i: nat)
    requires i < |name|
  {
    1 <= i &&
    (LowerToUpper(name, i) || ClosesDigitsOrAcronym(name, i) ||
     (HasTrailingSplice(name) && i == TrailingStart(name)))
  }

  /** The backward scan only matters through two characters: the run is at
      least 2 long exactly when the two characters before i are both
      upper-case letters or digits. The acronym examples decide the rule
      with it. */
  lemma RunAtLeastTwo(name: string, i: nat)
    requires i <= |name|
    ensures RunBefore(name, i, IsUpperOrDigit) >= 2 <==>
            2 <= i && IsUpperOrDigit(name[i - 1]) && IsUpperOrDigit(name[i - 2])
  {
  }

  /** A separator always stands between a letter or digit and an upper-case
      letter or digit, never in front of the first character. */
  lemma BoundaryNeighbours(name: string, i: nat)
    requires i < |name| && Boundary(name, i)
    ensures 1 <= i
    ensures IsUpper(name[i]) || IsDigit(name[i])
    ensures IsLetter(name[i - 1]) || IsDigit(name[i - 1])
  {
  }

  /** A separator in front of a digit only ever opens the trailing digit
      group: a letter-to-digit step in the middle of a name gets none. */
  lemma DigitBoundaryOnlyTrailing(name: string, i: nat)
    requires i < |name| && Boundary(name, i) && IsDigit(name[i])
    ensures HasTrailingSplice(name) && i == TrailingStart(name)
    ensures IsLower(name[i - 1])
    ensures forall k :: i <= k < |name| ==> IsDigit(name[k])
  {
  }

  /** The trailing digit group after a lower-case letter gets exactly one
      separator, in front of its first digit. */
  lemma TrailingGroup(name: string)
    requires HasTrailingSplice(name)
    ensures 1 <= TrailingStart(name) < |name|
    ensures IsLower(name[TrailingStart(name) - 1])
    ensures forall k :: TrailingStart(name) <= k < |name| ==> IsDigit(name[k])
    ensures Boundary(name, TrailingStart(name))
    ensures forall k :: TrailingStart(name) < k < |name| ==> !Boundary(name, k)
  {
  }
}
