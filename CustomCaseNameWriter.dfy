/**
 * `CustomCaseNameWriter.RewriteName`: the upper-case, underscore-separated
 * rewrite of an identifier. `Scanned` and `Rewrite` specify the output
 * buffer; the method `RewriteName` builds it the way the source does, with
 * a growing buffer, two backward scans and one final insertion.
 */
module CustomCaseNameWriter {
  import opened CharClass
  import opened Boundaries

  /** How the main scan copies a character: letters upper-cased, anything
      else verbatim. */
  function Emit(c: char): (e: char)
    ensures !IsLower(e)
    ensures IsLetter(c) ==> IsUpper(e)
    ensures !IsLetter(c) ==> e == c
  {
    if IsLetter(c) then ToUpperInvariant(c) else c
  }

  /** The output buffer once the main scan has handled name[..n]: the
      upper-cased first character, then for each later position its
      separators and its copied character. */
  function Scanned(name: string, n: nat): (out: string)
    requires 1 <= n <= |name|
    ensures n <= |out|
    ensures out[0] == ToUpperInvariant(name[0])
    decreases n
  {
    if n == 1 then [ToUpperInvariant(name[0])]
    else Scanned(name, n - 1) + SeparatorsAt(name, n - 1) + [Emit(name[n - 1])]
  }

  /** `StringBuilder.Insert`: `s` placed in front of position `at`. */
  function Insert(sb: string, at: nat, s: string): (r: string)
    requires at <= |sb|
    ensures |r| == |sb| + |s|
    ensures r[..at] == sb[..at] && r[at..at + |s|] == s && r[at + |s|..] == sb[at..]
  {
    sb[..at] + s + sb[at..]
  }

  /** The final step: when the name ends in digits right after a lower-case
      letter, one separator is inserted into the buffer in front of them. */
  function SpliceTrailingDigits(name: string, sb: string): (r: string)
    requires 0 < |name| <= |sb|
    ensures !HasTrailingSplice(name) ==> r == sb
    ensures HasTrailingSplice(name) ==>
              var at := |sb| - TrailingDigits(name);
              |r| == |sb| + 1 && r[at] == '_' && r[..at] == sb[..at] && r[at + 1..] == sb[at..]
  {
    if HasTrailingSplice(name) then Insert(sb, |sb| - TrailingDigits(name), "_") else sb
  }

  /** The rewritten name: the empty name unchanged; otherwise the scanned
      buffer with the trailing-digit separator spliced in. */
  function Rewrite(name: string): (r: string)
    ensures |name| == 0 ==> r == name
    ensures |name| > 0 ==> |name| <= |r| && r[0] == ToUpperInvariant(name[0])
  {
    if |name| == 0 then name else SpliceTrailingDigits(name, Scanned(name, |name|))
  }

  /** The backward scan over `j`: the length of the run of upper-case
      letters and digits that ends at name[i - 1]. */
  method AcronymBlockLength(name: string, i: nat) returns (blockLength: int)
    requires 1 <= i < |name| && IsUpper(name[i - 1])
    ensures blockLength == RunBefore(name, i, IsUpperOrDigit) >= 1
  {
    var j := i - 1;
    while j >= 0 && (IsUpper(name[j]) || IsDigit(name[j]))
      invariant -1 <= j <= i - 1
      invariant RunBefore(name, i, IsUpperOrDigit) == (i - 1 - j) + RunBefore(name, j + 1, IsUpperOrDigit)
    {
      j := j - 1;
    }
    blockLength := (i - 1) - j;
  }

  /** The backward scan over `lastIndex`: the index of the last character
      that is not a digit, or -1 when the whole name is digits. */
  method LastNonDigitIndex(name: string) returns (lastIndex: int)
    ensures lastIndex == |name| - 1 - TrailingDigits(name)
    ensures -1 <= lastIndex < |name|
    ensures lastIndex >= 0 ==> !IsDigit(name[lastIndex])
  {
    lastIndex := |name| - 1;
    while lastIndex >= 0 && IsDigit(name[lastIndex])
      invariant -1 <= lastIndex <= |name| - 1
      invariant TrailingDigits(name) == (|name| - 1 - lastIndex) + RunBefore(name, lastIndex + 1, IsDigit)
    {
      lastIndex := lastIndex - 1;
    }
  }

  /** The main scan: the first character upper-cased, then every later
      character with the separators the boundary rules put in front of it. */
  method ScanName(name: string) returns (sb: string)
    requires |name| > 0
    ensures sb == Scanned(name, |name|)
  {
    sb := [ToUpperInvariant(name[0])];

    for i := 1 to |name|
      invariant sb == Scanned(name, i)
    {
      ghost var before, closes := sb, false;
      var c := name[i];
      var prev := name[i - 1];

      var isBoundary := IsLetter(c) && IsUpper(c) && IsLetter(prev) && IsLower(prev);

      if IsLetter(c) && IsUpper(c) {
        var nextIsLower := i + 1 < |name| && IsLetter(name[i + 1]) && IsLower(name[i + 1]);

        if nextIsLower {
          if IsDigit(prev) {
            sb, closes := sb + "_", true;
          } else if IsLetter(prev) && IsUpper(prev) {
            var blockLength := AcronymBlockLength(name, i);
            if blockLength >= 2 {
              sb, closes := sb + "_", true;
            }
          }
        }
      }
      assert closes == ClosesDigitsOrAcronym(name, i) && sb == before + (if closes then "_" else "");

      if isBoundary {
        sb := sb + "_";
      }
      assert sb == before + SeparatorsAt(name, i);

      sb := sb + [if IsLetter(c) then ToUpperInvariant(c) else c];
    }

  }

  method RewriteName(name: string) returns (r: string)
    ensures r == Rewrite(name)
  {
    if |name| == 0 {
      return name;
    }

    var sb := ScanName(name);

    if IsDigit(name[|name| - 1]) {
      var lastIndex := LastNonDigitIndex(name);

      if lastIndex >= 0 && IsLetter(name[lastIndex]) && IsLower(name[lastIndex]) {
        var digitsCount := |name| - lastIndex - 1;
        assert HasTrailingSplice(name) && digitsCount == TrailingDigits(name) < |name| <= |sb|;
        sb := Insert(sb, |sb| - digitsCount, "_");
      } else {
        assert !HasTrailingSplice(name);
      }
    } else {
      assert !HasTrailingSplice(name);
    }

    r := sb;
  }
}
