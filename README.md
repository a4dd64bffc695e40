# Upper snake-case name rewriting (EFCore.NamingConventions)

This project models `CustomCaseNameWriter.RewriteName`, which turns a
programming identifier into an upper-case, underscore-separated database
name: `fooBar` becomes `FOO_BAR`, `XMLParser` becomes `XML_PARSER` and
`UserId1` becomes `USER_ID_1`.

It has five modules:

- `CharClass` defines the character classes (upper, lower, digit, letter)
  and culture-invariant upper-casing, over ASCII.
- `Boundaries` states the separator rules position by position:
  - lower-case to upper-case;
  - digit, then a capitalised word;
  - the end of an acronym, measured by the backward run `RunBefore`;
  - the trailing digit group after a lower-case letter.

  `Boundary` combines them into one reference predicate.
- `CustomCaseNameWriter` holds the specification functions `Scanned` (the
  buffer after the main scan) and `Rewrite` (the result). It also holds the
  method `RewriteName`, which builds the result the way the source does: a
  growing buffer, a `for` loop, the two backward `while` loops (in
  `AcronymBlockLength` and `LastNonDigitIndex`) and the final
  `StringBuilder.Insert`. Each method is proved equal to its specification.
- `Segmentation` describes the result a second way, as one token per input
  character, preceded by an inserted separator exactly where `Boundary`
  holds. It proves that the buffer algorithm, splice included, yields exactly
  this layout. On top of that it proves:
  - removing the separators gives back the input, case-mapped;
  - the output length is the input length plus the number of separators;
  - separators are never first, last or adjacent;
  - the output has no lower-case letter;
  - rewriting is idempotent.
- `RewriteExamples` works through concrete identifiers.

A letter-to-digit step inside a name is never separated
(CustomCaseNameWriter.cs:27-73): `v2Something` becomes `V2_SOMETHING`, not
`V_2_SOMETHING` (`RewriteExamples.DigitThenWord`,
`Boundaries.DigitBoundaryOnlyTrailing`).

## Model

| member | source | states |
|---|---|---|
| CharClass.ToUpperInvariant | EFCore.NamingConventions/Internal/CustomCaseNameWriter.cs:20 | the result is never lower-case; letters, digits and everything else keep their class; upper-case letters and non-letters are unchanged; a lower-case letter moves to its upper-case partner |
| Boundaries.RunBefore | EFCore.NamingConventions/Internal/CustomCaseNameWriter.cs:44-48 | the run ending before `end` lies within the string, all its characters are in the class, and the character before it (if any) is not, so the run is maximal |
| Boundaries.SeparatorsAt | EFCore.NamingConventions/Internal/CustomCaseNameWriter.cs:27-56 | the main scan appends either nothing or a single `_` in front of name[i], and it is `_` exactly when the lower-to-upper rule or the digit/acronym rule fires, so never two separators at one position |
| Boundaries.LowerToUpper | EFCore.NamingConventions/Internal/CustomCaseNameWriter.cs:27-28 | the lower-to-upper rule as the source writes it: an upper-case letter right after a lower-case letter; when it fires, the digit/acronym rule does not, so the two never add two separators |
| Boundaries.StartsCapitalizedWord | EFCore.NamingConventions/Internal/CustomCaseNameWriter.cs:30-36 | the guard of the digit/acronym rule as the source writes it: an upper-case letter with a next character that exists and is a lower-case letter, so an upper-case/digit run ends at i |
| Boundaries.ClosesDigitsOrAcronym | EFCore.NamingConventions/Internal/CustomCaseNameWriter.cs:36-51 | the digit/acronym rule as the source writes it: the guard holds and the previous character is a digit, or an upper-case letter whose backward run has length at least 2; when it fires, name[i] is upper-case and the run before it is non-empty |
| Boundaries.HasTrailingSplice | EFCore.NamingConventions/Internal/CustomCaseNameWriter.cs:63-69 | the splice condition as the source writes it: the name ends in a digit and the character at `lastIndex` exists and is lower-case; then the trailing digit run is non-empty, shorter than the name, and follows a lower-case letter |
| Boundaries.RunAtLeastTwo | EFCore.NamingConventions/Internal/CustomCaseNameWriter.cs:42-51 | the acronym run is at least 2 long exactly when the two characters before i are both upper-case letters or digits |
| Boundaries.BoundaryNeighbours | EFCore.NamingConventions/Internal/CustomCaseNameWriter.cs:22-56 | a separator never comes before position 0; it always precedes an upper-case letter or a digit and follows a letter or a digit |
| Boundaries.DigitBoundaryOnlyTrailing | EFCore.NamingConventions/Internal/CustomCaseNameWriter.cs:63-73 | a separator in front of a digit opens the trailing digit group, after a lower-case letter, and only digits follow it; a letter-to-digit step inside the name gets none |
| Boundaries.TrailingGroup | EFCore.NamingConventions/Internal/CustomCaseNameWriter.cs:63-73 | when the name ends in digits after a lower-case letter, exactly one separator falls in the trailing group, in front of its first digit |
| CustomCaseNameWriter.Emit | EFCore.NamingConventions/Internal/CustomCaseNameWriter.cs:58-60 | the copied character is never lower-case; letters come out upper-case and every other character unchanged |
| CustomCaseNameWriter.Insert | EFCore.NamingConventions/Internal/CustomCaseNameWriter.cs:72 | `StringBuilder.Insert`: the result is longer by the length of `s`; the buffer before `at` is kept, `s` follows, and then the rest of the buffer |
| CustomCaseNameWriter.SpliceTrailingDigits | EFCore.NamingConventions/Internal/CustomCaseNameWriter.cs:63-73 | without a trailing splice the buffer is returned as it is; with one, a single `_` lands at `sb.Length - digitsCount`, and everything before it and after it is the old buffer |
| CustomCaseNameWriter.Scanned | EFCore.NamingConventions/Internal/CustomCaseNameWriter.cs:19-61 | the buffer after the main scan over name[..n] is at least n long and starts with the upper-cased first character |
| CustomCaseNameWriter.Rewrite | EFCore.NamingConventions/Internal/CustomCaseNameWriter.cs:14-77 | the empty name is returned unchanged; otherwise the result is at least as long as the name and starts with the upper-cased first character |
| CustomCaseNameWriter.AcronymBlockLength | EFCore.NamingConventions/Internal/CustomCaseNameWriter.cs:44-48 | the backward loop over `j` returns the length of the maximal run of upper-case letters and digits ending at name[i-1], which is at least 1 |
| CustomCaseNameWriter.LastNonDigitIndex | EFCore.NamingConventions/Internal/CustomCaseNameWriter.cs:65-67 | the backward loop over `lastIndex` stops at the last non-digit, or at -1 when the name is all digits, so it sits right before the trailing digit run |
| CustomCaseNameWriter.ScanName | EFCore.NamingConventions/Internal/CustomCaseNameWriter.cs:19-61 | the first character and the `for` loop with its branches build exactly the buffer `Scanned` of the whole name |
| CustomCaseNameWriter.RewriteName | EFCore.NamingConventions/Internal/CustomCaseNameWriter.cs:14-77 | the whole method, empty-name return and trailing splice at `sb.Length - digitsCount` included, returns exactly `Rewrite(name)` |
| Segmentation.RewriteIsLayout | EFCore.NamingConventions/Internal/CustomCaseNameWriter.cs:63-73 | the buffer with its late splice equals the layout that puts one separator in front of every boundary position, so the splice lands just before the first trailing digit |
| Segmentation.StripSeparators | EFCore.NamingConventions/Internal/CustomCaseNameWriter.cs:20-60 | taking the inserted separators out of the result gives back the input in order and at full length: position 0 upper-cased unconditionally, later letters upper-cased, every other character (an input `_` included) verbatim |
| Segmentation.RewriteLength | EFCore.NamingConventions/Internal/CustomCaseNameWriter.cs:40-72 | the output length is the input length plus the number of boundary positions |
| Segmentation.RewriteWellSeparated | EFCore.NamingConventions/Internal/CustomCaseNameWriter.cs:22-72 | inserted separators are never first or last, never adjacent, and always sit between copied upper-case letters or digits |
| Segmentation.RewriteHasNoLower | EFCore.NamingConventions/Internal/CustomCaseNameWriter.cs:20-60 | the result has no lower-case letter |
| Segmentation.RewriteFixesNoLower | EFCore.NamingConventions/Internal/CustomCaseNameWriter.cs:14-77 | a name without lower-case letters is returned unchanged: no rule and no splice fires |
| Segmentation.RewriteIdempotent | EFCore.NamingConventions/Internal/CustomCaseNameWriter.cs:14-77 | rewriting a rewritten name changes nothing |
| RewriteExamples.EmptyName | EFCore.NamingConventions/Internal/CustomCaseNameWriter.cs:16-17 | the empty name comes back unchanged |
| RewriteExamples.SingleWord | EFCore.NamingConventions/Internal/CustomCaseNameWriter.cs:20-60 | `Name` → `NAME` |
| RewriteExamples.CamelCase | EFCore.NamingConventions/Internal/CustomCaseNameWriter.cs:27-28 | `fooBar` → `FOO_BAR` |
| RewriteExamples.AcronymThenWord | EFCore.NamingConventions/Internal/CustomCaseNameWriter.cs:42-51 | `XMLParser` → `XML_PARSER` |
| RewriteExamples.ShortRunNoAcronym | EFCore.NamingConventions/Internal/CustomCaseNameWriter.cs:42-51 | `ABc` → `ABC`: a run of length 1 does not close an acronym |
| RewriteExamples.DigitInAcronymRun | EFCore.NamingConventions/Internal/CustomCaseNameWriter.cs:44-50 | `1ABc` → `1A_BC`: digits count towards the acronym run |
| RewriteExamples.TrailingDigitAfterLower | EFCore.NamingConventions/Internal/CustomCaseNameWriter.cs:63-73 | `item2` → `ITEM_2` |
| RewriteExamples.UserIdOne | EFCore.NamingConventions/Internal/CustomCaseNameWriter.cs:22-73 | `UserId1` → `USER_ID_1` |
| RewriteExamples.TrailingDigitAfterUpper | EFCore.NamingConventions/Internal/CustomCaseNameWriter.cs:69 | `XMLParserV2` → `XML_PARSER_V2`: no splice after an upper-case letter |
| RewriteExamples.DigitThenWord | EFCore.NamingConventions/Internal/CustomCaseNameWriter.cs:38-41 | `v2Something` → `V2_SOMETHING` |
| RewriteExamples.InnerDigitThenWord | EFCore.NamingConventions/Internal/CustomCaseNameWriter.cs:38-41 | `item2Foo` → `ITEM2_FOO`: an inner digit run gets no splice |
| RewriteExamples.UnderscoreKept | EFCore.NamingConventions/Internal/CustomCaseNameWriter.cs:58-60 | `aB_c` → `A_B_C`: an input `_` is copied like any other non-letter |

## Left out

- EFCore.NamingConventions/Check.cs: argument guards that throw exceptions; none of it feeds the rewrite.
- Unicode character tables: `char.IsLetter`, `IsUpper`, `IsLower`, `IsDigit` and `ToUpperInvariant` are modelled on ASCII ranges only. Under ASCII, the unconditional upper-casing of the first character (line 20) and the letters-only upper-casing of later ones (lines 58-60) agree. The model still keeps them apart.
- The `_culture` field and the constructor (lines 9-12): the culture is stored but never read.
- The `null` branch of `string.IsNullOrEmpty` (line 16): Dafny strings are never null, so only the empty case is modelled.
- The `INameRewriter` interface and the host wiring: not part of this model.
- `RewriteName`'s single method body is split into the methods `ScanName`, `AcronymBlockLength` and `LastNonDigitIndex`. Their statements and branches are the source's, in the same order.
- The `StringBuilder` is a `seq<char>` value that the methods reassign, and `StringBuilder.Insert` is the function `Insert` on it. Capacity and in-place growth are not modelled.
