/**
 * A second, position-by-position description of the rewritten name: for
 * every character of the input, at most one inserted separator and then the
 * character itself, case-mapped. `RewriteIsLayout` proves that the buffer
 * algorithm (main scan, then the splice at `sb.Length - digitsCount`)
 * produces exactly this; the remaining lemmas state what the rewrite
 * promises in terms of it.
 */
module Segmentation {
  import opened CharClass
  import opened Boundaries
  import opened CustomCaseNameWriter

  /** One character of the rewritten name: a separator the rewrite inserted,
      or a character copied (case-mapped) from the input. */
  datatype Token = Inserted | Copied(c: char)

  function Glyph(t: Token): char
  {
    match t
    case Inserted => '_'
    case Copied(c) => c
  }

  function Render(ts: seq<Token>): string
  {
    seq(|ts|, k requires 0 <= k < |ts| => Glyph(ts[k]))
  }

  /** The copied characters, in order: what is left once the inserted
      separators are taken out. */
  function Kept(ts: seq<Token>): string
    decreases |ts|
  {
    if ts == [] then []
    else Kept(ts[..|ts| - 1]) + (if ts[|ts| - 1].Copied? then [ts[|ts| - 1].c] else [])
  }

  /** What becomes of name[i]: the first character is upper-cased
      unconditionally, later ones only when they are letters. */
  function Mapped(name: string, i: nat): char
    requires i < |name|
  {
    if i == 0 then ToUpperInvariant(name[0]) else Emit(name[i])
  }

  /** The tokens contributed by name[i]. */
  function Piece(name: string, i: nat): seq<Token>
    requires i < |name|
  {
    (if Boundary(name, i) then [Inserted] else []) + [Copied(Mapped(name, i))]
  }

  /** The tokens of the rewritten name[..n]. */
  function Layout(name: string, n: nat): seq<Token>
    requires n <= |name|
  {
    if n == 0 then [] else Layout(name, n - 1) + Piece(name, n - 1)
  }

  /** Number of positions below n with a separator in front. */
  function NumBoundaries(name: string, n: nat): nat
    requires n <= |name|
  {
    if n == 0 then 0 else NumBoundaries(name, n - 1) + (if Boundary(name, n - 1) then 1 else 0)
  }

  ghost predicate WordToken(t: Token)
  {
    t.Copied? && (IsUpper(t.c) || IsDigit(t.c))
  }

  /** Every inserted separator stands between two copied upper-case letters
      or digits: never first, never last, never next to another one. */
  ghost predicate WellSeparated(ts: seq<Token>)
  {
    forall k :: 0 <= k < |ts| && ts[k].Inserted? ==>
      0 < k < |ts| - 1 && WordToken(ts[k - 1]) && WordToken(ts[k + 1])
  }

  lemma RenderAppend(a: seq<Token>, b: seq<Token>)
    ensures Render(a + b) == Render(a) + Render(b)
  {
    assert forall k :: 0 <= k < |a + b| ==> Render(a + b)[k] == (Render(a) + Render(b))[k];
  }

  lemma {:induction false} KeptAppend(a: seq<Token>, b: seq<Token>)
    ensures Kept(a + b) == Kept(a) + Kept(b)
    decreases |b|
  {
    if b == [] {
      assert a + b == a;
    } else {
      assert (a + b)[..|a + b| - 1] == a + b[..|b| - 1];
      KeptAppend(a, b[..|b| - 1]);
    }
  }

  /** Up to the trailing digit group (or everywhere, when there is no
      trailing splice) the layout renders to the scan buffer. */
  lemma {:induction false} LayoutMatchesScan(name: string, n: nat)
    requires 1 <= n <= |name|
    requires !HasTrailingSplice(name) || n <= TrailingStart(name)
    ensures Render(Layout(name, n)) == Scanned(name, n)
  {
    if n == 1 {
      assert Layout(name, 1) == [Copied(ToUpperInvariant(name[0]))];
    } else {
      LayoutMatchesScan(name, n - 1);
      RenderAppend(Layout(name, n - 1), Piece(name, n - 1));
      assert Render(Piece(name, n - 1)) == SeparatorsAt(name, n - 1) + [Emit(name[n - 1])];
    }
  }

  /** The scan copies a digit with no separator in front. */
  lemma ScanStepOnDigit(name: string, i: nat)
    requires 1 <= i < |name| && IsDigit(name[i])
    ensures Scanned(name, i + 1) == Scanned(name, i) + [name[i]]
  {
    assert SeparatorsAt(name, i) == "";
  }

  lemma SliceExtend(s: string, m: nat, n: nat)
    requires m < n <= |s|
    ensures s[m..n] == s[m..n - 1] + [s[n - 1]]
  {
  }

  /** Over a run of digits the scan only copies. */
  lemma {:induction false} ScanCopiesDigits(name: string, m: nat, n: nat)
    requires 1 <= m <= n <= |name|
    requires forall k :: m <= k < n ==> IsDigit(name[k])
    ensures Scanned(name, n) == Scanned(name, m) + name[m..n]
  {
    if n > m {
      ScanCopiesDigits(name, m, n - 1);
      ScanStepOnDigit(name, n - 1);
      SliceExtend(name, m, n);
      var head, mid, c := Scanned(name, m), name[m..n - 1], name[n - 1];
      assert head + mid + [c] == head + (mid + [c]);
    } else {
      assert name[m..n] == [];
    }
  }

  /** The pieces of the trailing digit group: the separator in front of its
      first digit, then the digits as they are. */
  lemma PieceInTrailingGroup(name: string, i: nat)
    requires HasTrailingSplice(name)
    requires TrailingStart(name) <= i < |name|
    ensures Piece(name, i) == (if i == TrailingStart(name) then [Inserted] else []) + [Copied(name[i])]
  {
    TrailingGroup(name);
  }

  /** A group of positions whose pieces are one separator in front of the
      first and the characters as they are renders to the separator and the
      characters. */
  lemma {:induction false} LayoutOfSeparatedGroup(name: string, p: nat, n: nat)
    requires p < n <= |name|
    requires forall k :: p <= k < n ==> Piece(name, k) == (if k == p then [Inserted] else []) + [Copied(name[k])]
    ensures Render(Layout(name, n)) == Render(Layout(name, p)) + "_" + name[p..n]
  {
    var L := Layout(name, n - 1);
    var P := Piece(name, n - 1);
    assert Layout(name, n) == L + P;
    RenderAppend(L, P);
    if n == p + 1 {
      assert Render(P) == "_" + [name[p]];
      assert name[p..n] == [name[p]];
    } else {
      LayoutOfSeparatedGroup(name, p, n - 1);
      SliceExtend(name, p, n);
      var head, mid, c := Render(Layout(name, p)) + "_", name[p..n - 1], name[n - 1];
      assert Render(P) == [c];
      assert head + mid + [c] == head + (mid + [c]);
    }
  }

  lemma InsertAtJoin(head: string, tail: string, s: string)
    ensures Insert(head + tail, |head|, s) == head + s + tail
  {
    assert (head + tail)[..|head|] == head;
    assert (head + tail)[|head|..] == tail;
  }

  /** The splice at `sb.Length - digitsCount` lands exactly in front of the
      first trailing digit. */
  lemma SpliceIsLayout(name: string)
    requires HasTrailingSplice(name)
    ensures Rewrite(name) == Render(Layout(name, |name|))
  {
    var p := TrailingStart(name);
    TrailingGroup(name);
    var head, tail := Scanned(name, p), name[p..|name|];
    var sb := Scanned(name, |name|);
    ScanCopiesDigits(name, p, |name|);
    assert sb == head + tail;
    assert Rewrite(name) == Insert(sb, |sb| - TrailingDigits(name), "_");
    assert |sb| - TrailingDigits(name) == |head|;
    InsertAtJoin(head, tail, "_");
    LayoutMatchesScan(name, p);
    forall k | p <= k < |name|
      ensures Piece(name, k) == (if k == p then [Inserted] else []) + [Copied(name[k])]
    {
      PieceInTrailingGroup(name, k);
    }
    LayoutOfSeparatedGroup(name, p, |name|);
  }

  /** The buffer algorithm, splice included, yields the layout. */
  lemma RewriteIsLayout(name: string)
    ensures Rewrite(name) == Render(Layout(name, |name|))
  {
    if HasTrailingSplice(name) {
      SpliceIsLayout(name);
    } else if |name| > 0 {
      LayoutMatchesScan(name, |name|);
    }
  }

  lemma KeptPiece(name: string, i: nat)
    requires i < |name|
    ensures Kept(Piece(name, i)) == [Mapped(name, i)]
  {
    var m := Mapped(name, i);
    if Boundary(name, i) {
      assert Piece(name, i)[..1] == [Inserted];
      assert [Inserted][..0] == [];
    } else {
      assert Piece(name, i)[..0] == [];
    }
  }

  lemma ExtendMapped(name: string, K: string, n: nat)
    requires 0 < n <= |name| && |K| == n - 1
    requires forall i :: 0 <= i < n - 1 ==> K[i] == Mapped(name, i)
    ensures forall i :: 0 <= i < n ==> (K + [Mapped(name, n - 1)])[i] == Mapped(name, i)
  {
  }

  lemma {:induction false} KeptLayout(name: string, n: nat)
    requires n <= |name|
    ensures |Kept(Layout(name, n))| == n
    ensures forall i :: 0 <= i < n ==> Kept(Layout(name, n))[i] == Mapped(name, i)
  {
    if n > 0 {
      var L, P := Layout(name, n - 1), Piece(name, n - 1);
      assert Layout(name, n) == L + P;
      KeptLayout(name, n - 1);
      KeptAppend(L, P);
      KeptPiece(name, n - 1);
      ExtendMapped(name, Kept(L), n);
    }
  }

  /** Taking the inserted separators out of the rewritten name gives back
      the input in order: the first character upper-cased, later letters
      upper-cased, every other character (an `_` of the input included)
      unchanged. */
  lemma StripSeparators(name: string)
    ensures var ts := Layout(name, |name|);
            Rewrite(name) == Render(ts) &&
            |Kept(ts)| == |name| &&
            (|name| > 0 ==> Kept(ts)[0] == ToUpperInvariant(name[0])) &&
            (forall i :: 0 < i < |name| && IsLetter(name[i]) ==> Kept(ts)[i] == ToUpperInvariant(name[i])) &&
            (forall i :: 0 < i < |name| && !IsLetter(name[i]) ==> Kept(ts)[i] == name[i])
  {
    RewriteIsLayout(name);
    KeptLayout(name, |name|);
  }

  lemma {:induction false} LayoutLength(name: string, n: nat)
    requires n <= |name|
    ensures |Layout(name, n)| == n + NumBoundaries(name, n)
  {
    if n > 0 {
      LayoutLength(name, n - 1);
    }
  }

  /** The output is the input plus one character per separator. */
  lemma RewriteLength(name: string)
    ensures |Rewrite(name)| == |name| + NumBoundaries(name, |name|)
  {
    RewriteIsLayout(name);
    LayoutLength(name, |name|);
  }

  /** The first rule of the main scan is enough to decide that there is at
      most one separator per position; hence every separator is flanked by
      copied upper-case letters or digits. */
  lemma {:induction false} LayoutWellSeparated(name: string, n: nat)
    requires n <= |name|
    ensures WellSeparated(Layout(name, n))
    ensures n > 0 ==> |Layout(name, n)| > 0 &&
                      Layout(name, n)[|Layout(name, n)| - 1] == Copied(Mapped(name, n - 1))
  {
    if n > 0 {
      LayoutWellSeparated(name, n - 1);
      var L, P := Layout(name, n - 1), Piece(name, n - 1);
      assert Layout(name, n) == L + P;
      if Boundary(name, n - 1) {
        BoundaryNeighbours(name, n - 1);
        assert WordToken(L[|L| - 1]);
        assert WordToken(P[1]);
      }
      forall k | 0 <= k < |L + P| && (L + P)[k].Inserted?
        ensures 0 < k < |L + P| - 1 && WordToken((L + P)[k - 1]) && WordToken((L + P)[k + 1])
      {
        if k < |L| {
          assert L[k].Inserted?;
        } else {
          assert k == |L| && Boundary(name, n - 1);
        }
      }
    }
  }

  /** The inserted separators of the rewritten name are never first or last
      and never adjacent. */
  lemma RewriteWellSeparated(name: string)
    ensures var ts := Layout(name, |name|);
            Rewrite(name) == Render(ts) && WellSeparated(ts)
  {
    RewriteIsLayout(name);
    LayoutWellSeparated(name, |name|);
  }

  lemma {:induction false} ScannedHasNoLower(name: string, n: nat)
    requires 1 <= n <= |name|
    ensures forall k :: 0 <= k < |Scanned(name, n)| ==> !IsLower(Scanned(name, n)[k])
  {
    if n > 1 {
      ScannedHasNoLower(name, n - 1);
    }
  }

  /** The rewritten name contains no lower-case letter. */
  lemma RewriteHasNoLower(name: string)
    ensures forall k :: 0 <= k < |Rewrite(name)| ==> !IsLower(Rewrite(name)[k])
  {
    if |name| > 0 {
      ScannedHasNoLower(name, |name|);
    }
  }

  lemma {:induction false} ScannedKeepsNoLower(s: string, n: nat)
    requires 1 <= n <= |s|
    requires forall k :: 0 <= k < |s| ==> !IsLower(s[k])
    ensures Scanned(s, n) == s[..n]
  {
    if n > 1 {
      ScannedKeepsNoLower(s, n - 1);
      assert s[..n] == s[..n - 1] + [s[n - 1]];
    }
  }

  /** A name without lower-case letters is left unchanged. */
  lemma RewriteFixesNoLower(s: string)
    requires forall k :: 0 <= k < |s| ==> !IsLower(s[k])
    ensures Rewrite(s) == s
  {
    if |s| > 0 {
      ScannedKeepsNoLower(s, |s|);
      assert s[..|s|] == s;
    }
  }

  /** Rewriting a rewritten name changes nothing. */
  lemma RewriteIdempotent(name: string)
    ensures Rewrite(Rewrite(name)) == Rewrite(name)
  {
    RewriteHasNoLower(name);
    RewriteFixesNoLower(Rewrite(name));
  }
}
