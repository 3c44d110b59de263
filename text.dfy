/** The string operations of the JavaScript runtime that the schema setters,
    validators and request parsing rely on: the white-space class `\s`,
    `String.prototype.trim`, `toLowerCase` (for ASCII letters) and
    `split` on a one-character separator. */
module Text {
  import opened Documents

  /** ECMAScript WhiteSpace and LineTerminator code points: the class `\s`
      matches and the set `trim` strips. */
  const Spaces: set<char> := {
    ' ', '\t', '\n', '\r', '\U{000B}', '\U{000C}', '\U{00A0}', '\U{1680}',
    '\U{2000}', '\U{2001}', '\U{2002}', '\U{2003}', '\U{2004}', '\U{2005}',
    '\U{2006}', '\U{2007}', '\U{2008}', '\U{2009}', '\U{200A}',
    '\U{2028}', '\U{2029}', '\U{202F}', '\U{205F}', '\U{3000}', '\U{FEFF}'}

  predicate IsSpace(c: char)
  {
    c in Spaces
  }

  /** Every character belongs to `\S`. */
  predicate NoSpace(s: string)
  {
    forall k :: 0 <= k < |s| ==> !IsSpace(s[k])
  }

  /** The class `\d`: ASCII digits only. */
  predicate IsDigit(c: char)
  {
    '0' <= c <= '9'
  }

  /** The number of white-space characters `s` starts with. */
  function LeadingSpaces(s: string): (n: nat)
    ensures n <= |s|
    ensures forall k :: 0 <= k < n ==> IsSpace(s[k])
    ensures n == |s| || !IsSpace(s[n])
  {
    if |s| > 0 && IsSpace(s[0]) then 1 + LeadingSpaces(s[1..]) else 0
  }

  /** The length of `s` without the white space it ends with. */
  function TrailingCut(s: string): (n: nat)
    ensures n <= |s|
    ensures forall k :: n <= k < |s| ==> IsSpace(s[k])
    ensures n == 0 || !IsSpace(s[n - 1])
  {
    if |s| > 0 && IsSpace(s[|s| - 1]) then TrailingCut(s[..|s| - 1]) else |s|
  }

  /** Leading white space removed. */
  function TrimStart(s: string): string
  {
    s[LeadingSpaces(s)..]
  }

  /** Trailing white space removed. */
  function TrimEnd(s: string): string
  {
    s[..TrailingCut(s)]
  }

  /** `String.prototype.trim`. */
  function Trim(s: string): string
  {
    TrimEnd(TrimStart(s))
  }

  /** `s[i..j]` is `s` with only white space cut from either end. */
  predicate SpaceCut(s: string, i: int, j: int)
  {
    && 0 <= i <= j <= |s|
    && (forall k :: 0 <= k < i ==> IsSpace(s[k]))
    && (forall k :: j <= k < |s| ==> IsSpace(s[k]))
  }

  /** A trimmed string is a slice of the input with only white space cut
      from either end, and it neither starts nor ends with white space. */
  lemma TrimIsSlice(s: string)
    ensures exists i, j :: SpaceCut(s, i, j) && Trim(s) == s[i..j]
    ensures Trim(s) == [] || (!IsSpace(Trim(s)[0]) && !IsSpace(Trim(s)[|Trim(s)| - 1]))
  {
    var i := LeadingSpaces(s);
    var t := s[i..];
    var j := i + TrailingCut(t);
    forall k | j <= k < |s|
      ensures IsSpace(s[k])
    {
      assert s[k] == t[k - i];
    }
    assert SpaceCut(s, i, j);
    assert Trim(s) == s[i..j];
  }

  /** Trimming twice is trimming once. */
  lemma TrimIdempotent(s: string)
    ensures Trim(Trim(s)) == Trim(s)
  {
    TrimmedIsFixedPoint(s);
    TrimmedIsFixedPoint(Trim(s));
  }

  /** Neither starts nor ends with white space. */
  predicate Trimmed(s: string)
  {
    s == [] || (!IsSpace(s[0]) && !IsSpace(s[|s| - 1]))
  }

  /** `Trimmed` holds exactly of the strings `trim` leaves alone, and of
      every result of `trim`. */
  lemma TrimmedIsFixedPoint(s: string)
    ensures Trimmed(s) <==> Trim(s) == s
    ensures Trimmed(Trim(s))
  {
    TrimIsSlice(s);
    if Trimmed(s) && s != [] {
      assert LeadingSpaces(s) == 0;
      assert TrailingCut(s) == |s|;
    }
  }

  /** `toLowerCase` on one character, for the ASCII letters. */
  function LowerChar(c: char): char
  {
    if 'A' <= c <= 'Z' then (c as int + 32) as char else c
  }

  /** No white-space character is an ASCII letter, so lower-casing keeps
      white space and non-white space apart. */
  lemma LowerCharKeepsSpace(c: char)
    ensures IsSpace(LowerChar(c)) == IsSpace(c)
  {
  }

  /** `toLowerCase`, character by character. */
  function ToLower(s: string): (r: string)
    ensures |r| == |s|
    ensures forall k :: 0 <= k < |s| ==> r[k] == LowerChar(s[k])
    ensures forall k :: 0 <= k < |s| ==> !('A' <= r[k] <= 'Z')
  {
    if s == [] then [] else [LowerChar(s[0])] + ToLower(s[1..])
  }

  /** No ASCII capital letter. */
  predicate LowerCased(s: string)
  {
    forall k :: 0 <= k < |s| ==> !('A' <= s[k] <= 'Z')
  }

  /** `LowerCased` holds exactly of the strings `toLowerCase` leaves alone. */
  lemma LowerCasedIsFixedPoint(s: string)
    ensures LowerCased(s) <==> ToLower(s) == s
  {
    if !LowerCased(s) {
      var k :| 0 <= k < |s| && 'A' <= s[k] <= 'Z';
      assert ToLower(s)[k] != s[k];
    }
  }

  /** Trimming keeps a lower-cased string lower-cased. */
  lemma TrimKeepsLowerCased(s: string)
    requires LowerCased(s)
    ensures LowerCased(Trim(s))
  {
    TrimIsSlice(s);
  }

  /** Lower-casing twice is lower-casing once. */
  lemma ToLowerIdempotent(s: string)
    ensures ToLower(ToLower(s)) == ToLower(s)
  {
  }

  /** Lower-casing leaves white space where it was. */
  lemma ToLowerKeepsSpaces(s: string)
    ensures forall k :: 0 <= k < |s| ==> IsSpace(ToLower(s)[k]) == IsSpace(s[k])
  {
    forall k | 0 <= k < |s|
      ensures IsSpace(ToLower(s)[k]) == IsSpace(s[k])
    {
      LowerCharKeepsSpace(s[k]);
    }
  }

  /** Lower-casing a slice is slicing the lower-cased string. */
  lemma ToLowerSlice(s: string, i: nat, j: nat)
    requires i <= j <= |s|
    ensures ToLower(s[i..j]) == ToLower(s)[i..j]
  {
  }

  /** Lower-casing moves neither end of the white space `trim` cuts, so it
      commutes with trimming. */
  lemma TrimStartToLower(s: string)
    ensures TrimStart(ToLower(s)) == ToLower(TrimStart(s))
  {
    ToLowerKeepsSpaces(s);
    var l := ToLower(s);
    assert LeadingSpaces(l) == LeadingSpaces(s);
    ToLowerSlice(s, LeadingSpaces(s), |s|);
  }

  lemma TrimEndToLower(s: string)
    ensures TrimEnd(ToLower(s)) == ToLower(TrimEnd(s))
  {
    ToLowerKeepsSpaces(s);
    var l := ToLower(s);
    assert TrailingCut(l) == TrailingCut(s);
    ToLowerSlice(s, 0, TrailingCut(s));
  }

  lemma TrimToLower(s: string)
    ensures Trim(ToLower(s)) == ToLower(Trim(s))
  {
    TrimStartToLower(s);
    TrimEndToLower(TrimStart(s));
  }

  /** `s.split(sep)` for a one-character separator: the maximal runs
      between separators, including empty ones. */
  function Split(s: string, sep: char): (r: seq<string>)
    ensures |r| >= 1
    ensures forall k :: 0 <= k < |r| ==> sep !in r[k]
    ensures |r[0]| <= |s| && r[0] == s[..|r[0]|]
    ensures |r[0]| == |s| || s[|r[0]|] == sep
    decreases |s|
  {
    match FindFirst(s, c => c == sep)
    case None => [s]
    case Some(i) => [s[..i]] + Split(s[i + 1..], sep)
  }

  /** `parts.join(sep)`. */
  function Join(parts: seq<string>, sep: char): string
  {
    if |parts| <= 1 then (if parts == [] then [] else parts[0])
    else parts[0] + [sep] + Join(parts[1..], sep)
  }

  /** Splitting loses nothing: joining the fields back gives the input. */
  lemma {:induction false} JoinSplit(s: string, sep: char)
    ensures Join(Split(s, sep), sep) == s
    decreases |s|
  {
    match FindFirst(s, c => c == sep)
    case None =>
    case Some(i) =>
      JoinSplit(s[i + 1..], sep);
      assert s == s[..i] + [sep] + s[i + 1..];
  }

  /** The first field of a split is everything before the first separator. */
  lemma SplitHead(s: string, sep: char, i: nat)
    requires i < |s| && s[i] == sep && sep !in s[..i]
    ensures |Split(s, sep)| >= 2
    ensures Split(s, sep)[0] == s[..i]
    ensures Split(s, sep)[1..] == Split(s[i + 1..], sep)
  {
    FindFirstUnique(s, c => c == sep, i);
  }
}
