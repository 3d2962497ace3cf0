/** Python `str` operations used by the cleaners, validators and parsers of the
    system, on Dafny strings (`seq<char>`). */
module Strings {
  import opened Common

  /** `str.isspace()` for one character; `\s` in a `str` regular expression
      matches the same set. */
  predicate IsSpace(c: char) {
    c == ' ' || c == '\t' || c == '\n' || c == '\r' || c == '\U{0B}' || c == '\U{0C}'
    || ('\U{1C}' <= c <= '\U{1F}') || c == '\U{85}' || c == '\U{A0}' || c == '\U{1680}'
    || ('\U{2000}' <= c <= '\U{200A}') || c == '\U{2028}' || c == '\U{2029}'
    || c == '\U{202F}' || c == '\U{205F}' || c == '\U{3000}'
  }

  predicate IsAsciiUpper(c: char) { 'A' <= c <= 'Z' }
  predicate IsAsciiLower(c: char) { 'a' <= c <= 'z' }
  predicate IsDigit(c: char) { '0' <= c <= '9' }

  /** `str(n)` for a natural number: its decimal digits, most significant
      first. */
  function NatText(n: nat): (s: string)
    ensures |s| >= 1 && forall i | 0 <= i < |s| :: IsDigit(s[i])
    decreases n
  {
    var d := ('0' as int + n % 10) as char;
    if n < 10 then [d] else NatText(n / 10) + [d]
  }

  /** `str(n)` for an integer, with a leading '-' when it is negative. */
  function IntText(n: int): (s: string)
    ensures |s| >= 1
    ensures (s[0] == '-') <==> n < 0
  {
    if n < 0 then "-" + NatText(-n) else NatText(n)
  }
  predicate IsAlnum(c: char) { IsAsciiUpper(c) || IsAsciiLower(c) || IsDigit(c) }

  function DigitValue(c: char): (n: nat)
    requires IsDigit(c)
    ensures n < 10
  {
    (c as int) - ('0' as int)
  }

  /** No whitespace at either end. */
  predicate Trimmed(s: string) {
    s == [] || (!IsSpace(s[0]) && !IsSpace(s[|s| - 1]))
  }

  /** Every whitespace character is a plain space and no two are adjacent. */
  predicate SingleSpaced(s: string) {
    (forall i | 0 <= i < |s| :: IsSpace(s[i]) ==> s[i] == ' ')
    && (forall i | 0 <= i < |s| - 1 :: !(IsSpace(s[i]) && IsSpace(s[i + 1])))
  }

  /** The non-whitespace characters of `s`, in order. */
  function Visible(s: string): (r: string)
    ensures |r| <= |s|
  {
    if s == [] then []
    else if IsSpace(s[0]) then Visible(s[1..])
    else [s[0]] + Visible(s[1..])
  }

  /** `str.lstrip()`. */
  function LStrip(s: string): (r: string)
    ensures |r| <= |s| && r == s[|s| - |r|..]
    ensures r == [] || !IsSpace(r[0])
    ensures forall k | 0 <= k < |s| - |r| :: IsSpace(s[k])
  {
    if s != [] && IsSpace(s[0]) then LStrip(s[1..]) else s
  }

  /** One leading whitespace character before a visible one is all
      `lstrip` removes. */
  lemma LStripOneSpace(s: string)
    requires |s| >= 1 && IsSpace(s[0]) && (|s| == 1 || !IsSpace(s[1]))
    ensures LStrip(s) == s[1..]
  {
    var t := s[1..];
    assert LStrip(s) == LStrip(t);
    if t != [] {
      assert t[0] == s[1];
    }
    assert LStrip(t) == t;
  }

  /** `str.rstrip()`. */
  function RStrip(s: string): (r: string)
    ensures |r| <= |s| && r == s[..|r|]
    ensures r == [] || !IsSpace(r[|r| - 1])
    ensures forall k | |r| <= k < |s| :: IsSpace(s[k])
  {
    if s != [] && IsSpace(s[|s| - 1]) then RStrip(s[..|s| - 1]) else s
  }

  /** `str.strip()`: a slice of `s` with no whitespace at either end and
      the same visible characters; a trimmed string is its own strip. */
  function Strip(s: string): (r: string)
    ensures Trimmed(r) && Visible(r) == Visible(s)
    ensures Trimmed(s) ==> r == s
  {
    var l := LStrip(s);
    var r := RStrip(l);
    VisibleOfSpaces(s, |s| - |l|);
    VisibleOfTrailingSpaces(l, |r|);
    r
  }

  /** The stripped text is the slice of `s` starting at `off`. */
  lemma StripSlice(s: string) returns (off: nat)
    ensures off + |Strip(s)| <= |s| && Strip(s) == s[off..off + |Strip(s)|]
  {
    var l := LStrip(s);
    off := |s| - |l|;
    assert Strip(s) == RStrip(l);
  }

  /** Stripping adds no character. */
  lemma StripKeepsOut(s: string, c: char)
    requires c !in s
    ensures c !in Strip(s)
  {
    var off := StripSlice(s);
    var t := Strip(s);
    forall k | 0 <= k < |t| ensures t[k] != c {
      assert t[k] == s[off + k] && s[off + k] in s;
    }
  }


  /** Dropping a whitespace suffix does not change the visible characters. */
  lemma {:induction false} VisibleOfTrailingSpaces(s: string, n: nat)
    requires n <= |s|
    requires forall k | n <= k < |s| :: IsSpace(s[k])
    ensures Visible(s) == Visible(s[..n])
    decreases |s|
  {
    if n == |s| {
      assert s[..n] == s;
    } else if n == 0 {
      VisibleOfSpaces(s, |s|);
      assert s[|s|..] == [] && s[..n] == [];
    } else {
      VisibleOfTrailingSpaces(s[1..], n - 1);
      assert s[1..][..n - 1] == s[..n][1..];
      assert s[..n][0] == s[0];
    }
  }


  /** `re.sub(r'\s+', ' ', s)`: each maximal run of whitespace becomes one
      space and every other character is kept, in order. */
  function CollapseSpaces(s: string): string
    decreases |s|
  {
    if s == [] then []
    else if IsSpace(s[0]) then [' '] + CollapseSpaces(LStrip(s))
    else [s[0]] + CollapseSpaces(s[1..])
  }

  /** The collapsed string is single-spaced, keeps the visible characters,
      and starts and ends with whitespace exactly when the input does. */
  lemma CollapseSpacesShape(s: string)
    ensures SingleSpaced(CollapseSpaces(s))
    ensures Visible(CollapseSpaces(s)) == Visible(s)
    ensures (CollapseSpaces(s) == []) == (s == [])
    ensures s != [] ==> (IsSpace(CollapseSpaces(s)[0]) <==> IsSpace(s[0]))
    ensures s != [] ==> (IsSpace(CollapseSpaces(s)[|CollapseSpaces(s)| - 1]) <==> IsSpace(s[|s| - 1]))
  {
    CollapseEnds(s);
    CollapseVisible(s);
    CollapseSingleSpaced(s);
  }

  lemma {:induction false} CollapseEnds(s: string)
    ensures (CollapseSpaces(s) == []) == (s == [])
    ensures s != [] ==> (IsSpace(CollapseSpaces(s)[0]) <==> IsSpace(s[0]))
    ensures s != [] ==> (IsSpace(CollapseSpaces(s)[|CollapseSpaces(s)| - 1]) <==> IsSpace(s[|s| - 1]))
    decreases |s|
  {
    if s != [] {
      var rest := if IsSpace(s[0]) then LStrip(s) else s[1..];
      CollapseEnds(rest);
      var tail := CollapseSpaces(rest);
      assert CollapseSpaces(s) == [if IsSpace(s[0]) then ' ' else s[0]] + tail;
      assert rest != [] ==> rest[|rest| - 1] == s[|s| - 1];
    }
  }

  lemma {:induction false} CollapseVisible(s: string)
    ensures Visible(CollapseSpaces(s)) == Visible(s)
    decreases |s|
  {
    if s != [] {
      if IsSpace(s[0]) {
        var rest := LStrip(s);
        VisibleOfSpaces(s, |s| - |rest|);
        CollapseVisible(rest);
        assert ([' '] + CollapseSpaces(rest))[1..] == CollapseSpaces(rest);
      } else {
        CollapseVisible(s[1..]);
        assert ([s[0]] + CollapseSpaces(s[1..]))[1..] == CollapseSpaces(s[1..]);
      }
    }
  }

  lemma {:induction false} CollapseSingleSpaced(s: string)
    ensures SingleSpaced(CollapseSpaces(s))
    decreases |s|
  {
    if s != [] {
      if IsSpace(s[0]) {
        var rest := LStrip(s);
        CollapseSingleSpaced(rest);
        CollapseEnds(rest);
        SingleSpacedCons(' ', CollapseSpaces(rest));
      } else {
        CollapseSingleSpaced(s[1..]);
        SingleSpacedCons(s[0], CollapseSpaces(s[1..]));
      }
    }
  }



  /** `re.sub(r'\s+', ' ', s)` leaves a single-spaced text as it is. */
  lemma {:induction false} CollapseOfSingleSpaced(s: string)
    requires SingleSpaced(s)
    ensures CollapseSpaces(s) == s
    decreases |s|
  {
    if s != [] {
      var t := s[1..];
      assert SingleSpaced(t) by {
        forall i | 0 <= i < |t| - 1 ensures !(IsSpace(t[i]) && IsSpace(t[i + 1])) {
          assert t[i] == s[i + 1] && t[i + 1] == s[i + 2];
        }
      }
      CollapseOfSingleSpaced(t);
      if IsSpace(s[0]) {
        LStripOneSpace(s);
        assert s == [' '] + t;
      } else {
        assert s == [s[0]] + t;
      }
    }
  }

  lemma SingleSpacedCons(c: char, t: string)
    requires SingleSpaced(t)
    requires IsSpace(c) ==> c == ' ' && (t == [] || !IsSpace(t[0]))
    ensures SingleSpaced([c] + t)
  {
    var s := [c] + t;
    forall i | 0 <= i < |s| - 1 ensures !(IsSpace(s[i]) && IsSpace(s[i + 1])) {
      if i > 0 { assert s[i] == t[i - 1] && s[i + 1] == t[i]; }
    }
  }

  /** Dropping a whitespace prefix does not change the visible characters. */
  lemma {:induction false} VisibleOfSpaces(s: string, n: nat)
    requires n <= |s|
    requires forall k | 0 <= k < n :: IsSpace(s[k])
    ensures Visible(s) == Visible(s[n..])
  {
    if n > 0 {
      VisibleOfSpaces(s[1..], n - 1);
      assert s[1..][n - 1..] == s[n..];
    }
  }

  /** `re.sub(r'[\t\n\r]', ' ', s)`. */
  function SpaceControls(s: string): (r: string)
    ensures |r| == |s|
    ensures forall i | 0 <= i < |s| :: r[i] == (if s[i] in "\t\n\r" then ' ' else s[i])
  {
    if s == [] then [] else [if s[0] in "\t\n\r" then ' ' else s[0]] + SpaceControls(s[1..])
  }

  /** `str.replace(pat, repl)` for a non-empty `pat`: occurrences are found
      left to right and do not overlap. */
  function Replace(s: string, pat: string, repl: string): (r: string)
    requires pat != []
    ensures pat[0] !in s ==> r == s
    decreases |s|
  {
    if |s| < |pat| then s
    else if s[..|pat|] == pat then repl + Replace(s[|pat|..], pat, repl)
    else [s[0]] + Replace(s[1..], pat, repl)
  }

  /** `str.startswith(p)` / `str.endswith(p)`. */
  predicate StartsWith(s: string, p: string) { |p| <= |s| && s[..|p|] == p }
  predicate EndsWith(s: string, p: string) { |p| <= |s| && s[|s| - |p|..] == p }

  predicate OccursAt(s: string, sub: string, k: int) {
    0 <= k && k + |sub| <= |s| && s[k..k + |sub|] == sub
  }

  /** `str.find(sub)`, with None for -1. */
  function IndexOf(s: string, sub: string): (r: Option<nat>)
    ensures r.Some? ==> r.value + |sub| <= |s|
    decreases |s|
  {
    if |s| < |sub| then None
    else if s[..|sub|] == sub then Some(0)
    else
      match IndexOf(s[1..], sub)
      case None => None
      case Some(i) => Some(i + 1)
  }

  /** `find` returns the first position where `sub` occurs, and None
      exactly when it occurs nowhere. */
  lemma {:induction false} IndexOfFinds(s: string, sub: string)
    ensures IndexOf(s, sub).Some? ==> OccursAt(s, sub, IndexOf(s, sub).value)
    ensures IndexOf(s, sub).Some? ==> forall k | 0 <= k < IndexOf(s, sub).value :: !OccursAt(s, sub, k)
    ensures IndexOf(s, sub).None? ==> forall k :: !OccursAt(s, sub, k)
    decreases |s|
  {
    if |s| < |sub| {
    } else if s[..|sub|] == sub {
      assert s[0..|sub|] == s[..|sub|];
    } else {
      IndexOfFinds(s[1..], sub);
      assert !OccursAt(s, sub, 0);
      forall k | 1 <= k ensures OccursAt(s, sub, k) <==> OccursAt(s[1..], sub, k - 1) {
        OccursShift(s, sub, k);
      }
    }
  }

  /** Dropping the first character moves every later occurrence one place left. */
  lemma OccursShift(s: string, sub: string, k: int)
    requires |s| >= 1 && k >= 1
    ensures OccursAt(s, sub, k) <==> OccursAt(s[1..], sub, k - 1)
  {
    if k + |sub| <= |s| {
      assert s[1..][k - 1..k - 1 + |sub|] == s[k..k + |sub|];
    }
  }


  /** `sub in s`. */
  predicate Contains(s: string, sub: string) { IndexOf(s, sub).Some? }

  /** `sub in s` stated as an occurrence somewhere. */
  predicate Occurs(s: string, sub: string) {
    exists k | 0 <= k <= |s| - |sub| :: OccursAt(s, sub, k)
  }

  lemma ContainsOccurs(s: string, sub: string)
    ensures Contains(s, sub) <==> Occurs(s, sub)
  {
    IndexOfFinds(s, sub);
  }

  /** `str.split(sep)` for a non-empty separator. */
  function Split(s: string, sep: string): (r: seq<string>)
    requires sep != []
    ensures |r| >= 1
    decreases |s|
  {
    match IndexOf(s, sep)
    case None => [s]
    case Some(i) => [s[..i]] + Split(s[i + |sep|..], sep)
  }

  /** `sep.join(parts)`. */
  function Join(parts: seq<string>, sep: string): string {
    if |parts| == 0 then []
    else if |parts| == 1 then parts[0]
    else parts[0] + sep + Join(parts[1..], sep)
  }

  /** Splitting and re-joining on the same separator gives back the text. */
  lemma {:induction false} JoinSplit(s: string, sep: string)
    requires sep != []
    ensures Join(Split(s, sep), sep) == s
    decreases |s|
  {
    match IndexOf(s, sep)
    case None =>
    case Some(i) =>
      var rest := s[i + |sep|..];
      JoinSplit(rest, sep);
      JoinCons(s[..i], Split(rest, sep), sep);
      SplitAround(s, sep, i);
  }

  /** A separator found at `i` cuts `s` into the text before it and the
      text after it. */
  lemma SplitAround(s: string, sep: string, i: nat)
    requires sep != [] && IndexOf(s, sep) == Some(i)
    ensures Split(s, sep) == [s[..i]] + Split(s[i + |sep|..], sep)
    ensures s == s[..i] + sep + s[i + |sep|..]
  {
    IndexOfFinds(s, sep);
    SepAt(s, sep, i);
  }

  lemma SepAt(s: string, sep: string, i: int)
    requires OccursAt(s, sep, i)
    ensures s == s[..i] + sep + s[i + |sep|..]
  {
    assert s == s[..i] + s[i..];
    assert s[i..] == s[i..i + |sep|] + s[i + |sep|..];
  }

  lemma JoinCons(p: string, parts: seq<string>, sep: string)
    requires |parts| >= 1
    ensures Join([p] + parts, sep) == p + sep + Join(parts, sep)
  {
    assert ([p] + parts)[1..] == parts;
  }

  /** No piece of a split contains the separator. */
  lemma {:induction false} SplitPiecesFree(s: string, sep: string)
    requires sep != []
    ensures forall p | p in Split(s, sep) :: !Contains(p, sep)
    decreases |s|
  {
    IndexOfFinds(s, sep);
    match IndexOf(s, sep)
    case None =>
    case Some(i) =>
      SplitPiecesFree(s[i + |sep|..], sep);
      PrefixFree(s, sep, i);
      IndexOfFinds(s[..i], sep);
  }

  /** No occurrence starts before `i` in `s`, so none occurs in `s[..i]`. */
  lemma PrefixFree(s: string, sep: string, i: nat)
    requires sep != [] && i <= |s|
    requires forall k | 0 <= k < i :: !OccursAt(s, sep, k)
    ensures forall k :: !OccursAt(s[..i], sep, k)
  {
    forall k ensures !OccursAt(s[..i], sep, k) {
      if 0 <= k && k + |sep| <= i {
        assert !OccursAt(s, sep, k);
        assert s[..i][k..k + |sep|] == s[k..k + |sep|];
      }
    }
  }

  /** Deleting every copy of a character leaves none behind. */
  lemma {:induction false} ReplaceDeletesChar(s: string, c: char)
    ensures c !in Replace(s, [c], [])
    decreases |s|
  {
    if |s| >= 1 {
      ReplaceDeletesChar(s[1..], c);
    }
  }

  /** Deleting every copy of `c` keeps every other character and nothing else. */
  lemma {:induction false} ReplaceCharMembers(s: string, c: char, x: char)
    ensures x in Replace(s, [c], []) <==> x in s && x != c
    decreases |s|
  {
    if |s| >= 1 {
      ReplaceCharMembers(s[1..], c, x);
      assert s == [s[0]] + s[1..];
    }
  }

  /** ASCII `str.lower()`. */
  function Lower(s: string): (r: string)
    ensures |r| == |s|
    ensures forall i | 0 <= i < |s| :: r[i] == LowerChar(s[i])
  {
    if s == [] then [] else [LowerChar(s[0])] + Lower(s[1..])
  }

  function LowerChar(c: char): char {
    if IsAsciiUpper(c) then (c as int + 32) as char else c
  }

  /** ASCII `str.upper()`. */
  function Upper(s: string): (r: string)
    ensures |r| == |s|
    ensures forall i | 0 <= i < |s| :: r[i] == UpperChar(s[i])
  {
    if s == [] then [] else [UpperChar(s[0])] + Upper(s[1..])
  }

  function UpperChar(c: char): char {
    if IsAsciiLower(c) then (c as int - 32) as char else c
  }

  /** Python's `<` on `str`: lexicographic by code point, a proper prefix
      first. */
  predicate StrLess(a: string, b: string)
    decreases |a|
  {
    b != [] && (a == [] || a[0] < b[0] || (a[0] == b[0] && StrLess(a[1..], b[1..])))
  }

  lemma {:induction false} StrLessIrreflexive(a: string)
    ensures !StrLess(a, a)
    decreases |a|
  {
    if a != [] {
      StrLessIrreflexive(a[1..]);
    }
  }

  lemma {:induction false} StrLessTransitive(a: string, b: string, c: string)
    requires StrLess(a, b) && StrLess(b, c)
    ensures StrLess(a, c)
    decreases |a|
  {
    if a != [] && a[0] == b[0] && b[0] == c[0] {
      StrLessTransitive(a[1..], b[1..], c[1..]);
    }
  }

  lemma {:induction false} StrLessTotal(a: string, b: string)
    ensures a == b || StrLess(a, b) || StrLess(b, a)
    decreases |a|
  {
    if a != [] && b != [] && a[0] == b[0] {
      StrLessTotal(a[1..], b[1..]);
      if a[1..] == b[1..] {
        assert a == [a[0]] + a[1..] && b == [b[0]] + b[1..];
      }
    }
  }
}
