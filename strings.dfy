/**
 * The Python string operations the scrapers rely on: `in`, `find`, `split`,
 * `join`, `strip`, `lower`, `title`, slicing with a cap (`s[:n]`) and the
 * character filter that makes a hotel name safe for a file name, and pathlib's `/`.
 * Letters and digits are the ASCII ones; whitespace is Python's whole `str.isspace` set.
 */
module Strings {
  import opened Wrappers

  // ---------------------------------------------------------------------
  // Searching
  // ---------------------------------------------------------------------

  /** `t` occurs in `s` starting at index `i`. */
  predicate OccursAt(s: string, t: string, i: nat)
  {
    i + |t| <= |s| && s[i..i + |t|] == t
  }

  /** Python's `s.find(t, i)`: the first index at or after `i` where `t` occurs, or -1. */
  function FindFrom(s: string, t: string, i: nat): int
    requires i <= |s|
    decreases |s| - i
  {
    if i + |t| > |s| then -1
    else if s[i..i + |t|] == t then i
    else FindFrom(s, t, i + 1)
  }

  lemma {:induction false} FindFromSpec(s: string, t: string, i: nat)
    requires i <= |s|
    ensures var r := FindFrom(s, t, i);
      (r == -1 || (i <= r && OccursAt(s, t, r))) &&
      (r == -1 <==> forall j: nat :: i <= j ==> !OccursAt(s, t, j)) &&
      (r >= 0 ==> forall j: nat :: i <= j < r ==> !OccursAt(s, t, j))
    decreases |s| - i
  {
    if i + |t| <= |s| && s[i..i + |t|] != t {
      FindFromSpec(s, t, i + 1);
    }
  }

  /** Python's `s.find(t)`. */
  function Find(s: string, t: string): int
  {
    FindFrom(s, t, 0)
  }

  /** `Find` is the first index where `t` occurs, or -1 when there is none. */
  lemma FindSpec(s: string, t: string)
    ensures var r := Find(s, t);
      (r == -1 || (r >= 0 && OccursAt(s, t, r))) &&
      (r == -1 <==> forall j: nat :: !OccursAt(s, t, j)) &&
      (r >= 0 ==> forall j: nat :: j < r ==> !OccursAt(s, t, j))
  {
    FindFromSpec(s, t, 0);
  }

  /** Python's `t in s` for strings. */
  predicate Contains(s: string, t: string)
  {
    Find(s, t) >= 0
  }

  lemma ContainsAt(s: string, t: string, i: nat)
    requires OccursAt(s, t, i)
    ensures Contains(s, t)
  {
    FindSpec(s, t);
  }

  /** Containment is transitive: a substring of a substring of `s` is a substring of `s`. */
  lemma ContainsTransitive(s: string, t: string, u: string)
    requires Contains(s, t) && Contains(t, u)
    ensures Contains(s, u)
  {
    FindSpec(s, t);
    FindSpec(t, u);
    var i := Find(s, t);
    var j := Find(t, u);
    assert s[i + j..i + j + |u|] == s[i..i + |t|][j..j + |u|];
    ContainsAt(s, u, i + j);
  }

  /** Every string contains itself. */
  lemma ContainsSelf(s: string)
    ensures Contains(s, s)
  {
    assert OccursAt(s, s, 0);
    ContainsAt(s, s, 0);
  }

  /** A string contains each of its suffixes. */
  lemma ContainsSuffix(a: string, b: string)
    ensures Contains(a + b, b)
  {
    assert (a + b)[|a|..|a| + |b|] == b;
    ContainsAt(a + b, b, |a|);
  }

  /** A string contains every one of its slices. */
  lemma ContainsSlice(s: string, i: nat, j: nat)
    requires i <= j <= |s|
    ensures Contains(s, s[i..j])
  {
    assert OccursAt(s, s[i..j], i);
    ContainsAt(s, s[i..j], i);
  }

  predicate StartsWith(s: string, prefix: string)
  {
    |prefix| <= |s| && s[..|prefix|] == prefix
  }

  /** A string extended at the end starts with what it extends. */
  lemma Extended(s: string, t: string)
    ensures StartsWith(s + t, s) && |s + t| == |s| + |t|
  {
    assert (s + t)[..|s|] == s;
  }

  /** `str(Path(directory) / file)` for a relative file name, where `directory` is the
      normalised text `str(Path(output_dir))`: the current directory `"."` disappears, a
      directory already ending in `/` (the root) gets no second one, and any other gets one. */
  function PathJoin(directory: string, file: string): string
  {
    if directory == "." then file
    else if directory != "" && directory[|directory| - 1] == '/' then directory + file
    else directory + "/" + file
  }

  /** The joined path ends with the file name; below `"."` it is the file name itself, and
      below any other directory it starts with the directory and adds at most one `/`. */
  lemma PathJoinSpec(directory: string, file: string)
    ensures var r := PathJoin(directory, file);
      |file| <= |r| && r[|r| - |file|..] == file &&
      (directory == "." ==> r == file) &&
      (directory != "." ==> StartsWith(r, directory) && |directory| + |file| <= |r| <= |directory| + |file| + 1)
  {
    var r := PathJoin(directory, file);
    if directory != "." {
      var sep := if directory != "" && directory[|directory| - 1] == '/' then "" else "/";
      assert r == directory + (sep + file);
      assert r[..|directory|] == directory;
      assert r[|r| - |file|..] == file;
    }
  }

  // ---------------------------------------------------------------------
  // Splitting and joining
  // ---------------------------------------------------------------------

  /** Python's `s.split(sep)` for a non-empty separator. */
  function SplitOn(s: string, sep: string): (r: seq<string>)
    requires |sep| > 0
    ensures |r| >= 1
    decreases |s|
  {
    var k := Find(s, sep);
    FindSpec(s, sep);
    if k < 0 then [s] else [s[..k]] + SplitOn(s[k + |sep|..], sep)
  }

  /** Python's `sep.join(parts)`. */
  function Join(parts: seq<string>, sep: string): string
  {
    if |parts| == 0 then ""
    else if |parts| == 1 then parts[0]
    else parts[0] + sep + Join(parts[1..], sep)
  }

  /** Joining the pieces of a split with the same separator gives back the original string. */
  lemma {:induction false} SplitJoin(s: string, sep: string)
    requires |sep| > 0
    ensures Join(SplitOn(s, sep), sep) == s
    decreases |s|
  {
    var k := Find(s, sep);
    FindSpec(s, sep);
    if k >= 0 {
      var rest := s[k + |sep|..];
      var tail := SplitOn(rest, sep);
      SplitJoin(rest, sep);
      assert SplitOn(s, sep) == [s[..k]] + tail;
      assert ([s[..k]] + tail)[1..] == tail;
      assert Join(SplitOn(s, sep), sep) == s[..k] + sep + Join(tail, sep);
      assert s[k..k + |sep|] == sep;
      assert s == s[..k] + sep + rest;
    }
  }

  /** No piece of a split contains the separator. */
  lemma {:induction false} SplitPiecesFree(s: string, sep: string)
    requires |sep| > 0
    ensures forall p :: p in SplitOn(s, sep) ==> !Contains(p, sep)
    decreases |s|
  {
    var k := Find(s, sep);
    FindSpec(s, sep);
    if k < 0 {
    } else {
      SplitPiecesFree(s[k + |sep|..], sep);
      PrefixBeforeFirstIsFree(s, sep, k);
    }
  }

  /** Every piece of a split occurs in the string that was split. */
  lemma {:induction false} SplitPiecesContained(s: string, sep: string)
    requires |sep| > 0
    ensures forall p :: p in SplitOn(s, sep) ==> Contains(s, p)
    decreases |s|
  {
    var k := Find(s, sep);
    FindSpec(s, sep);
    if k < 0 {
      ContainsSelf(s);
    } else {
      var rest := s[k + |sep|..];
      SplitPiecesContained(rest, sep);
      ContainsSlice(s, 0, k);
      assert s[0..k] == s[..k];
      ContainsSlice(s, k + |sep|, |s|);
      assert s[k + |sep|..|s|] == rest;
      forall p | p in SplitOn(rest, sep)
        ensures Contains(s, p)
      {
        ContainsTransitive(s, rest, p);
      }
    }
  }

  /** The text before the first occurrence of `t` does not contain `t`. */
  lemma PrefixBeforeFirstIsFree(s: string, t: string, k: nat)
    requires |t| > 0
    requires k <= |s| && forall j: nat :: j < k ==> !OccursAt(s, t, j)
    ensures !Contains(s[..k], t)
  {
    if Contains(s[..k], t) {
      FindSpec(s[..k], t);
      var j := Find(s[..k], t);
      assert s[..k][j..j + |t|] == s[j..j + |t|];
      assert OccursAt(s, t, j);
      assert false;
    }
  }

  /** The text before the first occurrence of `sep`, or all of `s` when it has none. */
  function UpTo(s: string, sep: string): (r: string)
    ensures StartsWith(s, r)
    ensures r == s || StartsWith(s[|r|..], sep)
    ensures |sep| > 0 ==> !Contains(r, sep)
  {
    var k := Find(s, sep);
    FindSpec(s, sep);
    if k < 0 then s
    else if |sep| == 0 then s[..k]
    else PrefixBeforeFirstIsFree(s, sep, k); s[..k]
  }

  lemma SplitFirstPiece(s: string, sep: string)
    requires |sep| > 0
    ensures SplitOn(s, sep)[0] == UpTo(s, sep)
  {
  }

  /** Splitting a string that begins with the separator yields an empty first piece, and
      the second piece is the first piece of what follows the separator. */
  lemma SplitAfterLeadingSeparator(s: string, sep: string)
    requires |sep| > 0 && StartsWith(s, sep)
    ensures |SplitOn(s, sep)| >= 2
    ensures SplitOn(s, sep)[0] == ""
    ensures SplitOn(s, sep)[1] == UpTo(s[|sep|..], sep)
  {
    assert OccursAt(s, sep, 0);
    FindSpec(s, sep);
    assert Find(s, sep) == 0;
  }

  /** `[p.strip() for p in s.split(sep)]`. */
  function SplitStrip(s: string, sep: string): (r: seq<string>)
    requires |sep| > 0
    ensures |r| == |SplitOn(s, sep)|
    ensures forall i :: 0 <= i < |r| ==> r[i] == Strip(SplitOn(s, sep)[i])
  {
    var parts := SplitOn(s, sep);
    seq(|parts|, i requires 0 <= i < |parts| => Strip(parts[i]))
  }

  // ---------------------------------------------------------------------
  // Whitespace
  // ---------------------------------------------------------------------

  /** The characters Python's `str.strip()` treats as whitespace (`str.isspace`): the
      ASCII ones, the four separators U+001C to U+001F, and the Unicode spaces and line
      separators. */
  predicate IsSpace(c: char)
  {
    ('\t' <= c <= '\r') || ('\U{001C}' <= c <= ' ') || c == '\U{0085}' || c == '\U{00A0}' ||
    c == '\U{1680}' || ('\U{2000}' <= c <= '\U{200A}') || c == '\U{2028}' || c == '\U{2029}' ||
    c == '\U{202F}' || c == '\U{205F}' || c == '\U{3000}'
  }

  predicate NoSpaceEnds(s: string)
  {
    s == [] || (!IsSpace(s[0]) && !IsSpace(s[|s| - 1]))
  }

  /** Python's `s.lstrip()`: `s` without its leading whitespace. */
  function LStrip(s: string): (r: string)
    ensures |r| <= |s| && r == s[|s| - |r|..]
    ensures forall i :: 0 <= i < |s| - |r| ==> IsSpace(s[i])
    ensures r != [] ==> !IsSpace(r[0])
  {
    if |s| > 0 && IsSpace(s[0]) then
      var r := LStrip(s[1..]);
      assert forall i :: 1 <= i < |s| ==> s[i] == s[1..][i - 1];
      r
    else s
  }

  /** Python's `s.rstrip()`: `s` without its trailing whitespace. */
  function RStrip(s: string): (r: string)
    ensures |r| <= |s| && r == s[..|r|]
    ensures forall i :: |r| <= i < |s| ==> IsSpace(s[i])
    ensures r != [] ==> !IsSpace(r[|r| - 1])
  {
    if |s| > 0 && IsSpace(s[|s| - 1]) then
      var r := RStrip(s[..|s| - 1]);
      assert forall i :: 0 <= i < |s| - 1 ==> s[i] == s[..|s| - 1][i];
      r
    else s
  }

  /** Python's `s.strip()`: a slice of `s` that keeps everything between the first and the
      last non-whitespace character. */
  function Strip(s: string): (r: string)
    ensures NoSpaceEnds(r)
    ensures Contains(s, r)
  {
    StripSlice(s);
    RStrip(LStrip(s))
  }

  lemma StripSlice(s: string)
    ensures NoSpaceEnds(RStrip(LStrip(s)))
    ensures Contains(s, RStrip(LStrip(s)))
  {
    StripEnds(s);
    StripContained(s);
  }

  lemma StripEnds(s: string)
    ensures NoSpaceEnds(RStrip(LStrip(s)))
  {
    var l := LStrip(s);
    var r := RStrip(l);
    if r != [] {
      assert r[0] == l[0];
    }
  }

  lemma StripContained(s: string)
    ensures Contains(s, RStrip(LStrip(s)))
  {
    SuffixPrefixContained(s, LStrip(s), RStrip(LStrip(s)));
  }

  /** A prefix of a suffix of `s` occurs in `s`. */
  lemma SuffixPrefixContained(s: string, l: string, r: string)
    requires |l| <= |s| && l == s[|s| - |l|..]
    requires |r| <= |l| && r == l[..|r|]
    ensures Contains(s, r)
  {
    var i := |s| - |l|;
    assert r == s[i..i + |r|];
    ContainsSlice(s, i, i + |r|);
  }

  /** Stripping a string without whitespace at its ends changes nothing. */
  lemma StripNoSpaceEnds(s: string)
    requires NoSpaceEnds(s)
    ensures Strip(s) == s
  {
  }

  /** Stripping is idempotent. */
  lemma StripIdempotent(s: string)
    ensures Strip(Strip(s)) == Strip(s)
  {
    StripNoSpaceEnds(Strip(s));
  }

  // ---------------------------------------------------------------------
  // Case
  // ---------------------------------------------------------------------

  predicate IsUpper(c: char) { 'A' <= c <= 'Z' }
  predicate IsLower(c: char) { 'a' <= c <= 'z' }
  predicate IsLetter(c: char) { IsUpper(c) || IsLower(c) }
  predicate IsDigit(c: char) { '0' <= c <= '9' }

  function LowerChar(c: char): char
  {
    if IsUpper(c) then (c as int + 32) as char else c
  }

  function UpperChar(c: char): char
  {
    if IsLower(c) then (c as int - 32) as char else c
  }

  /** Python's `s.lower()`. */
  function Lower(s: string): (r: string)
    ensures |r| == |s|
  {
    seq(|s|, i requires 0 <= i < |s| => LowerChar(s[i]))
  }

  /** Lower-casing text that has no upper-case letter changes nothing. */
  lemma LowerKeepsLowercase(s: string)
    requires forall i :: 0 <= i < |s| ==> !IsUpper(s[i])
    ensures Lower(s) == s
  {
  }

  /** Python's `s.title()`: a letter is upper-cased when the character before it is not a
      letter and lower-cased when it is; other characters are kept. */
  function Title(s: string): (r: string)
    ensures |r| == |s|
  {
    TitleAfter(s, false)
  }

  function TitleAfter(s: string, afterLetter: bool): (r: string)
    ensures |r| == |s|
    ensures forall i :: 0 <= i < |s| && !IsLetter(s[i]) ==> r[i] == s[i]
    ensures forall i :: 0 <= i < |s| ==> LowerChar(r[i]) == LowerChar(s[i])
    ensures |s| > 0 && !afterLetter ==> r[0] == UpperChar(s[0])
  {
    if s == [] then []
    else if IsLetter(s[0]) then
      [if afterLetter then LowerChar(s[0]) else UpperChar(s[0])] + TitleAfter(s[1..], true)
    else [s[0]] + TitleAfter(s[1..], false)
  }

  /** Title-casing changes only the case of letters, so lower-casing undoes it. */
  lemma LowerTitle(s: string, afterLetter: bool)
    ensures Lower(TitleAfter(s, afterLetter)) == Lower(s)
  {
    var r := TitleAfter(s, afterLetter);
    assert forall i :: 0 <= i < |s| ==> Lower(r)[i] == LowerChar(r[i]) == LowerChar(s[i]) == Lower(s)[i];
  }

  /** Title-casing a word that begins with a lower-case letter always changes it:
      its first character becomes upper-case. */
  lemma TitleDiffers(s: string)
    requires |s| > 0 && IsLower(s[0])
    ensures Title(s) != s && IsUpper(Title(s)[0])
  {
  }

  // ---------------------------------------------------------------------
  // Slicing, repetition, numbers
  // ---------------------------------------------------------------------

  /** Python's `s[:n]`. */
  function Take<T>(s: seq<T>, n: nat): (r: seq<T>)
    ensures |r| == if |s| <= n then |s| else n
    ensures r == s[..|r|]
  {
    if |s| <= n then s else s[..n]
  }

  /** Python's `c * n` for a one-character string. */
  function Repeat(c: char, n: nat): (r: string)
    ensures |r| == n
    ensures forall i :: 0 <= i < n ==> r[i] == c
  {
    if n == 0 then [] else [c] + Repeat(c, n - 1)
  }

  /** Python's `str(n)` for a natural number. */
  function NatToString(n: nat): (r: string)
    ensures |r| >= 1
    ensures forall i :: 0 <= i < |r| ==> IsDigit(r[i])
  {
    var d := ['0' + (n % 10) as char];
    if n < 10 then d else NatToString(n / 10) + d
  }

  // ---------------------------------------------------------------------
  // Truthiness of optional strings
  // ---------------------------------------------------------------------

  /** Python truthiness of an `Optional[str]`: present and non-empty. */
  predicate Truthy(o: Option<string>)
  {
    o.Some? && o.value != ""
  }

  // ---------------------------------------------------------------------
  // File-name cleaning
  // ---------------------------------------------------------------------

  predicate IsAlnum(c: char) { IsLetter(c) || IsDigit(c) }

  /** The characters a cleaned hotel name may keep. */
  predicate NameChar(c: char)
  {
    IsAlnum(c) || c == ' ' || c == '-' || c == '_'
  }

  /** `"".join(c for c in s if c.isalnum() or c in (' ', '-', '_'))`. */
  function NameChars(s: string): (r: string)
    ensures |r| <= |s|
    ensures forall i :: 0 <= i < |r| ==> NameChar(r[i])
  {
    if s == [] then []
    else (if NameChar(s[0]) then [s[0]] else []) + NameChars(s[1..])
  }

  /** Filtering distributes over concatenation, so the kept characters stay in their order. */
  lemma {:induction false} NameCharsAppend(a: string, b: string)
    ensures NameChars(a + b) == NameChars(a) + NameChars(b)
  {
    if a != [] {
      assert (a + b)[0] == a[0];
      assert (a + b)[1..] == a[1..] + b;
      NameCharsAppend(a[1..], b);
      var h := if NameChar(a[0]) then [a[0]] else [];
      assert NameChars(a + b) == h + NameChars(a[1..] + b);
      assert NameChars(a) == h + NameChars(a[1..]);
      assert h + (NameChars(a[1..]) + NameChars(b)) == (h + NameChars(a[1..])) + NameChars(b);
    } else {
      assert a + b == b;
    }
  }

  /** A string made only of allowed characters is kept as it is. */
  lemma {:induction false} NameCharsKeepsClean(s: string)
    requires forall i :: 0 <= i < |s| ==> NameChar(s[i])
    ensures NameChars(s) == s
  {
    if s != [] {
      NameCharsKeepsClean(s[1..]);
    }
  }

  /** A single character survives the filter exactly when it is allowed. */
  lemma NameCharsSingle(c: char)
    ensures NameChars([c]) == if NameChar(c) then [c] else []
  {
    assert [c][1..] == [];
  }

  // ---------------------------------------------------------------------
  // Hotel-name cleaning for file names
  // ---------------------------------------------------------------------

  /** `"".join(c for c in name if c.isalnum() or c in (' ', '-', '_')).strip()`: only
      allowed characters, no whitespace at either end, and a contiguous run of the
      allowed characters of `name` in their original order. */
  function CleanName(name: string): (r: string)
    ensures forall i :: 0 <= i < |r| ==> NameChar(r[i])
    ensures NoSpaceEnds(r)
    ensures Contains(NameChars(name), r)
  {
    var kept := NameChars(name);
    var r := Strip(kept);
    ContainedChars(kept, r);
    r
  }

  /** Every character of a substring is a character of the string. */
  lemma ContainedChars(s: string, t: string)
    requires Contains(s, t)
    ensures forall i :: 0 <= i < |t| ==> t[i] in s
  {
    FindSpec(s, t);
    var p := Find(s, t);
    assert p >= 0 && OccursAt(s, t, p);
    forall i | 0 <= i < |t|
      ensures t[i] in s
    {
      assert 0 <= p + i < |s| && t[i] == s[p..p + |t|][i] == s[p + i];
    }
  }

  /** Cleaning a cleaned name changes nothing. */
  lemma CleanNameIdempotent(name: string)
    ensures CleanName(CleanName(name)) == CleanName(name)
  {
    var r := CleanName(name);
    NameCharsKeepsClean(r);
    StripNoSpaceEnds(r);
  }

  /** A name made of allowed characters with no whitespace at its ends is kept as it is. */
  lemma CleanNameKeepsCleanName(name: string)
    requires forall i :: 0 <= i < |name| ==> NameChar(name[i])
    requires NoSpaceEnds(name)
    ensures CleanName(name) == name
  {
    NameCharsKeepsClean(name);
    StripNoSpaceEnds(name);
  }
}
