/** String helpers with the semantics both the Python back end and the JavaScript
    front end rely on: whitespace, trimming, case mapping, joining, and the
    e-mail pattern `^[^\s@]+@[^\s@]+\.[^\s@]+$` used by three front-end forms. */
module Strings {

  /** The characters matched by JavaScript's `\s` (and removed by `trim()`). */
  predicate IsWhitespace(c: char) {
    c == ' ' || c == '\t' || c == '\n' || c == '\r' || c == '\U{000B}' || c == '\U{000C}'
    || c == '\U{00A0}' || c == '\U{1680}' || ('\U{2000}' <= c <= '\U{200A}')
    || c == '\U{2028}' || c == '\U{2029}' || c == '\U{202F}' || c == '\U{205F}'
    || c == '\U{3000}' || c == '\U{FEFF}'
  }

  predicate NoWhitespace(s: string) {
    forall i :: 0 <= i < |s| ==> !IsWhitespace(s[i])
  }

  /** True when every character of `s` is whitespace (so its trim is empty). */
  predicate AllWhitespace(s: string) {
    forall i :: 0 <= i < |s| ==> IsWhitespace(s[i])
  }

  function TrimStart(s: string): (r: string)
    ensures |r| <= |s| && r == s[|s| - |r|..]
    ensures r == [] || !IsWhitespace(r[0])
    ensures AllWhitespace(s[..|s| - |r|])
  {
    if s != [] && IsWhitespace(s[0]) then
      var r := TrimStart(s[1..]);
      var cut := s[..|s| - |r|];
      assert forall i :: 0 < i < |cut| ==> cut[i] == s[1..][i - 1];
      r
    else s
  }

  function TrimEnd(s: string): (r: string)
    ensures |r| <= |s| && r == s[..|r|]
    ensures r == [] || !IsWhitespace(r[|r| - 1])
    ensures AllWhitespace(s[|r|..])
  {
    if s != [] && IsWhitespace(s[|s| - 1]) then
      var r := TrimEnd(s[..|s| - 1]);
      assert forall i :: 0 <= i < |s| - |r| ==>
        s[|r|..][i] == if i < |s| - 1 - |r| then s[..|s| - 1][|r|..][i] else s[|s| - 1];
      r
    else s
  }

  /** JavaScript `s.trim()`: the whitespace of ECMAScript, which includes the byte
      order mark U+FEFF. */
  function Trim(s: string): (r: string)
    ensures |r| <= |s|
    ensures r == [] || (!IsWhitespace(r[0]) && !IsWhitespace(r[|r| - 1]))
  {
    TrimEnd(TrimStart(s))
  }

  /** The trim of a string is empty exactly when the string is all whitespace. */
  lemma TrimEmptyIff(s: string)
    ensures Trim(s) == [] <==> AllWhitespace(s)
  {
    var t := TrimStart(s);
    if Trim(s) == [] {
      assert AllWhitespace(t[0..]);
      assert t == [];
      assert s[..|s|] == s;
    } else {
      var r := Trim(s);
      assert r == t[..|r|];
      assert t == s[|s| - |t|..];
      assert r[0] == s[|s| - |t|];
    }
  }

  /** The trim of a string with no whitespace at either end is the string itself. */
  lemma TrimNoEdgeWhitespace(s: string)
    requires s == [] || (!IsWhitespace(s[0]) && !IsWhitespace(s[|s| - 1]))
    ensures Trim(s) == s
  {
  }

  /** Trimming twice is trimming once. */
  lemma TrimIdempotent(s: string)
    ensures Trim(Trim(s)) == Trim(s)
  {
    TrimNoEdgeWhitespace(Trim(s));
  }

  /** The characters Python's `str.isspace()` accepts, which `str.strip()` removes:
      unlike JavaScript's `\s` they include the separators U+001C..U+001F and
      U+0085, and exclude U+FEFF. */
  predicate IsPyWhitespace(c: char) {
    ('\t' <= c <= '\r') || ('\U{001C}' <= c <= ' ') || c == '\U{0085}'
    || c == '\U{00A0}' || c == '\U{1680}' || ('\U{2000}' <= c <= '\U{200A}')
    || c == '\U{2028}' || c == '\U{2029}' || c == '\U{202F}' || c == '\U{205F}'
    || c == '\U{3000}'
  }

  /** `s.lstrip()`. */
  function StripStart(s: string): (r: string)
    ensures |r| <= |s| && r == s[|s| - |r|..]
    ensures r == [] || !IsPyWhitespace(r[0])
    ensures forall i :: 0 <= i < |s| - |r| ==> IsPyWhitespace(s[i])
  {
    if s != [] && IsPyWhitespace(s[0]) then
      var r := StripStart(s[1..]);
      assert forall i :: 0 < i < |s| - |r| ==> s[i] == s[1..][i - 1];
      r
    else s
  }

  /** `s.rstrip()`. */
  function StripEnd(s: string): (r: string)
    ensures |r| <= |s| && r == s[..|r|]
    ensures r == [] || !IsPyWhitespace(r[|r| - 1])
    ensures forall i :: |r| <= i < |s| ==> IsPyWhitespace(s[i])
  {
    if s != [] && IsPyWhitespace(s[|s| - 1]) then
      var r := StripEnd(s[..|s| - 1]);
      assert forall i :: |r| <= i < |s| - 1 ==> s[i] == s[..|s| - 1][i];
      r
    else s
  }

  /** Python `s.strip()`. */
  function Strip(s: string): (r: string)
    ensures |r| <= |s|
    ensures r == [] || (!IsPyWhitespace(r[0]) && !IsPyWhitespace(r[|r| - 1]))
  {
    StripEnd(StripStart(s))
  }

  /** The strip of a string is empty exactly when Python counts every character
      of it as whitespace. */
  lemma StripEmptyIff(s: string)
    ensures Strip(s) == [] <==> forall i :: 0 <= i < |s| ==> IsPyWhitespace(s[i])
  {
    var t := StripStart(s);
    if Strip(s) != [] {
      var r := Strip(s);
      assert r == t[..|r|];
      assert r[0] == s[|s| - |t|];
    }
  }

  /** The strip of a string with no Python whitespace at either end is the string
      itself. */
  lemma StripNoEdgeWhitespace(s: string)
    requires s == [] || (!IsPyWhitespace(s[0]) && !IsPyWhitespace(s[|s| - 1]))
    ensures Strip(s) == s
  {
  }

  /** Stripping twice is stripping once. */
  lemma StripIdempotent(s: string)
    ensures Strip(Strip(s)) == Strip(s)
  {
    StripNoEdgeWhitespace(Strip(s));
  }

  /** The whitespace sets differ: the separator U+001C strips to nothing in Python
      and is kept by JavaScript's `trim()`. */
  lemma SeparatorStrippedNotTrimmed()
    ensures Strip("\U{001C}") == "" && Trim("\U{001C}") == "\U{001C}"
  {
    var fs := "\U{001C}";
    assert IsPyWhitespace(fs[0]) && !IsWhitespace(fs[0]);
    assert fs[1..] == [];
  }

  /** JavaScript's `trim()` removes the byte-order mark U+FEFF. */
  lemma ByteOrderMarkTrimmed()
    ensures Trim("\U{FEFF}") == ""
  {
    var feff := "\U{FEFF}";
    assert IsWhitespace(feff[0]) && feff[1..] == [];
    assert TrimStart(feff) == TrimStart([]);
  }

  /** Python's `strip()` keeps the byte-order mark U+FEFF. */
  lemma ByteOrderMarkNotStripped()
    ensures Strip("\U{FEFF}") == "\U{FEFF}"
  {
    var feff := "\U{FEFF}";
    assert !IsPyWhitespace(feff[0]);
    assert StripStart(feff) == feff;
  }

  /** The byte-order mark U+FEFF is trimmed by JavaScript and kept by Python. */
  lemma ByteOrderMarkTrimmedNotStripped()
    ensures Strip("\U{FEFF}") == "\U{FEFF}" && Trim("\U{FEFF}") == ""
  {
    ByteOrderMarkTrimmed();
    ByteOrderMarkNotStripped();
  }

  /** Lower-cases the letters A-Z and the upper-case Latin-1 letters À-Þ (except ×). */
  function LowerChar(c: char): (r: char)
    ensures 'A' <= c <= 'Z' ==> 'a' <= r <= 'z'
    ensures !('A' <= c <= 'Z') && !('\U{00C0}' <= c <= '\U{00DE}') ==> r == c
  {
    if 'A' <= c <= 'Z' || ('\U{00C0}' <= c <= '\U{00DE}' && c != '\U{00D7}')
    then (c as int + 32) as char
    else c
  }

  /** Upper-cases the letters a-z and leaves every other character unchanged. */
  function UpperChar(c: char): (r: char)
    ensures 'a' <= c <= 'z' ==> 'A' <= r <= 'Z'
    ensures !('a' <= c <= 'z') ==> r == c
  {
    if 'a' <= c <= 'z' then (c as int - 32) as char else c
  }

  /** `s.lower()` / `s.toLowerCase()`, character by character. */
  function Lower(s: string): (r: string)
    ensures |r| == |s|
    ensures forall i :: 0 <= i < |s| ==> r[i] == LowerChar(s[i])
  {
    if s == [] then [] else [LowerChar(s[0])] + Lower(s[1..])
  }

  /** Lower-casing twice is lower-casing once, and leaves no A-Z behind. */
  lemma LowerIdempotent(s: string)
    ensures Lower(Lower(s)) == Lower(s)
    ensures forall i :: 0 <= i < |s| ==> !('A' <= Lower(s)[i] <= 'Z')
  {
    var l := Lower(s);
    assert forall i :: 0 <= i < |s| ==> LowerChar(l[i]) == l[i];
  }

  /** Lower-casing keeps a string free of whitespace at either end. */
  lemma LowerKeepsEdges(s: string)
    requires s == [] || (!IsWhitespace(s[0]) && !IsWhitespace(s[|s| - 1]))
    ensures var l := Lower(s); l == [] || (!IsWhitespace(l[0]) && !IsWhitespace(l[|l| - 1]))
  {
  }

  /** `s.upper()`, character by character. */
  function Upper(s: string): (r: string)
    ensures |r| == |s|
    ensures forall i :: 0 <= i < |s| ==> r[i] == UpperChar(s[i])
  {
    if s == [] then [] else [UpperChar(s[0])] + Upper(s[1..])
  }

  /** `s.replace(a, b)` for single characters. */
  function ReplaceChar(s: string, a: char, b: char): (r: string)
    ensures |r| == |s|
    ensures forall i :: 0 <= i < |s| ==> r[i] == (if s[i] == a then b else s[i])
  {
    if s == [] then [] else [if s[0] == a then b else s[0]] + ReplaceChar(s[1..], a, b)
  }

  /** The number of occurrences of `c` in `s`. */
  function Count(s: string, c: char): (n: nat)
    ensures n <= |s|
    ensures n == 0 <==> c !in s
  {
    if s == [] then 0 else (if s[0] == c then 1 else 0) + Count(s[1..], c)
  }

  /** The position of the first `c` in `s`, or `|s|` when there is none. */
  function IndexOf(s: string, c: char): (k: nat)
    ensures k <= |s|
    ensures k < |s| ==> s[k] == c
    ensures c !in s[..k]
  {
    if s == [] then 0 else if s[0] == c then 0 else 1 + IndexOf(s[1..], c)
  }

  /** `parts.join(sep)` in JavaScript, `sep.join(parts)` in Python. */
  function Join(parts: seq<string>, sep: string): (r: string)
    ensures parts == [] ==> r == ""
    ensures |parts| == 1 ==> r == parts[0]
  {
    if parts == [] then ""
    else if |parts| == 1 then parts[0]
    else parts[0] + sep + Join(parts[1..], sep)
  }

  /** The regular-expression reading of `^[^\s@]+@[^\s@]+\.[^\s@]+$`: the text is
      some local part, an `@`, a domain head, a dot, and a domain tail, each part
      non-empty and free of whitespace and `@`. */
  ghost predicate MatchesEmailRegex(s: string) {
    exists i, j :: SplitsAsEmail(s, i, j)
  }

  /** `s[..i]`, `@`, `s[i+1..j]`, `.`, `s[j+1..]` with the three runs plain. */
  predicate SplitsAsEmail(s: string, i: int, j: int) {
    0 < i < j < |s| - 1 && s[i] == '@' && s[j] == '.'
    && Plain(s[..i]) && Plain(s[i + 1..j]) && Plain(s[j + 1..])
  }

  /** A run of the class `[^\s@]+`. */
  predicate Plain(s: string) {
    s != [] && NoWhitespace(s) && '@' !in s
  }

  /** The same pattern as an explicit check: no whitespace, exactly one `@` with a
      non-empty local part, and a domain holding a `.` that is neither its first nor
      its last character. */
  predicate IsEmailShape(s: string) {
    NoWhitespace(s) && Count(s, '@') == 1
    && var at := IndexOf(s, '@');
       at > 0 && DotInside(s[at + 1..])
  }

  /** The domain has a dot strictly inside it. */
  predicate DotInside(d: string) {
    exists k :: 0 < k < |d| - 1 && d[k] == '.'
  }

  lemma CountSplit(a: string, b: string, c: char)
    ensures Count(a + b, c) == Count(a, c) + Count(b, c)
  {
    if a == [] {
      assert a + b == b;
    } else {
      assert (a + b)[1..] == a[1..] + b;
      CountSplit(a[1..], b, c);
    }
  }

  /** The explicit check accepts only strings the regular expression matches. */
  lemma EmailShapeMatches(s: string)
    requires IsEmailShape(s)
    ensures MatchesEmailRegex(s)
  {
    var at := IndexOf(s, '@');
    var d := s[at + 1..];
    var k :| 0 < k < |d| - 1 && d[k] == '.';
    var j := at + 1 + k;
    NoSecondAt(s, at);
    SuffixNoWhitespace(s, at + 1);
    PlainPieces(d, k);
    assert s[at + 1..j] == d[..k];
    assert s[j + 1..] == d[k + 1..];
    SliceNoWhitespace(s, 0, at);
    assert s[..at] == s[0..at];
    assert Plain(s[..at]);
    assert SplitsAsEmail(s, at, j);
  }

  /** After the first `@` of a string with one `@` there is no other. */
  lemma NoSecondAt(s: string, at: nat)
    requires Count(s, '@') == 1 && at == IndexOf(s, '@')
    ensures at < |s| && '@' !in s[at + 1..]
  {
    CountAfterFirst(s, '@');
  }

  /** The occurrences of `c` are its first one and those after it. */
  lemma {:induction false} CountAfterFirst(s: string, c: char)
    requires c in s
    ensures IndexOf(s, c) < |s| && Count(s, c) == 1 + Count(s[IndexOf(s, c) + 1..], c)
  {
    if s[0] != c {
      assert c in s[1..];
      CountAfterFirst(s[1..], c);
      assert s[1..][IndexOf(s[1..], c) + 1..] == s[IndexOf(s, c) + 1..];
    }
  }

  /** Cutting a domain without `@` or whitespace at an inner dot leaves two plain
      runs. */
  lemma PlainPieces(d: string, k: nat)
    requires 0 < k < |d| - 1 && '@' !in d && NoWhitespace(d)
    ensures Plain(d[..k]) && Plain(d[k + 1..])
  {
    var head, tail := d[..k], d[k + 1..];
    assert forall p :: 0 <= p < |head| ==> head[p] == d[p];
    assert forall p :: 0 <= p < |tail| ==> tail[p] == d[k + 1 + p];
  }

  lemma SuffixNoWhitespace(s: string, a: nat)
    requires a <= |s| && NoWhitespace(s)
    ensures NoWhitespace(s[a..])
  {
    assert forall p :: 0 <= p < |s| - a ==> s[a..][p] == s[a + p];
  }

  lemma SliceNoWhitespace(s: string, a: nat, b: nat)
    requires a <= b <= |s| && NoWhitespace(s)
    ensures NoWhitespace(s[a..b])
  {
    assert forall p :: 0 <= p < b - a ==> s[a..b][p] == s[a + p];
  }

  lemma IndexOfAt(s: string, c: char, i: nat)
    requires i < |s| && s[i] == c && c !in s[..i]
    ensures IndexOf(s, c) == i
  {
    if i > 0 {
      assert s[0] == s[..i][0];
      assert s[1..][..i - 1] == s[..i][1..];
      IndexOfAt(s[1..], c, i - 1);
    }
  }

  /** Every string the regular expression matches passes the explicit check. */
  lemma MatchesEmailShape(s: string)
    requires MatchesEmailRegex(s)
    ensures IsEmailShape(s)
  {
    var i, j :| SplitsAsEmail(s, i, j);
    SplitIsShape(s, i, j);
  }

  lemma SplitIsShape(s: string, i: int, j: int)
    requires SplitsAsEmail(s, i, j)
    ensures IsEmailShape(s)
  {
    var local, head, tail := s[..i], s[i + 1..j], s[j + 1..];
    forall p | 0 <= p < |s|
      ensures !IsWhitespace(s[p]) && (p != i ==> s[p] != '@')
    {
      if p < i {
        assert s[p] == local[p];
      } else if i < p < j {
        assert s[p] == head[p - i - 1];
      } else if j < p {
        assert s[p] == tail[p - j - 1];
      }
    }
    assert Count(s, '@') == 1 by {
      var pre, d := s[..i + 1], s[i + 1..];
      assert pre + d == s;
      CountSplit(pre, d, '@');
      assert pre == local + [s[i]];
      CountSplit(local, [s[i]], '@');
      assert '@' !in d by {
        forall p | 0 <= p < |d| ensures d[p] != '@' {
          assert d[p] == s[i + 1 + p];
        }
      }
    }
    IndexOfAt(s, '@', i);
    assert s[i + 1..][j - i - 1] == '.';
  }

  /** The explicit check and the regular expression accept the same strings. */
  lemma EmailShapeIffRegex(s: string)
    ensures IsEmailShape(s) <==> MatchesEmailRegex(s)
  {
    if IsEmailShape(s) { EmailShapeMatches(s); }
    if MatchesEmailRegex(s) { MatchesEmailShape(s); }
  }
}
