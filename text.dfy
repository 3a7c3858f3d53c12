/** String operations of the JavaScript runtime that the screens rely on, restricted to
    what the model needs: trimming, ASCII case mapping, substring search, the first-match
    `replace`, display truncation, a code-point string comparison and UTF-16 lengths. */
module Text {

  /** The characters `String.prototype.trim` removes: the ASCII white space and line
      terminators, no-break space, the byte-order mark and the Unicode space separators. */
  predicate IsJsSpace(c: char) {
    c == ' ' || c == '\t' || c == '\n' || c == '\r' || c == '\U{000B}' || c == '\U{000C}'
    || c == '\U{00A0}' || c == '\U{FEFF}' || c == '\U{1680}' || ('\U{2000}' <= c <= '\U{200A}')
    || c == '\U{2028}' || c == '\U{2029}' || c == '\U{202F}' || c == '\U{205F}' || c == '\U{3000}'
  }

  predicate AllSpaces(s: string) {
    forall i :: 0 <= i < |s| ==> IsJsSpace(s[i])
  }

  /** `trimStart`: drop leading white space. */
  function TrimStart(s: string): (r: string)
    ensures r == [] || !IsJsSpace(r[0])
  {
    if s != [] && IsJsSpace(s[0]) then TrimStart(s[1..]) else s
  }

  /** What `trimStart` removes is a run of white space at the front, and only that. */
  lemma {:induction false} TrimStartIsSuffix(s: string)
    ensures |TrimStart(s)| <= |s| && TrimStart(s) == s[|s| - |TrimStart(s)|..]
    ensures AllSpaces(s[..|s| - |TrimStart(s)|])
  {
    if s != [] && IsJsSpace(s[0]) {
      TrimStartIsSuffix(s[1..]);
      var r := TrimStart(s);
      assert s[1..][|s| - 1 - |r|..] == s[|s| - |r|..];
    }
  }

  lemma TrimStartOfNonSpace(s: string)
    requires s == [] || !IsJsSpace(s[0])
    ensures TrimStart(s) == s
  {
  }

  /** `trimEnd`: drop trailing white space. */
  function TrimEnd(s: string): (r: string)
    ensures r == [] || !IsJsSpace(r[|r| - 1])
  {
    if s != [] && IsJsSpace(s[|s| - 1]) then TrimEnd(s[..|s| - 1]) else s
  }

  /** What `trimEnd` removes is a run of white space at the back, and only that. */
  lemma {:induction false} TrimEndIsPrefix(s: string)
    ensures TrimEnd(s) <= s
    ensures AllSpaces(s[|TrimEnd(s)|..])
  {
    if s != [] && IsJsSpace(s[|s| - 1]) {
      TrimEndIsPrefix(s[..|s| - 1]);
      var r := TrimEnd(s);
      assert forall i :: |r| <= i < |s| - 1 ==> s[..|s| - 1][i] == s[i];
    }
  }

  /** `trim`. */
  function Trim(s: string): string {
    TrimEnd(TrimStart(s))
  }

  /** Trimming a trimmed string changes nothing. */
  lemma TrimIdempotent(s: string)
    ensures Trim(Trim(s)) == Trim(s)
  {
    var t := TrimStart(s);
    TrimEndIsPrefix(t);
    var r := TrimEnd(t);
    if r != [] {
      assert r[0] == t[0];
    }
    TrimFixesTrimmed(r);
  }

  lemma {:induction false} TrimStartSkipsSpaces(pad: string, s: string)
    requires AllSpaces(pad)
    ensures TrimStart(pad + s) == TrimStart(s)
  {
    if pad != [] {
      assert (pad + s)[1..] == pad[1..] + s;
      TrimStartSkipsSpaces(pad[1..], s);
    } else {
      assert pad + s == s;
    }
  }

  lemma {:induction false} TrimEndSkipsSpaces(s: string, pad: string)
    requires AllSpaces(pad)
    ensures TrimEnd(s + pad) == TrimEnd(s)
  {
    if pad != [] {
      assert (s + pad)[..|s + pad| - 1] == s + pad[..|pad| - 1];
      TrimEndSkipsSpaces(s, pad[..|pad| - 1]);
    } else {
      assert s + pad == s;
    }
  }

  lemma {:induction false} TrimEndOfSpaces(pad: string)
    requires AllSpaces(pad)
    ensures TrimEnd(pad) == []
  {
    if pad != [] {
      TrimEndOfSpaces(pad[..|pad| - 1]);
    }
  }

  /** Trimming followed by trimming changes nothing, and a trimmed string is its own trim. */
  lemma TrimFixesTrimmed(s: string)
    requires s == [] || (!IsJsSpace(s[0]) && !IsJsSpace(s[|s| - 1]))
    ensures Trim(s) == s
  {
  }

  lemma {:induction false} TrimStartOfPadded(s: string, after: string)
    requires AllSpaces(after)
    ensures TrimStart(s) != [] ==> TrimStart(s + after) == TrimStart(s) + after
    ensures TrimStart(s) == [] ==> TrimStart(s + after) == []
  {
    if s == [] {
      assert s + after == after;
      if after != [] {
        assert IsJsSpace(after[0]);
        assert (s + after)[1..] == after[1..];
        TrimStartOfPadded(s, after[1..]);
        assert s + after[1..] == after[1..];
      }
    } else {
      assert (s + after)[0] == s[0];
      if IsJsSpace(s[0]) {
        assert (s + after)[1..] == s[1..] + after;
        TrimStartOfPadded(s[1..], after);
      }
    }
  }

  /** White space around a value never counts: padding on either side is removed by `trim`. */
  lemma TrimIgnoresPadding(before: string, s: string, after: string)
    requires AllSpaces(before) && AllSpaces(after)
    ensures Trim(before + s + after) == Trim(s)
  {
    assert before + s + after == before + (s + after);
    TrimStartSkipsSpaces(before, s + after);
    TrimStartOfPadded(s, after);
    var t := TrimStart(s);
    if t != [] {
      TrimEndSkipsSpaces(t, after);
    }
  }

  /** `.length`: the number of UTF-16 code units, two for a character outside the Basic
      Multilingual Plane. */
  function Utf16Length(s: string): (n: nat)
    ensures |s| <= n <= 2 * |s|
    ensures n == 0 <==> s == []
  {
    if s == [] then 0 else Utf16Length(s[..|s| - 1]) + (if s[|s| - 1] as int >= 0x1_0000 then 2 else 1)
  }

  /** A string of Basic Multilingual Plane characters has one code unit per character. */
  lemma {:induction false} Utf16LengthOfBmp(s: string)
    requires forall i :: 0 <= i < |s| ==> s[i] as int < 0x1_0000
    ensures Utf16Length(s) == |s|
  {
    if s != [] {
      Utf16LengthOfBmp(s[..|s| - 1]);
    }
  }

  function LowerChar(c: char): char {
    if 'A' <= c <= 'Z' then (c as int + 32) as char else c
  }

  function UpperChar(c: char): char {
    if 'a' <= c <= 'z' then (c as int - 32) as char else c
  }

  /** `toLowerCase`, ASCII letters only. */
  function ToLower(s: string): (r: string)
    ensures |r| == |s|
    ensures forall i :: 0 <= i < |s| ==> r[i] == LowerChar(s[i])
  {
    seq(|s|, i requires 0 <= i < |s| => LowerChar(s[i]))
  }

  /** Lowering an already lowered string changes nothing. */
  lemma ToLowerIdempotent(s: string)
    ensures ToLower(ToLower(s)) == ToLower(s)
  {
  }

  /** `haystack.includes(needle)`. */
  function Contains(haystack: string, needle: string): bool {
    needle <= haystack || (haystack != [] && Contains(haystack[1..], needle))
  }

  /** `pattern` occurs in `s` starting at position `i`. */
  predicate OccursAt(s: string, pattern: string, i: int) {
    0 <= i && i + |pattern| <= |s| && s[i..i + |pattern|] == pattern
  }

  lemma OccursAtShift(s: string, pattern: string, i: int)
    requires s != [] && i >= 0
    ensures OccursAt(s, pattern, i + 1) <==> OccursAt(s[1..], pattern, i)
  {
    if 0 <= i && i + 1 + |pattern| <= |s| {
      assert s[i + 1..i + 1 + |pattern|] == s[1..][i..i + |pattern|];
    }
  }

  /** `includes` holds exactly when the needle occurs at some position. */
  lemma {:induction false} ContainsIffOccurs(haystack: string, needle: string)
    ensures Contains(haystack, needle) <==> exists i :: OccursAt(haystack, needle, i)
  {
    if needle <= haystack {
      assert haystack[0..|needle|] == needle;
      assert OccursAt(haystack, needle, 0);
    } else if haystack == [] {
    } else {
      ContainsIffOccurs(haystack[1..], needle);
      if Contains(haystack[1..], needle) {
        var i :| OccursAt(haystack[1..], needle, i);
        OccursAtShift(haystack, needle, i);
      }
      if exists i :: OccursAt(haystack, needle, i) {
        var i :| OccursAt(haystack, needle, i);
        assert i != 0;
        OccursAtShift(haystack, needle, i - 1);
      }
    }
  }

  /** Every string contains the empty string. */
  lemma ContainsEmpty(haystack: string)
    ensures Contains(haystack, [])
  {
  }

  /** Position of the first occurrence of `pattern` in `s` (`indexOf`), or -1. */
  function IndexOf(s: string, pattern: string): (r: int)
    ensures r >= -1
    ensures r >= 0 ==> OccursAt(s, pattern, r)
    ensures forall j :: (r < 0 || j < r) ==> !OccursAt(s, pattern, j)
  {
    if pattern <= s then
      assert s[0..|pattern|] == pattern;
      0
    else if s == [] then
      -1
    else
      var k := IndexOf(s[1..], pattern);
      assert forall j :: j >= 0 ==> (OccursAt(s, pattern, j + 1) <==> OccursAt(s[1..], pattern, j)) by {
        forall j | j >= 0 { OccursAtShift(s, pattern, j); }
      }
      assert !OccursAt(s, pattern, 0);
      assert forall j :: j < 0 ==> !OccursAt(s, pattern, j);
      if k < 0 then
        assert forall j :: !OccursAt(s, pattern, j) by {
          forall j ensures !OccursAt(s, pattern, j) {
            if j > 0 { assert !OccursAt(s[1..], pattern, j - 1); }
          }
        }
        -1
      else
        assert forall j :: j < k + 1 ==> !OccursAt(s, pattern, j) by {
          forall j | j < k + 1 ensures !OccursAt(s, pattern, j) {
            if j > 0 { assert !OccursAt(s[1..], pattern, j - 1); }
          }
        }
        k + 1
  }

  /** `s.replace(pattern, '')` with a string pattern: only the first occurrence is removed. */
  function RemoveFirst(s: string, pattern: string): string {
    var i := IndexOf(s, pattern);
    if i < 0 then s else s[..i] + s[i + |pattern|..]
  }

  /** A string that starts with the pattern loses exactly that prefix. */
  lemma RemoveFirstOfPrefixed(pattern: string, rest: string)
    ensures RemoveFirst(pattern + rest, pattern) == rest
  {
    assert pattern <= pattern + rest;
    assert (pattern + rest)[|pattern|..] == rest;
  }

  /** `s.length > limit ? s.slice(0, limit) + '\U{2026}' : s`. */
  function Truncate(s: string, limit: nat): (r: string)
    ensures |s| <= limit ==> r == s
    ensures |s| > limit ==> |r| == limit + 1 && r[..limit] == s[..limit] && r[limit] == '\U{2026}'
  {
    if |s| > limit then s[..limit] + "\U{2026}" else s
  }

  /** Lexicographic comparison by code point, the model of `localeCompare`:
      negative, zero or positive as `a` sorts before, equal to or after `b`. */
  function StrCompare(a: string, b: string): int {
    if a == [] && b == [] then 0
    else if a == [] then -1
    else if b == [] then 1
    else if a[0] < b[0] then -1
    else if a[0] > b[0] then 1
    else StrCompare(a[1..], b[1..])
  }

  lemma {:induction false} StrCompareAntisymmetric(a: string, b: string)
    ensures StrCompare(a, b) == -StrCompare(b, a)
  {
    if a != [] && b != [] && a[0] == b[0] {
      StrCompareAntisymmetric(a[1..], b[1..]);
    }
  }

  lemma {:induction false} StrCompareZeroIffEqual(a: string, b: string)
    ensures StrCompare(a, b) == 0 <==> a == b
  {
    if a != [] && b != [] && a[0] == b[0] {
      StrCompareZeroIffEqual(a[1..], b[1..]);
      if a[1..] == b[1..] {
        assert a == [a[0]] + a[1..] && b == [b[0]] + b[1..];
      }
    }
  }

  lemma {:induction false} StrCompareTransitive(a: string, b: string, c: string)
    requires StrCompare(a, b) <= 0 && StrCompare(b, c) <= 0
    ensures StrCompare(a, c) <= 0
  {
    if a != [] && b != [] && c != [] && a[0] == b[0] && b[0] == c[0] {
      StrCompareTransitive(a[1..], b[1..], c[1..]);
    }
  }
}
