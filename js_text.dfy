/**
 * The JavaScript string operations the storefront relies on: `toLowerCase`
 * (ASCII only), the `\s` character class, `trim`, `replace(/\s+/g, '-')`,
 * `includes`, `join` and `length` (which counts UTF-16 code units).
 */
module JsText {

  /** The WhiteSpace and LineTerminator code points of ECMAScript: what `\s` and `trim()` treat as space. */
  predicate IsJsWhitespace(c: char) {
    c == '\t' || c == '\n' || c == '\U{000B}' || c == '\U{000C}' || c == '\r' || c == ' '
    || c == '\U{00A0}' || c == '\U{1680}' || ('\U{2000}' <= c <= '\U{200A}')
    || c == '\U{2028}' || c == '\U{2029}' || c == '\U{202F}' || c == '\U{205F}'
    || c == '\U{3000}' || c == '\U{FEFF}'
  }

  predicate IsBlank(s: string) {
    forall i :: 0 <= i < |s| ==> IsJsWhitespace(s[i])
  }

  function LowerChar(c: char): char {
    if 'A' <= c <= 'Z' then (c as int + 32) as char else c
  }

  /** `toLowerCase`, restricted to ASCII letters. */
  function Lower(s: string): (r: string)
    ensures |r| == |s|
    ensures forall i :: 0 <= i < |s| ==> r[i] == LowerChar(s[i])
  {
    seq(|s|, i requires 0 <= i < |s| => LowerChar(s[i]))
  }

  lemma LowerIdempotent(s: string)
    ensures Lower(Lower(s)) == Lower(s)
  {
  }

  /** `s.length`: a code point above U+FFFF is a surrogate pair and counts twice. */
  function Utf16Length(s: string): (n: nat)
    ensures |s| <= n <= 2 * |s|
  {
    if s == [] then 0
    else (if s[0] as int > 0xFFFF then 2 else 1) + Utf16Length(s[1..])
  }

  /** The UTF-16 length of a concatenation is the sum of the parts' lengths. */
  lemma {:induction false} Utf16LengthAppend(a: string, b: string)
    ensures Utf16Length(a + b) == Utf16Length(a) + Utf16Length(b)
    decreases |a|
  {
    if a == [] {
      assert a + b == b;
    } else {
      assert (a + b)[1..] == a[1..] + b;
      Utf16LengthAppend(a[1..], b);
    }
  }

  /** Within the Basic Multilingual Plane every character is one UTF-16 unit. */
  lemma {:induction false} Utf16LengthBmp(s: string)
    requires forall i :: 0 <= i < |s| ==> s[i] as int <= 0xFFFF
    ensures Utf16Length(s) == |s|
    decreases |s|
  {
    if s != [] {
      Utf16LengthBmp(s[1..]);
    }
  }

  /** One character above U+FFFF is a surrogate pair: two units. */
  lemma AstralCharIsTwoUnits(c: char)
    requires c as int > 0xFFFF
    ensures Utf16Length([c]) == 2
  {
    assert [c][1..] == [];
  }

  /** `hay.includes(needle)`: the needle occurs at some position of the haystack. */
  predicate Includes(hay: string, needle: string)
    decreases |hay|
  {
    needle <= hay || (hay != [] && Includes(hay[1..], needle))
  }

  lemma {:induction false} IncludesMiddle(a: string, b: string, c: string)
    ensures Includes(a + b + c, b)
  {
    if a == [] {
      assert a + b + c == b + c;
      assert b <= b + c;
    } else {
      assert (a + b + c)[1..] == a[1..] + b + c;
      IncludesMiddle(a[1..], b, c);
    }
  }

  /** Drops the leading run of white space: the `trimStart` half of `trim`, and what a `\s+` match consumes. */
  function TrimStart(s: string): (r: string)
    ensures |r| <= |s| && r == s[|s| - |r|..]
    ensures r == [] || !IsJsWhitespace(r[0])
  {
    if s == [] || !IsJsWhitespace(s[0]) then s else TrimStart(s[1..])
  }

  function TrimEnd(s: string): (r: string)
    ensures |r| <= |s| && r == s[..|r|]
    ensures r == [] || !IsJsWhitespace(r[|r| - 1])
  {
    if s == [] || !IsJsWhitespace(s[|s| - 1]) then s else TrimEnd(s[..|s| - 1])
  }

  /** `s.trim()`. */
  function Trim(s: string): (r: string)
    ensures |r| <= |s|
    ensures r == [] || (!IsJsWhitespace(r[0]) && !IsJsWhitespace(r[|r| - 1]))
  {
    TrimEnd(TrimStart(s))
  }

  /** `s.trim() === ''` exactly when every character of `s` is white space. */
  lemma TrimEmptyIffBlank(s: string)
    ensures Trim(s) == "" <==> IsBlank(s)
  {
    TrimStartKeepsBlankness(s);
    TrimEndEmptyIffBlank(TrimStart(s));
  }

  lemma {:induction false} TrimStartKeepsBlankness(s: string)
    ensures IsBlank(TrimStart(s)) <==> IsBlank(s)
  {
    if s != [] && IsJsWhitespace(s[0]) {
      TrimStartKeepsBlankness(s[1..]);
      assert IsBlank(s) <==> IsBlank(s[1..]) by {
        if IsBlank(s[1..]) {
          forall i | 0 <= i < |s| ensures IsJsWhitespace(s[i]) {
            if i > 0 { assert s[i] == s[1..][i - 1]; }
          }
        }
      }
    }
  }

  lemma {:induction false} TrimEndEmptyIffBlank(s: string)
    ensures TrimEnd(s) == "" <==> IsBlank(s)
  {
    if s != [] && IsJsWhitespace(s[|s| - 1]) {
      TrimEndEmptyIffBlank(s[..|s| - 1]);
      assert IsBlank(s) <==> IsBlank(s[..|s| - 1]) by {
        if IsBlank(s[..|s| - 1]) {
          forall i | 0 <= i < |s| ensures IsJsWhitespace(s[i]) {
            if i < |s| - 1 { assert s[i] == s[..|s| - 1][i]; }
          }
        }
      }
    }
  }

  /** `s.replace(/\s+/g, '-')`: every maximal run of white space becomes one dash. */
  function DashWhitespaceRuns(s: string): (r: string)
    ensures forall i :: 0 <= i < |r| ==> !IsJsWhitespace(r[i])
    decreases |s|
  {
    if s == [] then []
    else if IsJsWhitespace(s[0]) then "-" + DashWhitespaceRuns(TrimStart(s[1..]))
    else [s[0]] + DashWhitespaceRuns(s[1..])
  }

  /** The result is no longer than the input, and each of its characters is a dash or a character of the input. */
  lemma {:induction false} DashWhitespaceRunsFromInput(s: string)
    ensures |DashWhitespaceRuns(s)| <= |s|
    ensures forall i :: 0 <= i < |DashWhitespaceRuns(s)| ==> DashWhitespaceRuns(s)[i] == '-' || DashWhitespaceRuns(s)[i] in s
    decreases |s|
  {
    if s != [] {
      if IsJsWhitespace(s[0]) {
        var t := TrimStart(s[1..]);
        DashWhitespaceRunsFromInput(t);
        assert forall c :: c in t ==> c in s;
      } else {
        DashWhitespaceRunsFromInput(s[1..]);
        assert forall c :: c in s[1..] ==> c in s;
      }
    }
  }

  /** Text without white space passes through unchanged. */
  lemma {:induction false} DashWhitespaceRunsIdentity(s: string)
    requires forall i :: 0 <= i < |s| ==> !IsJsWhitespace(s[i])
    ensures DashWhitespaceRuns(s) == s
  {
    if s != [] {
      DashWhitespaceRunsIdentity(s[1..]);
    }
  }

  /** A run of white space between two words becomes exactly one dash. */
  lemma {:induction false} DashWhitespaceRunsJoin(a: string, w: string, b: string)
    requires forall i :: 0 <= i < |a| ==> !IsJsWhitespace(a[i])
    requires w != [] && IsBlank(w)
    requires b == [] || !IsJsWhitespace(b[0])
    ensures DashWhitespaceRuns(a + w + b) == a + "-" + DashWhitespaceRuns(b)
  {
    if a == [] {
      assert a + w + b == w + b;
      SkipBlankPrefix(w[1..], b);
      assert (w + b)[1..] == w[1..] + b;
    } else {
      assert (a + w + b)[1..] == a[1..] + w + b;
      DashWhitespaceRunsJoin(a[1..], w, b);
    }
  }

  lemma {:induction false} SkipBlankPrefix(w: string, b: string)
    requires IsBlank(w)
    requires b == [] || !IsJsWhitespace(b[0])
    ensures TrimStart(w + b) == b
  {
    if w != [] {
      assert (w + b)[1..] == w[1..] + b;
      SkipBlankPrefix(w[1..], b);
    } else {
      assert w + b == b;
    }
  }

  /** `parts.join(sep)`. */
  function Join(parts: seq<string>, sep: string): (r: string)
    ensures parts == [] ==> r == ""
    ensures |parts| == 1 ==> r == parts[0]
    ensures |parts| >= 1 ==> |r| >= |parts[0]| && r[..|parts[0]|] == parts[0]
  {
    if parts == [] then ""
    else if |parts| == 1 then parts[0]
    else parts[0] + sep + Join(parts[1..], sep)
  }
}
