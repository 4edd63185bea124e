/**
 * String primitives of Python that the tool relies on, written out on
 * `seq<char>`: `str.strip()`, the `in` substring test, `startswith` and
 * `endswith`, the ASCII identifier class `[A-Za-z0-9_]`, code-point order of
 * `sorted()` on strings, `str.upper()` and `str()` of a non-negative int.
 */
module Text {

  /** The characters for which Python's `str.isspace()` holds; `strip()` removes exactly these. */
  predicate IsSpace(c: char) {
    c == ' ' || ('\t' <= c <= '\r') || ('\U{1c}' <= c <= '\U{1f}') || c == '\U{85}' || c == '\U{a0}'
    || c == '\U{1680}' || ('\U{2000}' <= c <= '\U{200a}') || c == '\U{2028}' || c == '\U{2029}'
    || c == '\U{202f}' || c == '\U{205f}' || c == '\U{3000}'
  }

  predicate AllSpace(s: string) {
    forall k :: 0 <= k < |s| ==> IsSpace(s[k])
  }

  /** `s.lstrip()`: the longest suffix of `s` that does not start with whitespace. */
  function LStrip(s: string): (r: string)
    ensures |r| <= |s| && r == s[|s| - |r|..]
    ensures forall k :: 0 <= k < |s| - |r| ==> IsSpace(s[k])
    ensures r == [] || !IsSpace(r[0])
  {
    if |s| > 0 && IsSpace(s[0]) then LStrip(s[1..]) else s
  }

  /** `s.rstrip()`: the longest prefix of `s` that does not end with whitespace. */
  function RStrip(s: string): (r: string)
    ensures |r| <= |s| && r == s[..|r|]
    ensures forall k :: |r| <= k < |s| ==> IsSpace(s[k])
    ensures r == [] || !IsSpace(r[|r| - 1])
  {
    if |s| > 0 && IsSpace(s[|s| - 1]) then RStrip(s[..|s| - 1]) else s
  }

  /** `s.strip()`. */
  function Strip(s: string): string {
    RStrip(LStrip(s))
  }

  /** `lstrip()` removes a whitespace prefix and stops at the first other character. */
  lemma {:induction false} LStripOf(pre: string, rest: string)
    requires AllSpace(pre)
    requires rest == [] || !IsSpace(rest[0])
    ensures LStrip(pre + rest) == rest
    decreases |pre|
  {
    if pre == [] {
      assert pre + rest == rest;
    } else {
      assert (pre + rest)[1..] == pre[1..] + rest;
      LStripOf(pre[1..], rest);
    }
  }

  /** `rstrip()` removes a whitespace suffix and stops at the last other character. */
  lemma {:induction false} RStripOf(rest: string, post: string)
    requires AllSpace(post)
    requires rest == [] || !IsSpace(rest[|rest| - 1])
    ensures RStrip(rest + post) == rest
    decreases |post|
  {
    if post == [] {
      assert rest + post == rest;
    } else {
      var s := rest + post;
      assert s[..|s| - 1] == rest + post[..|post| - 1];
      RStripOf(rest, post[..|post| - 1]);
    }
  }

  /** Whitespace around a text that neither starts nor ends with whitespace is exactly what `strip()` removes. */
  lemma StripExact(pre: string, mid: string, post: string)
    requires AllSpace(pre) && AllSpace(post)
    requires mid == [] || (!IsSpace(mid[0]) && !IsSpace(mid[|mid| - 1]))
    ensures Strip(pre + mid + post) == mid
  {
    if mid == [] {
      assert pre + mid + post == (pre + post) + [];
      LStripOf(pre + post, []);
    } else {
      assert pre + mid + post == pre + (mid + post);
      LStripOf(pre, mid + post);
      RStripOf(mid, post);
    }
  }

  /** A text whose first and last characters are not whitespace is left alone by `strip()`. */
  lemma StripNoop(s: string)
    requires s == [] || (!IsSpace(s[0]) && !IsSpace(s[|s| - 1]))
    ensures Strip(s) == s
  {
    StripExact([], s, []);
    assert [] + s + [] == s;
  }

  /** `t` occurs in `s` starting at index `i`. */
  predicate OccursAt(s: string, t: string, i: int) {
    0 <= i && i + |t| <= |s| && s[i..i + |t|] == t
  }

  /** Python's `t in s` for strings. */
  predicate Contains(s: string, t: string)
    decreases |s|
  {
    StartsWith(s, t) || (|s| > 0 && Contains(s[1..], t))
  }

  /** An occurrence at some index makes `t in s` true. */
  lemma {:induction false} OccursContains(s: string, t: string, i: int)
    requires OccursAt(s, t, i)
    ensures Contains(s, t)
    decreases i
  {
    if i == 0 {
      assert s[..|t|] == t;
    } else {
      assert s[1..][i - 1..i - 1 + |t|] == s[i..i + |t|];
      OccursContains(s[1..], t, i - 1);
    }
  }

  /** `t in s` has a witnessing index. */
  lemma {:induction false} ContainsWitness(s: string, t: string) returns (i: int)
    requires Contains(s, t)
    ensures OccursAt(s, t, i)
    decreases |s|
  {
    if StartsWith(s, t) {
      i := 0;
    } else {
      var j := ContainsWitness(s[1..], t);
      assert s[1..][j..j + |t|] == s[j + 1..j + 1 + |t|];
      i := j + 1;
    }
  }

  predicate StartsWith(s: string, p: string) {
    |p| <= |s| && s[..|p|] == p
  }

  predicate EndsWith(s: string, p: string) {
    |p| <= |s| && s[|s| - |p|..] == p
  }

  /** Python's `s[:n]` for `n >= 0`. */
  function Take(s: string, n: nat): (r: string)
    ensures |r| <= n && StartsWith(s, r)
    ensures |s| >= n ==> |r| == n
  {
    if |s| <= n then s else s[..n]
  }

  /** An occurrence inside a slice of `s` is an occurrence in `s`. */
  lemma ContainsWithin(s: string, a: int, b: int, t: string)
    requires 0 <= a <= b <= |s|
    requires Contains(s[a..b], t)
    ensures Contains(s, t)
  {
    var i := ContainsWitness(s[a..b], t);
    forall k | 0 <= k < |t| ensures s[a + i + k] == t[k] {
      assert s[a..b][i..i + |t|][k] == s[a + i + k];
    }
    assert s[a + i..a + i + |t|] == t;
    OccursContains(s, t, a + i);
  }

  /** A prefix of `s` is contained in `s`. */
  lemma StartsWithContains(s: string, p: string)
    requires StartsWith(s, p)
    ensures Contains(s, p)
  {
  }

  /** The characters of a prefix are the leading characters of the text. */
  lemma StartsWithAt(s: string, p: string, i: int)
    requires StartsWith(s, p) && 0 <= i < |p|
    ensures s[i] == p[i]
  {
    assert s[..|p|][i] == s[i];
  }

  /** A character of a prefix is the character of the text, when the text has that prefix. */
  lemma PrefixChar(c: string, p: string, j: int)
    requires 0 <= j < |p|
    ensures StartsWith(c, p) ==> c[j] == p[j]
  {
    if StartsWith(c, p) {
      StartsWithAt(c, p, j);
    }
  }

  /** An occurrence in the left part of a concatenation. */
  lemma OccursInLeft(a: string, b: string, t: string, i: int)
    requires OccursAt(a, t, i)
    ensures OccursAt(a + b, t, i)
  {
    assert (a + b)[i..i + |t|] == a[i..i + |t|];
  }

  /** An occurrence in the right part of a concatenation, shifted by the left part. */
  lemma OccursInRight(a: string, b: string, t: string, i: int)
    requires OccursAt(b, t, i)
    ensures OccursAt(a + b, t, |a| + i)
  {
    assert (a + b)[|a| + i..|a| + i + |t|] == b[i..i + |t|];
  }

  /** A suffix of the right part is a suffix of the concatenation. */
  lemma EndsWithConcat(a: string, b: string, t: string)
    requires EndsWith(b, t)
    ensures EndsWith(a + b, t)
  {
    assert (a + b)[|a + b| - |t|..] == b[|b| - |t|..];
  }

  /** A prefix of the left part is a prefix of the concatenation. */
  lemma StartsWithConcat(a: string, b: string, t: string)
    requires StartsWith(a, t)
    ensures StartsWith(a + b, t)
  {
    assert (a + b)[..|t|] == a[..|t|];
  }

  /** A text shorter than `t` cannot contain it. */
  lemma {:induction false} ShortNotContains(s: string, t: string)
    requires |s| < |t|
    ensures !Contains(s, t)
    decreases |s|
  {
    if |s| > 0 {
      ShortNotContains(s[1..], t);
    }
  }

  /** A text lacking one of the characters of `t` cannot contain `t`. */
  lemma {:induction false} MissingCharNotContains(s: string, t: string, j: int)
    requires 0 <= j < |t|
    requires forall k :: 0 <= k < |s| ==> s[k] != t[j]
    ensures !Contains(s, t)
    decreases |s|
  {
    PrefixChar(s, t, j);
    if |s| > 0 {
      MissingCharNotContains(s[1..], t, j);
    }
  }

  /** Contents of an occurrence of `t` in `s` are characters of `s`. */
  lemma OccursAtChar(s: string, t: string, i: int, k: int)
    requires OccursAt(s, t, i) && 0 <= k < |t|
    ensures s[i + k] == t[k]
  {
    assert s[i..i + |t|][k] == s[i + k];
  }

  /** `[A-Za-z0-9_]`, the class of Python's regex in the original with no `re.ASCII`-sensitive letters. */
  predicate IsIdentChar(c: char) {
    ('A' <= c <= 'Z') || ('a' <= c <= 'z') || ('0' <= c <= '9') || c == '_'
  }

  /** `c.isupper()` restricted to identifier characters, where it means `A`-`Z`. */
  predicate IsUpper(c: char) {
    'A' <= c <= 'Z'
  }

  /** Length of the longest prefix of `s` made of identifier characters. */
  function IdentRun(s: string): (k: nat)
    ensures k <= |s|
    ensures forall j :: 0 <= j < k ==> IsIdentChar(s[j])
    ensures k == |s| || !IsIdentChar(s[k])
  {
    if |s| > 0 && IsIdentChar(s[0]) then 1 + IdentRun(s[1..]) else 0
  }

  /** The maximal identifier run is determined by where the first non-identifier character stands. */
  lemma IdentRunAt(s: string, k: nat)
    requires k <= |s|
    requires forall j :: 0 <= j < k ==> IsIdentChar(s[j])
    requires k == |s| || !IsIdentChar(s[k])
    ensures IdentRun(s) == k
  {
  }

  // ---- code-point order of strings (Python's `<` on `str`, used by `sorted`) ----

  /** `a < b` in Python: lexicographic by code point, a proper prefix being smaller. */
  predicate Less(a: string, b: string)
    decreases |a|
  {
    if |a| == 0 then |b| > 0
    else if |b| == 0 then false
    else if a[0] < b[0] then true
    else if a[0] == b[0] then Less(a[1..], b[1..])
    else false
  }

  lemma {:induction false} LessIrreflexive(a: string)
    ensures !Less(a, a)
    decreases |a|
  {
    if |a| > 0 { LessIrreflexive(a[1..]); }
  }

  lemma {:induction false} LessTransitive(a: string, b: string, c: string)
    requires Less(a, b) && Less(b, c)
    ensures Less(a, c)
    decreases |a|
  {
    if |a| > 0 && a[0] == b[0] && b[0] == c[0] {
      LessTransitive(a[1..], b[1..], c[1..]);
    }
  }

  lemma {:induction false} LessTotal(a: string, b: string)
    requires a != b
    ensures Less(a, b) || Less(b, a)
    decreases |a|
  {
    if |a| > 0 && |b| > 0 && a[0] == b[0] {
      assert a == [a[0]] + a[1..] && b == [b[0]] + b[1..];
      LessTotal(a[1..], b[1..]);
    }
  }

  lemma LessAsymmetric(a: string, b: string)
    requires Less(a, b)
    ensures !Less(b, a)
  {
    if Less(b, a) {
      LessTransitive(a, b, a);
      LessIrreflexive(a);
    }
  }

  // ---- str.upper() and str(int) ----

  /** `c.upper()` for a character whose upper-case form is one character (ASCII letters). */
  function UpperChar(c: char): (u: char)
    ensures 'a' <= c <= 'z' ==> 'A' <= u <= 'Z' && u as int - c as int == 'A' as int - 'a' as int
    ensures !('a' <= c <= 'z') ==> u == c
  {
    if 'a' <= c <= 'z' then (c as int - 'a' as int + 'A' as int) as char else c
  }

  /** `s.upper()` on ASCII letters; every other character is kept. */
  function Upper(s: string): (r: string)
    ensures |r| == |s|
    ensures forall k :: 0 <= k < |s| ==> r[k] == UpperChar(s[k])
  {
    if s == [] then [] else [UpperChar(s[0])] + Upper(s[1..])
  }

  function DigitChar(d: nat): (c: char)
    requires d < 10
    ensures '0' <= c <= '9'
  {
    ('0' as int + d) as char
  }

  /** `str(n)` for a non-negative int: its decimal digits without leading zeros. */
  function Decimal(n: nat): (r: string)
    ensures |r| >= 1 && (forall k :: 0 <= k < |r| ==> '0' <= r[k] <= '9')
    ensures |r| > 1 ==> r[0] != '0'
    ensures DigitsValue(r) == n
  {
    if n < 10 then [DigitChar(n)] else Decimal(n / 10) + [DigitChar(n % 10)]
  }

  /** The number a string of decimal digits denotes. */
  function DigitsValue(s: string): int
  {
    if s == [] then 0 else DigitsValue(s[..|s| - 1]) * 10 + (s[|s| - 1] as int - '0' as int)
  }
}
