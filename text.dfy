/** ASCII view of the Python string operations the plate checker uses:
    `str.isspace`/`str.strip`, `str.lower`, `str.isalnum` and the code-point
    ordering of `str` comparison. */
module Text {

  /** `str.isspace` restricted to ASCII: space, `\t \n \v \f \r` and the
      separators `\x1c`..`\x1f`. */
  predicate IsSpace(c: char) {
    c == ' ' || '\t' <= c <= '\r' || '\U{1C}' <= c <= '\U{1F}'
  }

  predicate IsUpper(c: char) {
    'A' <= c <= 'Z'
  }

  predicate IsAlnumChar(c: char) {
    'a' <= c <= 'z' || 'A' <= c <= 'Z' || '0' <= c <= '9'
  }

  /** `str.isalnum`: non-empty and every character a letter or digit. */
  predicate IsAlnum(s: string) {
    |s| > 0 && forall k :: 0 <= k < |s| ==> IsAlnumChar(s[k])
  }

  /** No upper-case letter: what `str.lower` produces. */
  predicate IsLowerCase(s: string) {
    forall k :: 0 <= k < |s| ==> !IsUpper(s[k])
  }

  function LowerChar(c: char): (d: char)
    ensures !IsUpper(d)
    ensures IsAlnumChar(c) <==> IsAlnumChar(d)
    ensures IsSpace(c) <==> IsSpace(d)
  {
    if IsUpper(c) then (c as int + 32) as char else c
  }

  /** `str.lower` on ASCII. */
  function Lower(s: string): (r: string)
    ensures |r| == |s|
    ensures forall k :: 0 <= k < |s| ==> r[k] == LowerChar(s[k])
    ensures IsLowerCase(r)
    ensures IsAlnum(s) <==> IsAlnum(r)
  {
    seq(|s|, k requires 0 <= k < |s| => LowerChar(s[k]))
  }

  /** Drops leading whitespace (`str.lstrip()`). */
  function TrimLeft(s: string): (r: string)
    ensures |r| <= |s| && r == s[|s| - |r|..]
    ensures forall k :: 0 <= k < |s| - |r| ==> IsSpace(s[k])
    ensures r == [] || !IsSpace(r[0])
    decreases |s|
  {
    if |s| > 0 && IsSpace(s[0]) then TrimLeft(s[1..]) else s
  }

  /** Drops trailing whitespace (`str.rstrip()`). */
  function TrimRight(s: string): (r: string)
    ensures |r| <= |s| && r == s[..|r|]
    ensures forall k :: |r| <= k < |s| ==> IsSpace(s[k])
    ensures r == [] || !IsSpace(r[|r| - 1])
    decreases |s|
  {
    if |s| > 0 && IsSpace(s[|s| - 1]) then TrimRight(s[..|s| - 1]) else s
  }

  /** `r` is the infix of `s` left after cutting whitespace-only ends. */
  ghost predicate CutFrom(r: string, s: string) {
    exists i, j :: 0 <= i <= j <= |s| && r == s[i..j]
      && (forall k :: 0 <= k < i ==> IsSpace(s[k]))
      && (forall k :: j <= k < |s| ==> IsSpace(s[k]))
  }

  /** `str.strip()` with no argument. */
  function Strip(s: string): (r: string)
    ensures |r| <= |s|
    ensures r == [] || (!IsSpace(r[0]) && !IsSpace(r[|r| - 1]))
  {
    TrimRight(TrimLeft(s))
  }

  /** Strip cuts only whitespace, and only from the two ends. */
  lemma StripCut(s: string)
    ensures CutFrom(Strip(s), s)
  {
    var l := TrimLeft(s);
    var r := TrimRight(l);
    var i := |s| - |l|;
    var j := i + |r|;
    assert r == s[i..j];
    assert forall k :: j <= k < |s| ==> s[k] == l[k - i];
  }

  /** A string whose ends are not whitespace is its own strip. */
  lemma {:induction false} StripFixed(s: string)
    requires s == [] || (!IsSpace(s[0]) && !IsSpace(s[|s| - 1]))
    ensures Strip(s) == s
  {
    var l := TrimLeft(s);
    if |l| < |s| {
      assert IsSpace(s[0]);
    }
    assert l == s;
  }

  /** An alphanumeric string has nothing to strip. */
  lemma AlnumStripped(s: string)
    requires IsAlnum(s)
    ensures Strip(s) == s
  {
    assert IsAlnumChar(s[0]) && IsAlnumChar(s[|s| - 1]);
    StripFixed(s);
  }

  /** Python's `str` ordering: by code points, a proper prefix first. */
  predicate LexLe(a: string, b: string)
    decreases |a|
  {
    |a| == 0 || (|b| > 0 && (a[0] < b[0] || (a[0] == b[0] && LexLe(a[1..], b[1..]))))
  }

  lemma {:induction false} LexLeRefl(a: string)
    ensures LexLe(a, a)
    decreases |a|
  {
    if |a| > 0 {
      LexLeRefl(a[1..]);
    }
  }

  lemma {:induction false} LexLeTotal(a: string, b: string)
    ensures LexLe(a, b) || LexLe(b, a)
    decreases |a|
  {
    if |a| > 0 && |b| > 0 && a[0] == b[0] {
      LexLeTotal(a[1..], b[1..]);
    }
  }

  lemma {:induction false} LexLeTrans(a: string, b: string, c: string)
    requires LexLe(a, b) && LexLe(b, c)
    ensures LexLe(a, c)
    decreases |a|
  {
    if |a| > 0 && a[0] == b[0] && b[0] == c[0] {
      LexLeTrans(a[1..], b[1..], c[1..]);
    }
  }

  lemma {:induction false} LexLeAntisym(a: string, b: string)
    requires LexLe(a, b) && LexLe(b, a)
    ensures a == b
    decreases |a|
  {
    if |a| > 0 {
      LexLeAntisym(a[1..], b[1..]);
      assert a == [a[0]] + a[1..] && b == [b[0]] + b[1..];
    }
  }
}
