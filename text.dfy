/** The string primitives the pages rely on: the digit filter
    `replace(/[^\d]/g, '')`, `toLowerCase`, `trim` and `includes`. */
module Text {
  import opened Seqs

  /** `\d` in a JavaScript regular expression without the `u` flag: the ASCII digits. */
  predicate IsDigit(c: char) {
    '0' <= c <= '9'
  }

  predicate AllDigits(s: string) {
    forall i :: 0 <= i < |s| ==> IsDigit(s[i])
  }

  /** `s.replace(/[^\d]/g, '')`: the digits of `s`, in order. */
  function Digits(s: string): (r: string)
    ensures AllDigits(r)
    ensures |r| <= |s|
  {
    if s == [] then []
    else if IsDigit(s[0]) then [s[0]] + Digits(s[1..])
    else Digits(s[1..])
  }

  /** The digit filter is `Filter` with `IsDigit`: every digit of the input
      is kept, in order and with every copy, and nothing else. */
  lemma {:induction false} DigitsIsFilter(s: string)
    ensures Digits(s) == Filter(s, IsDigit)
  {
    if s != [] {
      DigitsIsFilter(s[1..]);
    }
  }

  lemma {:induction false} DigitsAppend(a: string, b: string)
    ensures Digits(a + b) == Digits(a) + Digits(b)
  {
    if a == [] {
      assert a + b == b;
    } else {
      assert (a + b)[0] == a[0];
      assert (a + b)[1..] == a[1..] + b;
      DigitsAppend(a[1..], b);
    }
  }

  /** Removing the non-digits from a string of digits changes nothing. */
  lemma {:induction false} DigitsOfDigits(s: string)
    requires AllDigits(s)
    ensures Digits(s) == s
  {
    if s != [] {
      DigitsOfDigits(s[1..]);
    }
  }

  /** Removing the non-digits skips a hyphen. */
  lemma DigitsOfHyphen()
    ensures Digits("-") == []
  {
  }

  /** `toLowerCase`, restricted to the ASCII letters. */
  function LowerChar(c: char): (r: char)
    ensures 'A' <= c <= 'Z' ==> r as int == c as int + 32
    ensures !('A' <= c <= 'Z') ==> r == c
  {
    if 'A' <= c <= 'Z' then (c as int + 32) as char else c
  }

  function ToLower(s: string): (r: string)
    ensures |r| == |s|
    ensures forall i :: 0 <= i < |s| ==> r[i] == LowerChar(s[i])
  {
    seq(|s|, i requires 0 <= i < |s| => LowerChar(s[i]))
  }

  /** The characters `String.prototype.trim` strips: ECMAScript's WhiteSpace
      (tab, vertical tab, form feed, space, no-break space, byte order mark
      and the Unicode space separators) and LineTerminator code points. */
  predicate IsWhitespace(c: char) {
    c == '\t' || c == '\n' || c == '\U{000B}' || c == '\U{000C}' || c == '\r'
    || c == ' ' || c == '\U{00A0}' || c == '\U{1680}'
    || ('\U{2000}' <= c <= '\U{200A}')
    || c == '\U{2028}' || c == '\U{2029}' || c == '\U{202F}' || c == '\U{205F}'
    || c == '\U{3000}' || c == '\U{FEFF}'
  }

  function TrimStart(s: string): (r: string)
    ensures |r| <= |s|
    ensures r == s[|s| - |r|..]
    ensures r != [] ==> !IsWhitespace(r[0])
  {
    if s != [] && IsWhitespace(s[0]) then TrimStart(s[1..]) else s
  }

  function TrimEnd(s: string): (r: string)
    ensures |r| <= |s|
    ensures r == s[..|r|]
    ensures r != [] ==> !IsWhitespace(r[|r| - 1])
  {
    if s != [] && IsWhitespace(s[|s| - 1]) then TrimEnd(s[..|s| - 1]) else s
  }

  /** `s.trim()`: a piece of `s` that neither starts nor ends with white space. */
  function Trim(s: string): (r: string)
    ensures |r| <= |s|
    ensures Contains(s, r)
    ensures r != [] ==> !IsWhitespace(r[0]) && !IsWhitespace(r[|r| - 1])
  {
    var t := TrimStart(s);
    var r := TrimEnd(t);
    assert OccursAt(s, r, |s| - |t|);
    r
  }

  /** A string trims to nothing exactly when every character of it is whitespace. */
  lemma {:induction false} TrimEmptyIff(s: string)
    ensures Trim(s) == [] <==> forall i :: 0 <= i < |s| ==> IsWhitespace(s[i])
  {
    TrimStartEmptyIff(s);
    var t := TrimStart(s);
    if t != [] {
      assert !IsWhitespace(t[0]);
      TrimEndKeepsNonBlank(t);
      assert !IsWhitespace(s[|s| - |t|]);
    }
  }

  lemma {:induction false} TrimStartEmptyIff(s: string)
    ensures TrimStart(s) == [] <==> forall i :: 0 <= i < |s| ==> IsWhitespace(s[i])
  {
    if s != [] && IsWhitespace(s[0]) {
      TrimStartEmptyIff(s[1..]);
      assert forall i :: 1 <= i < |s| ==> s[i] == s[1..][i - 1];
    }
  }

  lemma TrimEndKeepsNonBlank(t: string)
    requires t != [] && !IsWhitespace(t[0])
    ensures TrimEnd(t) != []
  {
  }

  /** `t` occurs in `s` at position `i`. */
  predicate OccursAt(s: string, t: string, i: int) {
    0 <= i && i + |t| <= |s| && s[i..i + |t|] == t
  }

  /** `s.includes(t)`. */
  predicate Contains(s: string, t: string)
    ensures Contains(s, t) ==> |t| <= |s|
    ensures t == [] ==> Contains(s, t)
  {
    assert t == [] ==> OccursAt(s, t, 0);
    exists i :: 0 <= i <= |s| - |t| && OccursAt(s, t, i)
  }

  lemma ContainsEmpty(s: string)
    ensures Contains(s, "")
  {
    assert OccursAt(s, "", 0);
  }

  /** Containment is transitive: what a substring contains, the string contains. */
  lemma ContainsTransitive(s: string, t: string, u: string)
    requires Contains(s, t) && Contains(t, u)
    ensures Contains(s, u)
  {
    var i :| 0 <= i <= |s| - |t| && OccursAt(s, t, i);
    var j :| 0 <= j <= |t| - |u| && OccursAt(t, u, j);
    forall k | 0 <= k < |u|
      ensures s[i + j + k] == u[k]
    {
      assert u[k] == t[j + k];
      assert t[j + k] == s[i + j + k];
    }
    assert s[i + j..i + j + |u|] == u;
    assert OccursAt(s, u, i + j);
  }

  /** Lower-casing a string lower-cases each of its substrings. */
  lemma ContainsLower(s: string, t: string)
    requires Contains(s, t)
    ensures Contains(ToLower(s), ToLower(t))
  {
    var i :| 0 <= i <= |s| - |t| && OccursAt(s, t, i);
    assert ToLower(s)[i..i + |t|] == ToLower(t);
    assert OccursAt(ToLower(s), ToLower(t), i);
  }

  /** A string contains every piece of itself. */
  lemma ContainsPiece(pre: string, t: string, post: string)
    ensures Contains(pre + t + post, t)
  {
    assert (pre + t + post)[|pre|..|pre| + |t|] == t;
    assert OccursAt(pre + t + post, t, |pre|);
  }
}
