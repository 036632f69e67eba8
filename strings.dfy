/** String primitives with JavaScript's semantics, on `seq<char>`. */
module Strings {
  import opened Wrappers

  /** The code points JavaScript's `trim()` and the regex class `\s` treat as white space
      (WhiteSpace and LineTerminator). */
  predicate IsSpace(c: char) {
    c == ' ' || c == '\t' || c == '\n' || c == '\r' || c == '\U{B}' || c == '\U{C}'
    || c == '\U{A0}' || c == '\U{1680}' || ('\U{2000}' <= c <= '\U{200A}')
    || c == '\U{2028}' || c == '\U{2029}' || c == '\U{202F}' || c == '\U{205F}'
    || c == '\U{3000}' || c == '\U{FEFF}'
  }

  predicate AllSpace(s: string) {
    forall i :: 0 <= i < |s| ==> IsSpace(s[i])
  }

  /** `s.trimStart()`: the suffix left after dropping leading white space. */
  function TrimStart(s: string): (r: string)
    ensures |r| <= |s| && r == s[|s| - |r|..]
    ensures AllSpace(s[..|s| - |r|])
    ensures r == [] || !IsSpace(r[0])
    decreases |s|
  {
    if s != [] && IsSpace(s[0]) then
      var r := TrimStart(s[1..]);
      var dropped := s[..|s| - |r|];
      assert AllSpace(dropped) by {
        forall i | 0 <= i < |dropped| ensures IsSpace(dropped[i]) {
          if i > 0 { assert dropped[i] == s[1..][..|s| - 1 - |r|][i - 1]; }
        }
      }
      r
    else s
  }

  /** `s.trimEnd()`: the prefix left after dropping trailing white space. */
  function TrimEnd(s: string): (r: string)
    ensures |r| <= |s| && r == s[..|r|]
    ensures AllSpace(s[|r|..])
    ensures r == [] || !IsSpace(r[|r| - 1])
    decreases |s|
  {
    if s != [] && IsSpace(s[|s| - 1]) then
      var r := TrimEnd(s[..|s| - 1]);
      assert AllSpace(s[|r|..]) by {
        forall i | 0 <= i < |s| - |r| ensures IsSpace(s[|r|..][i]) {
          if i < |s| - 1 - |r| { assert s[|r|..][i] == s[..|s| - 1][|r|..][i]; }
        }
      }
      r
    else s
  }

  /** `s.trim()`. */
  function Trim(s: string): string {
    TrimEnd(TrimStart(s))
  }

  lemma {:induction false} TrimStartOfSpaces(s: string)
    requires AllSpace(s)
    ensures TrimStart(s) == []
    decreases |s|
  {
    if s != [] {
      assert AllSpace(s[1..]) by { forall i | 0 <= i < |s| - 1 ensures IsSpace(s[1..][i]) { assert s[1..][i] == s[i + 1]; } }
      TrimStartOfSpaces(s[1..]);
    }
  }

  /** Whitespace-only strings (including the empty one) trim to the empty string, and no
      other string does: this is what `!s.trim()` tests. */
  lemma {:induction false} TrimEmptyIffBlank(s: string)
    ensures Trim(s) == [] <==> AllSpace(s)
  {
    var t := TrimStart(s);
    if Trim(s) == [] {
      assert t == [] by { assert AllSpace(t[..|t|]); }
      forall i | 0 <= i < |s| ensures IsSpace(s[i]) {
        assert s[i] == s[..|s| - |t|][i];
      }
    }
    if AllSpace(s) {
      TrimStartOfSpaces(s);
    }
  }

  lemma {:induction false} TrimStartOfSpacePrefix(pre: string, x: string)
    requires AllSpace(pre)
    ensures TrimStart(pre + x) == TrimStart(x)
    decreases |pre|
  {
    if pre != [] {
      assert (pre + x)[1..] == pre[1..] + x;
      assert AllSpace(pre[1..]) by { forall i | 0 <= i < |pre| - 1 ensures IsSpace(pre[1..][i]) { assert pre[1..][i] == pre[i + 1]; } }
      TrimStartOfSpacePrefix(pre[1..], x);
    } else {
      assert pre + x == x;
    }
  }

  lemma {:induction false} TrimEndOfSpaceSuffix(x: string, post: string)
    requires AllSpace(post)
    ensures TrimEnd(x + post) == TrimEnd(x)
    decreases |post|
  {
    if post != [] {
      var p := post[..|post| - 1];
      assert (x + post)[..|x + post| - 1] == x + p;
      assert (x + post)[|x + post| - 1] == post[|post| - 1];
      assert AllSpace(p) by { forall i | 0 <= i < |p| ensures IsSpace(p[i]) { assert p[i] == post[i]; } }
      TrimEndOfSpaceSuffix(x, p);
    } else {
      assert x + post == x;
    }
  }

  lemma {:induction false} TrimStartBeforeSpaces(body: string, post: string)
    requires AllSpace(post) && !AllSpace(body)
    ensures TrimStart(body + post) == TrimStart(body) + post
    decreases |body|
  {
    assert body != [];
    if IsSpace(body[0]) {
      assert (body + post)[1..] == body[1..] + post;
      assert !AllSpace(body[1..]) by {
        var i :| 0 <= i < |body| && !IsSpace(body[i]);
        assert i > 0 && body[1..][i - 1] == body[i];
      }
      TrimStartBeforeSpaces(body[1..], post);
    } else {
      assert (body + post)[0] == body[0];
    }
  }

  /** Trimming ignores white space added around a string. */
  lemma {:induction false} TrimOfPadded(pre: string, body: string, post: string)
    requires AllSpace(pre) && AllSpace(post)
    ensures Trim(pre + body + post) == Trim(body)
  {
    assert pre + body + post == pre + (body + post);
    TrimStartOfSpacePrefix(pre, body + post);
    if AllSpace(body) {
      assert AllSpace(body + post) by {
        forall i | 0 <= i < |body + post| ensures IsSpace((body + post)[i]) {
          if i < |body| { assert (body + post)[i] == body[i]; } else { assert (body + post)[i] == post[i - |body|]; }
        }
      }
      TrimStartOfSpaces(body + post);
      TrimStartOfSpaces(body);
    } else {
      TrimStartBeforeSpaces(body, post);
      TrimEndOfSpaceSuffix(TrimStart(body), post);
    }
  }

  /** ASCII-only upper and lower case. */
  function UpperChar(c: char): char {
    if 'a' <= c <= 'z' then (c as int - 32) as char else c
  }

  function LowerChar(c: char): char {
    if 'A' <= c <= 'Z' then (c as int + 32) as char else c
  }

  function ToUpper(s: string): (r: string)
    ensures |r| == |s| && forall i :: 0 <= i < |s| ==> r[i] == UpperChar(s[i])
  {
    seq(|s|, i requires 0 <= i < |s| => UpperChar(s[i]))
  }

  function ToLower(s: string): (r: string)
    ensures |r| == |s| && forall i :: 0 <= i < |s| ==> r[i] == LowerChar(s[i])
  {
    seq(|s|, i requires 0 <= i < |s| => LowerChar(s[i]))
  }

  /** Text with no lower-case ASCII letter is its own upper case. */
  lemma UpperOfUpper(s: string)
    requires forall i :: 0 <= i < |s| ==> !('a' <= s[i] <= 'z')
    ensures ToUpper(s) == s
  {
    assert forall i :: 0 <= i < |s| ==> ToUpper(s)[i] == s[i];
  }

  predicate StartsWith(s: string, prefix: string) {
    |prefix| <= |s| && s[..|prefix|] == prefix
  }

  /** `s.split(c)` for a one-character separator: always at least one part, and no part
      contains the separator. */
  function SplitOn(s: string, c: char): (parts: seq<string>)
    ensures |parts| >= 1
    ensures forall k :: 0 <= k < |parts| ==> c !in parts[k]
    decreases |s|
  {
    if s == [] then [[]]
    else
      var rest := SplitOn(s[1..], c);
      if s[0] == c then [[]] + rest
      else [[s[0]] + rest[0]] + rest[1..]
  }

  /** `parts.join(c)` for a one-character separator. */
  function JoinWith(parts: seq<string>, c: char): string
    decreases |parts|
  {
    if |parts| == 0 then []
    else if |parts| == 1 then parts[0]
    else parts[0] + [c] + JoinWith(parts[1..], c)
  }

  /** Joining what was split gives back the original text. */
  lemma {:induction false} JoinSplit(s: string, c: char)
    ensures JoinWith(SplitOn(s, c), c) == s
    decreases |s|
  {
    if s != [] {
      var rest := SplitOn(s[1..], c);
      JoinSplit(s[1..], c);
      if s[0] == c {
        assert SplitOn(s, c) == [[]] + rest;
        assert ([[]] + rest)[1..] == rest;
      } else {
        var parts := [[s[0]] + rest[0]] + rest[1..];
        assert SplitOn(s, c) == parts;
        if |rest| == 1 {
          assert JoinWith(rest, c) == rest[0];
        } else {
          assert JoinWith(rest, c) == rest[0] + [c] + JoinWith(rest[1..], c);
          assert parts[1..] == rest[1..];
        }
      }
    }
  }

  /** Splitting what was joined gives back the parts, when no part holds the separator. */
  lemma {:induction false} SplitJoin(parts: seq<string>, c: char)
    requires |parts| >= 1
    requires forall k :: 0 <= k < |parts| ==> c !in parts[k]
    ensures SplitOn(JoinWith(parts, c), c) == parts
    decreases |parts|, |parts[0]|
  {
    if |parts| == 1 {
      SplitNoSeparator(parts[0], c);
    } else if parts[0] == [] {
      var tail := JoinWith(parts[1..], c);
      assert JoinWith(parts, c) == [c] + tail;
      assert ([c] + tail)[1..] == tail;
      SplitJoin(parts[1..], c);
      assert parts == [[]] + parts[1..];
    } else {
      var p := [parts[0][1..]] + parts[1..];
      assert p[1..] == parts[1..];
      assert JoinWith(p, c) == parts[0][1..] + [c] + JoinWith(parts[1..], c);
      var s := JoinWith(parts, c);
      assert s == parts[0] + [c] + JoinWith(parts[1..], c);
      assert s[0] == parts[0][0] && s[1..] == JoinWith(p, c);
      assert c != parts[0][0] by { assert parts[0][0] in parts[0]; }
      forall k | 0 <= k < |p| ensures c !in p[k] {
        if k == 0 {
          assert forall x :: x in parts[0][1..] ==> x in parts[0];
        } else {
          assert p[k] == parts[k];
        }
      }
      SplitJoin(p, c);
      assert [parts[0][0]] + parts[0][1..] == parts[0];
      assert parts == [[parts[0][0]] + p[0]] + p[1..];
    }
  }

  lemma {:induction false} SplitNoSeparator(s: string, c: char)
    requires c !in s
    ensures SplitOn(s, c) == [s]
    decreases |s|
  {
    if s != [] {
      assert s[0] in s;
      assert forall x :: x in s[1..] ==> x in s;
      SplitNoSeparator(s[1..], c);
      assert [s[0]] + s[1..] == s;
    }
  }

  predicate IsDigit(c: char) {
    '0' <= c <= '9'
  }

  predicate AllDigits(s: string) {
    forall i :: 0 <= i < |s| ==> IsDigit(s[i])
  }

  function DigitChar(d: nat): char
    requires d < 10
  {
    ('0' as int + d) as char
  }

  /** Decimal rendering of a natural number, as `String(n)` gives it. */
  function NatToString(n: nat): (r: string)
    ensures |r| >= 1 && AllDigits(r)
    ensures n > 0 ==> r[0] != '0'
    decreases n
  {
    if n < 10 then [DigitChar(n)] else NatToString(n / 10) + [DigitChar(n % 10)]
  }

  /** Decimal rendering of an integer, as `String(n)` or a template literal gives it. */
  function IntToString(n: int): string {
    if n < 0 then "-" + NatToString(-n) else NatToString(n)
  }

  function DigitsValue(s: string): nat
    requires AllDigits(s)
    decreases |s|
  {
    if s == [] then 0 else DigitsValue(s[..|s| - 1]) * 10 + (s[|s| - 1] as int - '0' as int)
  }

  /** The numeric value JavaScript's `Number(s)` gives a string, for decimal integers:
      surrounding white space is ignored, the empty string is 0, and an optional sign may
      precede the digits. Every other string is read as not a number (`None`), including
      forms `Number` accepts such as "85.0", "1e2", "0x10" and "Infinity". */
  function StringToNumber(s: string): Option<int> {
    var t := Trim(s);
    if t == [] then Some(0)
    else if AllDigits(t) then Some(DigitsValue(t))
    else if |t| >= 2 && t[0] == '-' && AllDigits(t[1..]) then var v: int := DigitsValue(t[1..]); Some(-v)
    else if |t| >= 2 && t[0] == '+' && AllDigits(t[1..]) then Some(DigitsValue(t[1..]))
    else None
  }

  lemma {:induction false} DigitsOfNat(n: nat)
    ensures DigitsValue(NatToString(n)) == n
    decreases n
  {
    var r := NatToString(n);
    if n >= 10 {
      DigitsOfNat(n / 10);
      assert r[..|r| - 1] == NatToString(n / 10);
    }
  }

  /** Text that neither starts nor ends with white space is its own trim. */
  lemma TrimNoEdgeSpace(s: string)
    requires s != [] && !IsSpace(s[0]) && !IsSpace(s[|s| - 1])
    ensures Trim(s) == s
  {
    assert TrimStart(s) == s;
    assert TrimEnd(s) == s;
  }

  /** A rendered integer has no surrounding white space. */
  lemma RenderedIsTrimmed(n: int)
    ensures Trim(IntToString(n)) == IntToString(n)
  {
    var r := IntToString(n);
    var d := NatToString(if n < 0 then -n else n);
    assert IsDigit(d[0]) && IsDigit(d[|d| - 1]);
    if n < 0 {
      assert r == "-" + d;
      assert r[|r| - 1] == d[|d| - 1];
    }
    TrimNoEdgeSpace(r);
  }

  /** Reading back a rendered integer gives the integer. */
  lemma {:induction false} NumberOfIntToString(n: int)
    ensures StringToNumber(IntToString(n)) == Some(n)
  {
    var r := IntToString(n);
    var d := NatToString(if n < 0 then -n else n);
    RenderedIsTrimmed(n);
    DigitsOfNat(if n < 0 then -n else n);
    if n < 0 {
      assert r == "-" + d && r[1..] == d;
      assert !AllDigits(r) by { assert !IsDigit(r[0]); }
    }
  }
}
