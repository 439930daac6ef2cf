/** The Python string operations the scripts rely on. */
module Text {

  /** `str.isspace` on one character: the characters that `strip` removes. */
  predicate IsSpace(c: char) {
    || '\t' <= c <= '\r' || '\U{1c}' <= c <= ' ' || c == '\U{85}' || c == '\U{a0}' || c == '\U{1680}'
    || '\U{2000}' <= c <= '\U{200a}' || c == '\U{2028}' || c == '\U{2029}' || c == '\U{202f}'
    || c == '\U{205f}' || c == '\U{3000}'
  }

  function LStrip(s: string): string {
    if s != [] && IsSpace(s[0]) then LStrip(s[1..]) else s
  }

  function RStrip(s: string): string {
    if s != [] && IsSpace(s[|s| - 1]) then RStrip(s[..|s| - 1]) else s
  }

  function Strip(s: string): string { RStrip(LStrip(s)) }

  predicate Trimmed(s: string) { s == [] || (!IsSpace(s[0]) && !IsSpace(s[|s| - 1])) }

  predicate StartsWith(s: string, prefix: string) { |prefix| <= |s| && s[..|prefix|] == prefix }

  predicate EndsWith(s: string, suffix: string) { |suffix| <= |s| && s[|s| - |suffix|..] == suffix }

  /** `part in s` */
  predicate Contains(s: string, part: string) {
    exists i :: 0 <= i <= |s| && StartsWith(s[i..], part)
  }

  lemma {:induction false} RStripShape(s: string)
    ensures RStrip(s) == [] || !IsSpace(RStrip(s)[|RStrip(s)| - 1])
    ensures |RStrip(s)| <= |s| && RStrip(s) == s[..|RStrip(s)|]
    ensures s != [] && !IsSpace(s[0]) ==> RStrip(s) != []
  {
    if s != [] && IsSpace(s[|s| - 1]) { RStripShape(s[..|s| - 1]); }
  }

  lemma {:induction false} LStripShape(s: string)
    ensures LStrip(s) == [] || !IsSpace(LStrip(s)[0])
  {
    if s != [] && IsSpace(s[0]) { LStripShape(s[1..]); }
  }

  lemma StripTrimmed(s: string)
    ensures Trimmed(Strip(s))
  {
    LStripShape(s);
    RStripShape(LStrip(s));
  }

  lemma StripFixed(s: string)
    requires Trimmed(s)
    ensures Strip(s) == s
  {
  }

  ghost predicate AllSpace(s: string) { forall i :: 0 <= i < |s| ==> IsSpace(s[i]) }

  lemma {:induction false} LStripCuts(s: string)
    ensures |LStrip(s)| <= |s| && LStrip(s) == s[|s| - |LStrip(s)|..] && AllSpace(s[..|s| - |LStrip(s)|])
  {
    if s != [] && IsSpace(s[0]) {
      LStripCuts(s[1..]);
      var n := |s| - |LStrip(s)|;
      assert s[..n] == [s[0]] + s[1..][..n - 1];
      assert s[1..][n - 1..] == s[n..];
    }
  }

  lemma {:induction false} RStripCuts(s: string)
    ensures |RStrip(s)| <= |s| && RStrip(s) == s[..|RStrip(s)|] && AllSpace(s[|RStrip(s)|..])
  {
    if s != [] && IsSpace(s[|s| - 1]) {
      RStripCuts(s[..|s| - 1]);
      var n := |RStrip(s)|;
      assert s[n..] == s[..|s| - 1][n..] + [s[|s| - 1]];
      assert s[..|s| - 1][..n] == s[..n];
    }
  }

  /** Only spaces are removed, from both ends, until there are none at either. */
  lemma StripCuts(s: string)
    ensures exists before, after :: s == before + Strip(s) + after && AllSpace(before) && AllSpace(after)
    ensures Trimmed(Strip(s))
  {
    var left := LStrip(s);
    LStripCuts(s);
    RStripCuts(left);
    StripTrimmed(s);
    var before, after := s[..|s| - |left|], left[|Strip(s)|..];
    assert s == before + left && left == Strip(s) + after;
    assert s == before + Strip(s) + after;
  }

  lemma {:induction false} LStripPadded(before: string, s: string)
    requires AllSpace(before) && (s == [] || !IsSpace(s[0]))
    ensures LStrip(before + s) == s
  {
    if before == [] {
      assert before + s == s;
    } else {
      assert (before + s)[1..] == before[1..] + s;
      LStripPadded(before[1..], s);
    }
  }

  lemma {:induction false} RStripPadded(s: string, after: string)
    requires AllSpace(after) && (s == [] || !IsSpace(s[|s| - 1]))
    ensures RStrip(s + after) == s
  {
    if after == [] {
      assert s + after == s;
    } else {
      assert (s + after)[..|s + after| - 1] == s + after[..|after| - 1];
      RStripPadded(s, after[..|after| - 1]);
    }
  }

  /** Spaces around a trimmed text are stripped, and those before it first. */
  lemma StripPadded(before: string, s: string, after: string)
    requires AllSpace(before) && AllSpace(after) && s != [] && Trimmed(s)
    ensures LStrip(before + s + after) == s + after && Strip(before + s + after) == s
  {
    hide IsSpace;
    assert before + s + after == before + (s + after);
    LStripPadded(before, s + after);
    RStripPadded(s, after);
  }

  /** `part in s` means that s has it between two other texts. */
  lemma ContainsMeans(s: string, part: string)
    ensures Contains(s, part) <==> exists before, after :: s == before + part + after
  {
    if Contains(s, part) {
      var i :| 0 <= i <= |s| && StartsWith(s[i..], part);
      assert s == s[..i] + part + s[i + |part|..];
    }
    if before, after :| s == before + part + after { assert s[|before|..] == part + after; }
  }

  /** A line that is neither blank nor a comment. */
  predicate IsKept(line: string) { Strip(line) != [] && !StartsWith(Strip(line), "#") }

  function Digit(n: nat): char
    requires n < 10
  {
    (n + 48) as char
  }

  /** `str(n)` */
  function Decimal(n: nat): string {
    if n < 10 then [Digit(n)] else Decimal(n / 10) + [Digit(n % 10)]
  }

  lemma {:induction false} DecimalInjective(a: nat, b: nat)
    requires Decimal(a) == Decimal(b)
    ensures a == b
  {
    var s, t := Decimal(a), Decimal(b);
    assert s[|s| - 1] == Digit(a % 10) && t[|t| - 1] == Digit(b % 10);
    if a >= 10 && b >= 10 {
      assert s[..|s| - 1] == Decimal(a / 10) && t[..|t| - 1] == Decimal(b / 10);
      DecimalInjective(a / 10, b / 10);
    } else if a >= 10 {
      DecimalNonempty(a / 10);
    } else if b >= 10 {
      DecimalNonempty(b / 10);
    }
  }

  lemma DecimalNonempty(n: nat)
    ensures |Decimal(n)| >= 1
  {
  }

  /** `str(n)` of any integer. */
  function IntText(n: int): string { if n < 0 then "-" + Decimal(-n) else Decimal(n) }

  /** No character of s is c. */
  predicate Lacks(s: string, c: char) { c !in s }

  lemma {:induction false} DecimalLacks(n: nat, c: char)
    requires !('0' <= c <= '9')
    ensures Lacks(Decimal(n), c)
  {
    if n >= 10 { DecimalLacks(n / 10, c); }
  }

  /** Texts that are followed by the same separator can be told apart. */
  lemma CutAt(c: char, a: string, x: string, b: string, y: string)
    requires Lacks(a, c) && Lacks(b, c)
    requires a + [c] + x == b + [c] + y
    ensures a == b && x == y
  {
    var s, t := a + [c] + x, b + [c] + y;
    assert s[|a|] == c && t[|b|] == c;
    assert |a| == |b|;
    assert a == s[..|a|] && b == t[..|b|];
    assert x == s[|a| + 1..] && y == t[|b| + 1..];
  }

  /** What follows the last separator can be told apart. */
  lemma CutAtLast(c: char, a: string, x: string, b: string, y: string)
    requires Lacks(x, c) && Lacks(y, c)
    requires a + [c] + x == b + [c] + y
    ensures a == b && x == y
  {
    var s, t := a + [c] + x, b + [c] + y;
    assert s[|a|] == c && t[|b|] == c;
    assert forall i :: |a| < i < |s| ==> s[i] == x[i - |a| - 1];
    assert forall i :: |b| < i < |t| ==> t[i] == y[i - |b| - 1];
    assert |a| == |b|;
    assert a == s[..|a|] && b == t[..|b|];
    assert x == s[|a| + 1..] && y == t[|b| + 1..];
  }

  /** `_strings`: the trimmed non-empty entries of a list. */
  function Strings(s: seq<string>): seq<string> {
    if s == [] then []
    else Strings(s[..|s| - 1]) + if Strip(s[|s| - 1]) != [] then [Strip(s[|s| - 1])] else []
  }

  ghost predicate AllClean(s: seq<string>) {
    forall i :: 0 <= i < |s| ==> s[i] != [] && Trimmed(s[i])
  }

  lemma {:induction false} StringsClean(s: seq<string>)
    ensures AllClean(Strings(s))
  {
    if s != [] {
      StringsClean(s[..|s| - 1]);
      StripTrimmed(s[|s| - 1]);
    }
  }

  lemma {:induction false} StringsFixed(s: seq<string>)
    requires AllClean(s)
    ensures Strings(s) == s
  {
    hide Strip, Trimmed;
    if s != [] {
      StringsFixed(s[..|s| - 1]);
      StripFixed(s[|s| - 1]);
    }
  }
}
