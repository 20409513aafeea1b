/**
 * String helpers that stand for the Python built-ins the source uses:
 * `str.split`, `str.join`, `str.strip`, `str.lstrip`, `in` on strings,
 * slicing, truthiness of optional strings and `str(n)` for integers.
 * Strings are sequences of Unicode code points, as Python's are.
 */
module Text {
  import opened Wrappers

  /** Python's `bool(s)` for a value of type `str | None`. */
  predicate Truthy(s: Option<string>) {
    s.Some? && s.value != ""
  }

  /** Python's `a or b` on two values of type `str | None`. */
  function OrElse(a: Option<string>, b: Option<string>): (r: Option<string>)
    ensures Truthy(a) ==> r == a
    ensures !Truthy(a) ==> r == b
  {
    match a
    case Some(v) => if v == "" then b else a
    case None => b
  }

  /** The code points for which Python's `str.isspace()` holds. */
  predicate IsSpace(c: char) {
    ('\U{9}' <= c <= '\U{D}') || ('\U{1C}' <= c <= '\U{20}') || c == '\U{85}' || c == '\U{A0}'
    || c == '\U{1680}' || ('\U{2000}' <= c <= '\U{200A}') || c == '\U{2028}' || c == '\U{2029}'
    || c == '\U{202F}' || c == '\U{205F}' || c == '\U{3000}'
  }

  /** Python's `s.lstrip(chars)`: drops the longest prefix made of `chars`. */
  function LStrip(s: string, chars: set<char>): (r: string)
    ensures |r| <= |s| && r == s[|s| - |r|..]
    ensures forall i :: 0 <= i < |s| - |r| ==> s[i] in chars
    ensures r != [] ==> r[0] !in chars
  {
    if s != [] && s[0] in chars then LStrip(s[1..], chars) else s
  }

  /** Python's `s.rstrip()` (whitespace). */
  function RStripSpace(s: string): (r: string)
    ensures |r| <= |s| && r == s[..|r|]
    ensures forall i :: |r| <= i < |s| ==> IsSpace(s[i])
    ensures r != [] ==> !IsSpace(r[|r| - 1])
  {
    if s != [] && IsSpace(s[|s| - 1]) then RStripSpace(s[..|s| - 1]) else s
  }

  /** Python's `s.lstrip()` (whitespace). */
  function LStripSpace(s: string): (r: string)
    ensures |r| <= |s| && r == s[|s| - |r|..]
    ensures forall i :: 0 <= i < |s| - |r| ==> IsSpace(s[i])
    ensures r != [] ==> !IsSpace(r[0])
  {
    if s != [] && IsSpace(s[0]) then LStripSpace(s[1..]) else s
  }

  /** Python's `s.strip()`: `s` less its leading and trailing whitespace. */
  function Strip(s: string): (r: string)
    ensures |r| <= |LStripSpace(s)| <= |s|
    ensures r == s[|s| - |LStripSpace(s)|..|s| - |LStripSpace(s)| + |r|]
    ensures r != [] ==> !IsSpace(r[0]) && !IsSpace(r[|r| - 1])
    ensures r == [] ==> forall i :: 0 <= i < |s| ==> IsSpace(s[i])
  {
    RStripSpace(LStripSpace(s))
  }

  /** Everything after the stripped slice of `s` is whitespace of `s`. */
  lemma StripTrailing(s: string)
    ensures forall i :: |s| - |LStripSpace(s)| + |Strip(s)| <= i < |s| ==> IsSpace(s[i])
  {
    var l := LStripSpace(s);
    forall i | |s| - |l| + |Strip(s)| <= i < |s| ensures IsSpace(s[i]) {
      assert s[i] == l[i - (|s| - |l|)];
    }
  }

  /** A string trimmed at both ends is its own strip. */
  lemma StripTrimmed(u: string)
    requires u != [] && !IsSpace(u[0]) && !IsSpace(u[|u| - 1])
    ensures Strip(u) == u
  {
    assert LStripSpace(u) == u;
  }

  /** One leading whitespace character before a trimmed string is stripped away. */
  lemma StripLeadingSpace(c: char, u: string)
    requires IsSpace(c)
    requires u != [] && !IsSpace(u[0]) && !IsSpace(u[|u| - 1])
    ensures Strip([c] + u) == u
  {
    assert ([c] + u)[1..] == u;
    assert LStripSpace([c] + u) == LStripSpace(u) == u;
    StripTrimmed(u);
  }

  /** Python's `p in s` for strings, by scanning the start positions. */
  predicate Contains(s: string, p: string)
    decreases |s|
  {
    p <= s || (s != [] && Contains(s[1..], p))
  }

  /** A position where `p` occurs in `s`. */
  function FindAt(s: string, p: string): (i: nat)
    requires Contains(s, p)
    ensures i + |p| <= |s| && s[i..i + |p|] == p
    decreases |s|
  {
    if p <= s then 0 else 1 + FindAt(s[1..], p)
  }

  lemma {:induction false} ContainsAt(s: string, p: string, i: nat)
    requires i + |p| <= |s| && s[i..i + |p|] == p
    ensures Contains(s, p)
    decreases i
  {
    if i > 0 {
      assert s[1..][i - 1..i - 1 + |p|] == s[i..i + |p|];
      ContainsAt(s[1..], p, i - 1);
    }
  }

  /** The middle part of a concatenation occurs in it. */
  lemma ContainsMiddle(a: string, b: string, c: string)
    ensures Contains(a + b + c, b)
  {
    assert (a + b + c)[|a|..|a| + |b|] == b;
    ContainsAt(a + b + c, b, |a|);
  }

  /** An occurrence of a pattern without `c` lies on one side of a `c`. */
  lemma ContainsAcross(a: string, c: char, b: string, p: string)
    requires c !in p
    requires Contains(a + [c] + b, p)
    ensures Contains(a, p) || Contains(b, p)
  {
    var s := a + [c] + b;
    var i := FindAt(s, p);
    if i + |p| <= |a| {
      assert a[i..i + |p|] == s[i..i + |p|];
      ContainsAt(a, p, i);
    } else if i > |a| {
      assert s[|a| + 1..] == b;
      assert s[i..i + |p|] == s[|a| + 1..][i - |a| - 1..i - |a| - 1 + |p|];
      assert b[i - |a| - 1..i - |a| - 1 + |p|] == s[i..i + |p|];
      ContainsAt(b, p, i - |a| - 1);
    } else {
      ElementIn(p, |a| - i);
      assert false;
    }
  }

  lemma ElementIn(p: string, k: nat)
    requires k < |p|
    ensures p[k] in p
  {
  }

  /** Python's `s.split(sep)` for a one-character separator. */
  function Split(s: string, sep: char): (r: seq<string>)
    ensures |r| >= 1
    ensures forall i :: 0 <= i < |r| ==> sep !in r[i]
  {
    if s == [] then [""]
    else if s[0] == sep then [""] + Split(s[1..], sep)
    else
      var rest := Split(s[1..], sep);
      [[s[0]] + rest[0]] + rest[1..]
  }

  /** Splitting a separator-free piece followed by the separator peels that piece off. */
  lemma {:induction false} SplitHead(a: string, sep: char, b: string)
    requires sep !in a
    ensures Split(a + [sep] + b, sep) == [a] + Split(b, sep)
  {
    if a != [] {
      assert (a + [sep] + b)[1..] == a[1..] + [sep] + b;
      SplitHead(a[1..], sep, b);
      assert [a[0]] + a[1..] == a;
    } else {
      assert a + [sep] + b == [sep] + b;
    }
  }

  /** Python's `sep.join(parts)`. */
  function Join(parts: seq<string>, sep: string): string {
    if |parts| == 0 then ""
    else if |parts| == 1 then parts[0]
    else parts[0] + sep + Join(parts[1..], sep)
  }

  /** Joining the pieces of a split with the separator gives the string back. */
  lemma {:induction false} JoinSplit(s: string, sep: char)
    ensures Join(Split(s, sep), [sep]) == s
  {
    if s == [] {
    } else if s[0] == sep {
      JoinSplit(s[1..], sep);
    } else {
      var rest := Split(s[1..], sep);
      JoinSplit(s[1..], sep);
      if |rest| > 1 {
        assert Join(rest, [sep]) == rest[0] + [sep] + Join(rest[1..], [sep]);
      }
    }
  }

  /** A separator-free pattern in a joined string lies inside one of the parts. */
  lemma {:induction false} ContainsInPart(parts: seq<string>, sep: char, p: string)
    requires |parts| >= 1 && sep !in p
    requires Contains(Join(parts, [sep]), p)
    ensures exists k :: 0 <= k < |parts| && Contains(parts[k], p)
  {
    if |parts| == 1 {
      assert Contains(parts[0], p);
    } else {
      assert Join(parts, [sep]) == parts[0] + [sep] + Join(parts[1..], [sep]);
      ContainsAcross(parts[0], sep, Join(parts[1..], [sep]), p);
      if !Contains(parts[0], p) {
        ContainsInPart(parts[1..], sep, p);
        var k :| 0 <= k < |parts[1..]| && Contains(parts[1..][k], p);
        assert Contains(parts[k + 1], p);
      }
    }
  }

  lemma {:induction false} ContainsLeft(a: string, b: string, p: string)
    requires Contains(a, p)
    ensures Contains(a + b, p)
    decreases |a|
  {
    if !(p <= a) {
      assert (a + b)[1..] == a[1..] + b;
      ContainsLeft(a[1..], b, p);
    } else {
      assert (a + b)[..|p|] == a[..|p|];
    }
  }

  lemma {:induction false} ContainsRight(a: string, b: string, p: string)
    requires Contains(b, p)
    ensures Contains(a + b, p)
    decreases |a|
  {
    if a != [] {
      assert (a + b)[1..] == a[1..] + b;
      ContainsRight(a[1..], b, p);
    } else {
      assert a + b == b;
    }
  }

  /** A pattern inside one of the parts occurs in the joined string. */
  lemma {:induction false} PartInJoin(parts: seq<string>, sep: string, k: nat, p: string)
    requires k < |parts| && Contains(parts[k], p)
    ensures Contains(Join(parts, sep), p)
  {
    if |parts| > 1 {
      var rest := Join(parts[1..], sep);
      assert Join(parts, sep) == parts[0] + (sep + rest);
      if k == 0 {
        ContainsLeft(parts[0], sep + rest, p);
      } else {
        assert parts[1..][k - 1] == parts[k];
        PartInJoin(parts[1..], sep, k - 1, p);
        ContainsRight(sep, rest, p);
        ContainsRight(parts[0], sep + rest, p);
      }
    }
  }

  /** A pattern without the separator occurs in a string exactly when it occurs in one of its split pieces. */
  lemma SplitContains(s: string, sep: char, p: string)
    requires sep !in p
    ensures Contains(s, p) <==> exists k :: 0 <= k < |Split(s, sep)| && Contains(Split(s, sep)[k], p)
  {
    var parts := Split(s, sep);
    JoinSplit(s, sep);
    if Contains(s, p) {
      ContainsInPart(parts, sep, p);
    }
    if k :| 0 <= k < |parts| && Contains(parts[k], p) {
      PartInJoin(parts, [sep], k, p);
    }
  }

  /** Python's `s.replace(c, repl)` for a one-character pattern. */
  function ReplaceChar(s: string, c: char, repl: string): (r: string) {
    if s == [] then ""
    else (if s[0] == c then repl else [s[0]]) + ReplaceChar(s[1..], c, repl)
  }

  /** Replacing a character is splitting on it and joining with the replacement. */
  lemma {:induction false} ReplaceIsSplitJoin(s: string, c: char, repl: string)
    ensures ReplaceChar(s, c, repl) == Join(Split(s, c), repl)
  {
    if s == [] {
    } else if s[0] == c {
      ReplaceIsSplitJoin(s[1..], c, repl);
    } else {
      var rest := Split(s[1..], c);
      ReplaceIsSplitJoin(s[1..], c, repl);
      if |rest| > 1 {
        assert Join(rest, repl) == rest[0] + repl + Join(rest[1..], repl);
      }
    }
  }

  /** Python's slice `s[:n]` for `n >= 0`. */
  function Take<T>(s: seq<T>, n: nat): (r: seq<T>)
    ensures |r| == if |s| < n then |s| else n
    ensures r <= s
  {
    if |s| <= n then s else s[..n]
  }

  function DigitChar(d: nat): char
    requires d < 10
  {
    "0123456789"[d]
  }

  /** Python's `str(n)` for a natural number. */
  function NatToString(n: nat): (r: string)
    ensures |r| >= 1
    ensures AllDigits(r)
    ensures r[0] == '0' ==> n == 0
  {
    if n < 10 then [DigitChar(n)] else NatToString(n / 10) + [DigitChar(n % 10)]
  }

  /** A string of decimal digits only. */
  predicate AllDigits(s: string) {
    forall i :: 0 <= i < |s| ==> '0' <= s[i] <= '9'
  }

  /** The value of a string of decimal digits. */
  function DigitsValue(s: string): nat
    requires AllDigits(s)
  {
    if s == [] then 0 else 10 * DigitsValue(s[..|s| - 1]) + (s[|s| - 1] as int - '0' as int)
  }

  /** `str(n)` can be read back, so distinct numbers give distinct strings. */
  lemma {:induction false} NatToStringValue(n: nat)
    ensures DigitsValue(NatToString(n)) == n
  {
    if n >= 10 {
      NatToStringValue(n / 10);
      var s := NatToString(n);
      assert s[..|s| - 1] == NatToString(n / 10);
    }
  }

  /** Python's `str(i)` for an integer. */
  function IntToString(i: int): (r: string)
    ensures |r| >= 1
    ensures (r[0] == '-') <==> i < 0
  {
    if i < 0 then "-" + NatToString(-i) else NatToString(i)
  }
}
