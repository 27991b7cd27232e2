/** The few Python `str` operations the backend relies on, written out on
    `seq<char>` (one `char` per Unicode code point, as Python counts them). */
module Text {

  /** `str.isspace()`, which is also what `\s` matches in a `str` regex. */
  predicate IsSpace(c: char) {
    || ('\U{9}' <= c <= '\U{D}')       // \t \n \v \f \r
    || ('\U{1C}' <= c <= '\U{20}')     // file/group/record/unit separators, space
    || c == '\U{85}' || c == '\U{A0}' || c == '\U{1680}'
    || ('\U{2000}' <= c <= '\U{200A}')
    || c == '\U{2028}' || c == '\U{2029}' || c == '\U{202F}' || c == '\U{205F}' || c == '\U{3000}'
  }

  ghost predicate AllSpace(s: string) {
    forall i :: 0 <= i < |s| ==> IsSpace(s[i])
  }

  /** `str.lstrip()`: the longest suffix of `s` that does not start with white space. */
  function TrimStart(s: string): (r: string)
    ensures |r| <= |s|
    ensures r != [] ==> !IsSpace(r[0])
    decreases |s|
  {
    if s != [] && IsSpace(s[0]) then TrimStart(s[1..]) else s
  }

  /** What `TrimStart` cuts is white space. */
  lemma {:induction false} TrimStartCutsSpace(s: string)
    ensures forall i :: 0 <= i < |s| - |TrimStart(s)| ==> IsSpace(s[i])
    decreases |s|
  {
    if s != [] && IsSpace(s[0]) {
      TrimStartCutsSpace(s[1..]);
    }
  }

  lemma {:induction false} TrimStartIsSuffix(s: string)
    ensures TrimStart(s) == s[|s| - |TrimStart(s)|..]
    decreases |s|
  {
    if s != [] && IsSpace(s[0]) {
      TrimStartIsSuffix(s[1..]);
    }
  }

  /** `str.rstrip()`: the longest prefix of `s` that does not end with white space. */
  function TrimEnd(s: string): (r: string)
    ensures |r| <= |s|
    ensures r != [] ==> !IsSpace(r[|r| - 1])
    decreases |s|
  {
    if s != [] && IsSpace(s[|s| - 1]) then TrimEnd(s[..|s| - 1]) else s
  }

  /** What `TrimEnd` cuts is white space. */
  lemma {:induction false} TrimEndCutsSpace(s: string)
    ensures forall i :: |TrimEnd(s)| <= i < |s| ==> IsSpace(s[i])
    decreases |s|
  {
    if s != [] && IsSpace(s[|s| - 1]) {
      TrimEndCutsSpace(s[..|s| - 1]);
    }
  }

  lemma {:induction false} TrimEndIsPrefix(s: string)
    ensures TrimEnd(s) == s[..|TrimEnd(s)|]
    decreases |s|
  {
    if s != [] && IsSpace(s[|s| - 1]) {
      TrimEndIsPrefix(s[..|s| - 1]);
    }
  }

  /** `str.strip()`. */
  function Strip(s: string): (r: string)
    ensures |r| <= |s|
    ensures r == "" <==> AllSpace(s)
    ensures r != "" ==> !IsSpace(r[0]) && !IsSpace(r[|r| - 1])
  {
    var t := TrimEnd(s);
    TrimEndIsPrefix(s);
    TrimEndCutsSpace(s);
    TrimStartIsSuffix(t);
    TrimStartCutsSpace(t);
    assert AllSpace(s) ==> t == "";
    assert t != "" ==> TrimStart(t) != "" && TrimStart(t)[|TrimStart(t)| - 1] == t[|t| - 1];
    TrimStart(t)
  }

  /** A string that has already been stripped. */
  predicate IsStripped(s: string) {
    s == "" || (!IsSpace(s[0]) && !IsSpace(s[|s| - 1]))
  }

  predicate StartsWith(s: string, prefix: string) {
    |prefix| <= |s| && s[..|prefix|] == prefix
  }

  predicate EndsWith(s: string, suffix: string) {
    |suffix| <= |s| && s[|s| - |suffix|..] == suffix
  }

  /** If the first `m` characters are white space and the next one is not,
      `TrimStart` cuts exactly those `m` characters. */
  lemma {:induction false} TrimStartAt(s: string, m: nat)
    requires m <= |s|
    requires forall i :: 0 <= i < m ==> IsSpace(s[i])
    requires m == |s| || !IsSpace(s[m])
    ensures TrimStart(s) == s[m..]
    decreases m
  {
    if m > 0 {
      TrimStartAt(s[1..], m - 1);
      assert s[1..][m - 1..] == s[m..];
    }
  }

  lemma {:induction false} StripStripped(s: string)
    requires IsStripped(s)
    ensures Strip(s) == s
  {
    if s != "" {
      assert TrimEnd(s) == s;
      assert TrimStart(s) == s;
    }
  }

  /** A string whose last character is not white space only loses its leading white space. */
  lemma {:induction false} StripIsTrimStart(s: string)
    requires s != "" && !IsSpace(s[|s| - 1])
    ensures Strip(s) == TrimStart(s)
  {
    assert TrimEnd(s) == s;
  }

  /** Leading white space is cut from the front only, so appending after a
      non-blank string commutes with `TrimStart`. */
  lemma {:induction false} TrimStartAppend(x: string, y: string)
    requires !AllSpace(x)
    ensures TrimStart(x + y) == TrimStart(x) + y
  {
    var r := TrimStart(x);
    TrimStartIsSuffix(x);
    TrimStartCutsSpace(x);
    var m := |x| - |r|;
    var w :| 0 <= w < |x| && !IsSpace(x[w]);
    assert m <= w < |x|;
    var xy := x + y;
    forall i | 0 <= i < m ensures IsSpace(xy[i]) {
      assert xy[i] == x[i];
    }
    assert xy[m] == x[m] == r[0];
    TrimStartAt(xy, m);
    assert xy[m..] == x[m..] + y;
  }

  /** Cutting leading white space never cuts into a suffix that starts with a
      non-space character. */
  lemma {:induction false} TrimStartKeepsSuffix(s: string, t: string)
    requires EndsWith(s, t)
    requires t != "" && !IsSpace(t[0])
    ensures EndsWith(TrimStart(s), t)
  {
    var r := TrimStart(s);
    TrimStartIsSuffix(s);
    TrimStartCutsSpace(s);
    assert s[|s| - |t|] == t[0];
    assert |s| - |r| <= |s| - |t|;
    assert r[|r| - |t|..] == s[|s| - |t|..];
  }

  /** A non-empty sequence is its front followed by its last element. */
  lemma {:induction false} InitLast<T>(xs: seq<T>)
    requires xs != []
    ensures xs[..|xs| - 1] + [xs[|xs| - 1]] == xs
  {
  }

  /** `[f(i, x) for i, x in enumerate(xs)]`, written as the loop that
      appends one element per step builds it. */
  function Enumerated<T, U>(xs: seq<T>, f: (nat, T) -> U): seq<U> {
    if xs == [] then [] else Enumerated(xs[..|xs| - 1], f) + [f(|xs| - 1, xs[|xs| - 1])]
  }

  lemma {:induction false} EnumeratedPrefix<T, U>(xs: seq<T>, i: nat, f: (nat, T) -> U)
    requires i < |xs|
    ensures Enumerated(xs[..i + 1], f) == Enumerated(xs[..i], f) + [f(i, xs[i])]
  {
    assert xs[..i + 1][..i] == xs[..i];
  }

  /** One element per input, element `i` computed from `xs[i]` and `i`. */
  lemma {:induction false} EnumeratedShape<T, U>(xs: seq<T>, f: (nat, T) -> U)
    ensures |Enumerated(xs, f)| == |xs|
    ensures forall i :: 0 <= i < |xs| ==> Enumerated(xs, f)[i] == f(i, xs[i])
  {
    if xs != [] {
      var n := |xs| - 1;
      EnumeratedShape(xs[..n], f);
      forall i | 0 <= i < |xs|
        ensures Enumerated(xs, f)[i] == f(i, xs[i])
      {
        if i < n {
          assert xs[..n][i] == xs[i];
        }
      }
    }
  }

  /** `sep.join(xs)`, written so that it grows at the end. */
  function Join(xs: seq<string>, sep: string): string
    decreases |xs|
  {
    if |xs| == 0 then ""
    else if |xs| == 1 then xs[0]
    else Join(xs[..|xs| - 1], sep) + sep + xs[|xs| - 1]
  }

  lemma {:induction false} JoinSnoc(xs: seq<string>, a: string, sep: string)
    requires xs != []
    ensures Join(xs + [a], sep) == Join(xs, sep) + sep + a
  {
    assert (xs + [a])[..|xs|] == xs;
  }

  lemma {:induction false} JoinCons(a: string, xs: seq<string>, sep: string)
    requires xs != []
    ensures Join([a] + xs, sep) == a + sep + Join(xs, sep)
    decreases |xs|
  {
    var l := [a] + xs;
    if |xs| == 1 {
      assert l[..1] == [a];
      assert Join(l, sep) == Join([a], sep) + sep + l[1];
    } else {
      var init := xs[..|xs| - 1];
      var last := xs[|xs| - 1];
      assert l[..|l| - 1] == [a] + init;
      assert Join(l, sep) == Join([a] + init, sep) + sep + last;
      JoinCons(a, init, sep);
      assert Join(xs, sep) == Join(init, sep) + sep + last;
    }
  }

  /** Extending the first element of a list extends `Join` at the front. */
  lemma {:induction false} JoinExtendHead(c: string, xs: seq<string>, sep: string)
    requires xs != []
    ensures Join([c + xs[0]] + xs[1..], sep) == c + Join(xs, sep)
  {
    if |xs| == 1 {
      assert [c + xs[0]] + xs[1..] == [c + xs[0]];
    } else {
      JoinCons(c + xs[0], xs[1..], sep);
      JoinCons(xs[0], xs[1..], sep);
      assert [xs[0]] + xs[1..] == xs;
    }
  }

  /** `s.split('\n\n')`: cut at every non-overlapping blank-line separator,
      scanning from the left. */
  function SplitOnBlankLine(s: string): (parts: seq<string>)
    ensures |parts| >= 1
    decreases |s|
  {
    if |s| < 2 then [s]
    else if s[0] == '\n' && s[1] == '\n' then [""] + SplitOnBlankLine(s[2..])
    else
      var rest := SplitOnBlankLine(s[1..]);
      [[s[0]] + rest[0]] + rest[1..]
  }

  /** Splitting loses nothing: joining the parts back with the separator gives the input. */
  lemma {:induction false} SplitOnBlankLineJoin(s: string)
    ensures Join(SplitOnBlankLine(s), "\n\n") == s
    decreases |s|
  {
    if |s| < 2 {
    } else if s[0] == '\n' && s[1] == '\n' {
      SplitOnBlankLineJoin(s[2..]);
      JoinCons("", SplitOnBlankLine(s[2..]), "\n\n");
      assert s == "\n\n" + s[2..];
    } else {
      var rest := SplitOnBlankLine(s[1..]);
      SplitOnBlankLineJoin(s[1..]);
      JoinExtendHead([s[0]], rest, "\n\n");
      assert s == [s[0]] + s[1..];
    }
  }

  /** Where the input is all white space, so is every part. */
  lemma {:induction false} SplitOnBlankLineBlank(s: string)
    requires AllSpace(s)
    ensures forall p :: p in SplitOnBlankLine(s) ==> AllSpace(p)
    decreases |s|
  {
    if |s| < 2 {
    } else if s[0] == '\n' && s[1] == '\n' {
      SplitOnBlankLineBlank(s[2..]);
    } else {
      SplitOnBlankLineBlank(s[1..]);
      var rest := SplitOnBlankLine(s[1..]);
      assert AllSpace([s[0]] + rest[0]) by {
        assert rest[0] in rest;
      }
      forall p | p in rest[1..] ensures AllSpace(p) {
        assert p in rest;
      }
    }
  }

  /** Where the input has a non-space character, so has some part. */
  lemma {:induction false} SplitOnBlankLineNonBlank(s: string)
    requires !AllSpace(s)
    ensures exists k :: 0 <= k < |SplitOnBlankLine(s)| && !AllSpace(SplitOnBlankLine(s)[k])
    decreases |s|
  {
    var parts := SplitOnBlankLine(s);
    if |s| < 2 {
      assert !AllSpace(parts[0]);
    } else if s[0] == '\n' && s[1] == '\n' {
      NonBlankAfterSpace(s, 2);
      SplitOnBlankLineNonBlank(s[2..]);
      var k :| 0 <= k < |SplitOnBlankLine(s[2..])| && !AllSpace(SplitOnBlankLine(s[2..])[k]);
      assert parts[k + 1] == SplitOnBlankLine(s[2..])[k];
    } else if IsSpace(s[0]) {
      NonBlankAfterSpace(s, 1);
      SplitOnBlankLineNonBlank(s[1..]);
      var rest := SplitOnBlankLine(s[1..]);
      var k :| 0 <= k < |rest| && !AllSpace(rest[k]);
      NonBlankHead(s[0], rest);
      if k > 0 {
        assert parts[k] == rest[k];
      }
    } else {
      assert parts[0][0] == s[0];
    }
  }

  /** Leading white space is not where the non-space character is. */
  lemma NonBlankAfterSpace(s: string, d: nat)
    requires d <= |s| && !AllSpace(s)
    requires forall i :: 0 <= i < d ==> IsSpace(s[i])
    ensures !AllSpace(s[d..])
  {
    var i :| 0 <= i < |s| && !IsSpace(s[i]);
    assert s[d..][i - d] == s[i];
  }

  /** Putting a character in front of a non-blank part keeps it non-blank. */
  lemma NonBlankHead(c: char, rest: seq<string>)
    requires rest != []
    ensures !AllSpace(rest[0]) ==> var q := [[c] + rest[0]] + rest[1..]; !AllSpace(q[0])
  {
    if !AllSpace(rest[0]) {
      var i :| 0 <= i < |rest[0]| && !IsSpace(rest[0][i]);
      var q := [[c] + rest[0]] + rest[1..];
      assert q[0][i + 1] == rest[0][i];
    }
  }

  /** ASCII `str.lower()`. */
  function LowerChar(c: char): char {
    if 'A' <= c <= 'Z' then (c as int + 32) as char else c
  }

  function Lower(s: string): string {
    seq(|s|, i requires 0 <= i < |s| => LowerChar(s[i]))
  }

  predicate OccursAt(s: string, sub: string, i: int) {
    0 <= i <= |s| - |sub| && s[i..i + |sub|] == sub
  }

  /** Python's substring test `sub in s`. */
  predicate Contains(s: string, sub: string) {
    exists i | 0 <= i <= |s| - |sub| :: OccursAt(s, sub, i)
  }

  function DigitChar(d: nat): char
    requires d < 10
  {
    "0123456789"[d]
  }

  /** `str(n)` for a non-negative integer. */
  function NatToString(n: nat): (r: string)
    ensures 1 <= |r|
    ensures |r| == 1 <==> n < 10
    decreases n
  {
    if n < 10 then [DigitChar(n)] else NatToString(n / 10) + [DigitChar(n % 10)]
  }

  /** `str(i)` for any integer. */
  function IntToString(i: int): string {
    if i < 0 then "-" + NatToString(-i) else NatToString(i)
  }

  /** Distinct numbers print differently. */
  lemma {:induction false} NatToStringInjective(a: nat, b: nat)
    requires NatToString(a) == NatToString(b)
    ensures a == b
    decreases a
  {
    var sa, sb := NatToString(a), NatToString(b);
    if a < 10 && b < 10 {
      assert sa[0] == DigitChar(a) && sb[0] == DigitChar(b);
    } else if a >= 10 && b >= 10 {
      assert sa[|sa| - 1] == DigitChar(a % 10);
      assert sb[|sb| - 1] == DigitChar(b % 10);
      assert sa[..|sa| - 1] == NatToString(a / 10);
      assert sb[..|sb| - 1] == NatToString(b / 10);
      NatToStringInjective(a / 10, b / 10);
    }
  }
}
