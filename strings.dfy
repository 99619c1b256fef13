/** Character classes and string operations of JavaScript that the rest of the model is built from:
    the regular-expression classes `\d`, `\s` and `\w`, `trim`, `startsWith`, `includes`,
    `replace` with a string pattern (first occurrence only), `padStart`, and decimal digit strings. */
module Strings {

  datatype Option<T> = None | Some(value: T)

  predicate IsDigit(c: char) { '0' <= c <= '9' }
  predicate IsUpper(c: char) { 'A' <= c <= 'Z' }
  predicate IsLower(c: char) { 'a' <= c <= 'z' }
  predicate IsLetter(c: char) { IsUpper(c) || IsLower(c) }

  /** The class `[a-zA-Z0-9_]`. */
  predicate IsWordChar(c: char) { IsLetter(c) || IsDigit(c) || c == '_' }

  /** JavaScript's `\s`: white space and line terminators; `trim` removes exactly these. */
  predicate IsSpace(c: char) {
    c == '\t' || c == '\n' || c == '\U{000B}' || c == '\U{000C}' || c == '\r' || c == ' '
    || c == '\U{00A0}' || c == '\U{1680}' || ('\U{2000}' <= c <= '\U{200A}')
    || c == '\U{2028}' || c == '\U{2029}' || c == '\U{202F}' || c == '\U{205F}'
    || c == '\U{3000}' || c == '\U{FEFF}'
  }

  predicate AllChars(s: string, p: char -> bool) {
    forall i :: 0 <= i < |s| ==> p(s[i])
  }

  /** A string that `!s.trim()` calls empty. */
  predicate IsBlank(s: string) { AllChars(s, IsSpace) }

  function ToUpperChar(c: char): char {
    if IsLower(c) then (c as int - 32) as char else c
  }

  function ToLowerChar(c: char): char {
    if IsUpper(c) then (c as int + 32) as char else c
  }

  function ToUpper(s: string): (r: string)
    ensures |r| == |s| && forall i :: 0 <= i < |s| ==> r[i] == ToUpperChar(s[i])
  {
    if s == [] then [] else [ToUpperChar(s[0])] + ToUpper(s[1..])
  }

  function ToLower(s: string): (r: string)
    ensures |r| == |s| && forall i :: 0 <= i < |s| ==> r[i] == ToLowerChar(s[i])
  {
    if s == [] then [] else [ToLowerChar(s[0])] + ToLower(s[1..])
  }

  /** Keeps the characters that satisfy `p`, in order (`s.replace(/[^...]/g, '')`). */
  function Filter(s: string, p: char -> bool): (r: string)
    ensures |r| <= |s|
    ensures AllChars(r, p)
  {
    if s == [] then [] else (if p(s[0]) then [s[0]] else []) + Filter(s[1..], p)
  }

  lemma {:induction false} FilterAppend(a: string, b: string, p: char -> bool)
    ensures Filter(a + b, p) == Filter(a, p) + Filter(b, p)
  {
    if a == [] {
      assert a + b == b;
    } else {
      var head := if p(a[0]) then [a[0]] else [];
      assert (a + b)[0] == a[0];
      assert (a + b)[1..] == a[1..] + b;
      assert Filter(a + b, p) == head + Filter(a[1..] + b, p);
      FilterAppend(a[1..], b, p);
      assert Filter(a, p) == head + Filter(a[1..], p);
    }
  }

  /** Filtering keeps every character that satisfies `p` as often as it occurs, and no other. */
  lemma {:induction false} FilterCounts(s: string, p: char -> bool)
    ensures forall c :: multiset(Filter(s, p))[c] == if p(c) then multiset(s)[c] else 0
  {
    if s != [] {
      FilterCounts(s[1..], p);
      var head := if p(s[0]) then [s[0]] else [];
      assert s == [s[0]] + s[1..];
      assert multiset(s) == multiset([s[0]]) + multiset(s[1..]);
      assert multiset(Filter(s, p)) == multiset(head) + multiset(Filter(s[1..], p));
    }
  }

  lemma {:induction false} FilterKeepsAll(s: string, p: char -> bool)
    requires AllChars(s, p)
    ensures Filter(s, p) == s
  {
    if s != [] {
      FilterKeepsAll(s[1..], p);
    }
  }

  function TrimStart(s: string): (r: string)
    ensures |r| <= |s| && r == s[|s| - |r|..]
    ensures IsBlank(s[..|s| - |r|])
    ensures r != [] ==> !IsSpace(r[0])
  {
    if s != [] && IsSpace(s[0]) then
      var r := TrimStart(s[1..]);
      assert s[..|s| - |r|] == [s[0]] + s[1..][..|s| - 1 - |r|];
      AllCharsAppend([s[0]], s[1..][..|s| - 1 - |r|], IsSpace);
      r
    else s
  }

  function TrimEnd(s: string): (r: string)
    ensures |r| <= |s| && r == s[..|r|]
    ensures IsBlank(s[|r|..])
    ensures r != [] ==> !IsSpace(r[|r| - 1])
  {
    if s != [] && IsSpace(s[|s| - 1]) then
      var r := TrimEnd(s[..|s| - 1]);
      assert s[|r|..] == s[..|s| - 1][|r|..] + [s[|s| - 1]];
      AllCharsAppend(s[..|s| - 1][|r|..], [s[|s| - 1]], IsSpace);
      r
    else s
  }

  /** `s.trim()`. */
  function Trim(s: string): string {
    TrimEnd(TrimStart(s))
  }

  /** `!s.trim()` holds exactly of the strings made of white space only. */
  lemma TrimEmptyIffBlank(s: string)
    ensures Trim(s) == [] <==> IsBlank(s)
  {
    if IsBlank(s) {
      BlankTrimsToEmpty(s);
    } else if Trim(s) == [] {
      TrimEmptyIsBlank(s);
    }
  }

  lemma {:induction false} BlankTrimsToEmpty(s: string)
    requires IsBlank(s)
    ensures TrimStart(s) == [] && Trim(s) == []
  {
    if s != [] {
      assert IsSpace(s[0]);
      assert forall i :: 0 <= i < |s| - 1 ==> s[1..][i] == s[i + 1];
      BlankTrimsToEmpty(s[1..]);
    }
  }

  lemma TrimEmptyIsBlank(s: string)
    requires Trim(s) == []
    ensures IsBlank(s)
  {
    var t := TrimStart(s);
    var k := |s| - |t|;
    assert t[0..] == t;
    assert s == s[..k] + t;
    AllCharsAppend(s[..k], t, IsSpace);
  }

  /** A property holds of every character of `a + b` exactly when it does of `a` and of `b`. */
  lemma AllCharsAppend(a: string, b: string, p: char -> bool)
    ensures AllChars(a + b, p) <==> AllChars(a, p) && AllChars(b, p)
  {
    if AllChars(a, p) && AllChars(b, p) {
      forall i | 0 <= i < |a + b| ensures p((a + b)[i]) {
        if i >= |a| {
          assert (a + b)[i] == b[i - |a|];
        }
      }
    }
    if AllChars(a + b, p) {
      assert forall i :: 0 <= i < |a| ==> (a + b)[i] == a[i];
      assert forall i :: 0 <= i < |b| ==> (a + b)[|a| + i] == b[i];
    }
  }

  /** The trimmed string of a non-blank string starts and ends with a non-space character. */
  lemma TrimmedEnds(s: string)
    requires Trim(s) != []
    ensures !IsSpace(Trim(s)[0]) && !IsSpace(Trim(s)[|Trim(s)| - 1])
  {
    var t := TrimStart(s);
    var r := TrimEnd(t);
    assert r[0] == t[0];
  }

  /** A string with no white space at all is its own trim. */
  lemma TrimNoSpace(s: string)
    requires forall i :: 0 <= i < |s| ==> !IsSpace(s[i])
    ensures Trim(s) == s
  {
  }

  predicate StartsWith(s: string, prefix: string) {
    |prefix| <= |s| && s[..|prefix|] == prefix
  }

  predicate EndsWith(s: string, suffix: string) {
    |suffix| <= |s| && s[|s| - |suffix|..] == suffix
  }

  predicate OccursAt(s: string, pat: string, i: int) {
    0 <= i && i + |pat| <= |s| && s[i..i + |pat|] == pat
  }

  /** `s.indexOf(pat)`: the first position where `pat` occurs, or -1. */
  function IndexOf(s: string, pat: string): (r: int)
    ensures -1 <= r <= |s|
    ensures r >= 0 ==> OccursAt(s, pat, r)
    ensures r >= 0 ==> forall i :: 0 <= i < r ==> !OccursAt(s, pat, i)
    ensures r == -1 ==> forall i :: !OccursAt(s, pat, i)
  {
    if |pat| > |s| then -1
    else if s[..|pat|] == pat then 0
    else
      var k := IndexOf(s[1..], pat);
      assert forall i :: 1 <= i && OccursAt(s, pat, i) ==> OccursAt(s[1..], pat, i - 1) by {
        forall i | 1 <= i && OccursAt(s, pat, i) ensures OccursAt(s[1..], pat, i - 1) {
          assert s[1..][i - 1..i - 1 + |pat|] == s[i..i + |pat|];
        }
      }
      if k < 0 then -1
      else
        assert s[1..][k..k + |pat|] == s[k + 1..k + 1 + |pat|];
        k + 1
  }

  /** `s.includes(pat)`. */
  predicate Contains(s: string, pat: string) {
    IndexOf(s, pat) >= 0
  }

  /** `s.replace(pat, rep)` with a string pattern: only the first occurrence is replaced. */
  function ReplaceFirst(s: string, pat: string, rep: string): (r: string)
    ensures IndexOf(s, pat) < 0 ==> r == s
    ensures IndexOf(s, pat) >= 0 ==>
      var i := IndexOf(s, pat); r == s[..i] + rep + s[i + |pat|..]
  {
    var i := IndexOf(s, pat);
    if i < 0 then s else s[..i] + rep + s[i + |pat|..]
  }

  /** A pattern that cannot start inside `p` is first found in `p + s` where it is first found in `s`. */
  lemma {:induction false} IndexOfAfterPrefix(p: string, s: string, pat: string)
    requires pat != [] && pat[0] !in p
    requires IndexOf(s, pat) >= 0
    ensures IndexOf(p + s, pat) == |p| + IndexOf(s, pat)
  {
    if p == [] {
      assert p + s == s;
    } else {
      var t := p + s;
      assert t[1..] == p[1..] + s;
      assert |pat| <= |t|;
      assert t[..|pat|] != pat by {
        assert t[..|pat|][0] == p[0];
        assert p[0] in p;
      }
      IndexOfAfterPrefix(p[1..], s, pat);
    }
  }

  /** Replacing the first `pat` in a text that starts with it rewrites that start. */
  lemma ReplaceAtStart(pat: string, rest: string, rep: string)
    requires pat != []
    ensures ReplaceFirst(pat + rest, pat, rep) == rep + rest
  {
    var t := pat + rest;
    assert t[..|pat|] == pat;
    assert IndexOf(t, pat) == 0;
    assert t[..0] + rep == rep;
    assert t[|pat|..] == rest;
  }

  /** Replacing the first `pat` in `p + s`, where `s` starts with `pat` and `p` holds no
      character that starts `pat`, rewrites the start of `s`. */
  lemma ReplaceFirstAfterPrefix(p: string, s: string, pat: string, rep: string)
    requires pat != [] && pat[0] !in p
    requires StartsWith(s, pat)
    ensures ReplaceFirst(p + s, pat, rep) == p + rep + s[|pat|..]
  {
    assert IndexOf(s, pat) == 0;
    IndexOfAfterPrefix(p, s, pat);
    var t := p + s;
    assert t[..|p|] == p;
    assert t[|p| + |pat|..] == s[|pat|..];
  }

  /** The text `replace` inserts for one match of a pattern without capture groups: in `rep`,
      "$$" stands for '$', "$&" for the match, "$`" for the text before it and "$'" for the
      text after it; every other character, including any other '$', is kept. */
  function Substitution(rep: string, matched: string, before: string, after: string): (r: string)
    ensures '$' !in rep ==> r == rep
  {
    if rep == [] then []
    else if rep[0] == '$' && |rep| >= 2 && rep[1] in "$&`'" then
      (if rep[1] == '$' then "$" else if rep[1] == '&' then matched else if rep[1] == '`' then before else after)
      + Substitution(rep[2..], matched, before, after)
    else [rep[0]] + Substitution(rep[1..], matched, before, after)
  }

  /** `s.replace(/c/g, rep)` for a single character `c`: each occurrence of `c` becomes the
      substitution of `rep` at that occurrence. */
  function ReplaceAllChar(s: string, c: char, rep: string): (r: string)
    ensures c !in s ==> r == s
  {
    ReplacedFrom(s, c, rep, 0)
  }

  /** The replaced text of `s[i..]`, with the substitutions seeing the whole of `s`. */
  function ReplacedFrom(s: string, c: char, rep: string, i: nat): (r: string)
    requires i <= |s|
    ensures c !in s ==> r == s[i..]
    decreases |s| - i
  {
    if i == |s| then []
    else
      (if s[i] == c then Substitution(rep, [c], s[..i], s[i + 1..]) else [s[i]])
      + ReplacedFrom(s, c, rep, i + 1)
  }

  /** Replacing each occurrence of `c` by `rep` taken literally. */
  function ReplaceLiterally(s: string, c: char, rep: string): string {
    if s == [] then [] else (if s[0] == c then rep else [s[0]]) + ReplaceLiterally(s[1..], c, rep)
  }

  /** A replacement without '$' is inserted literally. */
  lemma LiteralReplacement(s: string, c: char, rep: string)
    requires '$' !in rep
    ensures ReplaceAllChar(s, c, rep) == ReplaceLiterally(s, c, rep)
  {
    LiteralFrom(s, c, rep, 0);
    assert s[0..] == s;
  }

  lemma {:induction false} LiteralFrom(s: string, c: char, rep: string, i: nat)
    requires '$' !in rep && i <= |s|
    ensures ReplacedFrom(s, c, rep, i) == ReplaceLiterally(s[i..], c, rep)
    decreases |s| - i
  {
    if i < |s| {
      LiteralFrom(s, c, rep, i + 1);
      assert s[i..][1..] == s[i + 1..];
    }
  }

  /** A replacement holding "$$" inserts a single '$', and one holding "$`" inserts the text
      before the match. */
  lemma DollarPatterns()
    ensures ReplaceAllChar("1,5", ',', "$$") == "1$5"
    ensures ReplaceAllChar("1,5", ',', "$`") == "115"
  {
    assert ReplaceAllChar("1,5", ',', "$$") == ['1'] + Substitution("$$", ",", "1", "5") + ['5'];
    assert ReplaceAllChar("1,5", ',', "$`") == ['1'] + Substitution("$`", ",", "1", "5") + ['5'];
  }

  function Repeat(c: char, n: nat): (r: string)
    ensures |r| == n && forall i :: 0 <= i < n ==> r[i] == c
  {
    if n == 0 then [] else [c] + Repeat(c, n - 1)
  }

  /** `s.padStart(n, c)`. */
  function PadStart(s: string, n: nat, c: char): (r: string)
    ensures |s| >= n ==> r == s
    ensures |s| < n ==> |r| == n && r[n - |s|..] == s && r[..n - |s|] == Repeat(c, n - |s|)
  {
    if |s| >= n then s else Repeat(c, n - |s|) + s
  }

  function DigitChar(d: nat): char
    requires d < 10
  {
    ('0' as int + d) as char
  }

  function DigitValue(c: char): nat
    requires IsDigit(c)
  {
    c as int - '0' as int
  }

  /** `String(n)` for a natural number: its decimal digits, without leading zeros. */
  function NatToString(n: nat): (r: string)
    ensures |r| >= 1 && AllChars(r, IsDigit)
    ensures r[0] != '0' || n == 0
  {
    if n < 10 then [DigitChar(n)] else NatToString(n / 10) + [DigitChar(n % 10)]
  }

  /** `String(i)` for an integer. */
  function IntToString(i: int): string {
    if i < 0 then "-" + NatToString(-i) else NatToString(i)
  }

  function Pow10(k: nat): (r: nat)
    ensures r >= 1
  {
    if k == 0 then 1 else 10 * Pow10(k - 1)
  }

  /** The number a string of decimal digits denotes (leading zeros allowed). */
  function DigitsValue(s: string): nat
    requires AllChars(s, IsDigit)
  {
    if s == [] then 0 else DigitsValue(s[..|s| - 1]) * 10 + DigitValue(s[|s| - 1])
  }

  lemma {:induction false} DigitsValueAppend(a: string, b: string)
    requires AllChars(a, IsDigit) && AllChars(b, IsDigit)
    ensures AllChars(a + b, IsDigit)
    ensures DigitsValue(a + b) == DigitsValue(a) * Pow10(|b|) + DigitsValue(b)
  {
    if b == [] {
      assert a + b == a;
    } else {
      var b' := b[..|b| - 1];
      assert (a + b)[..|a + b| - 1] == a + b';
      DigitsValueAppend(a, b');
      var last := b[|b| - 1];
      assert (a + b)[|a + b| - 1] == last;
      ShiftDigit(DigitsValue(a), Pow10(|b'|), DigitsValue(b'), DigitValue(last));
    }
  }

  lemma ShiftDigit(x: int, p: int, y: int, d: int)
    ensures (x * p + y) * 10 + d == x * (p * 10) + (y * 10 + d)
  {
  }

  /** Reading back the digits `String(n)` writes gives `n`. */
  lemma {:induction false} NatToStringRoundTrip(n: nat)
    ensures DigitsValue(NatToString(n)) == n
  {
    if n >= 10 {
      NatToStringRoundTrip(n / 10);
      var s := NatToString(n);
      assert s[..|s| - 1] == NatToString(n / 10);
    }
  }

  /** Leading zeros do not change the value of a digit string. */
  lemma {:induction false} PadStartZerosValue(s: string, n: nat)
    requires AllChars(s, IsDigit)
    ensures AllChars(PadStart(s, n, '0'), IsDigit)
    ensures DigitsValue(PadStart(s, n, '0')) == DigitsValue(s)
  {
    if |s| < n {
      var z := Repeat('0', n - |s|);
      ZerosValue(n - |s|);
      DigitsValueAppend(z, s);
    }
  }

  lemma {:induction false} ZerosValue(k: nat)
    ensures AllChars(Repeat('0', k), IsDigit) && DigitsValue(Repeat('0', k)) == 0
  {
    if k > 0 {
      var z := Repeat('0', k);
      assert z[..k - 1] == Repeat('0', k - 1);
      ZerosValue(k - 1);
    }
  }
}
