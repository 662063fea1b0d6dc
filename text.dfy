/**
 * The parts of Python's `str` that the invoice code relies on: whitespace as
 * `str.isspace()` and the regex class `\s` see it, `strip`, `split`,
 * `splitlines`, `join`, `replace`, `upper` and decimal rendering of integers.
 */
module Text {

  /** Python's `str.isspace()`, which is also what `\s` matches in a `str` pattern. */
  predicate IsSpace(c: char) {
    c == ' ' || ('\t' <= c <= '\r') || ('\U{1c}' <= c <= '\U{1f}')
    || c == '\U{85}' || c == '\U{a0}' || c == '\U{1680}'
    || ('\U{2000}' <= c <= '\U{200a}') || c == '\U{2028}' || c == '\U{2029}'
    || c == '\U{202f}' || c == '\U{205f}' || c == '\U{3000}'
  }

  /** The characters at which `str.splitlines()` ends a line. */
  predicate IsLineBreak(c: char) {
    ('\n' <= c <= '\r') || ('\U{1c}' <= c <= '\U{1e}')
    || c == '\U{85}' || c == '\U{2028}' || c == '\U{2029}'
  }

  predicate IsDigit(c: char) { '0' <= c <= '9' }

  predicate IsLetter(c: char) { ('a' <= c <= 'z') || ('A' <= c <= 'Z') }

  predicate AllSpace(s: string) { forall k :: 0 <= k < |s| ==> IsSpace(s[k]) }

  predicate AllDigits(s: string) { forall k :: 0 <= k < |s| ==> IsDigit(s[k]) }

  predicate HasDigit(s: string) { exists k :: 0 <= k < |s| && IsDigit(s[k]) }

  predicate HasLetter(s: string) { exists k :: 0 <= k < |s| && IsLetter(s[k]) }

  /** No leading and no trailing whitespace: what `strip()` leaves. */
  predicate Trimmed(s: string) {
    s == [] || (!IsSpace(s[0]) && !IsSpace(s[|s| - 1]))
  }

  /** The number of whitespace characters `lstrip()` removes. */
  function LeadingSpace(s: string): (n: nat)
    ensures n <= |s| && AllSpace(s[..n]) && (n == |s| || !IsSpace(s[n]))
  {
    if |s| > 0 && IsSpace(s[0]) then
      var n := 1 + LeadingSpace(s[1..]);
      assert forall k :: 1 <= k < n ==> s[..n][k] == s[1..][..n - 1][k - 1];
      n
    else 0
  }

  /** The number of whitespace characters `rstrip()` removes. */
  function TrailingSpace(s: string): (n: nat)
    ensures n <= |s| && AllSpace(s[|s| - n..]) && (n == |s| || !IsSpace(s[|s| - n - 1]))
  {
    if |s| > 0 && IsSpace(s[|s| - 1]) then
      var n := 1 + TrailingSpace(s[..|s| - 1]);
      assert s[|s| - n..] == s[..|s| - 1][|s| - n..] + [s[|s| - 1]];
      n
    else 0
  }

  /** `str.strip()`: the text between the leading and the trailing whitespace. */
  function Strip(s: string): (r: string)
    ensures Trimmed(r) && |r| <= |s|
    ensures r == [] <==> AllSpace(s)
  {
    var i := LeadingSpace(s);
    var l := s[i..];
    var j := TrailingSpace(l);
    StripEndsKept(s, i, l, j);
    StripEndsEmpty(s, i, l, j);
    l[..|l| - j]
  }

  lemma StripEndsKept(s: string, i: nat, l: string, j: nat)
    requires i <= |s| && (i == |s| || !IsSpace(s[i])) && l == s[i..]
    requires j <= |l| && (j == |l| || !IsSpace(l[|l| - j - 1]))
    ensures Trimmed(l[..|l| - j])
    ensures |l| - j > 0 ==> !AllSpace(s)
  {
    if |l| - j > 0 {
      assert l[..|l| - j][0] == s[i];
      assert l[..|l| - j][|l| - j - 1] == l[|l| - j - 1];
    }
  }

  lemma StripEndsEmpty(s: string, i: nat, l: string, j: nat)
    requires i == LeadingSpace(s) && l == s[i..] && j == TrailingSpace(l)
    ensures |l| - j == 0 ==> AllSpace(s)
  {
    if |l| - j == 0 {
      assert l[|l| - j..] == l;
      assert s == s[..i] + l;
      AllSpaceConcat(s[..i], l);
    }
  }

  lemma AllSpaceConcat(a: string, b: string)
    requires AllSpace(a) && AllSpace(b)
    ensures AllSpace(a + b)
  {
    forall k | 0 <= k < |a + b| ensures IsSpace((a + b)[k]) {
      if k >= |a| { assert (a + b)[k] == b[k - |a|]; }
    }
  }

  /** `strip()` in terms of the whitespace counted at each end. */
  lemma StripIs(s: string, i: nat, l: string, j: nat)
    requires i == LeadingSpace(s) && l == s[i..] && j == TrailingSpace(l)
    ensures Strip(s) == l[..|l| - j]
  {
  }

  /** A string with nothing to strip is its own `strip()`. */
  lemma StripTrimmed(s: string)
    requires Trimmed(s)
    ensures Strip(s) == s
  {
    if s != [] {
      assert LeadingSpace(s) == 0;
      assert TrailingSpace(s) == 0;
    }
  }

  /** Whitespace appended to a stripped string is stripped off again. */
  lemma StripAppendSpace(s: string, t: string)
    requires Trimmed(s) && s != [] && AllSpace(t)
    ensures Strip(s + t) == s
  {
    var x := s + t;
    assert LeadingSpace(x) == 0 by { assert x[0] == s[0]; }
    var n := TrailingSpace(x);
    forall k | |x| - n <= k < |x| ensures IsSpace(x[k]) {
      assert x[|x| - n..][k - (|x| - n)] == x[k];
    }
    forall k | |s| <= k < |x| ensures IsSpace(x[k]) {
      assert x[k] == t[k - |s|];
    }
    assert !IsSpace(x[|s| - 1]);
    assert n == |t|;
    assert x[..|x| - |t|] == s;
  }

  /** `str.split(sep)` for a one-character separator: always at least one piece. */
  function Split(s: string, sep: char): (r: seq<string>)
    ensures |r| >= 1
    ensures forall k :: 0 <= k < |r| ==> sep !in r[k]
  {
    if |s| == 0 then [""]
    else if s[0] == sep then [""] + Split(s[1..], sep)
    else
      var rest := Split(s[1..], sep);
      [[s[0]] + rest[0]] + rest[1..]
  }

  /** Every piece of a split is no longer than the string and holds only its characters. */
  lemma {:induction false} SplitPieces(s: string, sep: char)
    ensures forall k :: 0 <= k < |Split(s, sep)| ==>
      |Split(s, sep)[k]| <= |s| && forall c :: c in Split(s, sep)[k] ==> c in s
  {
    if |s| > 0 {
      SplitPieces(s[1..], sep);
      var rest := Split(s[1..], sep);
      var r := Split(s, sep);
      forall k | 0 <= k < |r| ensures |r[k]| <= |s| && forall c :: c in r[k] ==> c in s {
        if s[0] == sep {
          if k > 0 {
            assert r[k] == rest[k - 1];
            assert forall c :: c in s[1..] ==> c in s;
          }
        } else if k == 0 {
          assert r[0] == [s[0]] + rest[0];
          assert forall c :: c in s[1..] ==> c in s;
        } else {
          assert r[k] == rest[k];
          assert forall c :: c in s[1..] ==> c in s;
        }
      }
    }
  }

  /** A string without the separator splits into itself. */
  lemma {:induction false} SplitNoSeparator(s: string, sep: char)
    requires sep !in s
    ensures Split(s, sep) == [s]
  {
    if s != [] {
      SplitNoSeparator(s[1..], sep);
      assert [s[0]] + s[1..] == s;
    }
  }

  /** A separator-free field followed by the separator splits off as the first piece. */
  lemma {:induction false} SplitAfterField(a: string, rest: string, sep: char)
    requires sep !in a
    ensures Split(a + [sep] + rest, sep) == [a] + Split(rest, sep)
  {
    var s := a + [sep] + rest;
    if a == [] {
      assert s == [sep] + rest;
      assert s[1..] == rest;
    } else {
      assert s[1..] == a[1..] + [sep] + rest;
      SplitAfterField(a[1..], rest, sep);
      assert [a[0]] + a[1..] == a;
    }
  }

  /** `sep.join(xs)` for a one-character separator. */
  function Join(xs: seq<string>, sep: char): string
  {
    if |xs| == 0 then ""
    else if |xs| == 1 then xs[0]
    else xs[0] + [sep] + Join(xs[1..], sep)
  }

  /** Joining the pieces of a split restores the string. */
  lemma {:induction false} JoinSplit(s: string, sep: char)
    ensures Join(Split(s, sep), sep) == s
  {
    if |s| == 0 {
    } else if s[0] == sep {
      JoinSplit(s[1..], sep);
      var rest := Split(s[1..], sep);
      assert Split(s, sep) == [""] + rest;
      assert [s[0]] + s[1..] == s;
    } else {
      JoinSplit(s[1..], sep);
      var rest := Split(s[1..], sep);
      var r := [[s[0]] + rest[0]] + rest[1..];
      assert Split(s, sep) == r;
      if |rest| == 1 {
        assert Join(r, sep) == [s[0]] + rest[0];
        assert [s[0]] + s[1..] == s;
      } else {
        assert r[1..] == rest[1..];
        assert Join(r, sep) == [s[0]] + rest[0] + [sep] + Join(rest[1..], sep);
        assert Join(rest, sep) == rest[0] + [sep] + Join(rest[1..], sep);
        assert [s[0]] + s[1..] == s;
      }
    }
  }

  /** Joining then appending one empty piece adds exactly one separator. */
  lemma {:induction false} JoinAppendEmpty(xs: seq<string>, sep: char)
    requires |xs| >= 1
    ensures Join(xs + [""], sep) == Join(xs, sep) + [sep]
  {
    if |xs| == 1 {
      assert xs + [""] == [xs[0], ""];
      assert Join([""], sep) == "";
    } else {
      JoinAppendEmpty(xs[1..], sep);
      assert (xs + [""])[1..] == xs[1..] + [""];
    }
  }

  /**
   * `str.splitlines()` without `keepends`: every line-break character (and
   * the pair CR LF) ends a line, and a break at the very end does not open
   * an empty last line.
   */
  function SplitLines(s: string): (r: seq<string>)
    ensures s == [] <==> r == []
  {
    if |s| == 0 then []
    else if IsLineBreak(s[0]) then
      var width := if s[0] == '\r' && |s| > 1 && s[1] == '\n' then 2 else 1;
      [""] + SplitLines(s[width..])
    else
      var rest := SplitLines(s[1..]);
      if rest == [] then [[s[0]]] else [[s[0]] + rest[0]] + rest[1..]
  }

  /**
   * For text whose only line breaks are `\n` and which does not end in one,
   * `splitlines()` and `split('\n')` agree.
   */
  lemma {:induction false} SplitLinesAsSplit(s: string)
    requires s != [] && s[|s| - 1] != '\n'
    requires forall k :: 0 <= k < |s| && IsLineBreak(s[k]) ==> s[k] == '\n'
    ensures SplitLines(s) == Split(s, '\n')
  {
    if |s| == 1 {
      assert s[1..] == [];
      assert [s[0]] + "" == [s[0]];
    } else {
      SplitLinesAsSplit(s[1..]);
    }
  }

  /** `s.replace(a, b)` for single characters. */
  function ReplaceChar(s: string, a: char, b: char): (r: string)
    ensures |r| == |s|
    ensures forall k :: 0 <= k < |s| ==> r[k] == if s[k] == a then b else s[k]
  {
    if |s| == 0 then "" else [if s[0] == a then b else s[0]] + ReplaceChar(s[1..], a, b)
  }

  /** Replacing a character that does not occur changes nothing. */
  lemma {:induction false} ReplaceCharAbsent(s: string, a: char, b: char)
    requires a !in s
    ensures ReplaceChar(s, a, b) == s
  {
    if s != [] {
      ReplaceCharAbsent(s[1..], a, b);
      assert [s[0]] + s[1..] == s;
    }
  }

  /** `s.replace(pat, rep)`: non-overlapping occurrences, scanned from the left. */
  function Replace(s: string, pat: string, rep: string): (r: string)
    requires pat != []
    decreases |s|
  {
    if |s| < |pat| then s
    else if s[..|pat|] == pat then rep + Replace(s[|pat|..], pat, rep)
    else [s[0]] + Replace(s[1..], pat, rep)
  }

  /** `Replace` changes nothing when the pattern does not occur. */
  lemma {:induction false} ReplaceAbsent(s: string, pat: string, rep: string)
    requires pat != [] && !Contains(s, pat)
    ensures Replace(s, pat, rep) == s
    decreases |s|
  {
    if |s| >= |pat| {
      assert !OccursAt(s, pat, 0);
      assert !Contains(s[1..], pat) by {
        forall i | 0 <= i <= |s[1..]| ensures !OccursAt(s[1..], pat, i) {
          assert !OccursAt(s, pat, i + 1);
          assert i + |pat| <= |s[1..]| ==> s[1..][i..i + |pat|] == s[i + 1..i + 1 + |pat|];
        }
      }
      ReplaceAbsent(s[1..], pat, rep);
    }
  }

  /** A leading occurrence of the pattern is replaced, and the rest is scanned after it. */
  lemma ReplaceLeading(pat: string, s: string, rep: string)
    requires pat != []
    ensures Replace(pat + s, pat, rep) == rep + Replace(s, pat, rep)
  {
    assert (pat + s)[..|pat|] == pat && (pat + s)[|pat|..] == s;
  }

  /** Python's `sub in s` for strings. */
  predicate Contains(s: string, sub: string) {
    exists i :: 0 <= i <= |s| && OccursAt(s, sub, i)
  }

  /** `sub` occurs in `s` starting at position `i`. */
  predicate OccursAt(s: string, sub: string, i: nat) {
    i + |sub| <= |s| && s[i..i + |sub|] == sub
  }

  /** `str.upper()` for ASCII letters. */
  function Upper(s: string): (r: string)
    ensures |r| == |s|
    ensures forall k :: 0 <= k < |s| ==> r[k] == UpperChar(s[k])
  {
    seq(|s|, k requires 0 <= k < |s| => UpperChar(s[k]))
  }

  function UpperChar(c: char): char
  {
    if 'a' <= c <= 'z' then c - 'a' + 'A' else c
  }

  /** `upper()` distributes over concatenation. */
  lemma UpperAppend(s: string, t: string)
    ensures Upper(s + t) == Upper(s) + Upper(t)
  {
    var u := Upper(s + t);
    assert forall k :: 0 <= k < |s| ==> (s + t)[k] == s[k];
    assert forall k :: |s| <= k < |s| + |t| ==> (s + t)[k] == t[k - |s|];
  }

  /** The value of a string of decimal digits. */
  function DigitsValue(s: string): nat
    requires AllDigits(s)
  {
    if |s| == 0 then 0 else DigitsValue(s[..|s| - 1]) * 10 + (s[|s| - 1] - '0') as nat
  }

  /** `str(n)` for a natural number: decimal digits, no leading zeros. */
  function NatToString(n: nat): (r: string)
    ensures |r| >= 1 && AllDigits(r)
    ensures |r| > 1 ==> r[0] != '0'
    ensures DigitsValue(r) == n
  {
    if n < 10 then [('0' as int + n) as char]
    else
      var r := NatToString(n / 10) + [('0' as int + n % 10) as char];
      assert r[..|r| - 1] == NatToString(n / 10);
      r
  }

  /** `str(i)` for any integer. */
  function IntToString(i: int): (r: string)
    ensures |r| >= 1
  {
    if i < 0 then "-" + NatToString(-i) else NatToString(i)
  }

  /** Left-pads with `'0'` up to `width` characters, as `%02d` and `%04d` do. */
  function ZeroPad(s: string, width: nat): (r: string)
    ensures |r| == if |s| < width then width else |s|
    ensures r[|r| - |s|..] == s
    ensures forall k :: 0 <= k < |r| - |s| ==> r[k] == '0'
  {
    if |s| < width then seq(width - |s|, _ => '0') + s else s
  }
}
