/** String helpers shared by the query builders, the INFO flattening and the
    reasoning text: Python's `str.join`, `str.split`, `in`, `startswith`,
    ASCII `upper()`, integer rendering and the `:.6f` format. */
module Strings {

  /** Python's `sep.join(parts)`. */
  function Join(sep: string, parts: seq<string>): string
  {
    if |parts| == 0 then ""
    else if |parts| == 1 then parts[0]
    else parts[0] + sep + Join(sep, parts[1..])
  }

  /** Python's `s.split(c)` for a one-character separator: never empty. */
  function Split(s: string, c: char): (r: seq<string>)
    ensures |r| >= 1
  {
    if |s| == 0 then [""]
    else if s[0] == c then [""] + Split(s[1..], c)
    else
      var rest := Split(s[1..], c);
      [[s[0]] + rest[0]] + rest[1..]
  }

  /** A text without a separator is one field. */
  lemma {:induction false} SplitNoSep(p: string, c: char)
    requires c !in p
    ensures Split(p, c) == [p]
  {
    if |p| > 0 {
      assert p[0] != c;
      SplitNoSep(p[1..], c);
      assert [p[0]] + p[1..] == p;
    }
  }

  /** Splitting stops at the first separator. */
  lemma {:induction false} SplitFirst(p: string, c: char, t: string)
    requires c !in p
    ensures Split(p + [c] + t, c) == [p] + Split(t, c)
  {
    if |p| == 0 {
      assert p + [c] + t == [c] + t;
      assert ([c] + t)[1..] == t;
    } else {
      assert (p + [c] + t)[1..] == p[1..] + [c] + t;
      SplitFirst(p[1..], c, t);
      assert [p[0]] + p[1..] == p;
    }
  }

  /** Splitting a join gives the parts back when no part holds the separator. */
  lemma {:induction false} SplitJoin(parts: seq<string>, c: char)
    requires |parts| >= 1
    requires forall i :: 0 <= i < |parts| ==> c !in parts[i]
    ensures Split(Join([c], parts), c) == parts
  {
    if |parts| == 1 {
      SplitNoSep(parts[0], c);
    } else {
      SplitJoin(parts[1..], c);
      SplitFirst(parts[0], c, Join([c], parts[1..]));
      assert [parts[0]] + parts[1..] == parts;
    }
  }

  /** With the separator present, `s.split(c)[1]` exists. */
  lemma {:induction false} SplitHasSecond(s: string, c: char)
    requires c in s
    ensures |Split(s, c)| >= 2
  {
    if s[0] != c {
      SplitHasSecond(s[1..], c);
    }
  }

  /** The second field of `s.split(c)` is the text between the first
      separator and the next one (or the end). */
  lemma {:induction false} SecondField(p: string, c: char, f: string, t: string)
    requires c !in p && c !in f
    ensures |Split(p + [c] + f + t, c)| >= 2
    ensures (|t| == 0 || t[0] == c) ==> Split(p + [c] + f + t, c)[1] == f
  {
    assert p + [c] + f + t == p + [c] + (f + t);
    SplitFirst(p, c, f + t);
    if |t| > 0 && t[0] == c {
      assert f + t == f + [c] + t[1..];
      SplitFirst(f, c, t[1..]);
    } else if |t| == 0 {
      assert f + t == f;
      SplitNoSep(f, c);
    }
  }

  predicate StartsWith(s: string, p: string)
  {
    |p| <= |s| && s[..|p|] == p
  }

  /** Python's `t in s` on strings: `t` occurs in `s`. */
  predicate Contains(s: string, t: string)
    decreases |s|
  {
    StartsWith(s, t) || (|s| > 0 && Contains(s[1..], t))
  }

  /** An occurrence of `t` at position `i` means `s` contains `t`. */
  lemma {:induction false} ContainsAt(s: string, t: string, i: nat)
    requires i + |t| <= |s| && s[i..i + |t|] == t
    ensures Contains(s, t)
    decreases i
  {
    if i > 0 {
      assert s[1..][i - 1..i - 1 + |t|] == s[i..i + |t|];
      ContainsAt(s[1..], t, i - 1);
    }
  }

  /** An occurrence's position. */
  lemma {:induction false} ContainsWhere(s: string, t: string) returns (i: nat)
    requires Contains(s, t)
    ensures i + |t| <= |s| && s[i..i + |t|] == t
    decreases |s|
  {
    if StartsWith(s, t) {
      i := 0;
    } else {
      var j := ContainsWhere(s[1..], t);
      assert s[1..][j..j + |t|] == s[j + 1..j + 1 + |t|];
      i := j + 1;
    }
  }

  /** A needle whose `j`-th character is missing from `a` and whose later
      `k`-th character is missing from `b` occurs nowhere in `a + b`: an
      occurrence would have to start in `a` or reach past it into `b`. */
  lemma NotContainsAcross(a: string, b: string, t: string, j: nat, k: nat)
    requires j < k < |t| && t[j] !in a && t[k] !in b
    ensures !Contains(a + b, t)
  {
    if Contains(a + b, t) {
      var i := ContainsWhere(a + b, t);
      NotAcrossAt(a, b, t, j, k, i);
    }
  }

  /** The window of `a + b` at `i` differs from `t` at position `j` when it
      starts in `a`, and at position `k` otherwise. */
  lemma NotAcrossAt(a: string, b: string, t: string, j: nat, k: nat, i: nat)
    requires j < k < |t| && t[j] !in a && t[k] !in b && i + |t| <= |a + b|
    ensures (a + b)[i..i + |t|] != t
  {
    var w := (a + b)[i..i + |t|];
    if i + j < |a| {
      assert w[j] == a[i + j];
    } else {
      assert w[k] == b[i + k - |a|];
    }
  }

  /** If `s` contains `t`, it contains every character of `t`. */
  lemma {:induction false} ContainsChars(s: string, t: string, k: nat)
    requires Contains(s, t) && k < |t|
    ensures t[k] in s
    decreases |s|
  {
    if StartsWith(s, t) {
      assert s[k] == t[k];
    } else {
      ContainsChars(s[1..], t, k);
    }
  }

  /** A needle with a character the text lacks is not contained in it. */
  lemma NotContainsForMissingChar(s: string, t: string, k: nat)
    requires k < |t| && t[k] !in s
    ensures !Contains(s, t)
  {
    if Contains(s, t) {
      ContainsChars(s, t, k);
    }
  }

  /** `t` occurs in `pre + t + post`. */
  lemma ContainsMiddle(pre: string, t: string, post: string)
    ensures Contains(pre + t + post, t)
  {
    var s := pre + t + post;
    assert s[|pre|..|pre| + |t|] == t;
    ContainsAt(s, t, |pre|);
  }

  /** A text contained in `s` is contained in anything that ends with `s`. */
  lemma {:induction false} ContainsSuffix(p: string, s: string, t: string)
    requires Contains(s, t)
    ensures Contains(p + s, t)
    decreases |p|
  {
    if |p| == 0 {
      assert p + s == s;
    } else {
      assert (p + s)[1..] == p[1..] + s;
      ContainsSuffix(p[1..], s, t);
    }
  }

  /** A joined text starts with its first part. */
  lemma JoinStartsWith(sep: string, parts: seq<string>)
    requires |parts| >= 1
    ensures StartsWith(Join(sep, parts), parts[0])
  {
    if |parts| > 1 {
      var s := Join(sep, parts);
      assert s == parts[0] + (sep + Join(sep, parts[1..]));
      assert s[..|parts[0]|] == parts[0];
    }
  }

  /** Every part occurs in the joined text. */
  lemma {:induction false} JoinContains(sep: string, parts: seq<string>, k: nat)
    requires k < |parts|
    ensures Contains(Join(sep, parts), parts[k])
  {
    if k == 0 {
      JoinStartsWith(sep, parts);
      ContainsAt(Join(sep, parts), parts[0], 0);
    } else {
      JoinContains(sep, parts[1..], k - 1);
      ContainsSuffix(parts[0] + sep, Join(sep, parts[1..]), parts[k]);
    }
  }

  /** Four fields joined by a separator none of them holds split back. */
  lemma SplitFour(a: string, b: string, c: string, d: string, sep: char)
    requires sep !in a && sep !in b && sep !in c && sep !in d
    ensures Split(a + [sep] + b + [sep] + c + [sep] + d, sep) == [a, b, c, d]
  {
    var cd := c + [sep] + d;
    var bcd := b + [sep] + cd;
    var ab := a + [sep] + b;
    assert ab + [sep] + c == a + [sep] + (b + [sep] + c);
    assert ab + [sep] + c + [sep] + d == a + [sep] + bcd;
    SplitNoSep(d, sep);
    SplitFirst(c, sep, d);
    SplitFirst(b, sep, cd);
    SplitFirst(a, sep, bcd);
    assert [a] + ([b] + ([c] + [d])) == [a, b, c, d];
  }

  /** Joining two parts puts the separator between them. */
  lemma JoinPair(sep: string, a: string, b: string)
    ensures Join(sep, [a, b]) == a + sep + b
  {
    assert [a, b][1..] == [b];
  }

  /** Every later part occurs in the joined text. */
  lemma JoinContainsLater(sep: string, first: seq<string>, later: seq<string>, k: nat)
    requires k < |later|
    ensures Contains(Join(sep, first + later), later[k])
  {
    assert (first + later)[|first| + k] == later[k];
    JoinContains(sep, first + later, |first| + k);
  }

  /** Python's `chrom[3:] if chrom.startswith('chr') else chrom`. */
  function StripChr(chrom: string): (r: string)
    ensures StartsWith(chrom, "chr") ==> chrom == "chr" + r
    ensures !StartsWith(chrom, "chr") ==> r == chrom
  {
    if StartsWith(chrom, "chr") then chrom[3..] else chrom
  }

  function Digit(d: int): char
    requires 0 <= d < 10
  {
    "0123456789"[d]
  }

  predicate IsDigit(ch: char)
  {
    '0' <= ch <= '9'
  }

  /** Decimal rendering of a natural number, as Python's `str(n)`. */
  function NatToString(n: nat): (r: string)
    ensures |r| >= 1
    ensures forall i :: 0 <= i < |r| ==> IsDigit(r[i])
  {
    if n < 10 then [Digit(n)] else NatToString(n / 10) + [Digit(n % 10)]
  }

  /** Decimal rendering of an integer, as Python's `str(i)`. */
  function IntToString(i: int): (r: string)
    ensures |r| >= 1
    ensures i >= 0 ==> forall k :: 0 <= k < |r| ==> IsDigit(r[k])
    ensures i < 0 ==> r[0] == '-'
  {
    if i < 0 then "-" + NatToString(-i) else NatToString(i)
  }

  predicate IsLower(ch: char)
  {
    'a' <= ch <= 'z'
  }

  function UpperChar(ch: char): (r: char)
    ensures !IsLower(r)
    ensures !IsLower(ch) ==> r == ch
  {
    if IsLower(ch) then (ch as int - 32) as char else ch
  }

  /** Python's `s.upper()` restricted to ASCII letters: no lower-case ASCII
      letter survives, everything else is kept. */
  function AsciiUpper(s: string): (r: string)
    ensures |r| == |s|
    ensures forall i :: 0 <= i < |r| ==> !IsLower(r[i])
    ensures forall i :: 0 <= i < |r| ==> r[i] == UpperChar(s[i])
  {
    seq(|s|, i requires 0 <= i < |s| => UpperChar(s[i]))
  }

  /** Zero-pads a digit string on the left to six characters. */
  function Pad6(digits: string): (r: string)
    ensures |digits| <= 6 ==> |r| == 6
    decreases 6 - |digits|
  {
    if |digits| >= 6 then digits else Pad6("0" + digits)
  }

  /** The round-half-to-even integer nearest to a non-negative real. */
  function RoundHalfEven(x: real): (n: nat)
    requires x >= 0.0
    ensures x - 0.5 <= n as real <= x + 0.5
  {
    var f := x.Floor;
    var frac := x - f as real;
    if frac > 0.5 then f + 1
    else if frac < 0.5 then f
    else if f % 2 == 0 then f
    else f + 1
  }

  /** Python's `f"{x:.6f}"` on the exact value `x`: sign, integer part,
      a point and six rounded fraction digits. */
  function Fixed6(x: real): string
  {
    var a := if x < 0.0 then -x else x;
    var n := RoundHalfEven(a * 1000000.0);
    (if x < 0.0 then "-" else "") + NatToString(n / 1000000) + "." + Pad6(NatToString(n % 1000000))
  }
}
