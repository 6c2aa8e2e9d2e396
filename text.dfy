/** String helpers standing in for the JavaScript built-ins the service uses:
    `String.prototype.includes`, `Array.prototype.join`, `split`, the decimal
    rendering of a number in a template literal, and `+=` over stream chunks. */
module Text {

  /** `sub` occurs in `s` starting at index `i`. */
  predicate OccursAt(s: string, sub: string, i: int) {
    0 <= i && i + |sub| <= |s| && s[i..i + |sub|] == sub
  }

  /** `s.includes(sub)`: case-sensitive substring test. */
  predicate Contains(s: string, sub: string) {
    exists i | 0 <= i <= |s| - |sub| :: OccursAt(s, sub, i)
  }

  lemma ContainsAt(s: string, sub: string, i: int)
    requires OccursAt(s, sub, i)
    ensures Contains(s, sub)
  {
  }

  /** A string that lacks one of the characters of `sub` cannot contain `sub`. */
  lemma NotContainsWithoutChar(s: string, sub: string, c: char)
    requires c in sub && c !in s
    ensures !Contains(s, sub)
  {
    var j :| 0 <= j < |sub| && sub[j] == c;
    forall i | 0 <= i <= |s| - |sub|
      ensures !OccursAt(s, sub, i)
    {
      assert s[i..i + |sub|][j] == s[i + j];
      assert s[i + j] in s;
    }
  }

  /** A string contains itself when it starts a longer string. */
  lemma ContainsPrefix(sub: string, t: string)
    ensures Contains(sub + t, sub)
  {
    assert (sub + t)[0..|sub|] == sub;
    ContainsAt(sub + t, sub, 0);
  }

  /** A string contains itself when it ends a longer string. */
  lemma ContainsSuffix(t: string, sub: string)
    ensures Contains(t + sub, sub)
  {
    assert (t + sub)[|t|..|t| + |sub|] == sub;
    ContainsAt(t + sub, sub, |t|);
  }

  /** A string contains itself wherever it sits inside a longer string. */
  lemma ContainsInfix(a: string, sub: string, b: string)
    ensures Contains(a + sub + b, sub)
  {
    assert (a + sub + b)[|a|..|a| + |sub|] == sub;
    ContainsAt(a + sub + b, sub, |a|);
  }

  /** `parts.join(sep)`. */
  function Join(parts: seq<string>, sep: string): string {
    if |parts| == 0 then ""
    else if |parts| == 1 then parts[0]
    else parts[0] + sep + Join(parts[1..], sep)
  }

  /** `s.split(c)` for a one-character separator; never empty, `""` splits to `[""]`. */
  function Split(s: string, c: char): (r: seq<string>)
    ensures |r| >= 1
  {
    if |s| == 0 then [""]
    else
      var rest := Split(s[1..], c);
      if s[0] == c then [""] + rest
      else [[s[0]] + rest[0]] + rest[1..]
  }

  lemma {:induction false} SplitWithoutSeparator(p: string, c: char)
    requires c !in p
    ensures Split(p, c) == [p]
  {
    if |p| > 0 {
      assert p[0] != c;
      assert c !in p[1..];
      SplitWithoutSeparator(p[1..], c);
      assert [p[0]] + p[1..] == p;
    }
  }

  lemma {:induction false} SplitAfterPart(p: string, t: string, c: char)
    requires c !in p
    ensures Split(p + [c] + t, c) == [p] + Split(t, c)
  {
    var s := p + [c] + t;
    if |p| == 0 {
      assert s[0] == c && s[1..] == t;
    } else {
      assert s[0] == p[0] && p[0] != c;
      assert s[1..] == p[1..] + [c] + t;
      assert c !in p[1..];
      SplitAfterPart(p[1..], t, c);
      assert [p[0]] + p[1..] == p;
    }
  }

  /** Joining with a one-character separator and splitting on it again gives
      back the parts, provided no part contains the separator. */
  lemma {:induction false} JoinThenSplit(parts: seq<string>, c: char)
    requires |parts| >= 1
    requires forall i :: 0 <= i < |parts| ==> c !in parts[i]
    ensures Split(Join(parts, [c]), c) == parts
  {
    if |parts| == 1 {
      SplitWithoutSeparator(parts[0], c);
    } else {
      assert Join(parts, [c]) == parts[0] + [c] + Join(parts[1..], [c]);
      SplitAfterPart(parts[0], Join(parts[1..], [c]), c);
      JoinThenSplit(parts[1..], c);
      assert [parts[0]] + parts[1..] == parts;
    }
  }

  /** The character of a decimal digit. */
  function DigitChar(d: nat): (c: char)
    requires d < 10
    ensures '0' <= c <= '9'
  {
    (48 + d) as char
  }

  predicate IsDigits(s: string) {
    forall i :: 0 <= i < |s| ==> '0' <= s[i] <= '9'
  }

  /** The decimal rendering of `n`, as a template literal prints a
      non-negative integer. */
  function NatToDecimal(n: nat): (r: string)
    ensures |r| >= 1 && IsDigits(r)
    ensures |r| == 1 <==> n < 10
    decreases n
  {
    if n < 10 then [DigitChar(n)]
    else NatToDecimal(n / 10) + [DigitChar(n % 10)]
  }

  /** Distinct numbers print differently. */
  lemma {:induction false} NatToDecimalInjective(n: nat, m: nat)
    requires NatToDecimal(n) == NatToDecimal(m)
    ensures n == m
  {
    if n < 10 {
      assert m < 10;
      assert NatToDecimal(n)[0] == DigitChar(n);
      assert NatToDecimal(m)[0] == DigitChar(m);
    } else {
      assert m >= 10;
      var a := NatToDecimal(n);
      var b := NatToDecimal(m);
      assert a == NatToDecimal(n / 10) + [DigitChar(n % 10)];
      assert b == NatToDecimal(m / 10) + [DigitChar(m % 10)];
      assert NatToDecimal(n / 10) == a[..|a| - 1];
      assert NatToDecimal(m / 10) == b[..|b| - 1];
      assert DigitChar(n % 10) == a[|a| - 1] == b[|b| - 1] == DigitChar(m % 10);
      NatToDecimalInjective(n / 10, m / 10);
    }
  }

  /** The string accumulated by `output += chunk` over every chunk, in order. */
  function Concat(chunks: seq<string>): string {
    if chunks == [] then ""
    else Concat(chunks[..|chunks| - 1]) + chunks[|chunks| - 1]
  }

  lemma {:induction false} ConcatAppend(a: seq<string>, b: seq<string>)
    ensures Concat(a + b) == Concat(a) + Concat(b)
  {
    if b == [] {
      assert a + b == a;
    } else {
      var n := |b| - 1;
      assert (a + b)[..|a + b| - 1] == a + b[..n];
      assert (a + b)[|a + b| - 1] == b[n];
      ConcatAppend(a, b[..n]);
      calc {
        Concat(a + b);
        Concat(a + b[..n]) + b[n];
        Concat(a) + Concat(b[..n]) + b[n];
        Concat(a) + Concat(b);
      }
    }
  }

  /** Sum of the lengths of the chunks. */
  function TotalLength(chunks: seq<string>): nat {
    if chunks == [] then 0
    else TotalLength(chunks[..|chunks| - 1]) + |chunks[|chunks| - 1]|
  }

  lemma {:induction false} ConcatLength(chunks: seq<string>)
    ensures |Concat(chunks)| == TotalLength(chunks)
  {
    if chunks != [] {
      ConcatLength(chunks[..|chunks| - 1]);
    }
  }
}
