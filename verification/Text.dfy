/** Substring search and per-character case folding, as the classifier and the store use them. */
module Text {

  /** p stands in s at position i. */
  predicate At(s: string, p: string, i: nat) {
    i + |p| <= |s| && s[i..i + |p|] == p
  }

  /** strings.Contains. */
  predicate Contains(s: string, p: string) {
    exists i: nat | i <= |s| :: At(s, p, i)
  }

  /** strings.HasPrefix. */
  predicate HasPrefix(s: string, p: string) {
    p <= s
  }

  /** A whole-string case mapping that works one character at a time. */
  function Fold(f: char -> char, s: string): (r: string)
    ensures |r| == |s|
    ensures forall i | 0 <= i < |s| :: r[i] == f(s[i])
  {
    seq(|s|, i requires 0 <= i < |s| => f(s[i]))
  }

  /** What the proofs need of a lower-casing: doing it twice changes nothing. */
  ghost predicate Idempotent(f: char -> char) {
    forall c :: f(f(c)) == f(c)
  }

  lemma FoldConcat(f: char -> char, a: string, b: string)
    ensures Fold(f, a + b) == Fold(f, a) + Fold(f, b)
  {
  }

  lemma ContainsEmbedded(a: string, m: string, b: string, p: string)
    requires Contains(m, p)
    ensures Contains(a + m + b, p)
  {
    var i: nat :| i <= |m| && At(m, p, i);
    assert (a + m + b)[|a| + i..|a| + i + |p|] == m[i..i + |p|];
    assert At(a + m + b, p, |a| + i);
  }

  lemma ContainsTransitive(s: string, p: string, q: string)
    requires Contains(s, p) && Contains(p, q)
    ensures Contains(s, q)
  {
    var i: nat :| i <= |s| && At(s, p, i);
    assert s == s[..i] + p + s[i + |p|..];
    ContainsEmbedded(s[..i], p, s[i + |p|..], q);
  }

  lemma ContainedIsShorter(p: string, q: string)
    requires Contains(p, q) && p != q
    ensures |q| < |p|
  {
    var i: nat :| i <= |p| && At(p, q, i);
  }

  lemma ContainsTail(s: string, p: string)
    requires |s| > 0 && Contains(s[1..], p)
    ensures Contains(s, p)
  {
    assert s == s[..1] + s[1..] + [];
    ContainsEmbedded(s[..1], s[1..], [], p);
  }

  /** fmt.Sprintf("%d", n). */
  function Decimal(n: int): string
    decreases n < 0, if n < 0 then -n else n
  {
    if n < 0 then "-" + Decimal(-n)
    else if n < 10 then ["0123456789"[n]]
    else Decimal(n / 10) + ["0123456789"[n % 10]]
  }

  /** The number that decimal digits stand for, after a sign if there is one. */
  function Value(s: string): int {
    if s == "" then 0
    else if s[0] == '-' then -Value(s[1..])
    else 10 * Value(s[..|s| - 1]) + (s[|s| - 1] as int - '0' as int)
  }

  lemma {:induction false} DecimalStart(n: nat)
    ensures Decimal(n) != "" && Decimal(n)[0] != '-'
  {
    if n >= 10 {
      DecimalStart(n / 10);
    }
  }

  lemma {:induction false} ValueOfDigits(front: string, d: char)
    requires front == "" ==> d != '-'
    requires front != "" ==> front[0] != '-'
    ensures Value(front + [d]) == 10 * Value(front) + (d as int - '0' as int)
  {
    assert (front + [d])[..|front|] == front;
  }

  lemma {:induction false} NaturalReadsBack(n: nat)
    ensures Value(Decimal(n)) == n
  {
    DigitIs(n % 10);
    if n >= 10 {
      NaturalReadsBack(n / 10);
      DecimalStart(n / 10);
      ValueOfDigits(Decimal(n / 10), "0123456789"[n % 10]);
    } else {
      ValueOfDigits("", "0123456789"[n]);
      assert "" + ["0123456789"[n]] == Decimal(n);
    }
  }

  /** Different run ids have different decimal ids: the number can be read back. */
  lemma {:induction false} DecimalReadsBack(n: int)
    ensures Value(Decimal(n)) == n
  {
    if n < 0 {
      NaturalReadsBack(-n);
      assert Decimal(n)[1..] == Decimal(-n);
    } else {
      NaturalReadsBack(n);
    }
  }

  lemma {:induction false} DigitIs(d: nat)
    requires d < 10
    ensures "0123456789"[d] as int == '0' as int + d
  {
  }

  lemma {:induction false} DecimalNotEmpty(n: int)
    ensures Decimal(n) != ""
  {
  }

  lemma {:induction false} DecimalLetters(n: int)
    ensures forall c | c in Decimal(n) :: c == '-' || '0' <= c <= '9'
    decreases n < 0, if n < 0 then -n else n
  {
    if n < 0 {
      DecimalLetters(-n);
    } else if n >= 10 {
      DecimalLetters(n / 10);
    }
  }
}
