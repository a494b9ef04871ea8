/** Prefixes, decimal numerals and colon-separated keys. */
module Texts {

  /** s[:n] */
  function Take(s: string, n: nat): string {
    if |s| <= n then s else s[..n]
  }

  function DigitOf(d: nat): char
    requires d < 10
  {
    ('0' as int + d) as char
  }

  /** str(n) */
  function Decimal(n: nat): string {
    if n < 10 then [DigitOf(n)] else Decimal(n / 10) + [DigitOf(n % 10)]
  }

  predicate IsDigit(c: char) {
    '0' <= c <= '9'
  }

  function ValueOf(s: string): int {
    if s == [] then 0 else 10 * ValueOf(s[..|s| - 1]) + (s[|s| - 1] as int - '0' as int)
  }

  lemma {:induction false} DecimalReadsBack(n: nat)
    ensures ValueOf(Decimal(n)) == n
    ensures forall i :: 0 <= i < |Decimal(n)| ==> IsDigit(Decimal(n)[i])
  {
    if n >= 10 {
      DecimalReadsBack(n / 10);
      var s := Decimal(n);
      assert s[..|s| - 1] == Decimal(n / 10);
    } else {
      assert Decimal(n)[..0] == [];
    }
  }

  lemma DecimalIsInjective(m: nat, n: nat)
    requires Decimal(m) == Decimal(n)
    ensures m == n
  {
    DecimalReadsBack(m);
    DecimalReadsBack(n);
  }

  predicate ColonFree(s: string) {
    ':' !in s
  }

  lemma DecimalIsColonFree(n: nat)
    ensures ColonFree(Decimal(n))
  {
    DecimalReadsBack(n);
    assert forall c :: c in Decimal(n) ==> IsDigit(c);
  }

  /** A colon-free first part is recovered from a colon-joined text. */
  lemma JoinIsInjective(a: string, b: string, c: string, d: string)
    requires ColonFree(a) && ColonFree(c)
    ensures a + ":" + b == c + ":" + d <==> a == c && b == d
  {
    if a + ":" + b == c + ":" + d {
      var s := a + ":" + b;
      assert s[|a|] == ':' && s[|c|] == ':';
      assert forall i :: 0 <= i < |a| ==> s[i] == a[i] && s[i] != ':';
      assert s == c + ":" + d && forall i :: 0 <= i < |c| ==> s[i] == c[i] && s[i] != ':';
      assert |a| == |c|;
      assert a == s[..|a|] && c == s[..|c|];
      assert b == s[|a| + 1..] && d == s[|c| + 1..];
    }
  }
}
