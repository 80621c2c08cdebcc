/** Strings made of parts: separators and decimal numbers. */
module Text {

  lemma NotBefore(s: string, c: char, p: string, x: string)
    requires c !in p && s == p + [c] + x
    ensures s[|p|] == c && forall i :: 0 <= i < |p| ==> s[i] != c
    ensures s[..|p|] == p && s[|p| + 1..] == x
  {
  }

  /** A part that does not contain the separator ends where the separator first occurs. */
  lemma FirstSeparator(c: char, p: string, x: string, q: string, y: string)
    requires c !in p && c !in q && p + [c] + x == q + [c] + y
    ensures p == q && x == y
  {
    var s := p + [c] + x;
    NotBefore(s, c, p, x);
    NotBefore(s, c, q, y);
    assert |p| == |q|;
  }

  function Digit(d: nat): char
    requires d < 10
  {
    '0' + d as char
  }

  /** `str(n)`. */
  function Decimal(n: nat): string {
    if n < 10 then [Digit(n)] else Decimal(n / 10) + [Digit(n % 10)]
  }

  function Number(s: string): int {
    if s == "" then 0 else 10 * Number(s[..|s| - 1]) + (s[|s| - 1] as int - '0' as int)
  }

  lemma {:induction false} DecimalReadsBack(n: nat)
    ensures Number(Decimal(n)) == n
    ensures forall i :: 0 <= i < |Decimal(n)| ==> '0' <= Decimal(n)[i] <= '9'
  {
    if n >= 10 {
      DecimalReadsBack(n / 10);
      assert Decimal(n)[..|Decimal(n)| - 1] == Decimal(n / 10);
    } else {
      assert Number([Digit(n)][..0]) == 0;
    }
  }
}
