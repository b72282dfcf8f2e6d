/** Numbers as `printf` writes them. */
module Numbers {
  import opened Wrappers

  function Digit(d: nat): (c: char)
    requires d < 10
    ensures '0' <= c <= '9'
  {
    ('0' as int + d) as char
  }

  predicate IsDigit(c: char) { '0' <= c <= '9' }

  /** `%zu` */
  function Decimal(n: nat): (s: string)
    ensures s != "" && forall k :: 0 <= k < |s| ==> IsDigit(s[k])
  {
    if n < 10 then [Digit(n)] else Decimal(n / 10) + [Digit(n % 10)]
  }

  /** The number a string of digits denotes; anything else is refused. */
  function ReadDecimal(s: string): Option<nat> {
    if s == "" || !IsDigit(s[|s| - 1]) then None
    else
      var d: nat := s[|s| - 1] as int - '0' as int;
      if |s| == 1 then Some(d)
      else
        match ReadDecimal(s[..|s| - 1])
        case None => None
        case Some(v) => Some(10 * v + d)
  }

  lemma {:induction false} DecimalRoundTrip(n: nat)
    ensures ReadDecimal(Decimal(n)) == Some(n)
  {
    if n >= 10 {
      DecimalRoundTrip(n / 10);
      var s := Decimal(n);
      assert s[..|s| - 1] == Decimal(n / 10);
    }
  }

  function Pow10(k: nat): nat {
    if k == 0 then 1 else 10 * Pow10(k - 1)
  }

  lemma {:induction false} DecimalWidth(n: nat, k: nat)
    requires k >= 1 && n < Pow10(k)
    ensures |Decimal(n)| <= k
  {
    if n >= 10 {
      assert k > 1;
      DecimalWidth(n / 10, k - 1);
    }
  }

  /** A `size_t` passed where `%d` expects an `int`: the low 32 bits, read as signed. */
  function AsInt32(n: nat): int {
    var low := n % 0x1_0000_0000;
    if low < 0x8000_0000 then low else low - 0x1_0000_0000
  }

  /** The only `int` that agrees with it in the low 32 bits. */
  lemma Int32Is(n: nat)
    ensures -0x8000_0000 <= AsInt32(n) < 0x8000_0000 && (n - AsInt32(n)) % 0x1_0000_0000 == 0
  {
  }

  /** `%d` */
  function Signed(n: int): string {
    if n >= 0 then Decimal(n) else "-" + Decimal(-n)
  }

  lemma Int32Width(n: nat)
    ensures |Signed(AsInt32(n))| <= 11
  {
    var v := AsInt32(n);
    assert Pow10(10) == 10_000_000_000;
    DecimalWidth(if v >= 0 then v else -v, 10);
  }
}
