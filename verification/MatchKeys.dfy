/** The idempotency key of engine-driven settlement, `match-<buy>-<sell>-<seq>`. */
module MatchKeys {
  import opened Domain

  function Digit(d: int): char
    requires 0 <= d < 10
  {
    "0123456789"[d]
  }

  /** The decimal text of a sequence number. */
  function Decimal(n: int): string
    decreases if n < 0 then 1 - n else n
  {
    if n < 0 then "-" + Decimal(-n)
    else if n < 10 then [Digit(n)]
    else Decimal(n / 10) + [Digit(n % 10)]
  }

  function MatchKey(buyOrderId: Uuid, sellOrderId: Uuid, seqNo: int): string {
    "match-" + buyOrderId + "-" + sellOrderId + "-" + Decimal(seqNo)
  }

  /** Two keys agree only when they name the same pair of orders and the same number. */
  lemma MatchKeyInjective(b: Uuid, s: Uuid, n: int, b': Uuid, s': Uuid, n': int)
    requires MatchKey(b, s, n) == MatchKey(b', s', n')
    ensures b == b' && s == s' && n == n'
  {
    KeyParts(b, s, Decimal(n));
    KeyParts(b', s', Decimal(n'));
    DecimalInjective(n, n');
  }

  lemma DigitInjective(d: int, e: int)
    requires 0 <= d < 10 && 0 <= e < 10 && Digit(d) == Digit(e)
    ensures d == e
  {
  }

  /** A decimal text is not empty, and starts with a dash exactly for a negative number. */
  lemma {:induction false} DecimalStart(n: int)
    ensures |Decimal(n)| > 0 && (Decimal(n)[0] == '-' <==> n < 0)
    ensures 0 <= n < 10 <==> |Decimal(n)| == 1
    decreases if n < 0 then 1 - n else n
  {
    if n < 0 {
      DecimalStart(-n);
    } else if n >= 10 {
      DecimalStart(n / 10);
    }
  }

  lemma {:induction false} DecimalInjective(n: int, m: int)
    requires Decimal(n) == Decimal(m)
    ensures n == m
    decreases if n < 0 then 1 - n else n
  {
    hide Decimal, Digit;
    DecimalStart(n);
    DecimalStart(m);
    if n < 0 {
      DecimalNegative(n);
      DecimalNegative(m);
      DecimalInjective(-n, -m);
    } else if n < 10 {
      DecimalShort(n);
      DecimalShort(m);
      DigitInjective(n, m);
    } else {
      DecimalSplit(n);
      DecimalSplit(m);
      DigitInjective(n % 10, m % 10);
      DecimalInjective(n / 10, m / 10);
    }
  }

  lemma DecimalNegative(n: int)
    requires n < 0
    ensures Decimal(n) == ['-'] + Decimal(-n)
    ensures |Decimal(n)| > 0 && Decimal(n)[1..] == Decimal(-n)
  {
  }

  lemma DecimalShort(n: int)
    requires 0 <= n < 10
    ensures Decimal(n) == [Digit(n)]
  {
  }

  lemma DecimalSplit(n: int)
    requires n >= 10
    ensures var k := |Decimal(n)| - 1;
            k >= 0 && Decimal(n)[k] == Digit(n % 10) && Decimal(n)[..k] == Decimal(n / 10)
  {
    assert Decimal(n) == Decimal(n / 10) + [Digit(n % 10)];
  }

  /** The number that a decimal text without a sign stands for. */
  function Value(s: string): int {
    if s == [] then 0 else 10 * Value(s[..|s| - 1]) + (s[|s| - 1] as int - '0' as int)
  }

  /** The key spells out the buy order, the sell order and the number, in this order. */
  lemma KeyText(b: Uuid, s: Uuid, n: nat)
    ensures var k := MatchKey(b, s, n);
            && |k| > 80 && k[..6] == "match-" && k[6..42] == b && k[42] == '-' && k[43..79] == s && k[79] == '-'
            && Value(k[80..]) == n
  {
    KeyParts(b, s, Decimal(n));
    DecimalValue(n);
    DecimalStart(n);
    var k := MatchKey(b, s, n);
    assert k == "match-" + b + "-" + s + "-" + Decimal(n);
    hide Decimal, Value;
  }

  lemma {:induction false} DecimalValue(n: nat)
    ensures Value(Decimal(n)) == n
  {
    if n < 10 {
      DigitValue(n);
      assert Decimal(n)[..0] == [];
    } else {
      DecimalSplit(n);
      DecimalValue(n / 10);
      DigitValue(n % 10);
      assert Decimal(n) == Decimal(n / 10) + [Digit(n % 10)];
    }
  }

  lemma DigitValue(d: int)
    requires 0 <= d < 10
    ensures Digit(d) as int - '0' as int == d
  {
  }

  lemma KeyParts(b: Uuid, s: Uuid, tail: string)
    ensures var k := "match-" + b + "-" + s + "-" + tail;
            |k| >= 80 && k[6..42] == b && k[43..79] == s && k[80..] == tail
  {
  }
}
