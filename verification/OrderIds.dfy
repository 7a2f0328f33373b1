/**
 Order ids of one gateway lifetime: "ORD" and a decimal counter
 (`next_order_id`, gateway/FIXGateway.cpp), stored in eight characters.
 */
module OrderIds {
  import opened OrderEvents

  const ID_PREFIX: string := "ORD"

  /** Counter values below this give distinct stored ids. */
  const COUNTER_LIMIT: nat := 100_000

  function Digit(d: nat): (c: char)
    requires d < 10
  {
    '0' + d as char
  }

  /** `std::to_string`. */
  function Decimal(n: nat): (s: string)
    ensures s != ""
    ensures forall i :: 0 <= i < |s| ==> s[i] != '\0'
  {
    if n < 10 then [Digit(n)] else Decimal(n / 10) + [Digit(n % 10)]
  }

  /** The number that a text of digits denotes. */
  function ReadDecimal(s: string): (n: int) {
    if s == "" then 0 else 10 * ReadDecimal(s[..|s| - 1]) + (s[|s| - 1] as int - '0' as int)
  }

  /** Read back, the text of a number is that number, and it is all digits. */
  lemma {:induction false} DecimalReadsBack(n: nat)
    ensures ReadDecimal(Decimal(n)) == n
    ensures forall i :: 0 <= i < |Decimal(n)| ==> '0' <= Decimal(n)[i] <= '9'
  {
    if n < 10 {
      assert ReadDecimal("") == 0;
      assert Decimal(n)[..0] == "";
    } else {
      DecimalReadsBack(n / 10);
      assert Decimal(n)[..|Decimal(n)| - 1] == Decimal(n / 10);
    }
  }

  function OrderIdText(counter: nat): (id: string) {
    ID_PREFIX + Decimal(counter)
  }

  /** The id as the order table stores it. */
  function OrderId(counter: nat): (id: Name) {
    NameOf(OrderIdText(counter))
  }

  lemma {:induction false} DecimalInjective(m: nat, n: nat)
    requires Decimal(m) == Decimal(n)
    ensures m == n
  {
    var s, t := Decimal(m), Decimal(n);
    assert m >= 10 ==> |s| == 1 + |Decimal(m / 10)|;
    assert n >= 10 ==> |t| == 1 + |Decimal(n / 10)|;
    assert s[|s| - 1] == t[|t| - 1];
    if m >= 10 && n >= 10 {
      assert s[..|s| - 1] == Decimal(m / 10) && t[..|t| - 1] == Decimal(n / 10);
      DecimalInjective(m / 10, n / 10);
    }
  }

  function Pow10(k: nat): (power: nat) {
    if k == 0 then 1 else 10 * Pow10(k - 1)
  }

  /** At most k digits is less than 10 to the k. */
  lemma {:induction false} DecimalLength(n: nat, k: nat)
    requires k > 0
    ensures |Decimal(n)| <= k <==> n < Pow10(k)
  {
    if n >= 10 {
      assert |Decimal(n)| == |Decimal(n / 10)| + 1;
      if k > 1 {
        DecimalLength(n / 10, k - 1);
      } else {
        assert |Decimal(n / 10)| > 0;
        assert Pow10(1) == 10 * Pow10(0);
      }
    } else {
      PowAtLeastTen(k);
    }
  }

  lemma {:induction false} PowAtLeastTen(k: nat)
    requires k > 0
    ensures Pow10(k) >= 10
  {
    if k > 1 {
      PowAtLeastTen(k - 1);
    }
  }

  lemma PowersOfTen()
    ensures Pow10(3) == 1_000 && Pow10(4) == 10_000 && Pow10(5) == COUNTER_LIMIT
  {
    assert Pow10(1) == 10 && Pow10(2) == 100;
    assert Pow10(3) == 1_000;
    assert Pow10(4) == 10_000;
  }

  /** The first eight characters. */
  function Clip(s: string): (clipped: string) {
    if |s| <= NAME_BYTES then s else s[..NAME_BYTES]
  }

  lemma {:induction false} CopiedClip(s: string, i: nat)
    requires forall j :: 0 <= j < |s| ==> s[j] != '\0'
    requires i <= |Clip(s)|
    ensures CopiedBytes(s, i, false) == Clip(s)[i..] + Zeros(NAME_BYTES - |Clip(s)|)
    decreases NAME_BYTES - i
  {
    if i < |Clip(s)| {
      CopiedClip(s, i + 1);
      assert Clip(s)[i..] == [s[i]] + Clip(s)[i + 1..];
    } else if i < NAME_BYTES {
      var copied := CopiedBytes(s, i, false);
      assert copied[0] == '\0';
      assert copied == Zeros(NAME_BYTES - i);
    }
  }

  function Zeros(n: nat): (z: string)
    ensures |z| == n && forall i :: 0 <= i < n ==> z[i] == '\0'
  {
    seq(n, i => '\0')
  }

  /** Two texts without NULs are stored as the same name exactly when their first eight
      characters agree. */
  lemma SameNameIffSameClip(s: string, t: string)
    requires forall j :: 0 <= j < |s| ==> s[j] != '\0'
    requires forall j :: 0 <= j < |t| ==> t[j] != '\0'
    ensures NameOf(s) == NameOf(t) <==> Clip(s) == Clip(t)
  {
    CopiedClip(s, 0);
    CopiedClip(t, 0);
    hide CopiedBytes;
    if NameOf(s) == NameOf(t) {
      PaddingEnds(Clip(s), Clip(t));
    }
  }

  lemma PaddingEnds(a: string, b: string)
    requires |a| <= NAME_BYTES && |b| <= NAME_BYTES
    requires forall j :: 0 <= j < |a| ==> a[j] != '\0'
    requires forall j :: 0 <= j < |b| ==> b[j] != '\0'
    requires a[0..] + Zeros(NAME_BYTES - |a|) == b[0..] + Zeros(NAME_BYTES - |b|)
    ensures a == b
  {
    var x, y := a[0..] + Zeros(NAME_BYTES - |a|), b[0..] + Zeros(NAME_BYTES - |b|);
    assert |a| < NAME_BYTES ==> x[|a|] == '\0';
    assert |b| < NAME_BYTES ==> y[|b|] == '\0';
    assert forall j :: 0 <= j < |a| ==> x[j] == a[j];
    assert forall j :: 0 <= j < |b| ==> y[j] == b[j];
  }

  lemma IdsDiffer(m: nat, n: nat)
    requires m != n && m < COUNTER_LIMIT && n < COUNTER_LIMIT
    ensures OrderId(m) != OrderId(n)
  {
    hide NameOf, Decimal, Pow10;
    PowersOfTen();
    DecimalLength(m, 5);
    DecimalLength(n, 5);
    SameNameIffSameClip(OrderIdText(m), OrderIdText(n));
    if Decimal(m) == Decimal(n) {
      DecimalInjective(m, n);
    }
    assert OrderIdText(m)[3..] == Decimal(m) && OrderIdText(n)[3..] == Decimal(n);
  }

  /** The six-digit counter 100000 is stored as the five-digit 10000 was. */
  lemma FirstCollision()
    ensures OrderId(10_000) == OrderId(100_000)
  {
    assert Decimal(100_000) == Decimal(10_000) + [Digit(0)];
    hide NameOf, Decimal, Pow10;
    PowersOfTen();
    DecimalLength(10_000, 4);
    DecimalLength(10_000, 5);
    var s, t := OrderIdText(10_000), OrderIdText(100_000);
    SameNameIffSameClip(s, t);
    assert t == s + [Digit(0)] && |s| == 8;
    assert Clip(t) == s;
  }

  /** An id with this prefix does not start as order ids do. */
  predicate ForeignPrefix(prefix: string) {
    prefix == "" || prefix[0] != ID_PREFIX[0]
  }

  lemma FirstByte(s: string)
    ensures NameOf(s).bytes[0] == CharAt(s, 0)
  {
  }

  lemma {:induction false} FirstDigit(n: nat)
    ensures '0' <= Decimal(n)[0] <= '9'
  {
    if n >= 10 {
      FirstDigit(n / 10);
    }
  }

  lemma NumberedDiffer(prefix: string, m: nat, n: nat)
    requires m != n
    ensures prefix + Decimal(m) != prefix + Decimal(n)
  {
    hide Decimal;
    if Decimal(m) == Decimal(n) {
      DecimalInjective(m, n);
    }
    assert (prefix + Decimal(m))[|prefix|..] == Decimal(m);
    assert (prefix + Decimal(n))[|prefix|..] == Decimal(n);
  }

  /** Four digits after four characters are stored in full. */
  lemma StoredNumberedDiffer(prefix: string, m: nat, n: nat)
    requires m != n && m < 10_000 && n < 10_000 && |prefix| <= 4
    requires forall i :: 0 <= i < |prefix| ==> prefix[i] != '\0'
    ensures NameOf(prefix + Decimal(m)) != NameOf(prefix + Decimal(n))
  {
    hide NameOf, Decimal, Pow10;
    PowersOfTen();
    DecimalLength(m, 4);
    DecimalLength(n, 4);
    NumberedDiffer(prefix, m, n);
    SameNameIffSameClip(prefix + Decimal(m), prefix + Decimal(n));
  }

  lemma ForeignTextDiffers(prefix: string, n: nat, counter: nat)
    requires ForeignPrefix(prefix)
    ensures prefix + Decimal(n) != OrderIdText(counter)
  {
    hide Decimal;
    FirstDigit(n);
    assert prefix == "" ==> prefix + Decimal(n) == Decimal(n);
    assert (prefix + Decimal(n))[0] != OrderIdText(counter)[0];
  }

  /** A numbered id with such a prefix is never stored as an order id. */
  lemma ForeignIdDiffers(prefix: string, n: nat, counter: nat)
    requires ForeignPrefix(prefix)
    ensures NameOf(prefix + Decimal(n)) != OrderId(counter)
  {
    hide NameOf, Decimal;
    FirstByte(prefix + Decimal(n));
    FirstByte(OrderIdText(counter));
    FirstDigit(n);
    assert prefix == "" ==> prefix + Decimal(n) == Decimal(n);
  }

  /** The ids of the first n orders of a gateway lifetime are stored as distinct names
      exactly when n is at most 100000; the next order takes over the slot of an old one. */
  lemma IdsDistinctIff(n: nat)
    ensures (forall i: nat, j: nat :: i < j < n ==> OrderId(i) != OrderId(j)) <==> n <= COUNTER_LIMIT
  {
    if n <= COUNTER_LIMIT {
      forall i: nat, j: nat | i < j < n
        ensures OrderId(i) != OrderId(j)
      {
        IdsDiffer(i, j);
      }
    } else {
      FirstCollision();
    }
  }
}
