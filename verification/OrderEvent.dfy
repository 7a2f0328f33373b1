/**
 The canonical order event (include/OrderEvent.h): its fields, the 8-byte name
 buffers with the C string functions that fill and compare them, and the factory
 of new orders.

 Quantities, prices and cash are mathematical integers here; `MachineArithmetic`
 says when the machine's integers agree with them.
 */
module OrderEvents {
  const NAME_BYTES: nat := 8

  datatype Side = Buy | Sell

  datatype EventType = NewOrder | PartialFill | FullFill | Cancel | Reject | Amend

  /** A `char[8]` field. */
  datatype NameBuffer = NameBuffer(bytes: string)

  predicate Padded(n: NameBuffer) {
    && |n.bytes| == NAME_BYTES
    && forall i, j :: 0 <= i < j < NAME_BYTES && n.bytes[i] == '\0' ==> n.bytes[j] == '\0'
  }

  /** Every buffer of the program is filled by `strncpy`, so NULs only pad its end. */
  type Name = n: NameBuffer | Padded(n) witness NameBuffer("\0\0\0\0\0\0\0\0")

  datatype OrderEvent = OrderEvent(
    sequence: nat,
    timestampNs: nat,
    price: int,
    fillPrice: int,
    qty: int,
    fillQty: int,
    symbol: Name,
    orderId: Name,
    kind: EventType,
    side: Side)
  {
    predicate IsFill() {
      kind == PartialFill || kind == FullFill
    }
  }

  /** The character a C string function reads at index i of a NUL-terminated string. */
  function CharAt(s: string, i: nat): (c: char) {
    if i < |s| then s[i] else '\0'
  }

  /** The loop of `strncmp(a, b, 8) == 0` from index i on. */
  predicate StrncmpEqual(a: string, b: string, i: nat := 0)
    decreases NAME_BYTES - i
  {
    if i >= NAME_BYTES then true
    else if CharAt(a, i) != CharAt(b, i) then false
    else if CharAt(a, i) == '\0' then true
    else StrncmpEqual(a, b, i + 1)
  }

  /** The loop of `strncpy(dst, s, 8)` from index i on: the bytes it stores. */
  function CopiedBytes(s: string, i: nat, ended: bool): (bytes: string)
    requires i <= NAME_BYTES
    ensures |bytes| == NAME_BYTES - i
    ensures ended ==> forall j :: 0 <= j < |bytes| ==> bytes[j] == '\0'
    ensures forall j, k :: 0 <= j < k < |bytes| && bytes[j] == '\0' ==> bytes[k] == '\0'
    decreases NAME_BYTES - i
  {
    if i == NAME_BYTES then ""
    else if ended || CharAt(s, i) == '\0' then "\0" + CopiedBytes(s, i + 1, true)
    else [CharAt(s, i)] + CopiedBytes(s, i + 1, false)
  }

  /** `strncpy(dst, s, 8)`. */
  function NameOf(s: string): (name: Name) {
    NameBuffer(CopiedBytes(s, 0, false))
  }

  lemma {:induction false} CopiedEqualIffStrncmpEqual(a: string, b: string, i: nat)
    requires i <= NAME_BYTES
    ensures CopiedBytes(a, i, false) == CopiedBytes(b, i, false) <==> StrncmpEqual(a, b, i)
    decreases NAME_BYTES - i
  {
    if i < NAME_BYTES {
      var ca, cb := CopiedBytes(a, i, false), CopiedBytes(b, i, false);
      assert ca[0] == CharAt(a, i) && cb[0] == CharAt(b, i);
      CopiedEqualIffStrncmpEqual(a, b, i + 1);
      if CharAt(a, i) == CharAt(b, i) {
        assert ca == [ca[0]] + ca[1..] && cb == [cb[0]] + cb[1..];
        if CharAt(a, i) == '\0' {
          assert ca == cb;
        }
      }
    }
  }

  /** `strncpy` copies a padded buffer unchanged. */
  lemma {:induction false} CopiedPaddedBuffer(n: Name, i: nat)
    requires i <= NAME_BYTES
    ensures CopiedBytes(n.bytes, i, 0 < i && n.bytes[i - 1] == '\0') == n.bytes[i..]
    decreases NAME_BYTES - i
  {
    if i < NAME_BYTES {
      CopiedPaddedBuffer(n, i + 1);
      assert n.bytes[i..] == [n.bytes[i]] + n.bytes[i + 1..];
    }
  }

  /** A slot's name compares equal to a looked-up string exactly when that string is
      copied to the same name: `find` is a lookup by name, and only the first eight
      characters of a symbol or order id count. */
  lemma StrncmpIsNameEquality(n: Name, s: string)
    ensures StrncmpEqual(n.bytes, s) <==> n == NameOf(s)
  {
    CopiedEqualIffStrncmpEqual(n.bytes, s, 0);
    CopiedPaddedBuffer(n, 0);
  }

  /** Copying the view of a name gives the name back. */
  lemma NameOfBytes(n: Name)
    ensures NameOf(n.bytes) == n
  {
    CopiedPaddedBuffer(n, 0);
  }

  function MakeNewOrder(sym: string, side: Side, qty: int, price: int, oid: string): (e: OrderEvent) {
    OrderEvent(0, 0, price, 0, qty, 0, NameOf(sym), NameOf(oid), NewOrder, side)
  }
}
