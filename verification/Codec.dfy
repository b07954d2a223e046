/**
 How numbers and strings become bytes: fixed width in either byte order, seven bits a byte,
 zigzag for signed numbers, and strings behind their length. Widths are in bytes. Shifts,
 masks and disjunctions of the code are written as division, remainder and sum; exclusive or
 is defined bit by bit.
 */
module Codec {
  import opened ByteSpec

  // ---------------------------------------------------------------- words

  function Power(b: nat, n: nat): nat {
    if n == 0 then 1 else b * Power(b, n - 1)
  }

  lemma {:induction false} PowerPositive(b: nat, n: nat)
    requires b > 0
    ensures Power(b, n) > 0
  {
    if n > 0 {
      PowerPositive(b, n - 1);
      assert b * Power(b, n - 1) > 0;
    }
  }

  /** The numbers of an unsigned type of w bytes. */
  predicate IsWord(v: nat, w: nat) {
    v < Power(256, w)
  }

  /** The w bytes of v, the lowest first. */
  function Digits(v: nat, w: nat): (s: seq<Byte>)
    ensures |s| == w
  {
    if w == 0 then [] else [v % 256] + Digits(v / 256, w - 1)
  }

  function Number(s: seq<Byte>): nat {
    if s == [] then 0 else s[0] + 256 * Number(s[1..])
  }

  lemma {:induction false} NumberOfDigits(v: nat, w: nat)
    requires IsWord(v, w)
    ensures Number(Digits(v, w)) == v
  {
    if w > 0 {
      assert v / 256 < Power(256, w - 1);
      NumberOfDigits(v / 256, w - 1);
      assert Digits(v, w)[1..] == Digits(v / 256, w - 1);
    }
  }

  lemma {:induction false} DigitsOfNumber(s: seq<Byte>)
    ensures IsWord(Number(s), |s|) && Digits(Number(s), |s|) == s
  {
    if s != [] {
      DigitsOfNumber(s[1..]);
      var n := Number(s[1..]);
      assert s[0] + 256 * n < 256 * (n + 1) <= 256 * Power(256, |s| - 1);
      assert (s[0] + 256 * n) / 256 == n && (s[0] + 256 * n) % 256 == s[0];
    }
  }

  // ---------------------------------------------------------------- byte order

  datatype Order = Little | Big

  function Reversed(s: seq<Byte>): (r: seq<Byte>)
    ensures |r| == |s|
  {
    seq(|s|, i requires 0 <= i < |s| => s[|s| - 1 - i])
  }

  lemma ReversedTwice(s: seq<Byte>)
    ensures Reversed(Reversed(s)) == s
  {}

  /** How a machine of that order keeps v in memory. */
  function Memory(v: nat, w: nat, order: Order): (s: seq<Byte>)
    ensures |s| == w
  {
    if order == Little then Digits(v, w) else Reversed(Digits(v, w))
  }

  function FromMemory(s: seq<Byte>, order: Order): nat {
    Number(if order == Little then s else Reversed(s))
  }

  /** byteswap. */
  function Swapped(v: nat, w: nat): nat {
    Number(Reversed(Digits(v, w)))
  }

  lemma MemoryRoundTrip(v: nat, w: nat, order: Order)
    requires IsWord(v, w)
    ensures FromMemory(Memory(v, w, order), order) == v
  {
    ReversedTwice(Digits(v, w));
    NumberOfDigits(v, w);
  }

  lemma SwappedTwice(v: nat, w: nat)
    requires IsWord(v, w)
    ensures IsWord(Swapped(v, w), w) && Swapped(Swapped(v, w), w) == v
  {
    DigitsOfNumber(Reversed(Digits(v, w)));
    ReversedTwice(Digits(v, w));
    NumberOfDigits(v, w);
  }

  /** What a machine of order host stores to write v in the given order. */
  function Stored(v: nat, w: nat, order: Order, host: Order): nat {
    if order != host then Swapped(v, w) else v
  }

  /** Whatever the machine: the bytes written depend on the chosen order alone. */
  lemma StoredIsPortable(v: nat, w: nat, order: Order, host: Order)
    requires IsWord(v, w)
    ensures Memory(Stored(v, w, order, host), w, host) == Memory(v, w, order)
  {
    DigitsOfNumber(Reversed(Digits(v, w)));
    ReversedTwice(Digits(v, w));
  }

  /** And so does the number read back. */
  lemma LoadedIsPortable(s: seq<Byte>, order: Order, host: Order)
    ensures Stored(FromMemory(s, host), |s|, order, host) == FromMemory(s, order)
  {
    DigitsOfNumber(s);
    DigitsOfNumber(Reversed(s));
    ReversedTwice(s);
  }

  // ---------------------------------------------------------------- which byte is where

  lemma Compose(v: nat, a: nat, b: nat, u: nat, rest: nat, q: nat, r: nat)
    requires v == a * u + rest && u == b * q + r
    ensures v == a * b * q + (a * r + rest)
  {
    assert a * (b * q) == a * b * q;
    assert a * u == a * (b * q) + a * r;
  }

  lemma Below(a: nat, b: nat, r: nat, rest: nat)
    requires r < b && rest < a
    ensures a * r + rest < a * b
  {
    assert a * r + a == a * (r + 1);
    assert a * (b - r - 1) >= 0;
    assert a * b == a * (r + 1) + a * (b - r - 1);
  }

  lemma Product(m: int, q: int)
    requires m > 0
    ensures q >= 1 ==> m * q >= m
    ensures q <= -2 ==> m * q <= -2 * m
    ensures q == -1 ==> m * q == -m
    ensures q == 0 ==> m * q == 0
  {
    if q >= 1 {
      assert m * q == m + m * (q - 1);
      assert m * (q - 1) >= 0;
    }
    if q <= -2 {
      assert m * q == -2 * m + m * (q + 2);
      assert m * (q + 2) <= 0;
    }
  }

  lemma Quotient(v: nat, m: nat, q: nat, r: nat)
    requires v == m * q + r && r < m
    ensures v / m == q
  {
    var k := v / m - q;
    assert m * k == m * (v / m) - m * q;
    Product(m, k);
  }

  lemma Divided(v: nat, a: nat)
    requires a > 0
    ensures v == a * (v / a) + v % a && v % a < a
  {}

  lemma DivTwice(v: nat, a: nat, b: nat)
    requires a > 0 && b > 0
    ensures a * b > 0 && v / a / b == v / (a * b)
  {
    var u, rest := v / a, v % a;
    var q, r := u / b, u % b;
    Divided(v, a);
    Divided(u, b);
    Compose(v, a, b, u, rest, q, r);
    Below(a, b, r, rest);
    Quotient(v, a * b, q, a * r + rest);
  }

  /** Byte i is the i-th of the number in base 256. */
  lemma {:induction false} DigitAt(v: nat, w: nat, i: nat)
    requires i < w
    ensures Power(256, i) > 0 && Digits(v, w)[i] == v / Power(256, i) % 256
  {
    PowerPositive(256, i);
    if i > 0 {
      DigitAt(v / 256, w - 1, i - 1);
      PowerPositive(256, i - 1);
      DivTwice(v, 256, Power(256, i - 1));
    }
  }

  /** Byte i of the number, counted from the lowest. */
  function ByteOf(v: nat, i: nat): Byte {
    PowerPositive(256, i);
    v / Power(256, i) % 256
  }

  /** s holds the bytes of v from the lowest to the highest, or else from the highest. */
  predicate Spells(s: seq<Byte>, v: nat, lowestFirst: bool) {
    v < Power(256, |s|) && forall i :: 0 <= i < |s| ==> s[i] == ByteOf(v, if lowestFirst then i else |s| - 1 - i)
  }

  lemma DigitsSpell(v: nat, w: nat)
    requires IsWord(v, w)
    ensures Spells(Digits(v, w), v, true)
    ensures Spells(Reversed(Digits(v, w)), v, false)
  {
    forall i | 0 <= i < w
      ensures Digits(v, w)[i] == ByteOf(v, i)
    {
      DigitAt(v, w, i);
    }
    hide ByteOf;
  }

  /** A little-endian machine keeps the lowest byte first, a big-endian one the highest. */
  lemma MemorySpells(v: nat, w: nat, order: Order)
    requires IsWord(v, w)
    ensures Spells(Memory(v, w, order), v, order.Little?)
  {
    DigitsSpell(v, w);
  }

  /** And reads them so. */
  lemma LoadedSpells(s: seq<Byte>, order: Order)
    ensures Spells(s, FromMemory(s, order), order.Little?)
  {
    var d := if order == Little then s else Reversed(s);
    DigitsOfNumber(d);
    DigitsSpell(Number(d), |s|);
    ReversedTwice(s);
    hide Spells;
  }

  /** byteswap puts every byte at the other end. */
  lemma SwappedBytes(v: nat, w: nat, i: nat)
    requires IsWord(v, w) && i < w
    ensures ByteOf(Swapped(v, w), i) == ByteOf(v, w - 1 - i)
  {
    DigitsOfNumber(Reversed(Digits(v, w)));
    DigitAt(Swapped(v, w), w, i);
    DigitAt(v, w, w - 1 - i);
  }

  // ---------------------------------------------------------------- seven bits a byte

  /** The bytes of writeUint32 and writeUint64. */
  function Varint(v: nat): seq<Byte> {
    if v < 0x80 then [v] else [v % 0x80 + 0x80] + Varint(v / 0x80)
  }

  lemma {:induction false} VarintSize(v: nat, n: nat)
    requires n > 0 && v < Power(0x80, n)
    ensures 0 < |Varint(v)| <= n
  {
    if v >= 0x80 {
      assert n > 1 by {
        assert Power(0x80, 1) == 0x80 * Power(0x80, 0);
      }
      assert v / 0x80 < Power(0x80, n - 1);
      VarintSize(v / 0x80, n - 1);
    }
  }

  lemma Powers()
    ensures Power(256, 1) == 0x100 && Power(256, 2) == 0x1_0000 && Power(256, 4) == 0x1_0000_0000
    ensures Power(256, 8) == 0x1_0000_0000_0000_0000
    ensures Power(0x80, 5) == 0x8_0000_0000 && Power(0x80, 10) == 0x40_0000_0000_0000_0000
  {
    assert Power(256, 4) == 256 * (256 * (256 * (256 * Power(256, 0))));
    assert Power(256, 8) == 256 * (256 * (256 * (256 * Power(256, 4))));
    assert Power(0x80, 5) == 0x80 * (0x80 * (0x80 * (0x80 * (0x80 * Power(0x80, 0)))));
    assert Power(0x80, 10) == 0x80 * (0x80 * (0x80 * (0x80 * (0x80 * Power(0x80, 5)))));
  }

  /** 32-bit numbers take at most 5 bytes, 64-bit numbers at most 10. */
  lemma {:induction false} VarintFits(v: nat)
    ensures IsWord(v, 4) ==> |Varint(v)| <= 5
    ensures IsWord(v, 8) ==> |Varint(v)| <= 10
  {
    Powers();
    if IsWord(v, 8) {
      VarintSize(v, 10);
    }
    if IsWord(v, 4) {
      VarintSize(v, 5);
    }
  }

  lemma GroupOn(v: nat, i: nat)
    ensures Power(0x80, i) > 0 && (i == 0 ==> v / Power(0x80, i) == v)
    ensures i > 0 ==> Power(0x80, i - 1) > 0 && v / Power(0x80, i) == v / 0x80 / Power(0x80, i - 1)
  {
    PowerPositive(0x80, i);
    if i > 0 {
      PowerPositive(0x80, i - 1);
      DivTwice(v, 0x80, Power(0x80, i - 1));
    }
  }

  /** Byte i holds the i-th group of seven bits, the lowest first, and its top bit says whether
      more follow; there are as many as the number needs. */
  lemma {:induction false} VarintBytes(v: nat, i: nat)
    requires i < |Varint(v)|
    ensures Power(0x80, i) > 0
    ensures Varint(v)[i] == v / Power(0x80, i) % 0x80 + if v / Power(0x80, i) >= 0x80 then 0x80 else 0
    ensures i + 1 < |Varint(v)| <==> v / Power(0x80, i) >= 0x80
  {
    GroupOn(v, i);
    hide Power;
    if i > 0 {
      VarintBytes(v / 0x80, i - 1);
    }
  }

  // ---------------------------------------------------------------- zigzag

  /** Two's complement in w bytes. */
  function Wrapped(v: int, w: nat): nat {
    PowerPositive(256, w);
    v % Power(256, w)
  }

  function Signed(u: nat, w: nat): int {
    if 2 * u < Power(256, w) then u else u - Power(256, w)
  }

  predicate IsSigned(v: int, w: nat) {
    -(Power(256, w) as int) <= 2 * v < Power(256, w)
  }

  /** -v and v * 2 wrap. */
  function Zigzag(v: int, w: nat): nat {
    if v < 0 then Wrapped(Wrapped(-v, w) * 2 - 1, w) else Wrapped(v * 2, w)
  }

  /** Bit by bit, the lowest first. */
  function Xor(a: nat, b: nat): nat {
    if a == 0 && b == 0 then 0 else (a + b) % 2 + 2 * Xor(a / 2, b / 2)
  }

  /** (u >> 1) ^ -(u & 1), where the negation wraps. */
  function Unzigzag(u: nat, w: nat): int
    requires IsWord(u, w)
  {
    Signed(Xor(u / 2, Wrapped(-(u % 2), w)), w)
  }

  lemma Remainder(v: int, m: int)
    requires m > 0
    ensures 0 <= v < m ==> v % m == v
    ensures -m <= v < 0 ==> v % m == v + m
  {
    var q := v / m;
    assert v == m * q + v % m;
    Product(m, q);
  }

  lemma WrappedIs(v: int, w: nat)
    ensures 0 <= v < Power(256, w) ==> Wrapped(v, w) == v
    ensures -(Power(256, w) as int) <= v < 0 ==> Wrapped(v, w) == v + Power(256, w)
  {
    PowerPositive(256, w);
    Remainder(v, Power(256, w));
  }

  lemma EvenPower(w: nat)
    requires w > 0
    ensures Power(256, w) % 2 == 0
  {}

  lemma {:induction false} XorNone(a: nat)
    ensures Xor(a, 0) == a
  {
    if a > 0 {
      XorNone(a / 2);
    }
  }

  /** All ones turn every bit over, which takes the number from the largest one. */
  lemma {:induction false} XorAll(a: nat, n: nat)
    requires a < Power(2, n)
    ensures Xor(a, Power(2, n) - 1) == Power(2, n) - 1 - a
  {
    if n > 0 {
      var half := Power(2, n - 1);
      assert (2 * half - 1) / 2 == half - 1;
      XorAll(a / 2, n - 1);
    }
  }

  lemma EightMore(n: nat)
    ensures Power(2, n + 8) == 256 * Power(2, n)
  {
    assert Power(2, n + 2) == 4 * Power(2, n);
    assert Power(2, n + 4) == 4 * Power(2, n + 2);
    assert Power(2, n + 6) == 4 * Power(2, n + 4);
    assert Power(2, n + 8) == 4 * Power(2, n + 6);
  }

  lemma {:induction false} BitsOfBytes(w: nat)
    ensures Power(256, w) == Power(2, 8 * w)
  {
    if w > 0 {
      BitsOfBytes(w - 1);
      EightMore(8 * (w - 1));
    }
  }

  /** The decoder, for every width: half the code, or that with every bit turned over. */
  lemma TurnedOver(u: nat, w: nat)
    requires w > 0 && IsWord(u, w)
    ensures Unzigzag(u, w) == Signed(if u % 2 == 0 then u / 2 else Power(256, w) - 1 - u / 2, w)
  {
    WrappedIs(-(u % 2), w);
    PowerPositive(256, w);
    BitsOfBytes(w);
    hide Power;
    hide Wrapped;
    hide Xor;
    if u % 2 == 0 {
      XorNone(u / 2);
    } else {
      XorAll(u / 2, 8 * w);
    }
  }

  /** A signed number comes back from its two's complement. */
  lemma {:induction false} SignedRoundTrip(v: int, w: nat)
    requires IsSigned(v, w)
    ensures Wrapped(v, w) == if v < 0 then v + Power(256, w) else v
    ensures IsWord(Wrapped(v, w), w) && Signed(Wrapped(v, w), w) == v
  {
    WrappedIs(v, w);
    PowerPositive(256, w);
  }

  /** Zigzag puts the small numbers of either sign first, and loses none, not even the least. */
  lemma ZigzagMeaning(v: int, w: nat)
    requires w > 0 && IsSigned(v, w)
    ensures Zigzag(v, w) == if v < 0 then -2 * v - 1 else 2 * v
    ensures IsWord(Zigzag(v, w), w) && Unzigzag(Zigzag(v, w), w) == v
  {
    hide Power;
    hide Wrapped;
    hide Unzigzag;
    EvenPower(w);
    PowerPositive(256, w);
    WrappedIs(-v, w);
    WrappedIs(2 * v, w);
    WrappedIs(-2 * v - 1, w);
    TurnedOver(if v < 0 then -2 * v - 1 else 2 * v, w);
  }

  lemma UnzigzagRoundTrip(u: nat, w: nat)
    requires w > 0 && IsWord(u, w)
    ensures IsSigned(Unzigzag(u, w), w) && Zigzag(Unzigzag(u, w), w) == u
  {
    hide Power;
    hide Wrapped;
    EvenPower(w);
    TurnedOver(u, w);
    hide Unzigzag;
    ZigzagMeaning(Unzigzag(u, w), w);
  }
}
