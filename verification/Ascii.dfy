/** Text as bytes, and the digits of hexadecimal numbers in either case. */
module Ascii {
  import opened ByteSpec

  const UPPER_DIGITS: string := "0123456789ABCDEF"
  const LOWER_DIGITS: string := "0123456789abcdef"
  const UPPER_LETTERS: string := "ABCDEFGHIJKLMNOPQRSTUVWXYZ"
  const LOWER_LETTERS: string := "abcdefghijklmnopqrstuvwxyz"
  const DIGITS: string := "0123456789"

  /** The byte of a character. */
  predicate Is(b: Byte, c: char) {
    b == c as int
  }

  function Bytes(text: string): (s: seq<Byte>)
    requires forall i :: 0 <= i < |text| ==> text[i] as int < 0x80
    ensures |s| == |text| && forall i :: 0 <= i < |text| ==> Is(s[i], text[i])
  {
    seq(|text|, i requires 0 <= i < |text| => text[i] as int)
  }

  /** b stands for some character of the text. */
  predicate In(b: Byte, text: string) {
    exists i :: 0 <= i < |text| && Is(b, text[i])
  }

  /** x is the hexadecimal digit d, in either case. */
  predicate IsDigit(x: Byte, d: nat) {
    d < 16 && (Is(x, UPPER_DIGITS[d]) || Is(x, LOWER_DIGITS[d]))
  }

  lemma DigitsAre(d: nat)
    requires d < 16
    ensures UPPER_DIGITS[d] as int == if d < 10 then 0x30 + d else 0x37 + d
    ensures LOWER_DIGITS[d] as int == if d < 10 then 0x30 + d else 0x57 + d
  {
    if d < 8 {
      assert d in [0, 1, 2, 3, 4, 5, 6, 7];
    } else {
      assert d in [8, 9, 10, 11, 12, 13, 14, 15];
    }
  }

  lemma LettersAre(i: nat)
    requires i < 26
    ensures |UPPER_LETTERS| == |LOWER_LETTERS| == 26
    ensures UPPER_LETTERS[i] as int == 0x41 + i && LOWER_LETTERS[i] as int == 0x61 + i
  {
    if i < 13 {
      assert i in [0, 1, 2, 3, 4, 5, 6, 7, 8, 9, 10, 11, 12];
    } else {
      assert i in [13, 14, 15, 16, 17, 18, 19, 20, 21, 22, 23, 24, 25];
    }
  }

  lemma InLetters(b: Byte)
    ensures In(b, UPPER_LETTERS) <==> 0x41 <= b <= 0x5A
    ensures In(b, LOWER_LETTERS) <==> 0x61 <= b <= 0x7A
  {
    forall i | 0 <= i < 26
      ensures UPPER_LETTERS[i] as int == 0x41 + i && LOWER_LETTERS[i] as int == 0x61 + i
    {
      LettersAre(i);
    }
    LettersAre(0);
    if 0x41 <= b <= 0x5A {
      assert Is(b, UPPER_LETTERS[b - 0x41]);
    }
    if 0x61 <= b <= 0x7A {
      assert Is(b, LOWER_LETTERS[b - 0x61]);
    }
  }

  lemma InDigits(b: Byte)
    ensures In(b, DIGITS) <==> 0x30 <= b <= 0x39
  {
    assert forall i :: 0 <= i < 10 ==> DIGITS[i] as int == 0x30 + i;
    if 0x30 <= b <= 0x39 {
      assert Is(b, DIGITS[b - 0x30]);
    }
  }
}
