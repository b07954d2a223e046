/** URL encoding and decoding with a buffer made only when it is needed, and trimming. */
module Url {
  import opened Wrappers
  import opened ByteSpec
  import Ascii

  const SPACE: Byte := 0x20
  const PERCENT: Byte := 0x25
  const PLUS: Byte := 0x2B

  predicate Digit(b: Byte) {
    0x30 <= b <= 0x39
  }

  predicate Letter(b: Byte) {
    0x41 <= b <= 0x5A || 0x61 <= b <= 0x7A
  }

  /** The table uri_chars: letters, digits and - . _ ~ and also =. */
  predicate Unreserved(b: Byte) {
    Letter(b) || Digit(b) || b in {0x2D, 0x2E, 0x3D, 0x5F, 0x7E}
  }

  /** isxdigit, and the table xdigit_chars. */
  predicate IsHex(b: Byte) {
    Digit(b) || 0x41 <= b <= 0x46 || 0x61 <= b <= 0x66
  }

  function HexValue(b: Byte): nat {
    if Digit(b) then b - 0x30 else if 0x41 <= b <= 0x46 then b - 0x37 else if 0x61 <= b <= 0x66 then b - 0x57 else 0
  }

  function HexDigit(n: nat): Byte
    requires n < 16
  {
    if n < 10 then 0x30 + n else 0x37 + n
  }

  // ---------------------------------------------------------------- the map

  function EncodeByte(b: Byte, spaceAsPlus: bool): seq<Byte> {
    if Unreserved(b) then [b]
    else if b == SPACE && spaceAsPlus then [PLUS]
    else [PERCENT, HexDigit(b / 16), HexDigit(b % 16)]
  }

  function Encoded(s: seq<Byte>, spaceAsPlus: bool): seq<Byte> {
    if s == [] then [] else EncodeByte(s[0], spaceAsPlus) + Encoded(s[1..], spaceAsPlus)
  }

  /** An escape with its two digits at the beginning of s. */
  predicate Escape(s: seq<Byte>) {
    |s| >= 3 && s[0] == PERCENT && IsHex(s[1]) && IsHex(s[2])
  }

  function Decoded(s: seq<Byte>, spaceAsPlus: bool): seq<Byte> {
    if s == [] then []
    else if s[0] == PLUS && spaceAsPlus then [SPACE] + Decoded(s[1..], spaceAsPlus)
    else if Escape(s) then [HexValue(s[1]) * 16 + HexValue(s[2])] + Decoded(s[3..], spaceAsPlus)
    else [s[0]] + Decoded(s[1..], spaceAsPlus)
  }

  // ---------------------------------------------------------------- the loops

  /** What has been produced so far: the buffer, or the input as far as it has been read. */
  function SoFar(ss: Option<seq<Byte>>, str: seq<Byte>, c: nat): seq<Byte>
    requires c <= |str|
  {
    match ss
    case Some(buffer) => buffer
    case None => str[..c]
  }

  lemma EncodedOn(str: seq<Byte>, c: nat, spaceAsPlus: bool, soFar: seq<Byte>)
    requires c < |str|
    ensures soFar + Encoded(str[c..], spaceAsPlus)
              == soFar + EncodeByte(str[c], spaceAsPlus) + Encoded(str[c+1..], spaceAsPlus)
    ensures Unreserved(str[c]) ==> str[..c+1] == str[..c] + EncodeByte(str[c], spaceAsPlus)
    ensures !Unreserved(str[c]) && !(str[c] == SPACE && spaceAsPlus) ==>
              soFar + EncodeByte(str[c], spaceAsPlus)
                  == soFar + [PERCENT] + [HexDigit(str[c] / 16)] + [HexDigit(str[c] % 16)]
  {
    assert str[c..][1..] == str[c+1..];
  }

  method UrlEncode(str: seq<Byte>, spaceAsPlus: bool) returns (r: seq<Byte>)
    ensures r == Encoded(str, spaceAsPlus)
  {
    var ss: Option<seq<Byte>> := None;
    var c := 0;
    while c < |str|
      invariant c <= |str| && Encoded(str, spaceAsPlus) == SoFar(ss, str, c) + Encoded(str[c..], spaceAsPlus)
    {
      EncodedOn(str, c, spaceAsPlus, SoFar(ss, str, c));
      if !Unreserved(str[c]) {
        if ss == None {
          ss := Some(str[..c]);
        }
        if str[c] == SPACE && spaceAsPlus {
          ss := Some(ss.value + [PLUS]);
        } else {
          ss := Some(ss.value + [PERCENT] + [HexDigit(str[c] / 16)] + [HexDigit(str[c] % 16)]);
        }
      } else if ss.Some? {
        ss := Some(ss.value + [str[c]]);
      }
      c := c + 1;
    }
    return if ss.None? then str else ss.value;
  }

  lemma DecodedOn(str: seq<Byte>, c: nat, spaceAsPlus: bool, soFar: seq<Byte>)
    requires c < |str|
    ensures str[..c+1] == str[..c] + [str[c]]
    ensures soFar + Decoded(str[c..], spaceAsPlus) ==
            if str[c] == PLUS && spaceAsPlus then soFar + [SPACE] + Decoded(str[c+1..], spaceAsPlus)
            else if Escape(str[c..]) then soFar + [HexValue(str[c+1]) * 16 + HexValue(str[c+2])]
                + Decoded(str[c+3..], spaceAsPlus)
            else soFar + [str[c]] + Decoded(str[c+1..], spaceAsPlus)
  {
    assert str[c..][1..] == str[c+1..];
    if Escape(str[c..]) {
      assert str[c..][3..] == str[c+3..];
    }
  }

  method UrlDecode(str: seq<Byte>, spaceAsPlus: bool) returns (r: seq<Byte>)
    ensures r == Decoded(str, spaceAsPlus)
  {
    var ss: Option<seq<Byte>> := None;
    var c := 0;
    while c < |str|
      invariant c <= |str| && Decoded(str, spaceAsPlus) == SoFar(ss, str, c) + Decoded(str[c..], spaceAsPlus)
    {
      DecodedOn(str, c, spaceAsPlus, SoFar(ss, str, c));
      if str[c] == PLUS && spaceAsPlus {
        if ss == None {
          ss := Some(str[..c]);
        }
        ss := Some(ss.value + [SPACE]);
      } else if str[c] == PERCENT && c + 2 < |str| && IsHex(str[c+1]) && IsHex(str[c+2]) {
        if ss == None {
          ss := Some(str[..c]);
        }
        ss := Some(ss.value + [HexValue(str[c+1]) * 16 + HexValue(str[c+2])]);
        c := c + 2;
      } else if ss.Some? {
        ss := Some(ss.value + [str[c]]);
      }
      c := c + 1;
    }
    return if ss.None? then str else ss.value;
  }

  // ---------------------------------------------------------------- round trips

  lemma EscapedByte(b: Byte)
    ensures IsHex(HexDigit(b / 16)) && IsHex(HexDigit(b % 16))
    ensures HexValue(HexDigit(b / 16)) * 16 + HexValue(HexDigit(b % 16)) == b
  {}

  /** One byte comes back, provided that a space written as + is read as one. */
  lemma ByteRoundTrip(b: Byte, plus: bool, readPlus: bool, rest: seq<Byte>)
    requires readPlus || !(plus && b == SPACE)
    ensures Decoded(EncodeByte(b, plus) + rest, readPlus) == [b] + Decoded(rest, readPlus)
  {
    var code := EncodeByte(b, plus) + rest;
    EscapedByte(b);
    if Unreserved(b) || (b == SPACE && plus) {
      assert code[1..] == rest;
    } else {
      assert code[3..] == rest;
    }
  }

  lemma {:induction false} DecodeEncode(s: seq<Byte>, plus: bool, readPlus: bool)
    requires readPlus || !(plus && SPACE in s)
    ensures Decoded(Encoded(s, plus), readPlus) == s
  {
    if s != [] {
      DecodeEncode(s[1..], plus, readPlus);
      ByteRoundTrip(s[0], plus, readPlus, Encoded(s[1..], plus));
    }
  }

  lemma {:induction false} PlusStays(s: seq<Byte>)
    requires SPACE in s
    ensures Decoded(Encoded(s, true), false) != s
  {
    var rest := Encoded(s[1..], true);
    if s[0] == SPACE {
      assert (EncodeByte(SPACE, true) + rest)[0] == PLUS;
    } else {
      PlusStays(s[1..]);
      ByteRoundTrip(s[0], true, false, rest);
      var back := Decoded(Encoded(s, true), false);
      assert back[1..] == Decoded(rest, false);
    }
  }

  /** Read with the default, everything comes back; read without plus for space, it comes back
      exactly if no space was written as plus. */
  lemma {:induction false} RoundTrip(s: seq<Byte>, plus: bool, readPlus: bool)
    ensures Decoded(Encoded(s, plus), readPlus) == s <==> readPlus || !plus || SPACE !in s
  {
    if readPlus || !plus || SPACE !in s {
      DecodeEncode(s, plus, readPlus);
    } else {
      PlusStays(s);
    }
  }

  /** The bytes an encoding can consist of. */
  predicate Alphabet(b: Byte) {
    Unreserved(b) || b == PLUS || b == PERCENT
  }

  lemma {:induction false} EncodedAlphabet(s: seq<Byte>, plus: bool)
    ensures forall b :: b in Encoded(s, plus) ==> Alphabet(b)
  {
    if s != [] {
      EncodedAlphabet(s[1..], plus);
    }
  }

  // ---------------------------------------------------------------- byte by byte

  /** A hexadecimal digit is worth its place in the list of digits, in either case. */
  lemma HexMeans(x: Byte, d: nat)
    ensures IsHex(x) && HexValue(x) == d <==> Ascii.IsDigit(x, d)
  {
    if d < 16 {
      Ascii.DigitsAre(d);
    }
  }

  lemma Punctuation(b: Byte)
    ensures Ascii.In(b, "-._~=") <==> b in {0x2D, 0x2E, 0x3D, 0x5F, 0x7E}
  {
    var text := "-._~=";
    assert text[0] == '-' && text[1] == '.' && text[2] == '_' && text[3] == '~' && text[4] == '=';
    if b in {0x2D, 0x2E, 0x3D, 0x5F, 0x7E} {
      var i := if b == 0x2D then 0 else if b == 0x2E then 1 else if b == 0x5F then 2 else if b == 0x7E then 3 else 4;
      assert Ascii.Is(b, text[i]);
    }
  }

  /** Letters, digits and five signs stay; a space is a plus if so wanted; anything else is its two
      digits in upper case. */
  lemma EncodedMeans(b: Byte, spaceAsPlus: bool)
    ensures var code := EncodeByte(b, spaceAsPlus);
            if Ascii.In(b, Ascii.UPPER_LETTERS) || Ascii.In(b, Ascii.LOWER_LETTERS) || Ascii.In(b, Ascii.DIGITS)
               || Ascii.In(b, "-._~=")
            then code == [b]
            else if Ascii.Is(b, ' ') && spaceAsPlus then |code| == 1 && Ascii.Is(code[0], '+')
            else |code| == 3 && Ascii.Is(code[0], '%')
                 && Ascii.Is(code[1], Ascii.UPPER_DIGITS[b / 16]) && Ascii.Is(code[2], Ascii.UPPER_DIGITS[b % 16])
  {
    Ascii.InLetters(b);
    Ascii.InDigits(b);
    Punctuation(b);
    Ascii.DigitsAre(b / 16);
    Ascii.DigitsAre(b % 16);
    hide Ascii.In;
  }

  /** Two digits in either case behind a percent sign stand for the byte they spell. */
  lemma DecodedEscape(b: Byte, x: Byte, y: Byte, rest: seq<Byte>, plus: bool)
    requires Ascii.IsDigit(x, b / 16) && Ascii.IsDigit(y, b % 16)
    ensures Decoded([PERCENT, x, y] + rest, plus) == [b] + Decoded(rest, plus)
  {
    HexMeans(x, b / 16);
    HexMeans(y, b % 16);
    var s := [PERCENT, x, y] + rest;
    assert s[3..] == rest && s[1] == x && s[2] == y;
    hide HexValue;
    hide IsHex;
  }

  /** A percent sign with its two digits. */
  ghost predicate Escapes(s: seq<Byte>) {
    && |s| >= 3 && Ascii.Is(s[0], '%')
    && (exists d :: Ascii.IsDigit(s[1], d)) && (exists d :: Ascii.IsDigit(s[2], d))
  }

  /** Anything else stays as it is, but for a plus that is read as a space. */
  lemma DecodedKept(b: Byte, rest: seq<Byte>, plus: bool)
    requires !Escapes([b] + rest)
    ensures Decoded([b] + rest, plus) == [if Ascii.Is(b, '+') && plus then 0x20 else b] + Decoded(rest, plus)
  {
    var s := [b] + rest;
    assert s[1..] == rest;
    if Escape(s) {
      HexMeans(s[1], HexValue(s[1]));
      HexMeans(s[2], HexValue(s[2]));
      assert false;
    }
  }

  // ---------------------------------------------------------------- trimming

  function FirstNot(s: seq<Byte>, d: set<Byte>): (r: nat)
    ensures r <= |s| && (forall i :: 0 <= i < r ==> s[i] in d) && (r < |s| ==> s[r] !in d)
  {
    if s == [] || s[0] !in d then 0 else 1 + FirstNot(s[1..], d)
  }

  /** One past the last byte that is not in d; 0 if there is none. */
  function AfterLastNot(s: seq<Byte>, d: set<Byte>): (r: nat)
    ensures r <= |s| && (forall i :: r <= i < |s| ==> s[i] in d) && (r > 0 ==> s[r-1] !in d)
  {
    if s == [] then 0 else if s[|s|-1] !in d then |s| else AfterLastNot(s[..|s|-1], d)
  }

  function Trim(s: seq<Byte>, d: set<Byte>): seq<Byte> {
    var begin, end := FirstNot(s, d), AfterLastNot(s, d);
    if begin == |s| then [] else assert begin < end; s[begin..end]
  }

  /** Trimming takes away outer bytes of d and no others. */
  lemma TrimMeaning(a: seq<Byte>, s: seq<Byte>, b: seq<Byte>, d: set<Byte>)
    requires (forall x :: x in a || x in b ==> x in d)
    requires s != [] ==> s[0] !in d && s[|s|-1] !in d
    ensures Trim(a + s + b, d) == s
  {
    var all := a + s + b;
    if s == [] {
      assert forall i :: 0 <= i < |all| ==> all[i] in d;
    } else {
      assert all[|a|] == s[0] && all[|a| + |s| - 1] == s[|s|-1];
      assert forall i :: 0 <= i < |a| ==> all[i] == a[i] && all[i] in a;
      assert forall i :: |a| + |s| <= i < |all| ==> all[i] == b[i - |a| - |s|] && all[i] in b;
      assert FirstNot(all, d) == |a|;
      assert AfterLastNot(all, d) == |a| + |s|;
    }
  }
}
