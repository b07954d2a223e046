/**
 Chunk-size lines as the response parser reads them: hexadecimal digits, perhaps extensions
 made of tokens, and a line end. The parser forgets a line of which it sees only the beginning:
 it starts over on every call. So a cut within a line matters, and how is said here.
 */
module ChunkLines {
  import opened Wrappers
  import opened ByteSpec
  import Ascii
  import Url

  const CR: Byte := 0x0D
  const LF: Byte := 0x0A
  const CRLF: seq<Byte> := [CR, LF]

  // ---------------------------------------------------------------- the machine

  /** How many hexadecimal digits s begins with. */
  function Digits(s: seq<Byte>): (n: nat)
    ensures n <= |s| && (forall i :: 0 <= i < n ==> Url.IsHex(s[i])) && (n < |s| ==> !Url.IsHex(s[n]))
  {
    if s == [] || !Url.IsHex(s[0]) then 0 else 1 + Digits(s[1..])
  }

  /** strtol in base 16. */
  function HexNumber(s: seq<Byte>): nat {
    if s == [] then 0 else 16 * HexNumber(s[..|s|-1]) + Url.HexValue(s[|s|-1])
  }

  /** Printable ASCII without ( ) < > @ , ; : \ " / [ ] ? = { } and blank. */
  predicate Token(b: Byte) {
    && 0x20 < b < 0x7F
    && b !in {0x28, 0x29, 0x3C, 0x3E, 0x40, 0x2C, 0x3B, 0x3A, 0x5C, 0x22, 0x2F, 0x5B, 0x5D, 0x3F, 0x3D, 0x7B, 0x7D}
  }

  /** Where the machine is behind the digits. */
  datatype State = SizeRead | NameBegins | Name | ValueBegins | Value | CrRead | Ended | Wrong

  /** Between extensions, or at the end of the line. */
  function Separator(b: Byte): State {
    if b == 0x3B then NameBegins else if b == CR then CrRead else if b == LF then Ended else Wrong
  }

  function Next(st: State, b: Byte): State {
    match st
    case SizeRead => Separator(b)
    case NameBegins => if Token(b) then Name else Wrong
    case Name => if Token(b) then Name else if b == 0x3D then ValueBegins else Separator(b)
    case ValueBegins => if Token(b) then Value else Wrong
    case Value => if Token(b) then Value else Separator(b)
    case CrRead => if b == LF then Ended else Wrong
    case Ended => Wrong
    case Wrong => Wrong
  }

  /** What one call of the parser makes of the buffer: a line of that size and length, only the
      beginning of one, or an error. */
  datatype Scan = Line(size: nat, used: nat) | Partial | Malformed

  function ScanTail(s: seq<Byte>, i: nat, st: State, size: nat): (r: Scan)
    requires i <= |s|
    ensures r.Line? ==> r.size == size && i < r.used <= |s| && s[r.used-1] == LF
    decreases |s| - i
  {
    if i == |s| then Partial
    else
      var next := Next(st, s[i]);
      if next.Ended? then Line(size, i + 1)
      else if next.Wrong? then Malformed
      else ScanTail(s, i + 1, next, size)
  }

  function ScanLine(s: seq<Byte>): (r: Scan)
    ensures r.Line? ==> 2 <= r.used <= |s| && s[r.used-1] == LF
  {
    var n := Digits(s);
    if n == |s| then Partial
    else if n == 0 then Malformed
    else ScanTail(s, n, SizeRead, HexNumber(s[..n]))
  }

  predicate AllHex(s: seq<Byte>) {
    forall i :: 0 <= i < |s| ==> Url.IsHex(s[i])
  }

  // ---------------------------------------------------------------- what follows does not matter

  lemma {:induction false} DigitsOn(s: seq<Byte>, t: seq<Byte>)
    requires Digits(s) < |s|
    ensures Digits(s + t) == Digits(s)
  {
    if Url.IsHex(s[0]) {
      DigitsOn(s[1..], t);
      assert (s + t)[1..] == s[1..] + t;
    }
  }

  lemma {:induction false} TailOn(s: seq<Byte>, i: nat, st: State, size: nat, t: seq<Byte>)
    requires i <= |s| && !ScanTail(s, i, st, size).Partial?
    ensures ScanTail(s + t, i, st, size) == ScanTail(s, i, st, size)
    decreases |s| - i
  {
    var next := Next(st, s[i]);
    assert (s + t)[i] == s[i];
    if !next.Ended? && !next.Wrong? {
      TailOn(s, i + 1, next, size, t);
    }
  }

  /** What follows in the stream cannot change a decision once made. */
  lemma ScanOn(s: seq<Byte>, t: seq<Byte>)
    requires !ScanLine(s).Partial?
    ensures ScanLine(s + t) == ScanLine(s)
  {
    var n := Digits(s);
    DigitsOn(s, t);
    assert (s + t)[..n] == s[..n];
    if n > 0 {
      TailOn(s, n, SizeRead, HexNumber(s[..n]), t);
    }
  }

  /** The parser forgets exactly what it has not seen the end of. */
  lemma CutIsForgotten(line: seq<Byte>, k: nat)
    requires ScanLine(line).Line? && ScanLine(line).used == |line| && k < |line|
    ensures ScanLine(line[..k]).Partial?
  {
    assert line[..k] + line[k..] == line;
    if !ScanLine(line[..k]).Partial? {
      ScanOn(line[..k], line[k..]);
    }
  }

  // ---------------------------------------------------------------- what is before does

  function Sixteens(n: nat): (p: nat)
    ensures p > 0
  {
    if n == 0 then 1 else 16 * Sixteens(n - 1)
  }

  lemma {:induction false} HexConcat(a: seq<Byte>, b: seq<Byte>)
    ensures HexNumber(a + b) == HexNumber(a) * Sixteens(|b|) + HexNumber(b)
  {
    if b == [] {
      assert a + b == a;
    } else {
      var front := b[..|b|-1];
      HexConcat(a, front);
      assert (a + b)[..|a + b| - 1] == a + front;
      assert HexNumber(a) * Sixteens(|b|) == 16 * (HexNumber(a) * Sixteens(|front|));
    }
  }

  lemma Positive(a: nat, b: nat)
    requires a > 0 && b > 0
    ensures a * b > 0
  {}

  /** Leading digits change the number exactly if they are not all zeros. */
  lemma LostDigits(lost: seq<Byte>, kept: seq<Byte>)
    ensures HexNumber(kept) == HexNumber(lost + kept) <==> HexNumber(lost) == 0
  {
    HexConcat(lost, kept);
    if HexNumber(lost) > 0 {
      Positive(HexNumber(lost), Sixteens(|kept|));
    }
  }

  lemma {:induction false} DigitsAfter(d: seq<Byte>, t: seq<Byte>)
    requires AllHex(d)
    ensures Digits(d + t) == |d| + Digits(t)
  {
    if d == [] {
      assert d + t == t;
    } else {
      DigitsAfter(d[1..], t);
      assert (d + t)[1..] == d[1..] + t;
    }
  }

  /** The same scan, with k bytes more before it. */
  function Behind(r: Scan, k: nat): Scan {
    if r.Line? then Line(r.size, r.used + k) else r
  }

  lemma {:induction false} TailBehind(d: seq<Byte>, t: seq<Byte>, i: nat, st: State, size: nat)
    requires i <= |t|
    ensures ScanTail(d + t, |d| + i, st, size) == Behind(ScanTail(t, i, st, size), |d|)
    decreases |t| - i
  {
    if i < |t| {
      assert (d + t)[|d| + i] == t[i];
      var next := Next(st, t[i]);
      if !next.Ended? && !next.Wrong? {
        TailBehind(d, t, i + 1, next, size);
      }
    }
  }

  /** The size is only handed on. */
  lemma {:induction false} TailSize(s: seq<Byte>, i: nat, st: State, size: nat, other: nat)
    requires i <= |s|
    ensures ScanTail(s, i, st, size).Line? ==> ScanTail(s, i, st, other) == Line(other, ScanTail(s, i, st, size).used)
    decreases |s| - i
  {
    if i < |s| {
      var next := Next(st, s[i]);
      if !next.Ended? && !next.Wrong? {
        TailSize(s, i + 1, next, size, other);
      }
    }
  }

  predicate NoDigitFirst(t: seq<Byte>) {
    t != [] && !Url.IsHex(t[0])
  }

  /** What a line comes to, by its digits and what is behind them. */
  lemma LineIs(d: seq<Byte>, t: seq<Byte>)
    requires AllHex(d) && d != [] && NoDigitFirst(t)
    ensures Digits(d + t) == |d| && ScanLine(d + t) == Behind(ScanTail(t, 0, SizeRead, HexNumber(d)), |d|)
  {
    hide ScanTail;
    hide HexNumber;
    hide Next;
    DigitsAfter(d, t);
    assert Digits(t) == 0;
    assert (d + t)[..|d|] == d;
    TailBehind(d, t, 0, SizeRead, HexNumber(d));
  }

  lemma OnlyDigits(d: seq<Byte>)
    requires AllHex(d)
    ensures ScanLine(d).Partial? && Digits(d) == |d|
  {
    DigitsAfter(d, []);
    assert d + [] == d;
  }

  lemma HexParts(a: seq<Byte>, b: seq<Byte>)
    ensures AllHex(a + b) <==> AllHex(a) && AllHex(b)
  {
    hide Url.IsHex;
    var s := a + b;
    assert forall i :: 0 <= i < |a| ==> s[i] == a[i];
    assert forall i :: 0 <= i < |b| ==> s[|a| + i] == b[i];
    assert forall i :: |a| <= i < |s| ==> s[i] == b[i - |a|];
  }

  /** Every string is digits and then none. */
  lemma Parts(s: seq<Byte>)
    returns (d: seq<Byte>, t: seq<Byte>)
    ensures s == d + t && |d| == Digits(s) && AllHex(d) && (t == [] || NoDigitFirst(t))
  {
    var n := Digits(s);
    return s[..n], s[n..];
  }

  lemma BehindTwice(r: Scan, k: nat, n: nat)
    ensures Behind(Behind(r, k), n) == Behind(r, k + n)
  {}

  lemma ZerosBefore(d: seq<Byte>, e: seq<Byte>, tail: seq<Byte>)
    requires AllHex(d + e) && AllHex(e) && e != [] && NoDigitFirst(tail) && HexNumber(d + e) == HexNumber(e)
    ensures ScanLine(d + e + tail) == Behind(ScanLine(e + tail), |d|)
  {
    hide *;
    LineIs(e, tail);
    LineIs(d + e, tail);
    BehindTwice(ScanTail(tail, 0, SizeRead, HexNumber(e)), |e|, |d|);
  }

  /** Zeros in front of a digit make no difference to what is read. */
  lemma ZerosDoNotMatter(d: seq<Byte>, t: seq<Byte>)
    requires AllHex(d) && HexNumber(d) == 0 && t != [] && Url.IsHex(t[0])
    ensures ScanLine(d + t) == Behind(ScanLine(t), |d|)
  {
    hide ScanTail;
    hide HexNumber;
    hide ScanLine;
    var e, tail := Parts(t);
    HexParts(d, e);
    assert d + t == d + e + tail;
    LostDigits(d, e);
    hide AllHex;
    hide Digits;
    if tail == [] {
      assert d + t == d + e && t == e;
      OnlyDigits(t);
      OnlyDigits(d + t);
    } else {
      ZerosBefore(d, e, tail);
    }
  }

  // ---------------------------------------------------------------- every cut within a line

  predicate IsLineEnd(end: seq<Byte>) {
    end == CRLF || end == [LF]
  }

  lemma EndTail(end: seq<Byte>, size: nat)
    requires IsLineEnd(end)
    ensures NoDigitFirst(end) && ScanTail(end, 0, SizeRead, size) == Line(size, |end|)
  {
    if end == CRLF {
      assert ScanTail(end, 1, CrRead, size) == Line(size, 2);
    }
  }

  /** The digits d and a line end. */
  lemma PlainLine(d: seq<Byte>, end: seq<Byte>, t: seq<Byte>)
    requires AllHex(d) && d != [] && IsLineEnd(end)
    ensures ScanLine(d + end) == Line(HexNumber(d), |d| + |end|)
    ensures ScanLine(d + end + t) == Line(HexNumber(d), |d| + |end|)
  {
    hide ScanTail;
    hide ScanLine;
    EndTail(end, HexNumber(d));
    LineIs(d, end);
    ScanOn(d + end, t);
  }

  lemma NoLine(t: seq<Byte>)
    requires NoDigitFirst(t)
    ensures ScanLine(t).Malformed?
  {}

  lemma CutParts(d: seq<Byte>, end: seq<Byte>, k: nat)
    requires k <= |d| + |end|
    ensures k <= |d| ==> (d + end)[k..] == d[k..] + end && (d + end)[..k] == d[..k]
    ensures k > |d| ==> (d + end)[k..] == end[k - |d|..] && (d + end)[..k] == d + end[..k - |d|]
    ensures k <= |d| ==> d == d[..k] + d[k..]
  {}

  // ---------------------------------------------------------------- what is a line

  /** d is a numeral for n in base 16, with digits in either case and perhaps zeros before it. */
  predicate IsNumeral(d: seq<Byte>, n: nat)
    decreases |d|
  {
    && d != [] && Ascii.IsDigit(d[|d|-1], n % 16)
    && if |d| == 1 then n < 16 else IsNumeral(d[..|d|-1], n / 16)
  }

  lemma {:induction false} NumeralIs(d: seq<Byte>, n: nat)
    ensures IsNumeral(d, n) <==> d != [] && AllHex(d) && HexNumber(d) == n
    decreases |d|
  {
    if d != [] {
      var front, last := d[..|d|-1], d[|d|-1];
      assert d == front + [last];
      assert AllHex(d) <==> AllHex(front) && Url.IsHex(last);
      Url.HexMeans(last, n % 16);
      Url.HexMeans(last, Url.HexValue(last));
      if |d| == 1 {
        assert front == [];
      } else {
        NumeralIs(front, n / 16);
      }
    }
  }

  /** The numeral without zeros before it, in capitals or in small letters. */
  function Numeral(n: nat, capitals: bool): (d: seq<Byte>)
    ensures d != []
  {
    var digit := if capitals then Ascii.UPPER_DIGITS[n % 16] else Ascii.LOWER_DIGITS[n % 16];
    Ascii.DigitsAre(n % 16);
    (if n < 16 then [] else Numeral(n / 16, capitals)) + [digit as int]
  }

  lemma {:induction false} NumeralFits(n: nat, capitals: bool)
    ensures IsNumeral(Numeral(n, capitals), n)
  {
    var d := Numeral(n, capitals);
    if n >= 16 {
      NumeralFits(n / 16, capitals);
      assert d[..|d|-1] == Numeral(n / 16, capitals);
    }
  }

  lemma Signs(b: Byte)
    ensures Ascii.In(b, "!#$%&'*+-.^_`|~")
       <==> b in {0x21, 0x23, 0x24, 0x25, 0x26, 0x27, 0x2A, 0x2B, 0x2D, 0x2E, 0x5E, 0x5F, 0x60, 0x7C, 0x7E}
  {
    var text := "!#$%&'*+-.^_`|~";
    var codes := [0x21, 0x23, 0x24, 0x25, 0x26, 0x27, 0x2A, 0x2B, 0x2D, 0x2E, 0x5E, 0x5F, 0x60, 0x7C, 0x7E];
    forall i | 0 <= i < 15
      ensures text[i] as int == codes[i]
    {
      assert i in [0, 1, 2, 3, 4, 5, 6, 7, 8, 9, 10, 11, 12, 13, 14];
    }
    if b in codes {
      var i :| 0 <= i < 15 && codes[i] == b;
      assert Ascii.Is(b, text[i]);
    }
  }

  /** Letters, digits and fifteen signs. */
  lemma TokenMeans(b: Byte)
    ensures Token(b) <==>
              || Ascii.In(b, Ascii.UPPER_LETTERS) || Ascii.In(b, Ascii.LOWER_LETTERS) || Ascii.In(b, Ascii.DIGITS)
              || Ascii.In(b, "!#$%&'*+-.^_`|~")
  {
    Ascii.InLetters(b);
    Ascii.InDigits(b);
    Signs(b);
    hide Ascii.In;
  }

  predicate Tokens(s: seq<Byte>) {
    forall i :: 0 <= i < |s| ==> Token(s[i])
  }

  /** ;name or ;name=value */
  datatype Ext = Ext(name: seq<Byte>, value: Option<seq<Byte>>)

  predicate IsExt(e: Ext) {
    e.name != [] && Tokens(e.name) && (e.value.Some? ==> e.value.value != [] && Tokens(e.value.value))
  }

  function ValueText(value: Option<seq<Byte>>): seq<Byte> {
    if value.Some? then [0x3D] + value.value else []
  }

  function ExtsText(es: seq<Ext>): seq<Byte> {
    if es == [] then [] else [0x3B] + (es[0].name + (ValueText(es[0].value) + ExtsText(es[1..])))
  }

  predicate AreExts(es: seq<Ext>) {
    forall i :: 0 <= i < |es| ==> IsExt(es[i])
  }

  /** What can follow in some state: the rest of a token, a value, more extensions, a line end. */
  datatype Rest = Rest(a: seq<Byte>, value: Option<seq<Byte>>, es: seq<Ext>, end: seq<Byte>)

  function RestText(r: Rest): seq<Byte> {
    r.a + (ValueText(r.value) + (ExtsText(r.es) + r.end))
  }

  predicate Fits(st: State, r: Rest) {
    && Tokens(r.a) && AreExts(r.es) && IsLineEnd(r.end)
    && (r.value.Some? ==> r.value.value != [] && Tokens(r.value.value))
    && match st
       case SizeRead => r.a == [] && r.value.None?
       case NameBegins => r.a != []
       case Name => true
       case ValueBegins => r.a != [] && r.value.None?
       case Value => r.value.None?
       case _ => false
  }

  /** One byte of the line. */
  lemma TailNext(b: Byte, t: seq<Byte>, st: State, size: nat)
    ensures ScanTail([b] + t, 0, st, size) ==
            var next := Next(st, b);
            if next.Ended? then Line(size, 1) else if next.Wrong? then Malformed
            else Behind(ScanTail(t, 0, next, size), 1)
  {
    var next := Next(st, b);
    TailBehind([b], t, 0, next, size);
  }

  /** What comes behind r once its first byte has been read, and in which state. */
  function RestNext(st: State, r: Rest): (Byte, State, Rest)
    requires Fits(st, r) && (r.a != [] || r.value.Some? || r.es != [])
  {
    if r.a != [] then
      (r.a[0], if st == ValueBegins || st == Value then Value else Name, r.(a := r.a[1..]))
    else if r.value.Some? then (0x3D, ValueBegins, Rest(r.value.value, None, r.es, r.end))
    else (0x3B, NameBegins, Rest(r.es[0].name, r.es[0].value, r.es[1..], r.end))
  }

  lemma Nest(b: Byte, a: seq<Byte>, v: seq<Byte>, e: seq<Byte>, end: seq<Byte>)
    ensures ([b] + a) + e == [b] + (a + e)
    ensures [] + e == e
    ensures ([b] + (a + (v + e))) + end == [b] + (a + (v + (e + end)))
  {}

  lemma RestNextText(st: State, r: Rest)
    requires Fits(st, r) && (r.a != [] || r.value.Some? || r.es != [])
    ensures var (b, _, r') := RestNext(st, r); RestText(r) == [b] + RestText(r')
  {
    var (b, next, r') := RestNext(st, r);
    hide Fits;
    var e := ExtsText(r.es) + r.end;
    Nest(b, r'.a, [], e, r.end);
    if r.a != [] {
      assert r.a == [b] + r'.a;
      Nest(b, r'.a, [], ValueText(r.value) + e, []);
    } else if r.value.None? {
      Nest(b, [], [], ExtsText(r.es) + r.end, []);
      Nest(b, r'.a, ValueText(r'.value), ExtsText(r'.es), r.end);
    }
  }

  lemma RestOn(st: State, r: Rest)
    requires Fits(st, r) && (r.a != [] || r.value.Some? || r.es != [])
    ensures var (b, next, r') := RestNext(st, r);
            && Next(st, b) == next && !next.Ended? && !next.Wrong? && Fits(next, r')
            && RestText(r) == [b] + RestText(r')
  {
    RestNextText(st, r);
    hide RestText;
    var (b, next, r') := RestNext(st, r);
    if r.a != [] {
      assert Token(r.a[0]);
    } else if r.value.None? {
      assert IsExt(r.es[0]);
    }
  }

  lemma EndFits(st: State, end: seq<Byte>, size: nat)
    requires IsLineEnd(end) && st in {SizeRead, Name, Value}
    ensures ScanTail(end, 0, st, size) == Line(size, |end|)
  {
    assert end == [end[0]] + end[1..];
    TailNext(end[0], end[1..], st, size);
    if end == CRLF {
      assert ScanTail(end[1..], 0, CrRead, size) == Line(size, 1);
    }
  }

  lemma {:induction false} FitsScans(st: State, r: Rest, size: nat)
    requires Fits(st, r)
    ensures ScanTail(RestText(r), 0, st, size) == Line(size, |RestText(r)|)
    decreases |RestText(r)|
  {
    hide ScanTail;
    hide Next;
    if r.a != [] || r.value.Some? || r.es != [] {
      var (b, next, r') := RestNext(st, r);
      RestOn(st, r);
      hide RestNext;
      hide Fits;
      hide RestText;
      FitsScans(next, r', size);
      TailNext(b, RestText(r'), st, size);
    } else {
      assert RestText(r) == r.end;
      EndFits(st, r.end, size);
    }
  }

  /** What r was before its first byte b was read, which led to the state next. */
  function RestBefore(b: Byte, next: State, r: Rest): Rest {
    match next
    case NameBegins => Rest([], None, [Ext(r.a, r.value)] + r.es, r.end)
    case ValueBegins => Rest([], Some(r.a), r.es, r.end)
    case _ => r.(a := [b] + r.a)
  }

  lemma RestBackText(b: Byte, next: State, r: Rest)
    requires next in {NameBegins, Name, ValueBegins, Value} && (next.NameBegins? ==> b == 0x3B)
    requires next.ValueBegins? ==> b == 0x3D && r.value.None?
    ensures RestText(RestBefore(b, next, r)) == [b] + RestText(r)
  {
    var r' := RestBefore(b, next, r);
    var e := ExtsText(r.es) + r.end;
    Nest(b, r.a, ValueText(r.value), ExtsText(r.es), r.end);
    Nest(b, r.a, [], ValueText(r.value) + e, []);
    Nest(b, r.a, [], e, []);
    if next == NameBegins {
      assert r'.es[1..] == r.es;
      Nest(b, [], [], ExtsText(r'.es) + r.end, []);
    }
  }

  lemma RestBack(st: State, b: Byte, r: Rest)
    requires st in {SizeRead, NameBegins, Name, ValueBegins, Value} && Fits(Next(st, b), r)
    ensures var r' := RestBefore(b, Next(st, b), r);
            Fits(st, r') && RestText(r') == [b] + RestText(r)
  {
    RestBackText(b, Next(st, b), r);
    hide RestText;
    hide Token;
    var r' := RestBefore(b, Next(st, b), r);
    if Next(st, b) == NameBegins {
      assert IsExt(r'.es[0]) && forall i :: 1 <= i < |r'.es| ==> r'.es[i] == r.es[i-1];
    }
  }

  lemma EndOf(b: Byte, t: seq<Byte>, st: State, size: nat) returns (r: Rest)
    requires st in {SizeRead, NameBegins, Name, ValueBegins, Value} && Next(st, b) in {CrRead, Ended}
    requires if Next(st, b).Ended? then t == [] else ScanTail(t, 0, CrRead, size) == Line(size, |t|)
    ensures Fits(st, r) && RestText(r) == [b] + t
  {
    r := Rest([], None, [], [b] + t);
    assert RestText(r) == r.end;
  }

  /** The same, the other way. */
  lemma {:induction false} ScansFit(s: seq<Byte>, st: State, size: nat) returns (r: Rest)
    requires ScanTail(s, 0, st, size) == Line(size, |s|) && st in {SizeRead, NameBegins, Name, ValueBegins, Value}
    ensures Fits(st, r) && RestText(r) == s
    decreases |s|
  {
    var b, t := s[0], s[1..];
    assert s == [b] + t;
    TailNext(b, t, st, size);
    hide ScanTail;
    hide Fits;
    hide RestText;
    if Next(st, b) in {CrRead, Ended} {
      r := EndOf(b, t, st, size);
    } else {
      var r' := ScansFit(t, Next(st, b), size);
      RestBack(st, b, r');
      r := RestBefore(b, Next(st, b), r');
    }
  }

  /** The text of a line: a numeral for its size, extensions and a line end. */
  ghost predicate IsLine(s: seq<Byte>, size: nat) {
    exists d, r :: IsNumeral(d, size) && Fits(SizeRead, r) && s == d + RestText(r)
  }

  lemma RestBegins(r: Rest)
    requires Fits(SizeRead, r)
    ensures NoDigitFirst(RestText(r))
  {
    var s := RestText(r);
    if r.es == [] {
      assert s == r.end;
    } else {
      assert s[0] == 0x3B;
    }
  }

  /** The machine reads a line of that size exactly if the text is one. */
  lemma LineExactly(s: seq<Byte>, size: nat)
    ensures ScanLine(s) == Line(size, |s|) <==> IsLine(s, size)
  {
    hide ScanTail;
    hide HexNumber;
    hide Fits;
    hide RestText;
    hide IsNumeral;
    if IsLine(s, size) {
      var d, r :| IsNumeral(d, size) && Fits(SizeRead, r) && s == d + RestText(r);
      NumeralIs(d, size);
      RestBegins(r);
      FitsScans(SizeRead, r, size);
      LineIs(d, RestText(r));
    }
    if ScanLine(s) == Line(size, |s|) {
      var d, t := Parts(s);
      if t == [] {
        OnlyDigits(d);
        assert false;
      }
      LineIs(d, t);
      TailSize(t, 0, SizeRead, HexNumber(d), size);
      NumeralIs(d, size);
      var r := ScansFit(t, SizeRead, size);
      assert s == d + RestText(r);
    }
  }

  /** What is missing from a line that breaks off. */
  lemma {:induction false} TailCompletes(s: seq<Byte>, i: nat, st: State, size: nat) returns (t: seq<Byte>)
    requires i <= |s| && ScanTail(s, i, st, size).Partial? && !st.Ended? && !st.Wrong?
    ensures ScanTail(s + t, i, st, size) == Line(size, |s + t|)
    decreases |s| - i
  {
    if i == |s| {
      t := if st.NameBegins? || st.ValueBegins? then [0x61, LF] else [LF];
      var next := Next(st, t[0]);
      assert (s + t)[i] == t[0];
      if |t| == 2 {
        assert (s + t)[i + 1] == LF && ScanTail(s + t, i + 1, next, size) == Line(size, i + 2);
      }
    } else {
      t := TailCompletes(s, i + 1, Next(st, s[i]), size);
      assert (s + t)[i] == s[i];
    }
  }

  lemma DigitsComplete(d: seq<Byte>) returns (t: seq<Byte>)
    requires AllHex(d)
    ensures ScanLine(d + t).Line? && ScanLine(d + t).used == |d + t|
  {
    var digits := if d == [] then [0x30] else d;
    t := if d == [] then [0x30, LF] else [LF];
    assert AllHex(digits) && d + t == digits + [LF];
    hide ScanLine;
    PlainLine(digits, [LF], []);
  }

  lemma RestCompletes(d: seq<Byte>, tail: seq<Byte>) returns (t: seq<Byte>)
    requires AllHex(d) && d != [] && NoDigitFirst(tail) && ScanLine(d + tail).Partial?
    ensures ScanLine(d + (tail + t)) == Line(HexNumber(d), |d + (tail + t)|)
  {
    LineIs(d, tail);
    hide HexNumber;
    hide ScanLine;
    hide Digits;
    t := TailCompletes(tail, 0, SizeRead, HexNumber(d));
    assert (tail + t)[0] == tail[0];
    LineIs(d, tail + t);
  }

  lemma Completes(s: seq<Byte>) returns (t: seq<Byte>)
    requires ScanLine(s).Partial?
    ensures ScanLine(s + t).Line? && ScanLine(s + t).used == |s + t|
  {
    var d, tail := Parts(s);
    assert tail != [] ==> d != [];
    hide *;
    if tail == [] {
      assert s == d;
      t := DigitsComplete(d);
    } else {
      t := RestCompletes(d, tail);
      assert s + t == d + (tail + t);
    }
  }

  lemma {:induction false} TailDecides(s: seq<Byte>, i: nat, st: State, size: nat)
    requires i < |s| && s[|s|-1] == LF
    ensures !ScanTail(s, i, st, size).Partial?
    decreases |s| - i
  {
    var next := Next(st, s[i]);
    if i < |s| - 1 && !next.Ended? && !next.Wrong? {
      TailDecides(s, i + 1, next, size);
    }
  }

  /** What ends in a line end is decided. */
  lemma EndDecides(s: seq<Byte>)
    requires s != [] && s[|s|-1] == LF
    ensures !ScanLine(s).Partial?
  {
    var n := Digits(s);
    if n < |s| {
      TailDecides(s, n, SizeRead, HexNumber(s[..n]));
    }
  }

  /** Cut off behind the line, it is read the same. */
  lemma LineUsed(s: seq<Byte>)
    requires ScanLine(s).Line?
    ensures ScanLine(s).used <= |s| && ScanLine(s[..ScanLine(s).used]) == ScanLine(s)
  {
    var k := ScanLine(s).used;
    hide ScanTail;
    EndDecides(s[..k]);
    ScanOn(s[..k], s[k..]);
    assert s == s[..k] + s[k..];
  }

  /** What the machine makes of any bytes: they begin with a line, or something can be appended
      that makes them one, or neither. */
  lemma ScanExactly(s: seq<Byte>)
    ensures ScanLine(s).Line? <==> exists used, size :: 0 <= used <= |s| && IsLine(s[..used], size)
    ensures ScanLine(s).Line? ==> IsLine(s[..ScanLine(s).used], ScanLine(s).size)
    ensures ScanLine(s).Partial? <==> !ScanLine(s).Line? && exists t, size :: IsLine(s + t, size)
  {
    hide ScanLine;
    hide IsLine;
    forall used, size | 0 <= used <= |s| && IsLine(s[..used], size)
      ensures ScanLine(s).Line?
    {
      LineExactly(s[..used], size);
      ScanOn(s[..used], s[used..]);
      assert s == s[..used] + s[used..];
    }
    if ScanLine(s).Line? {
      LineUsed(s);
      LineExactly(s[..ScanLine(s).used], ScanLine(s).size);
    }
    if ScanLine(s).Partial? {
      var t := Completes(s);
      LineExactly(s + t, ScanLine(s + t).size);
    }
    forall t, size | IsLine(s + t, size)
      ensures !ScanLine(s).Malformed?
    {
      LineExactly(s + t, size);
      if ScanLine(s).Malformed? {
        ScanOn(s, t);
      }
    }
  }

  /** So for every size its numeral and a line end, in either case, whatever follows. */
  lemma NumeralLine(size: nat, capitals: bool, end: seq<Byte>, t: seq<Byte>)
    requires IsLineEnd(end)
    ensures IsLine(Numeral(size, capitals) + end, size)
    ensures ScanLine(Numeral(size, capitals) + end + t) == Line(size, |Numeral(size, capitals)| + |end|)
  {
    var d, r := Numeral(size, capitals), Rest([], None, [], end);
    NumeralFits(size, capitals);
    assert Fits(SizeRead, r) && RestText(r) == end;
    assert d + end == d + RestText(r);
    hide ScanLine;
    LineExactly(d + end, size);
    ScanOn(d + end, t);
  }

  /** A line without extensions, cut anywhere: the rest of it is read as a line of the right
      size exactly if the cut is before the last digit and the digits that are gone are zeros. */
  lemma CutPlainLine(d: seq<Byte>, end: seq<Byte>, k: nat, t: seq<Byte>)
    requires AllHex(d) && d != [] && IsLineEnd(end) && 0 < k < |d| + |end|
    ensures var second := ScanLine((d + end)[k..] + t);
            (second.Line? && second.size == HexNumber(d)) <==> (k < |d| && HexNumber(d[..k]) == 0)
  {
    hide ScanLine;
    hide HexNumber;
    CutParts(d, end, k);
    if k < |d| {
      HexParts(d[..k], d[k..]);
      hide AllHex;
      PlainLine(d[k..], end, t);
      LostDigits(d[..k], d[k..]);
    } else {
      var rest := (d + end)[k..] + t;
      assert rest[0] == CR || rest[0] == LF;
      NoLine(rest);
    }
  }

  lemma CutDigits(line: seq<Byte>, k: nat)
    requires ScanLine(line).Line? && ScanLine(line).used == |line| && k < Digits(line)
    ensures ScanLine(line[k..]).Line? && ScanLine(line[k..]).used == |line| - k
    ensures ScanLine(line[k..]).size == ScanLine(line).size <==> HexNumber(line[..k]) == 0
  {
    hide ScanTail;
    hide HexNumber;
    hide ScanLine;
    hide Digits;
    var d, tail := Parts(line);
    if tail == [] {
      assert line == d;
      OnlyDigits(d);
    } else {
      CutParts(d, tail, k);
      HexParts(d[..k], d[k..]);
      hide AllHex;
      LostDigits(d[..k], d[k..]);
      LineIs(d, tail);
      LineIs(d[k..], tail);
      TailSize(tail, 0, SizeRead, HexNumber(d), HexNumber(d[k..]));
    }
  }

  /** A line of any kind, cut anywhere: the rest of it is read as the line it is by itself,
      whatever follows. Before the last digit that is the right size exactly if the digits that
      are gone are zeros; behind the last digit it never is, unless an extension has begun. */
  lemma CutLine(line: seq<Byte>, k: nat, t: seq<Byte>)
    requires ScanLine(line).Line? && ScanLine(line).used == |line| && 0 < k < |line|
    ensures ScanLine(line[k..] + t) == ScanLine(line[k..])
    ensures k < Digits(line) ==> ScanLine(line[k..]).Line? && ScanLine(line[k..]).used == |line| - k
    ensures k < Digits(line) ==> (ScanLine(line[k..]).size == ScanLine(line).size <==> HexNumber(line[..k]) == 0)
    ensures k == Digits(line) ==> ScanLine(line[k..]).Malformed?
  {
    var n := Digits(line);
    hide ScanLine;
    hide HexNumber;
    hide Digits;
    EndDecides(line[k..]);
    ScanOn(line[k..], t);
    if k < n {
      CutDigits(line, k);
    } else if k == n {
      assert line[k..][0] == line[n];
      NoLine(line[k..]);
    }
  }

  lemma ExtensionTail()
    ensures ScanTail([0x3B, 0x35, CR, LF], 0, SizeRead, 5) == Line(5, 4) && ScanTail([0x3B], 0, SizeRead, 5).Partial?
  {
    assert ScanTail([0x3B, 0x35, CR, LF], 3, CrRead, 5) == Line(5, 4);
    assert ScanTail([0x3B, 0x35, CR, LF], 2, Name, 5) == Line(5, 4);
  }

  /** Behind the beginning of an extension the size can be right by chance: "5;5" and a line end,
      cut after the semicolon, has lost the digit 5 and is still read as 5. */
  lemma CutInExtension()
    ensures var line := [0x35, 0x3B, 0x35, CR, LF];
            ScanLine(line) == Line(5, 5) && ScanLine(line[..2]).Partial? && ScanLine(line[2..]) == Line(5, 3)
  {
    var d: seq<Byte>, tail: seq<Byte> := [0x35], [0x3B, 0x35, CR, LF];
    var line: seq<Byte> := [0x35, 0x3B, 0x35, CR, LF];
    assert line == d + tail && line[..2] == d + [0x3B];
    assert line[2..] == [0x35, CR, LF] == d + CRLF;
    assert HexNumber(d) == 5 by {
      assert d[..0] == [];
    }
    ExtensionTail();
    hide ScanLine;
    hide HexNumber;
    hide ScanTail;
    PlainLine(d, CRLF, []);
    LineIs(d, tail);
    LineIs(d, [0x3B]);
  }

  // ---------------------------------------------------------------- pieces of a plain line

  lemma NotNegative(a: nat, b: nat)
    ensures a * b >= 0
  {}

  /** Losing leading digits never makes the number larger, and smaller unless they are zeros. */
  lemma LostLess(lost: seq<Byte>, kept: seq<Byte>)
    ensures HexNumber(kept) <= HexNumber(lost + kept)
    ensures HexNumber(kept) == HexNumber(lost + kept) <==> HexNumber(lost) == 0
  {
    HexConcat(lost, kept);
    LostDigits(lost, kept);
    NotNegative(HexNumber(lost), Sixteens(|kept|));
  }

  lemma NoDigits()
    ensures AllHex([]) && HexNumber([]) == 0
  {}

  lemma EndFirst(end: seq<Byte>, t: seq<Byte>, data: seq<Byte>, wire: seq<Byte>)
    requires IsLineEnd(end) && data != [] && data + wire == [] + end + t
    ensures ScanLine(data).Malformed?
  {
    assert (data + wire)[0] == data[0] && ([] + end + t)[0] == end[0];
    NoLine(data);
  }

  /** What the parser takes for the beginning of a line is a beginning of this one. */
  lemma PieceOfLine(d: seq<Byte>, end: seq<Byte>, t: seq<Byte>, data: seq<Byte>, wire: seq<Byte>)
    requires AllHex(d) && IsLineEnd(end) && data != [] && data + wire == d + end + t && ScanLine(data).Partial?
    ensures d != [] && |data| < |d| + |end| && data == (d + end)[..|data|] && wire == (d + end)[|data|..] + t
  {
    var line, k := d + end, |data|;
    if d == [] {
      EndFirst(end, t, data, wire);
    } else if |line| <= k {
      var more := data[|line|..];
      assert data == (data + wire)[..k] == (line + t)[..k];
      assert (line + t)[..k][..|line|] == line;
      assert data == line + more;
      PlainLine(d, end, more);
    } else {
      assert data == (line + t)[..k] == line[..k];
      assert wire == (line + t)[k..] == line[k..] + t;
    }
  }

  /** What it takes for a whole one is this one. */
  lemma WholeLine(d: seq<Byte>, end: seq<Byte>, t: seq<Byte>, data: seq<Byte>, wire: seq<Byte>)
    requires AllHex(d) && IsLineEnd(end) && data != [] && data + wire == d + end + t && !ScanLine(data).Partial?
    ensures if d == [] then ScanLine(data).Malformed? else ScanLine(data).Line? && ScanLine(data).size == HexNumber(d)
  {
    ScanOn(data, wire);
    if d == [] {
      EndFirst(end, t, data, wire);
    } else {
      PlainLine(d, end, t);
    }
  }

  // ---------------------------------------------------------------- calls of the parser

  /** A call on data while wire was still to come. */
  datatype Call = Call(data: seq<Byte>, wire: seq<Byte>)

  /** It saw a whole line, or what it forgot are zeros before another digit. */
  predicate Harmless(c: Call) {
    ScanLine(c.data).Partial? ==>
      AllHex(c.data) && HexNumber(c.data) == 0 && c.wire != [] && Url.IsHex(c.wire[0])
  }

  /** Before the last digit a digit follows. */
  lemma DigitFollows(d: seq<Byte>, end: seq<Byte>, k: nat, t: seq<Byte>)
    requires AllHex(d) && k < |d|
    ensures (d + end)[..k] == d[..k] && AllHex(d[..k])
    ensures (d + end)[k..] + t != [] && Url.IsHex(((d + end)[k..] + t)[0])
  {
    hide Url.IsHex;
    assert ((d + end)[k..] + t)[0] == d[k];
  }

  /** Behind it the lost part has a carriage return in it, or none follows. */
  lemma NoDigitFollows(d: seq<Byte>, end: seq<Byte>, k: nat, t: seq<Byte>)
    requires IsLineEnd(end) && |d| <= k < |d| + |end|
    ensures !AllHex((d + end)[..k]) || !Url.IsHex(((d + end)[k..] + t)[0])
  {
    var line := d + end;
    if k == |d| {
      assert (line[k..] + t)[0] == end[0];
    } else {
      assert line[..k][|d|] == CR;
    }
  }

  /** Within the plain lines these are exactly the cuts that leave the size right. */
  lemma HarmlessCut(d: seq<Byte>, end: seq<Byte>, k: nat, t: seq<Byte>)
    requires AllHex(d) && d != [] && IsLineEnd(end) && 0 < k < |d| + |end|
    ensures var second := ScanLine((d + end)[k..] + t);
            Harmless(Call((d + end)[..k], (d + end)[k..] + t)) <==> second.Line? && second.size == HexNumber(d)
  {
    CutPlainLine(d, end, k, t);
    PlainLine(d, end, []);
    CutIsForgotten(d + end, k);
    if k < |d| {
      DigitFollows(d, end, k, t);
    } else {
      NoDigitFollows(d, end, k, t);
    }
    hide ScanLine;
    hide HexNumber;
    hide Digits;
    hide AllHex;
    hide Url.IsHex;
    hide IsLineEnd;
  }
}
