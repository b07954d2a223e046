/**
 The typed write and read functions of the byte array, and the round trip of any list of
 typed values.
 */
module Serial {
  import opened Wrappers
  import opened ByteSpec
  import opened Codec

  /** What a read function comes to and the array it leaves behind. */
  datatype Read<+T> = Read(r: Outcome<T>, v: View)

  /** Widths are in bytes. */
  datatype Kind =
    | Fixed(w: nat)
    | FixedSigned(w: nat)
    | Var(w: nat)
    | Zig(w: nat)
    | StringFixed(w: nat)
    | StringVar

  datatype Value = Num(n: int) | Str(s: seq<Byte>)

  datatype Item = Item(kind: Kind, value: Value)

  /** The functions there are, and the values the type of their argument admits. */
  predicate Typed(i: Item) {
    match i
    case Item(Fixed(w), Num(n)) => w in {1, 2, 4, 8} && 0 <= n && IsWord(n, w)
    case Item(FixedSigned(w), Num(n)) => w in {1, 2, 4, 8} && IsSigned(n, w)
    case Item(Var(w), Num(n)) => w in {4, 8} && 0 <= n && IsWord(n, w)
    case Item(Zig(w), Num(n)) => w in {4, 8} && IsSigned(n, w)
    case Item(StringFixed(w), Str(s)) => w in {2, 4, 8} && IsWord(|s|, 8)
    case Item(StringVar, Str(s)) => IsWord(|s|, 8)
    case _ => false
  }

  /** The length of a string is cut off to its type. */
  function Encode(i: Item, order: Order): seq<Byte>
    requires Typed(i)
  {
    match i.kind
    case Fixed(w) => Memory(i.value.n, w, order)
    case FixedSigned(w) => Memory(Wrapped(i.value.n, w), w, order)
    case Var(_) => Varint(i.value.n)
    case Zig(w) => Varint(Zigzag(i.value.n, w))
    case StringFixed(w) => Memory(Wrapped(|i.value.s|, w), w, order) + i.value.s
    case StringVar => Varint(|i.value.s|) + i.value.s
  }

  // ---------------------------------------------------------------- reading

  function Take(v: View, n: nat): (t: Read<seq<Byte>>)
    requires InBounds(v)
    ensures InBounds(t.v) && (t.r.Got? ==> |t.r.value| == n)
  {
    Read(ReadOf(v, n), AfterRead(v, n))
  }

  lemma TakeIs(v: View, n: nat)
    requires InBounds(v)
    ensures Take(v, n) == Read(ReadOf(v, n), AfterRead(v, n))
    ensures ReadOf(v, n).Got? ==> |ReadOf(v, n).value| == n
  {}

  function Failed<T, U>(r: Outcome<T>): Outcome<U>
    requires !r.Got?
  {
    if r.NotEnough? then NotEnough else NullCursor
  }

  function TakeWord(v: View, w: nat, order: Order): (t: Read<nat>)
    requires InBounds(v)
    ensures InBounds(t.v)
  {
    var t := Take(v, w);
    Read(if t.r.Got? then Got(FromMemory(t.r.value, order)) else Failed(t.r), t.v)
  }

  /** What the j-th byte adds to the result. */
  function Group(b: Byte, w: nat, j: nat): nat {
    Wrapped(b % 0x80 * Power(0x80, j), w)
  }

  /** readUint32 and readUint64 from their j-th byte on: at most 5 or 10 bytes are looked at,
      and what lies above the width is cut off. */
  function TakeVarint(v: View, w: nat, j: nat, acc: nat): (t: Read<nat>)
    requires InBounds(v)
    ensures InBounds(t.v)
    decreases 8 * w - 7 * j
  {
    if 7 * j >= 8 * w then Read(Got(acc), v)
    else
      var t := Take(v, 1);
      if !t.r.Got? then Read(Failed(t.r), t.v)
      else
        var b := t.r.value[0];
        var acc' := acc + Group(b, w, j);
        if b < 0x80 then Read(Got(acc'), t.v) else TakeVarint(t.v, w, j + 1, acc')
  }

  /** One round of the loop. */
  lemma VarintRound(v: View, w: nat, j: nat, acc: nat)
    requires InBounds(v) && 7 * j < 8 * w
    ensures TakeVarint(v, w, j, acc) ==
            var t := Take(v, 1);
            if !t.r.Got? then Read(Failed(t.r), t.v)
            else
              var acc' := acc + Group(t.r.value[0], w, j);
              if t.r.value[0] < 0x80 then Read(Got(acc'), t.v) else TakeVarint(t.v, w, j + 1, acc')
  {}

  lemma VarintOver(v: View, w: nat, j: nat, acc: nat)
    requires InBounds(v) && 7 * j >= 8 * w
    ensures TakeVarint(v, w, j, acc) == Read(Got(acc), v)
  {}

  function TakeString(len: Read<nat>): (t: Read<seq<Byte>>)
    requires InBounds(len.v)
    ensures InBounds(t.v)
  {
    if len.r.Got? then Take(len.v, len.r.value) else Read(Failed(len.r), len.v)
  }

  function AsNum(t: Read<nat>, f: nat -> int): Read<Value> {
    Read(if t.r.Got? then Got(Num(f(t.r.value))) else Failed(t.r), t.v)
  }

  function AsStr(t: Read<seq<Byte>>): Read<Value> {
    Read(if t.r.Got? then Got(Str(t.r.value)) else Failed(t.r), t.v)
  }

  function Decode(k: Kind, v: View, order: Order): (t: Read<Value>)
    requires InBounds(v)
    ensures InBounds(t.v)
  {
    match k
    case Fixed(w) => AsNum(TakeWord(v, w, order), (n: nat) => n)
    case FixedSigned(w) => AsNum(TakeWord(v, w, order), (n: nat) => Signed(n, w))
    case Var(w) => AsNum(TakeVarint(v, w, 0, 0), (n: nat) => n)
    case Zig(w) => AsNum(TakeVarint(v, w, 0, 0), (n: nat) => if IsWord(n, w) then Unzigzag(n, w) else 0)
    case StringFixed(w) => AsStr(TakeString(TakeWord(v, w, order)))
    case StringVar => AsStr(TakeString(TakeVarint(v, 8, 0, 0)))
  }

  // ---------------------------------------------------------------- what lies ahead

  ghost predicate Ahead(v: View, bytes: seq<Byte>) {
    InBounds(v) && v.pos + |bytes| <= v.size && v.mem[v.pos..v.pos + |bytes|] == bytes
  }

  function Skip(v: View, n: nat): View {
    v.(pos := v.pos + n)
  }

  lemma AheadSplit(v: View, a: seq<Byte>, b: seq<Byte>)
    requires Ahead(v, a + b)
    ensures Ahead(v, a) && Ahead(Skip(v, |a|), b)
  {
    assert v.mem[v.pos..v.pos + |a + b|][..|a|] == a;
    assert v.mem[v.pos..v.pos + |a + b|][|a|..] == b;
  }

  lemma TakeAhead(v: View, bytes: seq<Byte>)
    requires Ahead(v, bytes)
    ensures Take(v, |bytes|) == if v.pos == |v.mem| then Read(NullCursor, v) else Read(Got(bytes), Skip(v, |bytes|))
  {}

  lemma WordAhead(v: View, n: nat, w: nat, order: Order)
    requires w > 0 && IsWord(n, w) && Ahead(v, Memory(n, w, order))
    ensures TakeWord(v, w, order) == Read(Got(n), Skip(v, w))
  {
    TakeAhead(v, Memory(n, w, order));
    MemoryRoundTrip(n, w, order);
  }

  lemma PowerSplit(j: nat)
    ensures Power(0x80, j + 1) == 0x80 * Power(0x80, j)
  {}

  lemma NotNegative(a: nat, b: nat)
    ensures a * b >= 0
  {}

  /** One round of the loop. */
  lemma GroupAhead(v: View, b: Byte, w: nat, j: nat, acc: nat)
    requires Ahead(v, [b]) && 7 * j < 8 * w && b % 0x80 * Power(0x80, j) < Power(256, w)
    ensures var acc' := acc + b % 0x80 * Power(0x80, j);
            TakeVarint(v, w, j, acc) ==
            if b < 0x80 then Read(Got(acc'), Skip(v, 1)) else TakeVarint(Skip(v, 1), w, j + 1, acc')
  {
    TakeAhead(v, [b]);
    PowerPositive(0x80, j);
    NotNegative(b % 0x80, Power(0x80, j));
    WrappedIs(b % 0x80 * Power(0x80, j), w);
    hide Power;
  }

  lemma Share(n: nat, p: nat)
    ensures n * p == (n % 0x80) * p + (n / 0x80) * (0x80 * p)
    ensures 0 <= (n % 0x80) * p <= n * p
  {
    var low, rest := n % 0x80, n / 0x80;
    assert n == low + 0x80 * rest;
    assert n * p == low * p + (0x80 * rest) * p;
    assert (0x80 * rest) * p == rest * (0x80 * p);
    assert rest * (0x80 * p) >= 0;
  }

  /** A varint is read back from the middle: acc is what came before its j-th byte. */
  lemma {:induction false} VarintAhead(v: View, n: nat, w: nat, j: nat, acc: nat)
    requires Ahead(v, Varint(n)) && n * Power(0x80, j) < Power(256, w)
    requires 7 * (j + |Varint(n)| - 1) < 8 * w
    ensures TakeVarint(v, w, j, acc) == Read(Got(acc + n * Power(0x80, j)), Skip(v, |Varint(n)|))
    decreases n
  {
    hide TakeVarint;
    hide Power;
    hide Ahead;
    var p := Power(0x80, j);
    var low, rest := n % 0x80, n / 0x80;
    Share(n, p);
    if n < 0x80 {
      assert Varint(n) == [n];
      GroupAhead(v, n, w, j, acc);
    } else {
      assert Varint(n) == [low + 0x80] + Varint(rest);
      AheadSplit(v, [low + 0x80], Varint(rest));
      PowerSplit(j);
      assert (low + 0x80) % 0x80 == low;
      GroupAhead(v, low + 0x80, w, j, acc);
      VarintAhead(Skip(v, 1), rest, w, j + 1, acc + low * p);
    }
  }

  lemma VarAhead(v: View, n: nat, w: nat)
    requires w in {4, 8} && IsWord(n, w) && Ahead(v, Varint(n))
    ensures TakeVarint(v, w, 0, 0) == Read(Got(n), Skip(v, |Varint(n)|))
  {
    VarintFits(n);
    assert Power(0x80, 0) == 1;
    hide TakeVarint;
    hide Varint;
    hide Power;
    VarintAhead(v, n, w, 0, 0);
  }

  /** Whatever bytes there are, rounds more are looked at and no others, until one says it is the last. */
  lemma {:induction false} VarintRounds(v: View, w: nat, j: nat, acc: nat, rounds: nat, more: seq<Byte>)
    requires 7 * (j + rounds) >= 8 * w && (rounds > 0 ==> 7 * (j + rounds - 1) < 8 * w)
    requires Ahead(v, more) && |more| == rounds && forall i :: 0 <= i < |more| ==> more[i] >= 0x80
    requires v.pos + rounds < |v.mem|
    ensures TakeVarint(v, w, j, acc).r.Got? && TakeVarint(v, w, j, acc).v == Skip(v, rounds)
    decreases rounds
  {
    hide TakeVarint;
    if rounds == 0 {
      VarintOver(v, w, j, acc);
    } else {
      VarintRound(v, w, j, acc);
      assert more == [more[0]] + more[1..];
      AheadSplit(v, [more[0]], more[1..]);
      TakeAhead(v, [more[0]]);
      hide Group;
      VarintRounds(Skip(v, 1), w, j + 1, acc + Group(more[0], w, j), rounds - 1, more[1..]);
    }
  }

  /** So of a code that never ends 5 bytes are read for 32 bits and 10 for 64. */
  lemma VarintStops(v: View, w: nat, more: seq<Byte>)
    requires w in {4, 8} && Ahead(v, more) && |more| == (if w == 4 then 5 else 10)
    requires v.pos + |more| < |v.mem| && forall i :: 0 <= i < |more| ==> more[i] >= 0x80
    ensures TakeVarint(v, w, 0, 0).r.Got? && TakeVarint(v, w, 0, 0).v == Skip(v, |more|)
  {
    hide TakeVarint;
    VarintRounds(v, w, 0, 0, |more|, more);
  }

  /** Varints delimit themselves: no code is the beginning of another. */
  lemma {:induction false} VarintPrefixFree(a: nat, b: nat, s: seq<Byte>, t: seq<Byte>)
    requires Varint(a) + s == Varint(b) + t
    ensures a == b && s == t
    decreases a
  {
    assert (Varint(a) + s)[0] == Varint(a)[0] && (Varint(b) + t)[0] == Varint(b)[0];
    if a < 0x80 {
      assert s == (Varint(a) + s)[1..] && t == (Varint(b) + t)[1..];
    } else {
      assert (Varint(a) + s)[1..] == Varint(a / 0x80) + s;
      assert (Varint(b) + t)[1..] == Varint(b / 0x80) + t;
      VarintPrefixFree(a / 0x80, b / 0x80, s, t);
    }
  }

  // ---------------------------------------------------------------- one value

  /** The length fits the type that carries it. */
  predicate Whole(i: Item)
    requires Typed(i)
  {
    i.kind.StringFixed? ==> IsWord(|i.value.s|, i.kind.w)
  }

  /** An empty string whose length ends exactly at the end of the memory. */
  predicate EndsInNull(i: Item, v: View, order: Order)
    requires Typed(i)
  {
    i.value == Str([]) && v.pos + |Encode(i, order)| == |v.mem|
  }

  lemma StringAhead(v: View, len: seq<Byte>, s: seq<Byte>, n: Read<nat>)
    requires Ahead(v, len + s) && n == Read(Got(|s|), Skip(v, |len|))
    ensures InBounds(n.v)
    ensures TakeString(n) ==
            if s == [] && v.pos + |len| == |v.mem| then Read(NullCursor, n.v) else Read(Got(s), Skip(v, |len + s|))
  {
    AheadSplit(v, len, s);
    TakeAhead(n.v, s);
  }

  /** What was written is read back, except for an empty string that ends at the end of the
      memory. */
  lemma DecodeEncode(i: Item, v: View, order: Order)
    requires Typed(i) && Whole(i) && Ahead(v, Encode(i, order))
    ensures !EndsInNull(i, v, order) ==> Decode(i.kind, v, order) == Read(Got(i.value), Skip(v, |Encode(i, order)|))
    ensures EndsInNull(i, v, order) ==> Decode(i.kind, v, order).r == NullCursor
  {
    hide Memory;
    hide Varint;
    hide TakeVarint;
    hide TakeWord;
    hide Ahead;
    hide Zigzag;
    match i
    case Item(Fixed(w), Num(n)) => WordAhead(v, n, w, order);
    case Item(FixedSigned(w), Num(n)) =>
      SignedRoundTrip(n, w);
      WordAhead(v, Wrapped(n, w), w, order);
    case Item(Var(w), Num(n)) => VarAhead(v, n, w);
    case Item(Zig(w), Num(n)) =>
      ZigzagMeaning(n, w);
      VarAhead(v, Zigzag(n, w), w);
    case Item(StringFixed(w), Str(s)) =>
      WrappedIs(|s|, w);
      var len := Memory(|s|, w, order);
      AheadSplit(v, len, s);
      WordAhead(v, |s|, w, order);
      StringAhead(v, len, s, TakeWord(v, w, order));
    case Item(StringVar, Str(s)) =>
      AheadSplit(v, Varint(|s|), s);
      VarAhead(v, |s|, 8);
      StringAhead(v, Varint(|s|), s, TakeVarint(v, 8, 0, 0));
  }

  lemma CutShort(i: Item, v: View, order: Order)
    requires Typed(i) && !Whole(i) && Ahead(v, Encode(i, order))
    ensures var r := Decode(i.kind, v, order).r; r.Got? ==> |r.value.s| < |i.value.s|
  {
    var w, s := i.kind.w, i.value.s;
    PowerPositive(256, w);
    var len := Memory(Wrapped(|s|, w), w, order);
    AheadSplit(v, len, s);
    WordAhead(v, Wrapped(|s|, w), w, order);
  }

  /** A string too long for its length type comes back cut short, whatever follows it. */
  lemma LongString(i: Item, v: View, order: Order)
    requires Typed(i) && Ahead(v, Encode(i, order)) && !EndsInNull(i, v, order)
    ensures Decode(i.kind, v, order).r == Got(i.value) <==> Whole(i)
  {
    if Whole(i) {
      DecodeEncode(i, v, order);
    } else {
      CutShort(i, v, order);
    }
  }

  // ---------------------------------------------------------------- a list of values

  function EncodeAll(items: seq<Item>, order: Order): seq<Byte>
    requires forall i :: i in items ==> Typed(i)
  {
    if items == [] then [] else Encode(items[0], order) + EncodeAll(items[1..], order)
  }

  function DecodeAll(kinds: seq<Kind>, v: View, order: Order): Read<seq<Value>>
    requires InBounds(v)
  {
    if kinds == [] then Read(Got([]), v)
    else
      var first := Decode(kinds[0], v, order);
      if !first.r.Got? then Read(Failed(first.r), first.v)
      else
        var rest := DecodeAll(kinds[1..], first.v, order);
        Read(if rest.r.Got? then Got([first.r.value] + rest.r.value) else rest.r, rest.v)
  }

  function Kinds(items: seq<Item>): seq<Kind> {
    seq(|items|, i requires 0 <= i < |items| => items[i].kind)
  }

  function Values(items: seq<Item>): seq<Value> {
    seq(|items|, i requires 0 <= i < |items| => items[i].value)
  }

  /** Some empty string in the list ends at the end of the memory. */
  predicate SomeEndsInNull(items: seq<Item>, v: View, order: Order)
    requires forall i :: i in items ==> Typed(i)
  {
    && items != []
    && (|| EndsInNull(items[0], v, order)
        || SomeEndsInNull(items[1..], Skip(v, |Encode(items[0], order)|), order))
  }

  /** Reading with the same list of types gives the same values and ends where they end,
      exactly if no empty string ends at the end of the memory. */
  lemma {:induction false} DecodeEncodeAll(items: seq<Item>, v: View, order: Order)
    requires (forall i :: i in items ==> Typed(i) && Whole(i)) && Ahead(v, EncodeAll(items, order))
    ensures var t := DecodeAll(Kinds(items), v, order);
            if SomeEndsInNull(items, v, order) then t.r == NullCursor
            else t == Read(Got(Values(items)), Skip(v, |EncodeAll(items, order)|))
  {
    hide Decode;
    hide Encode;
    hide Ahead;
    hide Typed;
    hide Whole;
    if items != [] {
      var i, rest := items[0], items[1..];
      var code := Encode(i, order);
      AheadSplit(v, code, EncodeAll(rest, order));
      DecodeEncode(i, v, order);
      assert Kinds(items)[1..] == Kinds(rest) && Values(items) == [i.value] + Values(rest);
      if !EndsInNull(i, v, order) {
        DecodeEncodeAll(rest, Skip(v, |code|), order);
      }
    }
  }

  /** Where the array was written and the position taken back, what was written lies ahead. */
  lemma WrittenAhead(v: View, buf: seq<Byte>)
    requires InBounds(v) && v.pos + |buf| <= |v.mem|
    ensures var w := Written(v, buf);
            w.pos <= |w.mem| && Moved(w, v.pos) == Some(w.(pos := v.pos)) && Ahead(w.(pos := v.pos), buf)
  {}

  /** The round trip: write a list of values, take the position back, read them. */
  lemma RoundTrip(v: View, items: seq<Item>, order: Order)
    requires (forall i :: i in items ==> Typed(i) && Whole(i))
    requires InBounds(v) && v.pos + |EncodeAll(items, order)| <= |v.mem|
    ensures var w := Written(v, EncodeAll(items, order));
            var back := w.(pos := v.pos);
            && InBounds(back)
            && (DecodeAll(Kinds(items), back, order) == Read(Got(Values(items)), w) <==>
                !SomeEndsInNull(items, back, order))
  {
    WrittenAhead(v, EncodeAll(items, order));
    DecodeEncodeAll(items, Written(v, EncodeAll(items, order)).(pos := v.pos), order);
  }
}
