/**
 The typed write and read functions as the byte array runs them, on a machine of either byte
 order, proved against the codes of Serial.
 */
module SerialArrays {
  import opened Wrappers
  import opened ByteSpec
  import opened ByteArrays
  import opened Codec
  import opened Serial

  function OrderOf(ba: ByteArray): Order
    reads ba
  {
    if ba.littleEndian then Little else Big
  }

  /** bytes have been written at the position. */
  twostate predicate Wrote(ba: ByteArray, more: seq<Byte>, bytes: seq<Byte>)
    requires old(ba.Valid())
    reads ba, ba.repr
  {
    && ba.Valid() && fresh(ba.repr - old(ba.repr)) && ba.littleEndian == old(ba.littleEndian)
    && old(ba.view.pos) + |bytes| <= |old(ba.view.mem)| + |more|
    && ba.view == Written(Grown(old(ba.view), more), bytes)
  }

  lemma WrittenBytes(v: View, bytes: seq<Byte>)
    requires v.pos + |bytes| <= |v.mem|
    ensures Cut(Written(v, bytes).mem, v.pos, |bytes|) == bytes
  {}

  /** writeFint8 to writeFuint64. */
  method WriteWord(ba: ByteArray, n: nat, w: nat, host: Order) returns (ghost more: seq<Byte>)
    requires ba.Valid() && IsWord(n, w)
    modifies ba.repr
    ensures Wrote(ba, more, Memory(n, w, OrderOf(ba)))
    ensures Spells(Cut(ba.view.mem, old(ba.view.pos), w), n, old(ba.littleEndian))
  {
    var value := n;
    if OrderOf(ba) != host {
      value := Swapped(value, w);
    }
    StoredIsPortable(n, w, OrderOf(ba), host);
    ghost var v := ba.view;
    more := ba.Write(Memory(value, w, host));
    WrittenBytes(Grown(v, more), Memory(n, w, OrderOf(ba)));
    MemorySpells(n, w, OrderOf(ba));
  }

  /** One turn of the loop: the byte at i is the code's own, and the rest follows it. */
  lemma VarintNext(code: seq<Byte>, i: nat, v: nat)
    requires i <= |code| && code[i..] == Varint(v)
    ensures i < |code| && code[i] == (if v < 0x80 then v else v % 0x80 + 0x80)
    ensures if v < 0x80 then i + 1 == |code| else code[i+1..] == Varint(v / 0x80)
  {
    assert code[i] == code[i..][0] && code[i+1..] == code[i..][1..];
  }

  /** The loop of writeUint32 and writeUint64, into a buffer of 5 or 10 bytes. */
  method Groups(n: nat, w: nat) returns (tmp: array<Byte>, i: nat)
    requires w in {4, 8} && IsWord(n, w)
    ensures fresh(tmp) && i <= tmp.Length == (if w == 4 then 5 else 10) && tmp[..i] == Varint(n)
  {
    tmp := new Byte[if w == 4 then 5 else 10];
    var value := n;
    i := 0;
    VarintFits(n);
    ghost var code := Varint(n);
    hide IsWord;
    hide Power;
    hide Varint;
    while value >= 0x80
      invariant i <= |code| <= tmp.Length && code[i..] == Varint(value)
      invariant forall k :: 0 <= k < i ==> tmp[k] == code[k]
    {
      VarintNext(code, i, value);
      tmp[i] := value % 0x80 + 0x80;
      value := value / 0x80;
      i := i + 1;
    }
    VarintNext(code, i, value);
    tmp[i] := value;
    i := i + 1;
  }

  /** writeUint32 and writeUint64. */
  method WriteVarint(ba: ByteArray, n: nat, w: nat) returns (ghost more: seq<Byte>)
    requires ba.Valid() && w in {4, 8} && IsWord(n, w)
    modifies ba.repr
    ensures Wrote(ba, more, Varint(n))
  {
    var tmp, i := Groups(n, w);
    more := ba.Write(tmp[..i]);
  }

  /** A string behind the len bytes of its length. */
  method WriteBehind(ba: ByteArray, ghost v0: View, ghost len: seq<Byte>, ghost m: seq<Byte>, s: seq<Byte>)
    returns (ghost more: seq<Byte>)
    requires ba.Valid() && v0.pos + |len| <= |v0.mem| + |m| && ba.view == Written(Grown(v0, m), len)
    modifies ba.repr
    ensures ba.Valid() && fresh(ba.repr - old(ba.repr)) && ba.littleEndian == old(ba.littleEndian)
    ensures v0.pos + |len + s| <= |v0.mem| + |more| && ba.view == Written(Grown(v0, more), len + s)
  {
    ghost var m' := ba.Write(s);
    hide Written;
    hide Grown;
    WrittenOn(v0, m, len, m', s);
    more := m + m';
  }

  /** writeStringF16 to writeStringF64. */
  method WriteStringFixed(ba: ByteArray, s: seq<Byte>, w: nat, host: Order) returns (ghost more: seq<Byte>)
    requires ba.Valid()
    modifies ba.repr
    ensures Wrote(ba, more, Memory(Wrapped(|s|, w), w, OrderOf(ba)) + s)
  {
    PowerPositive(256, w);
    ghost var v0, len := ba.view, Memory(Wrapped(|s|, w), w, OrderOf(ba));
    ghost var m := WriteWord(ba, Wrapped(|s|, w), w, host);
    hide Wrapped;
    hide Memory;
    hide Written;
    more := WriteBehind(ba, v0, len, m, s);
  }

  method WriteStringVint(ba: ByteArray, s: seq<Byte>) returns (ghost more: seq<Byte>)
    requires ba.Valid() && IsWord(|s|, 8)
    modifies ba.repr
    ensures Wrote(ba, more, Varint(|s|) + s)
  {
    ghost var v0 := ba.view;
    hide Varint;
    hide Written;
    ghost var m := WriteVarint(ba, |s|, 8);
    more := WriteBehind(ba, v0, Varint(|s|), m, s);
  }

  /** All of the write functions. */
  method WriteValue(ba: ByteArray, i: Item, host: Order) returns (ghost more: seq<Byte>)
    requires ba.Valid() && Typed(i)
    modifies ba.repr
    ensures Wrote(ba, more, Encode(i, OrderOf(ba)))
  {
    match i.kind
    case Fixed(w) => more := WriteWord(ba, i.value.n, w, host);
    case FixedSigned(w) =>
      SignedRoundTrip(i.value.n, w);
      more := WriteWord(ba, Wrapped(i.value.n, w), w, host);
    case Var(w) => more := WriteVarint(ba, i.value.n, w);
    case Zig(w) =>
      ZigzagMeaning(i.value.n, w);
      more := WriteVarint(ba, Zigzag(i.value.n, w), w);
    case StringFixed(w) => more := WriteStringFixed(ba, i.value.s, w, host);
    case StringVar => more := WriteStringVint(ba, i.value.s);
  }

  // ---------------------------------------------------------------- reading

  method ReadWord(ba: ByteArray, w: nat, host: Order) returns (r: Outcome<nat>)
    requires ba.Valid()
    modifies ba`position, ba`cur, ba`at, ba`view
    ensures ba.Valid() && Read(r, ba.view) == TakeWord(old(ba.view), w, old(OrderOf(ba)))
    ensures r.Got? ==> Spells(Cut(old(ba.view.mem), old(ba.view.pos), w), r.value, old(ba.littleEndian))
  {
    ghost var was := ba.view;
    ba.Sizes();
    hide ByteArray.Loose;
    hide Spells;
    hide FromMemory;
    hide Swapped;
    var t := ba.Read(w);
    if !t.Got? {
      return Failed(t);
    }
    assert t.value == Cut(was.mem, was.pos, w);
    LoadedSpells(t.value, OrderOf(ba));
    var v := FromMemory(t.value, host);
    LoadedIsPortable(t.value, OrderOf(ba), host);
    if OrderOf(ba) == host {
      return Got(v);
    }
    return Got(Swapped(v, w));
  }

  /** How many bytes have been read when the shift is i. */
  function Round(i: nat, ghost j: nat): (r: nat)
    requires i == 7 * j
    ensures r == j
  {
    i / 7
  }

  /** One turn of the loop: the result so far, and whether more is to come; or a failure. */
  method ReadGroup(ba: ByteArray, w: nat, j: nat, acc: nat) returns (r: Outcome<nat>, more: bool)
    requires ba.Valid() && 7 * j < 8 * w
    modifies ba`position, ba`cur, ba`at, ba`view
    ensures ba.Valid() && (more ==> r.Got?)
    ensures TakeVarint(old(ba.view), w, j, acc) ==
            if more then TakeVarint(ba.view, w, j + 1, r.value) else Read(r, ba.view)
  {
    hide TakeVarint;
    hide Group;
    hide ByteArray.Loose;
    VarintRound(ba.view, w, j, acc);
    TakeIs(ba.view, 1);
    var t := ba.Read(1);
    if !t.Got? {
      return Failed(t), false;
    }
    var b := t.value[0];
    return Got(acc + Group(b, w, j)), b >= 0x80;
  }

  /** readUint32 and readUint64. */
  method ReadVarint(ba: ByteArray, w: nat) returns (r: Outcome<nat>)
    requires ba.Valid() && w in {4, 8}
    modifies ba`position, ba`cur, ba`at, ba`view
    ensures ba.Valid() && Read(r, ba.view) == TakeVarint(old(ba.view), w, 0, 0)
  {
    hide *;
    ghost var was := ba.view;
    var result: nat, i: nat := 0, 0;
    ghost var j: nat := 0;
    while i < 8 * w
      invariant i == 7 * j
      invariant ba.Valid() && TakeVarint(ba.view, w, j, result) == TakeVarint(was, w, 0, 0)
      decreases 8 * w + 7 - i
    {
      var round := Round(i, j);
      var t, more := ReadGroup(ba, w, round, result);
      if !more {
        return t;
      }
      result := t.value;
      i := i + 7;
      j := j + 1;
    }
    VarintOver(ba.view, w, j, result);
    return Got(result);
  }

  method ReadChars(ba: ByteArray, len: Outcome<nat>) returns (r: Outcome<Value>)
    requires ba.Valid()
    modifies ba`position, ba`cur, ba`at, ba`view
    ensures ba.Valid() && Read(r, ba.view) == AsStr(TakeString(Read(len, old(ba.view))))
  {
    if !len.Got? {
      return Failed(len);
    }
    var t := ba.Read(len.value);
    r := if t.Got? then Got(Str(t.value)) else Failed(t);
  }

  /** All of the read functions. */
  method ReadValue(ba: ByteArray, k: Kind, host: Order) returns (r: Outcome<Value>)
    requires ba.Valid() && (k.Var? || k.Zig? ==> k.w in {4, 8})
    modifies ba`position, ba`cur, ba`at, ba`view
    ensures ba.Valid() && Read(r, ba.view) == Decode(k, old(ba.view), old(OrderOf(ba)))
  {
    match k {
      case Fixed(w) =>
        var t := ReadWord(ba, w, host);
        r := if t.Got? then Got(Num(t.value)) else Failed(t);
      case FixedSigned(w) =>
        var t := ReadWord(ba, w, host);
        r := if t.Got? then Got(Num(Signed(t.value, w))) else Failed(t);
      case Var(w) =>
        var t := ReadVarint(ba, w);
        r := if t.Got? then Got(Num(t.value)) else Failed(t);
      case Zig(w) =>
        var t := ReadVarint(ba, w);
        r := if t.Got? then Got(Num(if IsWord(t.value, w) then Unzigzag(t.value, w) else 0)) else Failed(t);
      case StringFixed(w) =>
        var len := ReadWord(ba, w, host);
        r := ReadChars(ba, len);
      case StringVar =>
        var len := ReadVarint(ba, 8);
        r := ReadChars(ba, len);
    }
  }

  // ---------------------------------------------------------------- a list of values

  /** Write the values one after the other. */
  method WriteAll(ba: ByteArray, items: seq<Item>, host: Order) returns (ghost more: seq<Byte>)
    requires ba.Valid() && forall i :: i in items ==> Typed(i)
    modifies ba.repr
    ensures Wrote(ba, more, EncodeAll(items, old(OrderOf(ba))))
    decreases |items|
  {
    ghost var v0, order := ba.view, OrderOf(ba);
    if items == [] {
      WrittenNothing(v0);
      return [];
    }
    hide Encode;
    hide ByteArray.Valid;
    hide Written;
    hide Typed;
    ghost var m := WriteValue(ba, items[0], host);
    ghost var m' := WriteAll(ba, items[1..], host);
    WrittenOn(v0, m, Encode(items[0], order), m', EncodeAll(items[1..], order));
    more := m + m';
  }

  /** Read values of these types one after the other. */
  method ReadAll(ba: ByteArray, kinds: seq<Kind>, host: Order) returns (r: Outcome<seq<Value>>)
    requires ba.Valid() && forall k :: k in kinds && (k.Var? || k.Zig?) ==> k.w in {4, 8}
    modifies ba`position, ba`cur, ba`at, ba`view
    ensures ba.Valid() && Read(r, ba.view) == DecodeAll(kinds, old(ba.view), old(OrderOf(ba)))
    decreases |kinds|
  {
    if kinds == [] {
      return Got([]);
    }
    hide Decode;
    hide ByteArray.Loose;
    var first := ReadValue(ba, kinds[0], host);
    if !first.Got? {
      return Failed(first);
    }
    var rest := ReadAll(ba, kinds[1..], host);
    r := if rest.Got? then Got([first.value] + rest.value) else rest;
  }

  lemma KindsTyped(items: seq<Item>)
    requires forall i :: i in items ==> Typed(i)
    ensures forall k :: k in Kinds(items) && (k.Var? || k.Zig?) ==> k.w in {4, 8}
  {
    forall k | k in Kinds(items) && (k.Var? || k.Zig?)
      ensures k.w in {4, 8}
    {
      var j :| 0 <= j < |Kinds(items)| && Kinds(items)[j] == k;
      assert items[j] in items;
    }
  }

  lemma ReadBack(v: View, more: seq<Byte>, items: seq<Item>, order: Order)
    requires InBounds(v) && forall i :: i in items ==> Typed(i) && Whole(i)
    requires v.pos + |EncodeAll(items, order)| <= |v.mem| + |more|
    ensures var w := Written(Grown(v, more), EncodeAll(items, order));
            var back := w.(pos := v.pos);
            && Moved(w, v.pos) == Some(back) && InBounds(back)
            && var t := DecodeAll(Kinds(items), back, order);
               if SomeEndsInNull(items, back, order) then t.r == NullCursor else t == Read(Got(Values(items)), w)
  {
    hide DecodeAll;
    hide SomeEndsInNull;
    hide EncodeAll;
    hide Typed;
    hide Whole;
    var code := EncodeAll(items, order);
    WrittenAhead(Grown(v, more), code);
    DecodeEncodeAll(items, Written(Grown(v, more), code).(pos := v.pos), order);
  }

  /** Write a list of values, take the position back, read them: on an array that grows as it needs,
      of either byte order, on a machine of either byte order. They come back, and the position is
      behind them, exactly if no empty string ends at the end of the memory. */
  method RoundTrip(ba: ByteArray, items: seq<Item>, host: Order) returns (r: Outcome<seq<Value>>, ghost more: seq<Byte>)
    requires ba.Valid() && forall i :: i in items ==> Typed(i) && Whole(i)
    modifies ba.repr
    ensures var v, code := old(ba.view), EncodeAll(items, old(OrderOf(ba)));
            && ba.Valid() && v.pos + |code| <= |v.mem| + |more|
            && var w := Written(Grown(v, more), code);
            if SomeEndsInNull(items, w.(pos := v.pos), old(OrderOf(ba))) then r == NullCursor
            else r == Got(Values(items)) && ba.view == w
  {
    ba.Sizes();
    ghost var v, order := ba.view, OrderOf(ba);
    var pos := ba.position;
    KindsTyped(items);
    hide ByteArray.Loose;
    hide Encode;
    hide Decode;
    hide Typed;
    hide Whole;
    more := WriteAll(ba, items, host);
    ReadBack(v, more, items, order);
    hide DecodeAll;
    hide EncodeAll;
    hide Written;
    hide Grown;
    hide Moved;
    hide Kinds;
    hide Values;
    hide SomeEndsInNull;
    var ok := ba.SetPosition(pos);
    r := ReadAll(ba, Kinds(items), host);
  }
}
