/**
 The byte array seen as a value: memory of some capacity with a position and a size. And,
 for what a user can see of it, a file: the bytes up to the size, and the position.
 */
module ByteSpec {
  import opened Wrappers

  type Byte = b: int | 0 <= b < 256

  /** mem is all the memory of the blocks in order; |mem| is m_capacity. */
  datatype View = View(mem: seq<Byte>, pos: nat, size: nat)

  predicate InBounds(v: View) {
    v.pos <= v.size <= |v.mem|
  }

  /** What a read comes to. NullCursor: the null m_cur is dereferenced. */
  datatype Outcome<+T> = Got(value: T) | NotEnough | NullCursor

  function Max(a: nat, b: nat): nat {
    if a > b then a else b
  }

  // ---------------------------------------------------------------- the operations

  function Splice(mem: seq<Byte>, at: nat, buf: seq<Byte>): (r: seq<Byte>)
    requires at + |buf| <= |mem|
    ensures |r| == |mem|
  {
    mem[..at] + buf + mem[at + |buf|..]
  }

  function CeilDiv(n: nat, d: nat): nat
    requires d > 0
  {
    (n + d - 1) / d
  }

  /** By how much addCapacity(n) enlarges the memory. */
  function Growth(v: View, n: nat, base: nat): nat
    requires base > 0 && v.pos <= |v.mem|
  {
    var room := |v.mem| - v.pos;
    if n <= room then 0 else CeilDiv(n - room, base) * base
  }

  /** more is what the new blocks happen to hold. */
  function Grown(v: View, more: seq<Byte>): View {
    v.(mem := v.mem + more)
  }

  function Written(v: View, buf: seq<Byte>): View
    requires v.pos + |buf| <= |v.mem|
  {
    View(Splice(v.mem, v.pos, buf), v.pos + |buf|, Max(v.size, v.pos + |buf|))
  }

  function ReadOf(v: View, n: nat): Outcome<seq<Byte>>
    requires InBounds(v)
  {
    if n > v.size - v.pos then NotEnough
    else if v.pos == |v.mem| then NullCursor
    else Got(v.mem[v.pos..v.pos + n])
  }

  function AfterRead(v: View, n: nat): View
    requires InBounds(v)
  {
    if ReadOf(v, n).Got? then v.(pos := v.pos + n) else v
  }

  /** None: setPosition throws. */
  function Moved(v: View, to: nat): Option<View> {
    if to > |v.mem| then None else Some(View(v.mem, to, Max(v.size, to)))
  }

  function Cleared(v: View, base: nat): View
    requires base <= |v.mem|
  {
    View(v.mem[..base], 0, 0)
  }

  /** addCapacity makes exactly enough room, and no whole block too much. */
  lemma {:induction false} GrowthFits(v: View, n: nat, base: nat)
    requires base > 0 && v.pos <= |v.mem|
    ensures v.pos + n <= |v.mem| + Growth(v, n, base)
    ensures Growth(v, n, base) > 0 ==> |v.mem| + Growth(v, n, base) < v.pos + n + base
  {
    var room := |v.mem| - v.pos;
    if n > room {
      var k := n - room + base - 1;
      assert k == CeilDiv(n - room, base) * base + k % base;
    }
  }

  /** Where block i begins: i * base, said without a product. */
  function Origin(i: nat, base: nat): nat {
    if i == 0 then 0 else Origin(i - 1, base) + base
  }

  lemma Times(k: nat, base: nat)
    requires k > 0
    ensures (k - 1) * base + base == k * base
  {}

  lemma {:induction false} OriginIs(i: nat, base: nat)
    ensures Origin(i, base) == i * base
  {
    if i > 0 {
      OriginIs(i - 1, base);
      Times(i, base);
    }
  }

  /** The number of blocks addCapacity makes. */
  lemma GrowthIs(v: View, n: nat, base: nat)
    requires base > 0 && v.pos <= |v.mem|
    ensures var room := |v.mem| - v.pos;
            if n <= room then Growth(v, n, base) == 0
            else CeilDiv(n - room, base) > 0 && Growth(v, n, base) == Origin(CeilDiv(n - room, base), base)
  {
    var room := |v.mem| - v.pos;
    if n > room {
      OriginIs(CeilDiv(n - room, base), base);
      GrowthFits(v, n, base);
    }
  }

  // ---------------------------------------------------------------- blocks

  function Flat(blocks: seq<seq<Byte>>): seq<Byte> {
    if blocks == [] then [] else Flat(blocks[..|blocks| - 1]) + blocks[|blocks| - 1]
  }

  ghost predicate Even(blocks: seq<seq<Byte>>, base: nat) {
    forall i :: 0 <= i < |blocks| ==> |blocks[i]| == base
  }

  lemma SeqAssoc<X>(a: seq<X>, b: seq<X>, c: seq<X>)
    ensures (a + b) + c == a + (b + c)
  {}

  lemma FlatLast(blocks: seq<seq<Byte>>, i: nat)
    requires |blocks| == i + 1
    ensures Flat(blocks) == Flat(blocks[..i]) + blocks[i]
  {}

  lemma {:induction false} FlatConcat(a: seq<seq<Byte>>, b: seq<seq<Byte>>)
    ensures Flat(a + b) == Flat(a) + Flat(b)
  {
    if b == [] {
      assert a + b == a;
    } else {
      var last := |b| - 1;
      FlatConcat(a, b[..last]);
      FlatLast(a + b, |a| + last);
      FlatLast(b, last);
      hide Flat;
      assert (a + b)[..|a| + last] == a + b[..last];
      SeqAssoc(Flat(a), Flat(b[..last]), b[last]);
    }
  }

  lemma OriginOne(base: nat)
    ensures Origin(1, base) == base
  {}

  lemma OriginNext(i: nat, base: nat)
    ensures Origin(i + 1, base) == Origin(i, base) + base
  {}

  lemma {:induction false} OriginsApart(a: nat, b: nat, base: nat)
    requires a < b
    ensures Origin(a, base) + base <= Origin(b, base)
  {
    if a < b - 1 {
      OriginsApart(a, b - 1, base);
    }
  }

  lemma {:induction false} FlatSize(blocks: seq<seq<Byte>>, base: nat)
    requires Even(blocks, base)
    ensures |Flat(blocks)| == Origin(|blocks|, base)
  {
    if blocks != [] {
      FlatSize(blocks[..|blocks| - 1], base);
    }
  }

  lemma FlatAround(blocks: seq<seq<Byte>>, i: nat)
    requires i < |blocks|
    ensures Flat(blocks) == Flat(blocks[..i]) + blocks[i] + Flat(blocks[i+1..])
  {
    hide Flat;
    var upTo := blocks[..i+1];
    FlatLast(upTo, i);
    assert upTo[..i] == blocks[..i];
    FlatConcat(upTo, blocks[i+1..]);
    assert upTo + blocks[i+1..] == blocks;
  }

  lemma SpliceInside(a: seq<Byte>, b: seq<Byte>, c: seq<Byte>, off: nat, chunk: seq<Byte>)
    requires off + |chunk| <= |b|
    ensures a + Splice(b, off, chunk) + c == Splice(a + b + c, |a| + off, chunk)
  {}

  lemma SameAround<X>(s: seq<X>, i: nat, x: X)
    requires i < |s|
    ensures s[i := x][..i] == s[..i] && s[i := x][i+1..] == s[i+1..]
  {}

  /** Writing into one block is writing into the flat memory. */
  lemma FlatPut(blocks: seq<seq<Byte>>, base: nat, i: nat, off: nat, chunk: seq<Byte>)
    requires Even(blocks, base) && i < |blocks| && off + |chunk| <= base
    ensures Origin(i, base) + off + |chunk| <= |Flat(blocks)|
    ensures Flat(blocks[i := Splice(blocks[i], off, chunk)]) == Splice(Flat(blocks), Origin(i, base) + off, chunk)
  {
    var blocks' := blocks[i := Splice(blocks[i], off, chunk)];
    FlatAround(blocks, i);
    FlatAround(blocks', i);
    FlatSize(blocks[..i], base);
    SameAround(blocks, i, blocks'[i]);
    hide *;
    SpliceInside(Flat(blocks[..i]), blocks[i], Flat(blocks[i+1..]), off, chunk);
  }

  lemma SliceInside(a: seq<Byte>, b: seq<Byte>, c: seq<Byte>, off: nat, n: nat)
    requires off + n <= |b|
    ensures (a + b + c)[|a| + off..|a| + off + n] == b[off..off + n]
  {}

  /** Reading within one block is reading from the flat memory. */
  lemma FlatGet(blocks: seq<seq<Byte>>, base: nat, i: nat, off: nat, n: nat)
    requires Even(blocks, base) && i < |blocks| && off + n <= base
    ensures Origin(i, base) + off + n <= |Flat(blocks)|
    ensures blocks[i][off..off + n] == Flat(blocks)[Origin(i, base) + off..Origin(i, base) + off + n]
  {
    FlatAround(blocks, i);
    FlatSize(blocks[..i], base);
    hide Flat;
    SliceInside(Flat(blocks[..i]), blocks[i], Flat(blocks[i+1..]), off, n);
  }

  lemma SpliceNone(mem: seq<Byte>, at: nat)
    requires at <= |mem|
    ensures Splice(mem, at, []) == mem
  {}

  lemma SpliceOn(mem: seq<Byte>, at: nat, a: seq<Byte>, b: seq<Byte>)
    requires at + |a| + |b| <= |mem|
    ensures Splice(Splice(mem, at, a), at + |a|, b) == Splice(mem, at, a + b)
  {}

  /** Splicing in bpos bytes and then n more. */
  lemma SpliceMore(mem: seq<Byte>, start: nat, buf: seq<Byte>, bpos: nat, n: nat)
    requires bpos + n <= |buf| && start + |buf| <= |mem|
    ensures Splice(Splice(mem, start, buf[..bpos]), start + bpos, buf[bpos..bpos + n])
              == Splice(mem, start, buf[..bpos + n])
  {
    SpliceOn(mem, start, buf[..bpos], buf[bpos..bpos + n]);
    assert buf[..bpos + n] == buf[..bpos] + buf[bpos..bpos + n];
  }

  lemma OneOrigin(i: nat, off: nat, q: nat, r: nat, base: nat)
    requires off < base && r < base && Origin(i, base) + off == Origin(q, base) + r
    ensures i == q && off == r
  {
    if i < q {
      OriginsApart(i, q, base);
    } else if q < i {
      OriginsApart(q, i, base);
    }
  }

  lemma DivMod(p: nat, i: nat, off: nat, base: nat)
    requires base > 0 && p == i * base + off && off < base
    ensures p / base == i && p % base == off
  {
    var q, r := p / base, p % base;
    assert p == q * base + r;
    OriginIs(i, base);
    OriginIs(q, base);
    OneOrigin(i, off, q, r, base);
  }

  /** Where a position lies. */
  lemma Located(p: nat, i: nat, off: nat, base: nat)
    requires p == Origin(i, base) + off && off < base
    ensures p / base == i && p % base == off
  {
    OriginIs(i, base);
    DivMod(p, i, off, base);
  }

  lemma WrittenNothing(v: View)
    requires InBounds(v)
    ensures Written(Grown(v, []), []) == v
  {
    SpliceNone(v.mem, v.pos);
    assert v.mem + [] == v.mem;
  }

  lemma SpliceGrown(mem: seq<Byte>, at: nat, buf: seq<Byte>, more: seq<Byte>)
    requires at + |buf| <= |mem|
    ensures Splice(mem, at, buf) + more == Splice(mem + more, at, buf)
  {}

  /** Two writes in a row are one. */
  lemma WrittenOn(v: View, m: seq<Byte>, a: seq<Byte>, m': seq<Byte>, b: seq<Byte>)
    requires v.pos + |a| <= |v.mem| + |m| && v.pos + |a| + |b| <= |v.mem| + |m| + |m'|
    ensures Written(Grown(Written(Grown(v, m), a), m'), b) == Written(Grown(v, m + m'), a + b)
  {
    hide Splice;
    var mem, p := v.mem + m, v.pos;
    var more := mem + m';
    SpliceGrown(mem, p, a, m');
    SpliceOn(more, p, a, b);
    var first := Written(Grown(v, m), a);
    assert Grown(first, m') == View(Splice(more, p, a), p + |a|, Max(v.size, p + |a|));
    assert Grown(v, m + m') == v.(mem := more) by {
      assert v.mem + (m + m') == more;
    }
  }

  // ---------------------------------------------------------------- scatter and gather

  /** A piece of one block. */
  datatype Slice = Slice(block: nat, off: nat, len: nat)

  /** What getReadBuffers and getWriteBuffers hand out for len bytes from off in a block. */
  function Slices(block: nat, off: nat, len: nat, base: nat): seq<Slice>
    requires off < base
    decreases len
  {
    if len == 0 then []
    else if base - off >= len then [Slice(block, off, len)]
    else [Slice(block, off, base - off)] + Slices(block + 1, 0, len - (base - off), base)
  }

  function Piece(blocks: seq<seq<Byte>>, s: Slice): seq<Byte> {
    if s.block < |blocks| && s.off + s.len <= |blocks[s.block]| then blocks[s.block][s.off..s.off + s.len] else []
  }

  function Gathered(blocks: seq<seq<Byte>>, slices: seq<Slice>): seq<Byte> {
    if slices == [] then [] else Piece(blocks, slices[0]) + Gathered(blocks, slices[1..])
  }

  lemma GatheredCons(blocks: seq<seq<Byte>>, s: Slice, rest: seq<Slice>)
    ensures Gathered(blocks, [s] + rest) == Piece(blocks, s) + Gathered(blocks, rest)
  {
    assert ([s] + rest)[1..] == rest;
  }

  lemma InRange(block: nat, off: nat, len: nat, base: nat, count: nat)
    requires len > 0 && Origin(block, base) + off + len <= Origin(count, base)
    ensures block < count
  {
    if count < block {
      OriginsApart(count, block, base);
    }
  }

  /** The slices lie within their blocks, and every one in a block of its own. */
  lemma {:induction false} SlicesApart(block: nat, off: nat, len: nat, base: nat, count: nat)
    requires off < base && Origin(block, base) + off + len <= Origin(count, base)
    ensures forall k :: 0 <= k < |Slices(block, off, len, base)| ==>
              var s := Slices(block, off, len, base)[k];
              s.block == block + k < count && s.off + s.len <= base && s.len > 0
    decreases len
  {
    if len > 0 {
      InRange(block, off, len, base, count);
      if base - off < len {
        SlicesApart(block + 1, 0, len - (base - off), base, count);
      }
    }
  }

  /** len bytes from p on. */
  function Cut(mem: seq<Byte>, p: nat, len: nat): (r: seq<Byte>)
    requires p + len <= |mem|
    ensures |r| == len
  {
    mem[p..p + len]
  }

  lemma Joined(mem: seq<Byte>, p: nat, n: nat, len: nat)
    requires n <= len && p + len <= |mem|
    ensures Cut(mem, p, n) + Cut(mem, p + n, len - n) == Cut(mem, p, len)
  {}

  lemma CutAll(mem: seq<Byte>, p: nat)
    requires p <= |mem|
    ensures Cut(mem, p, 0) == []
  {}

  function HeadLen(off: nat, len: nat, base: nat): nat
    requires off < base
  {
    if base - off >= len then len else base - off
  }

  lemma GatheredHead(blocks: seq<seq<Byte>>, block: nat, off: nat, len: nat, base: nat)
    requires len > 0 && off < base
    ensures Gathered(blocks, Slices(block, off, len, base))
         == Piece(blocks, Slice(block, off, HeadLen(off, len, base)))
          + if HeadLen(off, len, base) < len
              then Gathered(blocks, Slices(block + 1, 0, len - HeadLen(off, len, base), base)) else []
  {
    hide Piece;
    var n := HeadLen(off, len, base);
    var rest := if n < len then Slices(block + 1, 0, len - n, base) else [];
    GatheredCons(blocks, Slice(block, off, n), rest);
  }

  lemma PieceIs(blocks: seq<seq<Byte>>, block: nat, off: nat, n: nat, base: nat)
    requires Even(blocks, base) && block < |blocks| && off + n <= base
    ensures Origin(block, base) + off + n <= |Flat(blocks)|
    ensures Piece(blocks, Slice(block, off, n)) == Cut(Flat(blocks), Origin(block, base) + off, n)
  {
    FlatGet(blocks, base, block, off, n);
  }

  lemma GatheredNone(blocks: seq<seq<Byte>>, block: nat, off: nat, base: nat)
    requires off < base
    ensures Gathered(blocks, Slices(block, off, 0, base)) == []
  {}

  /** Together, in order, they are the bytes asked for. */
  lemma {:induction false} SlicesCover(blocks: seq<seq<Byte>>, block: nat, off: nat, len: nat, base: nat)
    requires Even(blocks, base) && off < base && Origin(block, base) + off + len <= Origin(|blocks|, base)
    ensures |Flat(blocks)| == Origin(|blocks|, base)
    ensures Gathered(blocks, Slices(block, off, len, base)) == Cut(Flat(blocks), Origin(block, base) + off, len)
    decreases len
  {
    hide Flat;
    hide Even;
    hide Cut;
    hide Origin;
    hide Gathered;
    hide Slices;
    hide Piece;
    FlatSize(blocks, base);
    OriginNext(block, base);
    if len == 0 {
      CutAll(Flat(blocks), Origin(block, base) + off);
      GatheredNone(blocks, block, off, base);
    } else {
      InRange(block, off, len, base, |blocks|);
      var n := HeadLen(off, len, base);
      GatheredHead(blocks, block, off, len, base);
      PieceIs(blocks, block, off, n, base);
      if n < len {
        SlicesCover(blocks, block + 1, 0, len - n, base);
        Joined(Flat(blocks), Origin(block, base) + off, n, len);
      }
    }
  }

  // ---------------------------------------------------------------- what a user can see

  datatype File = File(data: seq<Byte>, pos: nat)

  function FileOf(v: View): File
    requires InBounds(v)
  {
    File(v.mem[..v.size], v.pos)
  }

  /** gap is what a move past the end of the file finds there; None: the move is refused. */
  datatype Op = Put(buf: seq<Byte>) | Get(n: nat) | Seek(to: nat, gap: Option<seq<Byte>>) | Clear

  /** None: nothing to see. */
  function FileDo(f: File, op: Op): (File, Option<seq<Byte>>)
    requires f.pos <= |f.data|
  {
    match op
    case Put(buf) =>
      var end := f.pos + |buf|;
      (File(f.data[..f.pos] + buf + (if end < |f.data| then f.data[end..] else []), end), None)
    case Get(n) =>
      if f.pos + n <= |f.data| then (f.(pos := f.pos + n), Some(f.data[f.pos..f.pos + n])) else (f, None)
    case Seek(to, gap) =>
      (if to <= |f.data| then f.(pos := to)
       else if gap.Some? && |f.data| + |gap.value| == to then File(f.data + gap.value, to)
       else f, None)
    case Clear => (File([], 0), None)
  }

  /** v' and seen are what an operation on blocks of size base may come to. */
  ghost predicate Does(v: View, op: Op, base: nat, v': View, seen: Option<seq<Byte>>)
    requires base > 0 && InBounds(v) && base <= |v.mem|
  {
    match op
    case Put(buf) =>
      exists more: seq<Byte> ::
        && |more| == Growth(v, |buf|, base) && v.pos + |buf| <= |v.mem| + |more|
        && v' == Written(Grown(v, more), buf) && seen == None
    case Get(n) => v' == AfterRead(v, n) && seen == (if ReadOf(v, n).Got? then Some(ReadOf(v, n).value) else None)
    case Seek(to, gap) =>
      && (v.size < to ==> gap == if to <= |v.mem| then Some(v.mem[v.size..to]) else None)
      && v' == (if Moved(v, to).Some? then Moved(v, to).value else v) && seen == None
    case Clear => v' == Cleared(v, base) && seen == None
  }

  /** The one operation that sees the blocks: an empty read at the end of the memory. */
  predicate SeesBlocks(v: View, op: Op) {
    op == Get(0) && v.pos == |v.mem|
  }

  lemma PutAsFile(v: View, buf: seq<Byte>)
    requires InBounds(v) && v.pos + |buf| <= |v.mem|
    ensures FileOf(Written(v, buf)) == FileDo(FileOf(v), Put(buf)).0
  {
    var end := v.pos + |buf|;
    var mem' := Splice(v.mem, v.pos, buf);
    var size' := Max(v.size, end);
    assert mem'[..size'] == v.mem[..v.pos] + buf + v.mem[end..size'];
    assert v.mem[..v.pos] == v.mem[..v.size][..v.pos];
    assert end < v.size ==> v.mem[end..v.size] == v.mem[..v.size][end..];
  }

  lemma PutDoesAsFile(v: View, buf: seq<Byte>, base: nat, v': View, seen: Option<seq<Byte>>)
    requires base > 0 && InBounds(v) && base <= |v.mem| && Does(v, Put(buf), base, v', seen)
    ensures InBounds(v') && base <= |v'.mem| && (FileOf(v'), seen) == FileDo(FileOf(v), Put(buf))
  {
    hide Growth;
    hide Splice;
    var more: seq<Byte> :| |more| == Growth(v, |buf|, base) && v.pos + |buf| <= |v.mem| + |more|
                           && v' == Written(Grown(v, more), buf);
    PutAsFile(Grown(v, more), buf);
    assert (v.mem + more)[..v.size] == v.mem[..v.size];
    assert FileOf(Grown(v, more)) == FileOf(v);
  }

  lemma SeekAsFile(v: View, to: nat, gap: Option<seq<Byte>>, v': View)
    requires InBounds(v) && v' == if Moved(v, to).Some? then Moved(v, to).value else v
    requires v.size < to ==> gap == if to <= |v.mem| then Some(v.mem[v.size..to]) else None
    ensures InBounds(v') && FileOf(v') == FileDo(FileOf(v), Seek(to, gap)).0
  {
    if v.size < to <= |v.mem| {
      assert v.mem[..to] == v.mem[..v.size] + v.mem[v.size..to];
    }
  }

  lemma WithinPrefix(mem: seq<Byte>, size: nat, p: nat, n: nat)
    requires p + n <= size <= |mem|
    ensures mem[..size][p..p + n] == mem[p..p + n]
  {}

  lemma GetAsFile(v: View, n: nat)
    requires InBounds(v)
    ensures var r := ReadOf(v, n);
            (FileOf(AfterRead(v, n)), if r.Got? then Some(r.value) else None) == FileDo(FileOf(v), Get(n))
            <==> !(n == 0 && v.pos == |v.mem|)
  {
    if ReadOf(v, n).Got? {
      WithinPrefix(v.mem, v.size, v.pos, n);
    }
  }

  /** Any other operation does to the file what it should; and that one does not. */
  lemma DoesAsFile(v: View, op: Op, base: nat, v': View, seen: Option<seq<Byte>>)
    requires base > 0 && InBounds(v) && base <= |v.mem| && Does(v, op, base, v', seen)
    ensures InBounds(v') && base <= |v'.mem|
    ensures (FileOf(v'), seen) == FileDo(FileOf(v), op) <==> !SeesBlocks(v, op)
  {
    match op
    case Put(buf) => PutDoesAsFile(v, buf, base, v', seen);
    case Get(n) => GetAsFile(v, n);
    case Seek(to, gap) => SeekAsFile(v, to, gap, v');
    case Clear =>
  }

  /** A run of operations on blocks of size base, and what was seen. */
  ghost predicate IsRun(vs: seq<View>, ops: seq<Op>, seen: seq<Option<seq<Byte>>>, base: nat) {
    && base > 0 && |vs| == |ops| + 1 && |seen| == |ops|
    && (forall i :: 0 <= i < |vs| ==> InBounds(vs[i]) && base <= |vs[i].mem|)
    && forall i {:trigger ops[i]} :: 0 <= i < |ops| ==> Does(vs[i], ops[i], base, vs[i+1], seen[i])
  }

  /** The file after the first n operations, and what the n-th shows. */
  function FileAfter(f: File, ops: seq<Op>, n: nat): (r: File)
    requires n <= |ops| && f.pos <= |f.data|
    ensures r.pos <= |r.data|
  {
    if n == 0 then f else FileDo(FileAfter(f, ops, n - 1), ops[n-1]).0
  }

  lemma FileAfterIs(f: File, ops: seq<Op>, n: nat)
    requires n <= |ops| && f.pos <= |f.data|
    ensures FileAfter(f, ops, n) == if n == 0 then f else FileDo(FileAfter(f, ops, n - 1), ops[n-1]).0
  {
    hide FileDo;
  }

  lemma RunBounds(vs: seq<View>, ops: seq<Op>, seen: seq<Option<seq<Byte>>>, base: nat, n: nat)
    requires IsRun(vs, ops, seen, base) && n <= |ops|
    ensures |vs| == |ops| + 1 && |seen| == |ops| && InBounds(vs[n]) && FileOf(vs[n]).pos <= |FileOf(vs[n]).data|
  {
    hide Does;
  }

  lemma RunStep(vs: seq<View>, ops: seq<Op>, seen: seq<Option<seq<Byte>>>, base: nat, n: nat)
    requires IsRun(vs, ops, seen, base) && n < |ops| && !SeesBlocks(vs[n], ops[n])
    ensures InBounds(vs[n]) && InBounds(vs[n+1]) && FileOf(vs[n]).pos <= |FileOf(vs[n]).data|
    ensures (FileOf(vs[n+1]), seen[n]) == FileDo(FileOf(vs[n]), ops[n])
  {
    var op := ops[n];
    hide Does;
    hide SeesBlocks;
    hide FileDo;
    DoesAsFile(vs[n], op, base, vs[n+1], seen[n]);
  }

  /** Whatever the size of the blocks, the byte array is one flat file. */
  lemma {:induction false} RunIsFile(vs: seq<View>, ops: seq<Op>, seen: seq<Option<seq<Byte>>>, base: nat, n: nat)
    requires IsRun(vs, ops, seen, base) && n <= |ops|
    requires forall i :: 0 <= i < n ==> !SeesBlocks(vs[i], ops[i])
    ensures FileOf(vs[n]) == FileAfter(FileOf(vs[0]), ops, n)
    ensures forall i :: 0 <= i < n ==> seen[i] == FileDo(FileAfter(FileOf(vs[0]), ops, i), ops[i]).1
    decreases n
  {
    hide *;
    RunBounds(vs, ops, seen, base, 0);
    FileAfterIs(FileOf(vs[0]), ops, n);
    if n > 0 {
      var last := n - 1;
      RunIsFile(vs, ops, seen, base, last);
      assert !SeesBlocks(vs[last], ops[last]);
      RunStep(vs, ops, seen, base, last);
    }
  }
}
