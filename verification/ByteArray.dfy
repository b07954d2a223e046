/**
 The byte array: a list of blocks of one size with a cursor, which is null when the position
 is at the end of the last block. Every method is proved against the flat memory of ByteSpec.
 */
module ByteArrays {
  import opened Wrappers
  import opened ByteSpec

  class Node {
    const ptr: array<Byte>
    var next: Node?

    constructor (size: nat)
      ensures fresh(ptr) && ptr.Length == size && next == null
    {
      ptr := new Byte[size];
      next := null;
    }
  }

  function NodeAt(nodes: seq<Node>, i: nat): Node? {
    if i < |nodes| then nodes[i] else null
  }

  ghost predicate Owned(nodes: seq<Node>, repr: set<object>) {
    && (forall i :: 0 <= i < |nodes| ==> nodes[i] in repr && nodes[i].ptr in repr)
    && (forall i, j :: 0 <= i < j < |nodes| ==> nodes[i] != nodes[j] && nodes[i].ptr != nodes[j].ptr)
  }

  ghost predicate Linked(nodes: seq<Node>)
    reads nodes
  {
    forall i {:trigger nodes[i].next} :: 0 <= i < |nodes| ==> nodes[i].next == NodeAt(nodes, i + 1)
  }

  ghost predicate Holds(nodes: seq<Node>, blocks: seq<seq<Byte>>, base: nat)
    reads set i | 0 <= i < |nodes| :: nodes[i].ptr
  {
    |blocks| == |nodes| && forall i :: 0 <= i < |nodes| ==> blocks[i] == nodes[i].ptr[..] && |blocks[i]| == base
  }

  lemma {:induction false} HeldAt(nodes: seq<Node>, blocks: seq<seq<Byte>>, base: nat, i: nat)
    requires Holds(nodes, blocks, base) && i < |nodes|
    ensures blocks[i] == nodes[i].ptr[..] && nodes[i].ptr.Length == base && Even(blocks, base)
  {}

  lemma {:induction false} LinkAt(nodes: seq<Node>, i: nat)
    requires Linked(nodes) && i < |nodes|
    ensures nodes[i].next == NodeAt(nodes, i + 1)
  {}

  lemma SpliceNext(mem: seq<Byte>, off: nat, src: seq<Byte>, i: nat)
    requires i < |src| && off + |src| <= |mem|
    ensures Splice(mem, off, src[..i+1]) == Splice(mem, off, src[..i])[off + i := src[i]]
  {}

  /** memcpy into a block. */
  method MemCpy(dst: array<Byte>, off: nat, src: seq<Byte>)
    requires off + |src| <= dst.Length
    modifies dst
    ensures dst[..] == Splice(old(dst[..]), off, src)
  {
    var i := 0;
    while i < |src|
      invariant i <= |src|
      invariant dst[..] == Splice(old(dst[..]), off, src[..i])
    {
      dst[off + i] := src[i];
      SpliceNext(old(dst[..]), off, src, i);
      assert dst[..] == Splice(old(dst[..]), off, src[..i])[off + i := src[i]];
      i := i + 1;
    }
    assert src[..i] == src;
  }

  /** iov_base is an offset into a block. */
  datatype IoVec = IoVec(block: array<Byte>, off: nat, len: nat)

  ghost predicate Points(nodes: seq<Node>, iovs: seq<IoVec>, slices: seq<Slice>) {
    |iovs| == |slices| && forall k :: 0 <= k < |iovs| ==>
      slices[k].block < |nodes| && iovs[k] == IoVec(nodes[slices[k].block].ptr, slices[k].off, slices[k].len)
  }

  lemma {:induction false} PointsOn(nodes: seq<Node>, iovs: seq<IoVec>, slices: seq<Slice>, iov: IoVec, s: Slice)
    requires Points(nodes, iovs, slices) && s.block < |nodes| && iov == IoVec(nodes[s.block].ptr, s.off, s.len)
    ensures Points(nodes, iovs + [iov], slices + [s])
  {}

  /** The bytes the vectors stand for, in order. */
  ghost function Collected(iovs: seq<IoVec>): seq<Byte>
    reads set k | 0 <= k < |iovs| :: iovs[k].block
  {
    if iovs == [] then []
    else
      var v := iovs[0];
      (if v.off + v.len <= v.block.Length then v.block[v.off..v.off + v.len] else []) + Collected(iovs[1..])
  }

  lemma {:induction false} PointsTail(nodes: seq<Node>, iovs: seq<IoVec>, slices: seq<Slice>)
    requires Points(nodes, iovs, slices) && iovs != []
    ensures Points(nodes, iovs[1..], slices[1..]) && slices[0].block < |nodes|
    ensures iovs[0] == IoVec(nodes[slices[0].block].ptr, slices[0].off, slices[0].len)
  {}

  lemma {:induction false} CollectedIs(nodes: seq<Node>, blocks: seq<seq<Byte>>, base: nat, iovs: seq<IoVec>,
      slices: seq<Slice>)
    requires Holds(nodes, blocks, base) && Points(nodes, iovs, slices)
    ensures Collected(iovs) == Gathered(blocks, slices)
  {
    if iovs != [] {
      PointsTail(nodes, iovs, slices);
      CollectedIs(nodes, blocks, base, iovs[1..], slices[1..]);
      HeldAt(nodes, blocks, base, slices[0].block);
    }
  }

  /** The other blocks lie elsewhere. */
  method PokeNode(ghost nodes: seq<Node>, ghost blocks: seq<seq<Byte>>, ghost base: nat, ghost i: nat,
                  ptr: array<Byte>, off: nat, chunk: seq<Byte>, ghost repr: set<object>)
    requires Owned(nodes, repr) && Holds(nodes, blocks, base) && i < |nodes| && ptr == nodes[i].ptr
    requires off + |chunk| <= base
    modifies ptr
    ensures i < |blocks| && |blocks[i]| == base && Holds(nodes, blocks[i := Splice(blocks[i], off, chunk)], base)
  {
    hide Splice;
    HeldAt(nodes, blocks, base, i);
    MemCpy(ptr, off, chunk);
  }

  class ByteArray {
    const baseSize: nat
    var position: nat
    var capacity: nat
    var size: nat
    var littleEndian: bool
    var root: Node
    var cur: Node?
    /** The blocks in order, what they hold, the index of the cursor, and the flat view. */
    ghost var nodes: seq<Node>
    ghost var blocks: seq<seq<Byte>>
    ghost var at: nat
    ghost var view: View
    ghost var repr: set<object>

    ghost predicate Cursor()
      reads this
    {
      && baseSize > 0 && this in repr && |nodes| > 0 && root == nodes[0]
      && |blocks| == |nodes| && view.mem == Flat(blocks) && |view.mem| == capacity == Origin(|nodes|, baseSize)
      && position <= capacity && view.pos == position && view.size == size
      && at <= |nodes|
      && Origin(at, baseSize) <= position && (at < |nodes| ==> position < Origin(at, baseSize) + baseSize)
    }

    ghost predicate Base()
      reads this, repr
    {
      Owned(nodes, repr) && Linked(nodes) && Holds(nodes, blocks, baseSize) && Cursor()
    }

    ghost predicate Loose()
      reads this, repr
    {
      Base() && cur == NodeAt(nodes, at)
    }

    ghost predicate Valid()
      reads this, repr
      ensures Valid() ==> InBounds(view)
    {
      Loose() && position <= size <= capacity
    }

    /** The cursor is the block at position / baseSize, and null exactly at the end. */
    lemma CursorIs()
      requires Loose()
      ensures cur == NodeAt(nodes, position / baseSize)
      ensures cur == null <==> position == capacity
      ensures at < |nodes| ==> position % baseSize == position - Origin(at, baseSize)
    {
      if at < |nodes| {
        Located(position, at, position - Origin(at, baseSize), baseSize);
        OriginsApart(at, |nodes|, baseSize);
      } else {
        assert position == Origin(at, baseSize) + 0;
        Located(position, at, 0, baseSize);
      }
    }

    constructor (baseSize: nat)
      requires baseSize > 0
      ensures Valid() && fresh(repr) && this.baseSize == baseSize
      ensures view.pos == view.size == 0 && |view.mem| == baseSize && !littleEndian
    {
      this.baseSize := baseSize;
      position, capacity, size, littleEndian := 0, baseSize, 0, false;
      var node := new Node(baseSize);
      root, cur := node, node;
      nodes, at := [node], 0;
      blocks := [node.ptr[..]];
      view := View(node.ptr[..], 0, 0);
      repr := {this, node, node.ptr};
      new;
      assert blocks[..0] == [];
    }

    method SetIsLittleEndian(val: bool)
      requires Valid()
      modifies this`littleEndian
      ensures Valid() && littleEndian == val
    {
      littleEndian := val;
    }

    // -------------------------------------------------------------- one block

    /** The view after block i has changed. */
    ghost method PokeView(i: nat, off: nat, chunk: seq<Byte>)
      requires Cursor() && Even(blocks, baseSize) && i < |blocks| && off + |chunk| <= baseSize
      modifies this`blocks, this`view
      ensures Cursor() && |old(blocks)[i]| == baseSize && blocks == old(blocks)[i := Splice(old(blocks)[i], off, chunk)]
      ensures view.pos == old(view.pos) && view.size == old(view.size)
      ensures Origin(i, baseSize) + off + |chunk| <= |old(view.mem)|
      ensures view.mem == Splice(old(view.mem), Origin(i, baseSize) + off, chunk)
    {
      FlatPut(blocks, baseSize, i, off, chunk);
      hide Splice;
      hide Flat;
      blocks := blocks[i := Splice(blocks[i], off, chunk)];
      view := view.(mem := Flat(blocks));
    }

    /** Copies into block i. */
    method Poke(ghost i: nat, ptr: array<Byte>, off: nat, chunk: seq<Byte>)
      requires Loose() && i < |nodes| && ptr == nodes[i].ptr && off + |chunk| <= baseSize
      modifies ptr, this`blocks, this`view
      ensures Loose() && view.pos == old(view.pos) && view.size == old(view.size)
      ensures Origin(i, baseSize) + off + |chunk| <= |old(view.mem)|
      ensures view.mem == Splice(old(view.mem), Origin(i, baseSize) + off, chunk)
    {
      HeldAt(nodes, blocks, baseSize, i);
      hide Splice;
      hide Linked;
      hide Flat;
      hide Owned;
      hide Holds;
      PokeNode(nodes, blocks, baseSize, i, ptr, off, chunk, repr);
      PokeView(i, off, chunk);
    }

    /** The position moves on within the cursor's block, and to the next block if it is full. */
    method Advance(npos: nat, n: nat)
      requires Loose() && at < |nodes| && position == Origin(at, baseSize) + npos && npos + n <= baseSize
      modifies this`position, this`cur, this`at, this`view
      ensures Loose() && view == old(view).(pos := old(view.pos) + n)
      ensures at == old(at) + if npos + n == baseSize then 1 else 0
    {
      HeldAt(nodes, blocks, baseSize, at);
      LinkAt(nodes, at);
      OriginsApart(at, |nodes|, baseSize);
      hide Holds;
      hide Linked;
      hide Owned;
      hide Flat;
      if cur.ptr.Length == npos + n {
        cur := cur.next;
        at := at + 1;
      }
      position := position + n;
      view := view.(pos := position);
    }

    // -------------------------------------------------------------- capacity

    lemma FlatOne(b: seq<Byte>)
      ensures Flat([b]) == b
    {
      assert [b][..0] == [];
    }

    /** A new block behind the last one, tmp. */
    method Append(tmp: Node) returns (node: Node)
      requires Base()
      requires |nodes| > 0 && tmp == nodes[|nodes| - 1]
      modifies tmp`next, this`capacity, this`nodes, this`blocks, this`view, this`repr
      ensures Base()
      ensures fresh(repr - old(repr)) && old(repr) <= repr && node in repr && fresh(node)
      ensures nodes == old(nodes) + [node]
      ensures view == Grown(old(view), node.ptr[..]) && node.ptr.Length == baseSize
    {
      node := new Node(baseSize);
      FlatConcat(blocks, [node.ptr[..]]);
      FlatOne(node.ptr[..]);
      hide Flat;
      tmp.next := node;
      nodes := nodes + [node];
      blocks := blocks + [node.ptr[..]];
      view := Grown(view, node.ptr[..]);
      repr := repr + {node, node.ptr};
      capacity := capacity + baseSize;
    }

    lemma {:induction false} LastOwned(nodes: seq<Node>, repr: set<object>)
      requires Owned(nodes, repr) && |nodes| > 0
      ensures nodes[|nodes| - 1] in repr
    {}

    /** Walks to the last block. */
    method Last() returns (tmp: Node)
      requires Base()
      ensures tmp in repr && |nodes| > 0 && tmp == nodes[|nodes| - 1]
    {
      LastOwned(nodes, repr);
      tmp := root;
      ghost var i := 0;
      while tmp.next != null
        invariant i < |nodes| && tmp == nodes[i]
        decreases |nodes| - i
      {
        LinkAt(nodes, i);
        tmp := tmp.next;
        i := i + 1;
      }
      LinkAt(nodes, i);
    }

    lemma GrownOn(v: View, a: seq<Byte>, b: seq<Byte>)
      ensures Grown(Grown(v, a), b) == Grown(v, a + b)
    {
      assert v.mem + a + b == v.mem + (a + b);
    }

    lemma BaseOf()
      requires Loose()
      ensures Base()
    {}

    lemma HasNodes()
      requires Base()
      ensures |nodes| > 0 && this in repr && baseSize > 0
    {}

    /** The first of the new blocks. */
    method ExtendOne() returns (first: Node, ghost more: seq<Byte>)
      requires Base()
      modifies repr
      ensures Base()
      ensures fresh(repr - old(repr)) && old(repr) <= repr && fresh(first)
      ensures cur == old(cur) && at == old(at) && position == old(position) && size == old(size)
      ensures littleEndian == old(littleEndian)
      ensures nodes == old(nodes) + [first]
      ensures |more| == baseSize && view == Grown(old(view), more)
    {
      hide *;
      HasNodes();
      var tmp := Last();
      first := Append(tmp);
      more := first.ptr[..];
    }

    /** count blocks more. first is the first of them. */
    method Extend(count: nat) returns (first: Node, ghost more: seq<Byte>)
      requires Loose() && count > 0
      modifies repr
      ensures Base()
      ensures fresh(repr - old(repr)) && old(repr) <= repr
      ensures cur == old(cur) && at == old(at) && position == old(position) && size == old(size)
      ensures littleEndian == old(littleEndian)
      ensures |nodes| > |old(nodes)| && nodes[..|old(nodes)|] == old(nodes) && nodes[|old(nodes)|] == first
      ensures |more| == Origin(count, baseSize) && view == Grown(old(view), more)
    {
      hide *;
      BaseOf();
      HasNodes();
      first, more := ExtendOne();
      OriginOne(baseSize);
      var tmp, i := first, 1;
      while i < count
        invariant 1 <= i <= count
        invariant Base()
        invariant fresh(repr - old(repr)) && old(repr) <= repr
        invariant cur == old(cur) && at == old(at) && position == old(position) && size == old(size)
        invariant littleEndian == old(littleEndian)
        invariant |nodes| > |old(nodes)| && nodes[..|old(nodes)|] == old(nodes) && nodes[|old(nodes)|] == first
        invariant tmp == nodes[|nodes| - 1] && fresh(tmp)
        invariant |more| == Origin(i, baseSize) && view == Grown(old(view), more)
      {
        HasNodes();
        OriginNext(i, baseSize);
        tmp := Append(tmp);
        GrownOn(old(view), more, tmp.ptr[..]);
        more := more + tmp.ptr[..];
        i := i + 1;
      }
    }

    /** Room for n bytes from the position on, by whole blocks. */
    method AddCapacity(n: nat) returns (ghost more: seq<Byte>)
      requires Valid()
      modifies repr
      ensures Valid() && fresh(repr - old(repr)) && old(repr) <= repr
      ensures |more| == Growth(old(view), n, baseSize) && view == Grown(old(view), more)
      ensures position + n <= capacity && position == old(position) && littleEndian == old(littleEndian)
    {
      more := [];
      CursorIs();
      GrowthIs(view, n, baseSize);
      GrowthFits(view, n, baseSize);
      hide Growth;
      hide Owned;
      hide Linked;
      hide Holds;
      hide Flat;
      if n == 0 {
        return;
      }
      var oldCap := capacity - position;
      if oldCap >= n {
        return;
      }
      var count := CeilDiv(n - oldCap, baseSize);
      hide CeilDiv;
      var first;
      first, more := Extend(count);
      if oldCap == 0 {
        cur := first;
      }
    }

    // -------------------------------------------------------------- write and read

    /** One round of the loop of write: the chunk goes into the cursor's block. */
    method Store(npos: nat, chunk: seq<Byte>)
      requires Loose() && at < |nodes| && position == Origin(at, baseSize) + npos && npos + |chunk| <= baseSize
      modifies repr
      ensures Loose() && repr == old(repr) && littleEndian == old(littleEndian) && size == old(size)
      ensures old(position) + |chunk| <= |old(view.mem)|
      ensures view == View(Splice(old(view.mem), old(position), chunk), old(position) + |chunk|, old(size))
      ensures capacity == old(capacity) && nodes == old(nodes)
      ensures at == old(at) + if npos + |chunk| == baseSize then 1 else 0
    {
      Poke(at, cur.ptr, npos, chunk);
      Advance(npos, |chunk|);
    }

    lemma AtBlock()
      requires Loose() && position < capacity
      ensures at < |nodes| && cur == nodes[at] && cur.ptr.Length == baseSize
      ensures Origin(at, baseSize) <= position < Origin(at, baseSize) + baseSize
      ensures position % baseSize == position - Origin(at, baseSize)
    {
      CursorIs();
      HeldAt(nodes, blocks, baseSize, at);
    }

    lemma Sizes()
      requires Loose()
      ensures position <= capacity == |view.mem| && view.pos == position && view.size == size && baseSize > 0
      ensures this in repr
    {}

    /** The position is npos into the cursor's block, which ends ncap further on. */
    ghost predicate InBlock(npos: nat, ncap: nat)
      reads this
    {
      at < |nodes| && position == Origin(at, baseSize) + npos && npos + ncap == baseSize && ncap > 0
    }

    lemma {:induction false} BlockHere(npos: nat, ncap: nat)
      requires Loose() && InBlock(npos, ncap)
      ensures cur != null && cur.ptr.Length == baseSize && ncap > 0
    {
      HeldAt(nodes, blocks, baseSize, at);
    }

    /** buf[..bpos] has gone into mem from start on. */
    ghost predicate Copied(mem: seq<Byte>, start: nat, buf: seq<Byte>, bpos: nat)
      reads this
    {
      && bpos <= |buf| && start + |buf| <= |mem| == capacity
      && view == View(Splice(mem, start, buf[..bpos]), position, size) && position == start + bpos
    }

    /** Then n bytes more go in. */
    method StorePart(npos: nat, ncap: nat, buf: seq<Byte>, bpos: nat, n: nat, ghost mem: seq<Byte>, ghost start: nat)
      requires Loose() && InBlock(npos, ncap) && n <= ncap && bpos + n <= |buf| && Copied(mem, start, buf, bpos)
      modifies repr
      ensures Loose() && repr == old(repr) && littleEndian == old(littleEndian) && size == old(size)
      ensures Copied(mem, start, buf, bpos + n)
      ensures n == ncap && bpos + n < |buf| ==> InBlock(0, baseSize)
    {
      hide Base;
      hide Loose;
      hide Splice;
      hide Origin;
      Sizes();
      SpliceMore(mem, start, buf, bpos, n);
      OriginNext(at, baseSize);
      Store(npos, buf[bpos..bpos + n]);
      Sizes();
      if n == ncap && bpos + n < |buf| {
        AtBlock();
      }
    }

    lemma StartBlock()
      requires Loose() && position < capacity
      ensures baseSize > 0 && cur != null && cur.ptr.Length == baseSize
      ensures InBlock(position % baseSize, baseSize - position % baseSize)
    {
      Sizes();
      AtBlock();
    }

    lemma {:induction false} StartCopy(buf: seq<Byte>)
      requires Loose() && position < capacity && position + |buf| <= capacity
      ensures Copied(view.mem, position, buf, 0)
    {
      SpliceNone(view.mem, position);
      assert buf[..0] == [];
    }

    lemma {:induction false} CopiedAll(mem: seq<Byte>, start: nat, buf: seq<Byte>)
      requires Copied(mem, start, buf, |buf|)
      ensures start + |buf| <= |mem| && view == View(Splice(mem, start, buf), start + |buf|, size)
    {
      assert buf[..|buf|] == buf;
    }

    /** The loop of write. */
    method CopyIn(buf: seq<Byte>)
      requires Loose() && |buf| > 0 && position + |buf| <= capacity
      modifies repr
      ensures Loose() && repr == old(repr) && littleEndian == old(littleEndian) && size == old(size)
      ensures old(position) + |buf| <= |old(view.mem)|
      ensures view == View(Splice(old(view.mem), old(position), buf), old(position) + |buf|, old(size))
    {
      hide Loose;
      hide InBlock;
      hide Copied;
      StartBlock();
      StartCopy(buf);
      var npos: nat := position % baseSize;
      var ncap: nat := cur.ptr.Length - npos;
      var bpos: nat, left: nat := 0, |buf|;
      ghost var mem, start := view.mem, position;
      while left > 0
        invariant bpos + left == |buf| && Copied(mem, start, buf, bpos)
        invariant Loose() && repr == old(repr) && littleEndian == old(littleEndian) && size == old(size)
        invariant left > 0 ==> InBlock(npos, ncap)
      {
        BlockHere(npos, ncap);
        if ncap >= left {
          StorePart(npos, ncap, buf, bpos, left, mem, start);
          bpos := bpos + left;
          left := 0;
        } else {
          StorePart(npos, ncap, buf, bpos, ncap, mem, start);
          bpos := bpos + ncap;
          left := left - ncap;
          npos := 0;
          BlockHere(0, baseSize);
          ncap := cur.ptr.Length;
        }
      }
      CopiedAll(mem, start, buf);
    }

    /** The size follows the position. */
    method SetSize()
      requires Loose() && size <= capacity
      modifies this`size, this`view
      ensures Valid() && view == old(view).(size := Max(old(size), position))
    {
      hide Owned;
      hide Linked;
      hide Holds;
      hide Flat;
      if position > size {
        size := position;
        view := view.(size := size);
      }
    }

    method Write(buf: seq<Byte>) returns (ghost more: seq<Byte>)
      requires Valid()
      modifies repr
      ensures Valid() && fresh(repr - old(repr)) && littleEndian == old(littleEndian)
      ensures |more| == Growth(old(view), |buf|, baseSize) && old(view.pos) + |buf| <= |old(view.mem)| + |more|
      ensures view == Written(Grown(old(view), more), buf)
    {
      more := [];
      if buf == [] {
        SpliceNone(view.mem, position);
        assert Grown(view, more) == view;
        return;
      }
      more := AddCapacity(|buf|);
      hide Growth;
      hide Splice;
      hide Base;
      Sizes();
      CopyIn(buf);
      SetSize();
    }

    /** n bytes from the cursor's block. */
    method Load(npos: nat, ncap: nat, n: nat) returns (chunk: seq<Byte>)
      requires Loose() && InBlock(npos, ncap) && n <= ncap
      modifies this`position, this`cur, this`at, this`view
      ensures Loose() && view == old(view).(pos := position) && position == old(position) + n <= capacity == |view.mem|
      ensures chunk == Cut(view.mem, old(position), n)
      ensures n == ncap && position < capacity ==> InBlock(0, baseSize)
    {
      HeldAt(nodes, blocks, baseSize, at);
      FlatGet(blocks, baseSize, at, npos, n);
      chunk := cur.ptr[npos..npos + n];
      hide Owned;
      hide Linked;
      hide Holds;
      hide Flat;
      Advance(npos, n);
    }

    /** The loop of read. */
    method CopyOut(n: nat) returns (buf: seq<Byte>)
      requires Loose() && position < capacity && position + n <= capacity
      modifies this`position, this`cur, this`at, this`view
      ensures Loose() && view == old(view).(pos := old(position) + n)
      ensures |view.mem| == capacity && buf == Cut(view.mem, old(position), n)
    {
      hide Loose;
      hide InBlock;
      hide Cut;
      Sizes();
      StartBlock();
      var npos: nat := position % baseSize;
      var ncap: nat := cur.ptr.Length - npos;
      var left: nat := n;
      ghost var v, start := view, position;
      buf := [];
      CutAll(v.mem, start);
      while left > 0
        invariant |buf| + left == n && start + n <= capacity == |v.mem|
        invariant Loose() && position == start + |buf| && view == v.(pos := position)
        invariant buf == Cut(v.mem, start, |buf|)
        invariant left > 0 ==> InBlock(npos, ncap)
      {
        BlockHere(npos, ncap);
        var chunk;
        if ncap >= left {
          chunk := Load(npos, ncap, left);
          left := 0;
        } else {
          chunk := Load(npos, ncap, ncap);
          left := left - ncap;
          BlockHere(0, baseSize);
          ncap := cur.ptr.Length;
          npos := 0;
        }
        Joined(v.mem, start, |buf|, |buf| + |chunk|);
        buf := buf + chunk;
      }
    }

    /** Throws when there is too little; dereferences a null cursor at the end of the memory. */
    method Read(n: nat) returns (r: Outcome<seq<Byte>>)
      requires Valid()
      modifies this`position, this`cur, this`at, this`view
      ensures Valid() && r == ReadOf(old(view), n) && view == AfterRead(old(view), n)
    {
      CursorIs();
      hide Owned;
      hide Linked;
      hide Holds;
      hide Flat;
      if n > size - position {
        return NotEnough;
      }
      if cur == null {
        return NullCursor;
      }
      var buf := CopyOut(n);
      return Got(buf);
    }

    // -------------------------------------------------------------- position

    lemma {:induction false} NextBlock(block: nat, to: nat)
      requires Base() && block < |nodes| && Origin(block, baseSize) + baseSize < to <= capacity
      ensures block + 1 < |nodes|
    {}

    /** The block that holds position to, null when to is the end of the last one. */
    method Find(to: nat) returns (node: Node?, ghost block: nat)
      requires Valid() && to <= capacity
      ensures block <= |nodes| && node == NodeAt(nodes, block)
      ensures Origin(block, baseSize) <= to && (block < |nodes| ==> to < Origin(block, baseSize) + baseSize)
    {
      node, block := root, 0;
      HeldAt(nodes, blocks, baseSize, 0);
      LinkAt(nodes, 0);
      var v: nat := to;
      hide Linked;
      hide Holds;
      hide Flat;
      while v > node.ptr.Length
        invariant block < |nodes| && node == nodes[block] && node.ptr.Length == baseSize
        invariant node.next == NodeAt(nodes, block + 1)
        invariant Origin(block, baseSize) + v == to
      {
        NextBlock(block, to);
        v := v - node.ptr.Length;
        node := node.next;
        block := block + 1;
        HeldAt(nodes, blocks, baseSize, block);
        LinkAt(nodes, block);
      }
      if v == node.ptr.Length {
        node := node.next;
        block := block + 1;
      }
    }

    /** Walks from the first block. false: throws. A position past the size makes the size
        follow, whatever the memory in between holds. */
    method SetPosition(to: nat) returns (ok: bool)
      requires Valid()
      modifies this`position, this`size, this`cur, this`at, this`view
      ensures Valid() && ok == Moved(old(view), to).Some?
      ensures view == if ok then Moved(old(view), to).value else old(view)
    {
      Sizes();
      if to > capacity {
        return false;
      }
      var node, block := Find(to);
      position := to;
      cur, at := node, block;
      view := view.(pos := to);
      SetSize();
      return true;
    }

    lemma FirstBlock()
      requires Valid()
      ensures root in repr && root.ptr in repr && root.ptr.Length == baseSize
      ensures baseSize <= |view.mem| && view.mem[..baseSize] == root.ptr[..]
    {
      HeldAt(nodes, blocks, baseSize, 0);
      FlatGet(blocks, baseSize, 0, 0, baseSize);
    }

    lemma OneBlock(node: Node)
      requires node in repr && node.ptr in repr && node.next == null
      ensures Owned([node], repr) && Linked([node]) && Holds([node], [node.ptr[..]], node.ptr.Length)
    {}

    method Clear()
      requires Valid()
      modifies repr
      ensures Valid() && repr == old(repr) && littleEndian == old(littleEndian)
      ensures baseSize <= |old(view.mem)| && view == Cleared(old(view), baseSize)
    {
      FirstBlock();
      FlatOne(root.ptr[..]);
      hide Owned;
      hide Linked;
      hide Holds;
      hide Flat;
      var node := root;
      position, size, capacity := 0, 0, baseSize;
      cur := node;
      node.next := null;
      nodes, blocks, at := [node], [node.ptr[..]], 0;
      view := Cleared(view, baseSize);
      OneBlock(node);
      assert Origin(|nodes|, baseSize) == baseSize && NodeAt(nodes, at) == node;
    }

    // -------------------------------------------------------------- scatter and gather

    lemma NoPoints()
      ensures Points(nodes, [], [])
    {}

    lemma NoSlices(slices: seq<Slice>, block: nat, npos: nat)
      requires npos < baseSize
      ensures slices + Slices(block, npos, 0, baseSize) == slices
    {}

    lemma SlicesOn(slices: seq<Slice>, block: nat, npos: nat, left: nat)
      requires npos < baseSize && left > 0
      ensures slices + Slices(block, npos, left, baseSize)
           == slices + [Slice(block, npos, HeadLen(npos, left, baseSize))]
              + if baseSize - npos >= left then Slices(block, npos, 0, baseSize)
                else Slices(block + 1, 0, left - (baseSize - npos), baseSize)
    {}

    lemma {:induction false} NodeAfter(block: nat, npos: nat, left: nat)
      requires Loose() && block < |nodes| && npos < baseSize < npos + left
      requires Origin(block, baseSize) + npos + left <= capacity
      ensures block + 1 < |nodes|
      ensures nodes[block].next == nodes[block + 1] && nodes[block + 1].ptr.Length == baseSize
      ensures Origin(block + 1, baseSize) == Origin(block, baseSize) + baseSize
    {
      NextBlock(block, Origin(block, baseSize) + npos + left);
      LinkAt(nodes, block);
      HeldAt(nodes, blocks, baseSize, block + 1);
    }

    /** The vectors of len bytes from the position on. */
    method Vectors(len: nat) returns (iovs: seq<IoVec>)
      requires Loose() && len > 0 && position + len <= capacity
      ensures at < |nodes| && Origin(at, baseSize) <= position < Origin(at, baseSize) + baseSize
      ensures Points(nodes, iovs, Slices(at, position - Origin(at, baseSize), len, baseSize))
    {
      hide Loose;
      hide Points;
      hide Slices;
      hide Origin;
      Sizes();
      AtBlock();
      var npos: nat, left: nat := position % baseSize, len;
      var ncap: nat := cur.ptr.Length - npos;
      var node: Node := cur;
      ghost var slices: seq<Slice>, block: nat := [], at;
      ghost var all := Slices(at, npos, len, baseSize);
      iovs := [];
      NoPoints();
      while left > 0
        invariant npos < baseSize && Points(nodes, iovs, slices)
        invariant block < |nodes| && node == nodes[block] && npos + ncap == baseSize
        invariant all == slices + Slices(block, npos, left, baseSize)
        invariant left > 0 ==> Origin(block, baseSize) + npos + left <= capacity
      {
        var n := if ncap >= left then left else ncap;
        PointsOn(nodes, iovs, slices, IoVec(node.ptr, npos, n), Slice(block, npos, n));
        SlicesOn(slices, block, npos, left);
        iovs := iovs + [IoVec(node.ptr, npos, n)];
        slices := slices + [Slice(block, npos, n)];
        if ncap >= left {
          left := 0;
        } else {
          NodeAfter(block, npos, left);
          left := left - ncap;
          node := node.next;
          block := block + 1;
          ncap := node.ptr.Length;
          npos := 0;
        }
      }
      NoSlices(slices, block, npos);
    }

    /** The vectors cover the n bytes from the position on: within blocks, each in a block of
        its own. */
    ghost predicate Covers(iovs: seq<IoVec>, n: nat)
      reads this, repr
    {
      && Loose() && position + n <= capacity && (n > 0 ==> at < |nodes|)
      && (n > 0 ==> Origin(at, baseSize) <= position < Origin(at, baseSize) + baseSize)
      && if n == 0 then iovs == []
         else Points(nodes, iovs, Slices(at, position - Origin(at, baseSize), n, baseSize))
    }

    lemma {:induction false} CollectedHere(iovs: seq<IoVec>, off: nat, n: nat)
      requires Loose() && at < |nodes| && off < baseSize && position == Origin(at, baseSize) + off
      requires position + n <= capacity
      requires Points(nodes, iovs, Slices(at, off, n, baseSize))
      ensures |view.mem| == capacity && Collected(iovs) == view.mem[position..position + n]
    {
      HeldAt(nodes, blocks, baseSize, at);
      hide Slices;
      hide Collected;
      hide Gathered;
      hide Flat;
      hide Points;
      CollectedIs(nodes, blocks, baseSize, iovs, Slices(at, off, n, baseSize));
      SlicesCover(blocks, at, off, n, baseSize);
    }

    lemma {:induction false} Apart(iovs: seq<IoVec>, off: nat, n: nat)
      requires Base() && at < |nodes| && off < baseSize && Origin(at, baseSize) + off + n <= capacity
      requires Points(nodes, iovs, Slices(at, off, n, baseSize))
      ensures forall k :: 0 <= k < |iovs| ==>
                iovs[k].block in repr && iovs[k].len > 0 && iovs[k].off + iovs[k].len <= iovs[k].block.Length
      ensures forall j, k :: 0 <= j < k < |iovs| ==> iovs[j].block != iovs[k].block
    {
      SlicesApart(at, off, n, baseSize, |nodes|);
      var slices := Slices(at, off, n, baseSize);
      hide Slices;
      hide Flat;
      hide Linked;
      forall k | 0 <= k < |iovs|
        ensures iovs[k].block == nodes[at + k].ptr && iovs[k].block in repr && iovs[k].len > 0
        ensures iovs[k].off + iovs[k].len <= iovs[k].block.Length
      {
        assert slices[k].block == at + k;
        HeldAt(nodes, blocks, baseSize, at + k);
      }
    }

    lemma {:induction false} CoversSome(iovs: seq<IoVec>, n: nat)
      requires Covers(iovs, n) && n > 0
      ensures var off := position - Origin(at, baseSize);
              && Loose() && Base() && at < |nodes| && 0 <= off < baseSize && position == Origin(at, baseSize) + off
              && position + n <= capacity && Points(nodes, iovs, Slices(at, off, n, baseSize))
    {}

    lemma {:induction false} CoversMeans(iovs: seq<IoVec>, n: nat)
      requires Covers(iovs, n)
      ensures position + n <= |view.mem| && Collected(iovs) == view.mem[position..position + n]
      ensures forall k :: 0 <= k < |iovs| ==>
                iovs[k].block in repr && iovs[k].len > 0 && iovs[k].off + iovs[k].len <= iovs[k].block.Length
      ensures forall j, k :: 0 <= j < k < |iovs| ==> iovs[j].block != iovs[k].block
    {
      Sizes();
      hide Base;
      hide Slices;
      hide Points;
      hide Origin;
      if n > 0 {
        CoversSome(iovs, n);
        hide Covers;
        CollectedHere(iovs, position - Origin(at, baseSize), n);
        Apart(iovs, position - Origin(at, baseSize), n);
      }
    }

    /** What can be read, at most len of it. */
    method GetReadBuffers(len: nat) returns (iovs: seq<IoVec>, n: nat)
      requires Valid()
      ensures n == (if len > size - position then size - position else len)
      ensures Covers(iovs, n) && Collected(iovs) == view.mem[position..position + n]
    {
      n := if len > size - position then size - position else len;
      if n == 0 {
        iovs := [];
      } else {
        iovs := Vectors(n);
      }
      hide Base;
      CoversMeans(iovs, n);
    }

    /** Room for len bytes, made if it is not there. */
    method GetWriteBuffers(len: nat) returns (iovs: seq<IoVec>, ghost more: seq<Byte>)
      requires Valid()
      modifies repr
      ensures Valid() && fresh(repr - old(repr)) && littleEndian == old(littleEndian)
      ensures |more| == Growth(old(view), len, baseSize) && view == Grown(old(view), more)
      ensures Covers(iovs, len)
    {
      more := [];
      if len == 0 {
        assert Grown(view, more) == view;
        return [], more;
      }
      more := AddCapacity(len);
      hide Growth;
      hide Base;
      iovs := Vectors(len);
    }

    lemma {:induction false} NextVec(iovs: seq<IoVec>, k: nat, block: nat, off: nat, left: nat)
      requires off < baseSize && left > 0 && k <= |iovs| && Points(nodes, iovs[k..], Slices(block, off, left, baseSize))
      ensures k < |iovs| && block < |nodes|
      ensures iovs[k] == IoVec(nodes[block].ptr, off, HeadLen(off, left, baseSize))
      ensures HeadLen(off, left, baseSize) < left ==>
                Points(nodes, iovs[k+1..], Slices(block + 1, 0, left - HeadLen(off, left, baseSize), baseSize))
    {
      var slices := Slices(block, off, left, baseSize);
      assert iovs[k] == iovs[k..][0];
      assert slices[0] == Slice(block, off, HeadLen(off, left, baseSize));
      PointsTail(nodes, iovs[k..], slices);
      assert iovs[k..][1..] == iovs[k+1..];
      if HeadLen(off, left, baseSize) < left {
        assert slices[1..] == Slices(block + 1, 0, left - HeadLen(off, left, baseSize), baseSize);
      }
    }

    lemma {:induction false} OwnedAt(i: nat)
      requires Base() && i < |nodes|
      ensures nodes[i].ptr in repr
    {}

    /** One vector takes its part of the data. */
    method FillOne(ptr: array<Byte>, ghost block: nat, off: nat, data: seq<Byte>, done: nat, n: nat,
        ghost mem: seq<Byte>)
      requires Valid() && block < |nodes| && ptr == nodes[block].ptr && off + n <= baseSize && done + n <= |data|
      requires position + |data| <= |mem| && Origin(block, baseSize) + off == position + done
      requires view.mem == Splice(mem, position, data[..done])
      modifies repr
      ensures Valid() && repr == old(repr) && nodes == old(nodes) && littleEndian == old(littleEndian) && at == old(at)
      ensures view == old(view).(mem := Splice(mem, old(position), data[..done + n]))
      ensures position == old(position) && size == old(size) && capacity == old(capacity)
    {
      SpliceMore(mem, position, data, done, n);
      OwnedAt(block);
      hide Splice;
      hide Base;
      Poke(block, ptr, off, data[done..done + n]);
    }

    /** The vectors from k on are for the left bytes from off in block on. */
    ghost predicate Left(nodes: seq<Node>, iovs: seq<IoVec>, k: nat, block: nat, off: nat, left: nat) {
      k <= |iovs| && off < baseSize && Points(nodes, iovs[k..], Slices(block, off, left, baseSize))
    }

    lemma {:induction false} AllLeft(iovs: seq<IoVec>, len: nat)
      requires Covers(iovs, len) && len > 0
      ensures at < |nodes| && Origin(at, baseSize) <= position
      ensures Left(nodes, iovs, 0, at, position - Origin(at, baseSize), len)
    {
      assert iovs[0..] == iovs;
    }

    lemma {:induction false} StartFill(iovs: seq<IoVec>, len: nat, data: seq<Byte>)
      requires Valid() && Covers(iovs, len) && |data| <= len
      ensures position + len <= |view.mem| && Splice(view.mem, position, []) == view.mem
      ensures data != [] ==>
                at < |nodes| && Origin(at, baseSize) <= position
                && Left(nodes, iovs, 0, at, position - Origin(at, baseSize), len)
    {
      SpliceNone(view.mem, position);
      if data != [] {
        AllLeft(iovs, len);
      }
    }

    lemma {:induction false} VecAt(iovs: seq<IoVec>, k: nat, block: nat, off: nat, left: nat)
      requires Left(nodes, iovs, k, block, off, left) && left > 0
      ensures off < baseSize && k < |iovs| && block < |nodes|
      ensures var n := HeadLen(off, left, baseSize);
              iovs[k] == IoVec(nodes[block].ptr, off, n) && off + n <= baseSize && n <= left
              && (n < left ==> n == baseSize - off && Left(nodes, iovs, k + 1, block + 1, 0, left - n))
      ensures Origin(block + 1, baseSize) == Origin(block, baseSize) + baseSize
    {
      NextVec(iovs, k, block, off, left);
    }

    /** What a socket does that receives data into the vectors: it fills them in order. */
    method Fill(iovs: seq<IoVec>, ghost len: nat, data: seq<Byte>)
      requires Valid() && Covers(iovs, len) && |data| <= len
      modifies repr
      ensures Valid() && repr == old(repr) && littleEndian == old(littleEndian)
      ensures position == old(position) && size == old(size) && position + |data| <= |old(view.mem)|
      ensures view == old(view).(mem := Splice(old(view.mem), position, data))
    {
      hide Left;
      hide Covers;
      hide Loose;
      hide Splice;
      hide Origin;
      StartFill(iovs, len, data);
      if data == [] {
        return;
      }
      ghost var mem, v0, nodes0, start := view.mem, view, nodes, position;
      ghost var block: nat, off: nat := at, position - Origin(at, baseSize);
      var done: nat, k: nat := 0, 0;
      assert data[..0] == [];
      hide Valid;
      while done < |data|
        invariant done <= |data| <= len && start + len <= |mem|
        invariant Valid() && repr == old(repr) && littleEndian == old(littleEndian)
        invariant nodes == nodes0 && position == start && size == old(size)
        invariant view == v0.(mem := Splice(mem, start, data[..done]))
        invariant done < |data| ==> Origin(block, baseSize) + off == start + done
        invariant done < |data| ==> Left(nodes, iovs, k, block, off, len - done)
      {
        VecAt(iovs, k, block, off, len - done);
        var n: nat := if iovs[k].len < |data| - done then iovs[k].len else |data| - done;
        FillOne(iovs[k].block, block, iovs[k].off, data, done, n, mem);
        done := done + n;
        k := k + 1;
        block, off := block + 1, 0;
      }
      assert data[..done] == data;
    }
  }
}
