/**
 A socket stream and the loops of readFixSize and writeFixSize. How much each system call
 moves is up to the kernel: script says it, call by call, and a number that is not positive is
 what the call returns instead. incoming is what is still to be received, sent what went out.
 */
module Streams {
  import opened ByteSpec
  import opened ByteArrays

  function Min(a: nat, b: nat): nat {
    if a < b then a else b
  }

  // ---------------------------------------------------------------- what the kernel will do

  /** The next call, if it could move at most limit bytes; 0 when there is nothing left to say. */
  function NextCall(script: seq<int>, limit: nat): int {
    if script == [] then 0 else if script[0] > limit then limit else script[0]
  }

  function Later(script: seq<int>): seq<int> {
    if script == [] then [] else script[1..]
  }

  /** The sum of the entries before the first that is not positive. */
  function Lead(script: seq<int>): nat {
    if script == [] || script[0] <= 0 then 0 else script[0] + Lead(script[1..])
  }

  /** How much a loop moves that wants so much of what is there. */
  function Moves(script: seq<int>, want: nat, there: nat): nat {
    Min(Min(want, there), Lead(script))
  }

  lemma MovesStep(script: seq<int>, want: nat, there: nat)
    requires want > 0
    ensures var k := NextCall(script, Min(want, there));
            k <= want && k <= there
            && Moves(script, want, there) == if k <= 0 then 0 else k + Moves(Later(script), want - k, there - k)
  {}

  lemma CallBound(script: seq<int>, limit: nat)
    ensures NextCall(script, limit) <= limit
  {}

  lemma SliceStart(mem: seq<Byte>, p: nat, n: nat, k: nat)
    requires k <= n && p + n <= |mem|
    ensures mem[p..p + n][..k] == mem[p..p + k]
  {}

  lemma MovesNone(script: seq<int>, there: nat)
    ensures Moves(script, 0, there) == 0
  {}

  /** Enough entries for n bytes, and every one moves something. */
  predicate Steady(script: seq<int>, n: nat) {
    |script| >= n && forall i :: 0 <= i < |script| ==> script[i] > 0
  }

  /** As long as every call moves something, everything there is gets moved. */
  lemma {:induction false} SteadyMoves(script: seq<int>, n: nat)
    requires Steady(script, n)
    ensures Lead(script) >= n
    ensures forall want: nat, there: nat :: there <= n ==> Moves(script, want, there) == Min(want, there)
  {
    if n > 0 {
      SteadyMoves(script[1..], n - 1);
    }
  }

  class SocketStream {
    var connected: bool
    var incoming: seq<Byte>
    var sent: seq<Byte>
    var script: seq<int>

    // -------------------------------------------------------------- the kernel

    /** One system call that could move at most limit bytes. */
    method Call(limit: nat) returns (rt: int)
      modifies this`script
      ensures rt == NextCall(old(script), limit) && script == Later(old(script))
    {
      if script == [] {
        return 0;
      }
      rt := script[0];
      script := script[1..];
      if rt > limit {
        rt := limit;
      }
    }

    method Recv(len: nat) returns (rt: int, data: seq<Byte>)
      modifies this`script, this`incoming
      ensures rt == NextCall(old(script), Min(len, |old(incoming)|)) && script == Later(old(script))
      ensures |data| == (if rt > 0 then rt else 0) && old(incoming) == data + incoming
    {
      rt := Call(Min(len, |incoming|));
      data := if rt > 0 then incoming[..rt] else [];
      incoming := incoming[|data|..];
    }

    method Send(data: seq<Byte>) returns (rt: int)
      modifies this`script, this`sent
      ensures rt == NextCall(old(script), |data|) && script == Later(old(script))
      ensures sent == old(sent) + data[..if rt > 0 then rt else 0]
    {
      rt := Call(|data|);
      sent := sent + data[..if rt > 0 then rt else 0];
    }

    // -------------------------------------------------------------- byte arrays

    /** The kernel fills the vectors, and read moves the position behind what came. */
    method FillUp(ba: ByteArray, iovs: seq<IoVec>, ghost len: nat, data: seq<Byte>)
      requires ba.Valid() && ba.Covers(iovs, len) && |data| <= len
      modifies ba.repr
      ensures ba.Valid() && ba.repr == old(ba.repr) && ba.littleEndian == old(ba.littleEndian)
      ensures old(ba.view.pos) + |data| <= |old(ba.view.mem)|
      ensures ba.view == Written(old(ba.view), data)
    {
      ba.Fill(iovs, len, data);
      if |data| > 0 {
        var ok := ba.SetPosition(ba.position + |data|);
        assert ok;
      }
    }

    /** One read: what came in lies at the old position, and the position is behind it. */
    method Read(ba: ByteArray, len: nat) returns (rt: int, ghost more: seq<Byte>, ghost data: seq<Byte>)
      requires ba.Valid() && this !in ba.repr
      modifies this`script, this`incoming, ba.repr
      ensures ba.Valid() && fresh(ba.repr - old(ba.repr)) && connected == old(connected)
      ensures rt == if connected then NextCall(old(script), Min(len, |old(incoming)|)) else -1
      ensures script == if connected then Later(old(script)) else old(script)
      ensures |data| == (if rt > 0 then rt else 0) && old(incoming) == data + incoming
      ensures |more| == if connected then Growth(old(ba.view), len, ba.baseSize) else 0
      ensures old(ba.view.pos) + |data| <= |old(ba.view.mem)| + |more|
      ensures ba.view == Written(Grown(old(ba.view), more), data)
    {
      SpliceNone(ba.view.mem, ba.view.pos);
      if !connected {
        assert Grown(ba.view, []) == ba.view;
        return -1, [], [];
      }
      var iovs;
      iovs, more := ba.GetWriteBuffers(len);
      hide Growth;
      hide ByteArray.Loose;
      hide ByteArray.Covers;
      var got;
      rt, got := Recv(len);
      data := got;
      FillUp(ba, iovs, len, got);
    }

    /** The kernel gathers the vectors, in order. */
    method Gather(iovs: seq<IoVec>) returns (data: seq<Byte>)
      requires forall k :: 0 <= k < |iovs| ==> iovs[k].off + iovs[k].len <= iovs[k].block.Length
      ensures data == Collected(iovs)
    {
      data := [];
      var k := 0;
      while k < |iovs|
        invariant k <= |iovs| && data + Collected(iovs[k..]) == Collected(iovs)
      {
        data := data + iovs[k].block[iovs[k].off..iovs[k].off + iovs[k].len];
        assert iovs[k..][1..] == iovs[k+1..];
        k := k + 1;
      }
    }

    method SendVectors(iovs: seq<IoVec>, ghost n: nat) returns (rt: int)
      requires forall k :: 0 <= k < |iovs| ==> iovs[k].off + iovs[k].len <= iovs[k].block.Length
      requires |Collected(iovs)| == n
      modifies this`script, this`sent
      ensures rt == NextCall(old(script), n) && script == Later(old(script)) && rt <= n
      ensures sent == old(sent) + old(Collected(iovs))[..if rt > 0 then rt else 0]
    {
      hide Collected;
      var data := Gather(iovs);
      rt := Send(data);
    }

    /** The system call of write, over the vectors of what can be read. */
    method SendFrom(ba: ByteArray, len: nat) returns (rt: int)
      requires ba.Valid()
      modifies this`script, this`sent
      ensures ba.position <= ba.size <= |ba.view.mem|
      ensures rt == NextCall(old(script), Min(len, ba.size - ba.position)) && script == Later(old(script))
      ensures sent == old(sent) + ba.view.mem[ba.position..ba.position + if rt > 0 then rt else 0]
    {
      ba.Sizes();
      var iovs, n := ba.GetReadBuffers(len);
      ba.CoversMeans(iovs, n);
      hide ByteArray.Covers;
      hide ByteArray.Base;
      hide NextCall;
      hide Later;
      rt := SendVectors(iovs, n);
      CallBound(old(script), n);
      if rt > 0 {
        SliceStart(ba.view.mem, ba.position, n, rt);
      }
    }

    /** One write: what went out lay at the old position, and the position is behind it. */
    method Write(ba: ByteArray, len: nat) returns (rt: int)
      requires ba.Valid() && this !in ba.repr
      modifies this`script, this`sent, ba`position, ba`size, ba`cur, ba`at, ba`view
      ensures ba.Valid() && connected == old(connected)
      ensures rt == if connected then NextCall(old(script), Min(len, old(ba.view.size - ba.view.pos))) else -1
      ensures script == if connected then Later(old(script)) else old(script)
      ensures var n := if rt > 0 then rt else 0;
              && n <= old(ba.view.size) - old(ba.view.pos) && ba.view == old(ba.view).(pos := old(ba.view.pos) + n)
              && sent == old(sent) + old(ba.view.mem)[old(ba.view.pos)..old(ba.view.pos) + n]
    {
      if !connected {
        return -1;
      }
      rt := SendFrom(ba, len);
      if rt > 0 {
        var ok := ba.SetPosition(ba.position + rt);
      }
    }

    // -------------------------------------------------------------- the loops

    /** Stores the next length bytes at the position, or what came before a call failed. */
    method ReadFixSize(ba: ByteArray, length: nat) returns (r: int, ghost more: seq<Byte>, ghost data: seq<Byte>)
      requires ba.Valid() && this !in ba.repr
      modifies this`script, this`incoming, ba.repr
      ensures ba.Valid() && fresh(ba.repr - old(ba.repr))
      ensures old(incoming) == data + incoming
      ensures |data| == if connected then Moves(old(script), length, |old(incoming)|) else 0
      ensures if |data| == length then r == length else r <= 0
      ensures old(ba.view.pos) + |data| <= |old(ba.view.mem)| + |more|
      ensures ba.view == Written(Grown(old(ba.view), more), data)
    {
      hide Moves;
      hide NextCall;
      hide Later;
      hide Lead;
      hide Min;
      hide Growth;
      hide ByteArray.Loose;
      hide Splice;
      var left: nat := length;
      more, data := [], [];
      WrittenNothing(ba.view);
      ba.Sizes();
      while left > 0
        invariant left + |data| == length
        invariant ba.Valid() && fresh(ba.repr - old(ba.repr)) && this !in ba.repr && connected == old(connected)
        invariant old(incoming) == data + incoming
        invariant connected ==> Moves(old(script), length, |old(incoming)|) == |data| + Moves(script, left, |incoming|)
        invariant !connected ==> data == []
        invariant old(ba.view.pos) + |data| <= |old(ba.view.mem)| + |more|
        invariant ba.view == Written(Grown(old(ba.view), more), data)
      {
        ghost var m, d;
        var len;
        MovesStep(script, left, |incoming|);
        len, m, d := Read(ba, left);
        WrittenOn(old(ba.view), more, data, m, d);
        more, data := more + m, data + d;
        if len <= 0 {
          return len, more, data;
        }
        left := left - len;
      }
      MovesNone(script, |incoming|);
      return length, more, data;
    }

    /** Sends length bytes from the position on, or what went out before a call failed. */
    method WriteFixSize(ba: ByteArray, length: nat) returns (r: int, ghost n: nat)
      requires ba.Valid() && this !in ba.repr
      modifies this`script, this`sent, ba`position, ba`size, ba`cur, ba`at, ba`view
      ensures ba.Valid()
      ensures n == if connected then Moves(old(script), length, old(ba.view.size - ba.view.pos)) else 0
      ensures if n == length then r == length else r <= 0
      ensures n <= old(ba.view.size) - old(ba.view.pos) && ba.view == old(ba.view).(pos := old(ba.view.pos) + n)
      ensures sent == old(sent) + old(ba.view.mem)[old(ba.view.pos)..old(ba.view.pos) + n]
    {
      hide Moves;
      hide NextCall;
      hide Later;
      hide Lead;
      hide Min;
      hide ByteArray.Loose;
      var left: nat := length;
      n := 0;
      while left > 0
        invariant left + n == length && ba.Valid() && connected == old(connected)
        invariant connected ==>
                  Moves(old(script), length, old(ba.view.size - ba.view.pos))
                  == n + Moves(script, left, ba.view.size - ba.view.pos)
        invariant !connected ==> n == 0
        invariant n <= old(ba.view.size) - old(ba.view.pos) && ba.view == old(ba.view).(pos := old(ba.view.pos) + n)
        invariant sent == old(sent) + old(ba.view.mem)[old(ba.view.pos)..old(ba.view.pos) + n]
      {
        MovesStep(script, left, ba.view.size - ba.view.pos);
        var len := Write(ba, left);
        if len <= 0 {
          return len, n;
        }
        left := left - len;
        n := n + len;
      }
      MovesNone(script, ba.view.size - ba.view.pos);
      return length, n;
    }

    // -------------------------------------------------------------- plain buffers

    method ReadBytes(buffer: array<Byte>, offset: nat, length: nat) returns (rt: int, ghost data: seq<Byte>)
      requires offset + length <= buffer.Length
      modifies this`script, this`incoming, buffer
      ensures connected == old(connected)
      ensures rt == if connected then NextCall(old(script), Min(length, |old(incoming)|)) else -1
      ensures script == if connected then Later(old(script)) else old(script)
      ensures |data| == if rt > 0 then rt else 0
      ensures old(incoming) == data + incoming && buffer[..] == Splice(old(buffer[..]), offset, data)
    {
      SpliceNone(buffer[..], offset);
      if !connected {
        return -1, [];
      }
      var got;
      rt, got := Recv(length);
      data := got;
      MemCpy(buffer, offset, got);
    }

    /** readFixSize into the buffer from start on. */
    method ReadFixSizeBytes(buffer: array<Byte>, start: nat, length: nat) returns (r: int, ghost data: seq<Byte>)
      requires start + length <= buffer.Length
      modifies this`script, this`incoming, buffer
      ensures |data| == if connected then Moves(old(script), length, |old(incoming)|) else 0
      ensures if |data| == length then r == length else r <= 0
      ensures old(incoming) == data + incoming && buffer[..] == Splice(old(buffer[..]), start, data)
    {
      var offset: nat, left: nat := 0, length;
      data := [];
      SpliceNone(buffer[..], start);
      while left > 0
        invariant offset + left == length && |data| == offset && connected == old(connected)
        invariant connected ==> Moves(old(script), length, |old(incoming)|) == |data| + Moves(script, left, |incoming|)
        invariant !connected ==> data == []
        invariant old(incoming) == data + incoming && buffer[..] == Splice(old(buffer[..]), start, data)
      {
        ghost var d;
        var len;
        MovesStep(script, left, |incoming|);
        len, d := ReadBytes(buffer, start + offset, left);
        SpliceOn(old(buffer[..]), start, data, d);
        data := data + d;
        if len <= 0 {
          return len, data;
        }
        offset := offset + len;
        left := left - len;
      }
      return length, data;
    }

    method WriteBytes(buffer: seq<Byte>, offset: nat, length: nat) returns (rt: int)
      requires offset + length <= |buffer|
      modifies this`script, this`sent
      ensures connected == old(connected)
      ensures rt == if connected then NextCall(old(script), length) else -1
      ensures script == if connected then Later(old(script)) else old(script)
      ensures sent == old(sent) + buffer[offset..offset + if rt > 0 then rt else 0]
    {
      if !connected {
        return -1;
      }
      rt := Send(buffer[offset..offset + length]);
    }

    method WriteFixSizeBytes(buffer: seq<Byte>, length: nat) returns (r: int, ghost n: nat)
      requires length <= |buffer|
      modifies this`script, this`sent
      ensures n == if connected then Moves(old(script), length, length) else 0
      ensures if n == length then r == length else r <= 0
      ensures n <= length && sent == old(sent) + buffer[..n]
    {
      var offset: nat, left: nat := 0, length;
      n := 0;
      while left > 0
        invariant offset + left == length && n == offset && connected == old(connected)
        invariant connected ==> Moves(old(script), length, length) == n + Moves(script, left, left)
        invariant !connected ==> n == 0
        invariant sent == old(sent) + buffer[..n]
      {
        MovesStep(script, left, left);
        var len := WriteBytes(buffer, offset, left);
        n := n + if len > 0 then len else 0;
        if len <= 0 {
          return len, n;
        }
        offset := offset + len;
        left := left - len;
      }
      return length, n;
    }
  }

  // ---------------------------------------------------------------- from end to end

  /** to holds at its position the n bytes that were at from's, and all its other bytes as before. */
  ghost predicate Delivered(from: View, to: View, to': View, n: nat) {
    && InBounds(from) && InBounds(to) && InBounds(to') && from.pos + n <= from.size && to'.pos == to.pos + n
    && |to.mem| <= |to'.mem| && to.pos + n <= to'.size == Max(to.size, to.pos + n)
    && to'.mem[to.pos..to.pos + n] == from.mem[from.pos..from.pos + n]
    && to'.mem[..to.pos] == to.mem[..to.pos]
    && (to.pos + n <= |to.mem| ==> to'.mem[to.pos + n..|to.mem|] == to.mem[to.pos + n..])
  }

  lemma {:induction false} WrittenDelivers(from: View, to: View, more: seq<Byte>, n: nat)
    requires InBounds(from) && InBounds(to) && from.pos + n <= from.size && to.pos + n <= |to.mem| + |more|
    ensures Delivered(from, to, Written(Grown(to, more), from.mem[from.pos..from.pos + n]), n)
  {
    var to' := Written(Grown(to, more), from.mem[from.pos..from.pos + n]);
    if to.pos + n <= |to.mem| {
      assert to'.mem[to.pos + n..|to.mem|] == (to.mem + more)[to.pos + n..|to.mem|];
    }
  }

  /** The connection is up and the kernel will move n bytes in positive amounts. */
  predicate CanMove(c: SocketStream, n: nat)
    reads c
  {
    n == 0 || (c.connected && n <= Lead(c.script))
  }

  /** What a complete writeFixSize puts on the wire. */
  method SendAll(sender: SocketStream, from: ByteArray, n: nat) returns (ok: bool, wire: seq<Byte>)
    requires from.Valid() && sender !in from.repr
    modifies sender`script, sender`sent, from`position, from`size, from`cur, from`at, from`view
    ensures from.Valid()
    ensures ok <==> old(CanMove(sender, n)) && n <= old(from.view.size - from.view.pos)
    ensures ok ==>
              n <= old(from.view.size) - old(from.view.pos)
              && from.view == old(from.view).(pos := old(from.view.pos) + n)
    ensures ok ==> wire == old(from.view.mem)[old(from.view.pos)..old(from.view.pos) + n]
  {
    var before := sender.sent;
    hide ByteArray.Loose;
    var r, n' := sender.WriteFixSize(from, n);
    return r == n, sender.sent[|before|..];
  }

  /** What a complete readFixSize makes of it. */
  method ReceiveAll(receiver: SocketStream, to: ByteArray, wire: seq<Byte>) returns (ok: bool, ghost more: seq<Byte>)
    requires to.Valid() && receiver !in to.repr
    modifies receiver`script, receiver`incoming, to.repr
    ensures to.Valid() && (ok <==> old(CanMove(receiver, |wire|)))
    ensures ok ==> old(to.view.pos) + |wire| <= |old(to.view.mem)| + |more|
    ensures ok ==> to.view == Written(Grown(old(to.view), more), wire)
  {
    receiver.incoming := wire;
    hide ByteArray.Loose;
    hide Written;
    hide Grown;
    ghost var data;
    var r;
    r, more, data := receiver.ReadFixSize(to, |wire|);
    assert r == |wire| ==> data == wire;
    return r == |wire|, more;
  }

  /** Sending n bytes over a connection and receiving them at the other end, whatever the two
      block sizes and however the kernel cuts the stream. */
  method Transfer(sender: SocketStream, from: ByteArray, receiver: SocketStream, to: ByteArray, n: nat)
    returns (ok: bool)
    requires from.Valid() && to.Valid() && from.repr !! to.repr
    requires sender != receiver && sender !in from.repr && sender !in to.repr && receiver !in from.repr
    requires receiver !in to.repr
    modifies sender`script, sender`sent, from`position, from`size, from`cur, from`at, from`view
    modifies receiver`script, receiver`incoming, to.repr
    ensures from.Valid() && to.Valid()
    ensures ok ==> Delivered(old(from.view), old(to.view), to.view, n)
    ensures ok ==> from.view == old(from.view).(pos := old(from.view.pos) + n)
    ensures ok <==> old(CanMove(sender, n)) && old(CanMove(receiver, n)) && n <= old(from.view.size - from.view.pos)
  {
    hide ByteArray.Loose;
    hide Written;
    hide Grown;
    hide Delivered;
    from.Sizes();
    to.Sizes();
    ghost var sending, receiving := from.view, to.view;
    var wire;
    ok, wire := SendAll(sender, from, n);
    assert to.view == receiving && to.Valid();
    if ok {
      ghost var more;
      ok, more := ReceiveAll(receiver, to, wire);
      if ok {
        WrittenDelivers(sending, receiving, more, n);
      }
    }
  }
}
