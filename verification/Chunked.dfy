/**
 The body of a response: de-chunking (section 4.1 of RFC 7230) and the content-length case,
 over a socket that delivers the stream in pieces of any size.
 */
module Chunked {
  import opened Wrappers
  import opened ByteSpec
  import opened ByteArrays
  import opened ChunkLines
  import opened Streams

  // ---------------------------------------------------------------- what a stream stands for

  /** The chunk behind a line of length used, and what follows its line end. */
  function DataOf(s: seq<Byte>, used: nat, size: nat): seq<Byte>
    requires used + size + 2 <= |s|
  {
    s[used..used + size]
  }

  function After(s: seq<Byte>, used: nat, size: nat): (r: seq<Byte>)
    requires used + size + 2 <= |s|
    ensures |r| == |s| - used - size - 2
  {
    s[used + size + 2..]
  }

  /** body comes before what b says. */
  function Prepended(body: seq<Byte>, b: Option<(seq<Byte>, seq<Byte>)>): Option<(seq<Byte>, seq<Byte>)> {
    match b
    case None => None
    case Some((more, rest)) => Some((body + more, rest))
  }

  /** The body the stream s stands for and what follows it; None if s ends too early or a line
      is malformed. */
  function Body(s: seq<Byte>): Option<(seq<Byte>, seq<Byte>)>
    decreases |s|
  {
    match ScanLine(s)
    case Line(size, used) =>
      if used + size + 2 > |s| then None
      else if size == 0 then Some(([], After(s, used, size)))
      else Prepended(DataOf(s, used, size), Body(After(s, used, size)))
    case _ => None
  }

  lemma PrependedNone(b: Option<(seq<Byte>, seq<Byte>)>)
    ensures Prepended([], b) == b
  {
    if b.Some? {
      assert [] + b.value.0 == b.value.0;
    }
  }

  lemma PrependedTwice(a: seq<Byte>, b: seq<Byte>, o: Option<(seq<Byte>, seq<Byte>)>)
    ensures Prepended(a, Prepended(b, o)) == Prepended(a + b, o)
  {
    if o.Some? {
      assert (a + b) + o.value.0 == a + (b + o.value.0);
    }
  }

  /** A chunk with its line as the sender wrote it: a numeral in base 16 for the size of the data,
      in either case, extensions and a line end. */
  datatype Chunk = Chunk(line: seq<Byte>, data: seq<Byte>)

  ghost predicate IsChunk(c: Chunk) {
    IsLine(c.line, |c.data|)
  }

  /** For any data: the numeral of its length, in either case, and a line end. */
  lemma NumeralChunk(data: seq<Byte>, capitals: bool, end: seq<Byte>)
    requires IsLineEnd(end)
    ensures IsChunk(Chunk(Numeral(|data|, capitals) + end, data))
  {
    NumeralLine(|data|, capitals, end, []);
    hide IsLine;
  }

  function ChunkText(c: Chunk): seq<Byte> {
    c.line + c.data + CRLF
  }

  /** Non-empty chunks, and the line of the last one, which is empty. */
  ghost predicate IsText(chunks: seq<Chunk>, last: seq<Byte>) {
    IsChunk(Chunk(last, [])) && forall i :: 0 <= i < |chunks| ==> IsChunk(chunks[i]) && chunks[i].data != []
  }

  function Text(chunks: seq<Chunk>, last: seq<Byte>): seq<Byte> {
    if chunks == [] then ChunkText(Chunk(last, [])) else ChunkText(chunks[0]) + Text(chunks[1..], last)
  }

  function Joined(chunks: seq<Chunk>): seq<Byte> {
    if chunks == [] then [] else chunks[0].data + Joined(chunks[1..])
  }

  lemma ChunkParts(c: Chunk, t: seq<Byte>)
    ensures var s, used, size := ChunkText(c) + t, |c.line|, |c.data|;
            used + size + 2 <= |s| && DataOf(s, used, size) == c.data && After(s, used, size) == t
    ensures ChunkText(c) + t == c.line + (c.data + CRLF + t)
  {
    var s := ChunkText(c) + t;
    assert s == c.line + (c.data + CRLF + t);
    assert c.data + CRLF + t == c.data + (CRLF + t);
  }

  lemma BodyOn(c: Chunk, t: seq<Byte>)
    requires IsChunk(c)
    ensures Body(ChunkText(c) + t) == if c.data == [] then Some(([], t)) else Prepended(c.data, Body(t))
  {
    ChunkParts(c, t);
    LineExactly(c.line, |c.data|);
    ScanOn(c.line, c.data + CRLF + t);
    hide ScanLine;
    hide IsLine;
    hide ChunkText;
    hide DataOf;
    hide After;
    hide Prepended;
  }

  /** De-chunking undoes chunking. */
  lemma {:induction false} BodyOfText(chunks: seq<Chunk>, last: seq<Byte>, rest: seq<Byte>)
    requires IsText(chunks, last)
    ensures Body(Text(chunks, last) + rest) == Some((Joined(chunks), rest))
    decreases |chunks|
  {
    hide Body;
    hide ChunkText;
    hide IsChunk;
    if chunks == [] {
      BodyOn(Chunk(last, []), rest);
    } else {
      var t := Text(chunks[1..], last) + rest;
      assert Text(chunks, last) + rest == ChunkText(chunks[0]) + t;
      BodyOn(chunks[0], t);
      BodyOfText(chunks[1..], last, rest);
    }
  }

  // ---------------------------------------------------------------- how it arrives

  /** The bytes in the buffer, those still to come, and how the kernel will cut them. */
  datatype Net = Net(up: bool, data: seq<Byte>, wire: seq<Byte>, script: seq<int>)

  function Stream(n: Net): seq<Byte> {
    n.data + n.wire
  }

  /** What a read of at most limit bytes returns. */
  function Rt(n: Net, limit: nat): (rt: int)
    ensures rt <= limit && rt <= |n.wire|
  {
    if n.up then NextCall(n.script, Min(limit, |n.wire|)) else -1
  }

  function Pulled(n: Net, limit: nat): Net
    requires Rt(n, limit) > 0
  {
    var rt := Rt(n, limit);
    Net(n.up, n.data + n.wire[..rt], n.wire[rt..], Later(n.script))
  }

  lemma PulledStream(n: Net, limit: nat)
    requires Rt(n, limit) > 0
    ensures Stream(Pulled(n, limit)) == Stream(n) && |Pulled(n, limit).wire| < |n.wire|
  {}

  /** What comes of the loop around the parser. */
  datatype LineRun = LineGot(size: nat, net: Net) | LineClosed | LineBad

  function Dropped(n: Net, k: nat): Net
    requires k <= |n.data|
  {
    n.(data := n.data[k..])
  }

  /** Read, parse what is there, and forget it if the line is not complete. */
  function LineOf(n: Net, size: nat): (r: LineRun)
    ensures r.LineGot? ==> |Stream(r.net)| < |Stream(n)|
    decreases |n.wire|, |n.data|
  {
    if n.data == [] then
      if Rt(n, size) <= 0 then LineClosed else LineOf(Pulled(n, size), size)
    else
      match ScanLine(n.data)
      case Line(length, used) => LineGot(length, Dropped(n, used))
      case Partial => LineOf(Dropped(n, |n.data|), size)
      case Malformed => LineBad
  }

  /** left bytes straight from the wire, at most size at a time, behind those in body. */
  function DirectOf(n: Net, size: nat, left: nat, body: seq<Byte>): (r: Option<(seq<Byte>, Net)>)
    requires n.data == []
    ensures r.Some? ==> |r.value.0| == |body| + left && r.value.0 + Stream(r.value.1) == body + n.wire
    decreases left
  {
    if left == 0 then Some((body, n))
    else
      var limit := Min(left, size);
      if Rt(n, limit) <= 0 then None
      else
        var m := Pulled(n, limit);
        DirectOf(Dropped(m, |m.data|), size, left - |m.data|, body + m.data)
  }

  /** The data of one chunk and the two bytes behind it. */
  function TakeOf(n: Net, size: nat, length: nat): (r: Option<(seq<Byte>, Net)>)
    ensures r.Some? ==>
              length + 2 <= |Stream(n)| && r.value.0 == Stream(n)[..length]
              && Stream(r.value.1) == Stream(n)[length + 2..]
  {
    if length + 2 <= |n.data| then Some((n.data[..length], Dropped(n, length + 2)))
    else
      match DirectOf(Dropped(n, |n.data|), size, length + 2 - |n.data|, n.data)
      case None => None
      case Some((all, n')) => Some((all[..length], n'))
  }

  datatype Received = Done(body: seq<Byte>) | Closed | Bad

  /** The whole loop, which has collected body so far, and where it leaves the stream. */
  function ChunksOf(n: Net, size: nat, body: seq<Byte>): (Received, Net)
    decreases |Stream(n)|
  {
    match LineOf(n, size)
    case LineClosed => (Closed, n)
    case LineBad => (Bad, n)
    case LineGot(length, n') =>
      match TakeOf(n', size, length)
      case None => (Closed, n)
      case Some((data, n'')) =>
        if length == 0 then (Done(body + data), n'') else ChunksOf(n'', size, body + data)
  }

  // ---------------------------------------------------------------- when the right body arrives

  /** The connection is up and every read moves something as long as there is something. */
  predicate Willing(n: Net) {
    n.up && Steady(n.script, |n.wire|)
  }

  lemma WillingReads(n: Net, limit: nat)
    requires Willing(n) && limit > 0
    ensures Rt(n, limit) > 0 <==> n.wire != []
    ensures Rt(n, limit) > 0 ==> Willing(Pulled(n, limit))
  {}

  lemma WillingOn(n: Net)
    requires Willing(n)
    ensures Willing(Dropped(n, |n.data|))
  {}

  lemma {:induction false} DirectArrives(n: Net, size: nat, left: nat, body: seq<Byte>)
    requires Willing(n) && size > 0 && n.data == []
    ensures var r := DirectOf(n, size, left, body); (r.Some? <==> left <= |n.wire|) && (r.Some? ==> Willing(r.value.1))
    decreases left
  {
    if left > 0 {
      var limit := Min(left, size);
      WillingReads(n, limit);
      if Rt(n, limit) > 0 {
        var m := Pulled(n, limit);
        assert Willing(m);
        hide Willing;
        hide Rt;
        WillingOn(m);
        DirectArrives(Dropped(m, |m.data|), size, left - |m.data|, body + m.data);
      }
    }
  }

  lemma TakeArrives(n: Net, size: nat, length: nat)
    requires Willing(n) && size > 0
    ensures TakeOf(n, size, length).Some? <==> length + 2 <= |Stream(n)|
    ensures TakeOf(n, size, length).Some? ==> Willing(TakeOf(n, size, length).value.1)
  {
    if |n.data| < length + 2 {
      DirectArrives(Dropped(n, |n.data|), size, length + 2 - |n.data|, n.data);
    }
  }

  /** No call of the parser forgot anything that matters. */
  predicate LineSafe(n: Net, size: nat)
    decreases |n.wire|, |n.data|
  {
    if n.data == [] then
      Rt(n, size) > 0 ==> LineSafe(Pulled(n, size), size)
    else
      ScanLine(n.data).Partial? ==> Harmless(Call(n.data, n.wire)) && LineSafe(Dropped(n, |n.data|), size)
  }

  predicate Safe(n: Net, size: nat)
    decreases |Stream(n)|
  {
    LineSafe(n, size) &&
    match LineOf(n, size)
    case LineGot(length, n') => length > 0 && TakeOf(n', size, length).Some? ==>
        Safe(TakeOf(n', size, length).value.1, size)
    case _ => true
  }

  /** The line is the one the stream s begins with. */
  predicate Reads(r: LineRun, s: seq<Byte>, willing: bool) {
    match r
    case LineGot(length, n) =>
      |Stream(n)| <= |s| && ScanLine(s) == Line(length, |s| - |Stream(n)|) && Stream(n) == s[|s| - |Stream(n)|..]
      && (willing ==> Willing(n))
    case LineBad => ScanLine(s).Malformed?
    case LineClosed => willing ==> ScanLine(s).Partial?
  }

  lemma ReadsBehind(d: seq<Byte>, t: seq<Byte>, r: LineRun, willing: bool)
    requires Reads(r, t, willing) && ScanLine(d + t) == Behind(ScanLine(t), |d|)
    ensures Reads(r, d + t, willing)
  {
    hide ScanLine;
    hide Willing;
    if r.LineGot? {
      assert (d + t)[|d + t| - |Stream(r.net)|..] == t[|t| - |Stream(r.net)|..];
    }
  }

  lemma {:induction false} LineRight(n: Net, size: nat)
    requires LineSafe(n, size) && size > 0
    ensures Reads(LineOf(n, size), Stream(n), Willing(n))
    decreases |n.wire|, |n.data|
  {
    hide ScanLine;
    if n.data == [] {
      LineRightRead(n, size);
    } else if ScanLine(n.data).Partial? {
      var m := Dropped(n, |n.data|);
      assert Stream(m) == n.wire && Stream(n) == n.data + n.wire;
      if Willing(n) {
        WillingOn(n);
      }
      hide Willing;
      hide Reads;
      LineRight(m, size);
      ZerosDoNotMatter(n.data, n.wire);
      ReadsBehind(n.data, n.wire, LineOf(m, size), Willing(n));
    } else {
      ScanOn(n.data, n.wire);
      if ScanLine(n.data).Line? {
        var used := ScanLine(n.data).used;
        assert Stream(Dropped(n, used)) == Stream(n)[used..];
      }
    }
  }

  lemma NothingScanned()
    ensures ScanLine([]).Partial?
  {}

  lemma LineRightRead(n: Net, size: nat)
    requires LineSafe(n, size) && size > 0 && n.data == []
    ensures Reads(LineOf(n, size), Stream(n), Willing(n))
    decreases |n.wire|, |n.data|, 0
  {
    hide ScanLine;
    if Willing(n) {
      WillingReads(n, size);
    }
    if Rt(n, size) > 0 {
      PulledStream(n, size);
      assert Willing(n) <==> Willing(n) && Willing(Pulled(n, size));
      LineRight(Pulled(n, size), size);
    } else {
      NothingScanned();
    }
  }

  lemma ChunkTaken(body: seq<Byte>, t: seq<Byte>, used: nat, n: nat, data: seq<Byte>, t'': seq<Byte>)
    requires ScanLine(t) == Line(n, used) && n + 2 <= |t[used..]| && data == t[used..][..n] && t'' == t[used..][n + 2..]
    ensures Prepended(body, Body(t)) == if n == 0 then Some((body + data, t'')) else Prepended(body + data, Body(t''))
  {
    hide ScanLine;
    assert data == DataOf(t, used, n) && t'' == After(t, used, n);
    hide DataOf;
    hide After;
    if n > 0 {
      PrependedTwice(body, data, Body(t''));
    }
  }

  /** What is left of a line after a piece of it has been forgotten. */
  lemma PieceForgotten(d: seq<Byte>, end: seq<Byte>, t: seq<Byte>, n: Net)
    returns (d': seq<Byte>, end': seq<Byte>)
    requires AllHex(d) && IsLineEnd(end) && n.data != [] && Stream(n) == d + end + t && ScanLine(n.data).Partial?
    ensures d != [] && AllHex(d') && IsLineEnd(end') && n.wire == d' + end' + t
    ensures HexNumber(d') <= HexNumber(d)
    ensures Harmless(Call(n.data, n.wire)) <==> d' != [] && HexNumber(d') == HexNumber(d)
  {
    var k := |n.data|;
    PieceOfLine(d, end, t, n.data, n.wire);
    CutParts(d, end, k);
    hide ScanLine;
    hide HexNumber;
    if k < |d| {
      DigitFollows(d, end, k, t);
      HexParts(d[..k], d[k..]);
      LostLess(d[..k], d[k..]);
      hide AllHex;
      return d[k..], end;
    }
    NoDigitFollows(d, end, k, t);
    NoDigits();
    hide AllHex;
    assert [] + end[k - |d|..] == end[k - |d|..];
    return [], end[k - |d|..];
  }

  /** A line of digits and a line end that arrives in any number of pieces: its size comes out right
      exactly if nothing that matters was forgotten. */
  lemma {:induction false} PiecesExactly(n: Net, size: nat, d: seq<Byte>, end: seq<Byte>, t: seq<Byte>)
    requires Stream(n) == d + end + t && AllHex(d) && IsLineEnd(end) && size > 0
    ensures LineOf(n, size).LineGot? ==> d != [] && LineOf(n, size).size <= HexNumber(d)
    ensures Willing(n) && d != [] ==>
              (LineOf(n, size).LineGot? && LineOf(n, size).size == HexNumber(d) <==> LineSafe(n, size))
    decreases |n.wire|, |n.data|
  {
    hide ScanLine;
    hide HexNumber;
    hide AllHex;
    if n.data == [] {
      if Willing(n) {
        WillingReads(n, size);
      }
      if Rt(n, size) > 0 {
        PulledStream(n, size);
        PiecesExactly(Pulled(n, size), size, d, end, t);
      }
    } else if ScanLine(n.data).Partial? {
      var d', end' := PieceForgotten(d, end, t, n);
      var m := Dropped(n, |n.data|);
      assert Stream(m) == n.wire;
      if Willing(n) {
        WillingOn(n);
      }
      hide Willing;
      PiecesExactly(m, size, d', end', t);
    } else {
      WholeLine(d, end, t, n.data, n.wire);
    }
  }

  /** As long as nothing that matters is forgotten, the body is the one the stream stands for and
      exactly its bytes are used, however the kernel cuts the stream; and if every read moves
      something, it arrives exactly if it is there. */
  lemma {:induction false} ChunksRight(n: Net, size: nat, body: seq<Byte>)
    requires Safe(n, size) && size > 0
    ensures match ChunksOf(n, size, body)
            case (Done(all), n') => Prepended(body, Body(Stream(n))) == Some((all, Stream(n')))
            case (Bad, _) => Body(Stream(n)) == None
            case (Closed, _) => Willing(n) ==> Body(Stream(n)) == None
    decreases |Stream(n)|
  {
    hide ScanLine;
    hide LineSafe;
    hide LineOf;
    hide Willing;
    hide TakeOf;
    LineRight(n, size);
    match LineOf(n, size)
    case LineGot(length, n') =>
      if Willing(n) {
        TakeArrives(n', size, length);
      }
      if TakeOf(n', size, length).Some? {
        var (data, n'') := TakeOf(n', size, length).value;
        ChunkTaken(body, Stream(n), |Stream(n)| - |Stream(n')|, length, data, Stream(n''));
        if length > 0 {
          ChunksRight(n'', size, body + data);
        }
      }
    case _ =>
  }

  /** For every list of non-empty chunks: if the connection stays up, every read moves something
      and nothing that matters is forgotten, the body is their concatenation, and what follows
      them is untouched. */
  lemma ChunksArrive(chunks: seq<Chunk>, last: seq<Byte>, rest: seq<Byte>, n: Net, size: nat)
    requires IsText(chunks, last) && Stream(n) == Text(chunks, last) + rest
    requires Willing(n) && Safe(n, size) && size > 0
    ensures ChunksOf(n, size, []).0 == Done(Joined(chunks)) && Stream(ChunksOf(n, size, []).1) == rest
  {
    hide *;
    BodyOfText(chunks, last, rest);
    ChunksRight(n, size, []);
    PrependedNone(Body(Stream(n)));
  }

  /** A body of that length is there and the kernel will deliver it. */
  predicate Delivers(n: Net, length: nat) {
    length <= |n.data| || (n.up && Moves(n.script, length - |n.data|, |n.wire|) == length - |n.data|)
  }

  /** If every read moves something, that is so exactly if it is there. */
  lemma LengthArrives(n: Net, length: nat)
    requires Willing(n)
    ensures Delivers(n, length) <==> length <= |Stream(n)|
  {
    SteadyMoves(n.script, |n.wire|);
  }

  // ---------------------------------------------------------------- the loops

  /** The connection and the len bytes of the buffer. */
  ghost function Now(conn: SocketStream, buffer: array<Byte>, len: nat): Net
    requires len <= buffer.Length
    reads conn, buffer
  {
    Net(conn.connected, buffer[..len], conn.incoming, conn.script)
  }

  /** memmove to the front. */
  method Shift(buffer: array<Byte>, n: nat, len: nat)
    requires n <= len <= buffer.Length
    modifies buffer
    ensures buffer[..len - n] == old(buffer[n..len])
  {
    var i := 0;
    while i < len - n
      invariant i <= len - n
      invariant buffer[..i] == old(buffer[n..n + i]) && buffer[n + i..len] == old(buffer[n + i..len])
    {
      assert buffer[n + i] == buffer[n + i..len][0];
      buffer[i] := buffer[n + i];
      i := i + 1;
    }
  }

  /** One read behind the len bytes of the buffer moves bytes from the wire into it. */
  method More(conn: SocketStream, buffer: array<Byte>, len: nat, limit: nat) returns (rt: int)
    requires len + limit <= buffer.Length
    modifies conn`script, conn`incoming, buffer
    ensures rt == Rt(old(Now(conn, buffer, len)), limit) && rt <= limit
    ensures rt > 0 ==> Now(conn, buffer, len + rt) == Pulled(old(Now(conn, buffer, len)), limit)
  {
    ghost var data;
    rt, data := conn.ReadBytes(buffer, len, limit);
    assert buffer[..len + |data|] == old(buffer[..len]) + data;
    assert rt > 0 ==> data == old(conn.incoming)[..rt];
  }

  /** The response parser in its chunk mode, which starts over on every call. */
  class ChunkParser {
    var contentLen: nat
    var finished: bool
    var error: bool

    constructor ()
      ensures !finished && !error
    {
      contentLen, finished, error := 0, false, false;
    }

    /** One call: what it consumed is moved out of the buffer, the beginning of a line included. */
    method Execute(buffer: array<Byte>, len: nat) returns (nparse: nat)
      requires len <= buffer.Length
      modifies this, buffer
      ensures nparse <= len && buffer[..len - nparse] == old(buffer[nparse..len])
      ensures error == ScanLine(old(buffer[..len])).Malformed? && finished == ScanLine(old(buffer[..len])).Line?
      ensures finished ==> ScanLine(old(buffer[..len])) == Line(contentLen, nparse)
      ensures !finished && !error ==> nparse == len
    {
      var scan := ScanLine(buffer[..len]);
      hide ScanLine;
      finished, error := scan.Line?, scan.Malformed?;
      nparse := len;
      if scan.Line? {
        nparse, contentLen := scan.used, scan.size;
        Shift(buffer, nparse, len);
      }
    }
  }

  /** One call of the parser on what is there. */
  method Parse(parser: ChunkParser, conn: SocketStream, buffer: array<Byte>, len: nat) returns (nparse: nat)
    requires len <= buffer.Length
    modifies parser, buffer
    ensures nparse <= len && |old(Now(conn, buffer, len)).data| == len
    ensures Now(conn, buffer, len - nparse) == Dropped(old(Now(conn, buffer, len)), nparse)
    ensures var scan := ScanLine(old(Now(conn, buffer, len)).data);
            && parser.error == scan.Malformed? && parser.finished == scan.Line?
            && (parser.finished ==> scan == Line(parser.contentLen, nparse))
    ensures !parser.finished && !parser.error ==> nparse == len
  {
    hide ScanLine;
    ghost var data := buffer[..len];
    nparse := parser.Execute(buffer, len);
    assert data[nparse..] == old(buffer[nparse..len]);
  }

  lemma LineRead(n: Net, size: nat)
    requires n.data == []
    ensures LineOf(n, size) == if Rt(n, size) <= 0 then LineClosed else LineOf(Pulled(n, size), size)
  {
    hide ScanLine;
    hide Rt;
  }

  lemma LineParse(n: Net, size: nat)
    requires n.data != []
    ensures LineOf(n, size) ==
            match ScanLine(n.data)
            case Line(length, used) => LineGot(length, Dropped(n, used))
            case Partial => LineOf(Dropped(n, |n.data|), size)
            case Malformed => LineBad
  {
    hide ScanLine;
    hide Rt;
  }

  lemma NowHas(conn: SocketStream, buffer: array<Byte>, len: nat)
    requires len <= buffer.Length
    ensures |Now(conn, buffer, len).data| == len && Now(conn, buffer, len).wire == conn.incoming
  {}

  lemma PulledHas(n: Net, limit: nat)
    requires Rt(n, limit) > 0
    ensures |Pulled(n, limit).wire| < |n.wire|
  {}

  /** Until the parser has a line. */
  method ReadLine(parser: ChunkParser, conn: SocketStream, buffer: array<Byte>, len0: nat, size: nat)
    returns (ok: bool, len: nat)
    requires len0 <= size < buffer.Length && size > 0 && !parser.error
    modifies parser, conn`script, conn`incoming, buffer
    ensures len <= size
    ensures match LineOf(old(Now(conn, buffer, len0)), size)
            case LineGot(length, n) => ok && !parser.error && parser.contentLen == length && Now(conn, buffer, len) == n
            case LineClosed => !ok && !parser.error
            case LineBad => !ok && parser.error
  {
    hide *;
    len, ok := len0, true;
    var begin := true;
    while true
      invariant len <= size && (!begin ==> len == 0) && !parser.error
      invariant LineOf(old(Now(conn, buffer, len0)), size) == LineOf(Now(conn, buffer, len), size)
      decreases |conn.incoming|, len
    {
      ghost var n := Now(conn, buffer, len);
      NowHas(conn, buffer, len);
      if !begin || len == 0 {
        LineRead(n, size);
        var rt := More(conn, buffer, len, size - len);
        if rt <= 0 {
          return false, len;
        }
        PulledHas(n, size);
        len := len + rt;
        NowHas(conn, buffer, len);
      }
      LineParse(Now(conn, buffer, len), size);
      var nparse := Parse(parser, conn, buffer, len);
      if parser.error {
        return false, 0;
      }
      len := len - nparse;
      if parser.finished {
        return true, len;
      }
      begin := false;
    }
  }

  /** One read of the loop, or its end. */
  lemma DirectNext(n: Net, size: nat, left: nat, body: seq<Byte>)
    requires n.data == []
    ensures left == 0 ==> DirectOf(n, size, left, body) == Some((body, n))
    ensures left > 0 ==>
              var limit := Min(left, size);
              if Rt(n, limit) <= 0 then DirectOf(n, size, left, body) == None
              else var m := Pulled(n, limit);
                   && |m.data| == Rt(n, limit)
                   && DirectOf(n, size, left, body)
                       == DirectOf(Dropped(m, |m.data|), size, left - |m.data|, body + m.data)
  {}

  lemma MinIs(a: nat, b: nat)
    ensures Min(a, b) == if a > b then b else a
  {}

  lemma NothingNow(conn: SocketStream, buffer: array<Byte>)
    ensures Now(conn, buffer, 0).data == []
  {}

  /** One read past the buffer: what it brought. */
  method Pull(conn: SocketStream, buffer: array<Byte>, limit: nat) returns (rt: int, piece: seq<Byte>)
    requires limit <= buffer.Length
    modifies conn`script, conn`incoming, buffer
    ensures rt == Rt(old(Now(conn, buffer, 0)), limit) && rt <= limit
    ensures rt > 0 ==>
              var m := Pulled(old(Now(conn, buffer, 0)), limit);
              piece == m.data && |piece| == rt && Now(conn, buffer, 0) == Dropped(m, |m.data|)
  {
    rt := More(conn, buffer, 0, limit);
    piece := if rt > 0 then buffer[..rt] else [];
  }

  /** One turn of the loop; None if the read failed. */
  method PullSome(conn: SocketStream, buffer: array<Byte>, size: nat, left: nat, ghost body: seq<Byte>)
    returns (piece: Option<seq<Byte>>)
    requires 0 < left && 0 < size <= buffer.Length
    modifies conn`script, conn`incoming, buffer
    ensures Now(conn, buffer, 0).data == [] && old(Now(conn, buffer, 0)).data == []
    ensures piece.None? ==> DirectOf(old(Now(conn, buffer, 0)), size, left, body) == None
    ensures piece.Some? ==>
              && 0 < |piece.value| <= left
              && DirectOf(old(Now(conn, buffer, 0)), size, left, body)
                 == DirectOf(Now(conn, buffer, 0), size, left - |piece.value|, body + piece.value)
  {
    hide *;
    NothingNow(conn, buffer);
    var limit := if left > size then size else left;
    DirectNext(Now(conn, buffer, 0), size, left, body);
    MinIs(left, size);
    var rt, bytes := Pull(conn, buffer, limit);
    NothingNow(conn, buffer);
    piece := if rt <= 0 then None else Some(bytes);
  }

  /** The len bytes of the buffer and left0 bytes more. */
  method Direct(conn: SocketStream, buffer: array<Byte>, len: nat, size: nat, left0: nat)
    returns (got: Option<seq<Byte>>)
    requires len <= size < buffer.Length && size > 0
    modifies conn`script, conn`incoming, buffer
    ensures match DirectOf(old(Now(conn, buffer, 0)), size, left0, old(buffer[..len]))
            case None => got == None
            case Some((all, n)) => got == Some(all) && Now(conn, buffer, 0) == n
  {
    hide *;
    var body := buffer[..len];
    var left: nat := left0;
    NothingNow(conn, buffer);
    while left > 0
      invariant Now(conn, buffer, 0).data == []
      invariant DirectOf(old(Now(conn, buffer, 0)), size, left0, old(buffer[..len]))
          == DirectOf(Now(conn, buffer, 0), size, left, body)
    {
      var piece := PullSome(conn, buffer, size, left, body);
      if piece.None? {
        return None;
      }
      body := body + piece.value;
      left := left - |piece.value|;
    }
    DirectNext(Now(conn, buffer, 0), size, 0, body);
    return Some(body);
  }

  /** The data of one chunk and the two bytes behind it, from the buffer if they are there, and
      otherwise straight from the wire and no further. */
  method TakeData(conn: SocketStream, buffer: array<Byte>, len0: nat, size: nat, n: nat)
    returns (data: Option<seq<Byte>>, len: nat)
    requires len0 <= size < buffer.Length && size > 0
    modifies conn`script, conn`incoming, buffer
    ensures len <= size
    ensures match TakeOf(old(Now(conn, buffer, len0)), size, n)
            case None => data == None
            case Some((bytes, n')) => data == Some(bytes) && Now(conn, buffer, len) == n'
  {
    assert Dropped(old(Now(conn, buffer, len0)), len0) == old(Now(conn, buffer, 0));
    if n + 2 <= len0 {
      data := Some(buffer[..n]);
      assert buffer[..n] == buffer[..len0][..n];
      Shift(buffer, n + 2, len0);
      len := len0 - n - 2;
      assert buffer[..len] == old(buffer[..len0])[n + 2..];
    } else {
      var got := Direct(conn, buffer, len0, size, n + 2 - len0);
      len := 0;
      data := if got.None? then None else Some(got.value[..|got.value| - 2]);
      assert got.Some? ==> |got.value| - 2 == n;
    }
  }

  /** The same result, and the same stream left if it is a body. */
  ghost predicate Same(a: (Received, Net), b: (Received, Net)) {
    a.0 == b.0 && (a.0.Done? ==> a.1 == b.1)
  }

  /** The chunk loop of recvResponse. */
  method ReceiveChunks(parser: ChunkParser, conn: SocketStream, buffer: array<Byte>, offset: nat, size: nat)
    returns (r: Received, len: nat)
    requires offset <= size < buffer.Length && size > 0 && !parser.error
    modifies parser, conn`script, conn`incoming, buffer
    ensures len <= size
    ensures var (r', n) := ChunksOf(old(Now(conn, buffer, offset)), size, []);
            r == r'
            && (r.Done? ==> Now(conn, buffer, len) == n)
  {
    var body: seq<Byte> := [];
    len := offset;
    hide LineOf;
    hide TakeOf;
    while true
      invariant len <= size && !parser.error
      invariant Same(ChunksOf(old(Now(conn, buffer, offset)), size, []), ChunksOf(Now(conn, buffer, len), size, body))
      decreases |Stream(Now(conn, buffer, len))|
    {
      var ok, data;
      ok, len := ReadLine(parser, conn, buffer, len, size);
      if !ok {
        return if parser.error then Bad else Closed, len;
      }
      var n := parser.contentLen;
      data, len := TakeData(conn, buffer, len, size, n);
      if data == None {
        return Closed, len;
      }
      body := body + data.value;
      if n == 0 {
        return Done(body), len;
      }
    }
  }

  /** The other branch: a body of the length announced. */
  method ReceiveLength(conn: SocketStream, buffer: array<Byte>, offset: nat, length: nat) returns (r: Received)
    requires offset < buffer.Length
    modifies conn`script, conn`incoming
    ensures r.Done? || r.Closed?
    ensures r.Done? <==> old(Delivers(Now(conn, buffer, offset), length))
    ensures r.Done? ==>
              length <= |old(Stream(Now(conn, buffer, offset)))|
              && r.body == old(Stream(Now(conn, buffer, offset)))[..length]
    ensures r.Done? ==> conn.incoming == old(conn.incoming)[if length <= offset then 0 else length - offset..]
  {
    if length == 0 {
      return Done([]);
    }
    var body := new Byte[length];
    var len := if length >= offset then offset else length;
    MemCpy(body, 0, buffer[..len]);
    var left := length - offset;
    if left > 0 {
      var rt;
      ghost var data;
      rt, data := conn.ReadFixSizeBytes(body, len, left);
      if rt <= 0 {
        return Closed;
      }
    }
    return Done(body[..]);
  }
}
