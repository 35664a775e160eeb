/** The byte buffers of src/net/stream_buffer.{h,cc}.

A buffer is a std::stringstream open for reading and writing, that is, a content and a put
position. `write` overwrites from the put position and then extends; `str(x)` replaces the
content and puts the position back at 0. It is not a queue: bytes written while the position
is short of the end replace bytes that were still waiting. */
module Streams {
  newtype Byte = x: int | 0 <= x < 256
  type Bytes = seq<Byte>

  datatype RawStream = Stream(content: Bytes, pos: nat)
  type Stream = s: RawStream | s.pos <= |s.content| witness Stream([], 0)

  const EMPTY: Stream := Stream([], 0)

  function Min(a: nat, b: nat): nat { if a < b then a else b }

  /** The put position stands at the end: the next write only appends. */
  predicate Clean(s: Stream) { s.pos == |s.content| }

  /** How many waiting bytes a write of `data` replaces. */
  function Overwritten(s: Stream, data: Bytes): nat {
    Min(|data|, |s.content| - s.pos)
  }

  function Write(s: Stream, data: Bytes): (r: Stream)
    ensures |r.content| + Overwritten(s, data) == |s.content| + |data|
    ensures r.pos == s.pos + |data|
    ensures forall i :: 0 <= i < |r.content| ==>
              r.content[i] == if s.pos <= i < r.pos then data[i - s.pos] else s.content[i]
  {
    var end := s.pos + |data|;
    Stream(s.content[..s.pos] + data + (if end < |s.content| then s.content[end..] else []), end)
  }

  /** The waiting bytes that a write of `data` replaces. */
  function Replaced(s: Stream, data: Bytes): Bytes {
    s.content[s.pos..s.pos + Overwritten(s, data)]
  }

  /** A write keeps every byte somewhere: in the stream or among those it replaced. */
  lemma WriteKeepsBytes(s: Stream, data: Bytes)
    ensures multiset(Write(s, data).content) + multiset(Replaced(s, data)) == multiset(s.content) + multiset(data)
  {
    var k := Overwritten(s, data);
    var head, tail := s.content[..s.pos], s.content[s.pos + k..];
    assert s.content == head + Replaced(s, data) + tail;
    assert Write(s, data).content == head + data + tail;
  }

  function Ignore(s: Stream, bytes: int): (r: Stream)
    ensures 0 <= bytes <= |s.content| ==> s.content == s.content[..bytes] + r.content && r.pos == 0
  {
    if 0 <= bytes <= |s.content| then Stream(s.content[bytes..], 0) else s
  }

  /** A write appends exactly when the stream is clean or there is nothing to write. */
  lemma WriteAppendsIffClean(s: Stream, data: Bytes)
    ensures Write(s, data).content == s.content + data <==> Clean(s) || data == []
    ensures Overwritten(s, data) == 0 <==> Clean(s) || data == []
    ensures Clean(s) ==> Clean(Write(s, data))
  {
    if Clean(s) || data == [] {
      assert s.content[..s.pos] + s.content[s.pos..] == s.content;
      assert Write(s, data).content == s.content + data;
    } else {
      assert |Write(s, data).content| < |s.content + data|;
    }
  }

  // ---- reading from a socket -------------------------------------------------------------

  /** The size of the local array that recv fills. */
  const CHUNK := 65536
  const EWOULDBLOCK := 11

  type Chunk = c: Bytes | 0 < |c| <= CHUNK witness [0]

  /** What one ::recv call returns. */
  datatype RecvResult = Data(chunk: Chunk) | Eof | RecvFailed(errno: int)

  /** A list of results is what the kernel answers, in order; after the list it would block. */
  function ResultAt(results: seq<RecvResult>, i: nat): RecvResult {
    if i < |results| then results[i] else RecvFailed(EWOULDBLOCK)
  }

  predicate Full(r: RecvResult) { r.Data? && |r.chunk| == CHUNK }

  /** The number of full chunks before the first result that ends the loop. */
  function FullChunks(results: seq<RecvResult>): (n: nat)
    ensures n <= |results|
    ensures forall i :: 0 <= i < n ==> Full(results[i])
    ensures !Full(ResultAt(results, n))
  {
    if results == [] || !Full(results[0]) then 0
    else
      assert forall i {:trigger ResultAt(results, i + 1)} :: 0 <= i ==> ResultAt(results, i + 1) == ResultAt(results[1..], i);
      1 + FullChunks(results[1..])
  }

  function Flatten(results: seq<RecvResult>): Bytes {
    if results == [] then []
    else Flatten(results[..|results| - 1]) + (if results[|results| - 1].Data? then results[|results| - 1].chunk else [])
  }

  /** The bytes one read call writes to the stream. */
  function Received(results: seq<RecvResult>): Bytes {
    var n := FullChunks(results);
    Flatten(results[..n]) + (if ResultAt(results, n).Data? then ResultAt(results, n).chunk else [])
  }

  /** The call fails exactly when the result that ends the loop is an error, even after full chunks. */
  predicate ReadFails(results: seq<RecvResult>) { ResultAt(results, FullChunks(results)).RecvFailed? }

  function ReadReturn(results: seq<RecvResult>): int {
    if ReadFails(results) then -1 else |Received(results)|
  }

  lemma {:induction false} FlattenFull(results: seq<RecvResult>)
    requires forall i :: 0 <= i < |results| ==> Full(results[i])
    ensures |Flatten(results)| == CHUNK * |results|
  {
    if results == [] {
    } else {
      FlattenFull(results[..|results| - 1]);
    }
  }

  /** The `i`-th full chunk. */
  function ChunkOf(bytes: Bytes, i: nat): Bytes
    requires (i + 1) * CHUNK <= |bytes|
  {
    bytes[i * CHUNK..(i + 1) * CHUNK]
  }

  /** The bytes are the full chunks one after another and then `last`. */
  predicate Chunked(bytes: Bytes, results: seq<RecvResult>, n: nat, last: Bytes)
    requires n <= |results|
  {
    && |bytes| == n * CHUNK + |last| && bytes[n * CHUNK..] == last
    && forall i {:trigger results[i]} :: 0 <= i < n ==>
         Full(results[i]) && (i + 1) * CHUNK <= |bytes| && ChunkOf(bytes, i) == results[i].chunk
  }

  /** The bytes that one read leaves in a buffer that was empty. */
  predicate OneRead(bytes: Bytes, results: seq<RecvResult>) {
    var n := FullChunks(results);
    Chunked(bytes, results, n, if ResultAt(results, n).Data? then ResultAt(results, n).chunk else [])
  }

  lemma {:induction false} FlattenChunked(results: seq<RecvResult>)
    requires forall i :: 0 <= i < |results| ==> Full(results[i])
    ensures Chunked(Flatten(results), results, |results|, [])
  {
    if results == [] {
    } else {
      var n := |results| - 1;
      var front := Flatten(results[..n]);
      FlattenChunked(results[..n]);
      assert Flatten(results) == front + results[n].chunk;
      forall i {:trigger results[i]} | 0 <= i < n + 1
        ensures (i + 1) * CHUNK <= |Flatten(results)| && ChunkOf(Flatten(results), i) == results[i].chunk
      {
        if i < n {
          assert results[..n][i] == results[i];
          assert ChunkOf(front, i) == ChunkOf(Flatten(results), i);
        }
      }
    }
  }

  lemma ChunkedPrefix(front: Bytes, results: seq<RecvResult>, n: nat)
    requires n <= |results| && Chunked(front, results[..n], n, [])
    ensures Chunked(front, results, n, [])
  {
    assert forall i {:trigger results[i]} :: 0 <= i < n ==> results[..n][i] == results[i];
  }

  lemma ChunkedMore(front: Bytes, results: seq<RecvResult>, n: nat, last: Bytes)
    requires n <= |results| && Chunked(front, results, n, [])
    ensures Chunked(front + last, results, n, last)
  {
    forall i {:trigger results[i]} | 0 <= i < n
      ensures Full(results[i]) && (i + 1) * CHUNK <= |front + last| && ChunkOf(front + last, i) == results[i].chunk
    {
      assert ChunkOf(front, i) == ChunkOf(front + last, i);
    }
  }

  /** What one read writes: the full chunks in the order recv gave them, and then the short chunk, or
  nothing when the loop ends otherwise. */
  lemma ReceivedChunked(results: seq<RecvResult>)
    ensures OneRead(Received(results), results)
  {
    var n := FullChunks(results);
    FlattenChunked(results[..n]);
    ChunkedPrefix(Flatten(results[..n]), results, n);
    ChunkedMore(Flatten(results[..n]), results, n, if ResultAt(results, n).Data? then ResultAt(results, n).chunk else []);
  }

  lemma ReadFromEmpty(results: seq<RecvResult>)
    ensures OneRead(Write(EMPTY, Received(results)).content, results)
  {
    ReceivedChunked(results);
    assert Write(EMPTY, Received(results)).content == Received(results);
  }

  /** What the return value of read means to do_handle_read, which closes on anything that is not
  positive: the connection survives a read exactly when the loop ends on data or on the peer's
  close after at least one full chunk. */
  lemma ReadSucceedsIff(results: seq<RecvResult>)
    ensures var n := FullChunks(results); var last := ResultAt(results, n);
      && (ReadReturn(results) > 0 <==> last.Data? || (last.Eof? && n > 0))
      && (ReadReturn(results) == 0 <==> last.Eof? && n == 0)
      && |Received(results)| == CHUNK * n + (if last.Data? then |last.chunk| else 0)
      && (ReadReturn(results) >= 0 ==> ReadReturn(results) == |Received(results)|)
  {
    FlattenFull(results[..FullChunks(results)]);
  }

  /** Bytes already received are lost with the connection when an error follows full chunks. */
  lemma FullChunkThenErrorFails(c: Chunk, errno: int)
    requires |c| == CHUNK
    ensures ReadReturn([Data(c), RecvFailed(errno)]) == -1
    ensures Received([Data(c), RecvFailed(errno)]) == c
  {
    var rs := [Data(c), RecvFailed(errno)];
    assert rs[1..] == [RecvFailed(errno)];
    assert FullChunks(rs) == 1;
    assert rs[..1] == [Data(c)] && [Data(c)][..0] == [];
    assert Flatten(rs[..1]) == Flatten([]) + c;
  }

  /** stream_buffer with the members of its two subclasses. */
  class StreamBuffer {
    var stream: Stream
    ghost const owner: nat   // the handler this buffer is a member of
    ghost const output: bool // buffer_out_ rather than buffer_in_

    constructor (ghost owner: nat, ghost output: bool)
      ensures stream == EMPTY && this.owner == owner && this.output == output
    {
      stream := EMPTY;
      this.owner, this.output := owner, output;
    }

    constructor Copy(other: StreamBuffer)
      ensures stream.content == other.stream.content && Clean(stream)
    {
      stream := Write(EMPTY, other.stream.content);
      owner, output := other.owner, other.output;
    }

    method ToString() returns (s: Bytes)
      ensures s == stream.content
    {
      s := stream.content;
    }

    method Clear()
      modifies this
      ensures stream == EMPTY
    {
      stream := EMPTY;
    }

    method IgnoreBytes(bytes: int)
      modifies this
      ensures stream == Ignore(old(stream), bytes)
    {
      var tmp := ToString();
      if 0 <= bytes <= |tmp| {
        stream := Stream(tmp[bytes..], 0);
      }
    }

    method Length() returns (n: nat)
      ensures n == |stream.content|
    {
      n := |stream.content|;
    }

    method Empty() returns (b: bool)
      ensures b == (stream.content == [])
    {
      b := |stream.content| == 0;
    }

    method Put(data: Bytes)
      modifies this
      ensures stream == Write(old(stream), data)
    {
      stream := Write(stream, data);
    }

    /** The do-while loop of read. */
    method Fill(results: seq<RecvResult>) returns (ret: int, errno: int)
      modifies this
      ensures stream == Write(old(stream), Received(results))
      ensures ret == ReadReturn(results)
      ensures ReadFails(results) ==> errno == ResultAt(results, FullChunks(results)).errno
    {
      var readBytes := 0;
      var i := 0;
      errno := 0;
      ghost var n := FullChunks(results);
      WriteNothing(stream);
      while true
        invariant 0 <= i <= n && |Flatten(results[..i])| == readBytes
        invariant stream == Write(old(stream), Flatten(results[..i]))
        decreases n - i
      {
        match ResultAt(results, i) {
          case RecvFailed(e) =>
            assert i == n;
            return -1, e;
          case Eof =>
            assert i == n;
            return readBytes, errno;
          case Data(chunk) =>
            WriteTwice(old(stream), Flatten(results[..i]), chunk);
            stream := Write(stream, chunk);
            readBytes := readBytes + |chunk|;
            if |chunk| < CHUNK {
              assert i == n;
              return readBytes, errno;
            }
            assert results[..i + 1][..i] == results[..i];
            i := i + 1;
        }
      }
    }

    method Read(results: seq<RecvResult>) returns (ret: int, errno: int)
      modifies this
      ensures stream == Write(old(stream), Received(results))
      ensures ret == ReadReturn(results)
      ensures old(stream) == EMPTY ==> OneRead(stream.content, results)
      ensures ret >= 0 ==> ret == |Received(results)|
      ensures ReadFails(results) ==> errno == ResultAt(results, FullChunks(results)).errno
    {
      ReadFromEmpty(results);
      ReadSucceedsIff(results);
      ret, errno := Fill(results);
    }
  }

  lemma WriteNothing(s: Stream)
    ensures Write(s, []) == s
  {
    assert s.content[..s.pos] + [] + s.content[s.pos..] == s.content;
  }

  lemma WriteTwice(s: Stream, a: Bytes, b: Bytes)
    ensures Write(Write(s, a), b) == Write(s, a + b)
  {
    assert Write(Write(s, a), b).content == Write(s, a + b).content;
  }
}
