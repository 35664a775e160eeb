/** One connection as src/net/connection_handler.cc moves it: its two buffers, with the history of
the bytes that went through them. */
module Connections {
  import opened Streams

  // ---- a buffer and its history -----------------------------------------------------------

  /** What happens to a buffer: bytes are put, and a length is taken off the front. */
  datatype Op = Put(data: Bytes) | Take(len: int)

  /** `put` is all that went in, `taken` all that was taken out, `lost` the bytes a put replaced
  before they were taken, `ops` how it came about. */
  datatype Pipe = Pipe(stream: Stream, put: Bytes, taken: Bytes, lost: Bytes, ops: seq<Op>)

  const DRY: Pipe := Pipe(EMPTY, [], [], [], [])

  function PutInto(p: Pipe, data: Bytes): Pipe {
    Pipe(Write(p.stream, data), p.put + data, p.taken, p.lost + Replaced(p.stream, data), p.ops + [Put(data)])
  }

  /** A length that is out of range takes nothing. */
  function TakeFrom(p: Pipe, len: int): Pipe {
    var taken := if 0 <= len <= |p.stream.content| then p.stream.content[..len] else [];
    Pipe(Ignore(p.stream, len), p.put, p.taken + taken, p.lost, p.ops + [Take(len)])
  }

  function Happened(p: Pipe, op: Op): Pipe {
    match op
    case Put(data) => PutInto(p, data)
    case Take(len) => TakeFrom(p, len)
  }

  function Replay(ops: seq<Op>): Pipe {
    if ops == [] then DRY else Happened(Replay(ops[..|ops| - 1]), ops[|ops| - 1])
  }

  /** First in, first out: what was taken and what waits are all that was put, in order. */
  predicate Fifo(p: Pipe) { p.taken + p.stream.content == p.put }

  /** Every byte put was taken, waits, or was replaced in place. */
  ghost predicate Ledger(p: Pipe) {
    && multiset(p.taken) + multiset(p.stream.content) + multiset(p.lost) == multiset(p.put)
    && (p.lost == [] ==> Fifo(p))
  }

  lemma FifoIffNothingLost(p: Pipe)
    requires Ledger(p)
    ensures Fifo(p) <==> p.lost == []
    ensures |p.taken| + |p.stream.content| + |p.lost| == |p.put|
  {
    assert |multiset(p.taken) + multiset(p.stream.content) + multiset(p.lost)| == |p.taken| + |p.stream.content| + |p.lost|;
    if Fifo(p) {
      assert |p.taken + p.stream.content| == |p.put|;
    }
  }

  lemma Regrouped(t: multiset<Byte>, c: multiset<Byte>, l: multiset<Byte>, p: multiset<Byte>, w: multiset<Byte>, r: multiset<Byte>, d: multiset<Byte>)
    requires t + c + l == p && w + r == c + d
    ensures t + w + (l + r) == p + d
  {
    assert t + w + (l + r) == (t + l) + (w + r);
    assert (t + l) + (c + d) == (t + c + l) + d;
  }

  lemma PutKeepsLedger(p: Pipe, data: Bytes)
    requires Ledger(p)
    ensures Ledger(PutInto(p, data))
    ensures PutInto(p, data).lost == [] <==> p.lost == [] && (Clean(p.stream) || data == [])
  {
    var q := PutInto(p, data);
    WriteKeepsBytes(p.stream, data);
    Regrouped(multiset(p.taken), multiset(p.stream.content), multiset(p.lost), multiset(p.put),
              multiset(q.stream.content), multiset(Replaced(p.stream, data)), multiset(data));
    WriteAppendsIffClean(p.stream, data);
    if q.lost == [] {
      assert p.taken + (p.stream.content + data) == (p.taken + p.stream.content) + data;
    }
  }

  lemma TakeKeepsLedger(p: Pipe, len: int)
    requires Ledger(p)
    ensures Ledger(TakeFrom(p, len)) && TakeFrom(p, len).lost == p.lost
    ensures TakeFrom(p, len).taken + TakeFrom(p, len).stream.content == p.taken + p.stream.content
  {
    if 0 <= len <= |p.stream.content| {
      Shifted(p.taken, p.stream.content, len);
    } else {
      assert p.taken + [] == p.taken;
    }
  }

  lemma Shifted(taken: Bytes, content: Bytes, len: nat)
    requires len <= |content|
    ensures (taken + content[..len]) + content[len..] == taken + content
    ensures multiset(taken + content[..len]) + multiset(content[len..]) == multiset(taken) + multiset(content)
  {
    assert (taken + content[..len]) + content[len..] == taken + content;
    assert multiset((taken + content[..len]) + content[len..]) == multiset(taken + content);
  }

  /** The caller's check: every put of something finds the put position at the end. */
  predicate CleanPuts(ops: seq<Op>) {
    forall i :: 0 <= i < |ops| && ops[i].Put? && ops[i].data != [] ==> Clean(Replay(ops[..i]).stream)
  }

  lemma Replayed(ops: seq<Op>, op: Op)
    ensures Replay(ops + [op]) == Happened(Replay(ops), op)
    ensures CleanPuts(ops + [op]) <==> CleanPuts(ops) && (op.Put? && op.data != [] ==> Clean(Replay(ops).stream))
  {
    var all := ops + [op];
    assert all[..|ops|] == ops && all[|ops|] == op;
    assert forall i :: 0 <= i < |ops| ==> all[i] == ops[i] && all[..i] == ops[..i];
  }

  /** On every history of a buffer the ledger balances, and the buffer is first-in first-out exactly
  when every put met a clean one. */
  lemma {:induction false} FifoIffCleanPuts(ops: seq<Op>)
    ensures Replay(ops).ops == ops && Ledger(Replay(ops))
    ensures Fifo(Replay(ops)) <==> CleanPuts(ops)
  {
    if ops == [] {
    } else {
      var front, last := ops[..|ops| - 1], ops[|ops| - 1];
      assert front + [last] == ops;
      FifoIffCleanPuts(front);
      Replayed(front, last);
      if last.Put? {
        PutKeepsLedger(Replay(front), last.data);
      } else {
        TakeKeepsLedger(Replay(front), last.len);
      }
      FifoIffNothingLost(Replay(front));
      FifoIffNothingLost(Replay(ops));
    }
  }

  lemma FirstPut(x: Byte, y: Byte)
    ensures var p := PutInto(DRY, [x, y]); p.stream == Stream([x, y], 2) && p.put == [x, y] && p.taken == []
  {}

  lemma ThenTake(p: Pipe, x: Byte, y: Byte)
    requires p.stream == Stream([x, y], 2) && p.taken == []
    ensures TakeFrom(p, 1).stream == Stream([y], 0) && TakeFrom(p, 1).taken == [x] && TakeFrom(p, 1).put == p.put
  {}

  lemma ThenPut(p: Pipe, y: Byte, z: Byte)
    requires p.stream == Stream([y], 0)
    ensures PutInto(p, [z]).stream == Stream([z], 1) && PutInto(p, [z]).put == p.put + [z] && PutInto(p, [z]).taken == p.taken
  {
    assert Write(p.stream, [z]).content == [z];
  }

  /** Two bytes are put, one is taken, a third is put: it takes the place of the second. */
  lemma UncleanPutLoses(x: Byte, y: Byte, z: Byte)
    ensures var p := PutInto(TakeFrom(PutInto(DRY, [x, y]), 1), [z]);
            p.put == [x, y, z] && p.taken + p.stream.content == [x, z]
  {
    FirstPut(x, y);
    ThenTake(PutInto(DRY, [x, y]), x, y);
    ThenPut(TakeFrom(PutInto(DRY, [x, y]), 1), y, z);
  }

  // ---- the connection ---------------------------------------------------------------------

  /** Bytes are put into `input` by recv and taken by on_read, which was handed `delivered`; they are
  put into `output` by send and taken by the kernel. `idle` holds while the last send put nothing
  into an empty buffer. */
  datatype Conn = Conn(input: Pipe, output: Pipe, delivered: Bytes, idle: bool)

  const FRESH: Conn := Conn(DRY, DRY, [], false)

  /** What one ::send call returns; `Accepted(limit)` is the smaller of the limit and the message. */
  datatype SendResult = Accepted(limit: nat) | Eintr | WouldBlock | SendFailed(errno: int)

  /** The bytes one do_handle_write hands to the kernel when `pending` are waiting. After the list
  the kernel would block. */
  function SentBytes(pending: nat, results: seq<SendResult>): (n: nat)
    ensures n <= pending
    decreases |results|
  {
    if pending == 0 || results == [] then 0
    else match results[0]
      case Eintr => SentBytes(pending, results[1..])
      case Accepted(limit) =>
        var k := Min(limit, pending);
        if k == 0 then 0 else k + SentBytes(pending - k, results[1..])
      case _ => 0
  }

  /** What the kernel has room for before it first blocks, fails or takes nothing. */
  function Offered(results: seq<SendResult>): nat {
    if results == [] then 0
    else match results[0]
      case Eintr => Offered(results[1..])
      case Accepted(limit) => if limit == 0 then 0 else limit + Offered(results[1..])
      case _ => 0
  }

  /** As much goes out as waits and as there is room for. */
  lemma {:induction false} SentIsOffered(pending: nat, results: seq<SendResult>)
    ensures SentBytes(pending, results) == Min(pending, Offered(results))
    decreases |results|
  {
    if results == [] || pending == 0 {
    } else {
      match results[0] {
        case Eintr => SentIsOffered(pending, results[1..]);
        case Accepted(limit) => SentIsOffered(pending - Min(limit, pending), results[1..]);
        case _ =>
      }
    }
  }

  /** How many times that call invokes ::send. */
  function SendCalls(pending: nat, results: seq<SendResult>): nat
    decreases |results|
  {
    if pending == 0 then 0
    else if results == [] then 1
    else match results[0]
      case Eintr => 1 + SendCalls(pending, results[1..])
      case Accepted(limit) => var k := Min(limit, pending); 1 + (if k == 0 then 0 else SendCalls(pending - k, results[1..]))
      case _ => 1
  }

  function Interrupts(results: seq<SendResult>): nat {
    if results == [] then 0 else (if results[0].Eintr? then 1 else 0) + Interrupts(results[1..])
  }

  /** The loop runs at most once a pending byte, once an interrupt, and once more. */
  lemma {:induction false} SendTerminates(pending: nat, results: seq<SendResult>)
    ensures SendCalls(pending, results) <= pending + Interrupts(results) + 1
    decreases |results|
  {
    if pending > 0 && results != [] {
      SendTerminates(pending, results[1..]);
      if results[0].Accepted? && Min(results[0].limit, pending) > 0 {
        SendTerminates(pending - Min(results[0].limit, pending), results[1..]);
      }
    }
  }

  // ---- its operations ---------------------------------------------------------------------

  function PutData(c: Conn, data: Bytes): Conn {
    var output := PutInto(c.output, data);
    c.(output := output, idle := output.stream.content == [])
  }

  /** The kernel accepts the first `n` waiting bytes. */
  function Transfer(c: Conn, n: nat): Conn
    requires n <= |c.output.stream.content|
  {
    var p := c.output;
    c.(output := p.(stream := Ignore(p.stream, n), taken := p.taken + p.stream.content[..n]))
  }

  /** The send loop: however many calls it takes, one prefix goes out. */
  function Emit(c: Conn, results: seq<SendResult>): Conn {
    var n := SentBytes(|c.output.stream.content|, results);
    if n == 0 then c else Transfer(c, n)
  }

  /** ConnectionHandler::do_handle_write takes that prefix off the output buffer. */
  function Flush(c: Conn, results: seq<SendResult>): Conn {
    var n := SentBytes(|c.output.stream.content|, results);
    if n == 0 then c else c.(output := TakeFrom(c.output, n))
  }

  /** The first bytes that wait, as many as the kernel has room for, go out; the rest waits. */
  lemma FlushSends(c: Conn, results: seq<SendResult>)
    ensures var p, q := c.output, Flush(c, results).output; var n := Min(|p.stream.content|, Offered(results));
            && q.taken == p.taken + p.stream.content[..n] && q.stream.content == p.stream.content[n..]
            && q.put == p.put && q.lost == p.lost
  {
    SentIsOffered(|c.output.stream.content|, results);
    assert c.output.stream.content[..0] == [] && c.output.stream.content[0..] == c.output.stream.content;
  }

  /** What do_handle_write adds to the history. */
  function Taken(c: Conn, results: seq<SendResult>): seq<Op> {
    var n := SentBytes(|c.output.stream.content|, results);
    if n == 0 then [] else [Take(n)]
  }

  lemma FlushEmits(c: Conn, results: seq<SendResult>)
    ensures Flush(c, results) == Emit(c.(output := c.output.(ops := c.output.ops + Taken(c, results))), results)
  {
    assert c.output.ops + [] == c.output.ops;
  }

  lemma EmitStep(c: Conn, limit: nat, results: seq<SendResult>)
    requires Min(limit, |c.output.stream.content|) > 0
    ensures Emit(c, [Accepted(limit)] + results) == Emit(Transfer(c, Min(limit, |c.output.stream.content|)), results)
  {
    var all, k, p := [Accepted(limit)] + results, Min(limit, |c.output.stream.content|), c.output;
    assert all[1..] == results;
    var d := Transfer(c, k);
    var m := SentBytes(|d.output.stream.content|, results);
    assert p.stream.content[..k] + d.output.stream.content[..m] == p.stream.content[..k + m];
    assert p.taken + p.stream.content[..k] + d.output.stream.content[..m] == p.taken + p.stream.content[..k + m];
    assert d.output.stream.content[m..] == p.stream.content[k + m..];
  }

  lemma EmitRetries(c: Conn, results: seq<SendResult>)
    ensures Emit(c, [Eintr] + results) == Emit(c, results)
  {
    assert ([Eintr] + results)[1..] == results;
  }

  /** do_handle_write gives up write interest exactly when it sent something and emptied the buffer. */
  predicate Drains(c: Conn, results: seq<SendResult>) {
    c.output.stream.content != [] && Flush(c, results).output.stream.content == []
  }

  function Receive(c: Conn, results: seq<RecvResult>): Conn {
    c.(input := PutInto(c.input, Received(results)))
  }

  function Deliver(c: Conn): Conn {
    c.(delivered := c.delivered + c.input.stream.content)
  }

  function Consume(c: Conn, len: int): Conn {
    c.(input := TakeFrom(c.input, len))
  }

  // ---- what every run keeps ---------------------------------------------------------------

  /** The two buffers are what their histories made them. */
  predicate Recorded(c: Conn) { c.input == Replay(c.input.ops) && c.output == Replay(c.output.ops) }

  lemma RecordedKept(c: Conn, data: Bytes, recv: seq<RecvResult>, send: seq<SendResult>, len: int)
    requires Recorded(c)
    ensures Recorded(PutData(c, data)) && Recorded(Flush(c, send))
    ensures Recorded(Receive(c, recv)) && Recorded(Deliver(c)) && Recorded(Consume(c, len))
  {
    Replayed(c.output.ops, Put(data));
    Replayed(c.output.ops, Take(SentBytes(|c.output.stream.content|, send)));
    Replayed(c.input.ops, Put(Received(recv)));
    Replayed(c.input.ops, Take(len));
  }

  lemma RecordedLedger(c: Conn)
    requires Recorded(c)
    ensures Ledger(c.input) && (Fifo(c.input) <==> CleanPuts(c.input.ops))
    ensures Ledger(c.output) && (Fifo(c.output) <==> CleanPuts(c.output.ops))
  {
    FifoIffCleanPuts(c.input.ops);
    FifoIffCleanPuts(c.output.ops);
  }

  /** Any number of do_handle_write calls, with no put between them. */
  function FlushAll(c: Conn, calls: seq<seq<SendResult>>): Conn {
    if calls == [] then c else Flush(FlushAll(c, calls[..|calls| - 1]), calls[|calls| - 1])
  }

  /** They send a prefix of what was waiting and keep the rest in order. */
  lemma {:induction false} FlushesSendAPrefix(c: Conn, calls: seq<seq<SendResult>>)
    ensures var d := FlushAll(c, calls);
            && d.output.taken + d.output.stream.content == c.output.taken + c.output.stream.content
            && |d.output.taken| >= |c.output.taken|
            && d.output.put == c.output.put && d.output.lost == c.output.lost && d.input == c.input
  {
    if calls == [] {
    } else {
      FlushesSendAPrefix(c, calls[..|calls| - 1]);
      var m := FlushAll(c, calls[..|calls| - 1]);
      var n := SentBytes(|m.output.stream.content|, calls[|calls| - 1]);
      assert m.output.taken + m.output.stream.content[..n] + m.output.stream.content[n..] == m.output.taken + m.output.stream.content;
    }
  }

  /** A full drain leaves a clean buffer; a partial one leaves the put position before the rest. */
  lemma FlushCleanIff(c: Conn, results: seq<SendResult>)
    ensures Flush(c, results) != c ==> (Clean(Flush(c, results).output.stream) <==> Drains(c, results))
  {}
}
