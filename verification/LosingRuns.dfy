/** Runs that lose bytes on every backend, epoll included. */
module LosingRuns {
  import opened Streams
  import opened Dispatching
  import opened LoopTable
  import opened Connections
  import opened ReactorModel
  import opened Callbacks
  import opened Turns

  lemma SendTwice(x: Byte, y: Byte, z: Byte) returns (c1: Conn, c2: Conn)
    ensures c1 == PutData(Connections.FRESH, [x, y]) && c2 == Flush(c1, [Accepted(1)])
    ensures c1.output.stream.content != [] && !Drains(c1, [Accepted(1)]) && c2.output.stream.content != []
    ensures var d := PutData(c2, [z]).output; d.put == [x, y, z] && d.taken + d.stream.content == [x, z]
  {
    FirstPut(x, y);
    UncleanPutLoses(x, y, z);
    c1 := PutData(Connections.FRESH, [x, y]);
    ThenTake(c1.output, x, y);
    PartialFlush(c1, x, y);
    c2 := c1.(output := TakeFrom(c1.output, 1));
  }

  /** Sending from anywhere but on_read: a functor sends two bytes, one goes out, a functor sends a
  third, and it takes the place of the second. */
  lemma SendElsewhereLoses(backend: Backend) returns (labels: seq<Label>)
    ensures IsRun(backend, labels) && IsSession(After(backend, labels), 0)
    ensures var p := After(backend, labels).objects[0].conn.output;
            p.put == [1, 2, 3] && p.taken + p.stream.content == [1, 3]
  {
    var c1, c2 := SendTwice(1, 2, 3);
    var i := Meaning(backend, true, true);
    labels := OpenOne(backend);
    labels := SendTurn(backend, labels, Interest(true, false), Connections.FRESH, [1, 2]);
    labels := WriteTurn(backend, labels, i, c1, [Accepted(1)]);
    labels := SendTurn(backend, labels, i, c2, [3]);
  }

  /** A short read whose on_read sends nothing and consumes `n` bytes. */
  lemma SilentRead(c: Conn, chunk: Chunk, n: int)
    requires |chunk| < CHUNK
    ensures var d := ConnAfter(c, READ, Reading(chunk, Custom([], n)));
            d.input == TakeFrom(PutInto(c.input, chunk), n) && d.output == c.output && d.idle == c.idle
  {
    ShortRead(chunk);
    assert PutAll(Deliver(Receive(c, [Data(chunk)])), []) == Deliver(Receive(c, [Data(chunk)]));
  }

  lemma ConsumeOne(x: Byte, y: Byte, z: Byte) returns (c1: Conn)
    ensures c1 == ConnAfter(Connections.FRESH, READ, Reading([x, y], Custom([], 1)))
    ensures var d := ConnAfter(c1, READ, Reading([z], Custom([], 0))).input;
            d.put == [x, y, z] && d.taken + d.stream.content == [x, z]
  {
    c1 := ConnAfter(Connections.FRESH, READ, Reading([x, y], Custom([], 1)));
    SilentRead(Connections.FRESH, [x, y], 1);
    SilentRead(c1, [z], 0);
    UncleanPutLoses(x, y, z);
    TakeNothing(PutInto(c1.input, [z]));
  }

  lemma TakeNothing(p: Pipe)
    ensures TakeFrom(p, 0).put == p.put && TakeFrom(p, 0).taken + TakeFrom(p, 0).stream.content == p.taken + p.stream.content
  {
    assert p.stream.content[..0] == [] && p.stream.content[0..] == p.stream.content;
  }

  /** An on_read that leaves input waiting: it is handed two bytes and consumes one, and the third
  takes the place of the second. */
  lemma PartialReadLoses(backend: Backend) returns (labels: seq<Label>)
    ensures IsRun(backend, labels) && IsSession(After(backend, labels), 0)
    ensures var p := After(backend, labels).objects[0].conn.input;
            p.put == [1, 2, 3] && p.taken + p.stream.content == [1, 3]
  {
    var c1 := ConsumeOne(1, 2, 3);
    labels := OpenOne(backend);
    labels := ReadTurn(backend, labels, Interest(true, false), Connections.FRESH, [1, 2], Custom([], 1));
    labels := ReadTurn(backend, labels, Interest(true, false), c1, [3], Custom([], 0));
  }
}
