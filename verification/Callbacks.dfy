/** What one callback of a session does, exactly: its own connection becomes a function of what it
was, and no other handler changes. */
module Callbacks {
  import opened Streams
  import opened Dispatching
  import opened LoopTable
  import opened Connections
  import opened ReactorModel
  import opened ReactorSafety

  // ---- on the connection ------------------------------------------------------------------

  function PutAll(c: Conn, sends: seq<Bytes>): Conn {
    if sends == [] then c else PutData(PutAll(c, sends[..|sends| - 1]), sends[|sends| - 1])
  }

  /** on_read is handed the input, sends, and consumes. */
  function Served(c: Conn, onRead: OnRead): Conn {
    var input := c.input.stream.content;
    Consume(PutAll(Deliver(c), Sends(onRead, input)), Consumed(onRead, input))
  }

  /** The connection after a callback that leaves it open. */
  function ConnAfter(c: Conn, kind: Kind, cb: Callback): Conn {
    match kind
    case READ => Served(Receive(c, cb.recv), cb.onRead)
    case WRITE => Flush(c, cb.send)
    case ERROR => c
  }

  /** Some send has something to send. */
  predicate Speaks(sends: seq<Bytes>) { exists i :: 0 <= i < |sends| && sends[i] != [] }

  /** Sends never touch the input side; one after another they lose waiting bytes exactly when they
  have something to send and the first of them meets a buffer that is not clean. */
  lemma {:induction false} PutAllLoses(c: Conn, sends: seq<Bytes>)
    ensures var d := PutAll(c, sends);
            && d.input == c.input && d.delivered == c.delivered && d.output.taken == c.output.taken
            && |d.output.lost| >= |c.output.lost|
            && (|d.output.lost| == |c.output.lost| <==> Clean(c.output.stream) || !Speaks(sends))
            && (Clean(c.output.stream) ==> Clean(d.output.stream))
            && (!Speaks(sends) ==> d.output.stream == c.output.stream)
  {
    if sends == [] {
    } else {
      var front, last := sends[..|sends| - 1], sends[|sends| - 1];
      PutAllLoses(c, front);
      assert Speaks(sends) <==> Speaks(front) || last != [] by {
        if Speaks(front) {
          var i :| 0 <= i < |front| && front[i] != [];
          assert sends[i] != [];
        }
        if last != [] { assert sends[|front|] != []; }
      }
      var m := PutAll(c, front).output.stream;
      WriteAppendsIffClean(m, last);
      if last == [] { WriteNothing(m); }
    }
  }

  function Concat(sends: seq<Bytes>): Bytes {
    if sends == [] then [] else sends[0] + Concat(sends[1..])
  }

  lemma {:induction false} ConcatSnoc(sends: seq<Bytes>, last: Bytes)
    ensures Concat(sends + [last]) == Concat(sends) + last
  {
    if sends == [] {
      assert Concat([last]) == last + Concat([last][1..]);
    } else {
      assert (sends + [last])[1..] == sends[1..] + [last];
      ConcatSnoc(sends[1..], last);
      assert sends[0] + (Concat(sends[1..]) + last) == (sends[0] + Concat(sends[1..])) + last;
    }
  }

  /** All that is sent is put, in the order of the sends. */
  lemma {:induction false} PutAllPuts(c: Conn, sends: seq<Bytes>)
    ensures PutAll(c, sends).output.put == c.output.put + Concat(sends)
  {
    if sends == [] {
      assert c.output.put + [] == c.output.put;
    } else {
      var front, last := sends[..|sends| - 1], sends[|sends| - 1];
      PutAllPuts(c, front);
      assert front + [last] == sends;
      ConcatSnoc(front, last);
      assert (c.output.put + Concat(front)) + last == c.output.put + (Concat(front) + last);
    }
  }

  /** What a read does: on_read is handed all the input there is; the echo handler sends it back and
  consumes it, another one sends what it sends, in that order, and consumes what it returns. */
  lemma ReadMeans(c: Conn, cb: Callback)
    ensures var d := ConnAfter(c, READ, cb); var handed := Write(c.input.stream, Received(cb.recv)).content;
            && d.delivered == c.delivered + handed && d.input.put == c.input.put + Received(cb.recv)
            && match cb.onRead
               case Echo => d.output.put == c.output.put + handed && d.input.taken == c.input.taken + handed
               case Custom(sends, consumed) =>
                 d.output.put == c.output.put + Concat(sends) && d.input == TakeFrom(PutInto(c.input, Received(cb.recv)), consumed)
  {
    var e := Deliver(Receive(c, cb.recv));
    var handed := e.input.stream.content;
    PutAllLoses(e, Answers(c, cb));
    PutAllPuts(e, Answers(c, cb));
    if cb.onRead.Echo? {
      assert Concat([handed]) == handed + Concat([handed][1..]);
      assert handed[..|handed|] == handed;
    }
  }

  /** A callback loses output of its connection exactly when it is a read whose on_read has something
  to send and finds unsent bytes behind the put position. */
  lemma ConnAfterLoses(c: Conn, kind: Kind, cb: Callback)
    ensures var d := ConnAfter(c, kind, cb);
            && |d.output.lost| >= |c.output.lost|
            && (|d.output.lost| == |c.output.lost| <==> kind != READ || Clean(c.output.stream) || !Speaks(Answers(c, cb)))
            && (kind != READ && c.output.stream.content == [] ==> d == c)
  {
    if kind == READ {
      var e := Receive(c, cb.recv);
      PutAllLoses(Deliver(e), Answers(c, cb));
    }
  }

  /** What on_read sends in this callback. */
  function Answers(c: Conn, cb: Callback): seq<Bytes> {
    Sends(cb.onRead, Receive(c, cb.recv).input.stream.content)
  }

  /** From an empty input buffer on_read is handed exactly the bytes of one read, and the next
  on_read will be too if and only if this one consumed them all. */
  lemma OneReadAtATime(c: Conn, cb: Callback)
    requires c.input.stream == EMPTY && ReadReturn(cb.recv) > 0
    ensures var d := ConnAfter(c, READ, cb); var data := Received(cb.recv);
            && d.delivered == c.delivered + data && d.input.put == c.input.put + data
            && (d.input.stream == EMPTY <==> Consumed(cb.onRead, data) == |data|)
  {
    var e := Receive(c, cb.recv);
    assert e.input.stream.content == Received(cb.recv);
    PutAllLoses(Deliver(e), Answers(c, cb));
  }

  // ---- on the reactor ---------------------------------------------------------------------

  /** The sends of a callback, on the whole reactor. */
  lemma {:induction false} SendAllConn(s: State, id: Id, sends: seq<Bytes>)
    requires IsSession(s, id) && s.objects[id].fd in s.loop.interest
    ensures var r := SendAll(s, id, sends);
            && r == s.(objects := r.objects, loop := r.loop) && s.objects[id].fd in r.loop.interest
            && r.objects == s.objects[id := Session(s.objects[id].fd, PutAll(s.objects[id].conn, sends))]
  {
    if sends == [] {
      assert s.objects == s.objects[id := Session(s.objects[id].fd, s.objects[id].conn)];
    } else {
      var front, last := sends[..|sends| - 1], sends[|sends| - 1];
      SendAllConn(s, id, front);
      var m := SendAll(s, id, front);
      SendConn(m, id, last);
      assert Send(m, id, last).objects == s.objects[id := Session(s.objects[id].fd, PutAll(s.objects[id].conn, sends))];
    }
  }

  lemma SendConn(s: State, id: Id, data: Bytes)
    requires IsSession(s, id) && s.objects[id].fd in s.loop.interest
    ensures var r := Send(s, id, data);
            && r == s.(objects := r.objects, loop := r.loop) && s.objects[id].fd in r.loop.interest
            && r.objects == s.objects[id := Session(s.objects[id].fd, PutData(s.objects[id].conn, data))]
  {}

  /** Handler `id` is gone after the callback, or its connection is what the callback makes of it;
  everything else is as before. */
  ghost predicate CallbackEffect(s: State, r: State, id: Id, kind: Kind, cb: Callback)
    requires id in s.objects
  {
    && r.next == s.next && r.queue == s.queue && r.fun == s.fun && r.batch == s.batch && r.pc == s.pc && r.quit == s.quit
    && r.trace == s.trace + (if id in r.objects then [Called(id, kind)] else [Called(id, kind), Died(id)])
    && (forall x :: x != id ==> (x in r.objects <==> x in s.objects) && (x in s.objects ==> r.objects[x] == s.objects[x]))
    && (id in r.objects <==> Survives(s.objects[id], kind, cb))
    && (id in r.objects ==> r.objects[id] == Changed(s.objects[id], kind, cb))
  }

  predicate Survives(o: Object, kind: Kind, cb: Callback) {
    o.Plain? || kind == WRITE || (kind == READ && ReadReturn(cb.recv) > 0)
  }

  function Changed(o: Object, kind: Kind, cb: Callback): Object {
    if o.Plain? then o else Session(o.fd, ConnAfter(o.conn, kind, cb))
  }

  lemma ServeEffect(s: State, id: Id, onRead: OnRead)
    requires IsSession(s, id) && s.objects[id].fd in s.loop.interest
    ensures var r := Serve(s, id, onRead); var o := s.objects[id];
            r == s.(objects := s.objects[id := Session(o.fd, Served(o.conn, onRead))], loop := r.loop)
  {
    var o := s.objects[id];
    var input := o.conn.input.stream.content;
    var d := WithConn(s, id, Deliver(o.conn));
    var e := SendAll(d, id, Sends(onRead, input));
    SendAllConn(d, id, Sends(onRead, input));
    ServedInPlace(s.objects, d.objects, e.objects, id, o.fd, Deliver(o.conn), PutAll(Deliver(o.conn), Sends(onRead, input)), Served(o.conn, onRead));
    assert Serve(s, id, onRead) == WithConn(e, id, Served(o.conn, onRead));
  }

  /** Three updates of one entry are one. */
  lemma ServedInPlace(m: map<Id, Object>, d: map<Id, Object>, e: map<Id, Object>, id: Id, fd: int, c: Conn, c': Conn, c'': Conn)
    requires d == m[id := Session(fd, c)] && e == d[id := Session(fd, c')]
    ensures e[id := Session(fd, c'')] == m[id := Session(fd, c'')]
  {}

  /** The handler is replaced by what it became, or removed. */
  predicate Done(s: State, r: State, id: Id, kind: Kind, cb: Callback)
    requires id in s.objects
  {
    if Survives(s.objects[id], kind, cb) then r == s.(objects := s.objects[id := Changed(s.objects[id], kind, cb)], loop := r.loop)
    else r == s.(objects := s.objects - {id}, loop := r.loop, trace := s.trace + [Died(id)])
  }

  lemma ReadEffect(s: State, id: Id, cb: Callback)
    requires IsSession(s, id) && s.objects[id].fd in s.loop.interest
    ensures Done(s, HandleRead(s, id, cb.recv, cb.onRead), id, READ, cb)
  {
    var t := WithConn(s, id, Receive(s.objects[id].conn, cb.recv));
    if ReadReturn(cb.recv) <= 0 {
      assert t.objects - {id} == s.objects - {id};
    } else {
      ServeEffect(t, id, cb.onRead);
      assert HandleRead(s, id, cb.recv, cb.onRead).objects == s.objects[id := Changed(s.objects[id], READ, cb)];
    }
  }

  lemma WriteEffect(s: State, id: Id, cb: Callback)
    requires IsSession(s, id)
    ensures Done(s, HandleWrite(s, id, cb.send), id, WRITE, cb)
  {}

  lemma DoneMeans(s: State, r: State, id: Id, kind: Kind, cb: Callback)
    requires id in s.objects && Done(s.(trace := s.trace + [Called(id, kind)]), r, id, kind, cb)
    ensures CallbackEffect(s, r, id, kind, cb)
  {
    assert s.trace + [Called(id, kind)] + [Died(id)] == s.trace + [Called(id, kind), Died(id)];
  }

  lemma HandleEffect(s: State, id: Id, kind: Kind, cb: Callback)
    requires id in s.objects && (IsSession(s, id) ==> s.objects[id].fd in s.loop.interest)
    ensures CallbackEffect(s, Handle(s, id, kind, cb), id, kind, cb)
  {
    var t := s.(trace := s.trace + [Called(id, kind)]);
    if IsSession(s, id) {
      match kind {
        case READ => ReadEffect(t, id, cb);
        case WRITE => WriteEffect(t, id, cb);
        case ERROR =>
      }
    }
    assert Done(t, Handle(s, id, kind, cb), id, kind, cb);
    DoneMeans(s, Handle(s, id, kind, cb), id, kind, cb);
  }

  /** The handler that a dispatch finds can be called: its descriptor is watched. */
  lemma FoundEffect(s: State, cb: Callback)
    requires Inv(s) && s.batch != []
    ensures var found := Lookup(s.loop, s.batch[0].fd).1;
            found.Some? ==>
              && found.value in Next(s).objects && s.objects[found.value].fd == s.batch[0].fd
              && CallbackEffect(Next(s), Handle(Next(s), found.value, s.batch[0].kind, cb), found.value, s.batch[0].kind, cb)
  {
    NextKeeps(s);
    var found := Lookup(s.loop, s.batch[0].fd).1;
    if found.Some? {
      assert Placed(Next(s), found.value);
      HandleEffect(Next(s), found.value, s.batch[0].kind, cb);
    }
  }

  /** What each action does that can be taken. */
  lemma ActMeans(s: State, a: Action, self: Option<Id>)
    requires Inv(s)
    ensures var r := Act(s, a, self);
            match a
            case SendTo(id, data) => IsSession(s, id) ==> IsSession(r, id) && r.objects[id].conn == PutData(s.objects[id].conn, data)
            case CloseSession(id) => IsSession(s, id) && self != Some(id) ==> Gone(s, r, id)
            case StopPlain(id, fault) => id in s.objects && s.objects[id].Plain? && fault == 0 ==> Gone(s, r, id)
            case OpenSession(fd) =>
              FdOk(s.loop.backend, fd) && fd !in s.loop.interest ==> Arrived(s, r, Session(fd, Connections.FRESH))
            case StartPlain(fd, fault) =>
              FdOk(s.loop.backend, fd) && fd !in s.loop.interest && fault == 0 ==> Arrived(s, r, Plain(fd))
            case Post(task) => r == s.(queue := s.queue + [task], pushed := s.pushed + [task])
  {
    match a {
      case SendTo(id, data) =>
        if IsSession(s, id) {
          assert Placed(s, id);
          SendConn(s, id, data);
        }
      case CloseSession(id) => if id in s.objects { assert Placed(s, id); }
      case StopPlain(id, _) => if id in s.objects { assert Placed(s, id); }
      case _ =>
    }
  }

  /** The handler and its registration are gone, and this was the last that was heard of it. */
  predicate Gone(s: State, r: State, id: Id)
    requires id in s.objects
  {
    && r.objects == s.objects - {id} && r.trace == s.trace + [Died(id)]
    && r.loop.table == s.loop.table - {s.objects[id].fd} && r.loop.interest == s.loop.interest - {s.objects[id].fd}
  }

  /** A new handler is registered for reading. */
  predicate Arrived(s: State, r: State, o: Object) {
    && r.objects == s.objects[s.next := o] && r.next == s.next + 1 && r.trace == s.trace + [Born(s.next)]
    && r.loop.table == s.loop.table[o.fd := Some(s.next)] && r.loop.interest == s.loop.interest[o.fd := Interest(true, false)]
  }
}
