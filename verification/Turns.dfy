/** Concrete runs of the reactor, one turn of the loop at a time. */
module Turns {
  import opened Streams
  import opened Dispatching
  import opened LoopTable
  import opened Connections
  import opened ReactorModel
  import opened Callbacks

  /** Between two turns the only handler is one session, handler 0 on descriptor 5. */
  predicate Holds(s: State, backend: Backend, i: Interest, c: Conn) {
    && Resting(s)
    && s.loop == Loop(backend, map[5 := Some(0)], map[5 := i])
    && s.objects == map[0 := Session(5, c)] && s.next == 1
  }

  // ---- a turn that runs a task ------------------------------------------------------------

  /** The state in which a turn calls the one functor that was pushed. */
  function Entered(s: State, task: Task): State {
    s.(pc := POPPING, fun := Some(task), pushed := s.pushed + [task], executed := s.executed + [task])
  }

  /** Push a functor, poll nothing, run it, find no other. */
  function TaskLabels(a: Action): seq<Label> { [Push(Task([a])), Poll([]), Pop] + [Invoke, Pop] }

  /** The state in which the functor has been popped. */
  function Popped(s: State, task: Task): State {
    s.(pc := INVOKING, fun := Some(task), pushed := s.pushed + [task])
  }

  predicate Resting(s: State) { s.pc == POLLING && !s.quit && s.queue == [] && s.batch == [] }

  lemma PopTurn(backend: Backend, labels: seq<Label>, task: Task) returns (more: seq<Label>)
    requires IsRun(backend, labels) && Resting(After(backend, labels))
    ensures more == labels + [Push(task), Poll([]), Pop] && IsRun(backend, more)
    ensures After(backend, more) == Popped(After(backend, labels), task)
  {
    more := labels + [Push(task)];
    OneMore(backend, labels, Push(task));
    OneMore(backend, more, Poll([]));
    more := more + [Poll([])];
    OneMore(backend, more, Pop);
    more := more + [Pop];
  }

  lemma TaskTurn(backend: Backend, labels: seq<Label>, a: Action) returns (more: seq<Label>)
    requires IsRun(backend, labels) && Resting(After(backend, labels)) && !a.Post?
    ensures more == labels + TaskLabels(a) && IsRun(backend, more)
    ensures After(backend, more) == Act(Entered(After(backend, labels), Task([a])), a, None).(pc := POLLING)
  {
    InvokeOne(After(backend, labels), a);
    more := PopTurn(backend, labels, Task([a]));
    OneMore(backend, more, Invoke);
    more := more + [Invoke];
    OneMore(backend, more, Pop);
    more := more + [Pop];
  }

  lemma InvokeOne(s: State, a: Action)
    requires s.queue == [] && s.batch == [] && !a.Post?
    ensures var task := Task([a]);
            && InvokeTask(Popped(s, task)) == Act(Entered(s, task), a, None)
            && Act(Entered(s, task), a, None).queue == [] && Act(Entered(s, task), a, None).pc == POPPING
  {
    var t := Entered(s, Task([a]));
    assert Exec(t, [a], None) == Act(t, a, None) by {
      assert [a][..0] == [];
      assert Exec(t, [], None) == t;
    }
  }

  /** Open the session before the loop runs. */
  lemma OpenOne(backend: Backend) returns (labels: seq<Label>)
    ensures labels == [Setup(OpenSession(5))] && IsRun(backend, labels)
    ensures Holds(After(backend, labels), backend, Interest(true, false), Connections.FRESH)
  {
    labels := [Setup(OpenSession(5))];
    OneMore(backend, [], Setup(OpenSession(5)));
    assert [] + labels == labels;
  }

  /** A functor sends. */
  lemma SendTurn(backend: Backend, labels: seq<Label>, i: Interest, c: Conn, data: Bytes) returns (more: seq<Label>)
    requires IsRun(backend, labels) && Holds(After(backend, labels), backend, i, c)
    ensures more == labels + TaskLabels(SendTo(0, data)) && IsRun(backend, more)
    ensures Holds(After(backend, more), backend, if c.output.stream.content == [] then Meaning(backend, true, true) else i, PutData(c, data))
  {
    more := TaskTurn(backend, labels, SendTo(0, data));
    SendHeld(Entered(After(backend, labels), Task([SendTo(0, data)])), backend, i, c, data);
  }

  lemma SendHeld(s: State, backend: Backend, i: Interest, c: Conn, data: Bytes)
    requires Holds(s.(pc := POLLING), backend, i, c)
    ensures Holds(Send(s, 0, data).(pc := POLLING), backend, if c.output.stream.content == [] then Meaning(backend, true, true) else i, PutData(c, data))
  {
    SendConn(s, 0, data);
  }

  // ---- a turn that calls the handler ------------------------------------------------------

  /** Poll one event, dispatch it, find no task. */
  function EventLabels(kind: Kind, cb: Callback): seq<Label> { [Poll([Event(5, kind)]), Dispatch(cb), Pop] }

  /** The state in which the handler is called. */
  function Calling(s: State): State { s.(batch := [], pc := POPPING, fun := None) }

  lemma EventTurn(backend: Backend, labels: seq<Label>, i: Interest, c: Conn, kind: Kind, cb: Callback) returns (more: seq<Label>)
    requires IsRun(backend, labels) && Holds(After(backend, labels), backend, i, c)
    requires (kind == READ && i.readable) || (kind == WRITE && i.writeable)
    requires cb.actions == []
    ensures more == labels + EventLabels(kind, cb) && IsRun(backend, more)
    ensures After(backend, more) == Handle(Calling(After(backend, labels)), 0, kind, cb).(pc := POLLING)
  {
    CallHeld(After(backend, labels), backend, i, c, kind, cb);
    OneMore(backend, labels, Poll([Event(5, kind)]));
    more := labels + [Poll([Event(5, kind)])];
    OneMore(backend, more, Dispatch(cb));
    more := more + [Dispatch(cb)];
    OneMore(backend, more, Pop);
    more := more + [Pop];
  }

  lemma CallHeld(s: State, backend: Backend, i: Interest, c: Conn, kind: Kind, cb: Callback)
    requires Holds(s, backend, i, c) && cb.actions == []
    ensures var r := Handle(Calling(s), 0, kind, cb);
            && DispatchOne(Polled(s, [Event(5, kind)]), cb) == r
            && r.pc == POPPING && r.queue == [] && !r.quit
  {
    HandleEffect(Calling(s), 0, kind, cb);
    assert Next(Polled(s, [Event(5, kind)])) == Calling(s);
  }

  lemma WriteTurn(backend: Backend, labels: seq<Label>, i: Interest, c: Conn, results: seq<SendResult>) returns (more: seq<Label>)
    requires IsRun(backend, labels) && Holds(After(backend, labels), backend, i, c) && i.writeable && !Drains(c, results)
    ensures more == labels + EventLabels(WRITE, Callback([], results, Echo, [])) && IsRun(backend, more)
    ensures Holds(After(backend, more), backend, i, Flush(c, results))
  {
    more := EventTurn(backend, labels, i, c, WRITE, Callback([], results, Echo, []));
  }

  lemma PartialFlush(c: Conn, x: Byte, y: Byte)
    requires c.output.stream.content == [x, y]
    ensures Flush(c, [Accepted(1)]) == c.(output := TakeFrom(c.output, 1)) && !Drains(c, [Accepted(1)])
  {
    assert SentBytes(2, [Accepted(1)]) == 1;
  }

  /** The callback of a short read. */
  function Reading(chunk: Chunk, onRead: OnRead): Callback { Callback([Data(chunk)], [], onRead, []) }

  lemma ShortRead(chunk: Chunk)
    requires |chunk| < CHUNK
    ensures ReadReturn([Data(chunk)]) == |chunk| && Received([Data(chunk)]) == chunk
  {
    assert Flatten([]) == [];
  }

  /** What the callback does to the table when it sends at most once. */
  lemma ReadLoop(s: State, cb: Callback)
    requires IsSession(s, 0) && s.objects[0].fd in s.loop.interest && ReadReturn(cb.recv) > 0
    requires |Answers(s.objects[0].conn, cb)| <= 1
    ensures HandleRead(s, 0, cb.recv, cb.onRead).loop ==
            if Answers(s.objects[0].conn, cb) != [] && s.objects[0].conn.output.stream.content == []
            then Modify(s.loop, s.objects[0].fd, true, true, 0, 0).0 else s.loop
  {
    var c := s.objects[0].conn;
    var sends := Answers(c, cb);
    var d := WithConn(WithConn(s, 0, Receive(c, cb.recv)), 0, Deliver(Receive(c, cb.recv)));
    if sends != [] {
      assert sends[..0] == [];
      assert SendAll(d, 0, sends) == Send(d, 0, sends[0]);
    }
  }

  lemma ReadTurn(backend: Backend, labels: seq<Label>, i: Interest, c: Conn, chunk: Chunk, onRead: OnRead) returns (more: seq<Label>)
    requires IsRun(backend, labels) && Holds(After(backend, labels), backend, i, c)
    requires i.readable && |chunk| < CHUNK && |Answers(c, Reading(chunk, onRead))| <= 1
    ensures more == labels + EventLabels(READ, Reading(chunk, onRead)) && IsRun(backend, more)
    ensures var answer := Answers(c, Reading(chunk, onRead)) != [] && c.output.stream.content == [];
            Holds(After(backend, more), backend, if answer then Meaning(backend, true, true) else i, ConnAfter(c, READ, Reading(chunk, onRead)))
  {
    var cb := Reading(chunk, onRead);
    more := EventTurn(backend, labels, i, c, READ, cb);
    ReadHeld(After(backend, labels), backend, i, c, chunk, onRead);
  }

  lemma ReadHeld(s: State, backend: Backend, i: Interest, c: Conn, chunk: Chunk, onRead: OnRead)
    requires Holds(s, backend, i, c) && |chunk| < CHUNK && |Answers(c, Reading(chunk, onRead))| <= 1
    ensures var cb := Reading(chunk, onRead); var answer := Answers(c, cb) != [] && c.output.stream.content == [];
            Holds(Handle(Calling(s), 0, READ, cb).(pc := POLLING), backend,
                  if answer then Meaning(backend, true, true) else i, ConnAfter(c, READ, cb))
  {
    var cb := Reading(chunk, onRead);
    var answer := Answers(c, cb) != [] && c.output.stream.content == [];
    var t := Calling(s).(trace := s.trace + [Called(0, READ)]);
    var r := HandleRead(t, 0, cb.recv, cb.onRead);
    assert Handle(Calling(s), 0, READ, cb) == r;
    ReadInPlace(t, c, chunk, onRead);
    assert r.loop == Loop(backend, map[5 := Some(0)], map[5 := if answer then Meaning(backend, true, true) else i]);
  }

  /** The table changes when the answer finds an empty buffer; the session becomes what the read
  makes of it. */
  lemma ReadInPlace(t: State, c: Conn, chunk: Chunk, onRead: OnRead)
    requires t.objects == map[0 := Session(5, c)] && 5 in t.loop.interest
    requires |chunk| < CHUNK && |Answers(c, Reading(chunk, onRead))| <= 1
    ensures var cb := Reading(chunk, onRead); var r := HandleRead(t, 0, cb.recv, cb.onRead);
            && r == t.(objects := map[0 := Session(5, ConnAfter(c, READ, cb))], loop := r.loop)
            && r.loop == if Answers(c, cb) != [] && c.output.stream.content == [] then Modify(t.loop, 5, true, true, 0, 0).0 else t.loop
  {
    var cb := Reading(chunk, onRead);
    ShortRead(chunk);
    ReadEffect(t, 0, cb);
    ReadLoop(t, cb);
    OneEntry(t.objects, HandleRead(t, 0, cb.recv, cb.onRead).objects, 5, c, ConnAfter(c, READ, cb));
  }

  lemma OneEntry(m: map<Id, Object>, r: map<Id, Object>, fd: int, c: Conn, d: Conn)
    requires m == map[0 := Session(fd, c)] && r == m[0 := Session(fd, d)]
    ensures r == map[0 := Session(fd, d)]
  {}
}
