/** What every reachable state of the reactor satisfies, whatever the kernel answers and user code does. */
module ReactorSafety {
  import opened Streams
  import opened Dispatching
  import opened LoopTable
  import opened Connections
  import opened EpollDispatcher
  import opened ReactorModel

  /** The table has a handler for exactly the watched descriptors; the handlers it points to are
  the ones that exist, each under its own descriptor. */
  ghost predicate TableInv(s: State) {
    && Agreement(s.loop)
    && (forall fd :: fd in s.loop.interest ==> Live(s.loop, fd) && Owner(s, fd) in s.objects && s.objects[Owner(s, fd)].fd == fd)
    && (forall id :: id in s.objects ==> Placed(s, id))
  }

  function Owner(s: State, fd: int): Id
    requires Live(s.loop, fd)
  {
    s.loop.table[fd].value
  }

  ghost predicate Placed(s: State, id: Id)
    requires id in s.objects
  {
    var fd := s.objects[id].fd;
    id < s.next && FdOk(s.loop.backend, fd) && fd in s.loop.interest && Live(s.loop, fd) && Owner(s, fd) == id
  }

  /** A connection's buffers are what their histories made them, and write interest is armed exactly while bytes wait or the
  last send was empty; epoll then watches for nothing else. */
  predicate ConnInv(backend: Backend, i: Interest, c: Conn) {
    && Recorded(c)
    && (i.writeable <==> c.output.stream.content != [] || c.idle)
    && (c.idle ==> c.output.stream.content == [])
    && (i.readable <==> !(backend == EPOLL && i.writeable))
  }

  ghost predicate SessionInv(s: State) {
    forall id :: IsSession(s, id) ==>
      s.objects[id].fd in s.loop.interest && ConnInv(s.loop.backend, s.loop.interest[s.objects[id].fd], s.objects[id].conn)
  }

  ghost predicate LifeInv(s: State) {
    forall id: Id :: LifeOf(s.trace, id) == if id in s.objects then ALIVE else if id < s.next then DEAD else UNBORN
  }

  predicate TaskInv(s: State) {
    && s.pushed == s.executed + (if s.pc == INVOKING && s.fun.Some? then [s.fun.value] else []) + s.queue
    && (s.pc == INVOKING ==> s.fun.Some?)
    && (s.pc == DISPATCHING <==> s.batch != [])
  }

  ghost predicate Inv(s: State) {
    TableInv(s) && SessionInv(s) && LifeInv(s) && TaskInv(s) && !s.fault
  }

  /** What a step of user code leaves alone. */
  predicate Frame(s: State, r: State) {
    && r.loop.backend == s.loop.backend && r.pc == s.pc && r.batch == s.batch && r.fun == s.fun
    && r.executed == s.executed && r.next >= s.next && r.quit == s.quit
  }

  // ---- one lemma an operation -------------------------------------------------------------

  function Enrolled(s: State, o: Object): State
    requires o.fd !in s.loop.interest
  {
    Allocate(s.(loop := Register(s.loop, o.fd, true, false, s.next, 0).0), o)
  }

  lemma EnrolledTable(s: State, o: Object)
    requires TableInv(s) && FdOk(s.loop.backend, o.fd) && o.fd !in s.loop.interest
    ensures TableInv(Enrolled(s, o)) && forall id :: id in s.objects ==> s.objects[id].fd != o.fd
  {
    var r := Enrolled(s, o);
    AgreementKept(s.loop, o.fd, true, false, s.next, 0);
    forall id | id in r.objects ensures Placed(r, id) && (id != s.next ==> r.objects[id].fd != o.fd) {
      if id != s.next { assert Placed(s, id); }
    }
    forall id | id in s.objects ensures s.objects[id].fd != o.fd { assert Placed(s, id); }
  }

  lemma EnrolKeeps(s: State, o: Object)
    requires Inv(s) && FdOk(s.loop.backend, o.fd) && o.fd !in s.loop.interest && (o.Session? ==> o.conn == Connections.FRESH)
    ensures Inv(Enrolled(s, o)) && Frame(s, Enrolled(s, o))
  {
    EnrolledTable(s, o);
    LifeTurns(s.trace, Born(s.next));
  }

  lemma CreateKeeps(s: State, o: Object, fault: CtlFault)
    requires Inv(s) && (o.Session? ==> o.conn == Connections.FRESH)
    ensures Inv(Create(s, o, fault)) && Frame(s, Create(s, o, fault))
  {
    if FdOk(s.loop.backend, o.fd) && o.fd !in s.loop.interest {
      var (loop, errno) := Register(s.loop, o.fd, true, false, s.next, fault);
      if errno != 0 {
        assert Create(s, o, fault) == s;
      } else {
        EnrolKeeps(s, o);
      }
    }
  }

  lemma StopKeeps(s: State, id: Id, fault: CtlFault)
    requires Inv(s) && id in s.objects
    ensures Inv(Stop(s, id, fault)) && Frame(s, Stop(s, id, fault))
  {
    if Delete(s.loop, s.objects[id].fd, fault).1 != 0 {
      assert Stop(s, id, fault) == s;
    } else {
      RetireKeeps(s, id);
    }
  }

  lemma RetireKeeps(s: State, id: Id)
    requires Inv(s) && id in s.objects
    ensures Inv(Retire(s, id)) && Frame(s, Retire(s, id))
  {
    var r := Retire(s, id);
    assert Placed(s, id);
    LifeTurns(s.trace, Died(id));
    AgreementKept(s.loop, s.objects[id].fd, true, false, id, 0);
    forall x | x in r.objects ensures Placed(r, x) && r.objects[x].fd != s.objects[id].fd { assert Placed(s, x); }
  }

  /** Replacing a connection and, with it, what is asked for its descriptor. */
  lemma UpdateKeeps(s: State, id: Id, c: Conn, rearm: bool, writeable: bool)
    requires Inv(s) && IsSession(s, id)
    requires s.objects[id].fd in s.loop.interest
    requires ConnInv(s.loop.backend, if rearm then Meaning(s.loop.backend, true, writeable) else s.loop.interest[s.objects[id].fd], c)
    ensures var r := WithConn(s, id, c);
            var t := if rearm then r.(loop := Modify(s.loop, s.objects[id].fd, true, writeable, id, 0).0) else r;
            Inv(t) && Frame(s, t)
  {
    var fd := s.objects[id].fd;
    assert Placed(s, id);
    AgreementKept(s.loop, fd, true, writeable, id, 0);
    var r := WithConn(s, id, c);
    var t := if rearm then r.(loop := Modify(s.loop, fd, true, writeable, id, 0).0) else r;
    forall x | x in t.objects ensures Placed(t, x) && (x != id ==> t.objects[x].fd != fd) { assert Placed(s, x); }
  }

  lemma SendKeeps(s: State, id: Id, data: Bytes)
    requires Inv(s)
    ensures Inv(Send(s, id, data)) && Frame(s, Send(s, id, data))
  {
    if IsSession(s, id) && s.objects[id].fd in s.loop.interest {
      var c := s.objects[id].conn;
      RecordedKept(c, data, [], [], 0);
      UpdateKeeps(s, id, PutData(c, data), c.output.stream.content == [], true);
    }
  }

  lemma {:induction false} SendAllKeeps(s: State, id: Id, sends: seq<Bytes>)
    requires Inv(s)
    ensures Inv(SendAll(s, id, sends)) && Frame(s, SendAll(s, id, sends))
  {
    if sends == [] {
    } else {
      SendAllKeeps(s, id, sends[..|sends| - 1]);
      SendKeeps(SendAll(s, id, sends[..|sends| - 1]), id, sends[|sends| - 1]);
    }
  }

  lemma HandleWriteKeeps(s: State, id: Id, results: seq<SendResult>)
    requires Inv(s) && IsSession(s, id)
    ensures Inv(HandleWrite(s, id, results)) && Frame(s, HandleWrite(s, id, results))
  {
    var c := s.objects[id].conn;
    RecordedKept(c, [], [], results, 0);
    UpdateKeeps(s, id, Flush(c, results), Drains(c, results), false);
  }

  /** Only the connection's history changes. */
  lemma InputKeeps(s: State, id: Id, c: Conn)
    requires Inv(s) && IsSession(s, id) && Recorded(c)
    requires c.output == s.objects[id].conn.output && c.idle == s.objects[id].conn.idle
    ensures Inv(WithConn(s, id, c)) && Frame(s, WithConn(s, id, c)) && IsSession(WithConn(s, id, c), id)
  {
    assert Placed(s, id);
    UpdateKeeps(s, id, c, false, false);
  }

  lemma SessionRecorded(s: State, id: Id)
    requires Inv(s) && IsSession(s, id)
    ensures Recorded(s.objects[id].conn)
  {}

  lemma ServeKeeps(s: State, id: Id, onRead: OnRead)
    requires Inv(s) && IsSession(s, id)
    ensures Inv(Serve(s, id, onRead)) && Frame(s, Serve(s, id, onRead))
  {
    var c := s.objects[id].conn;
    var input := c.input.stream.content;
    SessionRecorded(s, id);
    RecordedKept(c, [], [], [], 0);
    InputKeeps(s, id, Deliver(c));
    var d := WithConn(s, id, Deliver(c));
    SendAllKeeps(d, id, Sends(onRead, input));
    var r := SendAll(d, id, Sends(onRead, input));
    SessionRecorded(r, id);
    RecordedKept(r.objects[id].conn, [], [], [], Consumed(onRead, input));
    InputKeeps(r, id, Consume(r.objects[id].conn, Consumed(onRead, input)));
  }

  lemma HandleReadKeeps(s: State, id: Id, recv: seq<RecvResult>, onRead: OnRead)
    requires Inv(s) && IsSession(s, id)
    ensures Inv(HandleRead(s, id, recv, onRead)) && Frame(s, HandleRead(s, id, recv, onRead))
  {
    var c := Receive(s.objects[id].conn, recv);
    SessionRecorded(s, id);
    RecordedKept(s.objects[id].conn, [], recv, [], 0);
    InputKeeps(s, id, c);
    if ReadReturn(recv) <= 0 {
      RetireKeeps(WithConn(s, id, c), id);
    } else {
      ServeKeeps(WithConn(s, id, c), id, onRead);
    }
  }

  lemma HandleKeeps(s: State, id: Id, kind: Kind, cb: Callback)
    requires Inv(s) && id in s.objects
    ensures Inv(Handle(s, id, kind, cb)) && Frame(s, Handle(s, id, kind, cb))
  {
    LifeTurns(s.trace, Called(id, kind));
    var t := s.(trace := s.trace + [Called(id, kind)]);
    assert Inv(t) by {
      forall x | x in t.objects ensures Placed(t, x) { assert Placed(s, x); }
    }
    if t.objects[id].Session? {
      match kind {
        case READ => HandleReadKeeps(t, id, cb.recv, cb.onRead);
        case WRITE => HandleWriteKeeps(t, id, cb.send);
        case ERROR => RetireKeeps(t, id);
      }
    }
  }

  lemma PushKeeps(s: State, task: Task)
    requires Inv(s)
    ensures Inv(PushTask(s, task)) && Frame(s, PushTask(s, task))
  {
    var r := PushTask(s, task);
    forall x | x in r.objects ensures Placed(r, x) { assert Placed(s, x); }
  }

  lemma ActKeeps(s: State, a: Action, self: Option<Id>)
    requires Inv(s)
    ensures Inv(Act(s, a, self)) && Frame(s, Act(s, a, self))
  {
    match a {
      case SendTo(id, data) => SendKeeps(s, id, data);
      case CloseSession(id) => if IsSession(s, id) { RetireKeeps(s, id); }
      case OpenSession(fd) => CreateKeeps(s, Session(fd, Connections.FRESH), 0);
      case StartPlain(fd, fault) => CreateKeeps(s, Plain(fd), fault);
      case StopPlain(id, fault) => if id in s.objects { StopKeeps(s, id, fault); }
      case Post(task) => PushKeeps(s, task);
    }
  }

  lemma {:induction false} ExecKeeps(s: State, actions: seq<Action>, self: Option<Id>)
    requires Inv(s)
    ensures Inv(Exec(s, actions, self)) && Frame(s, Exec(s, actions, self))
  {
    if actions == [] {
    } else {
      ExecKeeps(s, actions[..|actions| - 1], self);
      ActKeeps(Exec(s, actions[..|actions| - 1], self), actions[|actions| - 1], self);
    }
  }

  /** After the lookup the invariant still holds, and a pointer that was found is to a handler that
  exists, registered under the descriptor of the event. */
  lemma NextKeeps(s: State)
    requires Inv(s) && s.batch != []
    ensures Inv(Next(s))
    ensures var found := Lookup(s.loop, s.batch[0].fd).1; found.Some? ==> found.value in s.objects && s.objects[found.value].fd == s.batch[0].fd
    ensures forall id: Id :: id in s.objects ==> (s.objects[id].fd == s.batch[0].fd <==> Lookup(s.loop, s.batch[0].fd).1 == Some(id))
  {
    var fd := s.batch[0].fd;
    AgreementKept(s.loop, fd, true, false, 0, 0);
    forall id: Id | id in s.objects
      ensures Placed(Next(s), id) && (s.objects[id].fd == fd <==> Lookup(s.loop, fd).1 == Some(id))
    {
      assert Placed(s, id);
      if Lookup(s.loop, fd).1 == Some(id) { assert Live(s.loop, fd); }
    }
    if Lookup(s.loop, fd).1.Some? { assert Live(s.loop, fd); }
  }

  lemma DispatchKeeps(s: State, cb: Callback)
    requires Inv(s) && s.batch != []
    ensures Inv(DispatchOne(s, cb)) && DispatchOne(s, cb).loop.backend == s.loop.backend
    ensures DispatchOne(s, cb).batch == s.batch[1..] && DispatchOne(s, cb).pc == if s.batch[1..] == [] then POPPING else DISPATCHING
  {
    NextKeeps(s);
    var found := Lookup(s.loop, s.batch[0].fd).1;
    if found.Some? {
      HandleKeeps(Next(s), found.value, s.batch[0].kind, cb);
      ExecKeeps(Handle(Next(s), found.value, s.batch[0].kind, cb), cb.actions, found);
    }
  }

  lemma InvokeKeeps(s: State)
    requires Inv(s) && s.pc == INVOKING
    ensures Inv(InvokeTask(s)) && InvokeTask(s).loop.backend == s.loop.backend
  {
    var t := s.(pc := POPPING, executed := s.executed + [s.fun.value]);
    assert Inv(t) by {
      forall x | x in t.objects ensures Placed(t, x) { assert Placed(s, x); }
    }
    ExecKeeps(t, s.fun.value.body, None);
  }

  /** A step that touches neither handlers nor the table. */
  lemma OnlyControl(s: State, r: State)
    requires Inv(s) && TaskInv(r) && r.loop == s.loop && r.objects == s.objects && r.next == s.next && r.trace == s.trace && !r.fault
    ensures Inv(r)
  {
    forall x | x in r.objects ensures Placed(r, x) { assert Placed(s, x); }
  }

  lemma StepKeeps(s: State, l: Label)
    requires Inv(s) && Enabled(s, l)
    ensures Inv(Apply(s, l)) && Apply(s, l).loop.backend == s.loop.backend
  {
    match l {
      case Setup(a) => ActKeeps(s, a, None);
      case Dispatch(cb) => DispatchKeeps(s, cb);
      case Invoke => InvokeKeeps(s);
      case Push(task) => PushKeeps(s, task);
      case Pop =>
        if s.queue != [] { assert s.queue == [s.queue[0]] + s.queue[1..]; }
        OnlyControl(s, PopTask(s));
      case Poll(ready) => OnlyControl(s, Polled(s, ready));
      case Quit => OnlyControl(s, s.(quit := true));
    }
  }

  // ---- theorems over all runs -------------------------------------------------------------

  /** Every reachable state, on each of the three backends. */
  lemma {:induction false} RunKeeps(backend: Backend, labels: seq<Label>)
    requires IsRun(backend, labels)
    ensures Inv(After(backend, labels)) && After(backend, labels).loop.backend == backend
  {
    if labels == [] {
    } else {
      var front := labels[..|labels| - 1];
      RunKeeps(backend, front);
      StepKeeps(After(backend, front), labels[|labels| - 1]);
    }
  }

  /** In every reachable state the descriptors with a handler are the ones the dispatcher watches,
  each handler is registered under its own descriptor, and no descriptor has two. */
  lemma TableAgrees(backend: Backend, labels: seq<Label>)
    requires IsRun(backend, labels)
    ensures var s := After(backend, labels);
            && (forall fd :: Live(s.loop, fd) <==> fd in s.loop.interest)
            && (forall fd :: Live(s.loop, fd) ==> Owner(s, fd) in s.objects && s.objects[Owner(s, fd)].fd == fd)
            && (forall id :: id in s.objects ==> Live(s.loop, s.objects[id].fd) && Owner(s, s.objects[id].fd) == id)
  {
    RunKeeps(backend, labels);
    var s := After(backend, labels);
    forall id | id in s.objects ensures Live(s.loop, s.objects[id].fd) && Owner(s, s.objects[id].fd) == id {
      assert Placed(s, id);
    }
  }

  /** No callback after close: the pointer a dispatch finds is to a handler that exists, even when
  earlier callbacks of the same batch closed handlers; and in the calls user code has seen, every
  handler is born once, then called, then dies at most once, after which it is not heard of again. */
  lemma NoCallbackAfterClose(backend: Backend, labels: seq<Label>)
    requires IsRun(backend, labels)
    ensures var s := After(backend, labels);
            && !s.fault
            && (s.batch != [] ==> var found := Lookup(s.loop, s.batch[0].fd).1;
                 found.Some? ==> found.value in s.objects && s.objects[found.value].fd == s.batch[0].fd)
            && (forall i, j :: 0 <= i < j < |s.trace| && s.trace[i].id == s.trace[j].id ==> !s.trace[i].Died? && !s.trace[j].Born?)
            && (forall j :: 0 <= j < |s.trace| && !s.trace[j].Born? ==> exists i :: 0 <= i < j && s.trace[i] == Born(s.trace[j].id))
            && (forall id: Id :: id in s.objects <==> Born(id) in s.trace && Died(id) !in s.trace)
  {
    RunKeeps(backend, labels);
    var s := After(backend, labels);
    if s.batch != [] { NextKeeps(s); }
    forall id: Id ensures LifeOf(s.trace, id) != BROKEN { }
    forall i, j | 0 <= i < j < |s.trace| && s.trace[i].id == s.trace[j].id ensures !s.trace[i].Died? && !s.trace[j].Born? {
      LifeMeaning(s.trace, s.trace[i].id);
    }
    forall j | 0 <= j < |s.trace| && !s.trace[j].Born? ensures exists i :: 0 <= i < j && s.trace[i] == Born(s.trace[j].id) {
      LifeMeaning(s.trace, s.trace[j].id);
    }
    forall id: Id ensures id in s.objects <==> Born(id) in s.trace && Died(id) !in s.trace {
      LifeMeaning(s.trace, id);
      AliveIffBorn(s.trace, id);
    }
  }

  lemma AliveIffBorn(trace: seq<Call>, id: Id)
    requires LifeOf(trace, id) != BROKEN
    ensures LifeOf(trace, id) == ALIVE <==> Born(id) in trace && Died(id) !in trace
  {
    LifeMeaning(trace, id);
    if LifeOf(trace, id) == ALIVE {
      var j :| 0 <= j < |trace| && trace[j].id == id;
      if !trace[j].Born? {
        var i :| 0 <= i < j && trace[i] == Born(id);
      }
    } else if Born(id) in trace {
      var i :| 0 <= i < |trace| && trace[i] == Born(id);
    }
  }

  /** No waiting byte is stranded: write interest is armed exactly while bytes wait or the last send
  was of nothing into an empty buffer. */
  lemma ArmedIffPending(backend: Backend, labels: seq<Label>, id: Id)
    requires IsRun(backend, labels) && IsSession(After(backend, labels), id)
    ensures var s := After(backend, labels); var o := s.objects[id];
            o.fd in s.loop.interest && (s.loop.interest[o.fd].writeable <==> o.conn.output.stream.content != [] || o.conn.idle)
            && (s.loop.interest[o.fd].readable <==> backend != EPOLL || !s.loop.interest[o.fd].writeable)
  {
    RunKeeps(backend, labels);
  }

  /** On every run of every backend, whatever user code sends from wherever: each open connection's
  output is what its history of puts and takes made it, every byte put is on the wire, waits, or was
  replaced, and the output is first-in first-out exactly when every put found the put position at
  the end. */
  lemma OutputInOrderIff(backend: Backend, labels: seq<Label>, id: Id)
    requires IsRun(backend, labels) && IsSession(After(backend, labels), id)
    ensures var p := After(backend, labels).objects[id].conn.output;
            && p == Replay(p.ops)
            && multiset(p.taken) + multiset(p.stream.content) + multiset(p.lost) == multiset(p.put)
            && (p.taken + p.stream.content == p.put <==> CleanPuts(p.ops))
  {
    RunKeeps(backend, labels);
    RecordedLedger(After(backend, labels).objects[id].conn);
  }

  /** The same of its input: what recv delivered is consumed, waits, or was replaced, and it reaches
  on_read in order exactly when every read found a clean input buffer. */
  lemma InputInOrderIff(backend: Backend, labels: seq<Label>, id: Id)
    requires IsRun(backend, labels) && IsSession(After(backend, labels), id)
    ensures var p := After(backend, labels).objects[id].conn.input;
            && p == Replay(p.ops)
            && multiset(p.taken) + multiset(p.stream.content) + multiset(p.lost) == multiset(p.put)
            && (p.taken + p.stream.content == p.put <==> CleanPuts(p.ops))
  {
    RunKeeps(backend, labels);
    RecordedLedger(After(backend, labels).objects[id].conn);
  }

  /** Right after a zero-length send into an empty buffer, on epoll: the next poll does not report the
  session readable, and a writable event changes nothing. */
  lemma EmptySendStalls(s: State, id: Id, results: seq<SendResult>, ready: seq<Event>)
    requires Inv(s) && s.loop.backend == EPOLL && IsSession(s, id) && s.objects[id].conn.output.stream.content == []
    requires Allowed(Send(s, id, []).loop.interest, ready)
    ensures var r := Send(s, id, []);
            Event(s.objects[id].fd, READ) !in ready && HandleWrite(r, id, results) == r
  {
    assert Placed(s, id);
    SendKeeps(s, id, []);
    var r := Send(s, id, []);
    assert Placed(r, id);
    assert WithConn(r, id, r.objects[id].conn).objects == r.objects;
  }

  /** Every task is executed once, in the order the lock admitted the pushes, whatever pushes happen
  meanwhile; and the functor is never called before a pop has filled it. */
  lemma TasksExactlyOnce(backend: Backend, labels: seq<Label>)
    requires IsRun(backend, labels)
    ensures var s := After(backend, labels);
            && (s.pc == INVOKING ==> s.fun.Some?)
            && s.pushed == s.executed + (if s.pc == INVOKING then [s.fun.value] else []) + s.queue
            && (s.pc == POLLING && s.queue == [] ==> s.executed == s.pushed)
  {
    RunKeeps(backend, labels);
  }
}
