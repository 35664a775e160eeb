/** A connection whose last send was of nothing into an empty buffer. On epoll it is watched for
writing only, and nothing but another send gets it out of that. */
module Stalls {
  import opened Streams
  import opened Dispatching
  import opened LoopTable
  import opened ReactorModel
  import opened ReactorSafety
  import opened Callbacks
  import opened Connections
  import opened Turns

  /** The action, with the tasks it posts, has no byte to send to handler `id`. */
  predicate Spares(a: Action, id: Id) {
    match a
    case SendTo(x, data) => x != id || data == []
    case Post(task) => forall b :: b in task.body ==> Spares(b, id)
    case _ => true
  }

  predicate AllSpare(actions: seq<Action>, id: Id) { forall a :: a in actions ==> Spares(a, id) }

  predicate SparesLabel(l: Label, id: Id) {
    match l
    case Dispatch(cb) => AllSpare(cb.actions, id)
    case Push(task) => AllSpare(task.body, id)
    case Setup(a) => Spares(a, id)
    case _ => true
  }

  ghost predicate TasksSpare(s: State, id: Id) {
    && (forall t :: t in s.queue ==> AllSpare(t.body, id))
    && (s.pc == INVOKING && s.fun.Some? ==> AllSpare(s.fun.value.body, id))
  }

  /** In the calls from position `n` on, handler `id` is not read. */
  predicate NotRead(trace: seq<Call>, n: nat, id: Id) {
    n <= |trace| && forall j :: n <= j < |trace| ==> trace[j] != Called(id, READ)
  }

  /** The same session up to the history of what was put into its output, which was nothing. */
  predicate Same(o: Object, p: Object) {
    && o.Session? && p.Session? && p.fd == o.fd
    && p.conn.(output := p.conn.output.(ops := [])) == o.conn.(output := o.conn.output.(ops := []))
  }

  /** Handler `id` is gone or is still the session `o`, and it has not been read. */
  ghost predicate Stalled(s: State, id: Id, o: Object, n: nat) {
    && id < s.next && TasksSpare(s, id) && NotRead(s.trace, n, id)
    && (id in s.objects ==> Same(o, s.objects[id]) && Event(o.fd, READ) !in s.batch)
  }

  predicate Idle(o: Object) { o.Session? && o.conn.idle && o.conn.output.stream.content == [] }

  /** Sending nothing into an empty buffer is how it comes about. */
  lemma EmptySendIdles(s: State, id: Id)
    requires IsSession(s, id) && s.objects[id].fd in s.loop.interest && s.objects[id].conn.output.stream.content == []
    ensures IsSession(Send(s, id, []), id) && Idle(Send(s, id, []).objects[id])
  {
    SendConn(s, id, []);
    WriteNothing(s.objects[id].conn.output.stream);
  }

  /** Another send of nothing changes nothing either. */
  lemma EmptySendSame(c: Conn)
    requires c.idle && c.output.stream.content == []
    ensures PutData(c, []) == c.(output := c.output.(ops := c.output.ops + [Put([])]))
  {
    WriteNothing(c.output.stream);
    assert c.output.put + [] == c.output.put && c.output.lost + Replaced(c.output.stream, []) == c.output.lost;
  }

  lemma SendStalls(s: State, x: Id, data: Bytes, id: Id, o: Object, n: nat)
    requires Stalled(s, id, o, n) && Idle(o) && (x != id || data == [])
    ensures Stalled(Send(s, x, data), id, o, n)
  {
    if IsSession(s, x) && s.objects[x].fd in s.loop.interest {
      SendConn(s, x, data);
      if x == id { EmptySendSame(s.objects[id].conn); }
    }
  }

  lemma ActStalls(s: State, a: Action, self: Option<Id>, id: Id, o: Object, n: nat)
    requires Stalled(s, id, o, n) && Idle(o) && Spares(a, id)
    ensures Stalled(Act(s, a, self), id, o, n)
  {
    match a {
      case SendTo(x, data) => SendStalls(s, x, data, id, o, n);
      case _ =>
    }
  }

  lemma {:induction false} ExecStalls(s: State, actions: seq<Action>, self: Option<Id>, id: Id, o: Object, n: nat)
    requires Stalled(s, id, o, n) && Idle(o) && AllSpare(actions, id)
    ensures Stalled(Exec(s, actions, self), id, o, n)
  {
    if actions == [] {
    } else {
      var a := actions[|actions| - 1];
      assert a in actions && forall b :: b in actions[..|actions| - 1] ==> b in actions;
      ExecStalls(s, actions[..|actions| - 1], self, id, o, n);
      ActStalls(Exec(s, actions[..|actions| - 1], self), a, self, id, o, n);
    }
  }

  /** A callback that is not a read of this handler leaves it as it is, or ends it. */
  lemma CallStalls(s: State, r: State, hit: Id, kind: Kind, cb: Callback, id: Id, o: Object, n: nat)
    requires Stalled(s, id, o, n) && Idle(o) && hit in s.objects && CallbackEffect(s, r, hit, kind, cb)
    requires hit != id || kind != READ
    ensures Stalled(r, id, o, n)
  {}

  lemma DispatchStalls(s: State, cb: Callback, id: Id, o: Object, n: nat)
    requires Inv(s) && s.batch != [] && Stalled(s, id, o, n) && Idle(o) && AllSpare(cb.actions, id)
    ensures Stalled(DispatchOne(s, cb), id, o, n)
  {
    NextKeeps(s);
    FoundEffect(s, cb);
    var e, t, found := s.batch[0], Next(s), Lookup(s.loop, s.batch[0].fd).1;
    assert Stalled(t, id, o, n) by {
      assert forall x :: x in t.batch ==> x in s.batch;
    }
    if found.Some? {
      assert found.value == id ==> e.kind != READ by {
        assert e in s.batch && e == Event(e.fd, e.kind);
      }
      var h := Handle(t, found.value, e.kind, cb);
      CallStalls(t, h, found.value, e.kind, cb, id, o, n);
      ExecStalls(h, cb.actions, found, id, o, n);
    }
  }

  lemma StepStalls(s: State, l: Label, id: Id, o: Object, n: nat)
    requires Inv(s) && s.loop.backend == EPOLL && Enabled(s, l) && Stalled(s, id, o, n) && Idle(o) && SparesLabel(l, id)
    ensures Stalled(Apply(s, l), id, o, n)
  {
    match l {
      case Dispatch(cb) => DispatchStalls(s, cb, id, o, n);
      case Invoke => ExecStalls(s.(pc := POPPING, executed := s.executed + [s.fun.value]), s.fun.value.body, None, id, o, n);
      case Poll(ready) =>
        if id in s.objects {
          assert s.loop.interest[o.fd].writeable;
        }
      case Setup(a) => ActStalls(s, a, None, id, o, n);
      case _ =>
    }
  }

  /** From a state in which the session is idle and no read of it is left in the batch: however the
  run goes on, as long as no byte is sent to it, it is not read, and nothing else happens to it until
  it closes. */
  lemma {:induction false} StallsUntilSend(labels: seq<Label>, more: seq<Label>, id: Id)
    requires IsRun(EPOLL, labels + more) && IsRun(EPOLL, labels)
    requires var s := After(EPOLL, labels);
             && IsSession(s, id) && s.objects[id].conn.idle && Event(s.objects[id].fd, READ) !in s.batch && TasksSpare(s, id)
    requires forall l :: l in more ==> SparesLabel(l, id)
    ensures var s, r := After(EPOLL, labels), After(EPOLL, labels + more);
            && Stalled(r, id, s.objects[id], |s.trace|)
            && (id in r.objects ==> Same(s.objects[id], r.objects[id])) && NotRead(r.trace, |s.trace|, id)
    decreases |more|
  {
    var s := After(EPOLL, labels);
    RunKeeps(EPOLL, labels);
    assert Placed(s, id);
    if more == [] {
      assert labels + more == labels;
    } else {
      var front, l := more[..|more| - 1], more[|more| - 1];
      assert (labels + more)[..|labels + more| - 1] == labels + front;
      assert l in more && forall x :: x in front ==> x in more;
      StallsUntilSend(labels, front, id);
      RunKeeps(EPOLL, labels + front);
      StepStalls(After(EPOLL, labels + front), l, id, s.objects[id], |s.trace|);
    }
  }

  /** Such a state is reached: open a session and send it nothing. */
  lemma IdleReached() returns (labels: seq<Label>)
    ensures IsRun(EPOLL, labels)
    ensures var s := After(EPOLL, labels);
            && IsSession(s, 0) && Idle(s.objects[0]) && Event(s.objects[0].fd, READ) !in s.batch && TasksSpare(s, 0)
  {
    labels := OpenOne(EPOLL);
    labels := SendTurn(EPOLL, labels, Interest(true, false), Connections.FRESH, []);
    WriteNothing(EMPTY);
  }
}
