/** Programs that never send nothing: on their runs write interest is armed exactly while bytes wait. */
module NonEmptySends {
  import opened Streams
  import opened Dispatching
  import opened LoopTable
  import opened Connections
  import opened ReactorModel
  import opened ReactorSafety

  /** Every send made by the action, or by the tasks it posts, has something to send. */
  predicate FullAction(a: Action) {
    match a
    case SendTo(_, data) => data != []
    case Post(task) => forall b :: b in task.body ==> FullAction(b)
    case _ => true
  }

  predicate FullActions(actions: seq<Action>) { forall a :: a in actions ==> FullAction(a) }

  predicate AllFull(sends: seq<Bytes>) { forall i :: 0 <= i < |sends| ==> sends[i] != [] }

  predicate FullLabel(l: Label) {
    match l
    case Dispatch(cb) => (cb.onRead.Custom? ==> AllFull(cb.onRead.sends)) && FullActions(cb.actions)
    case Push(task) => FullActions(task.body)
    case Setup(a) => FullAction(a)
    case _ => true
  }

  /** No session has last been sent nothing, and no queued task will send nothing. */
  ghost predicate FullInv(s: State) {
    && (forall id :: IsSession(s, id) ==> !s.objects[id].conn.idle)
    && (forall t :: t in s.queue ==> FullActions(t.body))
    && (s.fun.Some? ==> FullActions(s.fun.value.body))
  }

  lemma SendFull(s: State, id: Id, data: Bytes)
    requires FullInv(s) && data != []
    ensures FullInv(Send(s, id, data))
  {}

  lemma {:induction false} SendAllFull(s: State, id: Id, sends: seq<Bytes>)
    requires FullInv(s) && AllFull(sends)
    ensures FullInv(SendAll(s, id, sends))
  {
    if sends == [] {
    } else {
      SendAllFull(s, id, sends[..|sends| - 1]);
      SendFull(SendAll(s, id, sends[..|sends| - 1]), id, sends[|sends| - 1]);
    }
  }

  /** The echo handler sends what a successful read left in the input buffer, which is something. */
  lemma HandleReadFull(s: State, id: Id, recv: seq<RecvResult>, onRead: OnRead)
    requires FullInv(s) && IsSession(s, id) && (onRead.Custom? ==> AllFull(onRead.sends))
    ensures FullInv(HandleRead(s, id, recv, onRead))
  {
    var c := Receive(s.objects[id].conn, recv);
    if ReadReturn(recv) > 0 {
      assert |c.input.stream.content| >= |Received(recv)| > 0;
      SendAllFull(WithConn(WithConn(s, id, c), id, Deliver(c)), id, Sends(onRead, c.input.stream.content));
    }
  }

  lemma HandleFull(s: State, id: Id, kind: Kind, cb: Callback)
    requires FullInv(s) && id in s.objects && (cb.onRead.Custom? ==> AllFull(cb.onRead.sends))
    ensures FullInv(Handle(s, id, kind, cb))
  {
    if IsSession(s, id) && kind == READ {
      HandleReadFull(s.(trace := s.trace + [Called(id, kind)]), id, cb.recv, cb.onRead);
    }
  }

  lemma ActFull(s: State, a: Action, self: Option<Id>)
    requires FullInv(s) && FullAction(a)
    ensures FullInv(Act(s, a, self))
  {
    if a.SendTo? {
      SendFull(s, a.id, a.data);
    }
  }

  lemma {:induction false} ExecFull(s: State, actions: seq<Action>, self: Option<Id>)
    requires FullInv(s) && FullActions(actions)
    ensures FullInv(Exec(s, actions, self))
  {
    if actions == [] {
    } else {
      var a := actions[|actions| - 1];
      assert a in actions && forall b :: b in actions[..|actions| - 1] ==> b in actions;
      ExecFull(s, actions[..|actions| - 1], self);
      ActFull(Exec(s, actions[..|actions| - 1], self), a, self);
    }
  }

  lemma StepFull(s: State, l: Label)
    requires FullInv(s) && Enabled(s, l) && FullLabel(l)
    ensures FullInv(Apply(s, l))
  {
    match l {
      case Dispatch(cb) =>
        var found := Lookup(s.loop, s.batch[0].fd).1;
        if found.Some? && found.value in Next(s).objects {
          HandleFull(Next(s), found.value, s.batch[0].kind, cb);
          ExecFull(Handle(Next(s), found.value, s.batch[0].kind, cb), cb.actions, found);
        }
      case Invoke =>
        if s.fun.Some? {
          ExecFull(s.(pc := POPPING, executed := s.executed + [s.fun.value]), s.fun.value.body, None);
        }
      case Pop =>
      case Push(task) =>
      case Poll(ready) =>
      case Setup(a) => ActFull(s, a, None);
      case Quit =>
    }
  }

  lemma {:induction false} RunFull(backend: Backend, labels: seq<Label>)
    requires IsRun(backend, labels) && forall l :: l in labels ==> FullLabel(l)
    ensures FullInv(After(backend, labels))
  {
    if labels == [] {
    } else {
      var front, l := labels[..|labels| - 1], labels[|labels| - 1];
      assert l in labels && forall x :: x in front ==> x in labels;
      RunFull(backend, front);
      StepFull(After(backend, front), l);
    }
  }

  /** When nobody sends nothing, a connection is watched for writing exactly while bytes wait, and on
  epoll it is watched for reading exactly while none do. */
  lemma ArmedExactlyWhilePending(backend: Backend, labels: seq<Label>, id: Id)
    requires IsRun(backend, labels) && (forall l :: l in labels ==> FullLabel(l)) && IsSession(After(backend, labels), id)
    ensures var s := After(backend, labels); var o := s.objects[id];
            && o.fd in s.loop.interest
            && (s.loop.interest[o.fd].writeable <==> o.conn.output.stream.content != [])
            && (backend == EPOLL ==> (s.loop.interest[o.fd].readable <==> o.conn.output.stream.content == []))
  {
    RunFull(backend, labels);
    ArmedIffPending(backend, labels, id);
  }
}
