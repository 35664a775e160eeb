/** Programs in which only on_read sends, to its own connection and whatever it likes: acceptors,
timers, tasks and other handlers open and close at will. When is their output in order? */
module OnReadSends {
  import opened Streams
  import opened Dispatching
  import opened Lists
  import opened LoopTable
  import opened Connections
  import opened ReactorModel
  import opened ReactorSafety
  import opened Callbacks

  predicate QuietAction(a: Action) {
    match a
    case SendTo(_, _) => false
    case Post(task) => forall b :: b in task.body ==> QuietAction(b)
    case _ => true
  }

  predicate Quiet(actions: seq<Action>) { forall a :: a in actions ==> QuietAction(a) }

  predicate QuietLabel(l: Label) {
    match l
    case Dispatch(cb) => Quiet(cb.actions)
    case Push(task) => Quiet(task.body)
    case Setup(a) => QuietAction(a)
    case _ => true
  }

  ghost predicate QuietRun(backend: Backend, labels: seq<Label>) {
    IsRun(backend, labels) && forall l :: l in labels ==> QuietLabel(l)
  }

  /** All queued tasks are quiet. */
  ghost predicate QuietInv(s: State) {
    (forall t :: t in s.queue ==> Quiet(t.body)) && (s.fun.Some? ==> Quiet(s.fun.value.body))
  }

  /** Quiet code neither touches the connections that stay nor leaves new ones used. */
  ghost predicate Untouched(s: State, r: State) {
    && (forall id: Id :: IsSession(r, id) ==>
         (IsSession(s, id) && r.objects[id] == s.objects[id]) || (id >= s.next && r.objects[id].conn == Connections.FRESH))
    && r.next >= s.next && r.batch == s.batch && r.fun == s.fun
    && (forall t :: t in r.queue ==> t in s.queue || Quiet(t.body))
  }

  lemma {:induction false} QuietExec(s: State, actions: seq<Action>, self: Option<Id>)
    requires Quiet(actions)
    ensures Untouched(s, Exec(s, actions, self))
  {
    if actions == [] {
    } else {
      var a := actions[|actions| - 1];
      assert a in actions && forall b :: b in actions[..|actions| - 1] ==> b in actions;
      QuietExec(s, actions[..|actions| - 1], self);
      var m := Exec(s, actions[..|actions| - 1], self);
      QuietAct(m, a, self);
      StillUntouched(s, m, Act(m, a, self));
    }
  }

  lemma QuietAct(s: State, a: Action, self: Option<Id>)
    requires QuietAction(a)
    ensures Untouched(s, Act(s, a, self))
  {}

  lemma StillUntouched(s: State, m: State, r: State)
    requires Untouched(s, m) && Untouched(m, r)
    ensures Untouched(s, r)
  {}

  // ---- one step ---------------------------------------------------------------------------

  /** The sessions after one dispatched event: the one that was hit is what its callback made of it,
  the others are as before, and new ones are fresh. */
  ghost predicate Outcome(s: State, r: State, hit: Option<Id>, kind: Kind, cb: Callback) {
    && r.next >= s.next
    && forall x: Id :: IsSession(r, x) ==>
         if !IsSession(s, x) then x >= s.next && r.objects[x].conn == Connections.FRESH
         else if hit != Some(x) then r.objects[x] == s.objects[x]
         else Survives(s.objects[x], kind, cb) && r.objects[x] == Changed(s.objects[x], kind, cb)
  }

  lemma Composed(t: State, h: State, r: State, id: Id, kind: Kind, cb: Callback)
    requires id in t.objects && CallbackEffect(t, h, id, kind, cb) && Untouched(h, r)
    requires forall x: Id :: IsSession(t, x) ==> x < t.next
    ensures Outcome(t, r, Some(id), kind, cb)
  {}

  lemma DispatchEffect(s: State, cb: Callback)
    requires Inv(s) && QuietInv(s) && s.batch != [] && Quiet(cb.actions)
    ensures QuietInv(DispatchOne(s, cb))
    ensures Outcome(s, DispatchOne(s, cb), Lookup(s.loop, s.batch[0].fd).1, s.batch[0].kind, cb)
  {
    FoundEffect(s, cb);
    var t, found := Next(s), Lookup(s.loop, s.batch[0].fd).1;
    if found.Some? {
      var h := Handle(t, found.value, s.batch[0].kind, cb);
      QuietExec(h, cb.actions, found);
      NextKeeps(s);
      forall x: Id | IsSession(t, x) ensures x < t.next { assert Placed(t, x); }
      Composed(t, h, Exec(h, cb.actions, found), found.value, s.batch[0].kind, cb);
    }
  }

  lemma QuietStep(s: State, l: Label)
    requires Inv(s) && QuietInv(s) && Enabled(s, l) && QuietLabel(l)
    ensures QuietInv(Apply(s, l))
  {
    match l {
      case Dispatch(cb) => DispatchEffect(s, cb);
      case Invoke => QuietExec(s.(pc := POPPING, executed := s.executed + [s.fun.value]), s.fun.value.body, None);
      case Setup(a) => QuietAct(s, a, None);
      case _ =>
    }
  }

  // ---- the exact condition, on every backend ----------------------------------------------

  /** The step is a readable event for this session whose on_read has something to send and finds
  unsent bytes behind the put position. */
  ghost predicate DirtyStep(s: State, l: Label, id: Id) {
    && l.Dispatch? && s.batch != [] && s.batch[0].kind == READ
    && IsSession(s, id) && s.objects[id].fd == s.batch[0].fd && ReadReturn(l.cb.recv) > 0
    && !Clean(s.objects[id].conn.output.stream) && Speaks(Answers(s.objects[id].conn, l.cb))
  }

  ghost predicate DirtyRun(backend: Backend, labels: seq<Label>, id: Id)
    requires IsRun(backend, labels)
  {
    labels != [] &&
    var front := labels[..|labels| - 1];
    DirtyRun(backend, front, id) || DirtyStep(After(backend, front), labels[|labels| - 1], id)
  }

  /** What one step does to the output of the sessions that outlive it. */
  ghost predicate StepEffect(s: State, l: Label, r: State) {
    && r.next >= s.next
    && forall id: Id :: IsSession(r, id) ==>
         if IsSession(s, id) then
           |r.objects[id].conn.output.lost| >= |s.objects[id].conn.output.lost|
           && (|r.objects[id].conn.output.lost| == |s.objects[id].conn.output.lost| <==> !DirtyStep(s, l, id))
         else id >= s.next && r.objects[id].conn.output.lost == []
  }

  lemma DispatchStepEffect(s: State, cb: Callback)
    requires Inv(s) && QuietInv(s) && s.batch != [] && Quiet(cb.actions)
    ensures StepEffect(s, Dispatch(cb), DispatchOne(s, cb))
  {
    DispatchEffect(s, cb);
    NextKeeps(s);
    var r := DispatchOne(s, cb);
    forall id: Id | IsSession(r, id) && IsSession(s, id) && Lookup(s.loop, s.batch[0].fd).1 == Some(id)
      ensures |r.objects[id].conn.output.lost| >= |s.objects[id].conn.output.lost|
      ensures |r.objects[id].conn.output.lost| == |s.objects[id].conn.output.lost| <==> !DirtyStep(s, Dispatch(cb), id)
    {
      ConnAfterLoses(s.objects[id].conn, s.batch[0].kind, cb);
    }
  }

  lemma StepEffects(s: State, l: Label)
    requires Inv(s) && QuietInv(s) && Enabled(s, l) && QuietLabel(l)
    ensures StepEffect(s, l, Apply(s, l))
  {
    match l {
      case Dispatch(cb) => DispatchStepEffect(s, cb);
      case Invoke => QuietExec(s.(pc := POPPING, executed := s.executed + [s.fun.value]), s.fun.value.body, None);
      case Setup(a) => QuietAct(s, a, None);
      case _ =>
    }
  }

  /** On every backend such a run has lost output of a session exactly when some step of it was dirty. */
  lemma {:induction false} QuietRunKeeps(backend: Backend, labels: seq<Label>)
    requires QuietRun(backend, labels)
    ensures Inv(After(backend, labels)) && QuietInv(After(backend, labels))
    ensures forall id :: IsSession(After(backend, labels), id) ==>
              (After(backend, labels).objects[id].conn.output.lost == [] <==> !DirtyRun(backend, labels, id))
    ensures forall id: Id :: id >= After(backend, labels).next ==> !DirtyRun(backend, labels, id)
  {
    RunKeeps(backend, labels);
    if labels == [] {
    } else {
      var front, l := labels[..|labels| - 1], labels[|labels| - 1];
      assert forall x :: x in front ==> x in labels;
      QuietRunKeeps(backend, front);
      var s := After(backend, front);
      QuietStep(s, l);
      StepEffects(s, l);
      forall id: Id | IsSession(s, id) ensures id < s.next { assert Placed(s, id); }
    }
  }

  /** The output of an open connection is first-in first-out exactly when none of its reads was dirty. */
  lemma FifoIffNeverDirty(backend: Backend, labels: seq<Label>, id: Id)
    requires QuietRun(backend, labels) && IsSession(After(backend, labels), id)
    ensures Fifo(After(backend, labels).objects[id].conn.output) <==> !DirtyRun(backend, labels, id)
  {
    QuietRunKeeps(backend, labels);
    var c := After(backend, labels).objects[id].conn;
    RecordedLedger(c);
    FifoIffNothingLost(c.output);
  }

  // ---- the default backend ----------------------------------------------------------------

  /** Epoll does not report a descriptor readable while output waits, so what is left of a batch
  only reads connections with nothing to send. */
  ghost predicate BatchInv(s: State) {
    && NoDup(s.batch)
    && forall id :: IsSession(s, id) && Event(s.objects[id].fd, READ) in s.batch ==> s.objects[id].conn.output.stream.content == []
  }

  /** The event taken from the batch has no twin left. */
  lemma BatchDispatched(s: State, cb: Callback)
    requires Inv(s) && QuietInv(s) && BatchInv(s) && s.batch != [] && Quiet(cb.actions)
    ensures BatchInv(DispatchOne(s, cb))
  {
    DispatchEffect(s, cb);
    NextKeeps(s);
    DispatchKeeps(s, cb);
    var r, e := DispatchOne(s, cb), s.batch[0];
    assert forall x :: x in r.batch ==> x in s.batch && x != e;
    forall id | IsSession(r, id) && Event(r.objects[id].fd, READ) in r.batch ensures r.objects[id].conn.output.stream.content == [] {
      if IsSession(s, id) {
        assert r.objects[id].fd == s.objects[id].fd;
        assert s.objects[id].conn.output.stream.content == [];
        ConnAfterLoses(s.objects[id].conn, e.kind, cb);
      }
    }
  }

  lemma BatchClean(s: State, l: Label, id: Id)
    requires BatchInv(s)
    ensures !DirtyStep(s, l, id)
  {
    if s.batch != [] && IsSession(s, id) && s.batch[0] == Event(s.objects[id].fd, READ) {
      assert s.batch[0] in s.batch;
    }
  }

  lemma BatchKept(s: State, l: Label)
    requires Inv(s) && QuietInv(s) && BatchInv(s) && s.loop.backend == EPOLL && Enabled(s, l) && QuietLabel(l)
    ensures BatchInv(Apply(s, l))
  {
    match l {
      case Dispatch(cb) => BatchDispatched(s, cb);
      case Invoke =>
        QuietExec(s.(pc := POPPING, executed := s.executed + [s.fun.value]), s.fun.value.body, None);
        assert s.batch == [];
      case Setup(a) =>
        QuietAct(s, a, None);
        assert s.batch == [];
      case _ =>
    }
  }

  lemma {:induction false} EpollNeverDirty(labels: seq<Label>)
    requires QuietRun(EPOLL, labels)
    ensures BatchInv(After(EPOLL, labels)) && forall id: Id :: !DirtyRun(EPOLL, labels, id)
  {
    if labels == [] {
    } else {
      var front, l := labels[..|labels| - 1], labels[|labels| - 1];
      assert forall x :: x in front ==> x in labels;
      EpollNeverDirty(front);
      QuietRunKeeps(EPOLL, front);
      RunKeeps(EPOLL, front);
      BatchKept(After(EPOLL, front), l);
      forall id: Id ensures !DirtyStep(After(EPOLL, front), l, id) { BatchClean(After(EPOLL, front), l, id); }
    }
  }

  /** On the default backend, whatever on_read sends and consumes: what is on the wire followed by
  what still waits is exactly what on_read sent, in order. */
  lemma FifoOnEpoll(labels: seq<Label>, id: Id)
    requires QuietRun(EPOLL, labels) && IsSession(After(EPOLL, labels), id)
    ensures var p := After(EPOLL, labels).objects[id].conn.output; p.taken + p.stream.content == p.put
  {
    EpollNeverDirty(labels);
    FifoIffNeverDirty(EPOLL, labels, id);
  }
}
