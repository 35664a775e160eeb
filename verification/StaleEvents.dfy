/** Which handler an event of a batch goes to: the loop remembers the descriptor, not the handler. */
module StaleEvents {
  import opened Dispatching
  import opened LoopTable
  import opened ReactorModel
  import opened ReactorSafety
  import opened Evolution

  /** Since `s0` the handlers that stay have kept their descriptors, and events were only taken from
  the batch `ready`. */
  ghost predicate Since(s0: State, ready: seq<Event>, s: State) {
    && s.next >= s0.next
    && (forall id: Id :: id in s.objects && id < s0.next ==> id in s0.objects && s.objects[id].fd == s0.objects[id].fd)
    && forall e :: e in s.batch ==> e in ready
  }

  lemma BatchShrinks(s: State, l: Label)
    requires Inv(s) && Enabled(s, l) && !l.Poll?
    ensures forall e :: e in Apply(s, l).batch ==> e in s.batch
  {
    match l {
      case Dispatch(cb) => DispatchKeeps(s, cb);
      case Setup(a) => ActKeeps(s, a, None);
      case Invoke =>
        var t := s.(pc := POPPING, executed := s.executed + [s.fun.value]);
        assert Inv(t) by {
          forall x | x in t.objects ensures Placed(t, x) { assert Placed(s, x); }
        }
        ExecKeeps(t, s.fun.value.body, None);
      case _ =>
    }
  }

  lemma {:induction false} SincePoll(backend: Backend, before: seq<Label>, ready: seq<Event>, more: seq<Label>)
    requires IsRun(backend, before) && IsRun(backend, before + [Poll(ready)] + more)
    requires forall l :: l in more ==> !l.Poll?
    ensures Since(After(backend, before), ready, After(backend, before + [Poll(ready)] + more))
    decreases |more|
  {
    var polled := before + [Poll(ready)];
    if more == [] {
      assert polled + more == polled && polled[..|polled| - 1] == before;
    } else {
      var front, l, all := more[..|more| - 1], more[|more| - 1], polled + more;
      assert all[..|all| - 1] == polled + front;
      assert l in more && forall x :: x in front ==> x in more;
      SincePoll(backend, before, ready, front);
      RunKeeps(backend, polled + front);
      StepEvolves(After(backend, polled + front), l);
      BatchShrinks(After(backend, polled + front), l);
    }
  }

  /** In every run, the handler that the next event of a batch is dispatched to is the one whose
  descriptor was polled, or was born since that poll. */
  lemma PolledOrYounger(backend: Backend, before: seq<Label>, ready: seq<Event>, more: seq<Label>)
    requires IsRun(backend, before) && IsRun(backend, before + [Poll(ready)] + more)
    requires (forall l :: l in more ==> !l.Poll?) && After(backend, before + [Poll(ready)] + more).batch != []
    ensures var s0, s := After(backend, before), After(backend, before + [Poll(ready)] + more);
            var e := s.batch[0]; var found := Lookup(s.loop, e.fd).1;
            && e in ready && Live(s0.loop, e.fd)
            && (found.Some? ==> found.value == Owner(s0, e.fd) || found.value >= s0.next)
  {
    SincePoll(backend, before, ready, more);
    RunKeeps(backend, before);
    RunKeeps(backend, before + [Poll(ready)] + more);
    var s0, s := After(backend, before), After(backend, before + [Poll(ready)] + more);
    NextKeeps(s);
    assert s.batch[0] in s.batch;
    PollAllowed(backend, before, ready, more);
    var found := Lookup(s.loop, s.batch[0].fd).1;
    if found.Some? && found.value < s0.next {
      assert Placed(s0, found.value);
    }
  }

  lemma {:induction false} PollAllowed(backend: Backend, before: seq<Label>, ready: seq<Event>, more: seq<Label>)
    requires IsRun(backend, before) && IsRun(backend, before + [Poll(ready)] + more)
    ensures Allowed(After(backend, before).loop.interest, ready)
    decreases |more|
  {
    var all := before + [Poll(ready)] + more;
    if more == [] {
      assert all[..|all| - 1] == before;
    } else {
      assert all[..|all| - 1] == before + [Poll(ready)] + more[..|more| - 1];
      PollAllowed(backend, before, ready, more[..|more| - 1]);
    }
  }

  // ---- a stale event ----------------------------------------------------------------------

  /** The first handler's callback closes the second and opens a third on its descriptor. */
  function Reusing(): Callback { Callback([], [], Echo, [CloseSession(1), OpenSession(6)]) }

  function BothReady(): seq<Event> { [Event(5, READ), Event(6, READ)] }

  lemma TwoHandlers(backend: Backend)
    ensures var labels := [Setup(StartPlain(5, 0)), Setup(OpenSession(6))]; IsRun(backend, labels)
    ensures var s := After(backend, [Setup(StartPlain(5, 0)), Setup(OpenSession(6))]);
            && s.pc == POLLING && !s.quit && s.next == 2
            && s.objects == map[0 := Plain(5), 1 := Session(6, Connections.FRESH)]
            && s.loop == Loop(backend, map[5 := Some(0), 6 := Some(1)], map[5 := Interest(true, false), 6 := Interest(true, false)])
  {
    var first := [Setup(StartPlain(5, 0))];
    OneMore(backend, [], Setup(StartPlain(5, 0)));
    assert [] + first == first;
    var s := After(backend, first);
    assert s.objects == map[0 := Plain(5)] && s.loop == Loop(backend, map[5 := Some(0)], map[5 := Interest(true, false)]);
    OneMore(backend, first, Setup(OpenSession(6)));
    assert first + [Setup(OpenSession(6))] == [Setup(StartPlain(5, 0)), Setup(OpenSession(6))];
  }

  /** The callback's two actions. */
  lemma ReuseActs(s: State)
    requires s.next == 2 && 6 in s.loop.table && 6 in s.loop.interest && FdOk(s.loop.backend, 6)
    requires IsSession(s, 1) && s.objects[1].fd == 6
    ensures var r := Exec(s, [CloseSession(1), OpenSession(6)], Some(0));
            r.batch == s.batch && 6 in r.loop.table && r.loop.table[6] == Some(2)
  {
    var actions := [CloseSession(1), OpenSession(6)];
    assert actions[..1] == [CloseSession(1)] && actions[..1][..0] == [];
    assert Exec(s, [CloseSession(1)], Some(0)) == Act(Exec(s, [], Some(0)), CloseSession(1), Some(0));
    var m := Retire(s, 1);
    assert Exec(s, actions, Some(0)) == Act(m, OpenSession(6), Some(0));
  }

  /** On every backend there is a run in which an event polled for one handler is dispatched to
  another that was born since. */
  lemma EventReachesNewHandler(backend: Backend) returns (before: seq<Label>, more: seq<Label>)
    ensures IsRun(backend, before) && IsRun(backend, before + [Poll(BothReady())] + more) && forall l :: l in more ==> !l.Poll?
    ensures var s0, s := After(backend, before), After(backend, before + [Poll(BothReady())] + more);
            && s.batch == [Event(6, READ)]
            && Live(s0.loop, 6) && Owner(s0, 6) == 1 && s0.next == 2 && Lookup(s.loop, 6).1 == Some(2)
  {
    before, more := [Setup(StartPlain(5, 0)), Setup(OpenSession(6))], [Dispatch(Reusing())];
    TwoHandlers(backend);
    var s0 := After(backend, before);
    OneMore(backend, before, Poll(BothReady()));
    var s := Polled(s0, BothReady());
    assert s.batch[1..] == [Event(6, READ)];
    OneMore(backend, before + [Poll(BothReady())], Dispatch(Reusing()));
    var t := Handle(Next(s), 0, READ, Reusing());
    assert DispatchOne(s, Reusing()) == Exec(t, [CloseSession(1), OpenSession(6)], Some(0));
    ReuseActs(t);
  }
}
