/** What ServiceLoop::run does in one turn, as labels of the state machine: a function of the turn's
inputs, of the events its wait reported, and of the number of functors it found queued. */
module RunLabels {
  import opened Dispatching
  import opened Lists
  import opened LoopTable
  import opened ReactorModel
  import opened EventDispatchers

  /** What other threads do between two steps of the loop. */
  datatype Arrival = Arrival(tasks: seq<Task>, quit: bool)

  /** What happens around one turn: the kernel's readiness, the callbacks, and what other threads do
  before the turn, before each dispatch, and before each pop and each call of a functor. */
  datatype TurnInput = TurnInput(k: Kernel, order: seq<int>, fault: nat, callbacks: seq<Callback>,
                                 waiting: Arrival, dispatching: seq<Arrival>, draining: seq<Arrival>)

  function ArrivalAt(arrivals: seq<Arrival>, i: nat): Arrival {
    if i < |arrivals| then arrivals[i] else Arrival([], false)
  }

  /** How many arrivals may still come. */
  function Arriving(arrivals: seq<Arrival>, i: nat): nat { if i < |arrivals| then |arrivals| - i else 0 }

  lemma ArrivalsEnd(arrivals: seq<Arrival>, i: nat)
    ensures Arriving(arrivals, i + 2) <= Arriving(arrivals, i)
    ensures Arriving(arrivals, i + 2) == Arriving(arrivals, i) ==> ArrivalAt(arrivals, i + 1).tasks == ArrivalAt(arrivals, i + 2).tasks == []
  {}

  function CallbackAt(callbacks: seq<Callback>, i: nat): Callback {
    if i < |callbacks| then callbacks[i] else Callback([], [], Echo, [])
  }

  /** The history `now` is `before` and then `gained`. */
  ghost predicate Follows(now: seq<Label>, before: seq<Label>, gained: seq<Label>) {
    |now| == |before| + |gained| && now[..|before|] == before && now[|before|..] == gained
  }

  lemma FollowsIff(now: seq<Label>, before: seq<Label>, gained: seq<Label>)
    ensures Follows(now, before, gained) <==> now == before + gained
  {
    if Follows(now, before, gained) {
      assert now == now[..|before|] + now[|before|..];
    }
  }

  lemma FollowsThen(first: seq<Label>, second: seq<Label>, third: seq<Label>, a: seq<Label>, b: seq<Label>)
    requires Follows(second, first, a) && Follows(third, second, b)
    ensures Follows(third, first, a + b)
  {
    FollowsIff(second, first, a);
    FollowsIff(third, second, b);
    FollowsIff(third, first, a + b);
    Regroup(first, a, b);
  }

  function PushLabels(tasks: seq<Task>): seq<Label> {
    if tasks == [] then [] else PushLabels(tasks[..|tasks| - 1]) + [Push(tasks[|tasks| - 1])]
  }

  function ArrivalLabels(a: Arrival): seq<Label> { PushLabels(a.tasks) + if a.quit then [Quit] else [] }

  function EventLabels(before: Arrival, cb: Callback): seq<Label> { ArrivalLabels(before) + [Dispatch(cb)] }

  /** The first `n` events of a batch, each dispatched once, in order. */
  function DispatchLabels(n: nat, callbacks: seq<Callback>, others: seq<Arrival>): seq<Label> {
    if n == 0 then []
    else DispatchLabels(n - 1, callbacks, others) + EventLabels(ArrivalAt(others, n - 1), CallbackAt(callbacks, n - 1))
  }

  function RoundLabels(before: Arrival, after: Arrival): seq<Label> {
    (ArrivalLabels(before) + [Invoke]) + (ArrivalLabels(after) + [Pop])
  }

  /** A pop, and after it `n` times a call and another pop. */
  function DrainLabels(n: nat, others: seq<Arrival>): seq<Label> {
    if n == 0 then ArrivalLabels(ArrivalAt(others, 0)) + [Pop]
    else DrainLabels(n - 1, others) + RoundLabels(ArrivalAt(others, 2 * n - 1), ArrivalAt(others, 2 * n))
  }

  lemma DrainFollows(start: seq<Label>, middle: seq<Label>, end: seq<Label>, n: nat, others: seq<Arrival>)
    requires Follows(middle, start, DrainLabels(n, others))
    requires Follows(end, middle, RoundLabels(ArrivalAt(others, 2 * n + 1), ArrivalAt(others, 2 * n + 2)))
    ensures Follows(end, start, DrainLabels(n + 1, others))
  {
    FollowsThen(start, middle, end, DrainLabels(n, others), RoundLabels(ArrivalAt(others, 2 * n + 1), ArrivalAt(others, 2 * n + 2)));
  }

  function TurnLabels(turn: TurnInput, ready: seq<Event>, tasks: nat): seq<Label> {
    [Poll(ready)] + DispatchLabels(|ready|, turn.callbacks, turn.dispatching) + DrainLabels(tasks, turn.draining)
  }

  /** The turns that were run, `readies` and `counts` being what each found. */
  function TurnsLabels(turns: seq<TurnInput>, readies: seq<seq<Event>>, counts: seq<nat>): seq<Label>
    requires |readies| == |counts| <= |turns|
  {
    if readies == [] then []
    else
      var n := |readies| - 1;
      TurnsLabels(turns, readies[..n], counts[..n]) + (ArrivalLabels(turns[n].waiting) + TurnLabels(turns[n], readies[n], counts[n]))
  }

  /** What the wait reports after the run `before`: nothing when it faults, and otherwise exactly what
  the backend sees of the kernel's state, on epoll provided the search finds every ready descriptor. */
  ghost predicate Reported(backend: Backend, before: seq<Label>, k: Kernel, order: seq<int>, fault: nat, ready: seq<Event>) {
    && IsRun(backend, before)
    && var interest := After(backend, before).loop.interest;
    && Allowed(interest, ready) && KindsInOrder(ready) && (fault != 0 ==> ready == [])
    && (fault == 0 && (backend == EPOLL ==> Finds(interest, k, order)) ==> Exact(interest, Sees(backend, k), ready))
  }

  /** What the loop has done after the turns given and what arrived since. */
  function UntilQuit(turns: seq<TurnInput>, readies: seq<seq<Event>>, counts: seq<nat>): seq<Label>
    requires |readies| == |counts| < |turns|
  {
    TurnsLabels(turns, readies, counts) + ArrivalLabels(turns[|readies|].waiting)
  }

  /** The `i`-th turn polls after the earlier ones and what arrived since. */
  ghost predicate TurnReported(backend: Backend, before: seq<Label>, turns: seq<TurnInput>, readies: seq<seq<Event>>, counts: seq<nat>, i: nat)
    requires |readies| == |counts| <= |turns| && i < |readies|
  {
    Reported(backend, before + UntilQuit(turns, readies[..i], counts[..i]), turns[i].k, turns[i].order, turns[i].fault, readies[i])
  }

  ghost predicate AllReported(backend: Backend, before: seq<Label>, turns: seq<TurnInput>, readies: seq<seq<Event>>, counts: seq<nat>) {
    |readies| == |counts| <= |turns| && forall i: nat :: i < |readies| ==> TurnReported(backend, before, turns, readies, counts, i)
  }

  /** One more turn leaves what was said of an earlier one. */
  lemma TurnKept(backend: Backend, before: seq<Label>, turns: seq<TurnInput>, readies: seq<seq<Event>>, counts: seq<nat>, ready: seq<Event>, tasks: nat, i: nat)
    requires |readies| == |counts| < |turns| && i < |readies|
    ensures TurnReported(backend, before, turns, readies + [ready], counts + [tasks], i) <==> TurnReported(backend, before, turns, readies, counts, i)
  {
    assert (readies + [ready])[..i] == readies[..i] && (counts + [tasks])[..i] == counts[..i];
    assert (readies + [ready])[i] == readies[i];
  }

  /** And says the same of its own. */
  lemma TurnAdded(backend: Backend, before: seq<Label>, turns: seq<TurnInput>, readies: seq<seq<Event>>, counts: seq<nat>, ready: seq<Event>, tasks: nat)
    requires |readies| == |counts| < |turns|
    ensures TurnReported(backend, before, turns, readies + [ready], counts + [tasks], |readies|) <==>
              var turn := turns[|readies|];
              Reported(backend, before + UntilQuit(turns, readies, counts), turn.k, turn.order, turn.fault, ready)
  {
    assert (readies + [ready])[..|readies|] == readies && (counts + [tasks])[..|readies|] == counts;
  }

  lemma MoreReported(backend: Backend, before: seq<Label>, turns: seq<TurnInput>, readies: seq<seq<Event>>, counts: seq<nat>, ready: seq<Event>, tasks: nat)
    requires AllReported(backend, before, turns, readies, counts) && |readies| < |turns|
    requires var turn := turns[|readies|];
             Reported(backend, before + UntilQuit(turns, readies, counts), turn.k, turn.order, turn.fault, ready)
    ensures AllReported(backend, before, turns, readies + [ready], counts + [tasks])
  {
    TurnAdded(backend, before, turns, readies, counts, ready, tasks);
    forall i: nat | i < |readies| ensures TurnReported(backend, before, turns, readies + [ready], counts + [tasks], i) {
      TurnKept(backend, before, turns, readies, counts, ready, tasks, i);
    }
  }

  lemma TurnsMore(turns: seq<TurnInput>, readies: seq<seq<Event>>, counts: seq<nat>, ready: seq<Event>, tasks: nat)
    requires |readies| == |counts| < |turns|
    ensures TurnsLabels(turns, readies + [ready], counts + [tasks])
            == UntilQuit(turns, readies, counts) + TurnLabels(turns[|readies|], ready, tasks)
  {
    var rs, cs, n := readies + [ready], counts + [tasks], |readies|;
    assert rs[..n] == readies && cs[..n] == counts && rs[n] == ready && cs[n] == tasks;
    Regroup(TurnsLabels(turns, readies, counts), ArrivalLabels(turns[n].waiting), TurnLabels(turns[n], ready, tasks));
  }

  /** With no other thread about, a turn that finds one event and no functor. */
  lemma OneEventTurn(k: Kernel, order: seq<int>, cb: Callback, e: Event)
    ensures TurnLabels(TurnInput(k, order, 0, [cb], Arrival([], false), [], []), [e], 0) == [Poll([e]), Dispatch(cb), Pop]
  {
    assert DispatchLabels(0, [cb], []) == [];
    assert DispatchLabels(1, [cb], []) == [Dispatch(cb)];
  }
}
