/** Sharing clients among loops: src/net/thpool_service_loop.cc and the client registry of
src/example/acceptor_server.cc. */
module AcceptorServers {
  import opened Lists

  type Id = nat
  type LoopId = nat

  // ---- round robin ------------------------------------------------------------------------

  const INT_MAX := 0x7FFF_FFFF

  /** How many of `k` consecutive indices from `start` pick position `j` of `n`. */
  function Picks(start: nat, k: nat, n: nat, j: nat): nat
    requires j < n
  {
    if k == 0 then 0 else Picks(start, k - 1, n, j) + (if (start + k - 1) % n == j then 1 else 0)
  }

  lemma DivUnique(x: nat, n: nat, q: nat, r: nat)
    requires n > 0 && r < n && x == q * n + r
    ensures x / n == q && x % n == r
  {
    var q', r' := x / n, x % n;
    assert x == q' * n + r';
    assert q' < q ==> q' * n + n == (q' + 1) * n <= q * n;
    assert q < q' ==> q * n + n == (q + 1) * n <= q' * n;
  }

  /** The quotient grows by one exactly at the multiples. */
  lemma PickCounts(m: nat, n: nat, j: nat)
    requires j < n
    ensures (m + n - j) / n == (m + n - 1 - j) / n + (if m % n == j then 1 else 0)
  {
    var q, r := m / n, m % n;
    assert m == q * n + r;
    PickQuotient(q, r, n, j);
    if r == j {
      DivUnique(m + n - 1 - j, n, q, n - 1);
    } else {
      PickQuotient(q, r, n, j + 1);
    }
  }

  lemma PickQuotient(q: nat, r: nat, n: nat, j: nat)
    requires r < n && j <= n
    ensures (q * n + r + n - j) / n == if r < j then q else q + 1
  {
    assert (q + 1) * n == q * n + n;
    if r < j {
      DivUnique(q * n + r + n - j, n, q, r + n - j);
    } else {
      DivUnique(q * n + r + n - j, n, q + 1, r - j);
    }
  }

  lemma {:induction false} PicksClosed(start: nat, k: nat, n: nat, j: nat)
    requires j < n
    ensures (start + k + n - 1 - j) / n == (start + n - 1 - j) / n + Picks(start, k, n, j)
  {
    if k == 0 {
    } else {
      PicksClosed(start, k - 1, n, j);
      PickCounts(start + k - 1, n, j);
    }
  }

  lemma SumQuotient(qa: nat, ra: nat, qk: nat, rk: nat, n: nat)
    requires ra < n && rk < n
    ensures ((qa * n + ra) + (qk * n + rk)) / n == qa + qk + if ra + rk < n then 0 else 1
  {
    assert (qa + qk) * n == qa * n + qk * n;
    if ra + rk < n {
      DivUnique((qa * n + ra) + (qk * n + rk), n, qa + qk, ra + rk);
    } else {
      assert (qa + qk + 1) * n == (qa + qk) * n + n;
      DivUnique((qa * n + ra) + (qk * n + rk), n, qa + qk + 1, ra + rk - n);
    }
  }

  /** Adding `k` moves a quotient by k/n, rounded down or up. */
  lemma QuotientMoves(a: nat, k: nat, n: nat)
    requires n > 0
    ensures k / n <= (a + k) / n - a / n <= (k + n - 1) / n
  {
    assert a == (a / n) * n + a % n && k == (k / n) * n + k % n;
    SumQuotient(a / n, a % n, k / n, k % n, n);
    RoundUp(k, n);
  }

  lemma RoundUp(k: nat, n: nat)
    requires n > 0
    ensures (k + n - 1) / n == k / n + if k % n == 0 then 0 else 1
  {
    var qk, rk := k / n, k % n;
    assert k == qk * n + rk && (qk + 1) * n == qk * n + n;
    if rk == 0 {
      DivUnique(k + n - 1, n, qk, n - 1);
    } else {
      DivUnique(k + n - 1, n, qk + 1, rk - 1);
    }
  }

  /** Over any window every position is picked floor(k/n) or ceil(k/n) times, so over n calls exactly
  once. */
  lemma PicksFair(start: nat, k: nat, n: nat, j: nat)
    requires j < n
    ensures k / n <= Picks(start, k, n, j) <= (k + n - 1) / n
    ensures k == n ==> Picks(start, k, n, j) == 1
  {
    PicksClosed(start, k, n, j);
    QuotientMoves(start + n - 1 - j, k, n);
    if k == n {
      DivUnique(n, n, 1, 0);
      RoundUp(n, n);
    }
  }

  /** The loop the `i`-th call of get_loop returns, and the base loop when there are no threads. */
  function LoopAt(pool: seq<LoopId>, base: LoopId, i: nat): LoopId {
    if pool == [] then base else pool[i % |pool|]
  }

  /** What `k` consecutive calls return. */
  function Window(pool: seq<LoopId>, base: LoopId, start: nat, k: nat): seq<LoopId> {
    if k == 0 then [] else Window(pool, base, start, k - 1) + [LoopAt(pool, base, start + k - 1)]
  }

  lemma {:induction false} WindowAt(pool: seq<LoopId>, base: LoopId, start: nat, k: nat)
    ensures var w := Window(pool, base, start, k); |w| == k && forall i :: 0 <= i < k ==> w[i] == LoopAt(pool, base, start + i)
  {
    if k == 0 {
    } else {
      WindowAt(pool, base, start, k - 1);
    }
  }

  lemma OnlyAt(pool: seq<LoopId>, base: LoopId, m: nat, j: nat)
    requires NoDup(pool) && j < |pool|
    ensures LoopAt(pool, base, m) == pool[j] <==> m % |pool| == j
  {
    var i := m % |pool|;
    assert pool[i] == pool[j] <==> i == j;
  }

  lemma CountLast(w: seq<LoopId>, x: LoopId, y: LoopId)
    ensures multiset(w + [x])[y] == multiset(w)[y] + if x == y then 1 else 0
  {}

  lemma {:induction false} WindowCounts(pool: seq<LoopId>, base: LoopId, start: nat, k: nat, j: nat)
    requires j < |pool| && NoDup(pool)
    ensures multiset(Window(pool, base, start, k))[pool[j]] == Picks(start, k, |pool|, j)
  {
    if k == 0 {
    } else {
      WindowCounts(pool, base, start, k - 1, j);
      OneMoreCall(pool, base, start, k, j);
    }
  }

  lemma OneMoreCall(pool: seq<LoopId>, base: LoopId, start: nat, k: nat, j: nat)
    requires j < |pool| && NoDup(pool) && k > 0
    ensures multiset(Window(pool, base, start, k))[pool[j]]
            == multiset(Window(pool, base, start, k - 1))[pool[j]] + if (start + k - 1) % |pool| == j then 1 else 0
  {
    var w, m := Window(pool, base, start, k - 1), start + k - 1;
    OnlyAt(pool, base, m, j);
    CountLast(w, LoopAt(pool, base, m), pool[j]);
  }

  /** A fair share of `k` among `n`: k/n rounded down or up. */
  predicate Fair(count: nat, k: nat, n: nat)
    requires n > 0
  {
    k / n <= count <= (k + n - 1) / n
  }

  /** Round robin is fair: whatever call a window begins at, every loop of the pool is returned
  floor(k/n) or ceil(k/n) times in k calls, and exactly once in n. */
  lemma RoundRobinFair(pool: seq<LoopId>, base: LoopId, start: nat, k: nat, j: nat)
    requires j < |pool| && NoDup(pool)
    ensures Fair(multiset(Window(pool, base, start, k))[pool[j]], k, |pool|)
    ensures k == |pool| ==> multiset(Window(pool, base, start, k))[pool[j]] == 1
  {
    WindowCounts(pool, base, start, k, j);
    PicksFair(start, k, |pool|, j);
  }

  class ThpoolServiceLoop {
    const baseLoop: LoopId
    var evLoops: seq<LoopId>
    var index: nat // the function's static variable

    constructor (baseLoop: LoopId)
      ensures this.baseLoop == baseLoop && evLoops == [] && index == 0
    {
      this.baseLoop, evLoops, index := baseLoop, [], 0;
    }

    /** `started` is what start_loop returns for each new thread. */
    method Open(started: seq<LoopId>)
      modifies this`evLoops
      ensures evLoops == old(evLoops) + started
    {
      for i := 0 to |started|
        invariant evLoops == old(evLoops) + started[..i]
      {
        evLoops := evLoops + [started[i]];
      }
      assert started[..|started|] == started;
    }

    /** index++ is undefined once it has reached INT_MAX. */
    method GetLoop() returns (loop: LoopId)
      requires index < INT_MAX
      modifies this`index
      ensures loop == LoopAt(evLoops, baseLoop, old(index))
      ensures evLoops == [] ==> loop == baseLoop
      ensures evLoops != [] ==> loop == evLoops[old(index) % |evLoops|]
      ensures index == if evLoops == [] then old(index) else old(index) + 1
    {
      if |evLoops| == 0 {
        return baseLoop;
      }
      var loopCount := |evLoops|;
      loop := evLoops[index % loopCount];
      index := index + 1;
    }
  }

  // ---- the registry -----------------------------------------------------------------------

  const MAX_CLIENT_COUNT := 1024

  /** The bound call of service_handler::open handed to a loop. */
  datatype OpenTask = OpenTask(loop: LoopId, handler: Id, fd: int)

  /** `turn` counts the calls of get_loop that found a pool. */
  datatype Registry = Registry(clients: seq<Id>, next: Id, turn: nat, posted: seq<OpenTask>)

  predicate Full(r: Registry) { |r.clients| >= MAX_CLIENT_COUNT }

  function Accept(r: Registry, fd: int, pool: seq<LoopId>, base: LoopId): Registry {
    if Full(r) then r
    else Registry(r.clients + [r.next], r.next + 1, if pool == [] then r.turn else r.turn + 1,
                  r.posted + [OpenTask(LoopAt(pool, base, r.turn), r.next, fd)])
  }

  class AcceptorServer {
    const thpool: ThpoolServiceLoop
    var clients: seq<Id>
    var next: Id
    ghost var posted: seq<OpenTask>

    constructor (loop: LoopId)
      ensures State() == Registry([], 0, 0, []) && fresh(thpool) && thpool.evLoops == [] && thpool.baseLoop == loop
    {
      thpool := new ThpoolServiceLoop(loop);
      clients, next, posted := [], 0, [];
    }

    ghost function State(): Registry
      reads this, thpool
    {
      Registry(clients, next, thpool.index, posted)
    }

    /** False refuses the client: the acceptor closes its descriptor. */
    method OnAccept(fd: int) returns (ok: bool)
      requires thpool.index < INT_MAX
      modifies this, thpool
      ensures ok <==> |old(clients)| < MAX_CLIENT_COUNT
      ensures ok ==> clients == old(clients) + [old(next)] && next == old(next) + 1
      ensures ok ==> posted == old(posted) + [OpenTask(LoopAt(thpool.evLoops, thpool.baseLoop, old(thpool.index)), old(next), fd)]
      ensures !ok ==> State() == old(State())
      ensures State() == Accept(old(State()), fd, thpool.evLoops, thpool.baseLoop)
      ensures thpool.evLoops == old(thpool.evLoops)
    {
      if |clients| >= MAX_CLIENT_COUNT {
        return false;
      }
      var ptr := next;
      next := next + 1;
      var loop := thpool.GetLoop();
      posted := posted + [OpenTask(loop, ptr, fd)];
      clients := clients + [ptr];
      return true;
    }

    method RemoveHandler(handler: Id)
      modifies this
      ensures State() == old(State()).(clients := Without(old(clients), handler))
    {
      for i := 0 to |clients|
        invariant State() == old(State())
        invariant forall j :: 0 <= j < i ==> clients[j] != handler
      {
        if clients[i] == handler {
          assert IndexOf(clients, handler) == i;
          clients := clients[..i] + clients[i + 1..];
          return;
        }
      }
    }
  }

  // ---- all runs ---------------------------------------------------------------------------

  datatype Step = Accepted(fd: int) | Closed(handler: Id)

  /** The registry and the accepted handlers whose on_close has run, once or more often. The first
  `start` turns of the pool were taken before. */
  function After(steps: seq<Step>, pool: seq<LoopId>, base: LoopId, start: nat): (Registry, set<Id>) {
    if steps == [] then (Registry([], 0, start, []), {})
    else
      var (r, closed) := After(steps[..|steps| - 1], pool, base, start);
      match steps[|steps| - 1]
      case Accepted(fd) => (Accept(r, fd, pool, base), closed)
      case Closed(h) => (r.(clients := Without(r.clients, h)), if h < r.next then closed + {h} else closed)
  }

  /** The registry lists, without repetition and never more than the maximum, exactly the handlers
  that were accepted and have not closed. */
  ghost predicate Listed(r: Registry, closed: set<Id>) {
    && NoDup(r.clients) && |r.clients| <= MAX_CLIENT_COUNT
    && (forall h: Id :: h in r.clients <==> h < r.next && h !in closed) && (forall h :: h in closed ==> h < r.next)
  }

  /** Each accepted handler's open was posted once, to the loop its turn assigned it. */
  predicate Assigned(r: Registry, pool: seq<LoopId>, base: LoopId, start: nat) {
    && |r.posted| == r.next && r.turn == (if pool == [] then start else start + r.next)
    && (forall i :: 0 <= i < r.next ==> r.posted[i].handler == i && r.posted[i].loop == LoopAt(pool, base, start + i))
  }

  lemma AcceptListed(r: Registry, closed: set<Id>, fd: int, pool: seq<LoopId>, base: LoopId)
    requires Listed(r, closed)
    ensures Listed(Accept(r, fd, pool, base), closed)
  {
    assert r.next !in r.clients;
    NoDupConcat(r.clients, [r.next]);
  }

  lemma {:induction false} RegistryExact(steps: seq<Step>, pool: seq<LoopId>, base: LoopId, start: nat)
    ensures var (r, closed) := After(steps, pool, base, start); Listed(r, closed) && Assigned(r, pool, base, start)
  {
    if steps == [] {
    } else {
      RegistryExact(steps[..|steps| - 1], pool, base, start);
      var (r, closed) := After(steps[..|steps| - 1], pool, base, start);
      match steps[|steps| - 1] {
        case Closed(h) => WithoutKeeps(r.clients, h);
        case Accepted(fd) => AcceptListed(r, closed, fd, pool, base);
      }
    }
  }

  lemma {:induction false} ListSize(s: seq<Id>, all: set<Id>)
    requires NoDup(s) && forall x :: x in s <==> x in all
    ensures |s| == |all|
  {
    if s == [] {
      assert all == {};
    } else {
      var front, last := s[..|s| - 1], s[|s| - 1];
      assert forall x :: x in s <==> x in front || x == last;
      ListSize(front, all - {last});
    }
  }

  /** The accepted handlers that have not closed. */
  function Open(r: Registry, closed: set<Id>): set<Id> { set h: Id | 0 <= h < r.next && h !in closed }

  /** In every run the next client is refused exactly when MAX_CLIENT_COUNT accepted handlers have not
  closed; otherwise it is listed, and its open is posted. */
  lemma RefusedIff(steps: seq<Step>, pool: seq<LoopId>, base: LoopId, start: nat, fd: int)
    ensures var (r, closed) := After(steps, pool, base, start);
            var next := After(steps + [Accepted(fd)], pool, base, start).0;
            if |Open(r, closed)| == MAX_CLIENT_COUNT then next == r
            else
              && |Open(r, closed)| < MAX_CLIENT_COUNT
              && next.clients == r.clients + [r.next] && next.next == r.next + 1
              && next.posted == r.posted + [OpenTask(LoopAt(pool, base, r.turn), r.next, fd)]
  {
    assert (steps + [Accepted(fd)])[..|steps|] == steps;
    RegistryExact(steps, pool, base, start);
    var (r, closed) := After(steps, pool, base, start);
    ListSize(r.clients, Open(r, closed));
  }

  /** The loops that were posted an open, in order. */
  function Loops(posted: seq<OpenTask>): seq<LoopId> {
    seq(|posted|, i requires 0 <= i < |posted| => posted[i].loop)
  }

  lemma LoopsAreWindow(r: Registry, pool: seq<LoopId>, base: LoopId, start: nat)
    requires Assigned(r, pool, base, start)
    ensures Loops(r.posted) == Window(pool, base, start, r.next)
  {
    WindowAt(pool, base, start, r.next);
  }

  /** Whatever clients come and go, and wherever the round robin stood, the loops of the pool are
  handed the same number of clients, give or take one. */
  lemma LoadBalanced(steps: seq<Step>, pool: seq<LoopId>, base: LoopId, start: nat, j: nat)
    requires j < |pool| && NoDup(pool)
    ensures var r := After(steps, pool, base, start).0;
            Fair(multiset(Loops(r.posted))[pool[j]], r.next, |pool|)
  {
    RegistryExact(steps, pool, base, start);
    var r := After(steps, pool, base, start).0;
    LoopsAreWindow(r, pool, base, start);
    RoundRobinFair(pool, base, start, r.next, j);
  }
}
