/** The dispatcher interface of src/net/event_dispatcher.h over its three implementations. */
module EventDispatchers {
  import opened Dispatching
  import opened Lists
  import opened SelectDispatcher
  import opened PollDispatcher
  import opened EpollDispatcher
  import opened LoopTable
  import opened ReactorModel

  /** A pointer to EventDispatcher. */
  datatype Dispatcher = OverSelect(s: DispatcherSelect) | OverPoll(p: DispatcherPoll) | OverEpoll(e: DispatcherEpoll)
  {
    function Backend(): Backend {
      match this case OverSelect(_) => SELECT case OverPoll(_) => POLL case OverEpoll(_) => EPOLL
    }

    function Obj(): object {
      match this case OverSelect(s) => s case OverPoll(p) => p case OverEpoll(e) => e
    }

    ghost predicate Valid()
      reads Obj()
    {
      match this case OverSelect(s) => s.Valid() case OverPoll(p) => p.Valid() case OverEpoll(e) => e.Valid()
    }

    ghost function View(): map<int, Interest>
      reads Obj()
    {
      match this case OverSelect(s) => s.View() case OverPoll(p) => p.View() case OverEpoll(e) => e.View()
    }

    method AddEvent(h: int, readable: bool, writeable: bool, fault: CtlFault) returns (ok: bool, errno: int)
      requires Valid() && FdOk(Backend(), h) && (readable || writeable)
      requires Backend() != EPOLL ==> h !in View()
      modifies Obj()
      ensures Valid() && (ok <==> Backend() != EPOLL || (h !in old(View()) && fault == 0))
      ensures ok ==> View() == old(View())[h := Meaning(Backend(), readable, writeable)]
      ensures !ok ==> View() == old(View()) && errno == if h in old(View()) then EEXIST else fault
    {
      match this {
        case OverSelect(s) => ok := s.AddEvent(h, readable, writeable); errno := s.lastErrno;
        case OverPoll(p) => ok := p.AddEvent(h, readable, writeable); errno := p.lastErrno;
        case OverEpoll(e) => ok := e.AddEvent(h, readable, writeable, fault); errno := e.lastErrno;
      }
    }

    method ModEvent(h: int, readable: bool, writeable: bool, fault: CtlFault) returns (ok: bool, errno: int)
      requires Valid() && FdOk(Backend(), h) && (readable || writeable)
      requires Backend() == SELECT ==> h in View()
      modifies Obj()
      ensures Valid() && (ok <==> h in old(View()) && (Backend() == EPOLL ==> fault == 0))
      ensures ok ==> View() == old(View())[h := Meaning(Backend(), readable, writeable)]
      ensures !ok ==> View() == old(View())
      ensures !ok ==> errno == if h in old(View()) then fault else if Backend() == EPOLL then ENOENT else ENOTSOCK
    {
      match this {
        case OverSelect(s) => ok := s.ModEvent(h, readable, writeable); errno := s.lastErrno;
        case OverPoll(p) => ok := p.ModEvent(h, readable, writeable); errno := p.lastErrno;
        case OverEpoll(e) => ok := e.ModEvent(h, readable, writeable, fault); errno := e.lastErrno;
      }
    }

    method DelEvent(h: int, fault: CtlFault) returns (ok: bool, errno: int)
      requires Valid()
      modifies Obj()
      ensures Valid() && (ok <==> Backend() != EPOLL || h !in old(View()) || fault == 0)
      ensures ok ==> View() == old(View()) - {h}
      ensures !ok ==> View() == old(View()) && errno == fault
    {
      match this {
        case OverSelect(s) => ok := s.DelEvent(h); errno := s.lastErrno;
        case OverPoll(p) => ok := p.DelEvent(h); errno := p.lastErrno;
        case OverEpoll(e) => ok := e.DelEvent(h, fault); errno := e.lastErrno;
      }
    }

    /** `order` is the order in which epoll_wait finds descriptors. A batch is complete when that
    order misses no ready descriptor. */
    method HandleEvents(k: Kernel, order: seq<int>, fault: nat) returns (ret: int, ready: seq<Event>)
      requires Valid()
      modifies Obj()
      ensures Valid() && View() == old(View()) && Allowed(View(), ready)
      ensures fault == 0 && (Backend() == EPOLL ==> Finds(View(), k, order)) ==> Exact(View(), Sees(Backend(), k), ready)
      ensures ret <= 0 ==> ready == []
      ensures KindsInOrder(ready) && (fault != 0 ==> ret == -1 && ready == [])
    {
      match this {
        case OverSelect(s) => ret, ready := s.HandleEvents(k, fault);
        case OverPoll(p) =>
          ret, ready := p.HandleEvents(k, fault);
          assert ready != [] ==> ready[0].fd in PollDispatcher.Ready(ready);
        case OverEpoll(e) =>
          ret, ready := WaitAll(e, k, order, fault);
      }
    }
  }

  function Sees(backend: Backend, k: Kernel): Readiness {
    match backend case SELECT => SelectSees(k) case POLL => PollSees(k) case EPOLL => EpollSees(k)
  }

  predicate Finds(view: map<int, Interest>, k: Kernel, order: seq<int>) {
    forall fd :: fd in view && IsReady(view, k, fd) ==> fd in order
  }

  /** A search misses a ready descriptor only if it misses a registered one; one that finds nothing is
  complete exactly when nothing is ready. */
  lemma FindsIff(view: map<int, Interest>, k: Kernel, order: seq<int>)
    ensures (forall fd :: fd in view ==> fd in order) ==> Finds(view, k, order)
    ensures Finds(view, k, []) <==> forall fd :: fd in view ==> !IsReady(view, k, fd)
  {}

  /** What epoll_wait returns when it finds descriptors in the given order and has `room` entries. */
  function Pick(kernel: map<int, Interest>, k: Kernel, order: seq<int>, room: int): (picked: seq<int>)
    ensures NoDup(picked) && |picked| <= (if room < 0 then 0 else room)
    ensures forall fd :: fd in picked ==> fd in kernel && IsReady(kernel, k, fd)
  {
    if order == [] then []
    else
      var picked, fd := Pick(kernel, k, order[..|order| - 1], room), order[|order| - 1];
      if fd in kernel && IsReady(kernel, k, fd) && fd !in picked && |picked| < room then picked + [fd] else picked
  }

  /** With room for every registered descriptor none that is found is left out. */
  lemma {:induction false} PicksAll(kernel: map<int, Interest>, k: Kernel, order: seq<int>, room: int)
    requires |kernel| <= room
    ensures forall fd :: fd in order && fd in kernel && IsReady(kernel, k, fd) ==> fd in Pick(kernel, k, order, room)
  {
    if order == [] {
    } else {
      var fd := order[|order| - 1];
      var picked := Pick(kernel, k, order[..|order| - 1], room);
      PicksAll(kernel, k, order[..|order| - 1], room);
      assert forall x :: x in order <==> x in order[..|order| - 1] || x == fd;
      if fd in kernel && fd !in picked {
        forall x | x in picked + [fd] ensures x in kernel.Keys {}
        DistinctBound(picked + [fd], kernel.Keys);
        assert |kernel.Keys| == |kernel|;
      }
    }
  }

  function BackendOf(flg: int): Backend {
    if flg == 0 then SELECT else if flg == 1 then POLL else EPOLL
  }

  /** epoll_wait and the scan of what it returned. */
  method WaitAll(e: DispatcherEpoll, k: Kernel, order: seq<int>, fault: nat) returns (ret: int, ready: seq<Event>)
    requires e.Valid()
    modifies e`lastErrno
    ensures Allowed(e.View(), ready) && KindsInOrder(ready)
    ensures fault == 0 && Finds(e.View(), k, order) ==> Exact(e.View(), EpollSees(k), ready)
    ensures (ret <= 0 ==> ready == []) && (fault != 0 ==> ret == -1 && ready == [])
  {
    var picked := Pick(e.kernel, k, order, e.fdCount);
    if Finds(e.kernel, k, order) {
      PicksAll(e.kernel, k, order, e.fdCount);
    }
    ret, ready := e.HandleEvents(k, picked, fault);
    assert ready != [] ==> ready[0] in ready;
  }

  /** EventDispatcher::create_dispatcher. */
  method CreateDispatcher(flg: int) returns (d: Option<Dispatcher>)
    ensures d.Some? <==> 0 <= flg <= 2
    ensures d.Some? ==> d.value.Valid() && d.value.View() == map[] && fresh(d.value.Obj())
    ensures flg == 0 ==> d.value.OverSelect?
    ensures flg == 1 ==> d.value.OverPoll?
    ensures flg == 2 ==> d.value.OverEpoll?
    ensures d.Some? ==> d.value.Backend() == BackendOf(flg)
  {
    match flg {
      case 0 => var s := new DispatcherSelect(); d := Some(OverSelect(s));
      case 1 => var p := new DispatcherPoll(); d := Some(OverPoll(p));
      case 2 => var e := new DispatcherEpoll(); d := Some(OverEpoll(e));
      case _ => d := None;
    }
  }
}
