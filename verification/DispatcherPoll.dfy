/** The poll(2) dispatcher, src/net/dispatcher/poll.cc: a vector searched from the front. */
module PollDispatcher {
  import opened Dispatching
  import opened Lists

  const ENOTSOCK := 88

  datatype PollFd = PollFd(fd: int, events: Interest)

  /** The first entry for a descriptor, or the end of the vector. */
  function Find(s: seq<PollFd>, handle: int): (i: nat)
    ensures i <= |s|
    ensures forall j :: 0 <= j < i ==> s[j].fd != handle
    ensures i < |s| ==> s[i].fd == handle
  {
    if s == [] || s[0].fd == handle then 0 else 1 + Find(s[1..], handle)
  }

  function Fds(s: seq<PollFd>): (r: seq<int>)
    ensures |r| == |s| && forall i :: 0 <= i < |s| ==> r[i] == s[i].fd
  {
    seq(|s|, i requires 0 <= i < |s| => s[i].fd)
  }

  /** The interest the vector holds for each descriptor: that of its first entry. */
  function ViewOf(s: seq<PollFd>): (m: map<int, Interest>)
    ensures forall fd :: fd in m <==> Find(s, fd) < |s|
    ensures forall fd :: fd in m ==> m[fd] == s[Find(s, fd)].events
  {
    assert forall fd :: Find(s, fd) < |s| ==> s[Find(s, fd)] in s;
    map fd | fd in (set p | p in s :: p.fd) && Find(s, fd) < |s| :: s[Find(s, fd)].events
  }

  function Erase(s: seq<PollFd>, i: nat): seq<PollFd>
    requires i < |s|
  {
    s[..i] + s[i + 1..]
  }

  lemma FindIs(s: seq<PollFd>, handle: int, i: nat)
    requires i <= |s| && (i < |s| ==> s[i].fd == handle) && forall j :: 0 <= j < i ==> s[j].fd != handle
    ensures Find(s, handle) == i
  {}

  lemma AppendedFind(s: seq<PollFd>, p: PollFd, fd: int)
    requires p.fd !in ViewOf(s)
    ensures fd in ViewOf(s + [p]) <==> fd in ViewOf(s) || fd == p.fd
    ensures fd in ViewOf(s + [p]) ==> ViewOf(s + [p])[fd] == if fd == p.fd then p.events else ViewOf(s)[fd]
  {
    FindIs(s + [p], fd, if Find(s, fd) < |s| then Find(s, fd) else if fd == p.fd then |s| else |s| + 1);
  }

  lemma Appended(s: seq<PollFd>, p: PollFd)
    requires p.fd !in ViewOf(s)
    ensures ViewOf(s + [p]) == ViewOf(s)[p.fd := p.events]
  {
    var was, now := ViewOf(s)[p.fd := p.events], ViewOf(s + [p]);
    forall fd ensures (fd in now <==> fd in was) && (fd in now ==> now[fd] == was[fd]) {
      AppendedFind(s, p, fd);
    }
    SameMap(was, now);
  }

  lemma AppendedDistinct(s: seq<PollFd>, p: PollFd)
    requires p.fd !in ViewOf(s) && NoDup(Fds(s))
    ensures NoDup(Fds(s + [p]))
  {
    assert Find(s, p.fd) == |s|;
    assert Fds(s + [p]) == Fds(s) + [p.fd];
  }

  lemma ReplacedFind(s: seq<PollFd>, p: PollFd, fd: int)
    requires Find(s, p.fd) < |s|
    ensures var t := s[Find(s, p.fd) := p];
            && (fd in ViewOf(t) <==> fd in ViewOf(s))
            && (fd in ViewOf(t) ==> ViewOf(t)[fd] == if fd == p.fd then p.events else ViewOf(s)[fd])
  {
    FindIs(s[Find(s, p.fd) := p], fd, Find(s, fd));
  }

  lemma Replaced(s: seq<PollFd>, p: PollFd)
    requires Find(s, p.fd) < |s|
    ensures ViewOf(s[Find(s, p.fd) := p]) == ViewOf(s)[p.fd := p.events]
    ensures Fds(s[Find(s, p.fd) := p]) == Fds(s)
  {
    var was, now := ViewOf(s)[p.fd := p.events], ViewOf(s[Find(s, p.fd) := p]);
    forall fd ensures (fd in now <==> fd in was) && (fd in now ==> now[fd] == was[fd]) {
      ReplacedFind(s, p, fd);
    }
    SameMap(was, now);
  }

  /** Position in the vector of the entry that stands at `j` once `i` is erased. */
  function Before(i: nat, j: nat): nat { if j < i then j else j + 1 }

  lemma ErasedFind(s: seq<PollFd>, i: nat, fd: int)
    requires i < |s| && fd != s[i].fd
    ensures fd in ViewOf(Erase(s, i)) <==> fd in ViewOf(s)
    ensures fd in ViewOf(s) ==> ViewOf(Erase(s, i))[fd] == ViewOf(s)[fd]
  {
    var t, j := Erase(s, i), Find(s, fd);
    var j' := if j < i then j else j - 1;
    forall l | 0 <= l < j' ensures t[l].fd != fd { assert t[l] == s[Before(i, l)]; }
    FindIs(t, fd, j');
  }

  lemma ErasedDistinct(s: seq<PollFd>, i: nat)
    requires i < |s| && NoDup(Fds(s))
    ensures NoDup(Fds(Erase(s, i))) && s[i].fd !in ViewOf(Erase(s, i))
  {
    var t := Erase(s, i);
    forall a | 0 <= a < |t| ensures Fds(t)[a] == Fds(s)[Before(i, a)] && t[a].fd != s[i].fd {}
    FindIs(t, s[i].fd, |t|);
  }

  lemma Erased(s: seq<PollFd>, handle: int)
    requires NoDup(Fds(s)) && Find(s, handle) < |s|
    ensures ViewOf(Erase(s, Find(s, handle))) == ViewOf(s) - {handle}
  {
    var i := Find(s, handle);
    ErasedDistinct(s, i);
    var was, now := ViewOf(s), ViewOf(Erase(s, i));
    forall fd ensures (fd in now <==> fd in was - {handle}) && (fd in now ==> now[fd] == (was - {handle})[fd]) {
      if fd != handle {
        ErasedFind(s, i, fd);
      }
    }
    SameMap(was - {handle}, now);
  }

  lemma SameMap<K, V>(a: map<K, V>, b: map<K, V>)
    requires forall x :: x in a <==> x in b
    requires forall x :: x in a ==> a[x] == b[x]
    ensures a == b
  {}

  /** After add_event and del_event the vector still watches the descriptor exactly when it was
  registered before: why a registered descriptor must not be registered again. */
  lemma AddedThenErased(s: seq<PollFd>, p: PollFd)
    ensures Find(s + [p], p.fd) == Find(s, p.fd)
    ensures p.fd in ViewOf(Erase(s + [p], Find(s, p.fd))) <==> p.fd in ViewOf(s)
  {
    var i := Find(s, p.fd);
    FindIs(s + [p], p.fd, i);
    var t := Erase(s + [p], i);
    if i == |s| {
      assert t == s;
    } else {
      ErasedKeepsLast(s + [p], i);
      Present(t, |t| - 1);
    }
  }

  lemma ErasedKeepsLast(s: seq<PollFd>, i: nat)
    requires i < |s| - 1
    ensures |Erase(s, i)| == |s| - 1 && Erase(s, i)[|s| - 2] == s[|s| - 1]
  {}

  lemma Present(s: seq<PollFd>, j: nat)
    requires j < |s|
    ensures s[j].fd in ViewOf(s)
  {
    assert Find(s, s[j].fd) <= j;
  }

  /** POLLPRI is asked for and reported with POLLIN, POLLHUP with POLLERR. */
  function PollSees(k: Kernel): Readiness {
    Readiness(k.input + k.priority, k.output, k.error + k.hangup)
  }

  /** What an exact batch of poll says of each descriptor. */
  lemma PollSays(view: map<int, Interest>, k: Kernel, ready: seq<Event>, fd: int)
    requires Exact(view, PollSees(k), ready)
    ensures Says(view, ready, fd, fd in k.input || fd in k.priority, fd in k.output, fd in k.error || fd in k.hangup)
  {
    assert Event(fd, READ) in ready <==> Reports(view, PollSees(k), Event(fd, READ));
    assert Event(fd, WRITE) in ready <==> Reports(view, PollSees(k), Event(fd, WRITE));
    assert Event(fd, ERROR) in ready <==> Reports(view, PollSees(k), Event(fd, ERROR));
  }

  /** What handle_events pushes for one entry. */
  function Revents(p: PollFd, k: Kernel): seq<Event> {
    EventsOf(p.fd, p.events.readable && (p.fd in k.input || p.fd in k.priority), p.events.writeable && p.fd in k.output,
             p.fd in k.error || p.fd in k.hangup)
  }

  /** The descriptors that have an event in the batch. */
  function Ready(batch: seq<Event>): set<int> { set e | e in batch :: e.fd }

  lemma VectorStep(s: seq<PollFd>, i: nat, k: Kernel)
    requires NoDup(Fds(s)) && i < |s|
    ensures Scan(Fds(s)[..i + 1], ViewOf(s), PollSees(k)) == Scan(Fds(s)[..i], ViewOf(s), PollSees(k)) + Revents(s[i], k)
  {
    forall j | 0 <= j < i ensures s[j].fd != s[i].fd { assert Fds(s)[j] != Fds(s)[i]; }
    FindIs(s, s[i].fd, i);
    ScanStep(Fds(s), i, ViewOf(s), PollSees(k));
  }

  /** One more ready descriptor when the entry has an event, none otherwise. */
  lemma ReadyStep(s: seq<PollFd>, i: nat, k: Kernel)
    requires NoDup(Fds(s)) && i < |s|
    ensures var before := Scan(Fds(s)[..i], ViewOf(s), PollSees(k));
            |Ready(before + Revents(s[i], k))| == |Ready(before)| + if Revents(s[i], k) == [] then 0 else 1
  {
    var before, now := Scan(Fds(s)[..i], ViewOf(s), PollSees(k)), Revents(s[i], k);
    ScanMembers(Fds(s)[..i], ViewOf(s), PollSees(k));
    forall j | 0 <= j < i ensures Fds(s)[..i][j] != s[i].fd { assert Fds(s)[j] != Fds(s)[i]; }
    assert s[i].fd !in Ready(before);
    if now == [] {
      assert before + now == before;
    } else {
      assert now[0] in before + now;
      assert Ready(before + now) == Ready(before) + {s[i].fd};
    }
  }

  lemma VectorScan(s: seq<PollFd>, k: Kernel)
    requires NoDup(Fds(s))
    ensures var batch := Scan(Fds(s), ViewOf(s), PollSees(k)); Exact(ViewOf(s), PollSees(k), batch) && Allowed(ViewOf(s), batch)
  {
    forall fd | fd in ViewOf(s) ensures fd in Fds(s) { assert Fds(s)[Find(s, fd)] == fd; }
    ScanExact(Fds(s), ViewOf(s), PollSees(k));
  }

  class DispatcherPoll {
    var lastErrno: int
    var pollfds: seq<PollFd>

    /** One entry a descriptor. */
    ghost predicate Valid()
      reads this
    {
      NoDup(Fds(pollfds))
    }

    ghost function View(): map<int, Interest>
      reads this
    {
      ViewOf(pollfds)
    }

    constructor ()
      ensures Valid() && View() == map[]
    {
      lastErrno := 0;
      pollfds := [];
    }

    method AddEvent(handle: int, readable: bool, writeable: bool) returns (ok: bool)
      modifies this
      ensures ok && lastErrno == old(lastErrno)
      ensures pollfds == old(pollfds) + [PollFd(handle, Interest(readable, writeable))]
      ensures handle !in old(View()) ==>
                (old(Valid()) ==> Valid()) && View() == old(View())[handle := Interest(readable, writeable)]
      ensures handle in old(View()) ==> !Valid()
    {
      var pfd := PollFd(handle, Interest(readable, writeable));
      if handle !in ViewOf(pollfds) {
        Appended(pollfds, pfd);
        if NoDup(Fds(pollfds)) {
          AppendedDistinct(pollfds, pfd);
        }
      } else {
        assert Fds(pollfds + [pfd])[Find(pollfds, handle)] == Fds(pollfds + [pfd])[|pollfds|];
      }
      pollfds := pollfds + [pfd];
      return true;
    }

    /** The source's assert(0) after the loop is the false result. */
    method ModEvent(handle: int, readable: bool, writeable: bool) returns (ok: bool)
      modifies this
      ensures ok <==> handle in old(View())
      ensures ok ==> View() == old(View())[handle := Interest(readable, writeable)] && lastErrno == old(lastErrno)
      ensures Fds(pollfds) == old(Fds(pollfds))
      ensures !ok ==> pollfds == old(pollfds) && lastErrno == ENOTSOCK
    {
      var pfd := PollFd(handle, Interest(readable, writeable));
      for i := 0 to |pollfds|
        invariant pollfds == old(pollfds) && lastErrno == old(lastErrno)
        invariant forall j :: 0 <= j < i ==> pollfds[j].fd != handle
      {
        if handle == pollfds[i].fd {
          FindIs(pollfds, handle, i);
          Replaced(pollfds, pfd);
          pollfds := pollfds[i := pfd];
          return true;
        }
      }
      lastErrno := ENOTSOCK;
      return false;
    }

    method DelEvent(handle: int) returns (ok: bool)
      modifies this
      ensures ok && lastErrno == old(lastErrno)
      ensures pollfds == old(var i := Find(pollfds, handle); if i < |pollfds| then Erase(pollfds, i) else pollfds)
      ensures old(Valid()) ==> Valid() && View() == old(View()) - {handle}
    {
      var i := 0;
      while i < |pollfds| && pollfds[i].fd != handle
        invariant 0 <= i <= |pollfds|
        invariant forall j :: 0 <= j < i ==> pollfds[j].fd != handle
      {
        i := i + 1;
      }
      if i < |pollfds| {
        FindIs(pollfds, handle, i);
        if NoDup(Fds(pollfds)) {
          ErasedDistinct(pollfds, i);
          Erased(pollfds, handle);
        }
        pollfds := Erase(pollfds, i);
      } else {
        assert handle !in ViewOf(pollfds);
      }
      return true;
    }

    method HandleEvents(k: Kernel, fault: nat) returns (ret: int, ready: seq<Event>)
      requires Valid()
      modifies this`lastErrno
      ensures fault != 0 ==> ret == -1 && ready == [] && lastErrno == fault
      ensures fault == 0 ==> ret == |Ready(ready)| && lastErrno == old(lastErrno)
      ensures fault == 0 ==> ready == Scan(Fds(pollfds), View(), PollSees(k))
      ensures fault == 0 ==> Exact(View(), PollSees(k), ready) && Allowed(View(), ready)
      ensures KindsInOrder(ready)
    {
      if fault != 0 {
        lastErrno := fault;
        return -1, [];
      }
      ready := [];
      ret := 0;
      for i := 0 to |pollfds|
        invariant lastErrno == old(lastErrno)
        invariant ready == Scan(Fds(pollfds)[..i], View(), PollSees(k))
        invariant ret == |Ready(ready)|
      {
        VectorStep(pollfds, i, k);
        ReadyStep(pollfds, i, k);
        var now := Revents(pollfds[i], k);
        ret := ret + (if now == [] then 0 else 1);
        ready := ready + now;
      }
      assert Fds(pollfds)[..|pollfds|] == Fds(pollfds);
      VectorScan(pollfds, k);
      ScanKinds(Fds(pollfds), View(), PollSees(k));
    }
  }
}
