/** The epoll(7) dispatcher, src/net/dispatcher/epoll.cc: the kernel's interest table and a
counter that sizes the array handed to epoll_wait. */
module EpollDispatcher {
  import opened Dispatching
  import opened Lists

  const ENOENT := 2
  const EEXIST := 17
  const EINVAL := 22

  /** The errno with which epoll_ctl refuses a call on a good descriptor, 0 when it does not. */
  type CtlFault = e: int | 0 <= e && e != ENOENT

  /** EPOLLOUT is assigned over EPOLLIN, not added to it. */
  function Effective(readable: bool, writeable: bool): Interest {
    Interest(readable && !writeable, writeable)
  }

  /** EPOLLIN alone is asked for, so urgent data is not seen. */
  function EpollSees(k: Kernel): Readiness {
    Readiness(k.input, k.output, k.error + k.hangup)
  }

  predicate IsReady(view: map<int, Interest>, k: Kernel, fd: int) {
    || Reports(view, EpollSees(k), Event(fd, READ))
    || Reports(view, EpollSees(k), Event(fd, WRITE))
    || Reports(view, EpollSees(k), Event(fd, ERROR))
  }

  class DispatcherEpoll {
    var kernel: map<int, Interest>
    var lastErrno: int
    var fdCount: int

    /** One epoll_wait can return every registered descriptor. */
    ghost predicate Valid()
      reads this
    {
      |kernel| <= fdCount
    }

    ghost function View(): map<int, Interest>
      reads this
    {
      kernel
    }

    constructor ()
      ensures Valid() && View() == map[]
    {
      kernel, lastErrno, fdCount := map[], 0, 0;
    }

    method AddEvent(handle: int, readable: bool, writeable: bool, fault: CtlFault) returns (ok: bool)
      requires Valid() && (readable || writeable)
      modifies this
      ensures Valid() && (ok <==> handle !in old(View()) && fault == 0)
      ensures ok ==> View() == old(View())[handle := Effective(readable, writeable)] && lastErrno == old(lastErrno)
      ensures !ok ==> View() == old(View()) && lastErrno == if handle in old(View()) then EEXIST else fault
    {
      var events := Interest(false, false); // the union's bits, set below
      if readable {
        events := Interest(true, false);
      }
      if writeable {
        events := Interest(false, true);
      }
      if handle in kernel || fault != 0 {
        lastErrno := if handle in kernel then EEXIST else fault;
        return false;
      }
      kernel := kernel[handle := events];
      fdCount := fdCount + 1;
      return true;
    }

    method ModEvent(handle: int, readable: bool, writeable: bool, fault: CtlFault) returns (ok: bool)
      requires Valid() && (readable || writeable)
      modifies this
      ensures Valid() && (ok <==> handle in old(View()) && fault == 0)
      ensures ok ==> View() == old(View())[handle := Effective(readable, writeable)] && lastErrno == old(lastErrno)
      ensures !ok ==> View() == old(View()) && lastErrno == if handle in old(View()) then fault else ENOENT
    {
      var events := Interest(false, false);
      if readable {
        events := Interest(true, false);
      }
      if writeable {
        events := Interest(false, true);
      }
      if handle !in kernel || fault != 0 {
        lastErrno := if handle in kernel then fault else ENOENT;
        return false;
      }
      assert kernel[handle := events].Keys == kernel.Keys;
      assert |kernel[handle := events].Keys| == |kernel.Keys|;
      kernel := kernel[handle := events];
      return true;
    }

    /** A descriptor the kernel does not know is no failure; and every success counts up. */
    method DelEvent(handle: int, fault: CtlFault) returns (ok: bool)
      requires Valid()
      modifies this
      ensures Valid() && (ok <==> handle !in old(View()) || fault == 0)
      ensures ok ==> View() == old(View()) - {handle} && fdCount == old(fdCount) + 1 && lastErrno == old(lastErrno)
      ensures !ok ==> View() == old(View()) && fdCount == old(fdCount) && lastErrno == fault
    {
      var errno := if handle !in kernel then ENOENT else fault;
      if errno != 0 {
        if ENOENT != errno {
          lastErrno := errno;
          return false;
        }
      } else {
        assert (kernel - {handle}).Keys == kernel.Keys - {handle};
        kernel := kernel - {handle};
      }
      assert handle !in kernel;
      fdCount := fdCount + 1;
      return true;
    }

    /** What epoll_wait may hand back: registered, ready descriptors, each once, no more than asked. */
    ghost predicate Waited(k: Kernel, picked: seq<int>)
      reads this
    {
      && NoDup(picked) && |picked| <= fdCount
      && forall fd :: fd in picked ==> fd in kernel && IsReady(kernel, k, fd)
    }

    /** The array is long enough for every ready descriptor at once. */
    lemma OneWaitSuffices(k: Kernel, picked: seq<int>)
      requires Valid() && NoDup(picked)
      requires forall fd :: fd in picked ==> fd in kernel && IsReady(kernel, k, fd)
      ensures Waited(k, picked)
    {
      forall fd | fd in picked ensures fd in kernel.Keys { assert fd in kernel; }
      DistinctBound(picked, kernel.Keys);
    }

    method HandleEvents(k: Kernel, picked: seq<int>, fault: nat) returns (ret: int, ready: seq<Event>)
      requires Valid() && Waited(k, picked)
      modifies this`lastErrno
      ensures fault != 0 || fdCount == 0 ==> ret == -1 && ready == [] && lastErrno == if fault != 0 then fault else EINVAL
      ensures fault == 0 && fdCount > 0 ==> ret == |picked| && NoDup(ready) && lastErrno == old(lastErrno)
      ensures fault == 0 && fdCount > 0 ==> forall e :: e in ready <==> e.fd in picked && Reports(View(), EpollSees(k), e)
      ensures Allowed(View(), ready) && KindsInOrder(ready)
      ensures fault == 0 && fdCount > 0 ==> forall fd :: fd in picked ==>
                Says(View(), ready, fd, fd in k.input, fd in k.output, fd in k.error || fd in k.hangup)
      ensures forall e :: e in ready ==> e.fd in picked
    {
      if fault != 0 || fdCount == 0 {
        lastErrno := if fault != 0 then fault else EINVAL;
        return -1, [];
      }
      ready := [];
      for i := 0 to |picked|
        invariant lastErrno == old(lastErrno)
        invariant ready == Scan(picked[..i], View(), EpollSees(k))
      {
        var fd := picked[i];
        assert fd in picked;
        ScanStep(picked, i, View(), EpollSees(k));
        var ev := kernel[fd];
        ready := ready + EventsOf(fd, ev.readable && fd in k.input, ev.writeable && fd in k.output, fd in k.error || fd in k.hangup);
      }
      assert picked[..|picked|] == picked;
      ScanMembers(picked, View(), EpollSees(k));
      ScanKinds(picked, View(), EpollSees(k));
      return |picked|, ready;
    }
  }
}
