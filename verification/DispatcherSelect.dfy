/** The select(2) dispatcher, src/net/dispatcher/select.cc: three bit sets and a high-water mark. */
module SelectDispatcher {
  import opened Dispatching
  import opened Lists

  /** FD_SET is undefined at and above this descriptor. */
  const FD_SETSIZE := 1024

  /** The correspondence between select and poll notifications of select(2): an error or a hang-up
  makes a descriptor readable, an error makes it writable, and only urgent data is exceptional. */
  function SelectSees(k: Kernel): Readiness {
    Readiness(k.input + k.hangup + k.error, k.output + k.error, k.priority)
  }

  /** What an exact batch of select says of each descriptor. */
  lemma SelectSays(view: map<int, Interest>, k: Kernel, ready: seq<Event>, fd: int)
    requires Exact(view, SelectSees(k), ready)
    ensures Says(view, ready, fd, fd in k.input || fd in k.hangup || fd in k.error, fd in k.output || fd in k.error, fd in k.priority)
  {
    assert Event(fd, READ) in ready <==> Reports(view, SelectSees(k), Event(fd, READ));
    assert Event(fd, WRITE) in ready <==> Reports(view, SelectSees(k), Event(fd, WRITE));
    assert Event(fd, ERROR) in ready <==> Reports(view, SelectSees(k), Event(fd, ERROR));
  }

  function UpTo(n: nat): (s: seq<int>)
    ensures |s| == n && NoDup(s) && forall i :: 0 <= i < n ==> s[i] == i
    ensures forall i :: i in s <==> 0 <= i < n
  {
    var s := seq(n, i => i);
    forall i | 0 <= i < n ensures i in s { assert s[i] == i; }
    s
  }

  lemma UpToStep(i: nat, view: map<int, Interest>, k: Readiness)
    ensures Scan(UpTo(i + 1), view, k) == Scan(UpTo(i), view, k) + ScanOne(i, view, k)
  {
    assert UpTo(i + 1)[..i] == UpTo(i);
  }

  /** A scan up to a mark that no registered descriptor reaches. */
  lemma FullScan(n: nat, view: map<int, Interest>, k: Readiness)
    requires forall fd :: fd in view ==> 0 <= fd < n
    ensures var ready := Scan(UpTo(n), view, k);
            Exact(view, k, ready) && Allowed(view, ready) && Ascending(ready) && KindsInOrder(ready)
  {
    ScanAscends(UpTo(n), view, k);
    ScanKinds(UpTo(n), view, k);
    ScanExact(UpTo(n), view, k);
  }

  class DispatcherSelect {
    var maxfd: int
    var lastErrno: int
    var rsets: set<int>
    var wsets: set<int>
    var esets: set<int>

    /** Nothing is asked of an unregistered descriptor, and the scan reaches every registered one. */
    ghost predicate Valid()
      reads this
    {
      && rsets <= esets && wsets <= esets
      && -1 <= maxfd
      && forall fd :: fd in esets ==> 0 <= fd <= maxfd
    }

    ghost function View(): (m: map<int, Interest>)
      reads this
      ensures m.Keys == esets
    {
      map fd | fd in esets :: Interest(fd in rsets, fd in wsets)
    }

    constructor ()
      ensures Valid() && View() == map[]
    {
      maxfd, lastErrno := -1, 0;
      rsets, wsets, esets := {}, {}, {};
    }

    /** Registering a descriptor again widens what is asked of it. */
    method AddEvent(handle: int, readable: bool, writeable: bool) returns (ok: bool)
      requires Valid() && 0 <= handle < FD_SETSIZE
      modifies this
      ensures Valid() && ok
      ensures View() == old(View())[handle :=
                if handle !in old(View()) then Interest(readable, writeable)
                else Interest(old(View()[handle]).readable || readable, old(View()[handle]).writeable || writeable)]
      ensures maxfd >= old(maxfd) && lastErrno == old(lastErrno)
    {
      if readable {
        rsets := rsets + {handle};
      }
      if writeable {
        wsets := wsets + {handle};
      }
      esets := esets + {handle};
      if handle > maxfd {
        maxfd := handle;
      }
      return true;
    }

    method ModEvent(handle: int, readable: bool, writeable: bool) returns (ok: bool)
      requires Valid() && 0 <= handle < FD_SETSIZE
      modifies this
      ensures ok && esets == old(esets) && maxfd == old(maxfd) && lastErrno == old(lastErrno)
      ensures handle in esets ==> Valid() && View() == old(View())[handle := Interest(readable, writeable)]
      ensures handle !in esets ==> (Valid() <==> !readable && !writeable) // bits without an except bit
    {
      rsets := if readable then rsets + {handle} else rsets - {handle};
      wsets := if writeable then wsets + {handle} else wsets - {handle};
      return true;
    }

    /** The high-water mark is never lowered. */
    method DelEvent(handle: int) returns (ok: bool)
      requires Valid()
      modifies this
      ensures Valid() && ok && maxfd == old(maxfd) && lastErrno == old(lastErrno)
      ensures View() == old(View()) - {handle}
    {
      rsets := rsets - {handle};
      wsets := wsets - {handle};
      esets := esets - {handle};
      return true;
    }

    /** select(2) intersects its three sets with what is ready; `fault` is its errno, 0 for none. */
    method HandleEvents(k: Kernel, fault: nat) returns (ret: int, ready: seq<Event>)
      requires Valid()
      modifies this`lastErrno
      ensures fault != 0 ==> ret == -1 && ready == [] && lastErrno == fault
      ensures fault == 0 ==> ret == |ready| && Exact(View(), SelectSees(k), ready) && Allowed(View(), ready)
      ensures fault == 0 ==> lastErrno == old(lastErrno)
      ensures Ascending(ready) && KindsInOrder(ready)
    {
      if fault != 0 {
        lastErrno := fault;
        return -1, [];
      }
      var readset, writeset, exceptset := rsets * (k.input + k.hangup + k.error), wsets * (k.output + k.error), esets * k.priority;
      ghost var view, sees := View(), SelectSees(k);
      ready := ScanSets(maxfd + 1, readset, writeset, exceptset, view, sees);
      FullScan(maxfd + 1, view, sees);
      return |ready|, ready;
    }

    /** The loop over the descriptors up to the mark. */
    static method ScanSets(n: nat, readset: set<int>, writeset: set<int>, exceptset: set<int>, ghost view: map<int, Interest>, ghost sees: Readiness)
      returns (ready: seq<Event>)
      requires forall fd :: fd in readset <==> Reports(view, sees, Event(fd, READ))
      requires forall fd :: fd in writeset <==> Reports(view, sees, Event(fd, WRITE))
      requires forall fd :: fd in exceptset <==> Reports(view, sees, Event(fd, ERROR))
      ensures ready == Scan(UpTo(n), view, sees)
    {
      ready := [];
      for i := 0 to n
        invariant ready == Scan(UpTo(i), view, sees)
      {
        UpToStep(i, view, sees);
        ready := ready + EventsOf(i, i in readset, i in writeset, i in exceptset);
      }
    }
  }
}
