/** What the three event dispatchers have in common (src/net/event_dispatcher.h): the interest
registered for a descriptor, the ready events, and the table of interests each of them denotes. */
module Dispatching {
  import opened Lists

  datatype Interest = Interest(readable: bool, writeable: bool)

  datatype Kind = READ | WRITE | ERROR
  datatype Event = Event(fd: int, kind: Kind)

  /** What the kernel knows of the descriptors, in the terms of poll(2): input, urgent input, room for
  output, an error, a hang-up. */
  datatype Kernel = Kernel(input: set<int>, priority: set<int>, output: set<int>, error: set<int>, hangup: set<int>)

  /** What one of the three system calls makes of it, before it is restricted to what was asked for:
  the descriptors it calls readable, writable and exceptional. */
  datatype Readiness = Readiness(input: set<int>, output: set<int>, error: set<int>)

  /** The events that a dispatcher holding the interests `view` owes its caller. */
  predicate Reports(view: map<int, Interest>, k: Readiness, e: Event) {
    && e.fd in view
    && match e.kind
       case READ => view[e.fd].readable && e.fd in k.input
       case WRITE => view[e.fd].writeable && e.fd in k.output
       case ERROR => e.fd in k.error
  }

  /** The events one descriptor contributes, in the order the three scans push them. */
  function EventsOf(fd: int, input: bool, output: bool, error: bool): seq<Event> {
    (if input then [Event(fd, READ)] else [])
    + (if output then [Event(fd, WRITE)] else [])
    + (if error then [Event(fd, ERROR)] else [])
  }

  /** A batch of ready events that is complete and exact for the interests `view`. */
  ghost predicate Exact(view: map<int, Interest>, k: Readiness, ready: seq<Event>) {
    NoDup(ready) && forall e :: e in ready <==> Reports(view, k, e)
  }

  /** What any batch must satisfy to be dispatched: events of registered descriptors, asked for,
  each once. */
  ghost predicate Allowed(view: map<int, Interest>, ready: seq<Event>) {
    && NoDup(ready)
    && forall e :: e in ready ==>
         && e.fd in view
         && (e.kind == READ ==> view[e.fd].readable)
         && (e.kind == WRITE ==> view[e.fd].writeable)
  }

  /** What a scan finds for one descriptor. */
  function ScanOne(fd: int, view: map<int, Interest>, k: Readiness): seq<Event> {
    EventsOf(fd, Reports(view, k, Event(fd, READ)), Reports(view, k, Event(fd, WRITE)), Reports(view, k, Event(fd, ERROR)))
  }

  lemma ScanOneMembers(fd: int, view: map<int, Interest>, k: Readiness)
    ensures NoDup(ScanOne(fd, view, k))
    ensures forall e :: e in ScanOne(fd, view, k) <==> e.fd == fd && Reports(view, k, e)
  {
    forall e ensures e in ScanOne(fd, view, k) <==> e.fd == fd && Reports(view, k, e) {
      assert e == Event(e.fd, e.kind);
    }
  }

  /** What the scans return when they visit the descriptors `fds` in that order. */
  function Scan(fds: seq<int>, view: map<int, Interest>, k: Readiness): seq<Event> {
    if fds == [] then [] else Scan(fds[..|fds| - 1], view, k) + ScanOne(fds[|fds| - 1], view, k)
  }

  lemma ScanStep(fds: seq<int>, i: nat, view: map<int, Interest>, k: Readiness)
    requires i < |fds|
    ensures Scan(fds[..i + 1], view, k) == Scan(fds[..i], view, k) + ScanOne(fds[i], view, k)
  {
    assert fds[..i + 1][..i] == fds[..i];
  }

  lemma {:induction false} ScanMembers(fds: seq<int>, view: map<int, Interest>, k: Readiness)
    requires NoDup(fds)
    ensures NoDup(Scan(fds, view, k))
    ensures forall e :: e in Scan(fds, view, k) <==> e.fd in fds && Reports(view, k, e)
  {
    if fds == [] {
    } else {
      var front, fd := fds[..|fds| - 1], fds[|fds| - 1];
      ScanMembers(front, view, k);
      ScanOneMembers(fd, view, k);
      assert forall x :: x in fds <==> x in front || x == fd;
      NoDupConcat(Scan(front, view, k), ScanOne(fd, view, k));
    }
  }

  predicate Before(a: Kind, b: Kind) { (a == READ && b != READ) || (a == WRITE && b == ERROR) }

  /** A descriptor is reported readable before writable before in error. */
  ghost predicate KindsInOrder(ready: seq<Event>) {
    forall i, j :: 0 <= i < j < |ready| && ready[i].fd == ready[j].fd ==> Before(ready[i].kind, ready[j].kind)
  }

  lemma {:induction false} ScanKinds(fds: seq<int>, view: map<int, Interest>, k: Readiness)
    requires NoDup(fds)
    ensures KindsInOrder(Scan(fds, view, k))
  {
    if fds == [] {
    } else {
      var front, fd := fds[..|fds| - 1], fds[|fds| - 1];
      ScanKinds(front, view, k);
      ScanMembers(front, view, k);
      ScanOneMembers(fd, view, k);
      KindsConcat(Scan(front, view, k), ScanOne(fd, view, k), fd);
    }
  }

  lemma KindsConcat(a: seq<Event>, b: seq<Event>, fd: int)
    requires KindsInOrder(a) && KindsInOrder(b)
    requires (forall e :: e in a ==> e.fd != fd) && forall e :: e in b ==> e.fd == fd
    ensures KindsInOrder(a + b)
  {
    assert forall i :: 0 <= i < |a| ==> a[i] in a;
    assert forall j :: 0 <= j < |b| ==> b[j] in b;
    forall i, j | 0 <= i < j < |a + b| && (a + b)[i].fd == (a + b)[j].fd ensures Before((a + b)[i].kind, (a + b)[j].kind) {}
  }

  /** What a batch for the interests `view` says of one descriptor, in its three sets. */
  predicate Says(view: map<int, Interest>, ready: seq<Event>, fd: int, input: bool, output: bool, error: bool) {
    && (Event(fd, READ) in ready <==> fd in view && view[fd].readable && input)
    && (Event(fd, WRITE) in ready <==> fd in view && view[fd].writeable && output)
    && (Event(fd, ERROR) in ready <==> fd in view && error)
  }

  /** Scanning ascending descriptors reports them ascending. */
  lemma {:induction false} ScanAscends(fds: seq<int>, view: map<int, Interest>, k: Readiness)
    requires forall i, j :: 0 <= i < j < |fds| ==> fds[i] < fds[j]
    ensures Ascending(Scan(fds, view, k))
  {
    if fds == [] {
    } else {
      var front, fd := fds[..|fds| - 1], fds[|fds| - 1];
      ScanAscends(front, view, k);
      ScanMembers(front, view, k);
      ScanOneMembers(fd, view, k);
      var r, last := Scan(front, view, k), ScanOne(fd, view, k);
      var both: seq<Event> := r + last;
      forall i, j | 0 <= i < j < |both| ensures both[i].fd <= both[j].fd {
        if i < |r| { assert r[i] in r; }
        if i >= |r| { assert last[i - |r|] in last; }
        if j >= |r| { assert last[j - |r|] in last; }
      }
    }
  }

  ghost predicate Ascending(ready: seq<Event>) {
    forall i, j :: 0 <= i < j < |ready| ==> ready[i].fd <= ready[j].fd
  }

  /** A scan that visits every registered descriptor once reports exactly what is ready. */
  lemma ScanExact(fds: seq<int>, view: map<int, Interest>, k: Readiness)
    requires NoDup(fds) && forall fd :: fd in view ==> fd in fds
    ensures Exact(view, k, Scan(fds, view, k))
    ensures Allowed(view, Scan(fds, view, k))
  {
    ScanMembers(fds, view, k);
  }
}
