/** The select and poll dispatchers refine one table of interests. */
module DispatcherAgreement {
  import opened Dispatching
  import opened Lists
  import opened SelectDispatcher
  import opened PollDispatcher
  import opened EpollDispatcher

  datatype Op = Add(fd: int, interest: Interest) | Mod(fd: int, interest: Interest) | Del(fd: int)

  function Applied(table: map<int, Interest>, op: Op): map<int, Interest> {
    match op
    case Add(fd, i) => table[fd := i]
    case Mod(fd, i) => table[fd := i]
    case Del(fd) => table - {fd}
  }

  /** The table the history leaves; every backend is asked to hold it. */
  function Table(ops: seq<Op>): map<int, Interest> {
    if ops == [] then map[] else Applied(Table(ops[..|ops| - 1]), ops[|ops| - 1])
  }

  predicate ValidOp(table: map<int, Interest>, op: Op) {
    && 0 <= op.fd < FD_SETSIZE
    && (op.Add? ==> op.fd !in table)
    && (op.Mod? ==> op.fd in table)
  }

  /** Only fresh descriptors are added and only registered ones modified. */
  predicate ValidOps(ops: seq<Op>) {
    ops != [] ==> ValidOps(ops[..|ops| - 1]) && ValidOp(Table(ops[..|ops| - 1]), ops[|ops| - 1])
  }

  lemma {:induction false} ValidPrefix(ops: seq<Op>, i: nat)
    requires ValidOps(ops) && i <= |ops|
    ensures ValidOps(ops[..i])
  {
    if i == |ops| {
      assert ops[..i] == ops;
    } else {
      ValidPrefix(ops[..|ops| - 1], i);
      assert ops[..|ops| - 1][..i] == ops[..i];
    }
  }

  method Perform(op: Op, s: DispatcherSelect, p: DispatcherPoll)
    requires s.Valid() && p.Valid() && s.View() == p.View() && ValidOp(s.View(), op)
    modifies s, p
    ensures s.Valid() && p.Valid() && s.View() == p.View() == Applied(old(s.View()), op)
  {
    var ok: bool;
    match op {
      case Add(fd, interest) =>
        ok := s.AddEvent(fd, interest.readable, interest.writeable);
        ok := p.AddEvent(fd, interest.readable, interest.writeable);
      case Mod(fd, interest) =>
        ok := s.ModEvent(fd, interest.readable, interest.writeable);
        ok := p.ModEvent(fd, interest.readable, interest.writeable);
      case Del(fd) =>
        ok := s.DelEvent(fd);
        ok := p.DelEvent(fd);
    }
  }

  /** On every registered descriptor both see the same reason to read and to write. */
  predicate SameReadWrite(view: map<int, Interest>, k: Kernel) {
    forall fd :: fd in view ==>
      && (view[fd].readable && fd !in k.input ==> (fd in k.priority <==> fd in k.error || fd in k.hangup))
      && (view[fd].writeable && fd in k.error ==> fd in k.output)
  }

  /** And both see the same reason to close: urgent data comes exactly with an error or a hang-up. */
  predicate SameBatch(view: map<int, Interest>, k: Kernel) {
    forall fd :: fd in view ==>
      && (fd in k.priority <==> fd in k.error || fd in k.hangup)
      && (view[fd].writeable && fd in k.error ==> fd in k.output)
  }

  /** Exact batches of the two agree on reading and writing, and agree altogether, exactly under
  these conditions on the kernel's state. */
  lemma AgreeIff(view: map<int, Interest>, k: Kernel, a: seq<Event>, b: seq<Event>)
    requires Exact(view, SelectSees(k), a) && Exact(view, PollSees(k), b)
    ensures (forall e: Event :: e.kind != ERROR ==> (e in a <==> e in b)) <==> SameReadWrite(view, k)
    ensures multiset(a) == multiset(b) <==> SameBatch(view, k)
  {
    if forall e: Event :: e.kind != ERROR ==> (e in a <==> e in b) {
      forall fd | fd in view
        ensures view[fd].readable && fd !in k.input ==> (fd in k.priority <==> fd in k.error || fd in k.hangup)
        ensures view[fd].writeable && fd in k.error ==> fd in k.output
      {
        assert Event(fd, READ) in a <==> Event(fd, READ) in b;
        assert Event(fd, WRITE) in a <==> Event(fd, WRITE) in b;
      }
    }
    if SameBatch(view, k) {
      SameElements(a, b);
    }
    if multiset(a) == multiset(b) {
      forall e ensures e in a <==> e in b { assert e in multiset(a) <==> e in multiset(b); }
      forall fd | fd in view
        ensures fd in k.priority <==> fd in k.error || fd in k.hangup
        ensures view[fd].writeable && fd in k.error ==> fd in k.output
      {
        assert Event(fd, ERROR) in a <==> Event(fd, ERROR) in b;
        assert Event(fd, WRITE) in a <==> Event(fd, WRITE) in b;
      }
    }
  }

  /** Urgent data on a descriptor watched for reading: poll has it read, select reports an error, on
  which a connection closes. */
  lemma UrgentDataDiffers(fd: int, a: seq<Event>, b: seq<Event>)
    requires var view, k := map[fd := Interest(true, false)], Kernel({}, {fd}, {}, {}, {});
             Exact(view, SelectSees(k), a) && Exact(view, PollSees(k), b)
    ensures Event(fd, ERROR) in a && Event(fd, READ) !in a && Event(fd, READ) in b && Event(fd, ERROR) !in b
  {
    var view, k := map[fd := Interest(true, false)], Kernel({}, {fd}, {}, {}, {});
    assert Reports(view, SelectSees(k), Event(fd, ERROR)) && !Reports(view, SelectSees(k), Event(fd, READ));
    assert Reports(view, PollSees(k), Event(fd, READ)) && !Reports(view, PollSees(k), Event(fd, ERROR));
  }

  /** No urgent data without input on a descriptor watched for reading. */
  predicate NoBareUrgency(view: map<int, Interest>, k: Kernel) {
    forall fd :: fd in view && view[fd].readable && fd in k.priority ==> fd in k.input
  }

  /** On one table of interests epoll and poll report the same, except that only poll has urgent data
  read. */
  lemma EpollAgreesIff(view: map<int, Interest>, k: Kernel, a: seq<Event>, b: seq<Event>)
    requires Exact(view, EpollSees(k), a) && Exact(view, PollSees(k), b)
    ensures multiset(a) == multiset(b) <==> NoBareUrgency(view, k)
    ensures forall e: Event :: e.kind != READ ==> (e in a <==> e in b)
    ensures forall fd :: Event(fd, READ) in a ==> Event(fd, READ) in b
  {
    if NoBareUrgency(view, k) {
      SameElements(a, b);
    }
    if multiset(a) == multiset(b) {
      forall e ensures e in a <==> e in b { assert e in multiset(a) <==> e in multiset(b); }
      forall fd | fd in view && view[fd].readable && fd in k.priority ensures fd in k.input {
        assert Event(fd, READ) in a <==> Event(fd, READ) in b;
      }
    }
  }

  /** Drive one dispatcher of each kind through the same history, then poll both on the same kernel
  state: they hold the same table and report exactly what their system calls see in it, select by
  ascending descriptor and poll in vector order. */
  method SelectAndPollAgree(ops: seq<Op>, k: Kernel) returns (a: seq<Event>, b: seq<Event>)
    requires ValidOps(ops)
    ensures Exact(Table(ops), SelectSees(k), a) && Exact(Table(ops), PollSees(k), b) && Ascending(a)
    ensures (forall e: Event :: e.kind != ERROR ==> (e in a <==> e in b)) <==> SameReadWrite(Table(ops), k)
    ensures multiset(a) == multiset(b) <==> SameBatch(Table(ops), k)
  {
    var s := new DispatcherSelect();
    var p := new DispatcherPoll();
    for i := 0 to |ops|
      invariant fresh(s) && fresh(p) && s.Valid() && p.Valid()
      invariant s.View() == p.View() == Table(ops[..i])
    {
      ValidPrefix(ops, i + 1);
      assert ops[..i + 1][..i] == ops[..i];
      Perform(ops[i], s, p);
    }
    assert ops[..|ops|] == ops;
    var ret: int;
    ret, a := s.HandleEvents(k, 0);
    ret, b := p.HandleEvents(k, 0);
    AgreeIff(Table(ops), k, a, b);
  }
}
