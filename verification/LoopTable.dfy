/** The state behind register_event, modify_event and delete_event of src/net/service_loop.cc:
the handler table and the interests its dispatcher holds. The table maps a descriptor to a
handler or to NULL, because reading `handlers_[fd]` creates the entry. */
module LoopTable {
  import opened Dispatching
  import opened EpollDispatcher
  import PollDispatcher

  datatype Option<+T> = None | Some(value: T)
  datatype Backend = SELECT | POLL | EPOLL

  /** A handler is known by the identity it was allocated with. */
  type Id = nat

  datatype Loop = Loop(backend: Backend, table: map<int, Option<Id>>, interest: map<int, Interest>)

  function Meaning(backend: Backend, readable: bool, writeable: bool): Interest {
    if backend == EPOLL then Effective(readable, writeable) else Interest(readable, writeable)
  }

  function Register(l: Loop, h: int, readable: bool, writeable: bool, id: Id, fault: CtlFault): (r: (Loop, int))
    requires l.backend != EPOLL ==> h !in l.interest
  {
    if l.backend == EPOLL && (h in l.interest || fault != 0) then (l, if h in l.interest then EEXIST else fault)
    else (l.(table := l.table[h := Some(id)], interest := l.interest[h := Meaning(l.backend, readable, writeable)]), 0)
  }

  function Modify(l: Loop, h: int, readable: bool, writeable: bool, id: Id, fault: CtlFault): (r: (Loop, int))
    requires l.backend == SELECT ==> h in l.interest
  {
    if h !in l.interest then (l, if l.backend == EPOLL then ENOENT else PollDispatcher.ENOTSOCK)
    else if l.backend == EPOLL && fault != 0 then (l, fault)
    else (l.(table := l.table[h := Some(id)], interest := l.interest[h := Meaning(l.backend, readable, writeable)]), 0)
  }

  function Delete(l: Loop, h: int, fault: CtlFault): (r: (Loop, int)) {
    if h !in l.table then (l, 0)
    else if l.backend == EPOLL && h in l.interest && fault != 0 then (l, fault)
    else (l.(table := l.table - {h}, interest := l.interest - {h}), 0)
  }

  /** `handlers_[fd]` on the right of an assignment. */
  function Lookup(l: Loop, h: int): (r: (Loop, Option<Id>)) {
    if h in l.table then (l, l.table[h]) else (l.(table := l.table[h := None]), None)
  }

  /** Epoll watches for writing only once writing is asked for; the others for what is asked. */
  lemma MeaningIs(backend: Backend, readable: bool, writeable: bool)
    ensures backend != EPOLL ==> Meaning(backend, readable, writeable) == Interest(readable, writeable)
    ensures Meaning(EPOLL, readable, true) == Interest(false, true) && Meaning(EPOLL, readable, false) == Interest(readable, false)
  {}

  /** When each call succeeds, what it changes then, and that it changes nothing else or otherwise. */
  lemma CallsMean(l: Loop, h: int, readable: bool, writeable: bool, id: Id, fault: CtlFault)
    ensures l.backend == EPOLL || h !in l.interest ==>
              Outcome(l, Register(l, h, readable, writeable, id, fault),
                      if l.backend != EPOLL then 0 else if h in l.interest then EEXIST else fault,
                      l.table[h := Some(id)], l.interest[h := Meaning(l.backend, readable, writeable)])
    ensures l.backend != SELECT || h in l.interest ==>
              Outcome(l, Modify(l, h, readable, writeable, id, fault),
                      if h !in l.interest then (if l.backend == EPOLL then ENOENT else PollDispatcher.ENOTSOCK) else if l.backend == EPOLL then fault else 0,
                      l.table[h := Some(id)], l.interest[h := Meaning(l.backend, readable, writeable)])
    ensures h in l.table ==>
              Outcome(l, Delete(l, h, fault), if l.backend == EPOLL && h in l.interest then fault else 0, l.table - {h}, l.interest - {h})
    ensures h !in l.table ==> Delete(l, h, fault) == (l, 0)
    ensures h in l.table ==> Lookup(l, h) == (l, l.table[h])
    ensures h !in l.table ==> Lookup(l, h) == (l.(table := l.table[h := None]), None)
  {}

  /** The call returns `errno`; the loop has the new table and interests if that is 0, and is as it was
  otherwise. */
  predicate Outcome(l: Loop, r: (Loop, int), errno: int, table: map<int, Option<Id>>, interest: map<int, Interest>) {
    r.1 == errno && r.0 == if errno == 0 then Loop(l.backend, table, interest) else l
  }

  predicate Live(l: Loop, h: int) { h in l.table && l.table[h].Some? }

  /** The descriptors with a handler are exactly those the dispatcher watches. */
  ghost predicate Agreement(l: Loop) {
    forall h :: Live(l, h) <==> h in l.interest
  }

  lemma AgreementKept(l: Loop, h: int, readable: bool, writeable: bool, id: Id, fault: CtlFault)
    requires Agreement(l)
    ensures l.backend == EPOLL || h !in l.interest ==> Agreement(Register(l, h, readable, writeable, id, fault).0)
    ensures l.backend != SELECT || h in l.interest ==> Agreement(Modify(l, h, readable, writeable, id, fault).0)
    ensures Agreement(Delete(l, h, fault).0) && Agreement(Lookup(l, h).0)
    ensures fault == 0 ==> h !in Delete(l, h, fault).0.interest && !Live(Delete(l, h, fault).0, h)
    ensures Lookup(l, h).1.Some? <==> h in l.interest
  {
    assert Live(l, h) <==> h in l.interest;
    var d := Delete(l, h, fault).0;
    if d != l {
      forall x ensures Live(d, x) <==> x in d.interest {
        assert Live(l, x) <==> x in l.interest;
      }
    }
    var u := Lookup(l, h).0;
    forall x ensures Live(u, x) <==> x in u.interest {
      assert Live(l, x) <==> x in l.interest;
    }
  }
}
