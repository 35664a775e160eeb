/** The Python reactor, python/mult_thread_reactor_server.py: three lists of handles handed to
select.select, a dictionary of handlers, and connections that switch between reading and writing. */
module PyReactor {
  import opened Streams
  import opened Lists

  type Handle = int
  datatype Kind = ACCEPTOR | CONNECTION
  datatype Mode = Mode(read: bool, write: bool, error: bool)

  const READ := Mode(true, false, false)
  const WRITE := Mode(false, true, false)
  const NEITHER := Mode(false, false, false)

  // ---- registration -----------------------------------------------------------------------

  datatype Tables = Tables(inputs: seq<Handle>, outputs: seq<Handle>, excepts: seq<Handle>, handlers: map<Handle, Kind>)

  function Listed(s: seq<Handle>, h: Handle, wanted: bool): seq<Handle> {
    if wanted && h !in s then s + [h] else s
  }

  function Register(t: Tables, h: Handle, kind: Kind, mode: Mode): Tables {
    Tables(Listed(t.inputs, h, mode.read), Listed(t.outputs, h, mode.write), Listed(t.excepts, h, mode.error), t.handlers[h := kind])
  }

  function Unregister(t: Tables, h: Handle): Tables {
    Tables(Without(t.inputs, h), Without(t.outputs, h), Without(t.excepts, h), t.handlers - {h})
  }

  function Modify(t: Tables, h: Handle, kind: Kind, mode: Mode): Tables {
    Register(Unregister(t, h), h, kind, mode)
  }

  /** Each registered handle is listed once, to be read or to be written, and none for exceptions. */
  ghost predicate TablesInv(t: Tables) {
    && NoDup(t.inputs) && NoDup(t.outputs) && t.excepts == []
    && forall h :: (h in t.handlers <==> h in t.inputs || h in t.outputs) && !(h in t.inputs && h in t.outputs)
  }

  /** The handle is now read or written as the mode says, and no other handle moved. */
  ghost predicate Moved(t: Tables, r: Tables, h: Handle, mode: Mode) {
    && (h in r.inputs <==> mode == READ) && (h in r.outputs <==> mode == WRITE)
    && forall x :: x != h ==> (x in r.inputs <==> x in t.inputs) && (x in r.outputs <==> x in t.outputs)
  }

  lemma RegisterKeeps(t: Tables, h: Handle, kind: Kind, mode: Mode)
    requires TablesInv(t) && h !in t.handlers && (mode == READ || mode == WRITE)
    ensures TablesInv(Register(t, h, kind, mode)) && Register(t, h, kind, mode).handlers.Keys == t.handlers.Keys + {h}
    ensures Moved(t, Register(t, h, kind, mode), h, mode)
  {
    NoDupConcat(if mode.read then t.inputs else t.outputs, [h]);
  }

  lemma UnregisterKeeps(t: Tables, h: Handle)
    requires TablesInv(t)
    ensures TablesInv(Unregister(t, h)) && Unregister(t, h).handlers.Keys == t.handlers.Keys - {h}
    ensures Moved(t, Unregister(t, h), h, NEITHER)
  {
    WithoutKeeps(t.inputs, h);
    WithoutKeeps(t.outputs, h);
  }

  /** Switching the mode of a registered handle keeps the tables and the set of handles. */
  lemma ModifyKeeps(t: Tables, h: Handle, kind: Kind, mode: Mode)
    requires TablesInv(t) && h in t.handlers && (mode == READ || mode == WRITE)
    ensures TablesInv(Modify(t, h, kind, mode)) && Modify(t, h, kind, mode).handlers.Keys == t.handlers.Keys
    ensures Moved(t, Modify(t, h, kind, mode), h, mode)
  {
    UnregisterKeeps(t, h);
    RegisterKeeps(Unregister(t, h), h, kind, mode);
  }

  class ServiceLoop {
    var inputs: seq<Handle>
    var outputs: seq<Handle>
    var excepts: seq<Handle>
    var handlers: map<Handle, Kind>

    constructor ()
      ensures State() == Tables([], [], [], map[])
    {
      inputs, outputs, excepts, handlers := [], [], [], map[];
    }

    ghost function State(): Tables
      reads this
    {
      Tables(inputs, outputs, excepts, handlers)
    }

    method RegisterHandle(h: Handle, kind: Kind, mode: Mode)
      modifies this
      ensures State() == Register(old(State()), h, kind, mode)
    {
      if mode.read && h !in inputs {
        inputs := inputs + [h];
      }
      if mode.write && h !in outputs {
        outputs := outputs + [h];
      }
      if mode.error && h !in excepts {
        excepts := excepts + [h];
      }
      handlers := handlers[h := kind];
    }

    method UnregisterHandle(h: Handle)
      modifies this
      ensures State() == Unregister(old(State()), h)
    {
      if h in inputs {
        inputs := Without(inputs, h);
      }
      if h in outputs {
        outputs := Without(outputs, h);
      }
      if h in excepts {
        excepts := Without(excepts, h);
      }
      if h in handlers {
        handlers := handlers - {h};
      }
    }

    method ModifyHandle(h: Handle, kind: Kind, mode: Mode)
      modifies this
      ensures State() == Modify(old(State()), h, kind, mode)
    {
      UnregisterHandle(h);
      RegisterHandle(h, kind, mode);
    }
  }

  // ---- the loop ---------------------------------------------------------------------------

  /** What do_read meets. A connection reads nothing and closes, or reads data and on_read sends, to
  itself or to others; an acceptor accepts a client and has its open called by this loop or by another. */
  datatype Reading = Hangup | Data(targets: seq<Handle>) | NewClient(client: Handle) | ClientElsewhere

  /** `rlist`, `wlist`, `elist` are what is left of the lists select.select returned; `error` is an
  exception the loop does not catch: a handle without a handler. */
  datatype State = State(tables: Tables, functors: seq<Handle>, rlist: seq<Handle>, wlist: seq<Handle>, elist: seq<Handle>, error: bool)

  const START := State(Tables([], [], [], map[]), [], [], [], [], false)

  predicate Between(s: State) { s.rlist == [] && s.wlist == [] && s.elist == [] }

  predicate Fresh(s: State, h: Handle) { h !in s.tables.handlers && h !in s.functors }

  /** send: the data goes to the buffer and the connection switches to writing. */
  function SendTo(s: State, h: Handle): State {
    if h in s.tables.handlers && s.tables.handlers[h] == CONNECTION then s.(tables := Modify(s.tables, h, CONNECTION, WRITE)) else s
  }

  function SendAll(s: State, targets: seq<Handle>): State {
    if targets == [] then s else SendTo(SendAll(s, targets[..|targets| - 1]), targets[|targets| - 1])
  }

  function DoRead(s: State, what: Reading): State
    requires s.rlist != []
  {
    var h, s := s.rlist[0], s.(rlist := s.rlist[1..]);
    if h !in s.tables.handlers then s.(error := true)
    else match (s.tables.handlers[h], what)
      case (CONNECTION, Data(targets)) => SendAll(s, targets)
      case (CONNECTION, _) => s.(tables := Unregister(s.tables, h))
      case (ACCEPTOR, NewClient(c)) => if Fresh(s, c) then s.(functors := s.functors + [c]) else s
      case (ACCEPTOR, _) => s
  }

  function DoWrite(s: State): State
    requires s.wlist != []
  {
    var h, s := s.wlist[0], s.(wlist := s.wlist[1..]);
    if h !in s.tables.handlers then s.(error := true)
    else if s.tables.handlers[h] == ACCEPTOR then s
    else s.(tables := Modify(s.tables, h, CONNECTION, READ))
  }

  function DoExcept(s: State): State
    requires s.elist != []
  {
    var h, s := s.elist[0], s.(elist := s.elist[1..]);
    var t := s.tables.(inputs := Without(s.tables.inputs, h), outputs := Without(s.tables.outputs, h));
    if h !in t.handlers then s.(error := true)
    else if t.handlers[h] == ACCEPTOR then s.(tables := t)
    else s.(tables := Unregister(t, h))
  }

  datatype Label = Listen(h: Handle) | Select(r: seq<Handle>, w: seq<Handle>, e: seq<Handle>)
    | Read(what: Reading) | Write | Except | RunFunctor | AddFunctor(client: Handle)

  /** select.select returns sublists of what it was given. */
  ghost predicate Sublist(part: seq<Handle>, whole: seq<Handle>) {
    |part| <= |whole| && (NoDup(whole) ==> NoDup(part)) && forall h :: h in part ==> h in whole
  }

  ghost predicate Enabled(s: State, l: Label) {
    match l
    case Listen(h) => Between(s) && Fresh(s, h)
    case Select(r, w, e) => Between(s) && Sublist(r, s.tables.inputs) && Sublist(w, s.tables.outputs) && Sublist(e, s.tables.excepts)
    case Read(_) => s.rlist != []
    case Write => s.rlist == [] && s.wlist != []
    case Except => s.rlist == [] && s.wlist == [] && s.elist != []
    case RunFunctor => Between(s) && s.functors != []
    case AddFunctor(c) => Fresh(s, c)
  }

  ghost function Apply(s: State, l: Label): State
    requires Enabled(s, l)
  {
    match l
    case Listen(h) => s.(tables := Register(s.tables, h, ACCEPTOR, READ))
    case Select(r, w, e) => s.(rlist := r, wlist := w, elist := e)
    case Read(what) => DoRead(s, what)
    case Write => DoWrite(s)
    case Except => DoExcept(s)
    case RunFunctor => s.(tables := Register(s.tables, s.functors[0], CONNECTION, READ), functors := s.functors[1..])
    case AddFunctor(c) => s.(functors := s.functors + [c])
  }

  ghost predicate IsRun(labels: seq<Label>)
    decreases |labels|, 0
  {
    labels != [] ==> IsRun(labels[..|labels| - 1]) && Enabled(After(labels[..|labels| - 1]), labels[|labels| - 1])
  }

  ghost function After(labels: seq<Label>): State
    requires IsRun(labels)
    decreases |labels|, 1
  {
    if labels == [] then START else Apply(After(labels[..|labels| - 1]), labels[|labels| - 1])
  }

  ghost predicate Inv(s: State) {
    && TablesInv(s.tables) && !s.error && s.elist == []
    && NoDup(s.rlist + s.wlist) && (forall h :: h in s.rlist || h in s.wlist ==> h in s.tables.handlers)
    && NoDup(s.functors) && forall h :: h in s.functors ==> h !in s.tables.handlers
  }

  lemma {:induction false} SendAllKeeps(s: State, targets: seq<Handle>)
    requires Inv(s)
    ensures Inv(SendAll(s, targets))
  {
    if targets == [] {
    } else {
      var h, m := targets[|targets| - 1], SendAll(s, targets[..|targets| - 1]);
      SendAllKeeps(s, targets[..|targets| - 1]);
      if h in m.tables.handlers {
        ModifyKeeps(m.tables, h, CONNECTION, WRITE);
      }
    }
  }

  /** Taking the first ready handle off the lists: it is not in what is left. */
  lemma Taken(s: State, t: State)
    requires Inv(s) && s.rlist + s.wlist != []
    requires t == if s.rlist != [] then s.(rlist := s.rlist[1..]) else s.(wlist := s.wlist[1..])
    ensures Inv(t) && (s.rlist + s.wlist)[0] !in t.rlist + t.wlist && (s.rlist + s.wlist)[0] in t.tables.handlers
  {
    var all, rest := s.rlist + s.wlist, t.rlist + t.wlist;
    assert rest == all[1..];
    assert all[0] in all && forall h :: h in rest ==> h in all;
    assert all[0] == if s.rlist != [] then s.rlist[0] else s.wlist[0];
  }

  lemma FunctorAdded(s: State, c: Handle)
    requires Inv(s) && Fresh(s, c)
    ensures Inv(s.(functors := s.functors + [c]))
  {
    NoDupConcat(s.functors, [c]);
  }

  lemma ReadKeeps(s: State, what: Reading)
    requires Inv(s) && s.rlist != []
    ensures Inv(DoRead(s, what))
  {
    var h, t := s.rlist[0], s.(rlist := s.rlist[1..]);
    assert (s.rlist + s.wlist)[0] == h;
    Taken(s, t);
    if what.Data? { SendAllKeeps(t, what.targets); }
    if what.NewClient? && Fresh(t, what.client) { FunctorAdded(t, what.client); }
    UnregisterKeeps(t.tables, h);
  }

  lemma WriteKeeps(s: State)
    requires Inv(s) && s.rlist == [] && s.wlist != []
    ensures Inv(DoWrite(s))
  {
    var h, t := s.wlist[0], s.(wlist := s.wlist[1..]);
    assert (s.rlist + s.wlist)[0] == h;
    Taken(s, t);
    ModifyKeeps(t.tables, h, CONNECTION, READ);
  }

  lemma StepKeeps(s: State, l: Label)
    requires Inv(s) && Enabled(s, l)
    ensures Inv(Apply(s, l))
  {
    match l {
      case Listen(h) => RegisterKeeps(s.tables, h, ACCEPTOR, READ);
      case Select(r, w, e) =>
        forall h | h in r ensures h !in w { assert h in s.tables.inputs; }
        NoDupConcat(r, w);
      case Read(what) => ReadKeeps(s, what);
      case Write => WriteKeeps(s);
      case RunFunctor =>
        RegisterKeeps(s.tables, s.functors[0], CONNECTION, READ);
        assert s.functors[0] in s.functors && forall h :: h in s.functors[1..] ==> h in s.functors && h != s.functors[0];
      case AddFunctor(c) => FunctorAdded(s, c);
      case Except =>
    }
  }

  /** The connections among the targets of a send switch to writing; no other handle moves. */
  ghost predicate Switched(t: Tables, r: Tables, targets: seq<Handle>) {
    && r.handlers == t.handlers
    && forall x :: var hit := x in targets && x in t.handlers && t.handlers[x] == CONNECTION;
         (x in r.outputs <==> x in t.outputs || hit) && (x in r.inputs <==> x in t.inputs && !hit)
  }

  lemma {:induction false} SendAllSwitches(s: State, targets: seq<Handle>)
    requires Inv(s)
    ensures Switched(s.tables, SendAll(s, targets).tables, targets)
  {
    if targets == [] {
    } else {
      var front, h := targets[..|targets| - 1], targets[|targets| - 1];
      var m := SendAll(s, front);
      SendAllSwitches(s, front);
      SendAllKeeps(s, front);
      assert forall x :: x in targets <==> x in front || x == h;
      if h in m.tables.handlers && m.tables.handlers[h] == CONNECTION {
        ModifyKeeps(m.tables, h, CONNECTION, WRITE);
      }
    }
  }

  /** What each step does to the modes: what is opened is read; a connection that has read and is sent
  to is written; one that has written is read; one that read nothing is neither; and nothing else
  moves. */
  lemma StepMeans(s: State, l: Label)
    requires Inv(s) && Enabled(s, l)
    ensures var t, r := s.tables, Apply(s, l).tables;
            match l
            case Listen(h) => Moved(t, r, h, READ)
            case RunFunctor => Moved(t, r, s.functors[0], READ)
            case Write => if t.handlers[s.wlist[0]] == CONNECTION then Moved(t, r, s.wlist[0], READ) else r == t
            case Read(what) =>
              if t.handlers[s.rlist[0]] == ACCEPTOR then r == t
              else if what.Data? then Switched(t, r, what.targets)
              else Moved(t, r, s.rlist[0], NEITHER) && s.rlist[0] !in r.handlers
            case _ => r == t
  {
    match l {
      case Listen(h) => RegisterKeeps(s.tables, h, ACCEPTOR, READ);
      case RunFunctor => FunctorFresh(s);
      case Write =>
        assert s.wlist[0] in s.wlist;
        ModifyKeeps(s.tables, s.wlist[0], CONNECTION, READ);
      case Read(what) =>
        assert s.rlist[0] in s.rlist;
        assert (s.rlist + s.wlist)[0] == s.rlist[0];
        Taken(s, s.(rlist := s.rlist[1..]));
        UnregisterKeeps(s.tables, s.rlist[0]);
        if what.Data? { SendAllSwitches(s.(rlist := s.rlist[1..]), what.targets); }
      case _ =>
    }
  }

  lemma FunctorFresh(s: State)
    requires Inv(s) && s.functors != []
    ensures Moved(s.tables, Register(s.tables, s.functors[0], CONNECTION, READ), s.functors[0], READ)
  {
    assert s.functors[0] in s.functors;
    RegisterKeeps(s.tables, s.functors[0], CONNECTION, READ);
  }

  /** In every run of acceptors and connections each registered handle is in exactly one of inputs
  and outputs, once, none is in excepts, and every lookup of the dispatch finds its handler. */
  lemma {:induction false} DispatchTotal(labels: seq<Label>)
    requires IsRun(labels)
    ensures Inv(After(labels))
  {
    if labels == [] {
    } else {
      DispatchTotal(labels[..|labels| - 1]);
      StepKeeps(After(labels[..|labels| - 1]), labels[|labels| - 1]);
    }
  }

  /** The dictionary after every read of `r` has hung up. */
  function HangUpAll(t: Tables, r: seq<Handle>): Tables {
    if r == [] then t else Unregister(HangUpAll(t, r[..|r| - 1]), r[|r| - 1])
  }

  /** Why a handle must be in one mode only: for registered ready handles, the writes that follow
  still find every handler whatever the reads do, exactly when no handle is in both lists. */
  lemma BothModesFault(t: Tables, r: seq<Handle>, w: seq<Handle>)
    requires forall h :: h in r || h in w ==> h in t.handlers
    ensures (forall h :: h in w ==> h in HangUpAll(t, r).handlers) <==> (forall h :: h in w ==> h !in r)
  {
    HungUp(t, r);
  }

  lemma {:induction false} HungUp(t: Tables, r: seq<Handle>)
    ensures forall h :: h in HangUpAll(t, r).handlers <==> h in t.handlers && h !in r
  {
    if r == [] {
    } else {
      HungUp(t, r[..|r| - 1]);
      assert forall h :: h in r <==> h in r[..|r| - 1] || h == r[|r| - 1];
    }
  }

  // ---- the socket buffer ------------------------------------------------------------------

  /** A BytesIO is a content and a position too. */
  class SocketBuffer {
    var buffer: Stream

    constructor ()
      ensures buffer == EMPTY
    {
      buffer := EMPTY;
    }

    method Push(data: Bytes)
      modifies this
      ensures buffer == Streams.Write(old(buffer), data)
    {
      buffer := Streams.Write(buffer, data);
    }

    /** The value is not truncated: only the position goes back. */
    method Take() returns (data: Bytes)
      modifies this
      ensures data == old(buffer).content && buffer == Stream(data, 0)
    {
      data := buffer.content;
      buffer := Stream(data, 0);
    }
  }

  /** Take returns just what was pushed since the last take exactly when that is at least as long as
  what the last take returned. */
  lemma TakeExactIff(last: Bytes, data: Bytes)
    ensures var taken := Streams.Write(Stream(last, 0), data).content;
            (taken == data <==> |data| >= |last|) && |taken| == (if |data| >= |last| then |data| else |last|)
  {}

  /** What the last take returns when each message is pushed and taken in turn. */
  function LastTake(messages: seq<Bytes>): Bytes {
    if messages == [] then []
    else Streams.Write(Stream(LastTake(messages[..|messages| - 1]), 0), messages[|messages| - 1]).content
  }

  predicate NonDecreasing(messages: seq<Bytes>) {
    forall i, j :: 0 <= i < j < |messages| ==> |messages[i]| <= |messages[j]|
  }

  /** The buffer has the length of the longest message so far. */
  lemma {:induction false} LastTakeLongest(messages: seq<Bytes>) returns (longest: nat)
    ensures forall i :: 0 <= i < |messages| ==> |messages[i]| <= |LastTake(messages)|
    ensures messages != [] ==> longest < |messages| && |messages[longest]| == |LastTake(messages)|
  {
    longest := 0;
    if messages == [] {
    } else {
      var front, m := messages[..|messages| - 1], messages[|messages| - 1];
      longest := LastTakeLongest(front);
      TakeExactIff(LastTake(front), m);
      if |m| >= |LastTake(front)| {
        longest := |front|;
      }
    }
  }

  /** What the takes return when each message is pushed and taken in turn. */
  function Takes(messages: seq<Bytes>): seq<Bytes> {
    if messages == [] then [] else Takes(messages[..|messages| - 1]) + [LastTake(messages)]
  }

  lemma {:induction false} TakesAt(messages: seq<Bytes>)
    ensures |Takes(messages)| == |messages|
    ensures forall i :: 0 <= i < |messages| ==> Takes(messages)[i] == LastTake(messages[..i + 1])
  {
    if messages == [] {
    } else {
      var front := messages[..|messages| - 1];
      TakesAt(front);
      assert forall n :: 0 <= n <= |front| ==> messages[..n] == front[..n];
      assert messages[..|messages|] == messages;
    }
  }

  lemma TakenIff(messages: seq<Bytes>, i: nat)
    requires i < |messages|
    ensures LastTake(messages[..i + 1]) == messages[i] <==> forall j :: 0 <= j < i ==> |messages[j]| <= |messages[i]|
  {
    var before := messages[..i];
    assert messages[..i + 1][..i] == before;
    var longest := LastTakeLongest(before);
    TakeExactIff(LastTake(before), messages[i]);
    assert forall j :: 0 <= j < i ==> before[j] == messages[j];
  }

  /** One buffer gives every message back exactly when none is shorter than one before it. */
  lemma TakesExactIff(messages: seq<Bytes>)
    ensures Takes(messages) == messages <==> NonDecreasing(messages)
  {
    TakesAt(messages);
    if Takes(messages) == messages {
      forall i, j | 0 <= i < j < |messages| ensures |messages[i]| <= |messages[j]| {
        TakenIff(messages, j);
      }
    }
    if NonDecreasing(messages) {
      forall i | 0 <= i < |messages| ensures Takes(messages)[i] == messages[i] {
        TakenIff(messages, i);
      }
    }
  }

  /** Whatever is pushed, what is taken never gets shorter. */
  lemma TakesNonDecreasing(messages: seq<Bytes>)
    ensures NonDecreasing(Takes(messages))
  {
    TakesAt(messages);
    forall i, j | 0 <= i < j < |messages| ensures |Takes(messages)[i]| <= |Takes(messages)[j]| {
      var a := LastTakeLongest(messages[..i + 1]);
      var b := LastTakeLongest(messages[..j + 1]);
      assert messages[..i + 1][a] == messages[..j + 1][a];
    }
  }

  /** A connection that reads and answers in turn passes each message through its receive buffer and
  then, as on_read was handed it, through its send buffer. It echoes its messages exactly when none
  is shorter than one before it; the second buffer adds no fault of its own. */
  lemma PyEchoIff(messages: seq<Bytes>)
    ensures Takes(Takes(messages)) == messages <==> NonDecreasing(messages)
    ensures Takes(Takes(messages)) == Takes(messages)
  {
    TakesNonDecreasing(messages);
    TakesExactIff(Takes(messages));
    TakesExactIff(messages);
  }

  // ---- the connection's two buffers -------------------------------------------------------

  const PAGE := 1024

  /** After the list the peer has hung up. */
  function ReplyAt(replies: seq<Bytes>, i: nat): Bytes { if i < |replies| then replies[i] else [] }

  /** What do_read pushes: full pages up to the first reply that is not one. */
  function Pages(replies: seq<Bytes>): Bytes {
    if replies == [] || replies[0] == [] then []
    else if |replies[0]| == PAGE then replies[0] + Pages(replies[1..])
    else replies[0]
  }

  /** The number of full pages before the first reply that is not one. */
  function FullPages(replies: seq<Bytes>): (n: nat)
    ensures n <= |replies| && (forall i :: 0 <= i < n ==> |replies[i]| == PAGE) && |ReplyAt(replies, n)| != PAGE
  {
    if replies == [] || |replies[0]| != PAGE then 0
    else
      var n := FullPages(replies[1..]);
      assert ReplyAt(replies, n + 1) == ReplyAt(replies[1..], n);
      n + 1
  }

  lemma Shifted(page: Bytes, rest: Bytes, lo: nat, hi: nat)
    requires lo <= hi <= |rest|
    ensures (page + rest)[|page| + lo..|page| + hi] == rest[lo..hi]
  {}

  lemma FirstPage(replies: seq<Bytes>)
    requires FullPages(replies) > 0
    ensures var rest := replies[1..]; var n := FullPages(replies);
            && |replies[0]| == PAGE && Pages(replies) == replies[0] + Pages(rest)
            && FullPages(rest) == n - 1 && ReplyAt(rest, n - 1) == ReplyAt(replies, n)
  {}

  lemma {:induction false} LastPage(replies: seq<Bytes>)
    ensures var n := FullPages(replies);
            |Pages(replies)| == n * PAGE + |ReplyAt(replies, n)| && Pages(replies)[n * PAGE..] == ReplyAt(replies, n)
  {
    var n := FullPages(replies);
    if n == 0 {
      assert Pages(replies)[0..] == Pages(replies);
    } else {
      FirstPage(replies);
      var rest := Pages(replies[1..]);
      LastPage(replies[1..]);
      Shifted(replies[0], rest, (n - 1) * PAGE, |rest|);
      assert Pages(replies)[n * PAGE..] == Pages(replies)[n * PAGE..PAGE + |rest|];
      assert rest[(n - 1) * PAGE..] == rest[(n - 1) * PAGE..|rest|];
    }
  }

  /** What is pushed is those pages in the order recv gave them, and then that reply. */
  lemma {:induction false} PagesAre(replies: seq<Bytes>, i: nat)
    requires i < FullPages(replies)
    ensures var n := FullPages(replies);
            && |Pages(replies)| == n * PAGE + |ReplyAt(replies, n)| && Pages(replies)[n * PAGE..] == ReplyAt(replies, n)
            && Pages(replies)[i * PAGE..(i + 1) * PAGE] == replies[i]
  {
    LastPage(replies);
    FirstPage(replies);
    if i == 0 {
      assert Pages(replies)[0..PAGE] == replies[0];
    } else {
      var rest := Pages(replies[1..]);
      PagesAre(replies[1..], i - 1);
      Shifted(replies[0], rest, (i - 1) * PAGE, i * PAGE);
    }
  }

  class TCPConnection {
    const loop: ServiceLoop
    const handle: Handle
    const recvBuffer: SocketBuffer
    const sendBuffer: SocketBuffer

    constructor (loop: ServiceLoop, handle: Handle)
      ensures this.loop == loop && this.handle == handle
      ensures fresh(recvBuffer) && fresh(sendBuffer) && recvBuffer != sendBuffer
      ensures recvBuffer.buffer == EMPTY && sendBuffer.buffer == EMPTY
    {
      this.loop, this.handle := loop, handle;
      recvBuffer := new SocketBuffer();
      sendBuffer := new SocketBuffer();
    }

    /** The data goes to the buffer and the connection switches to writing. */
    method Send(data: Bytes)
      modifies sendBuffer, loop
      ensures sendBuffer.buffer == Streams.Write(old(sendBuffer.buffer), data)
      ensures loop.State() == Modify(old(loop.State()), handle, CONNECTION, WRITE)
    {
      sendBuffer.Push(data);
      loop.ModifyHandle(handle, CONNECTION, WRITE);
    }

    method DoClose()
      modifies loop
      ensures loop.State() == Unregister(old(loop.State()), handle)
    {
      loop.UnregisterHandle(handle);
    }

    /** The recv calls of do_read. */
    method Receive(replies: seq<Bytes>) returns (any: bool)
      modifies recvBuffer
      ensures any <==> Pages(replies) != []
      ensures recvBuffer.buffer == Streams.Write(old(recvBuffer.buffer), Pages(replies))
    {
      WriteNothing(recvBuffer.buffer);
      var msg := ReplyAt(replies, 0);
      if |msg| == 0 {
        return false;
      }
      var i := 1;
      ghost var pushed := msg;
      recvBuffer.Push(msg);
      while |msg| == PAGE
        invariant 1 <= i <= |replies| + 1 && pushed != []
        invariant recvBuffer.buffer == Streams.Write(old(recvBuffer.buffer), pushed)
        invariant pushed + (if |msg| == PAGE && i <= |replies| then Pages(replies[i..]) else []) == Pages(replies)
        invariant i > |replies| ==> |msg| != PAGE
        decreases |replies| + 1 - i
      {
        msg := ReplyAt(replies, i);
        if |msg| == 0 {
          break;
        }
        WriteTwice(old(recvBuffer.buffer), pushed, msg);
        assert replies[i..][1..] == replies[i + 1..];
        recvBuffer.Push(msg);
        pushed := pushed + msg;
        i := i + 1;
      }
      assert pushed == Pages(replies);
      return true;
    }

    /** False: nothing was read and the connection closes. Otherwise on_read sends what it is handed. */
    method DoRead(replies: seq<Bytes>) returns (open: bool)
      requires recvBuffer != sendBuffer
      modifies recvBuffer, sendBuffer, loop
      ensures open <==> Pages(replies) != []
      ensures !open ==> recvBuffer.buffer == old(recvBuffer.buffer) && sendBuffer.buffer == old(sendBuffer.buffer)
      ensures !open ==> loop.State() == Unregister(old(loop.State()), handle)
      ensures open ==> var data := Streams.Write(old(recvBuffer.buffer), Pages(replies)).content;
                recvBuffer.buffer == Stream(data, 0) && sendBuffer.buffer == Streams.Write(old(sendBuffer.buffer), data)
      ensures open ==> loop.State() == Modify(old(loop.State()), handle, CONNECTION, WRITE)
    {
      WriteNothing(recvBuffer.buffer);
      open := Receive(replies);
      if !open {
        DoClose();
        return;
      }
      var data := recvBuffer.Take();
      if |data| > 0 {
        Send(data);
      }
    }

    /** What is sent to the peer; the connection switches back to reading. */
    method DoWrite() returns (data: Bytes)
      modifies sendBuffer, loop
      ensures data == old(sendBuffer.buffer).content && sendBuffer.buffer == Stream(data, 0)
      ensures loop.State() == Modify(old(loop.State()), handle, CONNECTION, READ)
    {
      data := sendBuffer.Take();
      loop.ModifyHandle(handle, CONNECTION, READ);
    }

    /** The loop calls do_read and do_write in turn, as the modes make it: `rounds` are what recv
    answers in each read, `answers` what the peer gets. */
    method Converse(rounds: seq<seq<Bytes>>) returns (answers: seq<Bytes>)
      requires recvBuffer != sendBuffer && recvBuffer.buffer == EMPTY && sendBuffer.buffer == EMPTY
      requires forall i :: 0 <= i < |rounds| ==> Pages(rounds[i]) != []
      modifies recvBuffer, sendBuffer, loop
      ensures answers == Takes(Takes(Messages(rounds)))
      ensures answers == Messages(rounds) <==> NonDecreasing(Messages(rounds))
    {
      answers := [];
      for i := 0 to |rounds|
        invariant recvBuffer.buffer == Stream(LastTake(Messages(rounds[..i])), 0)
        invariant sendBuffer.buffer == Stream(LastTake(Takes(Messages(rounds[..i]))), 0)
        invariant answers == Takes(Takes(Messages(rounds[..i])))
      {
        OneRound(rounds, i);
        var open := DoRead(rounds[i]);
        var answer := DoWrite();
        answers := answers + [answer];
      }
      assert rounds[..|rounds|] == rounds;
      PyEchoIff(Messages(rounds));
    }
  }

  /** The message of each round. */
  function Messages(rounds: seq<seq<Bytes>>): seq<Bytes> {
    if rounds == [] then [] else Messages(rounds[..|rounds| - 1]) + [Pages(rounds[|rounds| - 1])]
  }

  /** One more message through both buffers. */
  lemma OneRound(rounds: seq<seq<Bytes>>, i: nat)
    requires i < |rounds|
    ensures var m, m' := Messages(rounds[..i]), Messages(rounds[..i + 1]); var data := Streams.Write(Stream(LastTake(m), 0), Pages(rounds[i])).content;
            && LastTake(m') == data && Takes(m') == Takes(m) + [data]
            && LastTake(Takes(m')) == Streams.Write(Stream(LastTake(Takes(m)), 0), data).content
            && Takes(Takes(m')) == Takes(Takes(m)) + [LastTake(Takes(m'))]
  {
    assert rounds[..i + 1][..i] == rounds[..i];
    var m := Messages(rounds[..i]);
    TakesSnoc(m, Pages(rounds[i]));
    TakesSnoc(Takes(m), LastTake(m + [Pages(rounds[i])]));
  }

  lemma TakesSnoc(messages: seq<Bytes>, m: Bytes)
    ensures LastTake(messages + [m]) == Streams.Write(Stream(LastTake(messages), 0), m).content
    ensures Takes(messages + [m]) == Takes(messages) + [LastTake(messages + [m])]
  {
    assert (messages + [m])[..|messages|] == messages;
  }
}
