/** One reactor thread as a state machine: the loop of ServiceLoop::run (src/net/service_loop.cc),
the handlers it calls back, and the tasks other threads post to it. Every answer of the kernel and
every choice of user code is in a label, so that a run is a sequence of labels. */
module ReactorModel {
  import opened Streams
  import opened Dispatching
  import opened LoopTable
  import opened Connections
  import opened EpollDispatcher
  import SelectDispatcher

  /** A live handler. A session is a ConnectionHandler; an acceptor, a timer and the wakeup handler
  are plain: their callbacks do nothing but the actions in the label. */
  datatype Object = Session(fd: int, conn: Conn) | Plain(fd: int)

  /** What user code may do in a callback or a task. The fault is epoll_ctl's refusal, 0 for none. */
  datatype Action =
    | SendTo(id: Id, data: Bytes)
    | CloseSession(id: Id)
    | OpenSession(fd: int)
    | StartPlain(fd: int, fault: CtlFault)
    | StopPlain(id: Id, fault: CtlFault)
    | Post(task: Task)
  datatype Task = Task(body: seq<Action>)

  /** What on_read does with its own connection: the sends it makes and the length it returns.
  `Echo` is session_handler::on_read of src/example/example-1.cc. */
  datatype OnRead = Echo | Custom(sends: seq<Bytes>, consumed: int)

  datatype Callback = Callback(recv: seq<RecvResult>, send: seq<SendResult>, onRead: OnRead, actions: seq<Action>)

  /** The calls user code sees. Birth of a session is its on_connect, death its on_close. */
  datatype Call = Born(id: Id) | Called(id: Id, kind: Kind) | Died(id: Id)

  datatype Pc = POLLING | DISPATCHING | POPPING | INVOKING

  datatype State = State(
    loop: Loop, objects: map<Id, Object>, next: Id, quit: bool,
    pc: Pc, batch: seq<Event>, queue: seq<Task>, fun: Option<Task>,
    pushed: seq<Task>, executed: seq<Task>, trace: seq<Call>, fault: bool)

  function Init(backend: Backend): State {
    State(Loop(backend, map[], map[]), map[], 0, false, POLLING, [], [], None, [], [], [], false)
  }

  /** FD_SET takes descriptors below FD_SETSIZE only. */
  predicate FdOk(backend: Backend, fd: int) { 0 < fd && (backend == SELECT ==> fd < SelectDispatcher.FD_SETSIZE) }

  // ---- the operations ---------------------------------------------------------------------

  predicate IsSession(s: State, id: Id) { id in s.objects && s.objects[id].Session? }

  function WithConn(s: State, id: Id, c: Conn): State
    requires IsSession(s, id)
  {
    s.(objects := s.objects[id := s.objects[id].(conn := c)])
  }

  function Allocate(s: State, o: Object): State {
    s.(objects := s.objects[s.next := o], next := s.next + 1, trace := s.trace + [Born(s.next)])
  }

  /** Register a descriptor for reading and allocate its handler; if the kernel refuses, there is no
  handler. */
  function Create(s: State, o: Object, fault: CtlFault): State {
    if FdOk(s.loop.backend, o.fd) && o.fd !in s.loop.interest then
      var (loop, errno) := Register(s.loop, o.fd, true, false, s.next, fault);
      if errno != 0 then s.(loop := loop) else Allocate(s.(loop := loop), o)
    else s
  }

  /** ConnectionHandler::close, and TimerHandler::stop: delete_event, then the handler is gone. */
  function Retire(s: State, id: Id): State
    requires id in s.objects
  {
    s.(loop := Delete(s.loop, s.objects[id].fd, 0).0, objects := s.objects - {id}, trace := s.trace + [Died(id)])
  }

  /** Stopping a plain handler: if the kernel refuses, it stays. */
  function Stop(s: State, id: Id, fault: CtlFault): State
    requires id in s.objects
  {
    var (loop, errno) := Delete(s.loop, s.objects[id].fd, fault);
    if errno != 0 then s.(loop := loop) else Retire(s, id)
  }

  /** ConnectionHandler::send: the first bytes into an empty buffer arm write interest. */
  function Send(s: State, id: Id, data: Bytes): (r: State)
    ensures IsSession(s, id) ==> IsSession(r, id)
  {
    if IsSession(s, id) && s.objects[id].fd in s.loop.interest then
      var o := s.objects[id];
      var r := WithConn(s, id, PutData(o.conn, data));
      if o.conn.output.stream.content == [] then r.(loop := Modify(s.loop, o.fd, true, true, id, 0).0) else r
    else s
  }

  function SendAll(s: State, id: Id, sends: seq<Bytes>): (r: State)
    ensures IsSession(s, id) ==> IsSession(r, id)
  {
    if sends == [] then s else Send(SendAll(s, id, sends[..|sends| - 1]), id, sends[|sends| - 1])
  }

  /** ConnectionHandler::do_handle_write. */
  function HandleWrite(s: State, id: Id, results: seq<SendResult>): State
    requires IsSession(s, id)
  {
    var o := s.objects[id];
    var r := WithConn(s, id, Flush(o.conn, results));
    if Drains(o.conn, results) && o.fd in s.loop.interest then r.(loop := Modify(s.loop, o.fd, true, false, id, 0).0) else r
  }

  function Sends(onRead: OnRead, input: Bytes): seq<Bytes> { if onRead.Echo? then [input] else onRead.sends }
  function Consumed(onRead: OnRead, input: Bytes): int { if onRead.Echo? then |input| else onRead.consumed }

  /** on_read, then the input buffer drops what on_read says it has consumed. */
  function Serve(s: State, id: Id, onRead: OnRead): State
    requires IsSession(s, id)
  {
    var c := s.objects[id].conn;
    var input := c.input.stream.content;
    var r := SendAll(WithConn(s, id, Deliver(c)), id, Sends(onRead, input));
    WithConn(r, id, Consume(r.objects[id].conn, Consumed(onRead, input)))
  }

  /** ConnectionHandler::do_handle_read: a read that is not positive closes the connection. */
  function HandleRead(s: State, id: Id, recv: seq<RecvResult>, onRead: OnRead): State
    requires IsSession(s, id)
  {
    var r := WithConn(s, id, Receive(s.objects[id].conn, recv));
    if ReadReturn(recv) <= 0 then Retire(r, id) else Serve(r, id, onRead)
  }

  function Handle(s: State, id: Id, kind: Kind, cb: Callback): State
    requires id in s.objects
  {
    var s := s.(trace := s.trace + [Called(id, kind)]);
    if s.objects[id].Plain? then s
    else match kind
      case READ => HandleRead(s, id, cb.recv, cb.onRead)
      case WRITE => HandleWrite(s, id, cb.send)
      case ERROR => Retire(s, id)
  }

  /** An action on a handler that does not exist, or of the wrong kind, is one user code does not
  take; nor does a callback close the connection it runs for. */
  function Act(s: State, a: Action, self: Option<Id>): State {
    match a
    case SendTo(id, data) => Send(s, id, data)
    case CloseSession(id) => if IsSession(s, id) && self != Some(id) then Retire(s, id) else s
    case OpenSession(fd) => Create(s, Session(fd, Connections.FRESH), 0)
    case StartPlain(fd, fault) => Create(s, Plain(fd), fault)
    case StopPlain(id, fault) => if id in s.objects && s.objects[id].Plain? then Stop(s, id, fault) else s
    case Post(task) => PushTask(s, task)
  }

  function Exec(s: State, actions: seq<Action>, self: Option<Id>): State {
    if actions == [] then s else Act(Exec(s, actions[..|actions| - 1], self), actions[|actions| - 1], self)
  }

  function PushTask(s: State, task: Task): State {
    s.(queue := s.queue + [task], pushed := s.pushed + [task])
  }

  /** The event is taken from the batch and its handler looked up. */
  function Next(s: State): State
    requires s.batch != []
  {
    var rest := s.batch[1..];
    s.(loop := Lookup(s.loop, s.batch[0].fd).0, batch := rest, pc := if rest == [] then POPPING else DISPATCHING)
  }

  /** One turn of the for loop in run: look the handler up, call it if it is not NULL. A pointer to
  a handler that no longer exists would be a fault. */
  function DispatchOne(s: State, cb: Callback): State
    requires s.batch != []
  {
    var e, found, t := s.batch[0], Lookup(s.loop, s.batch[0].fd).1, Next(s);
    if found.None? then t
    else if found.value !in t.objects then t.(fault := true)
    else Exec(Handle(t, found.value, e.kind, cb), cb.actions, found)
  }

  function PopTask(s: State): State {
    if s.queue == [] then s.(pc := POLLING) else s.(pc := INVOKING, fun := Some(s.queue[0]), queue := s.queue[1..])
  }

  /** Calling the functor no pop has filled would be a fault. */
  function InvokeTask(s: State): State {
    if s.fun.None? then s.(fault := true)
    else Exec(s.(pc := POPPING, executed := s.executed + [s.fun.value]), s.fun.value.body, None)
  }

  function Polled(s: State, ready: seq<Event>): State {
    s.(batch := ready, pc := if ready == [] then POPPING else DISPATCHING, fun := None)
  }

  // ---- the drain loop ends ----------------------------------------------------------------

  function TaskSize(t: Task): nat
    decreases t, 1
  {
    1 + PostedSize(t.body)
  }

  /** All the tasks a body posts, with those they post. */
  function PostedSize(actions: seq<Action>): nat
    decreases actions, 0
  {
    if actions == [] then 0 else PostedSize(actions[..|actions| - 1]) + ActionSize(actions[|actions| - 1])
  }

  function ActionSize(a: Action): nat
    decreases a, 2
  {
    if a.Post? then TaskSize(a.task) else 0
  }

  function QueueSize(queue: seq<Task>): nat {
    if queue == [] then 0 else QueueSize(queue[..|queue| - 1]) + TaskSize(queue[|queue| - 1])
  }

  /** Running a body adds to the queue what the body posts, nothing else. */
  lemma {:induction false} ExecQueue(s: State, actions: seq<Action>, self: Option<Id>)
    ensures QueueSize(Exec(s, actions, self).queue) == QueueSize(s.queue) + PostedSize(actions)
  {
    if actions == [] {
    } else {
      var front, a := actions[..|actions| - 1], actions[|actions| - 1];
      ExecQueue(s, front, self);
      ActQueue(Exec(s, front, self), a, self);
    }
  }

  lemma ActQueue(s: State, a: Action, self: Option<Id>)
    ensures QueueSize(Act(s, a, self).queue) == QueueSize(s.queue) + ActionSize(a)
  {
    if a.Post? {
      assert (s.queue + [a.task])[..|s.queue|] == s.queue;
    } else {
      assert Act(s, a, self).queue == s.queue;
    }
  }

  lemma {:induction false} FrontSize(queue: seq<Task>)
    requires queue != []
    ensures QueueSize(queue) == TaskSize(queue[0]) + QueueSize(queue[1..])
  {
    if |queue| == 1 {
      assert queue[..0] == [] && queue[1..] == [];
    } else {
      var front := queue[..|queue| - 1];
      FrontSize(front);
      assert queue[1..][..|queue| - 2] == front[1..];
    }
  }

  // ---- runs -------------------------------------------------------------------------------

  /** `Setup` is what the loop's own thread does outside run, such as opening the acceptor. `Push` and
  `Quit` come from any thread at any moment. */
  datatype Label = Setup(action: Action) | Poll(ready: seq<Event>) | Dispatch(cb: Callback) | Pop | Invoke | Push(task: Task) | Quit

  ghost predicate Enabled(s: State, l: Label) {
    match l
    case Setup(_) => s.pc == POLLING
    case Poll(ready) => s.pc == POLLING && !s.quit && Allowed(s.loop.interest, ready)
    case Dispatch(_) => s.pc == DISPATCHING && s.batch != []
    case Pop => s.pc == POPPING
    case Invoke => s.pc == INVOKING
    case Push(_) => true
    case Quit => true
  }

  ghost function Apply(s: State, l: Label): State
    requires Enabled(s, l)
  {
    match l
    case Setup(a) => Act(s, a, None)
    case Poll(ready) => Polled(s, ready)
    case Dispatch(cb) => DispatchOne(s, cb)
    case Pop => PopTask(s)
    case Invoke => InvokeTask(s)
    case Push(task) => PushTask(s, task)
    case Quit => s.(quit := true)
  }

  ghost predicate IsRun(backend: Backend, labels: seq<Label>)
    decreases |labels|, 0
  {
    labels != [] ==>
      var front := labels[..|labels| - 1];
      IsRun(backend, front) && Enabled(After(backend, front), labels[|labels| - 1])
  }

  ghost function After(backend: Backend, labels: seq<Label>): State
    requires IsRun(backend, labels)
    decreases |labels|, 1
  {
    if labels == [] then Init(backend)
    else Apply(After(backend, labels[..|labels| - 1]), labels[|labels| - 1])
  }

  lemma OneMore(backend: Backend, labels: seq<Label>, l: Label)
    requires IsRun(backend, labels) && Enabled(After(backend, labels), l)
    ensures IsRun(backend, labels + [l]) && After(backend, labels + [l]) == Apply(After(backend, labels), l)
  {
    assert (labels + [l])[..|labels|] == labels;
  }

  // ---- the life of a handler --------------------------------------------------------------

  datatype Life = UNBORN | ALIVE | DEAD | BROKEN

  function Turn(life: Life, c: Call): Life {
    match (life, c)
    case (UNBORN, Born(_)) => ALIVE
    case (ALIVE, Called(_, _)) => ALIVE
    case (ALIVE, Died(_)) => DEAD
    case _ => BROKEN
  }

  function LifeOf(trace: seq<Call>, id: Id): Life {
    if trace == [] then UNBORN
    else
      var c := trace[|trace| - 1];
      var life := LifeOf(trace[..|trace| - 1], id);
      if c.id == id then Turn(life, c) else life
  }

  lemma LifeTurns(trace: seq<Call>, c: Call)
    ensures forall id :: LifeOf(trace + [c], id) == if c.id == id then Turn(LifeOf(trace, id), c) else LifeOf(trace, id)
  {
    assert (trace + [c])[..|trace|] == trace;
  }

  /** Whoever lives or has lived was born. */
  lemma {:induction false} BornAt(trace: seq<Call>, id: Id) returns (i: nat)
    requires LifeOf(trace, id) == ALIVE || LifeOf(trace, id) == DEAD
    ensures i < |trace| && trace[i] == Born(id)
  {
    if trace[|trace| - 1] == Born(id) {
      i := |trace| - 1;
    } else {
      i := BornAt(trace[..|trace| - 1], id);
    }
  }

  /** Nobody is called or dies before being born. */
  lemma {:induction false} BornBefore(trace: seq<Call>, id: Id, j: nat) returns (i: nat)
    requires LifeOf(trace, id) != BROKEN && j < |trace| && trace[j].id == id && !trace[j].Born?
    ensures i < j && trace[i] == Born(id)
  {
    var front := trace[..|trace| - 1];
    if j == |front| {
      i := BornAt(front, id);
    } else {
      i := BornBefore(front, id, j);
    }
  }

  lemma {:induction false} UnbornIff(trace: seq<Call>, id: Id)
    requires LifeOf(trace, id) != BROKEN
    ensures LifeOf(trace, id) == UNBORN <==> forall i :: 0 <= i < |trace| ==> trace[i].id != id
  {
    if trace == [] {
    } else {
      UnbornIff(trace[..|trace| - 1], id);
    }
  }

  lemma {:induction false} DeadIff(trace: seq<Call>, id: Id)
    requires LifeOf(trace, id) != BROKEN
    ensures LifeOf(trace, id) == DEAD <==> Died(id) in trace
  {
    if trace == [] {
    } else {
      var front, c := trace[..|trace| - 1], trace[|trace| - 1];
      DeadIff(front, id);
      assert Died(id) in trace <==> Died(id) in front || c == Died(id);
    }
  }

  /** Of two calls the earlier is not the death and the later not the birth. */
  lemma {:induction false} CallsInOrder(trace: seq<Call>, id: Id, i: nat, j: nat)
    requires LifeOf(trace, id) != BROKEN && i < j < |trace| && trace[i].id == trace[j].id == id
    ensures !trace[i].Died? && !trace[j].Born?
  {
    var front := trace[..|trace| - 1];
    if j == |front| {
      UnbornIff(front, id);
      DeadIff(front, id);
      assert front[i] == trace[i];
      assert trace[i].Died? ==> Died(id) in front;
    } else {
      CallsInOrder(front, id, i, j);
    }
  }

  /** What an unbroken life means: the first call is the birth, and after the death nothing more. */
  lemma LifeMeaning(trace: seq<Call>, id: Id)
    requires LifeOf(trace, id) != BROKEN
    ensures LifeOf(trace, id) == UNBORN <==> forall i :: 0 <= i < |trace| ==> trace[i].id != id
    ensures forall i, j :: 0 <= i < j < |trace| && trace[i].id == trace[j].id == id ==> !trace[i].Died? && !trace[j].Born?
    ensures forall j :: 0 <= j < |trace| && trace[j].id == id && !trace[j].Born? ==>
              exists i :: 0 <= i < j && trace[i] == Born(id)
    ensures LifeOf(trace, id) == DEAD <==> Died(id) in trace
  {
    UnbornIff(trace, id);
    DeadIff(trace, id);
    forall i, j | 0 <= i < j < |trace| && trace[i].id == trace[j].id == id ensures !trace[i].Died? && !trace[j].Born? {
      CallsInOrder(trace, id, i, j);
    }
    forall j | 0 <= j < |trace| && trace[j].id == id && !trace[j].Born? ensures exists i :: 0 <= i < j && trace[i] == Born(id) {
      var i := BornBefore(trace, id, j);
    }
  }
}
