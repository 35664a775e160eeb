/** The classes of src/net/service_loop.cc and src/net/connection_handler.cc, each method proved to
be the step of the state machine in ReactorModel.

A pointer to a handler is the identity the handler was allocated with, and the loop's field
`memory` is the free store those identities live in: `delete this` removes one. */
module Reactor {
  import opened Streams
  import opened Dispatching
  import opened EpollDispatcher
  import opened LoopTable
  import opened Connections
  import opened ReactorModel
  import opened ReactorSafety
  import opened EventDispatchers
  import opened ThreadQueues
  import opened RunLabels
  import opened Lists

  /** What a handler pointer points to. */
  datatype Handler = SessionAt(c: ConnectionHandler) | PlainAt(fd: int)

  class ConnectionHandler {
    const id: Id
    const fd: int
    const srvLoop: ServiceLoop
    const bufferIn: StreamBuffer
    const bufferOut: StreamBuffer
    ghost var received: Bytes // what recv put into bufferIn
    ghost var consumed: Bytes
    ghost var dropped: Bytes
    ghost var intake: seq<Op>
    ghost var delivered: Bytes
    ghost var sent: Bytes // what send put into bufferOut
    ghost var wire: Bytes
    ghost var lost: Bytes
    ghost var outflow: seq<Op>
    ghost var idle: bool

    ghost function State(): Conn
      reads this, bufferIn, bufferOut
    {
      Conn(Pipe(bufferIn.stream, received, consumed, dropped, intake), Pipe(bufferOut.stream, sent, wire, lost, outflow), delivered, idle)
    }

    /** The two buffers are members of this handler and of no other. */
    ghost predicate Wf() {
      && bufferIn.owner == bufferOut.owner == id && !bufferIn.output && bufferOut.output
      && srvLoop.backing != this && srvLoop.backing != bufferIn && srvLoop.backing != bufferOut
    }

    constructor (id: Id, fd: int, srvLoop: ServiceLoop)
      ensures this.id == id && this.fd == fd && this.srvLoop == srvLoop && Wf()
      ensures State() == Connections.FRESH
      ensures fresh(bufferIn) && fresh(bufferOut)
    {
      this.id, this.fd, this.srvLoop := id, fd, srvLoop;
      bufferIn := new StreamBuffer(id, false);
      bufferOut := new StreamBuffer(id, true);
      received, consumed, dropped, intake, delivered := [], [], [], [], [];
      sent, wire, lost, outflow, idle := [], [], [], [], false;
    }

    /** This handler exists and its descriptor is registered. */
    ghost predicate Alive()
      reads srvLoop, srvLoop.Repr
    {
      && srvLoop.Wf() && id in srvLoop.memory && srvLoop.memory[id] == SessionAt(this)
      && FdOk(srvLoop.backend, fd) && fd in srvLoop.interest
    }

    method Send(data: Bytes)
      requires Wf() && srvLoop.TableValid() && FdOk(srvLoop.backend, fd) && fd in srvLoop.interest
      modifies this, bufferOut, srvLoop`handlers, srvLoop`interest, srvLoop.backing
      ensures State() == PutData(old(State()), data)
      ensures srvLoop.TableValid()
      ensures srvLoop.Table() == if old(State()).output.stream.content == [] then Modify(old(srvLoop.Table()), fd, true, true, id, 0).0 else old(srvLoop.Table())
    {
      var status := bufferOut.Empty();
      sent, lost, outflow := sent + data, lost + Replaced(bufferOut.stream, data), outflow + [Op.Put(data)];
      bufferOut.Put(data);
      idle := bufferOut.stream.content == [];
      if status {
        var ret := srvLoop.ModifyEvent(fd, true, true, id, 0);
        assert 0 == ret;
      }
    }

    /** The kernel took the first `bytes` waiting bytes. */
    method Sent(bytes: nat)
      requires Wf() && srvLoop.TableValid() && FdOk(srvLoop.backend, fd) && fd in srvLoop.interest
      requires 0 < bytes <= |bufferOut.stream.content|
      modifies this`wire, bufferOut, srvLoop`handlers, srvLoop`interest, srvLoop.backing
      ensures State() == Transfer(old(State()), bytes)
      ensures srvLoop.TableValid()
      ensures srvLoop.Table() == if State().output.stream.content == [] then Modify(old(srvLoop.Table()), fd, true, false, id, 0).0 else old(srvLoop.Table())
    {
      wire := wire + bufferOut.stream.content[..bytes];
      bufferOut.IgnoreBytes(bytes);
      var empty := bufferOut.Empty();
      if empty {
        var ret := srvLoop.ModifyEvent(fd, true, false, id, 0);
        assert 0 == ret;
      }
    }

    /** The send loop. */
    method SendPending(results: seq<SendResult>)
      requires Wf() && srvLoop.TableValid() && FdOk(srvLoop.backend, fd) && fd in srvLoop.interest
      modifies this`wire, bufferOut, srvLoop`handlers, srvLoop`interest, srvLoop.backing
      ensures State() == Emit(old(State()), results)
      ensures srvLoop.TableValid()
      ensures srvLoop.Table() == if old(State()).output.stream.content != [] && State().output.stream.content == [] then Modify(old(srvLoop.Table()), fd, true, false, id, 0).0 else old(srvLoop.Table())
    {
      var msg := bufferOut.ToString();
      var i := 0; // the kernel's answers used so far
      ghost var start, table := State(), srvLoop.Table();
      while |msg| > 0
        invariant srvLoop.TableValid() && fd in srvLoop.interest
        invariant 0 <= i <= |results| && msg == bufferOut.stream.content
        invariant Emit(State(), results[i..]) == Emit(start, results)
        invariant msg == [] || start.output.stream.content != []
        invariant srvLoop.Table() == if msg == [] && start.output.stream.content != [] then Modify(table, fd, true, false, id, 0).0 else table
        decreases |results| - i
      {
        if i == |results| {
          break; // would block
        }
        var answer := results[i];
        assert results[i..] == [answer] + results[i + 1..];
        match answer {
          case Eintr => EmitRetries(State(), results[i + 1..]);
          case WouldBlock => break;
          case SendFailed(_) => return;
          case Accepted(limit) =>
            var bytes := Min(limit, |msg|);
            if bytes == 0 {
              break;
            }
            EmitStep(State(), limit, results[i + 1..]);
            Sent(bytes);
            msg := bufferOut.ToString();
        }
        i := i + 1;
      }
    }

    method DoHandleWrite(results: seq<SendResult>)
      requires Wf() && srvLoop.TableValid() && FdOk(srvLoop.backend, fd) && fd in srvLoop.interest
      modifies this, bufferOut, srvLoop`handlers, srvLoop`interest, srvLoop.backing
      ensures State() == Flush(old(State()), results)
      ensures srvLoop.TableValid()
      ensures srvLoop.Table() == if Drains(old(State()), results) then Modify(old(srvLoop.Table()), fd, true, false, id, 0).0 else old(srvLoop.Table())
    {
      FlushEmits(State(), results);
      outflow := outflow + Taken(State(), results);
      SendPending(results);
    }

    /** on_read of the subclass: some sends, and the length it has consumed. */
    method OnRead(onRead: OnRead) returns (len: int)
      requires Alive()
      modifies srvLoop`handlers, srvLoop`interest, srvLoop.backing, this, bufferOut
      ensures Alive()
      ensures srvLoop.Model() == SendAll(old(srvLoop.Model()), id, Sends(onRead, old(bufferIn.stream.content)))
      ensures len == Consumed(onRead, old(bufferIn.stream.content)) && bufferIn.stream == old(bufferIn.stream)
    {
      var input := bufferIn.ToString();
      var sends := Sends(onRead, input);
      for i := 0 to |sends|
        invariant Alive() && bufferIn.stream == old(bufferIn.stream)
        invariant srvLoop.Model() == SendAll(old(srvLoop.Model()), id, sends[..i])
      {
        SendStep(old(srvLoop.Model()), id, sends, i);
        srvLoop.SendTo(this, sends[i]);
      }
      assert sends[..|sends|] == sends;
      var length := bufferIn.Length();
      return if onRead.Echo? then length else onRead.consumed;
    }

    lemma InModel()
      requires Alive()
      ensures IsSession(srvLoop.Model(), id) && srvLoop.Model().objects[id] == Session(fd, State())
    {}

    /** Bytes come in, are handed over, are dropped: only this connection changes. */
    method FillInput(recv: seq<RecvResult>) returns (ret: int)
      requires Alive()
      modifies this, bufferIn
      ensures Alive() && State() == Receive(old(State()), recv) && ret == ReadReturn(recv)
      ensures srvLoop.Model() == WithConn(old(srvLoop.Model()), id, State())
    {
      var errno: int;
      ghost var data := Received(recv);
      received, dropped, intake := received + data, dropped + Replaced(bufferIn.stream, data), intake + [Op.Put(data)];
      ret, errno := bufferIn.Read(recv);
      srvLoop.Touched(this);
    }

    ghost method HandOver()
      requires Alive()
      modifies this
      ensures Alive() && State() == Deliver(old(State()))
      ensures srvLoop.Model() == WithConn(old(srvLoop.Model()), id, State())
    {
      delivered := delivered + bufferIn.stream.content;
      srvLoop.Touched(this);
    }

    method DropInput(len: int)
      requires Alive()
      modifies this, bufferIn
      ensures Alive() && State() == Consume(old(State()), len)
      ensures srvLoop.Model() == WithConn(old(srvLoop.Model()), id, State())
    {
      consumed := consumed + if 0 <= len <= |bufferIn.stream.content| then bufferIn.stream.content[..len] else [];
      intake := intake + [Take(len)];
      bufferIn.IgnoreBytes(len);
      srvLoop.Touched(this);
    }

    method ServeInput(onRead: OnRead)
      requires Alive()
      modifies srvLoop`handlers, srvLoop`interest, srvLoop.backing, this, bufferIn, bufferOut
      ensures Alive() && srvLoop.Model() == Serve(old(srvLoop.Model()), id, onRead)
    {
      InModel();
      HandOver();
      var len := OnRead(onRead);
      InModel();
      DropInput(len);
    }

    method DoHandleRead(recv: seq<RecvResult>, onRead: OnRead)
      requires Alive()
      modifies srvLoop`handlers, srvLoop`interest, srvLoop`memory, srvLoop`trace, srvLoop.backing, this, bufferIn, bufferOut
      ensures srvLoop.Wf() && srvLoop.Model() == HandleRead(old(srvLoop.Model()), id, recv, onRead)
    {
      InModel();
      var ret := FillInput(recv);
      if ret <= 0 {
        Close();
        return;
      }
      ServeInput(onRead);
    }

    /** Nothing went through the handler's buffers yet; what they hold is not asked. */
    ghost predicate Unused()
      reads this, bufferIn, bufferOut
    {
      State().(input := State().input.(stream := EMPTY), output := State().output.(stream := EMPTY)) == Connections.FRESH
    }

    /** set_remote_addr and set_service_loop are the constructor's; on_connect sends nothing. */
    method Open()
      requires Wf() && srvLoop.TableValid() && FdOk(srvLoop.backend, fd) && fd !in srvLoop.interest
      requires Unused()
      modifies bufferIn, bufferOut, srvLoop`handlers, srvLoop`interest, srvLoop.backing
      ensures State() == Connections.FRESH && srvLoop.TableValid()
      ensures srvLoop.Table() == Register(old(srvLoop.Table()), fd, true, false, id, 0).0
    {
      bufferIn.Clear();
      bufferOut.Clear();
      var ret := srvLoop.RegisterEvent(fd, true, false, id, 0);
      assert 0 == ret;
    }

    /** The first half of close: only the table changes. */
    method Unregister()
      requires Alive()
      modifies srvLoop`handlers, srvLoop`interest, srvLoop.backing
      ensures srvLoop.Wf() && srvLoop.memory == old(srvLoop.memory)
      ensures srvLoop.Model() == old(srvLoop.Model()).(loop := Delete(old(srvLoop.Table()), fd, 0).0)
    {
      if fd > 0 {
        var ret := srvLoop.DeleteEvent(fd, 0);
        assert 0 == ret;
      }
      srvLoop.OnlyTable();
    }

    /** `delete this` ends the method, and the handler. */
    method Close()
      requires Alive()
      modifies srvLoop`handlers, srvLoop`interest, srvLoop`memory, srvLoop`trace, srvLoop.backing
      ensures srvLoop.Wf() && srvLoop.Model() == Retire(old(srvLoop.Model()), id)
    {
      InModel();
      Unregister();
      srvLoop.Forget(id);
    }
  }

  class ServiceLoop {
    const dispatcher: Dispatcher
    ghost const backend: Backend
    ghost const backing: object // the dispatcher object
    ghost var interest: map<int, Interest> // what the dispatcher holds
    const functors: ThreadQueue<Task>
    var handlers: map<int, Option<Id>>
    var quit: bool
    var memory: map<Id, Handler>
    var nextId: Id
    ghost var Repr: set<object> // the dispatcher, the queue, the live sessions and their buffers
    ghost var pc: Pc
    ghost var batch: seq<Event>
    ghost var fun: Option<Task>
    ghost var pushed: seq<Task>
    ghost var executed: seq<Task>
    ghost var trace: seq<Call>
    ghost var labels: seq<Label>

    ghost predicate Wf()
      reads this, Repr
    {
      && this !in Repr && {backing, functors} <= Repr && TableValid() && backing != functors
      && forall id :: id in memory && memory[id].SessionAt? ==>
           var c := memory[id].c;
           {c, c.bufferIn, c.bufferOut} <= Repr && c.Wf() && c.id == id && c.srvLoop == this
    }

    ghost function ObjectAt(h: Handler): Object
      reads if h.SessionAt? then {h.c, h.c.bufferIn, h.c.bufferOut} else {}
    {
      match h case SessionAt(c) => Session(c.fd, c.State()) case PlainAt(fd) => Plain(fd)
    }

    ghost function Model(): State
      requires Wf()
      reads this, Repr
    {
      State(Table(), map id | id in memory :: ObjectAt(memory[id]), nextId, quit, pc, batch, functors.tasksList, fun, pushed, executed, trace, false)
    }

    ghost predicate Valid()
      reads this, Repr
    {
      Wf() && Inv(Model())
    }

    /** What the constructor has built before it opens the wakeup handler. */
    ghost predicate Blank()
      reads this, Repr
    {
      && Wf() && memory == map[] && handlers == map[] && interest == map[] && nextId == 0 && !quit && functors.tasksList == []
      && pc == POLLING && batch == [] && fun == None && pushed == executed == [] && trace == [] && labels == []
    }

    lemma BlankRuns()
      requires Blank()
      ensures Running() && Model() == Init(backend)
    {
      assert Model().objects == map[];
    }

    /** The default argument of the source is 2, epoll. The wakeup handler on the eventfd `wakeup` is
    the first handler of the loop. */
    constructor (poll: int, wakeup: int)
      requires 0 <= poll <= 2 && FdOk(BackendOf(poll), wakeup)
      ensures Running() && labels == [Setup(Action.StartPlain(wakeup, 0))] && fresh(Repr)
      ensures backend == BackendOf(poll)
      ensures (poll == 0 ==> dispatcher.OverSelect?) && (poll == 1 ==> dispatcher.OverPoll?) && (poll == 2 ==> dispatcher.OverEpoll?)
      ensures Model() == Create(Init(backend), Plain(wakeup), 0)
    {
      var d := CreateDispatcher(poll);
      dispatcher, backend, backing, interest := d.value, BackendOf(poll), d.value.Obj(), map[];
      functors := new ThreadQueue<Task>();
      handlers, quit, memory, nextId := map[], false, map[], 0;
      Repr := {d.value.Obj(), functors};
      pc, batch, fun, pushed, executed, trace, labels := POLLING, [], None, [], [], [], [];
      new;
      ghost var built := Repr;
      assert fresh(built);
      OpenWakeup(wakeup);
      assert forall o :: o in Repr ==> o in built || o in Repr - built;
    }

    method OpenWakeup(wakeup: int)
      requires Blank() && FdOk(backend, wakeup)
      modifies this, Repr
      ensures Grew() && Running() && labels == [Setup(Action.StartPlain(wakeup, 0))]
      ensures Model() == Create(Init(backend), Plain(wakeup), 0)
    {
      BlankRuns();
      SetupStep(Action.StartPlain(wakeup, 0));
    }

    ghost predicate TableValid()
      reads this`interest, backing
    {
      backing == dispatcher.Obj() && dispatcher.Valid() && interest == dispatcher.View() && backend == dispatcher.Backend()
    }

    ghost function Table(): Loop
      reads this`handlers, this`interest
    {
      Loop(backend, handlers, interest)
    }

    method RegisterEvent(h: int, readable: bool, writeable: bool, handler: Id, fault: CtlFault) returns (errno: int)
      requires TableValid() && FdOk(backend, h) && (readable || writeable)
      requires backend != EPOLL ==> h !in interest
      modifies this`handlers, this`interest, backing
      ensures TableValid() && (Table(), errno) == Register(old(Table()), h, readable, writeable, handler, fault)
    {
      var ok, e := dispatcher.AddEvent(h, readable, writeable, fault);
      interest := dispatcher.View();
      if !ok {
        return e;
      }
      handlers := handlers[h := Some(handler)];
      return 0;
    }

    /** The table entry is written unless it already holds this handler. */
    method StoreHandler(h: int, handler: Id)
      modifies this`handlers
      ensures handlers == old(handlers)[h := Some(handler)]
    {
      var found := HandlerAt(h);
      if found != Some(handler) {
        handlers := handlers[h := Some(handler)];
      }
    }

    method ModifyEvent(h: int, readable: bool, writeable: bool, handler: Id, fault: CtlFault) returns (errno: int)
      requires TableValid() && FdOk(backend, h) && (readable || writeable)
      requires backend == SELECT ==> h in interest
      modifies this`handlers, this`interest, backing
      ensures TableValid() && (Table(), errno) == Modify(old(Table()), h, readable, writeable, handler, fault)
    {
      ghost var l := Table();
      var ok, e := dispatcher.ModEvent(h, readable, writeable, fault);
      interest := dispatcher.View();
      if !ok {
        assert (Table(), e) == Modify(l, h, readable, writeable, handler, fault);
        return e;
      }
      StoreHandler(h, handler);
      assert Table() == Modify(l, h, readable, writeable, handler, fault).0;
      return 0;
    }

    method DeleteEvent(h: int, fault: CtlFault) returns (errno: int)
      requires TableValid()
      modifies this`handlers, this`interest, backing
      ensures TableValid() && (Table(), errno) == Delete(old(Table()), h, fault)
    {
      ghost var l := Table();
      if h in handlers {
        var ok, e := dispatcher.DelEvent(h, fault);
        interest := dispatcher.View();
        if !ok {
          assert (Table(), e) == (l, fault);
          return e;
        }
        handlers := handlers - {h};
        assert Table() == Delete(l, h, fault).0;
      }
      return 0;
    }

    /** handlers_[h]: a missing entry is created, holding NULL. */
    method HandlerAt(h: int) returns (found: Option<Id>)
      modifies this`handlers
      ensures (Table(), found) == Lookup(old(Table()), h)
    {
      if h !in handlers {
        handlers := handlers[h := None];
      }
      return handlers[h];
    }

    /** One session and the table changed, and nothing else. */
    twostate lemma Touched(c: ConnectionHandler)
      requires old(Wf()) && TableValid() && Idle()
      requires c.id in memory && memory[c.id] == SessionAt(c)
      requires forall x :: x in memory && memory[x].SessionAt? && x != c.id ==> memory[x].c.State() == old(memory[x].c.State())
      ensures Wf() && IsSession(old(Model()), c.id) && Model() == WithConn(old(Model()), c.id, c.State()).(loop := Table())
    {
      var was := old(Model());
      forall x | x in memory && x != c.id ensures ObjectAt(memory[x]) == was.objects[x] {}
      assert Model().objects == was.objects[c.id := Session(c.fd, c.State())];
    }

    /** The table changed, and nothing else. */
    twostate lemma OnlyTable()
      requires old(Wf()) && TableValid() && Idle()
      requires forall x :: x in memory && memory[x].SessionAt? ==> memory[x].c.State() == old(memory[x].c.State())
      ensures Wf() && Model() == old(Model()).(loop := Table())
    {
      var was := old(Model());
      forall x | x in memory ensures ObjectAt(memory[x]) == was.objects[x] {}
      assert Model().objects == was.objects;
    }

    /** No field of the loop changed but its table. */
    twostate predicate Idle()
      reads this, functors
    {
      && memory == old(memory) && nextId == old(nextId) && quit == old(quit) && pc == old(pc) && batch == old(batch)
      && functors.tasksList == old(functors.tasksList) && fun == old(fun) && pushed == old(pushed)
      && executed == old(executed) && trace == old(trace) && Repr == old(Repr)
    }

    /** The effect of a send on the whole reactor: no other handler changes. */
    method SendTo(c: ConnectionHandler, data: Bytes)
      requires c.srvLoop == this && c.Alive()
      modifies this`handlers, this`interest, backing, c, c.bufferOut
      ensures c.Alive() && Model() == ReactorModel.Send(old(Model()), c.id, data)
      ensures c.bufferIn.stream == old(c.bufferIn.stream)
    {
      c.Send(data);
      Touched(c);
    }

    /** The handler's last callback is over and its memory is freed. */
    method Forget(id: Id)
      requires Wf() && id in memory
      modifies this`memory, this`trace
      ensures Wf() && memory == old(memory) - {id}
      ensures Model() == old(Model()).(objects := old(Model()).objects - {id}, trace := old(trace) + [Died(id)])
    {
      ghost var was := Model();
      memory := memory - {id};
      trace := trace + [Died(id)];
      assert Model().objects == was.objects - {id};
    }

    method WriteOut(c: ConnectionHandler, results: seq<SendResult>)
      requires c.srvLoop == this && c.Alive()
      modifies this`handlers, this`interest, backing, c, c.bufferOut
      ensures Wf() && Model() == HandleWrite(old(Model()), c.id, results)
    {
      c.InModel();
      c.DoHandleWrite(results);
      Touched(c);
    }

    ghost function Footprint(h: Handler): set<object> {
      if h.SessionAt? then {h.c as object, h.c.bufferIn, h.c.bufferOut} else {}
    }

    ghost method Adopt(h: Handler)
      requires Wf() && this !in Footprint(h)
      modifies this`Repr
      ensures Wf() && Model() == old(Model()) && Repr == old(Repr) + Footprint(h)
    {
      ghost var was := Model();
      Repr := Repr + Footprint(h);
      assert Model().objects == was.objects;
    }

    method Place(id: Id, h: Handler)
      requires Wf() && id !in memory && Footprint(h) <= Repr
      requires h.SessionAt? ==> h.c.Wf() && h.c.id == id && h.c.srvLoop == this
      modifies this`memory
      ensures Wf() && memory == old(memory)[id := h]
      ensures Model() == old(Model()).(objects := old(Model()).objects[id := ObjectAt(h)])
    {
      ghost var was := Model();
      memory := memory[id := h];
      forall x | x in memory && x != id ensures ObjectAt(memory[x]) == was.objects[x] {}
      assert Model().objects == was.objects[id := ObjectAt(h)];
    }

    method CountUp()
      requires Wf()
      modifies this`nextId
      ensures Wf() && nextId == old(nextId) + 1 && Model() == old(Model()).(next := old(nextId) + 1)
    {
      ghost var was := Model();
      nextId := nextId + 1;
      assert Model().objects == was.objects;
    }

    /** A new handler that is already registered takes its place in memory. */
    method Enlist(id: Id, h: Handler)
      requires Wf() && id == nextId && id !in memory
      requires h.SessionAt? ==> h.c.Wf() && h.c.id == id && h.c.srvLoop == this
      requires this !in Footprint(h)
      modifies this`memory, this`nextId, this`trace, this`Repr
      ensures Wf() && memory == old(memory)[id := h]
      ensures Model() == Allocate(old(Model()), ObjectAt(h))
      ensures Repr == old(Repr) + Footprint(h)
    {
      Adopt(h);
      Place(id, h);
      Record(Born(id));
      CountUp();
    }

    /** Only new objects joined. */
    twostate predicate Grew()
      reads this`Repr
    {
      fresh(Repr - old(Repr))
    }

    twostate predicate Grown()
      reads this, Repr
    {
      Wf() && fresh(Repr - old(Repr))
    }

    /** Whether the descriptor can be registered: it is one the dispatcher takes, and it is free. */
    method CanRegister(fd: int) returns (b: bool)
      requires Wf() && Agreement(Table())
      ensures b <==> FdOk(backend, fd) && fd !in interest
    {
      assert Live(Table(), fd) <==> fd in interest;
      return FdOk(dispatcher.Backend(), fd) && !(fd in handlers && handlers[fd].Some?);
    }

    /** A handler on a free descriptor: allocated, opened, not yet in memory. */
    method NewSession(fd: int) returns (c: ConnectionHandler)
      requires Wf() && FdOk(backend, fd) && fd !in interest
      modifies this`handlers, this`interest, backing
      ensures Wf() && memory == old(memory) && Repr == old(Repr)
      ensures fresh(c) && fresh(c.bufferIn) && fresh(c.bufferOut) && c.Wf() && c.id == nextId && c.srvLoop == this
      ensures ObjectAt(SessionAt(c)) == Session(fd, Connections.FRESH)
      ensures Model() == old(Model()).(loop := Register(old(Table()), fd, true, false, nextId, 0).0)
    {
      c := new ConnectionHandler(nextId, fd, this);
      c.Open();
      OnlyTable();
    }

    method OpenSession(fd: int)
      requires Wf() && Agreement(Table()) && nextId !in memory
      modifies this`handlers, this`interest, this`memory, this`nextId, this`trace, this`Repr, backing
      ensures Grown() && Model() == Create(old(Model()), Session(fd, Connections.FRESH), 0)
    {
      var ok := CanRegister(fd);
      if ok {
        var c := NewSession(fd);
        Enlist(nextId, SessionAt(c));
      }
    }

    method StartPlain(fd: int, fault: CtlFault)
      requires Wf() && Agreement(Table()) && nextId !in memory
      modifies this`handlers, this`interest, this`memory, this`nextId, this`trace, this`Repr, backing
      ensures Grown() && Model() == Create(old(Model()), Plain(fd), fault)
    {
      var ok := CanRegister(fd);
      if ok {
        var ret := RegisterEvent(fd, true, false, nextId, fault);
        OnlyTable();
        if ret == 0 {
          Enlist(nextId, PlainAt(fd));
        }
      }
    }

    method StopPlain(id: Id, fault: CtlFault)
      requires Wf() && id in memory && memory[id].PlainAt?
      modifies this`handlers, this`interest, this`memory, this`trace, backing
      ensures Grown() && Model() == Stop(old(Model()), id, fault)
    {
      var ret := DeleteEvent(memory[id].fd, fault);
      OnlyTable();
      if ret == 0 {
        Forget(id);
      }
    }

    method AddRun(task: Task)
      requires Wf()
      modifies this`pushed, functors
      ensures Grown() && Model() == PushTask(old(Model()), task)
    {
      ghost var was := Model();
      functors.Push(task);
      pushed := pushed + [task];
      assert Model().objects == was.objects;
    }

    lemma SessionAlive(id: Id)
      requires Valid() && id in memory && memory[id].SessionAt?
      ensures memory[id].c.srvLoop == this && memory[id].c.id == id && memory[id].c.Alive()
      ensures IsSession(Model(), id) && Model().objects[id].fd in Model().loop.interest
    {
      Reachable(Model());
      assert Model().objects[id] == ObjectAt(memory[id]);
    }

    method ActSend(id: Id, data: Bytes)
      requires Valid()
      modifies this, Repr
      ensures Grown() && Model() == ReactorModel.Send(old(Model()), id, data)
    {
      if id in memory && memory[id].SessionAt? {
        SessionAlive(id);
        SendTo(memory[id].c, data);
      }
    }

    method ActClose(id: Id, self: Option<Id>)
      requires Valid()
      modifies this, Repr
      ensures Grown() && Model() == ReactorModel.Act(old(Model()), CloseSession(id), self)
    {
      if id in memory && memory[id].SessionAt? && self != Some(id) {
        SessionAlive(id);
        memory[id].c.Close();
      }
    }

    /** One thing user code does. An action on a handler of the wrong kind is not taken. */
    method Act(a: Action, self: Option<Id>)
      requires Valid()
      modifies this, Repr
      ensures Grown() && Model() == ReactorModel.Act(old(Model()), a, self)
    {
      Reachable(Model());
      match a {
        case SendTo(id, data) => ActSend(id, data);
        case CloseSession(id) => ActClose(id, self);
        case OpenSession(fd) => OpenSession(fd);
        case StartPlain(fd, fault) => StartPlain(fd, fault);
        case StopPlain(id, fault) =>
          if id in memory && memory[id].PlainAt? {
            StopPlain(id, fault);
          }
        case Post(task) => AddRun(task);
      }
    }

    method Exec(actions: seq<Action>, self: Option<Id>)
      requires Valid()
      modifies this, Repr
      ensures Grown() && Model() == ReactorModel.Exec(old(Model()), actions, self)
    {
      ghost var s := Model();
      for i := 0 to |actions|
        invariant Grown() && Model() == ReactorModel.Exec(s, actions[..i], self)
      {
        assert actions[..i + 1][..i] == actions[..i];
        ExecKeeps(s, actions[..i], self);
        Act(actions[i], self);
      }
      assert actions[..|actions|] == actions;
    }

    ghost method Record(c: Call)
      requires Wf()
      modifies this`trace
      ensures Wf() && Model() == old(Model()).(trace := old(trace) + [c])
    {
      ghost var s := Model();
      trace := trace + [c];
      assert Model().objects == s.objects;
    }

    method CallSession(c: ConnectionHandler, kind: Kind, cb: ReactorModel.Callback)
      requires c.srvLoop == this && c.Alive()
      modifies this, Repr
      ensures Grown() && IsSession(old(Model()), c.id)
      ensures Model() == match kind case READ => HandleRead(old(Model()), c.id, cb.recv, cb.onRead)
                                    case WRITE => HandleWrite(old(Model()), c.id, cb.send)
                                    case ERROR => Retire(old(Model()), c.id)
    {
      c.InModel();
      match kind {
        case READ => c.DoHandleRead(cb.recv, cb.onRead);
        case WRITE => WriteOut(c, cb.send);
        case ERROR => c.Close();
      }
    }

    /** The virtual calls of run: do_handle_read, do_handle_write, do_handle_error. */
    method CallHandler(id: Id, kind: Kind, cb: ReactorModel.Callback)
      requires Wf() && id in memory && (memory[id].SessionAt? ==> memory[id].c.Alive())
      modifies this, Repr
      ensures Grown() && id in old(Model()).objects && Model() == Handle(old(Model()), id, kind, cb)
    {
      ghost var s := Model();
      match memory[id] {
        case SessionAt(c) =>
          assert s.objects[id] == Session(c.fd, c.State());
          Record(Called(id, kind));
          CallSession(c, kind, cb);
        case PlainAt(fd) =>
          assert s.objects[id] == Plain(fd);
          Record(Called(id, kind));
      }
    }

    ghost method TakeEvent()
      requires Wf() && batch != []
      modifies this`batch, this`pc
      ensures Wf()
      ensures var rest := old(batch)[1..];
              Model() == old(Model()).(batch := rest, pc := if rest == [] then POPPING else DISPATCHING)
    {
      ghost var s := Model();
      batch := batch[1..];
      pc := if batch == [] then POPPING else DISPATCHING;
      assert Model().objects == s.objects;
    }

    method NextHandler(fd: int) returns (handler: Option<Id>)
      requires Wf() && batch != [] && batch[0].fd == fd
      modifies this`handlers, this`batch, this`pc
      ensures Wf() && Model() == Next(old(Model())) && handler == Lookup(old(Table()), fd).1
    {
      handler := HandlerAt(fd);
      OnlyTable();
      TakeEvent();
    }

    /** A callback, with the actions user code takes in it. */
    method Callback(id: Id, kind: Kind, cb: ReactorModel.Callback)
      requires Valid() && id in memory
      modifies this, Repr
      ensures Grown() && Model() == ReactorModel.Exec(Handle(old(Model()), id, kind, cb), cb.actions, Some(id))
    {
      HandleKeeps(Model(), id, kind, cb);
      if memory[id].SessionAt? {
        SessionAlive(id);
      }
      CallHandler(id, kind, cb);
      Exec(cb.actions, Some(id));
    }

    /** One turn of the for loop of run. */
    method Dispatch(e: Event, cb: ReactorModel.Callback)
      requires Valid() && batch != [] && batch[0] == e
      modifies this, Repr
      ensures Grown() && Model() == DispatchOne(old(Model()), cb)
    {
      DispatchMeans(Model(), cb);
      var handler := NextHandler(e.fd);
      if handler.Some? {
        Callback(handler.value, e.kind, cb);
      }
    }

    // ---- run --------------------------------------------------------------------------------

    /** The loop is where some run of the state machine leads, so every theorem about runs is about it. */
    ghost predicate Running()
      reads this, Repr
    {
      Wf() && IsRun(backend, labels) && Model() == After(backend, labels)
    }

    /** What the loop's thread does outside run. */
    method SetupStep(a: Action)
      requires Running() && pc == POLLING
      modifies this, Repr
      ensures Grew() && Running() && labels == old(labels) + [Setup(a)]
      ensures Model() == ReactorModel.Act(old(Model()), a, None)
    {
      RunKeeps(backend, labels);
      OneMore(backend, labels, Setup(a));
      ghost var before := labels;
      Act(a, None);
      Took(before + [Setup(a)]);
    }

    /** The dispatcher fills `ready`; the functor of this turn is not filled yet. */
    method HandleEvents(k: Kernel, order: seq<int>, fault: nat) returns (ret: int, ready: seq<Event>)
      requires Wf()
      modifies this`batch, this`pc, this`fun, backing
      ensures Wf() && Model() == Polled(old(Model()), ready) && Allowed(interest, ready)
      ensures fault == 0 && (backend == EPOLL ==> Finds(interest, k, order)) ==> Exact(interest, Sees(backend, k), ready)
      ensures KindsInOrder(ready) && (fault != 0 ==> ready == [])
    {
      ghost var s := Model();
      ret, ready := dispatcher.HandleEvents(k, order, fault);
      batch, pc, fun := ready, if ready == [] then POPPING else DISPATCHING, None;
      assert Model().objects == s.objects;
    }

    /** The state is where the run that is one label longer leads. */
    ghost method Took(more: seq<Label>)
      requires Wf() && IsRun(backend, more) && Model() == After(backend, more)
      modifies this`labels
      ensures Running() && labels == more
    {
      ghost var s := Model();
      labels := more;
      assert Model().objects == s.objects;
    }

    method PollStep(k: Kernel, order: seq<int>, fault: nat) returns (ret: int, ready: seq<Event>)
      requires Running() && pc == POLLING && !quit
      modifies this`batch, this`pc, this`fun, this`labels, backing
      ensures Running() && Follows(labels, old(labels), [Poll(ready)]) && batch == ready
      ensures Reported(backend, old(labels), k, order, fault, ready)
      ensures pc == if ready == [] then POPPING else DISPATCHING
    {
      ret, ready := HandleEvents(k, order, fault);
      OneMore(backend, labels, Poll(ready));
      FollowsIff(labels + [Poll(ready)], labels, [Poll(ready)]);
      Took(labels + [Poll(ready)]);
    }

    method DispatchStep(e: Event, cb: ReactorModel.Callback)
      requires Running() && pc == DISPATCHING && batch != [] && batch[0] == e
      modifies this, Repr
      ensures Grew() && Running() && Follows(labels, old(labels), [Label.Dispatch(cb)])
      ensures batch == old(batch)[1..] && pc == if batch == [] then POPPING else DISPATCHING
    {
      DispatchLabel(backend, labels, Model(), cb);
      ghost var before := labels;
      Dispatch(e, cb);
      FollowsIff(before + [Label.Dispatch(cb)], before, [Label.Dispatch(cb)]);
      Took(before + [Label.Dispatch(cb)]);
    }

    /** The front of the queue, with what the functor held before. */
    method TakeFunctor(functor: Task) returns (ok: bool, t: Task)
      requires Wf()
      modifies functors
      ensures Wf() && (ok <==> old(functors.tasksList) != [])
      ensures ok ==> [t] + functors.tasksList == old(functors.tasksList)
      ensures !ok ==> functors.tasksList == []
      ensures Model() == old(Model()).(queue := functors.tasksList)
    {
      ghost var s := Model();
      ok, t := functors.Pop(functor);
      assert Model().objects == s.objects;
    }

    ghost method NowAt(pc': Pc, fun': Option<Task>)
      requires Wf()
      modifies this`pc, this`fun
      ensures Wf() && pc == pc' && fun == fun' && Model() == old(Model()).(pc := pc', fun := fun')
    {
      ghost var s := Model();
      pc, fun := pc', fun';
      assert Model().objects == s.objects;
    }

    /** functors_.pop(fun). */
    method PopFunctor(functor: Task) returns (ok: bool, t: Task)
      requires Wf()
      modifies this`pc, this`fun, functors
      ensures Wf() && Model() == PopTask(old(Model()))
      ensures ok <==> old(functors.tasksList) != []
      ensures ok ==> pc == INVOKING && fun == Some(t)
      ensures !ok ==> pc == POLLING && functors.tasksList == []
    {
      ok, t := TakeFunctor(functor);
      NowAt(if ok then INVOKING else POLLING, if ok then Some(t) else fun);
    }

    method PopStep(functor: Task) returns (ok: bool, t: Task)
      requires Running() && pc == POPPING
      modifies this`pc, this`fun, this`labels, functors
      ensures Running() && Follows(labels, old(labels), [Pop])
      ensures ok ==> pc == INVOKING && fun == Some(t) && QueueSize(functors.tasksList) + TaskSize(t) == old(QueueSize(functors.tasksList))
      ensures !ok ==> pc == POLLING && functors.tasksList == []
    {
      if functors.tasksList != [] {
        FrontSize(functors.tasksList);
      }
      OneMore(backend, labels, Pop);
      ok, t := PopFunctor(functor);
      FollowsIff(labels + [Pop], labels, [Pop]);
      Took(labels + [Pop]);
    }

    /** The functor is about to be called. */
    ghost method BeginTask(t: Task)
      requires Wf() && fun == Some(t)
      modifies this`pc, this`executed
      ensures Wf() && Model() == Started(old(Model()))
    {
      ghost var s := Model();
      executed := executed + [t];
      pc := POPPING;
      assert Model().objects == s.objects;
    }

    /** fun(): its body is user code. */
    method InvokeFunctor(t: Task)
      requires Valid() && pc == INVOKING && fun == Some(t)
      modifies this, Repr
      ensures Grown() && Model() == InvokeTask(old(Model())) && pc == POPPING
      ensures QueueSize(functors.tasksList) == old(QueueSize(functors.tasksList)) + PostedSize(t.body)
    {
      InvokeStart(Model());
      BeginTask(t);
      Exec(t.body, None);
    }

    method InvokeStep(t: Task)
      requires Running() && pc == INVOKING && fun == Some(t)
      modifies this, Repr
      ensures Grew() && Running() && Follows(labels, old(labels), [Invoke]) && pc == POPPING
      ensures QueueSize(functors.tasksList) == old(QueueSize(functors.tasksList)) + PostedSize(t.body)
    {
      RunKeeps(backend, labels);
      OneMore(backend, labels, Invoke);
      ghost var before := labels;
      InvokeFunctor(t);
      FollowsIff(before + [Invoke], before, [Invoke]);
      Took(before + [Invoke]);
    }

    /** add_run, from any thread. */
    method PushStep(task: Task)
      requires Running()
      modifies this`pushed, this`labels, functors
      ensures Running() && Follows(labels, old(labels), [Push(task)]) && Grown()
    {
      OneMore(backend, labels, Push(task));
      AddRun(task);
      FollowsIff(labels + [Push(task)], labels, [Push(task)]);
      Took(labels + [Push(task)]);
    }

    /** quit, from any thread; waking the loop up is one more readable descriptor. */
    method QuitStep()
      requires Running()
      modifies this`quit, this`labels
      ensures Running() && Follows(labels, old(labels), [Label.Quit]) && quit
    {
      ghost var s := Model();
      OneMore(backend, labels, Label.Quit);
      quit := true;
      assert Model() == s.(quit := true) by {
        assert Model().objects == s.objects;
      }
      FollowsIff(labels + [Label.Quit], labels, [Label.Quit]);
      Took(labels + [Label.Quit]);
    }

    /** What other threads do to the loop between two of its steps. */
    method Others(arrival: Arrival)
      requires Running()
      modifies this, Repr
      ensures Grew() && Running() && Follows(labels, old(labels), ArrivalLabels(arrival))
      ensures pc == old(pc) && batch == old(batch) && fun == old(fun)
      ensures arrival.tasks == [] ==> functors.tasksList == old(functors.tasksList)
    {
      PushAll(arrival.tasks);
      ghost var pushed := labels;
      if arrival.quit {
        QuitStep();
        FollowsThen(old(labels), pushed, labels, PushLabels(arrival.tasks), [Label.Quit]);
      }
    }

    method PushAll(tasks: seq<Task>)
      requires Running()
      modifies this, Repr
      ensures Grew() && Running() && Follows(labels, old(labels), PushLabels(tasks))
      ensures pc == old(pc) && batch == old(batch) && fun == old(fun)
      ensures tasks == [] ==> functors.tasksList == old(functors.tasksList)
    {
      for j := 0 to |tasks|
        invariant Grew() && Running() && Follows(labels, old(labels), PushLabels(tasks[..j]))
        invariant pc == old(pc) && batch == old(batch) && fun == old(fun)
        invariant tasks == [] ==> functors.tasksList == old(functors.tasksList)
      {
        assert tasks[..j + 1][..j] == tasks[..j];
        ghost var before := labels;
        PushStep(tasks[j]);
        FollowsThen(old(labels), before, labels, PushLabels(tasks[..j]), [Push(tasks[j])]);
      }
      assert tasks[..|tasks|] == tasks;
    }

    /** The for loop of run: every ready event in turn. */
    method DispatchAll(ready: seq<Event>, callbacks: seq<ReactorModel.Callback>, others: seq<Arrival>)
      requires Running() && batch == ready && pc == if ready == [] then POPPING else DISPATCHING
      modifies this, Repr
      ensures Grew() && Running() && pc == POPPING && Follows(labels, old(labels), DispatchLabels(|ready|, callbacks, others))
    {
      for i := 0 to |ready|
        invariant Grew() && Running() && batch == ready[i..] && Follows(labels, old(labels), DispatchLabels(i, callbacks, others))
        invariant pc == if batch == [] then POPPING else DISPATCHING
      {
        ghost var before := labels;
        DispatchAmid(ready[i], CallbackAt(callbacks, i), ArrivalAt(others, i));
        FollowsThen(old(labels), before, labels, DispatchLabels(i, callbacks, others), EventLabels(ArrivalAt(others, i), CallbackAt(callbacks, i)));
      }
    }

    method DispatchAmid(e: Event, cb: ReactorModel.Callback, arrival: Arrival)
      requires Running() && pc == DISPATCHING && batch != [] && batch[0] == e
      modifies this, Repr
      ensures Grew() && Running() && Follows(labels, old(labels), EventLabels(arrival, cb))
      ensures batch == old(batch)[1..] && pc == if batch == [] then POPPING else DISPATCHING
    {
      Others(arrival);
      ghost var before := labels;
      DispatchStep(e, cb);
      FollowsThen(old(labels), before, labels, ArrivalLabels(arrival), [Label.Dispatch(cb)]);
    }

    /** The inner while loop of run. A task is a finite tree of the tasks it posts, so the loop ends
    once other threads stop pushing. */
    method Drain(others: seq<Arrival>) returns (ghost tasks: nat)
      requires Running() && pc == POPPING
      modifies this, Repr
      ensures Grew() && Running() && pc == POLLING && functors.tasksList == []
      ensures Follows(labels, old(labels), DrainLabels(tasks, others))
    {
      var functor := Task([]); // RunableFunctor fun, not filled yet
      var ok: bool;
      ok, functor := PopAmid(functor, ArrivalAt(others, 0));
      tasks := DrainRest(ok, functor, others, 0, old(labels), 0);
    }

    /** The loop, from a pop on: `done` functors were called before, and `at` arrivals taken. */
    method DrainRest(ok0: bool, functor0: Task, others: seq<Arrival>, at: nat, ghost start: seq<Label>, ghost done: nat) returns (ghost tasks: nat)
      requires at == 2 * done && Draining(ok0, functor0, start, done, others)
      modifies this, Repr
      ensures Grew() && Draining(false, Task([]), start, tasks, others)
    {
      var ok, functor, j := ok0, functor0, at;
      tasks := done;
      while ok
        invariant Grew() && j == 2 * tasks && Draining(ok, functor, start, tasks, others)
        decreases Arriving(others, j), if ok then Work(functor) else 0
      {
        ok, functor := DrainNext(functor, others, j, start, tasks);
        j := j + 2;
        tasks := tasks + 1;
      }
    }

    /** After `tasks` calls and a pop. */
    ghost predicate Draining(ok: bool, functor: Task, start: seq<Label>, tasks: nat, others: seq<Arrival>)
      reads this, Repr
    {
      && Running() && Follows(labels, start, DrainLabels(tasks, others))
      && if ok then pc == INVOKING && fun == Some(functor) else pc == POLLING && functors.tasksList == []
    }

    /** What is left to call. */
    ghost function Work(functor: Task): nat
      reads functors
    {
      QueueSize(functors.tasksList) + TaskSize(functor)
    }

    method DrainNext(functor: Task, others: seq<Arrival>, j: nat, ghost start: seq<Label>, ghost tasks: nat) returns (ok: bool, next: Task)
      requires j == 2 * tasks && Draining(true, functor, start, tasks, others)
      modifies this, Repr
      ensures Grew() && Draining(ok, next, start, tasks + 1, others)
      ensures Arriving(others, j + 2) <= Arriving(others, j)
      ensures Arriving(others, j + 2) == Arriving(others, j) ==> (if ok then Work(next) else 0) < old(Work(functor))
    {
      ArrivalsEnd(others, j);
      ok, next := DrainOne(functor, ArrivalAt(others, j + 1), ArrivalAt(others, j + 2));
      DrainFollows(start, old(labels), labels, tasks, others);
    }

    /** One turn of that loop; other threads may push before the functor is called and before the
    next one is popped. */
    method DrainOne(functor: Task, before: Arrival, after: Arrival) returns (ok: bool, next: Task)
      requires Running() && pc == INVOKING && fun == Some(functor)
      modifies this, Repr
      ensures Grew() && Running() && Follows(labels, old(labels), RoundLabels(before, after))
      ensures if ok then pc == INVOKING && fun == Some(next) else pc == POLLING && functors.tasksList == []
      ensures before.tasks == after.tasks == [] ==> (if ok then Work(next) else 0) < old(Work(functor))
    {
      InvokeAmid(functor, before);
      ghost var called := labels;
      ok, next := PopAmid(functor, after);
      FollowsThen(old(labels), called, labels, ArrivalLabels(before) + [Invoke], ArrivalLabels(after) + [Pop]);
    }

    method InvokeAmid(functor: Task, arrival: Arrival)
      requires Running() && pc == INVOKING && fun == Some(functor)
      modifies this, Repr
      ensures Grew() && Running() && pc == POPPING && Follows(labels, old(labels), ArrivalLabels(arrival) + [Invoke])
      ensures arrival.tasks == [] ==> QueueSize(functors.tasksList) == old(QueueSize(functors.tasksList)) + PostedSize(functor.body)
    {
      Others(arrival);
      ghost var before := labels;
      InvokeStep(functor);
      FollowsThen(old(labels), before, labels, ArrivalLabels(arrival), [Invoke]);
    }

    method PopAmid(functor: Task, arrival: Arrival) returns (ok: bool, next: Task)
      requires Running() && pc == POPPING
      modifies this, Repr
      ensures Grew() && Running() && Follows(labels, old(labels), ArrivalLabels(arrival) + [Pop])
      ensures if ok then pc == INVOKING && fun == Some(next) else pc == POLLING && functors.tasksList == []
      ensures arrival.tasks == [] && ok ==> QueueSize(functors.tasksList) + TaskSize(next) == old(QueueSize(functors.tasksList))
    {
      Others(arrival);
      ghost var before := labels;
      ok, next := PopStep(functor);
      FollowsThen(old(labels), before, labels, ArrivalLabels(arrival), [Pop]);
    }

    /** The first half of a turn: wait, then dispatch the batch. */
    method PollAndDispatch(turn: TurnInput) returns (ghost ready: seq<Event>)
      requires Running() && pc == POLLING && !quit
      modifies this, Repr
      ensures Grew() && Running() && pc == POPPING
      ensures Follows(labels, old(labels), [Poll(ready)] + DispatchLabels(|ready|, turn.callbacks, turn.dispatching))
      ensures Reported(backend, old(labels), turn.k, turn.order, turn.fault, ready)
    {
      var ret, found := PollStep(turn.k, turn.order, turn.fault);
      ready := found;
      ghost var polled := labels;
      DispatchAll(found, turn.callbacks, turn.dispatching);
      FollowsThen(old(labels), polled, labels, [Poll(ready)], DispatchLabels(|ready|, turn.callbacks, turn.dispatching));
    }

    /** The body of the outer while loop of run. */
    method Turn(turn: TurnInput) returns (ghost ready: seq<Event>, ghost tasks: nat)
      requires Running() && pc == POLLING && !quit
      modifies this, Repr
      ensures Grew() && Running() && pc == POLLING && functors.tasksList == []
      ensures Follows(labels, old(labels), TurnLabels(turn, ready, tasks))
      ensures Reported(backend, old(labels), turn.k, turn.order, turn.fault, ready)
    {
      ready := PollAndDispatch(turn);
      ghost var dispatched := labels;
      tasks := Drain(turn.draining);
      FollowsThen(old(labels), dispatched, labels, [Poll(ready)] + DispatchLabels(|ready|, turn.callbacks, turn.dispatching), DrainLabels(tasks, turn.draining));
    }

    /** ServiceLoop::run for as many turns as the kernel and the other threads are described for;
    other threads push and quit between any two of its steps. It takes exactly the steps of those
    turns, until it finds that it has been told to quit: `readies` is what each wait reported, and
    `counts` how many functors each turn called. */
    method Run(turns: seq<TurnInput>) returns (ghost readies: seq<seq<Event>>, ghost counts: seq<nat>)
      requires Running() && pc == POLLING
      modifies this, Repr
      ensures Grew() && Running() && pc == POLLING
      ensures AllReported(backend, old(labels), turns, readies, counts) && (|readies| < |turns| ==> quit)
      ensures Follows(labels, old(labels), if |readies| < |turns| then UntilQuit(turns, readies, counts) else TurnsLabels(turns, readies, counts))
      ensures quit || turns == [] || functors.tasksList == []
    {
      var i := 0;
      readies, counts := [], [];
      while i < |turns|
        invariant 0 <= i <= |turns| && |readies| == i && Grew() && Turned(old(labels), turns, readies, counts)
        invariant i > 0 ==> functors.tasksList == []
      {
        Wait(turns, i, old(labels), readies, counts);
        if quit {
          return;
        }
        readies, counts := NextTurn(turns, i, old(labels), readies, counts);
        i := i + 1;
      }
    }

    /** The turns so far, as the loop ran them. */
    ghost predicate Turned(start: seq<Label>, turns: seq<TurnInput>, readies: seq<seq<Event>>, counts: seq<nat>)
      reads this, Repr
    {
      && Running() && pc == POLLING
      && AllReported(backend, start, turns, readies, counts) && Follows(labels, start, TurnsLabels(turns, readies, counts))
    }

    /** What arrives before a turn. */
    method Wait(turns: seq<TurnInput>, i: nat, ghost start: seq<Label>, ghost readies: seq<seq<Event>>, ghost counts: seq<nat>)
      requires |readies| == i < |turns| && Turned(start, turns, readies, counts)
      modifies this, Repr
      ensures Grew() && Running() && pc == POLLING && Follows(labels, start, UntilQuit(turns, readies, counts))
    {
      Others(turns[i].waiting);
      FollowsThen(start, old(labels), labels, TurnsLabels(turns, readies, counts), ArrivalLabels(turns[i].waiting));
    }

    method NextTurn(turns: seq<TurnInput>, i: nat, ghost start: seq<Label>, ghost readies: seq<seq<Event>>, ghost counts: seq<nat>)
      returns (ghost readies': seq<seq<Event>>, ghost counts': seq<nat>)
      requires Running() && pc == POLLING && !quit && |readies| == i < |turns|
      requires AllReported(backend, start, turns, readies, counts)
      requires Follows(labels, start, UntilQuit(turns, readies, counts))
      modifies this, Repr
      ensures Grew() && functors.tasksList == []
      ensures |readies'| == i + 1 && Turned(start, turns, readies', counts')
    {
      ghost var ready, tasks;
      ready, tasks := Turn(turns[i]);
      FollowsIff(old(labels), start, UntilQuit(turns, readies, counts));
      MoreReported(backend, start, turns, readies, counts, ready, tasks);
      FollowsThen(start, old(labels), labels, UntilQuit(turns, readies, counts), TurnLabels(turns[i], ready, tasks));
      TurnsMore(turns, readies, counts, ready, tasks);
      readies', counts' := readies + [ready], counts + [tasks];
    }
  }

  lemma SendStep(s: State, id: Id, sends: seq<Bytes>, i: nat)
    requires i < |sends|
    ensures SendAll(s, id, sends[..i + 1]) == ReactorModel.Send(SendAll(s, id, sends[..i]), id, sends[i])
  {
    assert sends[..i + 1][..i] == sends[..i];
  }

  /** The state in which the functor is called. */
  function Started(s: State): State
    requires s.fun.Some?
  {
    s.(pc := POPPING, executed := s.executed + [s.fun.value])
  }

  lemma InvokeStart(s: State)
    requires Inv(s) && s.pc == INVOKING
    ensures s.fun.Some? && Inv(Started(s)) && InvokeTask(s) == Exec(Started(s), s.fun.value.body, None)
    ensures InvokeTask(s).pc == POPPING
    ensures QueueSize(InvokeTask(s).queue) == QueueSize(s.queue) + PostedSize(s.fun.value.body)
  {
    var t := Started(s);
    assert Inv(t) by {
      forall x | x in t.objects ensures Placed(t, x) { assert Placed(s, x); }
    }
    ExecKeeps(t, s.fun.value.body, None);
    ExecQueue(t, s.fun.value.body, None);
  }

  lemma DispatchMeans(s: State, cb: ReactorModel.Callback)
    requires Inv(s) && s.batch != []
    ensures Inv(Next(s))
    ensures match Lookup(s.loop, s.batch[0].fd).1
            case None => DispatchOne(s, cb) == Next(s)
            case Some(id) => id in Next(s).objects
                             && DispatchOne(s, cb) == ReactorModel.Exec(Handle(Next(s), id, s.batch[0].kind, cb), cb.actions, Some(id))
  {
    NextKeeps(s);
  }

  lemma DispatchLabel(backend: Backend, labels: seq<Label>, s: State, cb: ReactorModel.Callback)
    requires IsRun(backend, labels) && After(backend, labels) == s && s.pc == DISPATCHING && s.batch != []
    ensures Inv(s)
    ensures var more, t := labels + [Label.Dispatch(cb)], DispatchOne(s, cb);
            && IsRun(backend, more) && After(backend, more) == t
            && t.batch == s.batch[1..] && t.pc == if t.batch == [] then POPPING else DISPATCHING
  {
    RunKeeps(backend, labels);
    DispatchKeeps(s, cb);
    OneMore(backend, labels, Label.Dispatch(cb));
  }

  /** What the invariant says of the handlers there are, and of the next one. */
  lemma Reachable(s: State)
    requires Inv(s)
    ensures Agreement(s.loop) && s.next !in s.objects
    ensures forall id :: id in s.objects ==> FdOk(s.loop.backend, s.objects[id].fd) && s.objects[id].fd in s.loop.interest
  {
    forall id | id in s.objects ensures FdOk(s.loop.backend, s.objects[id].fd) && s.objects[id].fd in s.loop.interest && id != s.next {
      assert Placed(s, id);
    }
  }
}
