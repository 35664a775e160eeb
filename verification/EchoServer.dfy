/** The echo server of src/example/example-1.cc on the reactor: when do its peers get their own
bytes back? */
module EchoServer {
  import opened Streams
  import opened Dispatching
  import opened LoopTable
  import opened Connections
  import opened ReactorModel
  import opened ReactorSafety
  import opened Callbacks
  import opened OnReadSends
  import opened Turns

  /** Only on_read sends, and it sends back what it was handed. */
  predicate EchoLabel(l: Label) { QuietLabel(l) && (l.Dispatch? ==> l.cb.onRead.Echo?) }

  ghost predicate EchoRun(backend: Backend, labels: seq<Label>) {
    IsRun(backend, labels) && forall l :: l in labels ==> EchoLabel(l)
  }

  /** Between two callbacks everything received was handed to on_read and everything handed to
  on_read was sent. */
  predicate EchoConn(c: Conn) { c.input.stream == EMPTY && c.input.put == c.delivered == c.output.put }

  ghost predicate EchoInv(s: State) { forall id :: IsSession(s, id) ==> EchoConn(s.objects[id].conn) }

  // ---- one echo ---------------------------------------------------------------------------

  /** A positive read puts the bytes it read into the output once, and they replace waiting bytes
  exactly when the put position is not at the end. */
  lemma EchoOnce(c: Conn, cb: Callback)
    requires EchoConn(c) && cb.onRead.Echo? && ReadReturn(cb.recv) > 0
    ensures var d := ConnAfter(c, READ, cb); var data := Received(cb.recv);
            && EchoConn(d) && d.delivered == c.delivered + data
            && d.output == PutInto(c.output, data)
            && (d.output.lost == c.output.lost <==> Clean(c.output.stream))
  {
    var e, data := Receive(c, cb.recv), Received(cb.recv);
    assert Write(EMPTY, data) == Stream(data, |data|);
    assert [data][..0] == [];
    assert PutAll(Deliver(e), [data]) == PutData(PutAll(Deliver(e), []), data);
    assert Ignore(Stream(data, |data|), |data|) == EMPTY;
    WriteAppendsIffClean(c.output.stream, data);
    assert |Replaced(c.output.stream, data)| == Overwritten(c.output.stream, data);
  }

  lemma EchoAfter(c: Conn, kind: Kind, cb: Callback)
    requires EchoConn(c) && cb.onRead.Echo? && Survives(Session(0, c), kind, cb)
    ensures EchoConn(ConnAfter(c, kind, cb))
  {
    if kind == READ { EchoOnce(c, cb); }
  }

  // ---- the exact condition, on every backend ----------------------------------------------

  lemma EchoStep(s: State, l: Label)
    requires Inv(s) && QuietInv(s) && EchoInv(s) && Enabled(s, l) && EchoLabel(l)
    ensures EchoInv(Apply(s, l))
  {
    match l {
      case Dispatch(cb) =>
        DispatchEffect(s, cb);
        var r := DispatchOne(s, cb);
        forall id | IsSession(r, id) ensures EchoConn(r.objects[id].conn) {
          if IsSession(s, id) && Lookup(s.loop, s.batch[0].fd).1 == Some(id) {
            EchoAfter(s.objects[id].conn, s.batch[0].kind, cb);
          }
        }
      case Invoke => QuietExec(s.(pc := POPPING, executed := s.executed + [s.fun.value]), s.fun.value.body, None);
      case Setup(a) => QuietAct(s, a, None);
      case _ =>
    }
  }

  lemma {:induction false} EchoRunKeeps(backend: Backend, labels: seq<Label>)
    requires EchoRun(backend, labels)
    ensures EchoInv(After(backend, labels))
  {
    if labels == [] {
    } else {
      var front, l := labels[..|labels| - 1], labels[|labels| - 1];
      assert l in labels && forall x :: x in front ==> x in labels;
      EchoRunKeeps(backend, front);
      QuietRunKeeps(backend, front);
      EchoStep(After(backend, front), l);
    }
  }

  /** An open connection's peer gets its own bytes back, in order, exactly when no readable event met
  unsent bytes behind the put position. */
  lemma EchoFifoIff(backend: Backend, labels: seq<Label>, id: Id)
    requires EchoRun(backend, labels) && IsSession(After(backend, labels), id)
    ensures var c := After(backend, labels).objects[id].conn;
            && (c.output.taken + c.output.stream.content == c.input.put <==> !DirtyRun(backend, labels, id))
            && c.input.put == c.delivered == c.output.put
  {
    EchoRunKeeps(backend, labels);
    FifoIffNeverDirty(backend, labels, id);
  }

  // ---- the default backend ----------------------------------------------------------------

  /** End to end, on the default backend: as long as a connection is open, what is on the wire
  followed by what still waits is exactly what was received from the peer, in order. */
  lemma EchoOnEpoll(labels: seq<Label>, id: Id)
    requires EchoRun(EPOLL, labels) && IsSession(After(EPOLL, labels), id)
    ensures var c := After(EPOLL, labels).objects[id].conn;
            c.output.taken + c.output.stream.content == c.input.put && c.input.put == c.delivered == c.output.put
  {
    EpollNeverDirty(labels);
    EchoFifoIff(EPOLL, labels, id);
  }

  // ---- the other two backends -------------------------------------------------------------

  lemma EchoTwice(x: Byte, y: Byte, z: Byte) returns (c1: Conn, c2: Conn)
    ensures c1 == ConnAfter(Connections.FRESH, READ, Reading([x, y], Echo)) && c2 == Flush(c1, [Accepted(1)])
    ensures c1.output.stream.content != [] && !Drains(c1, [Accepted(1)]) && c2.output.stream.content != []
    ensures var d := ConnAfter(c2, READ, Reading([z], Echo));
            d.input.put == [x, y, z] && d.output.taken + d.output.stream.content == [x, z]
  {
    ShortRead([x, y]);
    ShortRead([z]);
    FirstPut(x, y);
    UncleanPutLoses(x, y, z);
    EchoOnce(Connections.FRESH, Reading([x, y], Echo));
    c1 := ConnAfter(Connections.FRESH, READ, Reading([x, y], Echo));
    ThenTake(c1.output, x, y);
    PartialFlush(c1, x, y);
    c2 := Flush(c1, [Accepted(1)]);
    EchoOnce(c2, Reading([z], Echo));
  }

  function LosingLabels(): seq<Label> {
    [Setup(OpenSession(5))] + EventLabels(READ, Reading([1, 2], Echo))
    + EventLabels(WRITE, Callback([], [Accepted(1)], Echo, [])) + EventLabels(READ, Reading([3], Echo))
  }

  lemma LosingRun(backend: Backend)
    requires backend != EPOLL
    ensures var labels := LosingLabels(); IsRun(backend, labels) && IsSession(After(backend, labels), 0)
    ensures var c := After(backend, LosingLabels()).objects[0].conn;
            c.input.put == [1, 2, 3] && c.output.taken + c.output.stream.content == [1, 3]
  {
    var c1, c2 := EchoTwice(1, 2, 3);
    var labels := OpenOne(backend);
    labels := ReadTurn(backend, labels, Interest(true, false), Connections.FRESH, [1, 2], Echo);
    labels := WriteTurn(backend, labels, Interest(true, true), c1, [Accepted(1)]);
    labels := ReadTurn(backend, labels, Interest(true, true), c2, [3], Echo);
  }

  lemma LosingEchoes()
    ensures forall l :: l in LosingLabels() ==> EchoLabel(l)
  {
    forall l | l in LosingLabels() ensures EchoLabel(l) {
      assert QuietAction(OpenSession(5));
      assert l == Setup(OpenSession(5)) || l in EventLabels(READ, Reading([1, 2], Echo))
             || l in EventLabels(WRITE, Callback([], [Accepted(1)], Echo, [])) || l in EventLabels(READ, Reading([3], Echo));
    }
  }

  /** Select and poll keep reading while output waits: two bytes arrive, one is sent, a third
  arrives, and it takes the place of the second. */
  lemma EchoFailsElsewhere(backend: Backend) returns (labels: seq<Label>)
    requires backend != EPOLL
    ensures EchoRun(backend, labels) && IsSession(After(backend, labels), 0)
    ensures var c := After(backend, labels).objects[0].conn;
            c.input.put == [1, 2, 3] && c.output.taken + c.output.stream.content == [1, 3]
  {
    labels := LosingLabels();
    LosingRun(backend);
    LosingEchoes();
  }

  /** Of the three backends only epoll makes the example an echo server. */
  lemma EchoIffEpoll(backend: Backend)
    ensures backend == EPOLL <==>
            forall labels, id :: EchoRun(backend, labels) && IsSession(After(backend, labels), id) ==>
              var c := After(backend, labels).objects[id].conn; c.output.taken + c.output.stream.content == c.input.put
  {
    if backend == EPOLL {
      forall labels, id | EchoRun(backend, labels) && IsSession(After(backend, labels), id)
        ensures var c := After(backend, labels).objects[id].conn; c.output.taken + c.output.stream.content == c.input.put
      {
        EchoOnEpoll(labels, id);
      }
    } else {
      var labels := EchoFailsElsewhere(backend);
    }
  }
}
