/** The input of a connection in the terms of who writes on_read: the lengths it returns. */
module InputOrder {
  import opened Streams
  import opened Dispatching
  import opened LoopTable
  import opened Connections
  import opened ReactorModel
  import opened ReactorSafety
  import opened Callbacks
  import opened Evolution

  // ---- histories --------------------------------------------------------------------------

  /** Reads and returns of on_read in turn: something is put, and some length is taken. */
  predicate InTurn(ops: seq<Op>) {
    var n := |ops|;
    ops == [] || (n >= 2 && ops[n - 2].Put? && ops[n - 2].data != [] && ops[n - 1].Take? && InTurn(ops[..n - 2]))
  }

  /** At position `i` on_read returned a length within its input and short of its end. */
  predicate Leaves(ops: seq<Op>, i: nat)
    requires i < |ops|
  {
    ops[i].Take? && 0 <= ops[i].len < |Replay(ops[..i]).stream.content|
  }

  /** No on_read but the last did. */
  predicate LeavesNone(ops: seq<Op>) { forall i :: 0 <= i < |ops| - 1 ==> !Leaves(ops, i) }

  /** Taking from a clean buffer leaves it unclean exactly when the length is in range and short. */
  lemma TakeCleanIff(p: Pipe, len: int)
    requires Clean(p.stream)
    ensures Clean(TakeFrom(p, len).stream) <==> !(0 <= len < |p.stream.content|)
  {}

  /** Two more operations at the end of a history. */
  lemma OneTurn(front: seq<Op>, data: Bytes, len: int)
    requires data != []
    ensures var ops := front + [Put(data), Take(len)];
            && ops[..|front|] == front && ops[..|front| + 1] == front + [Put(data)]
            && Replay(ops[..|front| + 1]) == PutInto(Replay(front), data)
            && Replay(ops) == TakeFrom(PutInto(Replay(front), data), len)
            && (CleanPuts(ops) <==> CleanPuts(front) && Clean(Replay(front).stream))
  {
    TurnSlices(front, data, len);
    Replayed(front, Put(data));
    Replayed(front + [Put(data)], Take(len));
  }

  lemma TurnSlices(front: seq<Op>, data: Bytes, len: int)
    ensures var ops := front + [Put(data), Take(len)];
            && ops == (front + [Put(data)]) + [Take(len)]
            && ops[..|front|] == front && ops[..|front| + 1] == front + [Put(data)]
            && ops[|front|] == Put(data) && ops[|front| + 1] == Take(len)
            && forall i :: 0 <= i < |front| ==> ops[i] == front[i] && ops[..i] == front[..i]
  {}

  lemma TurnOf(ops: seq<Op>) returns (front: seq<Op>, data: Bytes, len: int)
    requires InTurn(ops) && ops != []
    ensures InTurn(front) && data != [] && ops == front + [Put(data), Take(len)]
  {
    var n := |ops|;
    front, data, len := ops[..n - 2], ops[n - 2].data, ops[n - 1].len;
  }

  lemma LeavesFront(front: seq<Op>, data: Bytes, len: int)
    ensures LeavesNone(front + [Put(data), Take(len)]) <==> LeavesNone(front) && (front != [] ==> !Leaves(front, |front| - 1))
  {
    var ops := front + [Put(data), Take(len)];
    assert forall i :: 0 <= i < |front| ==> ops[i] == front[i] && ops[..i] == front[..i];
    assert forall i :: 0 <= i < |front| ==> (Leaves(ops, i) <==> Leaves(front, i));
    assert !Leaves(ops, |front|);
  }

  /** Every read met a clean buffer exactly when no on_read but the last left something in range. */
  lemma {:induction false} CleanIffLeavesNone(ops: seq<Op>)
    requires InTurn(ops)
    ensures CleanPuts(ops) <==> LeavesNone(ops)
    ensures CleanPuts(ops) && ops != [] ==> (Clean(Replay(ops).stream) <==> !Leaves(ops, |ops| - 1))
    ensures ops == [] ==> Clean(Replay(ops).stream)
  {
    if ops == [] {
    } else {
      var front, data, len := TurnOf(ops);
      CleanIffLeavesNone(front);
      OneTurn(front, data, len);
      LeavesFront(front, data, len);
      if CleanPuts(ops) {
        WriteAppendsIffClean(Replay(front).stream, data);
        TakeCleanIff(PutInto(Replay(front), data), len);
        assert ops[..|ops| - 1] == ops[..|front| + 1];
      }
    }
  }

  /** What on_read was handed, call after call. */
  function Handed(ops: seq<Op>): Bytes {
    if ops == [] then []
    else
      var front := ops[..|ops| - 1];
      Handed(front) + (if ops[|ops| - 1].Take? then Replay(front).stream.content else [])
  }

  lemma HandedTurn(front: seq<Op>, data: Bytes, len: int)
    ensures Handed(front + [Put(data), Take(len)]) == Handed(front) + PutInto(Replay(front), data).stream.content
  {
    var ops := front + [Put(data), Take(len)];
    assert ops[..|ops| - 1] == front + [Put(data)];
    assert (front + [Put(data)])[..|front|] == front;
    Replayed(front, Put(data));
  }

  /** Every on_read consumed all it was handed. */
  predicate ConsumesAll(ops: seq<Op>) {
    forall i :: 0 <= i < |ops| && ops[i].Take? ==> ops[i].len == |Replay(ops[..i]).stream.content|
  }

  lemma ConsumesFront(front: seq<Op>, data: Bytes, len: int)
    requires data != [] && ConsumesAll(front + [Put(data), Take(len)])
    ensures ConsumesAll(front) && len == |PutInto(Replay(front), data).stream.content|
  {
    var ops := front + [Put(data), Take(len)];
    OneTurn(front, data, len);
    assert forall i :: 0 <= i < |front| ==> ops[i] == front[i] && ops[..i] == front[..i];
    assert ops[|front| + 1] == Take(len);
  }

  lemma FullTurn(p: Pipe, data: Bytes)
    requires p.stream == EMPTY
    ensures PutInto(p, data).stream.content == data
    ensures var q := TakeFrom(PutInto(p, data), |data|); q.stream == EMPTY && q.put == p.put + data
  {
    assert Write(EMPTY, data) == Stream(data, |data|);
  }

  /** Then they were handed everything, and nothing waits. */
  lemma {:induction false} HandedAll(ops: seq<Op>)
    requires InTurn(ops) && ConsumesAll(ops)
    ensures Replay(ops).stream == EMPTY && Handed(ops) == Replay(ops).put
  {
    if ops == [] {
    } else {
      var front, data, len := TurnOf(ops);
      ConsumesFront(front, data, len);
      HandedAll(front);
      OneTurn(front, data, len);
      HandedTurn(front, data, len);
      FullTurn(Replay(front), data);
    }
  }

  lemma FrontSlice(front: seq<Op>, data: Bytes, len: int, i: nat)
    requires i < |front|
    ensures var ops := front + [Put(data), Take(len)]; ops[i] == front[i] && ops[..i + 1] == front[..i + 1]
  {}

  lemma LastPut(front: seq<Op>, data: Bytes, len: int, i: nat)
    requires |front| <= i < |front| + 2 && (front + [Put(data), Take(len)])[i].Put?
    ensures i == |front| && (front + [Put(data), Take(len)])[i].data == data
  {}

  /** And each was handed the bytes of one read. */
  lemma {:induction false} HandedOneRead(ops: seq<Op>, i: nat)
    requires InTurn(ops) && ConsumesAll(ops) && i < |ops| && ops[i].Put?
    ensures Replay(ops[..i + 1]).stream.content == ops[i].data
  {
    var front, data, len := TurnOf(ops);
    ConsumesFront(front, data, len);
    if i < |front| {
      FrontSlice(front, data, len, i);
      HandedOneRead(front, i);
    } else {
      LastPut(front, data, len, i);
      HandedLast(front, data, len);
    }
  }

  lemma HandedLast(front: seq<Op>, data: Bytes, len: int)
    requires InTurn(front) && ConsumesAll(front) && data != []
    ensures Replay((front + [Put(data), Take(len)])[..|front| + 1]).stream.content == data
  {
    HandedAll(front);
    OneTurn(front, data, len);
    FullTurn(Replay(front), data);
  }

  // ---- runs -------------------------------------------------------------------------------

  /** Between two callbacks the input history is one of reads and returns in turn, and on_read was
  handed what that history says. */
  predicate InputConn(c: Conn) { Recorded(c) && InTurn(c.input.ops) && c.delivered == Handed(c.input.ops) }

  ghost predicate InputInv(s: State) { forall id :: IsSession(s, id) ==> InputConn(s.objects[id].conn) }

  lemma TurnAdded(ops: seq<Op>, data: Bytes, len: int)
    requires InTurn(ops) && data != []
    ensures InTurn(ops + [Put(data), Take(len)])
  {
    var more := ops + [Put(data), Take(len)];
    assert more[..|more| - 2] == ops && more[|more| - 2] == Put(data) && more[|more| - 1] == Take(len);
  }

  /** What a read adds to the input history and to what was handed over. */
  lemma ReadOps(c: Conn, cb: Callback) returns (len: int)
    ensures var d, data := ConnAfter(c, READ, cb), Received(cb.recv);
            && d.input.ops == c.input.ops + [Put(data), Take(len)]
            && d.delivered == c.delivered + PutInto(c.input, data).stream.content
  {
    var e := Receive(c, cb.recv);
    len := Consumed(cb.onRead, e.input.stream.content);
    PutAllLoses(Deliver(e), Answers(c, cb));
    assert (c.input.ops + [Put(Received(cb.recv))]) + [Take(len)] == c.input.ops + [Put(Received(cb.recv)), Take(len)];
  }

  /** One positive read is one turn. */
  lemma ReadTurns(c: Conn, cb: Callback)
    requires InputConn(c) && ReadReturn(cb.recv) > 0
    ensures var d := ConnAfter(c, READ, cb); InTurn(d.input.ops) && d.delivered == Handed(d.input.ops)
  {
    var len := ReadOps(c, cb);
    ReadSucceedsIff(cb.recv);
    TurnAdded(c.input.ops, Received(cb.recv), len);
    HandedTurn(c.input.ops, Received(cb.recv), len);
  }

  /** A callback that leaves the connection open. */
  lemma CallbackTurns(c: Conn, kind: Kind, cb: Callback)
    requires InputConn(c) && (kind == READ ==> ReadReturn(cb.recv) > 0)
    ensures var d := ConnAfter(c, kind, cb); InTurn(d.input.ops) && d.delivered == Handed(d.input.ops)
  {
    if kind == READ { ReadTurns(c, cb); }
  }

  /** One handler over one step. */
  lemma HandlerInput(s: State, l: Label, r: State, id: Id)
    requires InputInv(s) && Evolves(s, l, r) && IsSession(r, id) && Recorded(r.objects[id].conn)
    ensures InputConn(r.objects[id].conn)
  {
    if id in s.objects && Hits(s, l, id) {
      CallbackTurns(s.objects[id].conn, s.batch[0].kind, l.cb);
    }
  }

  lemma InputStep(s: State, l: Label)
    requires Inv(s) && InputInv(s) && Enabled(s, l)
    ensures InputInv(Apply(s, l))
  {
    var r := Apply(s, l);
    StepEvolves(s, l);
    StepKeeps(s, l);
    forall id | IsSession(r, id) ensures InputConn(r.objects[id].conn) {
      SessionRecorded(r, id);
      HandlerInput(s, l, r, id);
    }
  }

  lemma {:induction false} InputRun(backend: Backend, labels: seq<Label>)
    requires IsRun(backend, labels)
    ensures InputInv(After(backend, labels))
  {
    if labels == [] {
    } else {
      var front := labels[..|labels| - 1];
      InputRun(backend, front);
      RunKeeps(backend, front);
      InputStep(After(backend, front), labels[|labels| - 1]);
    }
  }

  /** In every run of every backend the input of an open connection is in order exactly when no
  on_read of it, other than the last, returned a length that is in range and short of its input. */
  lemma InOrderIffNothingLeft(backend: Backend, labels: seq<Label>, id: Id)
    requires IsRun(backend, labels) && IsSession(After(backend, labels), id)
    ensures var p := After(backend, labels).objects[id].conn.input;
            InTurn(p.ops) && p == Replay(p.ops) && (p.taken + p.stream.content == p.put <==> LeavesNone(p.ops))
  {
    InputRun(backend, labels);
    InputInOrderIff(backend, labels, id);
    CleanIffLeavesNone(After(backend, labels).objects[id].conn.input.ops);
  }

  /** In every run of every backend, an on_read that always consumes everything is handed exactly the
  bytes of one read each time, the next one too, and in all everything that was received. */
  lemma OneReadEachTime(backend: Backend, labels: seq<Label>, id: Id, recv: seq<RecvResult>)
    requires IsRun(backend, labels) && IsSession(After(backend, labels), id)
    requires ConsumesAll(After(backend, labels).objects[id].conn.input.ops)
    ensures var c := After(backend, labels).objects[id].conn; var ops := c.input.ops;
            && (forall i :: 0 <= i < |ops| && ops[i].Put? ==> Replay(ops[..i + 1]).stream.content == ops[i].data)
            && Receive(c, recv).input.stream.content == Received(recv)
            && c.delivered == c.input.put
  {
    InputRun(backend, labels);
    var c := After(backend, labels).objects[id].conn;
    HandedAll(c.input.ops);
    forall i | 0 <= i < |c.input.ops| && c.input.ops[i].Put?
      ensures Replay(c.input.ops[..i + 1]).stream.content == c.input.ops[i].data
    {
      HandedOneRead(c.input.ops, i);
    }
    assert Write(EMPTY, Received(recv)).content == Received(recv);
  }
}
