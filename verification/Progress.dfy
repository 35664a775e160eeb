/** Waiting bytes get out: what any number of writable events that the kernel accepts bytes for do to
a connection that nothing is sent to meanwhile. */
module Progress {
  import opened Streams
  import opened Dispatching
  import opened LoopTable
  import opened Connections
  import opened ReactorModel
  import opened ReactorSafety
  import opened Callbacks
  import opened Evolution

  /** The kernel takes at least one byte, perhaps after interrupts. */
  predicate AcceptsAt(results: seq<SendResult>, i: nat) {
    i < |results| && results[i].Accepted? && results[i].limit > 0 && forall j :: 0 <= j < i ==> results[j].Eintr?
  }

  predicate Accepting(results: seq<SendResult>) { exists i: nat :: i < |results| && AcceptsAt(results, i) }

  lemma {:induction false} AcceptsSome(pending: nat, results: seq<SendResult>, i: nat)
    requires AcceptsAt(results, i) && pending > 0
    ensures SentBytes(pending, results) > 0
  {
    if i == 0 {
    } else {
      assert results[0].Eintr?;
      AcceptsSome(pending, results[1..], i - 1);
    }
  }

  /** From `c` to `d` nothing was put into the output. */
  predicate NoPuts(c: Conn, d: Conn) {
    c.output.ops <= d.output.ops && forall i :: |c.output.ops| <= i < |d.output.ops| ==> !d.output.ops[i].Put?
  }

  /** Nothing was sent, and at least `n` bytes, or all, went out. */
  predicate Drained(c: Conn, d: Conn, n: nat) {
    |d.output.stream.content| <= (if |c.output.stream.content| > n then |c.output.stream.content| - n else 0) && d.idle == c.idle
  }

  lemma {:induction false} PutAllOps(c: Conn, sends: seq<Bytes>)
    ensures var ops := PutAll(c, sends).output.ops;
            c.output.ops <= ops && |ops| == |c.output.ops| + |sends| && forall i :: |c.output.ops| <= i < |ops| ==> ops[i].Put?
  {
    if sends == [] {
    } else {
      PutAllOps(c, sends[..|sends| - 1]);
    }
  }

  /** A callback without sends drains, and by at least one byte when the kernel accepts. */
  lemma CallbackDrains(c: Conn, kind: Kind, cb: Callback)
    ensures var d := ConnAfter(c, kind, cb);
            && c.output.ops <= d.output.ops
            && (NoPuts(c, d) ==> Drained(c, d, if kind == WRITE && Accepting(cb.send) then 1 else 0))
  {
    if kind == READ {
      var e := Deliver(Receive(c, cb.recv));
      PutAllOps(e, Answers(c, cb));
      var ops := PutAll(e, Answers(c, cb)).output.ops;
      if Answers(c, cb) != [] { assert ops[|c.output.ops|].Put?; }
    } else if kind == WRITE && Accepting(cb.send) && c.output.stream.content != [] {
      var i: nat :| i < |cb.send| && AcceptsAt(cb.send, i);
      AcceptsSome(|c.output.stream.content|, cb.send, i);
    }
  }

  lemma GrownByPut(m: Conn, d: Conn)
    requires OnlySent(m, d) && d.output.ops != m.output.ops
    ensures |m.output.ops| < |d.output.ops| && d.output.ops[|m.output.ops|].Put?
  {
    assert |m.output.ops| == |d.output.ops| ==> m.output.ops == d.output.ops;
  }

  /** Then sends, of which there were none. */
  lemma ThenNothing(c: Conn, m: Conn, d: Conn)
    requires c.output.ops <= m.output.ops && OnlySent(m, d) && NoPuts(c, d)
    ensures d == m
  {
    if d.output.ops != m.output.ops {
      GrownByPut(m, d);
    }
  }

  /** The step is an accepted writable event of this handler. */
  ghost predicate Accepts(s: State, l: Label, id: Id) {
    Hits(s, l, id) && s.batch[0].kind == WRITE && Accepting(l.cb.send)
  }

  lemma StepDrains(s: State, l: Label, r: State, id: Id)
    requires Evolves(s, l, r) && IsSession(s, id) && IsSession(r, id)
    ensures var c, d := s.objects[id].conn, r.objects[id].conn;
            c.output.ops <= d.output.ops && (NoPuts(c, d) ==> Drained(c, d, if Accepts(s, l, id) then 1 else 0))
  {
    var c, d := s.objects[id].conn, r.objects[id].conn;
    if Hits(s, l, id) {
      var m := ConnAfter(c, s.batch[0].kind, l.cb);
      CallbackDrains(c, s.batch[0].kind, l.cb);
      if NoPuts(c, d) { ThenNothing(c, m, d); }
    } else if NoPuts(c, d) {
      ThenNothing(c, c, d);
    }
  }

  /** How many of the labels `more`, after the run `labels`, are accepted writable events of `id`. */
  ghost function AcceptedWrites(backend: Backend, labels: seq<Label>, more: seq<Label>, id: Id): nat
    requires IsRun(backend, labels + more)
    decreases |more|
  {
    if more == [] then 0
    else
      var front := more[..|more| - 1];
      assert (labels + more)[..|labels + more| - 1] == labels + front;
      AcceptedWrites(backend, labels, front, id) + (if Accepts(After(backend, labels + front), more[|more| - 1], id) then 1 else 0)
  }

  lemma {:induction false} RunDrains(backend: Backend, labels: seq<Label>, more: seq<Label>, id: Id)
    requires IsRun(backend, labels) && IsRun(backend, labels + more)
    requires IsSession(After(backend, labels), id) && id in After(backend, labels + more).objects
    ensures IsSession(After(backend, labels + more), id)
    ensures var c, d := After(backend, labels).objects[id].conn, After(backend, labels + more).objects[id].conn;
            c.output.ops <= d.output.ops && (NoPuts(c, d) ==> Drained(c, d, AcceptedWrites(backend, labels, more, id)))
    ensures After(backend, labels + more).next >= After(backend, labels).next
    decreases |more|
  {
    if more == [] {
      assert labels + more == labels;
    } else {
      var front, l := more[..|more| - 1], more[|more| - 1];
      assert (labels + more)[..|labels + more| - 1] == labels + front;
      var m, r := After(backend, labels + front), After(backend, labels + more);
      RunKeeps(backend, labels);
      RunKeeps(backend, labels + front);
      NextGrows(backend, labels, front);
      assert Placed(After(backend, labels), id);
      StepEvolves(m, l);
      RunDrains(backend, labels, front, id);
      StepDrains(m, l, r, id);
      DrainsOn(After(backend, labels).objects[id].conn, m.objects[id].conn, r.objects[id].conn);
    }
  }

  lemma {:induction false} NextGrows(backend: Backend, labels: seq<Label>, more: seq<Label>)
    requires IsRun(backend, labels) && IsRun(backend, labels + more)
    ensures After(backend, labels + more).next >= After(backend, labels).next
    decreases |more|
  {
    if more == [] {
      assert labels + more == labels;
    } else {
      var front := more[..|more| - 1];
      assert (labels + more)[..|labels + more| - 1] == labels + front;
      NextGrows(backend, labels, front);
      RunKeeps(backend, labels + front);
      StepEvolves(After(backend, labels + front), more[|more| - 1]);
    }
  }

  lemma DrainsOn(c: Conn, m: Conn, d: Conn)
    requires c.output.ops <= m.output.ops <= d.output.ops
    ensures NoPuts(c, d) ==> NoPuts(c, m) && NoPuts(m, d)
  {}

  /** On every backend, whatever else happens: once as many writable events were accepted as bytes
  were waiting, with no send to the connection since, nothing waits, write interest is gone, and
  the connection is watched for reading again. */
  lemma NothingStranded(backend: Backend, labels: seq<Label>, more: seq<Label>, id: Id)
    requires IsRun(backend, labels) && IsRun(backend, labels + more)
    requires IsSession(After(backend, labels), id) && IsSession(After(backend, labels + more), id)
    requires var c, d := After(backend, labels).objects[id].conn, After(backend, labels + more).objects[id].conn;
             0 < |c.output.stream.content| <= AcceptedWrites(backend, labels, more, id) && NoPuts(c, d)
    ensures var r := After(backend, labels + more); var o := r.objects[id];
            && o.conn.output.stream.content == []
            && o.fd in r.loop.interest && !r.loop.interest[o.fd].writeable && r.loop.interest[o.fd].readable
  {
    RunDrains(backend, labels, more, id);
    ArmedIffPending(backend, labels, id);
    ArmedIffPending(backend, labels + more, id);
    NotIdle(backend, labels, id);
  }

  lemma NotIdle(backend: Backend, labels: seq<Label>, id: Id)
    requires IsRun(backend, labels) && IsSession(After(backend, labels), id)
    requires After(backend, labels).objects[id].conn.output.stream.content != []
    ensures !After(backend, labels).objects[id].conn.idle
  {
    RunKeeps(backend, labels);
  }
}
