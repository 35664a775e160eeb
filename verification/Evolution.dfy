/** What one step of the reactor does to the handlers that outlive it, whatever user code does: a
handler keeps its descriptor, and a connection changes by its own callback and by sends, nothing else. */
module Evolution {
  import opened Streams
  import opened LoopTable
  import opened Connections
  import opened ReactorModel
  import opened ReactorSafety
  import opened Callbacks

  /** From `c` to `d` there were only sends; if there was none, nothing changed. */
  predicate OnlySent(c: Conn, d: Conn) {
    && d.input == c.input && d.delivered == c.delivered
    && c.output.ops <= d.output.ops && (forall i :: |c.output.ops| <= i < |d.output.ops| ==> d.output.ops[i].Put?)
    && (d.output.ops == c.output.ops ==> d == c)
  }

  lemma OnlySentTwice(c: Conn, d: Conn, e: Conn)
    requires OnlySent(c, d) && OnlySent(d, e)
    ensures OnlySent(c, e)
  {}

  predicate SameBut(o: Object, p: Object) {
    && o.fd == p.fd && (o.Plain? <==> p.Plain?)
    && (o.Session? ==> OnlySent(o.conn, p.conn))
  }

  /** Handlers that stay have only been sent to; new ones have new identities and had only sends. */
  ghost predicate Sent(s: State, r: State) {
    && r.next >= s.next
    && forall id: Id :: id in r.objects ==>
         if id in s.objects then SameBut(s.objects[id], r.objects[id])
         else id >= s.next && (r.objects[id].Session? ==> OnlySent(Connections.FRESH, r.objects[id].conn))
  }

  ghost predicate Older(s: State) { forall id: Id :: id in s.objects ==> id < s.next }

  lemma InvOlder(s: State)
    requires Inv(s)
    ensures Older(s)
  {
    forall id: Id | id in s.objects ensures id < s.next { assert Placed(s, id); }
  }

  lemma SentTwice(s: State, m: State, r: State)
    requires Older(s) && Sent(s, m) && Sent(m, r)
    ensures Sent(s, r)
  {
    forall id: Id | id in r.objects && id in m.objects
      ensures if id in s.objects then SameBut(s.objects[id], r.objects[id])
              else id >= s.next && (r.objects[id].Session? ==> OnlySent(Connections.FRESH, r.objects[id].conn))
    {}
  }

  lemma SendSends(s: State, id: Id, data: Bytes)
    ensures Sent(s, Send(s, id, data))
  {
    if IsSession(s, id) && s.objects[id].fd in s.loop.interest {
      SendConn(s, id, data);
      var c := s.objects[id].conn;
      assert OnlySent(c, PutData(c, data));
    }
  }

  lemma ActSends(s: State, a: Action, self: Option<Id>)
    requires Older(s)
    ensures Sent(s, Act(s, a, self))
  {
    match a {
      case SendTo(id, data) => SendSends(s, id, data);
      case _ =>
    }
  }

  lemma {:induction false} ExecSends(s: State, actions: seq<Action>, self: Option<Id>)
    requires Inv(s)
    ensures Sent(s, Exec(s, actions, self))
  {
    if actions == [] {
    } else {
      var front, m := actions[..|actions| - 1], Exec(s, actions[..|actions| - 1], self);
      ExecSends(s, front, self);
      ExecKeeps(s, front, self);
      InvOlder(s);
      InvOlder(m);
      ActSends(m, actions[|actions| - 1], self);
      SentTwice(s, m, Act(m, actions[|actions| - 1], self));
    }
  }

  /** The step is a dispatch that calls handler `id`. */
  ghost predicate Hits(s: State, l: Label, id: Id) {
    l.Dispatch? && s.batch != [] && Lookup(s.loop, s.batch[0].fd).1 == Some(id)
  }

  /** What the step's callback, if it is one of this handler, makes of it. */
  ghost function CalledBack(s: State, l: Label, id: Id): Object
    requires id in s.objects
  {
    if Hits(s, l, id) then Changed(s.objects[id], s.batch[0].kind, l.cb) else s.objects[id]
  }

  ghost predicate Evolves(s: State, l: Label, r: State) {
    && r.next >= s.next
    && forall id: Id :: id in r.objects ==>
         if id in s.objects then SameBut(CalledBack(s, l, id), r.objects[id]) && (Hits(s, l, id) ==> Survives(s.objects[id], s.batch[0].kind, l.cb))
         else id >= s.next && (r.objects[id].Session? ==> OnlySent(Connections.FRESH, r.objects[id].conn))
  }

  lemma DispatchEvolves(s: State, cb: Callback)
    requires Inv(s) && s.batch != []
    ensures Evolves(s, Dispatch(cb), DispatchOne(s, cb))
  {
    FoundEffect(s, cb);
    NextKeeps(s);
    var t, found := Next(s), Lookup(s.loop, s.batch[0].fd).1;
    InvOlder(s);
    if found.Some? {
      var h := Handle(t, found.value, s.batch[0].kind, cb);
      HandleKeeps(t, found.value, s.batch[0].kind, cb);
      ExecSends(h, cb.actions, found);
    }
  }

  lemma StepEvolves(s: State, l: Label)
    requires Inv(s) && Enabled(s, l)
    ensures Evolves(s, l, Apply(s, l))
  {
    InvOlder(s);
    match l {
      case Dispatch(cb) => DispatchEvolves(s, cb);
      case Setup(a) => ActSends(s, a, None);
      case Invoke =>
        var t := s.(pc := POPPING, executed := s.executed + [s.fun.value]);
        assert Inv(t) by {
          forall x | x in t.objects ensures Placed(t, x) { assert Placed(s, x); }
        }
        ExecSends(t, s.fun.value.body, None);
      case _ =>
    }
  }
}
