/** The timer of src/net/timer_handler.cc: a timerfd registered for reading, and two flags. */
module Timers {
  import opened LoopTable
  import opened ReactorModel
  import opened Reactor

  // ---- the interval -----------------------------------------------------------------------

  const NSEC := 1000000000

  /** A C++ conversion from floating point to integer drops the fraction. */
  function Trunc(x: real): int { if x >= 0.0 then x.Floor else -((-x).Floor) }

  datatype Timespec = Timespec(sec: int, nsec: int)
  datatype Itimerspec = Itimerspec(value: Timespec, interval: Timespec)

  const ZERO := Timespec(0, 0)

  function Split(interval: real): Timespec {
    var sec := Trunc(interval);
    Timespec(sec, Trunc((interval - sec as real) * NSEC as real))
  }

  /** What timerfd_settime takes without EINVAL. */
  predicate Accepted(t: Timespec) { 0 <= t.sec && 0 <= t.nsec < NSEC }

  /** A non-negative interval is split without losing more than the part below a nanosecond. */
  lemma SplitExact(interval: real)
    requires 0.0 <= interval < 2147483648.0
    ensures Accepted(Split(interval)) && Split(interval).sec < 0x8000_0000
    ensures Split(interval).sec * NSEC + Split(interval).nsec == (interval * NSEC as real).Floor
  {
    var sec := interval.Floor;
    var rest := (interval - sec as real) * NSEC as real;
    assert 0.0 <= rest < NSEC as real;
    assert interval * NSEC as real == (sec * NSEC) as real + rest;
  }

  /** The assertion on timerfd_settime holds exactly above minus one nanosecond, and the timer then
  ever expires exactly from one nanosecond on: a shorter interval disarms it. */
  lemma SplitAcceptedIff(interval: real)
    requires -2147483648.0 < interval < 2147483648.0
    ensures Accepted(Split(interval)) <==> interval * NSEC as real > -1.0
    ensures Accepted(Split(interval)) ==> (Split(interval) != ZERO <==> interval * NSEC as real >= 1.0)
  {
    if interval >= 0.0 {
      SplitExact(interval);
      if Split(interval) == ZERO {
        assert (interval * NSEC as real).Floor == 0;
      } else {
        assert Split(interval).sec * NSEC + Split(interval).nsec > 0;
      }
    } else {
      var sec := Trunc(interval);
      if sec == 0 {
        assert (interval - sec as real) * NSEC as real == interval * NSEC as real;
      } else {
        assert interval <= -1.0;
        assert interval * NSEC as real <= -1.0 * NSEC as real;
      }
    }
  }

  // ---- the states of a timer --------------------------------------------------------------

  /** `log` is what happened: calls of start and stop that took effect, and callbacks from their
  beginning (FIRED) to their end with the repeat flag they left (RETURNED). */
  datatype Happening = STARTED | STOPPED | FIRED | RETURNED(repeat: bool)
  datatype Timer = Timer(interval: real, repeat: bool, started: bool, registered: bool, log: seq<Happening>)

  /** What a program does with a timer, in on_timer or outside it. */
  datatype TimerOp = Start | Stop | SetRepeat(repeat: bool) | SetInterval(interval: real)

  /** start() of a timer that is registered fails its assertion: user code does not do that. */
  function OnStart(t: Timer): Timer {
    if t.registered then t else t.(started := true, registered := true, log := t.log + [STARTED])
  }

  /** started_ is never taken back, and the repeat flag is. */
  function OnStop(t: Timer): Timer {
    if !t.started then t else t.(repeat := false, registered := false, log := t.log + [STOPPED])
  }

  function Do(t: Timer, op: TimerOp): Timer {
    match op
    case Start => OnStart(t)
    case Stop => OnStop(t)
    case SetRepeat(b) => t.(repeat := b)
    case SetInterval(x) => t.(interval := x)
  }

  /** What each of them leaves: started and registered, stopped and unregistered, or one flag changed. */
  lemma DoMeans(t: Timer, op: TimerOp)
    requires t.registered ==> t.started
    ensures var u := Do(t, op);
            match op
            case Start => u.started && u.registered && u.repeat == t.repeat && u.interval == t.interval
            case Stop => !u.registered && u.started == t.started && u.interval == t.interval && (t.started ==> !u.repeat)
            case SetRepeat(b) => u == t.(repeat := b)
            case SetInterval(x) => u == t.(interval := x)
    ensures (op.Start? && !t.registered ==> Do(t, op).log == t.log + [STARTED]) && (op.Stop? && t.started ==> Do(t, op).log == t.log + [STOPPED])
  {}

  function DoAll(t: Timer, ops: seq<TimerOp>): Timer {
    if ops == [] then t else Do(DoAll(t, ops[..|ops| - 1]), ops[|ops| - 1])
  }

  /** do_handle_read, `body` being what on_timer does. */
  function Fire(t: Timer, body: seq<TimerOp>): Timer {
    var u := DoAll(t.(log := t.log + [FIRED]), body);
    var v := u.(log := u.log + [RETURNED(u.repeat)]);
    if u.repeat then v else OnStop(v)
  }

  /** The loop calls do_handle_read of registered handlers only. */
  datatype TimerStep = Call(op: TimerOp) | Event(body: seq<TimerOp>)

  function Stepped(t: Timer, step: TimerStep): Timer {
    match step
    case Call(op) => Do(t, op)
    case Event(body) => if t.registered then Fire(t, body) else t
  }

  function TimerRun(t: Timer, steps: seq<TimerStep>): Timer {
    if steps == [] then t else Stepped(TimerRun(t, steps[..|steps| - 1]), steps[|steps| - 1])
  }

  lemma TimerSnoc(t: Timer, steps: seq<TimerStep>, step: TimerStep)
    ensures TimerRun(t, steps + [step]) == Stepped(TimerRun(t, steps), step)
  {
    assert (steps + [step])[..|steps|] == steps;
  }

  function NewTimer(interval: real, repeat: bool): Timer { Timer(interval, repeat, false, false, []) }

  /** A start that nothing has ended before position `j`: no stop, no callback that left the timer
  one-shot. */
  predicate StartStands(log: seq<Happening>, i: nat, j: nat) {
    && i < j <= |log| && log[i] == STARTED
    && forall k :: i < k < j ==> log[k] != STOPPED && log[k] != RETURNED(false)
  }

  ghost predicate TimerInv(t: Timer) {
    && (t.registered ==> t.started && exists i: nat :: StartStands(t.log, i, |t.log|))
    && forall j :: 0 <= j < |t.log| && t.log[j] == FIRED ==> exists i: nat :: StartStands(t.log, i, j)
  }

  /** Appending keeps the starts that stand before each earlier position. */
  lemma Appended(t: Timer, u: Timer, h: Happening)
    requires TimerInv(t) && u.log == t.log + [h] && (h == FIRED ==> t.registered)
    requires u.registered ==> u.started && (h == STARTED || (t.registered && h != STOPPED && h != RETURNED(false)))
    ensures TimerInv(u)
  {
    forall j | 0 <= j < |u.log| && u.log[j] == FIRED ensures exists i: nat :: StartStands(u.log, i, j) {
      if j < |t.log| {
        var i: nat :| StartStands(t.log, i, j);
        assert StartStands(u.log, i, j);
      } else {
        var i: nat :| StartStands(t.log, i, |t.log|);
        assert StartStands(u.log, i, j);
      }
    }
    if u.registered {
      if h == STARTED {
        assert StartStands(u.log, |t.log|, |u.log|);
      } else {
        var i: nat :| StartStands(t.log, i, |t.log|);
        assert StartStands(u.log, i, |u.log|);
      }
    }
  }

  lemma DoKeeps(t: Timer, op: TimerOp)
    requires TimerInv(t)
    ensures TimerInv(Do(t, op))
  {
    match op {
      case Start => if !t.registered { Appended(t, OnStart(t), STARTED); }
      case Stop => if t.started { Appended(t, OnStop(t), STOPPED); }
      case _ =>
    }
  }

  lemma {:induction false} DoAllKeeps(t: Timer, ops: seq<TimerOp>)
    requires TimerInv(t)
    ensures TimerInv(DoAll(t, ops))
  {
    if ops == [] {
    } else {
      DoAllKeeps(t, ops[..|ops| - 1]);
      DoKeeps(DoAll(t, ops[..|ops| - 1]), ops[|ops| - 1]);
    }
  }

  lemma FireKeeps(t: Timer, body: seq<TimerOp>)
    requires TimerInv(t) && t.registered
    ensures TimerInv(Fire(t, body)) && (Fire(t, body).registered ==> Fire(t, body).repeat)
  {
    var s := t.(log := t.log + [FIRED]);
    Appended(t, s, FIRED);
    DoAllKeeps(s, body);
    StaysStarted(s, body);
    var u := DoAll(s, body);
    if u.repeat {
      Appended(u, Fire(t, body), RETURNED(true));
    } else {
      var w := u.(log := u.log + [RETURNED(false)], registered := false);
      Appended(u, w, RETURNED(false));
      Appended(w, Fire(t, body), STOPPED);
    }
  }

  lemma {:induction false} StaysStarted(t: Timer, ops: seq<TimerOp>)
    requires t.started
    ensures DoAll(t, ops).started
  {
    if ops == [] {
    } else {
      StaysStarted(t, ops[..|ops| - 1]);
    }
  }

  /** On every run, each callback of the timer stands on a start since which it was neither stopped
  nor returned from as a one-shot: on_timer never runs between a stop and the next start. */
  lemma {:induction false} FiresOnlyAfterStart(interval: real, repeat: bool, steps: seq<TimerStep>)
    ensures TimerInv(TimerRun(NewTimer(interval, repeat), steps))
  {
    if steps == [] {
    } else {
      var front := steps[..|steps| - 1];
      FiresOnlyAfterStart(interval, repeat, front);
      var u := TimerRun(NewTimer(interval, repeat), front);
      match steps[|steps| - 1] {
        case Call(op) => DoKeeps(u, op);
        case Event(body) => if u.registered { FireKeeps(u, body); }
      }
    }
  }

  // ---- how often it fires -----------------------------------------------------------------

  /** Callbacks do not overlap, and none is still running. */
  ghost predicate Alternates(log: seq<Happening>) {
    && (forall i, j :: 0 <= i < j < |log| && log[i] == log[j] == FIRED ==> exists k :: i < k < j && log[k].RETURNED?)
    && (forall i :: 0 <= i < |log| && log[i] == FIRED ==> exists k :: i < k < |log| && log[k].RETURNED?)
  }

  /** What a program does with the timer leaves only starts and stops in the log. */
  predicate Quietly(before: seq<Happening>, after: seq<Happening>) {
    before <= after && forall k :: |before| <= k < |after| ==> after[k] == STARTED || after[k] == STOPPED
  }

  lemma {:induction false} DoAllLog(t: Timer, ops: seq<TimerOp>)
    ensures Quietly(t.log, DoAll(t, ops).log)
  {
    if ops == [] {
    } else {
      DoAllLog(t, ops[..|ops| - 1]);
    }
  }

  lemma QuietlyAlternates(before: seq<Happening>, after: seq<Happening>)
    requires Alternates(before) && Quietly(before, after)
    ensures Alternates(after)
  {
    forall i, j | 0 <= i < j < |after| && after[i] == after[j] == FIRED ensures exists k :: i < k < j && after[k].RETURNED? {
      var k :| i < k < j && before[k].RETURNED?;
      assert after[k].RETURNED?;
    }
    forall i | 0 <= i < |after| && after[i] == FIRED ensures exists k :: i < k < |after| && after[k].RETURNED? {
      var k :| i < k < |before| && before[k].RETURNED?;
      assert after[k].RETURNED?;
    }
  }

  /** One whole callback. */
  lemma CallbackAlternates(before: seq<Happening>, inside: seq<Happening>, repeat: bool)
    requires Alternates(before) && Quietly(before + [FIRED], inside)
    ensures Alternates(inside + [RETURNED(repeat)])
  {
    var n, log := |before|, inside + [RETURNED(repeat)];
    assert log[n] == (before + [FIRED])[n] && log[|inside|].RETURNED?;
    assert forall i :: 0 <= i < n ==> log[i] == (before + [FIRED])[i] == before[i];
    forall i, j | 0 <= i < j < |log| && log[i] == log[j] == FIRED ensures exists k :: i < k < j && log[k].RETURNED? {
      if j < n {
        var k :| i < k < j && before[k].RETURNED?;
        assert log[k].RETURNED?;
      } else {
        assert j == n;
        var k :| i < k < n && before[k].RETURNED?;
        assert log[k].RETURNED?;
      }
    }
  }

  lemma {:induction false} RunAlternates(interval: real, repeat: bool, steps: seq<TimerStep>)
    ensures Alternates(TimerRun(NewTimer(interval, repeat), steps).log)
  {
    if steps == [] {
    } else {
      RunAlternates(interval, repeat, steps[..|steps| - 1]);
      var u := TimerRun(NewTimer(interval, repeat), steps[..|steps| - 1]);
      match steps[|steps| - 1] {
        case Call(op) => QuietlyAlternates(u.log, Do(u, op).log);
        case Event(body) =>
          if u.registered {
            var s := u.(log := u.log + [FIRED]);
            DoAllLog(s, body);
            var w := DoAll(s, body);
            CallbackAlternates(u.log, w.log, w.repeat);
            QuietlyAlternates(w.log + [RETURNED(w.repeat)], Fire(u, body).log);
          }
      }
    }
  }

  /** On every run, two callbacks with no start between them have a callback that left the timer
  repeating between them: a start is good for one callback, and for another only while on_timer
  leaves the timer repeating. */
  lemma FiresOnceUnlessRepeating(interval: real, repeat: bool, steps: seq<TimerStep>, i: nat, j: nat)
    requires var log := TimerRun(NewTimer(interval, repeat), steps).log;
             i < j < |log| && log[i] == log[j] == FIRED && forall k :: i < k < j ==> log[k] != STARTED
    ensures var log := TimerRun(NewTimer(interval, repeat), steps).log;
            exists k :: i < k < j && log[k] == RETURNED(true)
  {
    FiresOnlyAfterStart(interval, repeat, steps);
    RunAlternates(interval, repeat, steps);
    var log := TimerRun(NewTimer(interval, repeat), steps).log;
    var start: nat :| StartStands(log, start, j);
    var k :| i < k < j && log[k].RETURNED?;
    assert start < i;
  }

  /** Nobody ever makes the timer repeat. */
  predicate OneShot(ops: seq<TimerOp>) { forall i :: 0 <= i < |ops| ==> ops[i] != SetRepeat(true) }

  predicate OneShotStep(step: TimerStep) {
    match step case Call(op) => op != SetRepeat(true) case Event(body) => OneShot(body)
  }

  predicate NeverRepeats(t: Timer) { !t.repeat && RETURNED(true) !in t.log }

  lemma {:induction false} DoAllNeverRepeats(t: Timer, ops: seq<TimerOp>)
    requires NeverRepeats(t) && OneShot(ops)
    ensures NeverRepeats(DoAll(t, ops))
  {
    if ops == [] {
    } else {
      DoAllNeverRepeats(t, ops[..|ops| - 1]);
    }
  }

  lemma {:induction false} RunNeverRepeats(interval: real, steps: seq<TimerStep>)
    requires forall step :: step in steps ==> OneShotStep(step)
    ensures NeverRepeats(TimerRun(NewTimer(interval, false), steps))
  {
    if steps == [] {
    } else {
      var front, last := steps[..|steps| - 1], steps[|steps| - 1];
      assert last in steps && forall step :: step in front ==> step in steps;
      RunNeverRepeats(interval, front);
      var u := TimerRun(NewTimer(interval, false), front);
      if last.Event? {
        DoAllNeverRepeats(u.(log := u.log + [FIRED]), last.body);
      }
    }
  }

  /** On every run of a one-shot timer that nobody makes repeat, there is a start between any two
  callbacks: it fires at most once a start. */
  lemma OneShotFiresOnce(interval: real, steps: seq<TimerStep>, i: nat, j: nat)
    requires forall step :: step in steps ==> OneShotStep(step)
    requires var log := TimerRun(NewTimer(interval, false), steps).log; i < j < |log| && log[i] == log[j] == FIRED
    ensures var log := TimerRun(NewTimer(interval, false), steps).log; exists k :: i < k < j && log[k] == STARTED
  {
    RunNeverRepeats(interval, steps);
    var log := TimerRun(NewTimer(interval, false), steps).log;
    if forall k :: i < k < j ==> log[k] != STARTED {
      FiresOnceUnlessRepeating(interval, false, steps, i, j);
    }
  }

  /** After a start the next readable event of the timerfd calls on_timer, on every run. */
  lemma StartThenFires(interval: real, repeat: bool, steps: seq<TimerStep>, body: seq<TimerOp>)
    ensures var before := TimerRun(NewTimer(interval, repeat), steps + [Call(Start)]);
            var after := TimerRun(NewTimer(interval, repeat), steps + [Call(Start), Event(body)]);
            && before.registered
            && before.log + [FIRED] <= after.log
  {
    var u := TimerRun(NewTimer(interval, repeat), steps);
    FiresOnlyAfterStart(interval, repeat, steps);
    DoMeans(u, Start);
    TimerSnoc(NewTimer(interval, repeat), steps, Call(Start));
    TimerSnoc(NewTimer(interval, repeat), steps + [Call(Start)], Event(body));
    assert (steps + [Call(Start)]) + [Event(body)] == steps + [Call(Start), Event(body)];
    FireCalls(OnStart(u), body);
  }

  lemma FireCalls(t: Timer, body: seq<TimerOp>)
    ensures t.log + [FIRED] <= Fire(t, body).log
  {
    DoAllLog(t.(log := t.log + [FIRED]), body);
  }

  lemma IdleFire(t: Timer)
    requires t.registered && t.repeat
    ensures Stepped(t, Event([])) == t.(log := t.log + [FIRED, RETURNED(true)])
  {
    assert t.log + [FIRED] + [RETURNED(true)] == t.log + [FIRED, RETURNED(true)];
  }

  lemma OneMoreRound(log: seq<Happening>, n: nat)
    requires n > 0
    ensures (log + Rounds(n - 1)) + [FIRED, RETURNED(true)] == log + Rounds(n)
  {}

  /** A repeating timer that on_timer leaves alone fires at every one of `n` further events. */
  lemma {:induction false} RepeatsForEver(t: Timer, n: nat)
    requires t.registered && t.repeat
    ensures TimerRun(t, Events(n)) == t.(log := t.log + Rounds(n))
  {
    if n == 0 {
      assert t.log + [] == t.log;
    } else {
      RepeatsForEver(t, n - 1);
      TimerSnoc(t, Events(n - 1), Event([]));
      IdleFire(t.(log := t.log + Rounds(n - 1)));
      OneMoreRound(t.log, n);
    }
  }

  function Events(n: nat): seq<TimerStep> { if n == 0 then [] else Events(n - 1) + [Event([])] }
  function Rounds(n: nat): seq<Happening> { if n == 0 then [] else Rounds(n - 1) + [FIRED, RETURNED(true)] }

  /** A second stop changes nothing, inside on_timer or outside it. */
  lemma StopIdempotent(t: Timer)
    ensures OnStop(OnStop(t)).(log := []) == OnStop(t).(log := [])
    ensures OnStop(t).registered ==> !t.started
  {}

  /** Whatever on_timer does, the timer stays registered after it exactly when it left the repeat
  flag set and the timer registered: a one-shot that restarts itself in its callback is stopped again. */
  lemma RearmedIff(t: Timer, body: seq<TimerOp>)
    requires t.started
    ensures var u := DoAll(t.(log := t.log + [FIRED]), body);
            Fire(t, body).registered <==> u.repeat && u.registered
  {
    StaysStarted(t.(log := t.log + [FIRED]), body);
  }

  /** stop forgets that a timer repeats: started again, it fires once. */
  lemma StopForgetsRepeat(t: Timer)
    requires t.registered && t.started
    ensures var again := Fire(DoAll(t, [Stop, Start]), []); !again.registered && again.started
  {
    assert [Stop, Start][..1] == [Stop] && [Stop][..0] == [];
    assert DoAll(t, [Stop]) == Do(DoAll(t, []), Stop);
    assert DoAll(t, [Stop, Start]) == OnStart(OnStop(t));
  }

  // ---- the class --------------------------------------------------------------------------

  class TimerHandler {
    const timerFd: int
    const id: Id
    const srvLoop: ServiceLoop
    var interval: real
    var repeat: bool
    var started: bool
    var kernel: Itimerspec // what timerfd_settime last set
    ghost var log: seq<Happening>

    constructor (fd: int, id: Id, loop: ServiceLoop, interval: real, repeat: bool)
      requires fd > 0
      ensures timerFd == fd && this.id == id && srvLoop == loop
      ensures fd !in loop.interest ==> State() == NewTimer(interval, repeat)
    {
      timerFd, this.id, srvLoop := fd, id, loop;
      this.interval, this.repeat, started := interval, repeat, false;
      kernel := Itimerspec(ZERO, ZERO);
      log := [];
    }

    ghost function State(): Timer
      reads this, srvLoop`interest
    {
      Timer(interval, repeat, started, timerFd in srvLoop.interest, log)
    }

    /** The table is sound, and under this descriptor it holds this handler or none. */
    ghost predicate Wf()
      reads this, srvLoop`handlers, srvLoop`interest, srvLoop.backing
    {
      && srvLoop.TableValid() && srvLoop.backing != this && FdOk(srvLoop.backend, timerFd)
      && Agreement(srvLoop.Table()) && (Live(srvLoop.Table(), timerFd) ==> srvLoop.handlers[timerFd] == Some(id))
    }

    method StartTimer()
      requires Wf() && timerFd !in srvLoop.interest && Accepted(Split(interval))
      modifies this, srvLoop`handlers, srvLoop`interest, srvLoop.backing
      ensures Wf() && State() == OnStart(old(State())) && started && timerFd in srvLoop.interest
      ensures srvLoop.Table() == Register(old(srvLoop.Table()), timerFd, true, false, id, 0).0
      ensures kernel == Itimerspec(Split(interval), if repeat then Split(interval) else ZERO)
    {
      var sec := Trunc(interval);
      var value := Timespec(sec, Trunc((interval - sec as real) * NSEC as real));
      kernel := Itimerspec(value, if repeat then value else ZERO);
      AgreementKept(srvLoop.Table(), timerFd, true, false, id, 0);
      var result := srvLoop.RegisterEvent(timerFd, true, false, id, 0);
      assert 0 == result;
      started := true;
      log := log + [STARTED];
    }

    /** The timerfd_settime of a repeating timer is passed NULL and fails: the kernel's timer keeps
    running, and only the registration is gone. */
    method StopTimer()
      requires Wf()
      modifies this, srvLoop`handlers, srvLoop`interest, srvLoop.backing
      ensures Wf() && State() == OnStop(old(State())) && kernel == old(kernel)
      ensures srvLoop.Table() == if old(started) then Delete(old(srvLoop.Table()), timerFd, 0).0 else old(srvLoop.Table())
      ensures started ==> timerFd !in srvLoop.interest && !repeat
    {
      if !started {
        return;
      }
      if repeat {
        repeat := false;
      }
      AgreementKept(srvLoop.Table(), timerFd, true, false, id, 0);
      var result := srvLoop.DeleteEvent(timerFd, 0);
      assert 0 == result;
      log := log + [STOPPED];
    }

    method Perform(op: TimerOp)
      requires Wf() && (op.Start? && timerFd !in srvLoop.interest ==> Accepted(Split(interval)))
      modifies this, srvLoop`handlers, srvLoop`interest, srvLoop.backing
      ensures Wf() && State() == Do(old(State()), op)
    {
      match op {
        case Start =>
          var free := !(timerFd in srvLoop.handlers && srvLoop.handlers[timerFd].Some?);
          assert Live(srvLoop.Table(), timerFd) <==> timerFd in srvLoop.interest;
          if free {
            StartTimer();
          }
        case Stop => StopTimer();
        case SetRepeat(b) => repeat := b;
        case SetInterval(x) => interval := x;
      }
    }

    /** on_timer: `body` is what it does; the intervals it sets are ones start accepts. */
    method OnTimer(body: seq<TimerOp>)
      requires Wf() && started && Accepted(Split(interval))
      requires forall op :: op in body && op.SetInterval? ==> Accepted(Split(op.interval))
      modifies this, srvLoop`handlers, srvLoop`interest, srvLoop.backing
      ensures Wf() && started && State() == DoAll(old(State()), body)
    {
      ghost var t := State();
      for i := 0 to |body|
        invariant Wf() && started && Accepted(Split(interval))
        invariant State() == DoAll(t, body[..i])
      {
        assert body[..i + 1][..i] == body[..i] && body[i] in body;
        Perform(body[i]);
      }
      assert body[..|body|] == body;
    }

    method DoHandleRead(body: seq<TimerOp>)
      requires Wf() && started && timerFd in srvLoop.interest && Accepted(Split(interval))
      requires forall op :: op in body && op.SetInterval? ==> Accepted(Split(op.interval))
      modifies this, srvLoop`handlers, srvLoop`interest, srvLoop.backing
      ensures Wf() && State() == Fire(old(State()), body)
    {
      log := log + [FIRED];
      OnTimer(body);
      log := log + [RETURNED(repeat)];
      if !repeat {
        StopTimer();
      }
    }
  }
}
