/**
 Where a call waits. Whatever fiber is registered for an event is suspended, or about to be, in a
 call for just that descriptor and event; and the time-out of a call stands armed for exactly the
 attempt's beginning plus the time configured, and names that very registration. So a time-out
 that goes off while the fiber waits wakes it.
 */
module RuntimeWaits {
  import opened Wrappers
  import opened Scheduling
  import opened TimerSpec
  import opened Sums
  import opened Runtime
  import opened RuntimeInv
  import opened RuntimeSteps
  import opened RuntimeActions
  import opened RuntimeRuns
  import opened RuntimeGuards
  import opened RuntimeTimeouts
  import opened RuntimeSleep
  import E = EventTable

  /** Fiber f is registered for the event ev of fd. */
  predicate Registered(t: E.Table<Job>, fd: nat, ev: E.Event, f: nat) {
    E.Waiter(t, fd, ev) == Some(FiberTask(f))
  }

  /** It is in a call for that event, registered or suspended. */
  predicate Parks(fibers: map<nat, Fib>, calls: map<nat, Call>, f: nat, fd: nat, ev: E.Event) {
    && f in fibers && (fibers[f].act.IoArmed? || fibers[f].act.IoWaiting?)
    && fibers[f].act.call in calls
    && calls[fibers[f].act.call].fd == fd && calls[fibers[f].act.call].ev == ev
  }

  ghost predicate Parked(s: Rt) {
    forall fd, ev, f :: Registered(s.table, fd, ev, f) ==> Parks(s.fibers, s.calls, f, fd, ev)
  }

  /** What is registered has no other wake-up. */
  lemma RegisteredOnly(s: Rt, fd: nat, ev: E.Event, f: nat)
    requires Inv(s) && Registered(s.table, fd, ev, f)
    ensures Expect(s.fibers, f) == 1 && Sum(s.workers, WorkerTok)[f] == 0
  {
    SumMember(s.table.fds, fd, EventsTok);
    assert EventsTok(s.table.fds[fd])[f] >= 1 by {
      match ev
      case READ =>
      case WRITE =>
    }
    assert Tokens(s)[f] == Expect(s.fibers, f) <= 1;
    hide Inv;
    hide Sum;
    hide SumMap;
    hide EventsTok;
    OneOfFour(Sum(s.queue, EntryTok), SumMap(s.timers.live, TimerTok), Sum(s.table.fds, EventsTok),
              Sum(s.workers, WorkerTok), f);
  }

  lemma SideWaiter(s: Rt, a: Action, fd: nat, ev: E.Event, f: nat)
    requires SideEnabled(s, a) && |s.table.fds| >= 2 && Registered(DoSide(s, a).table, fd, ev, f)
    ensures Registered(s.table, fd, ev, f)
  {
    match a
    case AddUserEvent(fd', ev', id, ok) => E.AddMeans(s.table, fd', ev', CbTask(UserCb(id)), ok, fd, ev);
    case DelUserEvent(fd', ev', ok) => E.RemoveMeans(s.table, fd', ev', ok, fd, ev);
    case CancelOne(fd', ev', ok) => E.RemoveMeans(s.table, fd', ev', ok, fd, ev);
    case CancelFd(fd', ok) => E.CancelAllMeans(s.table, fd', ok, fd, ev);
    case _ =>
    hide E.Waiter;
    hide E.AddEvent;
    hide E.RemoveEvent;
    hide E.CancelAll;
    hide E.Woken;
    hide Push;
    hide EventsOf;
    hide Insert;
    hide Cancel;
    hide Reset;
    hide Refresh;
  }

  /** Whatever a fiber does by itself, the only registration it adds is its own, for its call. */
  lemma OwnWaiter(s: Rt, w: nat, a: Action, fd: nat, ev: E.Event, f: nat)
    requires ActEnabled(s, w, a) && |s.table.fds| >= 2 && !SideEnabled(s, a)
    requires Registered(DoAct(s, w, a).table, fd, ev, f) && !Registered(s.table, fd, ev, f)
    ensures f == Me(s, w) && Parks(DoAct(s, w, a).fibers, DoAct(s, w, a).calls, f, fd, ev)
  {
    match a
    case Register(ok) =>
      var c := s.calls[MyAct(s, w).call];
      E.AddMeans(s.table, c.fd, c.ev, FiberTask(Me(s, w)), ok, fd, ev);
    case CancelTimeUp(ok) =>
      E.RemoveMeans(s.table, s.workers[w].pc.body.fd, s.workers[w].pc.body.ev, ok, fd, ev);
    case _ =>
    hide DoSide;
    hide SideEnabled;
    hide E.Waiter;
    hide E.AddEvent;
    hide E.RemoveEvent;
    hide E.Woken;
    hide Push;
    hide EventsOf;
    hide Insert;
    hide Cancel;
  }

  lemma ActionWaiter(s: Rt, w: nat, a: Action, fd: nat, ev: E.Event, f: nat)
    requires ActEnabled(s, w, a) && |s.table.fds| >= 2
    requires Registered(DoAct(s, w, a).table, fd, ev, f) && !Registered(s.table, fd, ev, f)
    ensures f == Me(s, w) && Parks(DoAct(s, w, a).fibers, DoAct(s, w, a).calls, f, fd, ev)
  {
    if SideEnabled(s, a) {
      SideActs(s, w, a);
      SideWaiter(s, a, fd, ev, f);
      assert false;
    } else {
      hide *;
      OwnWaiter(s, w, a, fd, ev, f);
    }
  }

  /** Only its own fiber brings a call to an end. */
  lemma ActionCallsKept(s: Rt, w: nat, a: Action, c: nat)
    requires ActEnabled(s, w, a) && |s.table.fds| >= 2 && c in s.calls && c in s.usedCalls
    requires CallOf(MyAct(s, w)) != Some(c)
    ensures c in DoAct(s, w, a).calls
    ensures DoAct(s, w, a).calls[c].fd == s.calls[c].fd && DoAct(s, w, a).calls[c].ev == s.calls[c].ev
  {
    if SideEnabled(s, a) {
      SideOnly(s, a);
    }
    hide DoSide;
    hide SideEnabled;
    hide E.AddEvent;
    hide E.RemoveEvent;
    hide E.CancelAll;
    hide E.Woken;
    hide Push;
    hide EventsOf;
    hide Insert;
    hide Cancel;
  }

  /** A fiber that has registered does nothing but suspend. */
  lemma OnlyParks(s: Rt, w: nat, a: Action)
    requires ActEnabled(s, w, a) && |s.table.fds| >= 2 && s.workers[w].pc.body == Code && MyAct(s, w).IoArmed?
    ensures var act := MyAct(s, w);
            && a == Suspend && DoAct(s, w, a).calls == s.calls
            && DoAct(s, w, a).fibers == s.fibers[Me(s, w) := Fib(HOLD, IoWaiting(act.call, act.timer))]
  {}

  lemma ActionParks(s: Rt, w: nat, a: Action, fd: nat, ev: E.Event, f: nat)
    requires ActEnabled(s, w, a) && |s.table.fds| >= 2 && PcOk(s.fibers, s.workers[w]) && Expect(s.fibers, f) == 1
    requires CallsHeld(s.fibers, s.calls) && s.calls.Keys <= s.usedCalls && Parks(s.fibers, s.calls, f, fd, ev)
    ensures Parks(DoAct(s, w, a).fibers, DoAct(s, w, a).calls, f, fd, ev)
  {
    if Me(s, w) == f {
      OnlyParks(s, w, a);
    } else {
      OtherFibers(s, w, a, f);
      var c := s.fibers[f].act.call;
      assert HoldsCall(s.fibers, f, c);
      assert CallOf(MyAct(s, w)) == Some(c) <==> HoldsCall(s.fibers, Me(s, w), c);
      ActionCallsKept(s, w, a, c);
    }
    hide DoAct;
    hide ActEnabled;
    hide CallsHeld;
  }

  lemma SideParks(s: Rt, a: Action, fd: nat, ev: E.Event, f: nat)
    requires SideEnabled(s, a) && |s.table.fds| >= 2 && Parks(s.fibers, s.calls, f, fd, ev)
    ensures Parks(DoSide(s, a).fibers, DoSide(s, a).calls, f, fd, ev)
  {
    SideOnly(s, a);
    SideFibers(s, a, f);
    hide DoSide;
    hide SideEnabled;
  }

  lemma BeginParks(s: Rt, w: nat, spare: nat, fd: nat, ev: E.Event, f: nat)
    requires Enabled(s, Begin(w, spare)) && Parks(s.fibers, s.calls, f, fd, ev)
    requires PocketOk(s.fibers, s.workers[w]) && WorkerTok(s.workers[w])[f] == 0
    ensures Parks(DoBegin(s, w, spare).fibers, s.calls, f, fd, ev)
  {}

  lemma BeginCalls(s: Rt, w: nat, spare: nat)
    requires Enabled(s, Begin(w, spare))
    ensures DoBegin(s, w, spare).calls == s.calls && DoBegin(s, w, spare).table == s.table
  {}

  lemma ReportWaiter(s: Rt, fd': nat, reported: set<E.Event>, broken: bool, ok: bool, fd: nat, ev: E.Event, f: nat)
    requires fd' < |s.table.fds| && E.Current(s.table.fds[fd'], E.RealEvents(s.table.fds[fd'], reported, broken))
    requires Registered(Report(s, fd', reported, broken, ok).table, fd, ev, f)
    ensures Registered(s.table, fd, ev, f)
  {
    hide E.Woken;
    hide Push;
  }

  lemma OtherStepKeeps(s: Rt, step: Step)
    requires Enabled(s, step) && !step.RunFiber? && !step.Outside? && !step.Begin? && !step.Reporting?
    ensures Do(s, step).fibers == s.fibers && Do(s, step).calls == s.calls && Do(s, step).table == s.table
  {
    hide Push;
    hide Busy;
    hide Expire;
    hide IsDueOrder;
    hide DueJobs;
  }

  lemma ReportOnly(s: Rt, fd: nat, reported: set<E.Event>, broken: bool, ok: bool)
    requires fd < |s.table.fds| && E.Current(s.table.fds[fd], E.RealEvents(s.table.fds[fd], reported, broken))
    ensures var s' := Report(s, fd, reported, broken, ok); s'.fibers == s.fibers && s'.calls == s.calls
  {}

  lemma RegisteredIdle(s: Rt, fd: nat, ev: E.Event, f: nat, w: nat)
    requires Inv(s) && Registered(s.table, fd, ev, f) && w < |s.workers|
    ensures Expect(s.fibers, f) == 1 && WorkerTok(s.workers[w])[f] == 0
    ensures PcOk(s.fibers, s.workers[w]) && PocketOk(s.fibers, s.workers[w])
  {
    RegisteredOnly(s, fd, ev, f);
    SumMember(s.workers, w, WorkerTok);
    WorkerAt(s.workers, s.fibers, w);
    hide Sum;
    hide WorkerTok;
    hide PcOk;
    hide PocketOk;
    hide Tokens;
    hide Expect;
  }

  lemma StepParks(s: Rt, step: Step, fd: nat, ev: E.Event, f: nat)
    requires Inv(s) && Enabled(s, step) && Parked(s) && CallsHeld(s.fibers, s.calls) && s.calls.Keys <= s.usedCalls
    requires Registered(Do(s, step).table, fd, ev, f)
    ensures Parks(Do(s, step).fibers, Do(s, step).calls, f, fd, ev)
  {
    hide Inv;
    hide DoAct;
    hide ActEnabled;
    hide SideEnabled;
    hide DoSide;
    hide DoBegin;
    hide Report;
    hide Parks;
    hide Registered;
    hide CallsHeld;
    match step
    case RunFiber(w, a) =>
      if Registered(s.table, fd, ev, f) {
        RegisteredIdle(s, fd, ev, f, w);
        ActionParks(s, w, a, fd, ev, f);
      } else {
        ActionWaiter(s, w, a, fd, ev, f);
      }
    case Outside(a) =>
      SideWaiter(s, a, fd, ev, f);
      SideParks(s, a, fd, ev, f);
    case Begin(w, spare) =>
      BeginCalls(s, w, spare);
      RegisteredIdle(s, fd, ev, f, w);
      BeginParks(s, w, spare, fd, ev, f);
    case Reporting(_, fd', reported, broken, ok) =>
      ReportWaiter(s, fd', reported, broken, ok, fd, ev, f);
      ReportOnly(s, fd', reported, broken, ok);
    case _ =>
      hide Do;
      hide Enabled;
      OtherStepKeeps(s, step);
  }

  lemma StepParked(s: Rt, step: Step)
    requires Inv(s) && Enabled(s, step) && Parked(s) && CallsHeld(s.fibers, s.calls) && s.calls.Keys <= s.usedCalls
    ensures Parked(Do(s, step))
  {
    hide Inv;
    hide Do;
    hide Enabled;
    hide Parks;
    hide Registered;
    hide CallsHeld;
    forall fd, ev, f | Registered(Do(s, step).table, fd, ev, f)
      ensures Parks(Do(s, step).fibers, Do(s, step).calls, f, fd, ev)
    {
      StepParks(s, step, fd, ev, f);
    }
  }

  /** In every run: what is registered is a fiber in a call for that very event. */
  lemma {:induction false} EveryRunParked(ss: seq<Rt>, steps: seq<Step>, n: nat, t0: nat, k: nat)
    requires IsRun(ss, steps, n, t0) && k < |ss|
    ensures Parked(ss[k])
    decreases k
  {
    hide Inv;
    hide Do;
    hide Enabled;
    if k > 0 {
      EveryRunParked(ss, steps, n, t0, k - 1);
      EveryRunKeeps(ss, steps, n, t0, k - 1);
      EveryRunHeld(ss, steps, n, t0, k - 1);
      RunStep(ss, steps, n, t0, k - 1);
      hide Parked;
      hide CallsHeld;
      StepParked(ss[k-1], steps[k-1]);
    }
  }

  // ---------------------------------------------------------------- the time-out of a call

  /** Whether it still stands armed or not: if it does, then as r. */
  ghost predicate ArmedOnlyAs(s: Rt, timer: nat, r: Rec<Cb>) {
    timer in s.usedTimers && (timer in s.timers.live ==> s.timers.live[timer] == r)
  }

  lemma StaysAs(s: Rt, step: Step, timer: nat, r: Rec<Cb>)
    requires Inv(s) && Enabled(s, step) && ArmedOnlyAs(s, timer, r) && !r.cb.UserCb?
    ensures ArmedOnlyAs(Do(s, step), timer, r)
  {
    StepLeaves(s, step, timer);
    hide Inv;
    hide Do;
    hide Enabled;
  }

  lemma {:induction false} ArmedOn(ss: seq<Rt>, steps: seq<Step>, n: nat, t0: nat, j: nat, k: nat, timer: nat,
      r: Rec<Cb>)
    requires IsRun(ss, steps, n, t0) && j <= k < |ss| && ArmedOnlyAs(ss[j], timer, r) && !r.cb.UserCb?
    ensures ArmedOnlyAs(ss[k], timer, r)
    decreases k
  {
    hide ArmedOnlyAs;
    hide Inv;
    hide Do;
    hide Enabled;
    if j < k {
      ArmedOn(ss, steps, n, t0, j, k - 1, timer, r);
      RunStep(ss, steps, n, t0, k - 1);
      EveryRunKeeps(ss, steps, n, t0, k - 1);
      StaysAs(ss[k-1], steps[k-1], timer, r);
    }
  }

  /** A fiber arms the time-out of the call c it is in. */
  predicate ArmsTimeout(s: Rt, step: Step, c: Call) {
    step.RunFiber? && step.action.ArmTimeout? && Runs(s, step.w) && MyAct(s, step.w).IoTry?
    && MyAct(s, step.w).call in s.calls && s.calls[MyAct(s, step.w).call] == c && c.timeout.Some?
  }

  function TimeoutOf(s: Rt, step: Step, c: Call): Rec<Cb>
    requires ArmsTimeout(s, step, c)
  {
    Rec(c.timeout.value, s.now + c.timeout.value, false, TimeUp(MyAct(s, step.w).call, c.fd, c.ev))
  }

  lemma TimeoutBegins(s: Rt, step: Step, c: Call)
    requires Enabled(s, step) && ArmsTimeout(s, step, c)
    ensures step.action.timer in Do(s, step).timers.live
    ensures ArmedOnlyAs(Do(s, step), step.action.timer, TimeoutOf(s, step, c))
  {
    hide First;
    hide DoSide;
    hide SideEnabled;
  }

  /** In every run, from then on: as long as it stands armed, then for exactly the time configured
      from the moment the attempt armed it, and for this call, its descriptor and its event. */
  lemma EveryTimeout(ss: seq<Rt>, steps: seq<Step>, n: nat, t0: nat, i: nat, k: nat, c: Call)
    requires IsRun(ss, steps, n, t0) && i < k < |ss| && ArmsTimeout(ss[i], steps[i], c)
    ensures steps[i].action.timer in ss[i+1].timers.live
    ensures steps[i].action.timer in ss[k].timers.live ==>
              ss[k].timers.live[steps[i].action.timer] == TimeoutOf(ss[i], steps[i], c)
  {
    hide Do;
    hide Enabled;
    RunStep(ss, steps, n, t0, i);
    TimeoutBegins(ss[i], steps[i], c);
    ArmedOn(ss, steps, n, t0, i + 1, k, steps[i].action.timer, TimeoutOf(ss[i], steps[i], c));
  }

  /** When the closure of a time-out cancels the registration of its call, whoever waits there is
      queued last, and is in that call. */
  lemma TimeUpWakes(ss: seq<Rt>, steps: seq<Step>, n: nat, t0: nat, k: nat, w: nat, f: nat)
    requires IsRun(ss, steps, n, t0) && k < |steps| && steps[k] == RunFiber(w, CancelTimeUp(true))
    requires w < |ss[k].workers| && ss[k].workers[w].pc.Running? && ss[k].workers[w].pc.body.CancelBody?
    requires var body := ss[k].workers[w].pc.body; Registered(ss[k].table, body.fd, body.ev, f)
    ensures var s, body := ss[k], ss[k].workers[w].pc.body;
            && Parks(s.fibers, s.calls, f, body.fd, body.ev)
            && !Registered(ss[k+1].table, body.fd, body.ev, f)
            && ss[k+1].queue == s.queue + [Entry(FiberTask(f), None)]
  {
    EveryRunParked(ss, steps, n, t0, k);
    RunStep(ss, steps, n, t0, k);
    hide IsRun;
    hide Parks;
    var s, body := ss[k], ss[k].workers[w].pc.body;
    E.RemoveMeans(s.table, body.fd, body.ev, true, body.fd, body.ev);
    hide E.RemoveEvent;
    hide DoSide;
    hide SideEnabled;
  }

  // ---------------------------------------------------------------- what is queued

  /** An expiry queues the callbacks of the due timers in their order, behind everything else. */
  lemma ExpiryQueues(s: Rt, w: nat, due: seq<nat>, readAt: nat)
    requires Enabled(s, Expiring(w, due, readAt))
    ensures var q := Do(s, Expiring(w, due, readAt)).queue;
            && |q| == |s.queue| + |due| && s.queue <= q
            && forall i :: 0 <= i < |due| ==>
                 due[i] in s.timers.live
                 && q[|s.queue| + i] == Entry(CbTask(s.timers.live[due[i]].cb), None)
  {
    assert forall i :: 0 <= i < |due| ==> due[i] in due;
    hide Expire;
    hide RolledBack;
  }

  lemma NoneWoken(q: seq<Entry<nat, Cb>>, m: map<E.Event, Job>)
    ensures Push(q, E.Woken(m, {})) == q == Push(q, [])
  {}

  lemma ReportIs(s: Rt, step: Step)
    requires Enabled(s, step) && step.Reporting? && step.reported <= s.table.fds[step.fd].Keys
    ensures var m := s.table.fds[step.fd];
            var hit := if step.broken then m.Keys else step.reported;
            && Do(s, step).queue == Push(s.queue, if step.ok then E.Woken(m, hit) else [])
            && Do(s, step).table == E.Dispatch(s.table, step.fd, step.reported, step.broken, step.ok)
  {
    var m := s.table.fds[step.fd];
    var hit := if step.broken then m.Keys else step.reported;
    assert E.RealEvents(m, step.reported, step.broken) == hit;
    NoneWoken(s.queue, m);
    if hit !! m.Keys {
      assert hit == {};
    }
    hide E.Dispatch;
    hide E.Woken;
    hide Push;
  }

  /** A report takes the events it names, or all of them if it is broken, and queues their waiters. */
  lemma ReportQueues(s: Rt, step: Step)
    requires Enabled(s, step) && step.Reporting? && step.reported <= s.table.fds[step.fd].Keys
    ensures var m, s' := s.table.fds[step.fd], Do(s, step);
            var taken := if !step.ok then {} else if step.broken then m.Keys else step.reported;
            && taken <= E.Entries(m).Keys && E.WakesBehind(s.queue, E.Entries(m), taken, s'.queue)
            && forall g, e :: E.Waiter(s'.table, g, e)
                           == if g == step.fd && e in taken then None else E.Waiter(s.table, g, e)
  {
    var m := s.table.fds[step.fd];
    var taken := if !step.ok then {} else if step.broken then m.Keys else step.reported;
    E.PushedBehind(s.queue, m, taken);
    NoneWoken(s.queue, m);
    forall g, e
      ensures E.Waiter(Do(s, step).table, g, e) == if g == step.fd && e in taken then None else E.Waiter(s.table, g, e)
    {
      E.DispatchMeans(s.table, step.fd, step.reported, step.broken, step.ok, g, e);
    }
    ReportIs(s, step);
    hide E.Dispatch;
    hide E.Woken;
    hide E.Waiter;
    hide E.WakesBehind;
    hide E.Entries;
    hide Push;
  }

  /** What the public interface queues, arms and disarms. */
  lemma SideDoes(s: Rt, a: Action)
    requires SideEnabled(s, a) && |s.table.fds| >= 2
    ensures var s' := DoSide(s, a);
            match a
            case SpawnFiber(f) =>
              && s'.queue == s.queue + [Entry(FiberTask(f), None)]
              && f in s'.fibers && s'.fibers[f] == Fib(INIT, User)
            case SpawnCb(id) => s'.queue == s.queue + [Entry(CbTask(UserCb(id)), None)]
            case CancelOne(fd, ev, ok) =>
              var w := E.Waiter(s.table, fd, ev);
              && s'.queue == s.queue + (if ok && w.Some? then [Entry(w.value, None)] else [])
              && (ok ==> E.Waiter(s'.table, fd, ev).None?)
            case CancelFd(fd, ok) =>
              var m := E.Registered(s.table, fd);
              && E.Entries(m).Keys == m.Keys
              && E.WakesBehind(s.queue, E.Entries(m), if ok then m.Keys else {}, s'.queue)
            case AddUserTimer(timer, ms, recurring, id) =>
              s'.timers.live == s.timers.live[timer := Rec(ms, s.now + ms, recurring, UserCb(id))]
              && s'.queue == s.queue
            case CancelUserTimer(timer) => s'.timers.live == s.timers.live - {timer} && s'.queue == s.queue
            case _ => s'.queue == s.queue
  {
    match a
    case CancelOne(fd, ev, ok) => E.RemoveMeans(s.table, fd, ev, ok, fd, ev);
    case CancelFd(fd, ok) =>
      var m := E.Registered(s.table, fd);
      E.PushedBehind(s.queue, m, if ok then m.Keys else {});
      NoneWoken(s.queue, m);
    case _ =>
    hide E.WakesBehind;
    hide E.Woken;
    hide E.AddEvent;
    hide E.RemoveEvent;
    hide E.CancelAll;
    hide First;
    hide Reset;
    hide Refresh;
  }

  /** A task that a worker takes is the one it then runs: the fiber itself, unless it has ended, or
      the function, on the worker's own fiber or a new one. */
  lemma TakesAndRuns(s: Rt, w: nat, i: nat, spare: nat)
    requires Enabled(s, TakeTask(w, i)) && Enabled(Do(s, TakeTask(w, i)), Begin(w, spare))
    ensures var task, s' := s.queue[i].task, Do(Do(s, TakeTask(w, i)), Begin(w, spare));
            && s'.queue == s.queue[..i] + s.queue[i+1..]
            && (task.FiberTask? ==>
                  task.fiber in s.fibers && task.fiber in s'.fibers
                  && if s.fibers[task.fiber].state in {TERM, EXCEPT} then
                       s'.workers == s.workers && s'.fibers == s.fibers
                     else s'.workers[w].pc == Running(task.fiber, false, Code) && s'.fibers[task.fiber].state == EXEC)
            && (task.CbTask? && task.cb.UserCb? ==>
                  var own := s.workers[w].pocket;
                  var g := if own.Some? then own.value else spare;
                  s'.workers[w].pc == Running(g, true, Code) && g in s'.fibers && s'.fibers[g] == Fib(EXEC, User))
            && (task.CbTask? && task.cb.WakeSleeper? ==> s'.workers[w].pc.body == WakeBody(task.cb.fiber))
            && (task.CbTask? && task.cb.TimeUp? ==>
                  s'.workers[w].pc.body == TimeUpBody(task.cb.call, task.cb.fd, task.cb.ev))
  {
    hide Busy;
    hide Takes;
  }
}
