/**
 What becomes of a call. A time-out never stands armed longer than its call goes on; a call ends
 only with a time-out, a failed registration or a result; and what a reported time-out says of its
 call is what was so when the call began.
 */
module RuntimeCalls {
  import opened Wrappers
  import opened Scheduling
  import opened TimerSpec
  import opened Runtime
  import opened RuntimeInv
  import opened RuntimeSteps
  import opened RuntimeActions
  import opened RuntimeRuns
  import opened RuntimeGuards
  import opened RuntimeSleep
  import E = EventTable

  // ---------------------------------------------------------------- no time-out outlives its call

  /** Fiber f is in the call and holds its time-out. */
  predicate HoldsTimer(fibers: map<nat, Fib>, f: nat, id: nat, call: nat) {
    f in fibers && TimerOf(fibers[f].act) == Some(id) && CallOf(fibers[f].act) == Some(call)
  }

  ghost predicate TimeoutsHeld(s: Rt) {
    forall id :: id in s.timers.live && s.timers.live[id].cb.TimeUp? ==>
      exists f :: HoldsTimer(s.fibers, f, id, s.timers.live[id].cb.call)
  }

  lemma OwnHolds(s: Rt, w: nat, a: Action, id: nat, call: nat)
    requires ActEnabled(s, w, a) && |s.table.fds| >= 2 && PcOk(s.fibers, s.workers[w])
    requires HoldsTimer(s.fibers, Me(s, w), id, call) && id in DoAct(s, w, a).timers.live
    ensures HoldsTimer(DoAct(s, w, a).fibers, Me(s, w), id, call)
  {
    assert !SideEnabled(s, a);
    hide DoSide;
    hide SideEnabled;
    hide E.AddEvent;
    hide E.RemoveEvent;
    hide E.Woken;
    hide Push;
    hide EventsOf;
    hide Insert;
  }

  /** A fiber keeps the time-out it holds, unless it cancels it. */
  lemma ActionHolds(s: Rt, w: nat, a: Action, f: nat, id: nat, call: nat)
    requires ActEnabled(s, w, a) && |s.table.fds| >= 2 && PcOk(s.fibers, s.workers[w])
    requires HoldsTimer(s.fibers, f, id, call) && id in DoAct(s, w, a).timers.live
    ensures HoldsTimer(DoAct(s, w, a).fibers, f, id, call)
  {
    if Me(s, w) != f {
      OtherFibers(s, w, a, f);
      hide DoAct;
      hide ActEnabled;
    } else {
      OwnHolds(s, w, a, id, call);
    }
  }

  lemma SideArms(s: Rt, a: Action, id: nat)
    requires SideEnabled(s, a) && |s.table.fds| >= 2 && id !in s.timers.live && id in DoSide(s, a).timers.live
    ensures DoSide(s, a).timers.live[id].cb.UserCb?
  {
    hide E.AddEvent;
    hide E.RemoveEvent;
    hide E.CancelAll;
    hide E.Woken;
    hide Push;
    hide EventsOf;
    hide First;
  }

  lemma OwnArms(s: Rt, w: nat, a: Action, id: nat)
    requires ActEnabled(s, w, a) && |s.table.fds| >= 2 && id !in s.timers.live && (a.SleepFor? || a.ArmTimeout?)
    requires id in DoAct(s, w, a).timers.live && DoAct(s, w, a).timers.live[id].cb.TimeUp?
    ensures HoldsTimer(DoAct(s, w, a).fibers, Me(s, w), id, DoAct(s, w, a).timers.live[id].cb.call)
  {
    hide First;
    hide DoSide;
    hide SideEnabled;
  }

  /** A new time-out is held by the fiber that arms it. */
  lemma ArmsHeld(s: Rt, w: nat, a: Action, id: nat)
    requires ActEnabled(s, w, a) && |s.table.fds| >= 2 && id !in s.usedTimers && s.timers.live.Keys <= s.usedTimers
    requires id in DoAct(s, w, a).timers.live && DoAct(s, w, a).timers.live[id].cb.TimeUp?
    ensures HoldsTimer(DoAct(s, w, a).fibers, Me(s, w), id, DoAct(s, w, a).timers.live[id].cb.call)
  {
    if SideEnabled(s, a) {
      SideActs(s, w, a);
      SideArms(s, a, id);
      assert false;
    } else {
      OwnTimers(s, w, a);
      assert a.SleepFor? || a.ArmTimeout?;
      OwnArms(s, w, a, id);
    }
  }

  lemma SideCb(s: Rt, a: Action, id: nat)
    requires SideEnabled(s, a) && |s.table.fds| >= 2 && s.timers.live.Keys <= s.usedTimers
    requires id in s.timers.live && id in DoSide(s, a).timers.live
    ensures DoSide(s, a).timers.live[id].cb == s.timers.live[id].cb
  {
    hide E.AddEvent;
    hide E.RemoveEvent;
    hide E.CancelAll;
    hide E.Woken;
    hide Push;
    hide EventsOf;
    hide First;
    match a
    case ResetUserTimer(timer, ms, fromNow) =>
      if timer in s.timers.live {
        ResetIs(s, timer, ms, fromNow);
        hide ResetTimer;
      }
    case _ =>
  }

  lemma ActionCb(s: Rt, w: nat, a: Action, id: nat)
    requires ActEnabled(s, w, a) && |s.table.fds| >= 2 && s.timers.live.Keys <= s.usedTimers
    requires id in s.timers.live && id in DoAct(s, w, a).timers.live
    ensures DoAct(s, w, a).timers.live[id].cb == s.timers.live[id].cb
  {
    if SideEnabled(s, a) {
      SideActs(s, w, a);
      SideCb(s, a, id);
    } else {
      OwnTimers(s, w, a);
      hide SideEnabled;
      hide DoAct;
      hide First;
    }
  }

  /** A timer that stays armed keeps its callback. */
  lemma StepCb(s: Rt, step: Step, id: nat)
    requires Enabled(s, step) && s.timers.live.Keys <= s.usedTimers
    requires id in s.timers.live && id in Do(s, step).timers.live
    ensures Do(s, step).timers.live[id].cb == s.timers.live[id].cb
  {
    hide DoAct;
    hide ActEnabled;
    hide DoSide;
    hide SideEnabled;
    match step
    case RunFiber(w, a) => ActionCb(s, w, a, id);
    case Outside(a) => SideCb(s, a, id);
    case Expiring(_, _, _) =>
      hide DueJobs;
      hide Push;
      hide RolledBack;
    case _ =>
      hide Do;
      hide Enabled;
      OtherStepLeaves(s, step);
  }

  lemma BeginHolds(s: Rt, w: nat, spare: nat, f: nat, id: nat, call: nat)
    requires Enabled(s, Begin(w, spare)) && PocketOk(s.fibers, s.workers[w]) && HoldsTimer(s.fibers, f, id, call)
    ensures HoldsTimer(DoBegin(s, w, spare).fibers, f, id, call)
  {}

  lemma SideHolds(s: Rt, a: Action, f: nat, id: nat, call: nat)
    requires SideEnabled(s, a) && |s.table.fds| >= 2 && HoldsTimer(s.fibers, f, id, call)
    ensures HoldsTimer(DoSide(s, a).fibers, f, id, call)
  {
    SideFibers(s, a, f);
    hide DoSide;
    hide SideEnabled;
  }

  lemma AnyWorkerOk(s: Rt, w: nat)
    requires Inv(s) && w < |s.workers|
    ensures PcOk(s.fibers, s.workers[w]) && PocketOk(s.fibers, s.workers[w])
  {
    WorkerAt(s.workers, s.fibers, w);
    hide PcOk;
    hide PocketOk;
    hide Tokens;
  }

  lemma OtherHolds(s: Rt, step: Step, f: nat, id: nat, call: nat)
    requires Enabled(s, step) && !step.RunFiber? && !step.Outside? && !step.Begin?
    requires HoldsTimer(s.fibers, f, id, call)
    ensures HoldsTimer(Do(s, step).fibers, f, id, call)
  {
    OtherStepRests(s, step);
    hide Do;
    hide Enabled;
  }

  lemma StepHolds(s: Rt, step: Step, f: nat, id: nat, call: nat)
    requires Inv(s) && Enabled(s, step) && HoldsTimer(s.fibers, f, id, call) && id in Do(s, step).timers.live
    ensures HoldsTimer(Do(s, step).fibers, f, id, call)
  {
    hide *;
    match step
    case RunFiber(w, a) =>
      RunIs(s, w, a);
      AnyWorkerOk(s, w);
      ActionHolds(s, w, a, f, id, call);
    case Outside(a) =>
      OutsideIs(s, a);
      SideHolds(s, a, f, id, call);
    case Begin(w, spare) =>
      BeginIs(s, w, spare);
      AnyWorkerOk(s, w);
      BeginHolds(s, w, spare, f, id, call);
    case _ => OtherHolds(s, step, f, id, call);
  }

  lemma StepArms(s: Rt, step: Step, id: nat) returns (f: nat)
    requires Enabled(s, step) && s.timers.live.Keys <= s.usedTimers && id !in s.usedTimers
    requires id in Do(s, step).timers.live && Do(s, step).timers.live[id].cb.TimeUp?
    ensures HoldsTimer(Do(s, step).fibers, f, id, Do(s, step).timers.live[id].cb.call)
  {
    f := if step.RunFiber? then Me(s, step.w) else 0;
    hide DoAct;
    hide ActEnabled;
    hide DoSide;
    hide SideEnabled;
    hide HoldsTimer;
    match step
    case RunFiber(w, a) => ArmsHeld(s, w, a, id);
    case Outside(a) => SideArms(s, a, id);
    case Expiring(_, _, _) =>
      hide DueJobs;
      hide Push;
      hide RolledBack;
    case _ =>
      hide Do;
      hide Enabled;
      OtherStepLeaves(s, step);
  }

  lemma StepTimeoutsHeld(s: Rt, step: Step)
    requires Inv(s) && Enabled(s, step) && TimeoutsHeld(s)
    ensures TimeoutsHeld(Do(s, step))
  {
    assert TimersOk(s.timers.live, s.usedTimers, s.fibers);
    hide Inv;
    hide Do;
    hide Enabled;
    hide HoldsTimer;
    var s' := Do(s, step);
    forall id | id in s'.timers.live && s'.timers.live[id].cb.TimeUp?
      ensures exists f :: HoldsTimer(s'.fibers, f, id, s'.timers.live[id].cb.call)
    {
      if id in s.timers.live {
        StepCb(s, step, id);
        var f :| HoldsTimer(s.fibers, f, id, s.timers.live[id].cb.call);
        StepHolds(s, step, f, id, s.timers.live[id].cb.call);
      } else if id in s.usedTimers {
        StepLeaves(s, step, id);
      } else {
        var f := StepArms(s, step, id);
      }
    }
  }

  /** In every run: a time-out stands armed only while a fiber is in its call. */
  lemma {:induction false} NoTimeoutOutlives(ss: seq<Rt>, steps: seq<Step>, n: nat, t0: nat, k: nat)
    requires IsRun(ss, steps, n, t0) && k < |ss|
    ensures TimeoutsHeld(ss[k])
    decreases k
  {
    hide Inv;
    hide Do;
    hide Enabled;
    if k > 0 {
      NoTimeoutOutlives(ss, steps, n, t0, k - 1);
      EveryRunKeeps(ss, steps, n, t0, k - 1);
      RunStep(ss, steps, n, t0, k - 1);
      hide TimeoutsHeld;
      StepTimeoutsHeld(ss[k-1], steps[k-1]);
    }
  }

  // ---------------------------------------------------------------- how a call ends

  /** A call ends when a fiber in it fails to register, or is resumed and either has been marked,
      which is reported, or finds a result; resumed without either it goes on and tries again. */
  lemma CallEnds(s: Rt, w: nat, a: Action)
    requires ActEnabled(s, w, a) && |s.table.fds| >= 2 && CallOf(MyAct(s, w)).Some?
    requires CallOf(MyAct(s, w)).value in s.calls
    ensures var id, s' := CallOf(MyAct(s, w)).value, DoAct(s, w, a);
            var c := s.calls[id];
            && (id !in s'.calls <==> a == Register(false) || (a.Resume? && (c.timedOut || !a.again)))
            && (a.Resume? && !c.timedOut && a.again ==>
                  Me(s, w) in s'.fibers && s'.fibers[Me(s, w)].act == IoTry(id))
            && s'.timeouts == s.timeouts
                + if a.Resume? && c.timedOut then [TimedOut(c.start, c.timeout, s.now)] else []
  {
    assert !SideEnabled(s, a);
    hide DoSide;
    hide SideEnabled;
    hide E.AddEvent;
    hide E.RemoveEvent;
    hide E.Woken;
    hide Push;
    hide EventsOf;
    hide Insert;
    hide Cancel;
  }

  // ---------------------------------------------------------------- how it began

  /** With step i some fiber began the call id, and c says so. */
  ghost predicate Began(ss: seq<Rt>, steps: seq<Step>, i: nat, id: nat, c: Call) {
    && i < |steps| && i < |ss| && steps[i].RunFiber?
    && steps[i].action == StartIo(id, c.fd, c.ev, c.timeout) && c.start == ss[i].now
  }

  lemma QuietCalls(s: Rt, w: nat, a: Action)
    requires ActEnabled(s, w, a) && |s.table.fds| >= 2
    requires !a.StartIo? && !a.TestTimeUp? && !a.Resume? && !a.Register?
    ensures DoAct(s, w, a).calls == s.calls
  {
    if SideEnabled(s, a) {
      SideOnly(s, a);
    }
    hide DoSide;
    hide SideEnabled;
    hide E.AddEvent;
    hide E.RemoveEvent;
    hide E.Woken;
    hide Push;
    hide EventsOf;
    hide Insert;
    hide Cancel;
  }

  lemma EndedCalls(s: Rt, w: nat, a: Action)
    requires ActEnabled(s, w, a) && |s.table.fds| >= 2 && (a.Resume? || a.Register?)
    ensures DoAct(s, w, a).calls == s.calls || DoAct(s, w, a).calls == s.calls - {MyAct(s, w).call}
  {
    hide DoSide;
    hide SideEnabled;
    hide E.AddEvent;
    hide EventsOf;
    hide Cancel;
  }

  lemma NewCalls(s: Rt, w: nat, a: Action, id: nat)
    requires ActEnabled(s, w, a) && |s.table.fds| >= 2 && (a.StartIo? || a.TestTimeUp?)
    requires id in DoAct(s, w, a).calls
    ensures var c := DoAct(s, w, a).calls[id];
            || (id in s.calls && c == s.calls[id].(timedOut := c.timedOut))
            || (a == StartIo(id, c.fd, c.ev, c.timeout) && c.start == s.now)
  {
    hide DoSide;
    hide SideEnabled;
  }

  lemma ActionCalls(s: Rt, w: nat, a: Action, id: nat)
    requires ActEnabled(s, w, a) && |s.table.fds| >= 2 && id in DoAct(s, w, a).calls
    ensures var c := DoAct(s, w, a).calls[id];
            || (id in s.calls && c == s.calls[id].(timedOut := c.timedOut))
            || (a == StartIo(id, c.fd, c.ev, c.timeout) && c.start == s.now)
  {
    match a
    case Resume(_) => EndedCalls(s, w, a);
    case Register(_) => EndedCalls(s, w, a);
    case StartIo(_, _, _, _) => NewCalls(s, w, a, id);
    case TestTimeUp => NewCalls(s, w, a, id);
    case _ => QuietCalls(s, w, a);
    hide DoAct;
    hide ActEnabled;
  }

  lemma ActionReports(s: Rt, w: nat, a: Action)
    requires ActEnabled(s, w, a) && |s.table.fds| >= 2
    ensures var s' := DoAct(s, w, a);
            if a.Resume? && s.calls[MyAct(s, w).call].timedOut then
              var c := s.calls[MyAct(s, w).call];
              s'.timeouts == s.timeouts + [TimedOut(c.start, c.timeout, s.now)]
            else s'.timeouts == s.timeouts
  {
    if SideEnabled(s, a) {
      SideOnly(s, a);
    }
    hide DoSide;
    hide SideEnabled;
    hide E.AddEvent;
    hide E.RemoveEvent;
    hide E.CancelAll;
    hide E.Woken;
    hide Push;
    hide EventsOf;
    hide Insert;
    hide Cancel;
  }

  lemma OtherStepCalls(s: Rt, step: Step)
    requires Enabled(s, step) && !step.RunFiber?
    ensures Do(s, step).calls == s.calls && Do(s, step).timeouts == s.timeouts
  {
    if step.Outside? {
      SideOnly(s, step.action);
    }
    hide DoSide;
    hide SideEnabled;
    hide E.Dispatch;
    hide E.Woken;
    hide Push;
    hide Busy;
    hide Expire;
    hide IsDueOrder;
    hide DueJobs;
  }

  /** A step with which a call ends in a time-out. */
  predicate Reports(s: Rt, step: Step, id: nat) {
    && step.RunFiber? && step.action.Resume? && Runs(s, step.w) && CallOf(MyAct(s, step.w)) == Some(id)
    && id in s.calls && s.calls[id].timedOut
  }

  lemma StepReports(s: Rt, step: Step) returns (id: nat)
    requires Enabled(s, step)
    ensures Do(s, step).timeouts != s.timeouts ==>
              && Reports(s, step, id)
              && Do(s, step).timeouts
                 == s.timeouts + [TimedOut(s.calls[id].start, s.calls[id].timeout, s.now)]
  {
    id := if step.RunFiber? && CallOf(MyAct(s, step.w)).Some? then CallOf(MyAct(s, step.w)).value else 0;
    hide DoAct;
    hide SideEnabled;
    match step
    case RunFiber(w, a) => ActionReports(s, w, a);
    case _ =>
      hide Do;
      hide Enabled;
      OtherStepCalls(s, step);
  }

  lemma StepCalls(s: Rt, step: Step, id: nat)
    requires Enabled(s, step) && id in Do(s, step).calls
    ensures var c := Do(s, step).calls[id];
            || (id in s.calls && c == s.calls[id].(timedOut := c.timedOut))
            || (step.RunFiber? && step.action == StartIo(id, c.fd, c.ev, c.timeout) && c.start == s.now)
  {
    hide DoAct;
    hide ActEnabled;
    match step
    case RunFiber(w, a) => ActionCalls(s, w, a, id);
    case _ =>
      hide Do;
      hide Enabled;
      OtherStepCalls(s, step);
  }

  /** Every call that is going on began with what is recorded of it. */
  lemma {:induction false} EveryCallBegan(ss: seq<Rt>, steps: seq<Step>, n: nat, t0: nat, k: nat, id: nat)
    returns (i: nat)
    requires IsRun(ss, steps, n, t0) && k < |ss| && id in ss[k].calls
    ensures i < k && Began(ss, steps, i, id, ss[k].calls[id])
    decreases k
  {
    hide Do;
    hide Enabled;
    if k == 0 {
      assert false;
    } else {
      RunStep(ss, steps, n, t0, k - 1);
      StepCalls(ss[k-1], steps[k-1], id);
      i := k - 1;
      if id in ss[k-1].calls && !Began(ss, steps, k - 1, id, ss[k].calls[id]) {
        i := EveryCallBegan(ss, steps, n, t0, k - 1, id);
      }
    }
  }

  lemma ReportedNow(ss: seq<Rt>, steps: seq<Step>, n: nat, t0: nat, m: nat, id: nat) returns (i: nat)
    requires IsRun(ss, steps, n, t0) && m < |steps| && Reports(ss[m], steps[m], id)
    ensures i < m && Began(ss, steps, i, id, ss[m].calls[id])
  {
    i := EveryCallBegan(ss, steps, n, t0, m, id);
    hide IsRun;
    hide Began;
  }

  /** And what a reported time-out says was so: step i began the call, with that time-out and at that
      time, and step m reported it, at the other time. */
  lemma {:induction false} EveryReport(ss: seq<Rt>, steps: seq<Step>, n: nat, t0: nat, k: nat, j: nat)
    returns (i: nat, m: nat, id: nat)
    requires IsRun(ss, steps, n, t0) && k < |ss| && j < |ss[k].timeouts|
    ensures i < m < k && Reports(ss[m], steps[m], id) && Began(ss, steps, i, id, ss[m].calls[id])
    ensures ss[k].timeouts[j] == TimedOut(ss[m].calls[id].start, ss[m].calls[id].timeout, ss[m].now)
    decreases k
  {
    hide Do;
    hide Enabled;
    hide Began;
    hide Reports;
    if k == 0 {
      assert false;
    } else if j < |ss[k-1].timeouts| {
      RunStep(ss, steps, n, t0, k - 1);
      var _ := StepReports(ss[k-1], steps[k-1]);
      i, m, id := EveryReport(ss, steps, n, t0, k - 1, j);
    } else {
      RunStep(ss, steps, n, t0, k - 1);
      id := StepReports(ss[k-1], steps[k-1]);
      m := k - 1;
      i := ReportedNow(ss, steps, n, t0, m, id);
    }
  }
}
