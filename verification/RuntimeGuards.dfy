/**
 Four guards of the transition system that no code stands behind exclude nothing: in every run
 they hold where they are asked for.
 */
module RuntimeGuards {
  import opened Wrappers
  import opened Scheduling
  import opened TimerSpec
  import opened Runtime
  import opened RuntimeInv
  import opened RuntimeSteps
  import opened RuntimeActions
  import opened RuntimeRuns
  import E = EventTable

  /** The call a fiber is in. */
  function CallOf(act: Act): Option<nat> {
    match act
    case IoTry(c) => Some(c)
    case IoTimed(c, _) => Some(c)
    case IoArmed(c, _) => Some(c)
    case IoWaiting(c, _) => Some(c)
    case _ => None
  }

  predicate HoldsCall(fibers: map<nat, Fib>, f: nat, c: nat) {
    f in fibers && CallOf(fibers[f].act) == Some(c)
  }

  /** A call that a fiber is in is recorded, and no two fibers are in one. */
  ghost predicate CallsHeld(fibers: map<nat, Fib>, calls: map<nat, Call>) {
    && (forall f, c :: HoldsCall(fibers, f, c) ==> c in calls)
    && (forall f, g, c :: HoldsCall(fibers, f, c) && HoldsCall(fibers, g, c) ==> f == g)
  }

  /** Fiber f stays in its call or leaves it, and only the call it leaves may go. */
  lemma HeldOn(fibers: map<nat, Fib>, calls: map<nat, Call>, f: nat, fib: Fib, calls': map<nat, Call>)
    requires CallsHeld(fibers, calls)
    requires CallOf(fib.act) == None || (f in fibers && CallOf(fib.act) == CallOf(fibers[f].act))
    requires forall c :: c in calls && c !in calls' ==> HoldsCall(fibers, f, c) && CallOf(fib.act) == None
    ensures CallsHeld(fibers[f := fib], calls')
  {
    var fibers' := fibers[f := fib];
    forall g, c | HoldsCall(fibers', g, c)
      ensures HoldsCall(fibers, g, c) && c in calls'
    {
      assert HoldsCall(fibers, g, c);
      assert c in calls;
    }
  }

  /** Fiber f, in no call so far, starts a new one. */
  lemma HeldNew(fibers: map<nat, Fib>, calls: map<nat, Call>, f: nat, fib: Fib, id: nat, call: Call)
    requires CallsHeld(fibers, calls) && id !in calls && CallOf(fib.act) == Some(id)
    ensures CallsHeld(fibers[f := fib], calls[id := call])
  {
    var fibers' := fibers[f := fib];
    forall g, c | HoldsCall(fibers', g, c) && g != f
      ensures HoldsCall(fibers, g, c) && c in calls
    {
      assert HoldsCall(fibers, g, c);
    }
  }

  lemma HeldCalls(fibers: map<nat, Fib>, calls: map<nat, Call>, calls': map<nat, Call>)
    requires CallsHeld(fibers, calls) && calls.Keys <= calls'.Keys
    ensures CallsHeld(fibers, calls')
  {}

  lemma SideHeld(s: Rt, a: Action)
    requires SideEnabled(s, a) && |s.table.fds| >= 2 && CallsHeld(s.fibers, s.calls)
    ensures CallsHeld(DoSide(s, a).fibers, DoSide(s, a).calls)
  {
    SideOnly(s, a);
    hide CallsHeld;
    if a.SpawnFiber? {
      HeldOn(s.fibers, s.calls, a.fiber, Fib(INIT, User), s.calls);
    } else {
      hide DoSide;
      hide SideEnabled;
    }
  }

  lemma IoHeld(s: Rt, w: nat, a: Action)
    requires ActEnabled(s, w, a) && |s.table.fds| >= 2 && CallsHeld(s.fibers, s.calls)
    requires a.ArmTimeout? || a.Register? || a.Resume?
    ensures CallsHeld(DoAct(s, w, a).fibers, DoAct(s, w, a).calls)
  {
    var s', f := DoAct(s, w, a), Me(s, w);
    hide E.AddEvent;
    hide EventsOf;
    hide Insert;
    hide Cancel;
    hide CallsHeld;
    HeldOn(s.fibers, s.calls, f, s'.fibers[f], s'.calls);
  }

  lemma ActionHeld(s: Rt, w: nat, a: Action)
    requires ActEnabled(s, w, a) && |s.table.fds| >= 2 && CallsHeld(s.fibers, s.calls) && s.calls.Keys <= s.usedCalls
    ensures CallsHeld(DoAct(s, w, a).fibers, DoAct(s, w, a).calls)
  {
    var s', f := DoAct(s, w, a), Me(s, w);
    if SideEnabled(s, a) {
      SideHeld(s, a);
    }
    hide DoSide;
    hide SideEnabled;
    hide E.AddEvent;
    hide E.RemoveEvent;
    hide E.CancelAll;
    hide E.Woken;
    hide Push;
    hide EventsOf;
    hide Insert;
    hide Cancel;
    hide CallsHeld;
    match a
    case StartIo(id, _, _, _) => HeldNew(s.fibers, s.calls, f, s'.fibers[f], id, s'.calls[id]);
    case TestTimeUp => HeldCalls(s.fibers, s.calls, s'.calls);
    case ArmTimeout(_) => IoHeld(s, w, a);
    case Register(_) => IoHeld(s, w, a);
    case Resume(_) => IoHeld(s, w, a);
    case SleepFor(_, _) => HeldOn(s.fibers, s.calls, f, s'.fibers[f], s'.calls);
    case Suspend => HeldOn(s.fibers, s.calls, f, s'.fibers[f], s'.calls);
    case Yield => HeldOn(s.fibers, s.calls, f, s'.fibers[f], s'.calls);
    case Finish(_) => HeldOn(s.fibers, s.calls, f, s'.fibers[f], s'.calls);
    case _ =>
  }

  lemma BeginHeld(s: Rt, w: nat, spare: nat)
    requires Enabled(s, Begin(w, spare)) && CallsHeld(s.fibers, s.calls)
    ensures CallsHeld(DoBegin(s, w, spare).fibers, DoBegin(s, w, spare).calls)
  {
    var s' := DoBegin(s, w, spare);
    hide CallsHeld;
    match s.workers[w].pc.task
    case FiberTask(f) => HeldOn(s.fibers, s.calls, f, s'.fibers[f], s'.calls);
    case CbTask(cb) =>
      var g := CbFiber(s, w, spare);
      if g in s.fibers {
        HeldOn(s.fibers, s.calls, g, s'.fibers[g], s'.calls);
      } else {
        HeldOn(s.fibers, s.calls, g, s'.fibers[g], s'.calls);
      }
  }

  lemma StepHeld(s: Rt, step: Step)
    requires Enabled(s, step) && CallsHeld(s.fibers, s.calls) && s.calls.Keys <= s.usedCalls
    ensures CallsHeld(Do(s, step).fibers, Do(s, step).calls)
  {
    var s' := Do(s, step);
    hide DoAct;
    hide DoSide;
    hide SideEnabled;
    hide E.Dispatch;
    hide E.Woken;
    hide Push;
    hide Expire;
    hide IsDueOrder;
    hide DueJobs;
    hide Busy;
    hide CallsHeld;
    match step
    case RunFiber(w, a) => ActionHeld(s, w, a);
    case Outside(a) => SideHeld(s, a);
    case Begin(w, spare) => BeginHeld(s, w, spare);
    case _ =>
  }

  lemma CallsUsed(s: Rt, step: Step)
    requires Enabled(s, step) && s.calls.Keys <= s.usedCalls
    ensures Do(s, step).calls.Keys <= Do(s, step).usedCalls
  {
    hide E.AddEvent;
    hide E.RemoveEvent;
    hide E.CancelAll;
    hide E.Dispatch;
    hide E.Woken;
    hide Push;
    hide Expire;
    hide IsDueOrder;
    hide DueJobs;
    hide Busy;
    hide EventsOf;
    hide Insert;
    hide Cancel;
    if step.Outside? {
      SideOnly(s, step.action);
    } else if step.RunFiber? && SideEnabled(s, step.action) {
      SideOnly(s, step.action);
    }
    hide DoSide;
    hide SideEnabled;
  }

  lemma {:induction false} EveryRunHeld(ss: seq<Rt>, steps: seq<Step>, n: nat, t0: nat, k: nat)
    requires IsRun(ss, steps, n, t0) && k < |ss|
    ensures CallsHeld(ss[k].fibers, ss[k].calls) && ss[k].calls.Keys <= ss[k].usedCalls
  {
    if k > 0 {
      EveryRunHeld(ss, steps, n, t0, k - 1);
      RunStep(ss, steps, n, t0, k - 1);
      hide IsRun;
      hide Enabled;
      hide Do;
      hide CallsHeld;
      StepHeld(ss[k-1], steps[k-1]);
      CallsUsed(ss[k-1], steps[k-1]);
    }
  }

  // ---------------------------------------------------------------- timers

  /** No timer is due before its own period is over, counted from zero. */
  ghost predicate Ahead(live: map<nat, Rec<Cb>>) {
    forall id :: id in live ==> live[id].ms <= live[id].next
  }

  lemma AheadArm(s: Rt, timer: nat, ms: nat, recurring: bool, cb: Cb)
    requires Ahead(s.timers.live)
    ensures Ahead(ArmTimer(s, timer, ms, recurring, cb).timers.live)
  {}

  lemma AheadDrop(s: Rt, timer: Option<nat>)
    requires Ahead(s.timers.live)
    ensures Ahead(DropTimer(s, timer).timers.live)
  {}

  lemma SideAhead(s: Rt, a: Action)
    requires SideEnabled(s, a) && |s.table.fds| >= 2 && Ahead(s.timers.live)
    ensures Ahead(DoSide(s, a).timers.live)
  {
    hide E.AddEvent;
    hide E.RemoveEvent;
    hide E.CancelAll;
    hide E.Woken;
    hide Push;
    hide EventsOf;
    match a
    case AddUserTimer(timer, ms, recurring, id) => AheadArm(s, timer, ms, recurring, UserCb(id));
    case CancelUserTimer(timer) => AheadDrop(s, Some(timer));
    case ResetUserTimer(timer, ms, fromNow) =>
      if timer in s.timers.live {
        ResetIs(s, timer, ms, fromNow);
      }
    case _ =>
  }

  lemma ActionAhead(s: Rt, w: nat, a: Action)
    requires ActEnabled(s, w, a) && |s.table.fds| >= 2 && Ahead(s.timers.live)
    ensures Ahead(DoAct(s, w, a).timers.live)
  {
    if SideEnabled(s, a) {
      SideAhead(s, a);
    }
    hide DoSide;
    hide SideEnabled;
    hide E.AddEvent;
    hide E.RemoveEvent;
    hide E.CancelAll;
    hide E.Woken;
    hide Push;
    hide EventsOf;
    hide Ahead;
    match a
    case SleepFor(ms, timer) => AheadArm(s, timer, ms, false, WakeSleeper(Me(s, w)));
    case ArmTimeout(timer) =>
      var call := MyAct(s, w).call;
      var c := s.calls[call];
      if c.timeout.Some? {
        AheadArm(s, timer, c.timeout.value, false, TimeUp(call, c.fd, c.ev));
      }
    case Resume(_) => AheadDrop(s, MyAct(s, w).timer);
    case Register(ok) => AheadDrop(s, MyAct(s, w).timer);
    case _ =>
  }

  lemma StepAhead(s: Rt, step: Step)
    requires Enabled(s, step) && Ahead(s.timers.live)
    ensures Ahead(Do(s, step).timers.live)
  {
    hide DoAct;
    hide DoSide;
    hide SideEnabled;
    hide E.Dispatch;
    hide E.Woken;
    hide Push;
    hide IsDueOrder;
    hide DueJobs;
    hide Busy;
    match step
    case RunFiber(w, a) => ActionAhead(s, w, a);
    case Outside(a) => SideAhead(s, a);
    case _ =>
  }

  lemma {:induction false} EveryRunAhead(ss: seq<Rt>, steps: seq<Step>, n: nat, t0: nat, k: nat)
    requires IsRun(ss, steps, n, t0) && k < |ss|
    ensures Ahead(ss[k].timers.live)
  {
    if k > 0 {
      EveryRunAhead(ss, steps, n, t0, k - 1);
      RunStep(ss, steps, n, t0, k - 1);
      hide *;
      StepAhead(ss[k-1], steps[k-1]);
    }
  }

  /** A fiber that a worker holds or runs exists, the call it is in is recorded, the table is
      large enough to grow, and no reset counts from before zero. */
  lemma GuardsHold(ss: seq<Rt>, steps: seq<Step>, n: nat, t0: nat, k: nat, w: nat)
    requires IsRun(ss, steps, n, t0) && k < |ss| && w < |ss[k].workers|
    ensures var s, pc := ss[k], ss[k].workers[w].pc;
            && |s.table.fds| >= 2
            && (pc.Taken? && pc.task.FiberTask? ==> pc.task.fiber in s.fibers)
            && (pc.Running? ==> Runs(s, w) && (CallOf(MyAct(s, w)).Some? ==> CallOf(MyAct(s, w)).value in s.calls))
    ensures forall id, fromNow :: id in ss[k].timers.live ==> ResetStart(ss[k].timers.live[id], ss[k].now, fromNow) >= 0
  {
    var s := ss[k];
    EveryRunAhead(ss, steps, n, t0, k);
    EveryRunKeeps(ss, steps, n, t0, k);
    EveryRunHeld(ss, steps, n, t0, k);
    hide IsRun;
    hide RunsOk;
    hide ActiveOk;
    hide FibersOk;
    hide TimersOk;
    hide TokensOk;
    E.MirrorSize(s.table);
    WorkerAt(s.workers, s.fibers, w);
    if s.workers[w].pc.Running? && CallOf(MyAct(s, w)).Some? {
      assert HoldsCall(s.fibers, Me(s, w), CallOf(MyAct(s, w)).value);
    }
  }
}
