/**
 How long a sleep lasts. The wake-up of a sleep stands armed for exactly the time the sleep began
 plus what was asked for, and nothing else can wake the sleeper; so it is not woken before that,
 unless an expiry during the sleep takes its reading of the clock for a rollback. With one worker
 it never is; with more it can be.
 */
module RuntimeSleep {
  import opened Wrappers
  import opened Scheduling
  import opened TimerSpec
  import opened Sums
  import opened Runtime
  import opened RuntimeInv
  import opened RuntimeSteps
  import opened RuntimeActions
  import opened RuntimeRuns
  import opened RuntimeStrands
  import opened RuntimeTimeouts
  import opened RuntimeEarly
  import E = EventTable

  // ---------------------------------------------------------------- what the hooks ask for

  const TWO_TO_31: nat := 0x8000_0000
  const TWO_TO_32: nat := 0x1_0000_0000
  const TWO_TO_63: nat := 0x8000_0000_0000_0000

  /** sleep: the product is of 32 bits. */
  function SleepMs(seconds: nat): nat {
    seconds * 1000 % TWO_TO_32
  }

  function UsleepMs(usec: nat): nat {
    usec / 1000
  }

  /** nanosleep: the sum goes through an int, whose sign addTimer then takes for the high bits. */
  function NanosleepMs(sec: nat, nsec: nat): nat {
    var low := (sec * 1000 + nsec / 1000 / 1000) % TWO_TO_32;
    if low < TWO_TO_31 then low else TWO_TO_64 - TWO_TO_32 + low
  }

  /** sleep is right up to 4294967 seconds and too short beyond; nanosleep is right for less than 2^31
      milliseconds and no others; both the latter and usleep drop what is less than a millisecond. */
  lemma HooksAskFor(seconds: nat, usec: nat, sec: nat, nsec: nat)
    requires sec * 1000 + nsec < TWO_TO_63
    ensures SleepMs(seconds) <= 1000 * seconds && (SleepMs(seconds) == 1000 * seconds <==> seconds <= 4294967)
    ensures UsleepMs(usec) * 1000 <= usec < UsleepMs(usec) * 1000 + 1000
    ensures var ms := (sec * 1_000_000_000 + nsec) / 1_000_000;
            NanosleepMs(sec, nsec) == ms <==> ms < TWO_TO_31
  {
    assert (sec * 1_000_000_000 + nsec) / 1_000_000 == sec * 1000 + nsec / 1000 / 1000;
  }

  // ---------------------------------------------------------------- steps by themselves

  lemma RunIs(s: Rt, w: nat, a: Action)
    requires Enabled(s, RunFiber(w, a))
    ensures ActEnabled(s, w, a) && |s.table.fds| >= 2 && w < |s.workers| && Do(s, RunFiber(w, a)) == DoAct(s, w, a)
  {
    hide DoAct;
    hide ActEnabled;
  }

  lemma OutsideIs(s: Rt, a: Action)
    requires Enabled(s, Outside(a))
    ensures SideEnabled(s, a) && |s.table.fds| >= 2 && Do(s, Outside(a)) == DoSide(s, a)
  {
    hide DoSide;
    hide SideEnabled;
  }

  lemma BeginIs(s: Rt, w: nat, spare: nat)
    requires Enabled(s, Begin(w, spare))
    ensures w < |s.workers| && s.workers[w].pc.Taken?
    ensures s.workers[w].pc.task.FiberTask? ==> s.workers[w].pc.task.fiber in s.fibers
    ensures Do(s, Begin(w, spare)) == DoBegin(s, w, spare)
  {
    hide DoBegin;
  }

  // ---------------------------------------------------------------- the timers of the hooks

  /** What a step can do to a timer that is not the user's: nothing, or take it out - because it is
      over or seems to be, or because the call that armed it has come to an end. */
  ghost predicate LeftAlone(s: Rt, step: Step, id: nat, s': Rt)
    requires id in s.timers.live
  {
    || (id in s'.timers.live && s'.timers.live[id] == s.timers.live[id])
    || (id !in s'.timers.live && step.Expiring? && id in step.due
        && (s.timers.live[id].next <= s.now || s.now in s'.rollbacks))
    || (id !in s'.timers.live && s.timers.live[id].cb.TimeUp? && step.RunFiber? && Runs(s, step.w)
        && TimerOf(MyAct(s, step.w)) == Some(id))
  }

  lemma SideLeaves(s: Rt, a: Action, id: nat)
    requires SideEnabled(s, a) && |s.table.fds| >= 2 && id in s.usedTimers
    requires id in s.timers.live ==> !s.timers.live[id].cb.UserCb?
    ensures id in DoSide(s, a).usedTimers
    ensures id in s.timers.live <==> id in DoSide(s, a).timers.live
    ensures id in s.timers.live ==> DoSide(s, a).timers.live[id] == s.timers.live[id]
  {
    hide E.AddEvent;
    hide E.RemoveEvent;
    hide E.CancelAll;
    hide E.Woken;
    hide Push;
    hide EventsOf;
    hide First;
    match a
    case ResetUserTimer(timer, ms, fromNow) =>
      if timer in s.timers.live {
        ResetIs(s, timer, ms, fromNow);
        hide ResetTimer;
      }
    case _ =>
  }

  lemma SideLeavesAlone(s: Rt, a: Action, id: nat)
    requires SideEnabled(s, a) && |s.table.fds| >= 2 && id in s.usedTimers
    requires id in s.timers.live ==> !s.timers.live[id].cb.UserCb?
    ensures id in DoSide(s, a).usedTimers
    ensures id !in s.timers.live ==> id !in DoSide(s, a).timers.live
    ensures id in s.timers.live ==> LeftAlone(s, Outside(a), id, DoSide(s, a))
  {
    SideLeaves(s, a, id);
    hide DoSide;
    hide SideEnabled;
  }

  /** All that a fiber does to timers by itself. */
  lemma OwnTimers(s: Rt, w: nat, a: Action)
    requires ActEnabled(s, w, a) && |s.table.fds| >= 2 && !SideEnabled(s, a)
    ensures var s', act := DoAct(s, w, a), MyAct(s, w);
            match a
            case SleepFor(ms, timer) =>
              var armed := ArmTimer(s, timer, ms, false, WakeSleeper(Me(s, w)));
              s'.timers == armed.timers && s'.usedTimers == armed.usedTimers
            case ArmTimeout(timer) =>
              var c := s.calls[act.call];
              if c.timeout.None? then s'.timers == s.timers && s'.usedTimers == s.usedTimers
              else
                var armed := ArmTimer(s, timer, c.timeout.value, false, TimeUp(act.call, c.fd, c.ev));
                s'.timers == armed.timers && s'.usedTimers == armed.usedTimers
            case Register(ok) =>
              s'.timers == (if ok then s.timers else DropTimer(s, act.timer).timers) && s'.usedTimers == s.usedTimers
            case Resume(_) => s'.timers == DropTimer(s, act.timer).timers && s'.usedTimers == s.usedTimers
            case _ => s'.timers == s.timers && s'.usedTimers == s.usedTimers
  {
    hide DoSide;
    hide SideEnabled;
    hide E.AddEvent;
    hide E.RemoveEvent;
    hide E.CancelAll;
    hide E.Woken;
    hide Push;
    hide EventsOf;
    hide Insert;
    hide Cancel;
  }

  lemma SideActs(s: Rt, w: nat, a: Action)
    requires ActEnabled(s, w, a) && |s.table.fds| >= 2 && SideEnabled(s, a)
    ensures DoAct(s, w, a) == DoSide(s, a)
  {
    hide DoSide;
  }

  lemma ArmLeaves(s: Rt, timer: nat, ms: nat, cb: Cb, id: nat)
    requires timer !in s.usedTimers && id in s.usedTimers
    ensures var s' := ArmTimer(s, timer, ms, false, cb);
            && id in s'.usedTimers && (id in s'.timers.live <==> id in s.timers.live)
            && (id in s.timers.live ==> s'.timers.live[id] == s.timers.live[id])
  {
    hide First;
  }

  lemma ActionLeaves(s: Rt, w: nat, a: Action, id: nat)
    requires ActEnabled(s, w, a) && |s.table.fds| >= 2 && id in s.usedTimers
    requires TimersOk(s.timers.live, s.usedTimers, s.fibers)
    requires id in s.timers.live ==> !s.timers.live[id].cb.UserCb?
    ensures id in DoAct(s, w, a).usedTimers
    ensures id !in s.timers.live ==> id !in DoAct(s, w, a).timers.live
    ensures id in s.timers.live ==> LeftAlone(s, RunFiber(w, a), id, DoAct(s, w, a))
  {
    if SideEnabled(s, a) {
      SideLeaves(s, a, id);
      SideActs(s, w, a);
    } else {
      OwnTimers(s, w, a);
      assert TimerHeldOk(s.timers.live, s.usedTimers, MyAct(s, w));
      match a
      case SleepFor(ms, timer) => ArmLeaves(s, timer, ms, WakeSleeper(Me(s, w)), id);
      case ArmTimeout(timer) =>
        var call := MyAct(s, w).call;
        var c := s.calls[call];
        if c.timeout.Some? {
          ArmLeaves(s, timer, c.timeout.value, TimeUp(call, c.fd, c.ev), id);
        }
      case _ =>
    }
    hide DoAct;
    hide DoSide;
    hide SideEnabled;
    hide TimersOk;
    hide ArmTimer;
  }

  lemma ExpiryLeaves(s: Rt, step: Step, id: nat)
    requires Enabled(s, step) && step.Expiring? && id in s.usedTimers
    requires id in s.timers.live ==> !s.timers.live[id].recurring
    ensures id in Do(s, step).usedTimers
    ensures id !in s.timers.live ==> id !in Do(s, step).timers.live
    ensures id in s.timers.live ==> LeftAlone(s, step, id, Do(s, step))
  {
    hide DueJobs;
    hide Push;
    hide RolledBack;
  }

  lemma OtherStepLeaves(s: Rt, step: Step)
    requires Enabled(s, step) && !step.RunFiber? && !step.Outside? && !step.Expiring?
    ensures Do(s, step).timers.live == s.timers.live && Do(s, step).usedTimers == s.usedTimers
  {
    hide E.Dispatch;
    hide E.Woken;
    hide Push;
    hide Busy;
  }

  lemma OtherStepLeavesAlone(s: Rt, step: Step, id: nat)
    requires Enabled(s, step) && !step.RunFiber? && !step.Outside? && !step.Expiring? && id in s.usedTimers
    ensures id in Do(s, step).usedTimers
    ensures id !in s.timers.live ==> id !in Do(s, step).timers.live
    ensures id in s.timers.live ==> LeftAlone(s, step, id, Do(s, step))
  {
    OtherStepLeaves(s, step);
    hide Do;
    hide Enabled;
  }

  lemma AnyTimersOk(s: Rt)
    requires Inv(s)
    ensures TimersOk(s.timers.live, s.usedTimers, s.fibers)
    ensures forall id :: id in s.timers.live && !s.timers.live[id].cb.UserCb? ==> !s.timers.live[id].recurring
  {}

  lemma StepLeaves(s: Rt, step: Step, id: nat)
    requires Inv(s) && Enabled(s, step) && id in s.usedTimers
    requires id in s.timers.live ==> !s.timers.live[id].cb.UserCb?
    ensures id in Do(s, step).usedTimers
    ensures id !in s.timers.live ==> id !in Do(s, step).timers.live
    ensures id in s.timers.live ==> LeftAlone(s, step, id, Do(s, step))
  {
    AnyTimersOk(s);
    hide *;
    match step
    case RunFiber(w, a) =>
      RunIs(s, w, a);
      ActionLeaves(s, w, a, id);
    case Outside(a) =>
      OutsideIs(s, a);
      SideLeavesAlone(s, a, id);
    case Expiring(_, _, _) => ExpiryLeaves(s, step, id);
    case _ => OtherStepLeavesAlone(s, step, id);
  }

  // ---------------------------------------------------------------- the sleeper

  /** Suspended in a sleep, or just about to be. */
  predicate Resting(fibers: map<nat, Fib>, f: nat) {
    f in fibers && fibers[f] in {Fib(EXEC, SleepArmed), Fib(HOLD, User)}
  }

  lemma OneOfFour(q: multiset<nat>, e: multiset<nat>, t: multiset<nat>, w: multiset<nat>, f: nat)
    requires t[f] >= 1 && (q + e + t + w)[f] <= 1
    ensures q[f] == 0 && e[f] == 0 && w[f] == 0
  {}

  /** While its timer stands armed, nothing else will wake the sleeper. */
  lemma NothingElseWakes(s: Rt, timer: nat, f: nat)
    requires Inv(s) && timer in s.timers.live && s.timers.live[timer].cb == WakeSleeper(f)
    ensures Sum(s.queue, EntryTok)[f] == 0 && Sum(s.table.fds, EventsTok)[f] == 0 && Sum(s.workers, WorkerTok)[f] == 0
  {
    SumMapTake(s.timers.live, timer, TimerTok);
    assert TimerTok(s.timers.live[timer]) == multiset{f};
    assert Tokens(s)[f] == Expect(s.fibers, f) <= 1;
    hide Inv;
    hide Sum;
    hide SumMap;
    hide TimerTok;
    OneOfFour(Sum(s.queue, EntryTok), Sum(s.table.fds, EventsTok), SumMap(s.timers.live, TimerTok),
              Sum(s.workers, WorkerTok), f);
  }

  lemma SideFibers(s: Rt, a: Action, f: nat)
    requires SideEnabled(s, a) && |s.table.fds| >= 2 && f in s.fibers
    ensures f in DoSide(s, a).fibers && DoSide(s, a).fibers[f] == s.fibers[f]
  {
    hide E.AddEvent;
    hide E.RemoveEvent;
    hide E.CancelAll;
    hide E.Woken;
    hide Push;
    hide EventsOf;
    hide Insert;
    hide Cancel;
    hide Reset;
    hide Refresh;
  }

  lemma OtherFibers(s: Rt, w: nat, a: Action, f: nat)
    requires ActEnabled(s, w, a) && |s.table.fds| >= 2 && f in s.fibers && Me(s, w) != f
    ensures f in DoAct(s, w, a).fibers && DoAct(s, w, a).fibers[f] == s.fibers[f]
  {
    if SideEnabled(s, a) {
      SideFibers(s, a, f);
    }
    hide DoSide;
    hide SideEnabled;
    hide E.AddEvent;
    hide E.RemoveEvent;
    hide E.CancelAll;
    hide E.Woken;
    hide Push;
    hide EventsOf;
    hide Insert;
    hide Cancel;
  }

  /** A fiber that has armed its wake-up does nothing but suspend. */
  lemma OnlySuspends(s: Rt, w: nat, a: Action)
    requires ActEnabled(s, w, a) && |s.table.fds| >= 2 && s.workers[w].pc.body == Code && MyAct(s, w) == SleepArmed
    ensures a == Suspend && DoAct(s, w, a).fibers == s.fibers[Me(s, w) := Fib(HOLD, User)]
  {}

  lemma ActionRests(s: Rt, w: nat, a: Action, f: nat)
    requires ActEnabled(s, w, a) && |s.table.fds| >= 2 && PcOk(s.fibers, s.workers[w]) && Resting(s.fibers, f)
    ensures Resting(DoAct(s, w, a).fibers, f)
    ensures Me(s, w) == f ==> a == Suspend
  {
    if Me(s, w) == f {
      OnlySuspends(s, w, a);
    } else {
      OtherFibers(s, w, a, f);
    }
    hide DoAct;
    hide ActEnabled;
  }

  lemma BeginRests(s: Rt, w: nat, spare: nat, f: nat)
    requires Enabled(s, Begin(w, spare)) && Resting(s.fibers, f)
    requires WorkersOk(s.workers, s.fibers) && WorkerTok(s.workers[w])[f] == 0
    ensures Resting(DoBegin(s, w, spare).fibers, f)
  {
    assert PocketOk(s.fibers, s.workers[w]);
  }

  lemma SideRests(s: Rt, a: Action, f: nat)
    requires SideEnabled(s, a) && |s.table.fds| >= 2 && Resting(s.fibers, f)
    ensures Resting(DoSide(s, a).fibers, f)
  {
    SideFibers(s, a, f);
    hide DoSide;
    hide SideEnabled;
  }

  lemma OtherStepRests(s: Rt, step: Step)
    requires Enabled(s, step) && !step.RunFiber? && !step.Outside? && !step.Begin?
    ensures Do(s, step).fibers == s.fibers
  {
    hide E.Dispatch;
    hide E.Woken;
    hide Push;
    hide Busy;
    hide Expire;
    hide IsDueOrder;
    hide DueJobs;
  }

  lemma NotInHand(s: Rt, timer: nat, f: nat, w: nat)
    requires Inv(s) && timer in s.timers.live && s.timers.live[timer].cb == WakeSleeper(f) && w < |s.workers|
    ensures WorkersOk(s.workers, s.fibers) && PcOk(s.fibers, s.workers[w]) && WorkerTok(s.workers[w])[f] == 0
  {
    NothingElseWakes(s, timer, f);
    SumMember(s.workers, w, WorkerTok);
    WorkerAt(s.workers, s.fibers, w);
    hide Sum;
    hide WorkerTok;
    hide PcOk;
    hide Tokens;
  }

  lemma StepRests(s: Rt, step: Step, timer: nat, f: nat)
    requires Inv(s) && Enabled(s, step) && Resting(s.fibers, f)
    requires timer in s.timers.live && s.timers.live[timer].cb == WakeSleeper(f)
    ensures Resting(Do(s, step).fibers, f)
    ensures step.RunFiber? && Runs(s, step.w) && Me(s, step.w) == f ==> step.action == Suspend
  {
    hide *;
    match step
    case RunFiber(w, a) =>
      RunIs(s, w, a);
      NotInHand(s, timer, f, w);
      ActionRests(s, w, a, f);
    case Outside(a) =>
      OutsideIs(s, a);
      SideRests(s, a, f);
    case Begin(w, spare) =>
      BeginIs(s, w, spare);
      NotInHand(s, timer, f, w);
      BeginRests(s, w, spare, f);
    case _ => OtherStepRests(s, step);
  }

  // ---------------------------------------------------------------- over whole runs

  /** A fiber that asked at start to sleep for ms milliseconds. */
  datatype Sleep = Sleep(fiber: nat, timer: nat, start: nat, ms: nat)

  predicate FallsAsleep(s: Rt, step: Step) {
    step.RunFiber? && step.action.SleepFor? && Runs(s, step.w)
  }

  function SleepAt(s: Rt, step: Step): Sleep
    requires FallsAsleep(s, step)
  {
    Sleep(Me(s, step.w), step.action.timer, s.now, step.action.ms)
  }

  /** The wake-up stands armed for exactly the end of the sleep, and the fiber rests. */
  ghost predicate Asleep(s: Rt, z: Sleep) {
    && z.timer in s.timers.live
    && s.timers.live[z.timer] == Rec(z.ms, z.start + z.ms, false, WakeSleeper(z.fiber))
    && Resting(s.fibers, z.fiber)
  }

  /** The wake-up has gone off, at the end of the sleep or since, or because an expiry during the
      sleep took its reading of the clock for a rollback. */
  ghost predicate SleptOut(s: Rt, z: Sleep) {
    z.timer !in s.timers.live && (z.start + z.ms <= s.now || Spoiled(s.rollbacks, z.start, s.now))
  }

  /** One or the other, from when the sleep begins. */
  ghost predicate Follows(s: Rt, z: Sleep) {
    z.start <= s.now && z.timer in s.usedTimers && (Asleep(s, z) || SleptOut(s, z))
  }

  lemma RunsInExec(s: Rt, w: nat)
    requires Inv(s) && Runs(s, w)
    ensures s.fibers[Me(s, w)].state == EXEC
  {
    WorkerAt(s.workers, s.fibers, w);
    hide Tokens;
  }

  lemma SleepActs(s: Rt, w: nat, ms: nat, timer: nat)
    requires ActEnabled(s, w, SleepFor(ms, timer)) && |s.table.fds| >= 2
    ensures var f, s' := Me(s, w), DoAct(s, w, SleepFor(ms, timer));
            && s'.timers.live == s.timers.live[timer := Rec(ms, s.now + ms, false, WakeSleeper(f))]
            && timer in s'.usedTimers && s'.now == s.now
            && s'.fibers == s.fibers[f := s.fibers[f].(act := SleepArmed)]
  {
    hide First;
    hide DoSide;
    hide SideEnabled;
  }

  lemma SleepBegins(s: Rt, step: Step)
    requires Inv(s) && Enabled(s, step) && FallsAsleep(s, step)
    ensures Follows(Do(s, step), SleepAt(s, step)) && Asleep(Do(s, step), SleepAt(s, step))
  {
    hide Inv;
    hide Do;
    hide DoAct;
    hide Enabled;
    hide ActEnabled;
    var w, ms, timer := step.w, step.action.ms, step.action.timer;
    RunIs(s, w, SleepFor(ms, timer));
    SleepActs(s, w, ms, timer);
    RunsInExec(s, w);
  }

  lemma StepClock(s: Rt, step: Step)
    requires Enabled(s, step)
    ensures s.now <= Do(s, step).now && s.rollbacks <= Do(s, step).rollbacks
    ensures step.Expiring? ==> Do(s, step).now == s.now
  {
    if step.RunFiber? {
      ActionInOrder(s, step.w, step.action);
    } else if step.Outside? {
      SideOnly(s, step.action);
    }
    hide DoAct;
    hide DoSide;
    hide SideEnabled;
    hide ActEnabled;
    hide E.Dispatch;
    hide E.Woken;
    hide Push;
    hide IsDueOrder;
    hide DueJobs;
    hide Expire;
    hide Busy;
  }

  /** The fiber does anything but suspend. */
  predicate ActsOn(s: Rt, step: Step, fiber: nat) {
    step.RunFiber? && Runs(s, step.w) && Me(s, step.w) == fiber && step.action != Suspend
  }

  lemma LaterSpoiledToo(r: set<nat>, r': set<nat>, start: nat, at: nat, at': nat)
    requires r <= r' && at <= at'
    ensures Spoiled(r, start, at) ==> Spoiled(r', start, at')
  {}

  lemma StepSleeps(s: Rt, step: Step, z: Sleep)
    requires Inv(s) && Enabled(s, step) && Follows(s, z)
    ensures Follows(Do(s, step), z)
    ensures ActsOn(s, step, z.fiber) ==> SleptOut(s, z)
  {
    hide Inv;
    hide Do;
    hide Enabled;
    StepClock(s, step);
    StepLeaves(s, step, z.timer);
    if Asleep(s, z) {
      StepRests(s, step, z.timer, z.fiber);
    } else {
      LaterSpoiledToo(s.rollbacks, Do(s, step).rollbacks, z.start, s.now, Do(s, step).now);
    }
  }

  lemma {:induction false} FollowsOn(ss: seq<Rt>, steps: seq<Step>, n: nat, t0: nat, j: nat, k: nat, z: Sleep)
    requires IsRun(ss, steps, n, t0) && j <= k < |ss| && Follows(ss[j], z)
    ensures Follows(ss[k], z)
    decreases k
  {
    hide Follows;
    hide Inv;
    hide Do;
    hide Enabled;
    if j < k {
      FollowsOn(ss, steps, n, t0, j, k - 1, z);
      RunStep(ss, steps, n, t0, k - 1);
      EveryRunKeeps(ss, steps, n, t0, k - 1);
      StepSleeps(ss[k-1], steps[k-1], z);
    }
  }

  /** In every run, from the step on with which a fiber goes to sleep: its wake-up stands armed for
      exactly the end of the sleep while the fiber rests; it goes off only then, or after a reading
      taken for a rollback. */
  lemma EverySleep(ss: seq<Rt>, steps: seq<Step>, n: nat, t0: nat, i: nat, k: nat)
    requires IsRun(ss, steps, n, t0) && i < k < |ss| && FallsAsleep(ss[i], steps[i])
    ensures Follows(ss[k], SleepAt(ss[i], steps[i]))
  {
    hide Follows;
    hide Inv;
    hide Do;
    hide Enabled;
    RunStep(ss, steps, n, t0, i);
    EveryRunKeeps(ss, steps, n, t0, i);
    var z := SleepAt(ss[i], steps[i]);
    SleepBegins(ss[i], steps[i]);
    FollowsOn(ss, steps, n, t0, i + 1, k, z);
  }

  /** While the wake-up stands armed nothing else will wake the fiber, and when the fiber does
      anything but suspend, the wake-up has gone off. */
  lemma SleepsOn(ss: seq<Rt>, steps: seq<Step>, n: nat, t0: nat, i: nat, k: nat)
    requires IsRun(ss, steps, n, t0) && i < k < |ss| && FallsAsleep(ss[i], steps[i])
    ensures var s, z := ss[k], SleepAt(ss[i], steps[i]);
            && (Asleep(s, z) ==>
                  && Sum(s.queue, EntryTok)[z.fiber] == 0 && Sum(s.table.fds, EventsTok)[z.fiber] == 0
                  && Sum(s.workers, WorkerTok)[z.fiber] == 0)
            && (k < |steps| && ActsOn(s, steps[k], z.fiber) ==> SleptOut(s, z))
  {
    var s, z := ss[k], SleepAt(ss[i], steps[i]);
    EveryRunKeeps(ss, steps, n, t0, k);
    EverySleep(ss, steps, n, t0, i, k);
    hide Inv;
    hide Sum;
    if Asleep(s, z) {
      NothingElseWakes(s, z.timer, z.fiber);
    }
    if k < |steps| {
      RunStep(ss, steps, n, t0, k);
      hide *;
      StepSleeps(s, steps[k], z);
    }
  }

  // ---------------------------------------------------------------- with one worker and with more

  /** At the end of the run the fiber that fell asleep in step i still sleeps, or the time is over. */
  ghost predicate InTime(ss: seq<Rt>, steps: seq<Step>, i: nat)
    requires |ss| == |steps| + 1 && i < |steps|
  {
    FallsAsleep(ss[i], steps[i]) ==>
      var s, z := ss[|steps|], SleepAt(ss[i], steps[i]);
      Asleep(s, z) || z.start + z.ms <= s.now
  }

  /** In no run with n workers is a sleeper woken before its time. */
  ghost predicate NeverWokenEarly(n: nat, t0: nat) {
    forall ss: seq<Rt>, steps: seq<Step>, i: nat :: IsRun(ss, steps, n, t0) && i < |steps| ==> InTime(ss, steps, i)
  }

  lemma OneWorkerSleepsOn(t0: nat)
    ensures NeverWokenEarly(1, t0)
  {
    forall ss: seq<Rt>, steps: seq<Step>, i: nat | IsRun(ss, steps, 1, t0) && i < |steps|
      ensures InTime(ss, steps, i)
    {
      RunInOrder(ss, steps, t0, |steps|);
      hide IsRun;
      if FallsAsleep(ss[i], steps[i]) {
        EverySleep(ss, steps, 1, t0, i, |steps|);
      }
      hide Asleep;
      hide FallsAsleep;
    }
  }

  /** Fell asleep in step i, and this is where the run ends. */
  ghost predicate SleepRun(ss: seq<Rt>, steps: seq<Step>, n: nat, t0: nat, i: nat, z: Sleep, s: Rt) {
    && IsRun(ss, steps, n, t0) && i < |steps| && ss[|steps|] == s
    && FallsAsleep(ss[i], steps[i]) && SleepAt(ss[i], steps[i]) == z
  }

  ghost predicate SleptIn(n: nat, t0: nat, s: Rt, z: Sleep) {
    exists ss, steps, i :: SleepRun(ss, steps, n, t0, i, z, s)
  }

  lemma RunsOn(ss: seq<Rt>, steps: seq<Step>, n: nat, t0: nat, step: Step)
    requires IsRun(ss, steps, n, t0) && Enabled(ss[|steps|], step)
    ensures IsRun(ss + [Do(ss[|steps|], step)], steps + [step], n, t0)
  {
    hide Enabled;
    hide Do;
  }

  lemma LiesDown(n: nat, t0: nat, s: Rt, step: Step)
    requires ReachableBy(n, t0, s, true) && Enabled(s, step) && FallsAsleep(s, step)
    ensures SleptIn(n, t0, Do(s, step), SleepAt(s, step))
  {
    var ss: seq<Rt>, steps: seq<Step> :| IsRun(ss, steps, n, t0) && ss[|steps|] == s;
    RunsOn(ss, steps, n, t0, step);
    hide IsRun;
    hide Enabled;
    hide Do;
    hide FallsAsleep;
    assert SleepRun(ss + [Do(s, step)], steps + [step], n, t0, |steps|, SleepAt(s, step), Do(s, step));
  }

  lemma SleepGoesOn(n: nat, t0: nat, s: Rt, step: Step, z: Sleep)
    requires SleptIn(n, t0, s, z) && Enabled(s, step)
    ensures SleptIn(n, t0, Do(s, step), z)
  {
    var ss: seq<Rt>, steps: seq<Step>, i: nat :| SleepRun(ss, steps, n, t0, i, z, s);
    RunsOn(ss, steps, n, t0, step);
    hide IsRun;
    hide Enabled;
    hide Do;
    hide FallsAsleep;
    assert SleepRun(ss + [Do(s, step)], steps + [step], n, t0, i, z, Do(s, step));
  }

  lemma PlaysOn(n: nat, t0: nat, c: Scene, step: Step, c': Scene, z: Sleep)
    requires n >= 2 && SleptIn(n, t0, Shown(n, t0, c), z) && Leads(n, t0, c, step, c')
    ensures SleptIn(n, t0, Shown(n, t0, c'), z)
  {
    hide SleptIn;
    hide Shown;
    hide Enabled;
    hide Do;
    SleepGoesOn(n, t0, Shown(n, t0, c), step, z);
  }

  // ---------------------------------------------------------------- the run

  function Alarm(t0: nat, tickled: bool, previous: nat): Timers<Cb> {
    Timers(map[0 := Rec(1, At1(t0) + 1, false, WakeSleeper(0))], tickled, previous)
  }

  /** Fiber 0 sleeps for a millisecond. */
  function Abed(t0: nat, fib: Fib, w0: Worker, timers: Timers<Cb>): Scene {
    Opening(t0).(fibers := map[0 := fib], queue := [], timers := timers, w0 := w0,
                 active := if fib.state == EXEC then 1 else 0)
  }

  lemma LiesDownHere(n: nat, t0: nat)
    requires n >= 2
    ensures var c, step := Onstage(t0, User, false, Unarmed(t0), None), RunFiber(0, SleepFor(1, 0));
            && Leads(n, t0, c, step, Abed(t0, Fib(EXEC, SleepArmed), Runs0(0, Code, None), Alarm(t0, true, t0)))
            && FallsAsleep(Shown(n, t0, c), step) && SleepAt(Shown(n, t0, c), step) == Sleep(0, 0, At1(t0), 1)
  {
    assert First(Alarm(t0, true, t0).live, 0);
    assert 0 in Alarm(t0, true, t0).live;
    hide Crew;
    hide First;
    hide E.Blank;
    hide DoSide;
    hide SideEnabled;
  }

  lemma FallsSilent(n: nat, t0: nat)
    requires n >= 2
    ensures Leads(n, t0, Abed(t0, Fib(EXEC, SleepArmed), Runs0(0, Code, None), Alarm(t0, true, t0)),
                  RunFiber(0, Suspend), Abed(t0, Fib(HOLD, User), IDLE, Alarm(t0, true, t0)))
  {
    CrewMoves(n, Runs0(0, Code, None), Waits(t0), IDLE);
    hide E.Blank;
    hide DoSide;
    hide SideEnabled;
  }

  lemma LooksForWork(n: nat, t0: nat)
    requires n >= 2
    ensures var asleep := Fib(HOLD, User);
            Leads(n, t0, Abed(t0, asleep, IDLE, Alarm(t0, true, t0)), FindNothing(0),
                  Abed(t0, asleep, IDLE.(pc := Check), Alarm(t0, true, t0)))
  {
    CrewMoves(n, IDLE, Waits(t0), IDLE.(pc := Check));
  }

  lemma ReadsClock(n: nat, t0: nat)
    requires n >= 2
    ensures var asleep := Fib(HOLD, User);
            Leads(n, t0, Abed(t0, asleep, IDLE.(pc := Check), Alarm(t0, true, t0)), ReadTimers(0),
                  Abed(t0, asleep, Waits(At1(t0)), Alarm(t0, false, t0)))
  {
    assert 0 in Alarm(t0, true, t0).live && 0 in Alarm(t0, false, t0).live;
    CrewMoves(n, IDLE.(pc := Check), Waits(t0), Waits(At1(t0)));
  }

  lemma AlarmStays(t0: nat)
    ensures IsDueOrder(Alarm(t0, false, t0), At1(t0), [])
    ensures Expire(Alarm(t0, false, t0), At1(t0)) == Alarm(t0, false, At1(t0)) && !RolledBack(t0, At1(t0))
  {
    var live := Alarm(t0, false, t0).live;
    assert 0 in live && !Due(live[0], false, At1(t0));
    assert AfterExpiry(live, false, At1(t0)) == live;
  }

  lemma GetsAhead(n: nat, t0: nat)
    requires n >= 2
    ensures var asleep := Fib(HOLD, User);
            Leads(n, t0, Abed(t0, asleep, Waits(At1(t0)), Alarm(t0, false, t0)), Expiring(0, [], At1(t0)),
                  Abed(t0, asleep, IDLE.(pc := Dispatching), Alarm(t0, false, At1(t0))))
  {
    var asleep := Fib(HOLD, User);
    AlarmStays(t0);
    assert 0 in Alarm(t0, false, t0).live;
    NothingPushed(Shown(n, t0, Abed(t0, asleep, Waits(At1(t0)), Alarm(t0, false, t0))));
    CrewMoves(n, Waits(At1(t0)), Waits(t0), IDLE.(pc := Dispatching));
    hide Expire;
    hide IsDueOrder;
    hide RolledBack;
    hide Push;
    hide Crew;
  }

  lemma LooksAgain(n: nat, t0: nat)
    requires n >= 2
    ensures var asleep := Fib(HOLD, User);
            Leads(n, t0, Abed(t0, asleep, IDLE.(pc := Dispatching), Alarm(t0, false, At1(t0))), EndIdle(0),
                  Abed(t0, asleep, IDLE, Alarm(t0, false, At1(t0))))
  {
    CrewMoves(n, IDLE.(pc := Dispatching), Waits(t0), IDLE);
  }

  /** Worker 1 has taken its reading for a rollback. */
  function Roused(t0: nat): Scene {
    Abed(t0, Fib(HOLD, User), IDLE, Unarmed(t0)).(queue := [Entry(CbTask(WakeSleeper(0)), None)],
                                                  w1 := IDLE.(pc := Dispatching), rollbacks := {At1(t0)})
  }

  lemma GoesOff(t0: nat)
    requires At1(t0) < TWO_TO_64
    ensures IsDueOrder(Alarm(t0, false, At1(t0)), t0, [0])
    ensures Expire(Alarm(t0, false, At1(t0)), t0) == Unarmed(t0) && RolledBack(At1(t0), t0)
  {
    RollbackMeaning(At1(t0), t0);
    assert RolledBack(At1(t0), t0);
    var t := Alarm(t0, false, At1(t0));
    assert 0 in t.live;
    assert AfterExpiry(t.live, true, t0) == map[];
  }

  lemma Rouses(n: nat, t0: nat)
    requires n >= 2 && At1(t0) < TWO_TO_64
    ensures Leads(n, t0, Abed(t0, Fib(HOLD, User), IDLE, Alarm(t0, false, At1(t0))), Expiring(1, [0], t0), Roused(t0))
  {
    GoesOff(t0);
    assert 0 in Alarm(t0, false, At1(t0)).live;
    CrewMoves(n, IDLE, Waits(t0), IDLE.(pc := Dispatching));
    hide Expire;
    hide IsDueOrder;
    hide RolledBack;
    hide Crew;
  }

  lemma GetsUp(n: nat, t0: nat)
    requires n >= 2
    ensures ReachableBy(n, t0, Shown(n, t0, Onstage(t0, User, false, Unarmed(t0), None)), true)
  {
    Opens(n, t0);
    Starts(n, t0);
    hide *;
    Plays(n, t0, Opening(t0), TakeTask(0, 0), Taking(t0));
    Plays(n, t0, Taking(t0), Begin(0, 1), Onstage(t0, User, false, Unarmed(t0), None));
  }

  /** With two or more workers: a sleep of a millisecond ends in the millisecond in which it began. */
  lemma WakesEarly(n: nat, t0: nat)
    requires n >= 2 && At1(t0) < TWO_TO_64
    ensures var s, z := Shown(n, t0, Roused(t0)), Sleep(0, 0, At1(t0), 1);
            SleptIn(n, t0, s, z) && !Asleep(s, z) && s.now < z.start + z.ms
  {
    GetsUp(n, t0);
    LiesDownHere(n, t0);
    FallsSilent(n, t0);
    LooksForWork(n, t0);
    ReadsClock(n, t0);
    GetsAhead(n, t0);
    LooksAgain(n, t0);
    Rouses(n, t0);
    var z := Sleep(0, 0, At1(t0), 1);
    assert !Asleep(Shown(n, t0, Roused(t0)), z) && Shown(n, t0, Roused(t0)).now == At1(t0);
    hide ReachableBy;
    hide Shown;
    hide Enabled;
    hide Do;
    var asleep, armed, unticked, over := Fib(HOLD, User), Alarm(t0, true, t0), Alarm(t0, false, t0),
        Alarm(t0, false, At1(t0));
    LiesDown(n, t0, Shown(n, t0, Onstage(t0, User, false, Unarmed(t0), None)), RunFiber(0, SleepFor(1, 0)));
    hide *;
    var awake := Abed(t0, Fib(EXEC, SleepArmed), Runs0(0, Code, None), armed);
    PlaysOn(n, t0, awake, RunFiber(0, Suspend), Abed(t0, asleep, IDLE, armed), z);
    PlaysOn(n, t0, Abed(t0, asleep, IDLE, armed), FindNothing(0), Abed(t0, asleep, IDLE.(pc := Check), armed), z);
    PlaysOn(n, t0, Abed(t0, asleep, IDLE.(pc := Check), armed), ReadTimers(0),
            Abed(t0, asleep, Waits(At1(t0)), unticked), z);
    PlaysOn(n, t0, Abed(t0, asleep, Waits(At1(t0)), unticked), Expiring(0, [], At1(t0)),
            Abed(t0, asleep, IDLE.(pc := Dispatching), over), z);
    PlaysOn(n, t0, Abed(t0, asleep, IDLE.(pc := Dispatching), over), EndIdle(0), Abed(t0, asleep, IDLE, over), z);
    PlaysOn(n, t0, Abed(t0, asleep, IDLE, over), Expiring(1, [0], t0), Roused(t0), z);
  }

  /** No sleeper is ever woken early exactly with a single worker - as long as the clock can still
      advance by an hour. */
  lemma NeverWokenEarlyExactly(n: nat, t0: nat)
    requires n >= 1 && At1(t0) < TWO_TO_64
    ensures NeverWokenEarly(n, t0) <==> n == 1
  {
    if n == 1 {
      OneWorkerSleepsOn(t0);
    } else {
      WakesEarly(n, t0);
      var s, z := Shown(n, t0, Roused(t0)), Sleep(0, 0, At1(t0), 1);
      var ss: seq<Rt>, steps: seq<Step>, i: nat :| SleepRun(ss, steps, n, t0, i, z, s);
      hide IsRun;
      hide FallsAsleep;
      assert !InTime(ss, steps, i);
    }
  }
}
