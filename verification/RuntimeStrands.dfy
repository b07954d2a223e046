/**
 With two or more workers a run can end with a fiber suspended for good. A worker that
 yields gives up its place in the active count before the fiber is queued again, and stopping
 reads the timers, the counter and the queue at three different moments; so two workers can
 each believe that the other has left nothing behind.
 */
module RuntimeStrands {
  import opened Wrappers
  import opened Scheduling
  import opened TimerSpec
  import opened Runtime
  import opened RuntimeQuiescence

  /** By a run in which, unless late, nobody outside arms a timer while a worker looks. */
  ghost predicate ReachableBy(n: nat, t0: nat, s: Rt, late: bool) {
    exists ss, steps :: IsRun(ss, steps, n, t0) && (late || IsPrompt(ss, steps)) && ss[|steps|] == s
  }

  ghost predicate Reachable(n: nat, t0: nat, s: Rt) {
    ReachableBy(n, t0, s, false)
  }

  lemma Goes(n: nat, t0: nat, s: Rt, step: Step, late: bool)
    requires ReachableBy(n, t0, s, late) && Enabled(s, step) && (late || !IsLate(s, step))
    ensures ReachableBy(n, t0, Do(s, step), late)
  {
    hide Enabled;
    hide Do;
    hide IsLate;
    var ss, steps :| IsRun(ss, steps, n, t0) && (late || IsPrompt(ss, steps)) && ss[|steps|] == s;
    var ss', steps' := ss + [Do(s, step)], steps + [step];
    assert IsRun(ss', steps', n, t0);
    assert late || IsPrompt(ss', steps');
    assert ss'[|steps'|] == Do(s, step);
  }

  lemma Reaches(n: nat, t0: nat, s: Rt, step: Step)
    requires Reachable(n, t0, s) && Enabled(s, step) && (step.Outside? ==> !step.action.AddUserTimer?)
    ensures Reachable(n, t0, Do(s, step))
  {
    hide Enabled;
    hide Do;
    Goes(n, t0, s, step, false);
  }

  lemma Loosen(n: nat, t0: nat, s: Rt)
    requires Reachable(n, t0, s)
    ensures ReachableBy(n, t0, s, true)
  {
    var ss, steps :| IsRun(ss, steps, n, t0) && IsPrompt(ss, steps) && ss[|steps|] == s;
    hide IsRun;
    hide IsPrompt;
  }

  lemma StartReachable(n: nat, t0: nat)
    ensures Reachable(n, t0, Init(n, t0))
  {
    var ss, steps := [Init(n, t0)], [];
    assert IsRun(ss, steps, n, t0) && IsPrompt(ss, steps) && ss[|steps|] == Init(n, t0);
  }

  /** Nothing is queued, armed or registered. */
  predicate Bare(s: Rt) {
    s.queue == [] && s.timers.live == map[] && !s.timers.tickled && s.table.pending == 0
  }

  function With(s: Rt, w: nat, pc: Pc, idleDone: bool): Rt
    requires w < |s.workers|
  {
    s.(workers := s.workers[w := Worker(pc, idleDone, None)])
  }

  /** A worker finds nothing to do and gets as far as the last of the three reads. */
  lemma LooksAround(n: nat, t0: nat, s: Rt, w: nat)
    requires Reachable(n, t0, s) && Bare(s) && w < |s.workers| && s.workers[w] == Worker(Fetch, false, None)
    ensures Reachable(n, t0, With(s, w, SawNoneHeld, false))
  {
    hide Reachable;
    Reaches(n, t0, s, FindNothing(w));
    var s1 := With(s, w, Check, false);
    assert Do(s, FindNothing(w)) == s1;
    Reaches(n, t0, s1, ReadTimers(w));
    var s2 := With(s, w, SawNoTimers, false);
    assert Do(s1, ReadTimers(w)) == s2;
    Reaches(n, t0, s2, ReadPending(w));
    assert Do(s2, ReadPending(w)) == With(s, w, SawNoneHeld, false);
  }

  /** The last read: stopped, nothing queued, nobody active. */
  lemma GivesUp(n: nat, t0: nat, s: Rt, w: nat)
    requires Reachable(n, t0, s) && s.stop && s.queue == [] && s.active == 0
    requires w < |s.workers| && s.workers[w] == Worker(SawNoneHeld, false, None)
    ensures Reachable(n, t0, With(s, w, Fetch, true))
  {
    hide Reachable;
    Reaches(n, t0, s, ReadQueue(w));
    assert Do(s, ReadQueue(w)) == With(s, w, Fetch, true);
  }

  lemma Leaves(n: nat, t0: nat, s: Rt, w: nat)
    requires Reachable(n, t0, s) && s.queue == []
    requires w < |s.workers| && s.workers[w] == Worker(Fetch, true, None)
    ensures Reachable(n, t0, With(s, w, Exited, true))
  {
    hide Reachable;
    Reaches(n, t0, s, FindNothing(w));
    assert Do(s, FindNothing(w)) == With(s, w, Exited, true);
  }

  /** Worker 0, worker 1 and the others, who all do alike. */
  function Crew(n: nat, w0: Worker, w1: Worker, others: Worker, done: nat, then_: Worker): seq<Worker>
    requires n >= 2
  {
    seq(n, i requires 0 <= i < n => if i == 0 then w0 else if i == 1 then w1 else if i < done then then_ else others)
  }

  lemma AllLookAround(n: nat, t0: nat, s: Rt, done: nat)
    requires n >= 2 && 2 <= done <= n && Reachable(n, t0, s) && Bare(s)
    requires var idle := Worker(Fetch, false, None);
             s.workers == Crew(n, idle, idle, idle, 2, idle)
    ensures var idle, saw := Worker(Fetch, false, None), Worker(SawNoneHeld, false, None);
            Reachable(n, t0, s.(workers := Crew(n, idle, idle, idle, done, saw)))
  {
    var idle, saw := Worker(Fetch, false, None), Worker(SawNoneHeld, false, None);
    hide Reachable;
    if done == 2 {
      assert s.workers == Crew(n, idle, idle, idle, 2, saw);
    } else {
      AllLookAround(n, t0, s, done - 1);
      var s1 := s.(workers := Crew(n, idle, idle, idle, done - 1, saw));
      LooksAround(n, t0, s1, done - 1);
      assert With(s1, done - 1, SawNoneHeld, false).workers == Crew(n, idle, idle, idle, done, saw);
    }
  }

  lemma AllLeave(n: nat, t0: nat, s: Rt, w0: Worker, w1: Worker, done: nat)
    requires n >= 2 && 2 <= done <= n && Reachable(n, t0, s) && s.stop && s.queue == [] && s.active == 0
    requires var saw := Worker(SawNoneHeld, false, None); s.workers == Crew(n, w0, w1, saw, 2, saw)
    ensures var saw, gone := Worker(SawNoneHeld, false, None), Worker(Exited, true, None);
            Reachable(n, t0, s.(workers := Crew(n, w0, w1, saw, done, gone)))
  {
    var saw, gone := Worker(SawNoneHeld, false, None), Worker(Exited, true, None);
    hide Reachable;
    if done == 2 {
      assert s.workers == Crew(n, w0, w1, saw, 2, gone);
    } else {
      AllLeave(n, t0, s, w0, w1, done - 1);
      var s1 := s.(workers := Crew(n, w0, w1, saw, done - 1, gone));
      GivesUp(n, t0, s1, done - 1);
      var s2 := With(s1, done - 1, Fetch, true);
      Leaves(n, t0, s2, done - 1);
      assert With(s2, done - 1, Exited, true).workers == Crew(n, w0, w1, saw, done, gone);
    }
  }

  // ---------------------------------------------------------------- the run

  /** A state of the run: fiber 0, what is queued, the armed timer 0 if any, and two workers. */
  function At(n: nat, t0: nat, fiber: Option<Fib>, queued: bool, armed: bool, w0: Worker, w1: Worker, others: Worker,
              active: int, stop: bool): Rt
    requires n >= 2
  {
    Rt(if fiber.Some? then map[0 := fiber.value] else map[],
       if queued then [Entry(FiberTask(0), None)] else [],
       Init(n, t0).table,
       Timers(if armed then map[0 := Rec(0, t0, false, WakeSleeper(0))] else map[], armed, t0),
       if armed then {0} else {}, map[], {}, Crew(n, w0, w1, others, 2, others), active, stop, t0, [], {})
  }

  const IDLE := Worker(Fetch, false, None)
  const SAW := Worker(SawNoneHeld, false, None)
  const ENDED := Worker(Fetch, true, None)
  const GONE := Worker(Exited, true, None)
  const YIELDING := Worker(Requeue(0), false, None)
  /** Its idle fiber has ended, and it runs fiber 0 all the same. */
  const STOLEN := Worker(Running(0, false, Code), true, None)

  lemma EveryoneLooks(n: nat, t0: nat)
    requires n >= 2
    ensures Reachable(n, t0, At(n, t0, None, false, false, SAW, IDLE, SAW, 0, false))
  {
    hide Reachable;
    StartReachable(n, t0);
    var s := Init(n, t0);
    assert s.workers == Crew(n, IDLE, IDLE, IDLE, 2, IDLE);
    AllLookAround(n, t0, s, n);
    var s1 := s.(workers := Crew(n, IDLE, IDLE, IDLE, n, SAW));
    LooksAround(n, t0, s1, 0);
    assert With(s1, 0, SawNoneHeld, false) == At(n, t0, None, false, false, SAW, IDLE, SAW, 0, false);
  }

  lemma Queued(n: nat, t0: nat)
    requires n >= 2
    ensures Reachable(n, t0, At(n, t0, Some(Fib(INIT, User)), true, false, SAW, IDLE, SAW, 0, true))
  {
    hide Reachable;
    EveryoneLooks(n, t0);
    var s := At(n, t0, None, false, false, SAW, IDLE, SAW, 0, false);
    Reaches(n, t0, s, Outside(SpawnFiber(0)));
    var s1 := At(n, t0, Some(Fib(INIT, User)), true, false, SAW, IDLE, SAW, 0, false);
    assert Do(s, Outside(SpawnFiber(0))) == s1;
    Reaches(n, t0, s1, Stop);
    assert Do(s1, Stop) == At(n, t0, Some(Fib(INIT, User)), true, false, SAW, IDLE, SAW, 0, true);
  }

  lemma Begins(n: nat, t0: nat, fib: Fib, s: Rt, w: nat)
    requires fib.state in {INIT, READY} && s.fibers == map[0 := fib] && w < |s.workers|
    requires s.workers[w].pc == Taken(FiberTask(0))
    requires Reachable(n, t0, s)
    ensures Enabled(s, Begin(w, 1)) && Reachable(n, t0, Do(s, Begin(w, 1)))
  {
    hide Reachable;
    Reaches(n, t0, s, Begin(w, 1));
  }

  /** Fiber 0 with worker w, which is now wk. */
  function With0(n: nat, t0: nat, fib: Fib, w0: Worker, w1: Worker, others: Worker, w: nat, wk: Worker): Rt
    requires n >= 2
  {
    At(n, t0, Some(fib), false, false, if w == 0 then wk else w0, if w == 1 then wk else w1, others, 1, true)
  }

  /** A worker takes the queued fiber and swaps it in. */
  lemma SwapsIn(n: nat, t0: nat, fib: Fib, w0: Worker, w1: Worker, others: Worker, w: nat)
    requires n >= 2 && w < 2 && fib.state in {INIT, READY} && fib.act == User
    requires (if w == 0 then w0 else w1).pc == Fetch
    requires Reachable(n, t0, At(n, t0, Some(fib), true, false, w0, w1, others, 0, true))
    ensures var run := (if w == 0 then w0 else w1).(pc := Running(0, false, Code));
            Reachable(n, t0, With0(n, t0, Fib(EXEC, User), w0, w1, others, w, run))
  {
    hide Reachable;
    var wk := if w == 0 then w0 else w1;
    var s := At(n, t0, Some(fib), true, false, w0, w1, others, 0, true);
    assert 0 !in Busy(s) && s.workers[w] == wk;
    Reaches(n, t0, s, TakeTask(w, 0));
    var s1 := With0(n, t0, fib, w0, w1, others, w, wk.(pc := Taken(FiberTask(0))));
    assert Do(s, TakeTask(w, 0)) == s1;
    Begins(n, t0, fib, s1, w);
    var run := wk.(pc := Running(0, false, Code));
    assert Do(s1, Begin(w, 1)) == With0(n, t0, Fib(EXEC, User), w0, w1, others, w, run);
  }

  /** Worker 1 runs the fiber, which yields: it is neither active nor queued now. */
  lemma Yields(n: nat, t0: nat)
    requires n >= 2
    ensures Reachable(n, t0, At(n, t0, Some(Fib(READY, User)), false, false, SAW, YIELDING, SAW, 0, true))
  {
    hide Reachable;
    Queued(n, t0);
    SwapsIn(n, t0, Fib(INIT, User), SAW, IDLE, SAW, 1);
    var s := At(n, t0, Some(Fib(EXEC, User)), false, false, SAW, Worker(Running(0, false, Code), false, None), SAW, 1,
        true);
    Reaches(n, t0, s, RunFiber(1, Yield));
    assert Do(s, RunFiber(1, Yield))
        == At(n, t0, Some(Fib(READY, User)), false, false, SAW, YIELDING, SAW, 0, true);
  }

  /** Everybody else believes that nothing is left. */
  lemma OthersGone(n: nat, t0: nat)
    requires n >= 2
    ensures Reachable(n, t0, At(n, t0, Some(Fib(READY, User)), false, false, ENDED, YIELDING, GONE, 0, true))
  {
    hide Reachable;
    Yields(n, t0);
    var s := At(n, t0, Some(Fib(READY, User)), false, false, SAW, YIELDING, SAW, 0, true);
    AllLeave(n, t0, s, SAW, YIELDING, n);
    var s1 := s.(workers := Crew(n, SAW, YIELDING, SAW, n, GONE));
    GivesUp(n, t0, s1, 0);
    assert With(s1, 0, Fetch, true) == At(n, t0, Some(Fib(READY, User)), false, false, ENDED, YIELDING, GONE, 0, true);
  }

  /** The fiber is queued after all, and worker 0, whose idle fiber has ended, takes it. */
  lemma TakenAgain(n: nat, t0: nat)
    requires n >= 2
    ensures Reachable(n, t0, At(n, t0, Some(Fib(EXEC, User)), false, false, STOLEN, IDLE, GONE, 1, true))
  {
    hide Reachable;
    OthersGone(n, t0);
    var s := At(n, t0, Some(Fib(READY, User)), false, false, ENDED, YIELDING, GONE, 0, true);
    Reaches(n, t0, s, QueueAgain(1));
    assert Do(s, QueueAgain(1)) == At(n, t0, Some(Fib(READY, User)), true, false, ENDED, IDLE, GONE, 0, true);
    SwapsIn(n, t0, Fib(READY, User), ENDED, IDLE, GONE, 0);
  }

  lemma Sleeps(n: nat, t0: nat, s: Rt)
    requires n >= 2 && Reachable(n, t0, s)
    requires s == At(n, t0, Some(Fib(EXEC, User)), false, false, STOLEN, SAW, GONE, 1, true)
    ensures Reachable(n, t0, At(n, t0, Some(Fib(EXEC, SleepArmed)), false, true, STOLEN, SAW, GONE, 1, true))
  {
    hide Reachable;
    Reaches(n, t0, s, RunFiber(0, SleepFor(0, 0)));
    assert First(map[0 := Rec(0, t0, false, WakeSleeper(0))], 0);
    assert Do(s, RunFiber(0, SleepFor(0, 0)))
        == At(n, t0, Some(Fib(EXEC, SleepArmed)), false, true, STOLEN, SAW, GONE, 1, true);
  }

  /** Worker 1 reads the timers and the counter just before the fiber goes to sleep. */
  lemma GoesToSleep(n: nat, t0: nat)
    requires n >= 2
    ensures Reachable(n, t0, At(n, t0, Some(Fib(HOLD, User)), false, true, ENDED, SAW, GONE, 0, true))
  {
    hide Reachable;
    TakenAgain(n, t0);
    var run := STOLEN;
    var s := At(n, t0, Some(Fib(EXEC, User)), false, false, run, IDLE, GONE, 1, true);
    LooksAround(n, t0, s, 1);
    var s1 := At(n, t0, Some(Fib(EXEC, User)), false, false, run, SAW, GONE, 1, true);
    assert With(s, 1, SawNoneHeld, false) == s1;
    Sleeps(n, t0, s1);
    var s2 := At(n, t0, Some(Fib(EXEC, SleepArmed)), false, true, run, SAW, GONE, 1, true);
    Reaches(n, t0, s2, RunFiber(0, Suspend));
    assert Do(s2, RunFiber(0, Suspend)) == At(n, t0, Some(Fib(HOLD, User)), false, true, ENDED, SAW, GONE, 0, true);
  }

  /** Both leave: all workers have left run, and the fiber sleeps for ever. */
  lemma Stranded(n: nat, t0: nat)
    requires n >= 2
    ensures Reachable(n, t0, At(n, t0, Some(Fib(HOLD, User)), false, true, GONE, GONE, GONE, 0, true))
  {
    hide Reachable;
    GoesToSleep(n, t0);
    var s := At(n, t0, Some(Fib(HOLD, User)), false, true, ENDED, SAW, GONE, 0, true);
    GivesUp(n, t0, s, 1);
    var s1 := At(n, t0, Some(Fib(HOLD, User)), false, true, ENDED, ENDED, GONE, 0, true);
    assert With(s, 1, Fetch, true) == s1;
    Leaves(n, t0, s1, 1);
    var s2 := At(n, t0, Some(Fib(HOLD, User)), false, true, ENDED, GONE, GONE, 0, true);
    assert With(s1, 1, Exited, true) == s2;
    Leaves(n, t0, s2, 0);
    assert With(s2, 0, Exited, true) == At(n, t0, Some(Fib(HOLD, User)), false, true, GONE, GONE, GONE, 0, true);
  }

  /** Shutdown leaves nothing suspended, in every run, exactly with a single worker. */
  lemma QuiescesWithOneWorker(n: nat, t0: nat)
    requires n >= 1
    ensures Quiesces(n, t0) <==> n == 1
  {
    if n == 1 {
      OneWorkerQuiesces(t0);
    } else {
      Stranded(n, t0);
      var s := At(n, t0, Some(Fib(HOLD, User)), false, true, GONE, GONE, GONE, 0, true);
      var ss, steps :| IsRun(ss, steps, n, t0) && ss[|steps|] == s;
      hide IsRun;
      assert AllExited(ss[|steps|]);
      assert 0 in s.fibers && !Quiet(s);
    }
  }

  // ---------------------------------------------------------------- timers left behind

  /** One worker: a state of the run in which the timer comes too late. */
  function Sole(t0: nat, wk: Worker, armed: bool, stop: bool): Rt {
    Init(1, t0).(workers := [wk], stop := stop,
                 timers := Timers(if armed then map[0 := Rec(0, t0, false, UserCb(0))] else map[], armed, t0),
                 usedTimers := if armed then {0} else {})
  }

  lemma SoleLooks(t0: nat)
    ensures ReachableBy(1, t0, Sole(t0, SAW, true, true), true)
  {
    hide Reachable;
    StartReachable(1, t0);
    var s := Init(1, t0);
    assert s.workers[0] == IDLE;
    LooksAround(1, t0, s, 0);
    var s1 := Sole(t0, SAW, false, false);
    assert With(s, 0, SawNoneHeld, false) == s1;
    Loosen(1, t0, s1);
    hide ReachableBy;
    var arm := Outside(AddUserTimer(0, 0, false, 0));
    Goes(1, t0, s1, arm, true);
    assert First(map[0 := Rec(0, t0, false, UserCb(0))], 0);
    assert Do(s1, arm) == Sole(t0, SAW, true, false);
    Goes(1, t0, Sole(t0, SAW, true, false), Stop, true);
    assert Do(Sole(t0, SAW, true, false), Stop) == Sole(t0, SAW, true, true);
  }

  /** The main thread arms a timer between the worker's reads and stops: it stays armed for ever. */
  lemma LeftArmed(t0: nat)
    ensures ReachableBy(1, t0, Sole(t0, GONE, true, true), true)
  {
    hide ReachableBy;
    SoleLooks(t0);
    var s := Sole(t0, SAW, true, true);
    Goes(1, t0, s, ReadQueue(0), true);
    assert Do(s, ReadQueue(0)) == Sole(t0, ENDED, true, true);
    Goes(1, t0, Sole(t0, ENDED, true, true), FindNothing(0), true);
    assert Do(Sole(t0, ENDED, true, true), FindNothing(0)) == Sole(t0, GONE, true, true);
  }

  lemma Untidy(n: nat, t0: nat, late: bool, s: Rt)
    requires ReachableBy(n, t0, s, late)
    requires AllExited(s) && 0 in s.timers.live
    ensures !Tidies(n, t0, late)
  {
    var ss, steps :| IsRun(ss, steps, n, t0) && (late || IsPrompt(ss, steps)) && ss[|steps|] == s;
    hide IsRun;
    hide IsPrompt;
    assert AllExited(ss[|steps|]) && !Tidy(ss[|steps|]);
  }

  /** Shutdown leaves no timer armed exactly with a single worker and nobody outside who arms one
      while the worker looks. */
  lemma TidiesExactly(n: nat, t0: nat, late: bool)
    requires n >= 1
    ensures Tidies(n, t0, late) <==> n == 1 && !late
  {
    if n > 1 {
      Stranded(n, t0);
      var s := At(n, t0, Some(Fib(HOLD, User)), false, true, GONE, GONE, GONE, 0, true);
      if late {
        Loosen(n, t0, s);
      }
      Untidy(n, t0, late, s);
    } else if late {
      LeftArmed(t0);
      Untidy(n, t0, late, Sole(t0, GONE, true, true));
    } else {
      OneWorkerTidies(t0);
    }
  }
}
