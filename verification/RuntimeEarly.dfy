/**
 With one worker the readings of the clock come in order, so ETIMEDOUT is never early. With two
 or more, a worker can read the clock, be overtaken by another for more than an hour, and take
 its own reading for a rollback: every timer fires at once, the time-out of a call that has just
 begun with it.
 */
module RuntimeEarly {
  import opened Wrappers
  import opened Scheduling
  import opened TimerSpec
  import opened Runtime
  import opened RuntimeActions
  import opened RuntimeRuns
  import opened RuntimeStrands
  import opened RuntimeTimeouts
  import E = EventTable

  // ---------------------------------------------------------------- one worker

  /** The worker has not begun to wait before the latest expiry's reading. */
  predicate InOrder(s: Rt) {
    && |s.workers| == 1 && s.rollbacks == {} && s.timers.previous <= s.now
    && (s.workers[0].pc.Waiting? ==> s.timers.previous <= s.workers[0].pc.since <= s.now)
  }

  lemma SidePrevious(s: Rt, a: Action)
    requires SideEnabled(s, a) && |s.table.fds| >= 2
    ensures DoSide(s, a).timers.previous == s.timers.previous
  {
    hide E.AddEvent;
    hide E.RemoveEvent;
    hide E.CancelAll;
    hide E.Woken;
    hide Push;
    hide EventsOf;
    hide First;
  }

  lemma ActionInOrder(s: Rt, w: nat, a: Action)
    requires ActEnabled(s, w, a) && |s.table.fds| >= 2
    ensures var s' := DoAct(s, w, a);
            && s'.timers.previous == s.timers.previous && s'.rollbacks == s.rollbacks && s'.now == s.now
            && |s'.workers| == |s.workers| && !s'.workers[w].pc.Waiting?
  {
    if SideEnabled(s, a) {
      SideOnly(s, a);
      SidePrevious(s, a);
    }
    hide DoSide;
    hide SideEnabled;
    hide E.AddEvent;
    hide E.RemoveEvent;
    hide E.CancelAll;
    hide E.Woken;
    hide Push;
    hide EventsOf;
    hide First;
  }

  lemma StepInOrder(s: Rt, step: Step)
    requires InOrder(s) && Enabled(s, step)
    ensures InOrder(Do(s, step))
  {
    hide DoAct;
    hide DoSide;
    hide SideEnabled;
    hide ActEnabled;
    hide E.Dispatch;
    hide E.Woken;
    hide Push;
    hide IsDueOrder;
    hide DueJobs;
    hide AfterExpiry;
    hide Busy;
    match step
    case RunFiber(w, a) => ActionInOrder(s, w, a);
    case Outside(a) =>
      SideOnly(s, a);
      SidePrevious(s, a);
    case _ =>
  }

  lemma {:induction false} RunInOrder(ss: seq<Rt>, steps: seq<Step>, t0: nat, k: nat)
    requires IsRun(ss, steps, 1, t0) && k < |ss|
    ensures InOrder(ss[k])
  {
    if k > 0 {
      RunInOrder(ss, steps, t0, k - 1);
      RunStep(ss, steps, 1, t0, k - 1);
      hide *;
      StepInOrder(ss[k-1], steps[k-1]);
    }
  }

  /** In every run with n workers ETIMEDOUT is returned only after the configured time. */
  ghost predicate NeverEarly(n: nat, t0: nat) {
    forall ss: seq<Rt>, steps: seq<Step> :: IsRun(ss, steps, n, t0) ==> NoneEarly(ss[|steps|].timeouts)
  }

  lemma OneWorkerNeverEarly(t0: nat)
    ensures NeverEarly(1, t0)
  {
    forall ss: seq<Rt>, steps: seq<Step> | IsRun(ss, steps, 1, t0)
      ensures NoneEarly(ss[|steps|].timeouts)
    {
      RunInOrder(ss, steps, t0, |steps|);
      NoEarlyTimeout(ss, steps, 1, t0, |steps|);
      hide IsRun;
    }
  }

  // ---------------------------------------------------------------- two workers

  /** What changes in the run. call: whether the one call there is has been marked. */
  datatype Scene = Scene(
    fibers: map<nat, Fib>,
    queue: seq<Entry<nat, Cb>>,
    registered: bool,
    timers: Timers<Cb>,
    call: Option<bool>,
    w0: Worker,
    w1: Worker,
    active: int,
    timeouts: seq<TimedOut>,
    rollbacks: set<nat>)

  const FD0: map<E.Event, Job> := map[E.READ := FiberTask(0)]

  /** An hour and a bit after the start. */
  function At1(t0: nat): nat {
    t0 + HOUR_MS + 1
  }

  function Armed0(t0: nat, tickled: bool, previous: nat): Timers<Cb> {
    Timers(map[0 := Rec(1, At1(t0) + 1, false, TimeUp(0, 0, E.READ))], tickled, previous)
  }

  function Shown(n: nat, t0: nat, c: Scene): Rt
    requires n >= 2
  {
    Rt(c.fibers, c.queue,
       if c.registered then E.Table(E.Blank(32)[0 := FD0], 1, map[0 := {E.READ}]) else E.Table(E.Blank(32), 0, map[]),
       c.timers,
       if c.timers.live != map[] || c.rollbacks != {} then {0} else {},
       if c.call.Some? then map[0 := Call(0, E.READ, At1(t0), Some(1), c.call.value)] else map[],
       if c.call.Some? || c.timeouts != [] then {0} else {},
       Crew(n, c.w0, c.w1, IDLE, 2, IDLE), c.active, false, At1(t0), c.timeouts, c.rollbacks)
  }

  function Waits(t: nat): Worker {
    Worker(Waiting(t), false, None)
  }

  function Runs0(f: nat, body: Body, pocket: Option<nat>): Worker {
    Worker(Running(f, body != Code, body), false, pocket)
  }

  /** Fiber 0 is there and nothing else, and worker 1 is about to read the clock. */
  function Opening(t0: nat): Scene {
    Scene(map[0 := Fib(INIT, User)], [Entry(FiberTask(0), None)], false, Timers(map[], false, t0), None, IDLE,
        Waits(t0), 0, [], {})
  }

  lemma Opens(n: nat, t0: nat)
    requires n >= 2
    ensures ReachableBy(n, t0, Shown(n, t0, Opening(t0)), true)
  {
    hide Reachable;
    StartReachable(n, t0);
    var s := Init(n, t0);
    assert s.workers == Crew(n, IDLE, IDLE, IDLE, 2, IDLE);
    LooksAround(n, t0, s, 1);
    var s1 := With(s, 1, SawNoneHeld, false);
    Loosen(n, t0, s1);
    hide ReachableBy;
    Goes(n, t0, s1, ReadQueue(1), true);
    var s2 := With(s, 1, Waiting(t0), false);
    assert Do(s1, ReadQueue(1)) == s2;
    Goes(n, t0, s2, Tick(At1(t0)), true);
    var s3 := s2.(now := At1(t0));
    Goes(n, t0, s3, Outside(SpawnFiber(0)), true);
    assert Do(s3, Outside(SpawnFiber(0))) == Shown(n, t0, Opening(t0));
  }

  ghost predicate Leads(n: nat, t0: nat, c: Scene, step: Step, c': Scene)
    requires n >= 2
  {
    Enabled(Shown(n, t0, c), step) && Do(Shown(n, t0, c), step) == Shown(n, t0, c')
  }

  lemma Plays(n: nat, t0: nat, c: Scene, step: Step, c': Scene)
    requires n >= 2 && ReachableBy(n, t0, Shown(n, t0, c), true) && Leads(n, t0, c, step, c')
    ensures ReachableBy(n, t0, Shown(n, t0, c'), true)
  {
    hide ReachableBy;
    hide Shown;
    hide Enabled;
    hide Do;
    Goes(n, t0, Shown(n, t0, c), step, true);
  }

  function Unarmed(t0: nat): Timers<Cb> {
    Timers(map[], false, t0)
  }

  function Taking(t0: nat): Scene {
    Opening(t0).(queue := [], w0 := IDLE.(pc := Taken(FiberTask(0))), active := 1)
  }

  /** Fiber 0, with act, runs on worker 0. */
  function Onstage(t0: nat, act: Act, registered: bool, timers: Timers<Cb>, call: Option<bool>): Scene {
    Opening(t0).(fibers := map[0 := Fib(EXEC, act)], queue := [], registered := registered,
                 timers := timers, call := call, w0 := Runs0(0, Code, None), active := 1)
  }

  /** It has begun a call with a time-out of a millisecond and is suspended in it. */
  function Asleep(t0: nat, w0: Worker, timers: Timers<Cb>): Scene {
    Opening(t0).(fibers := map[0 := Fib(HOLD, IoWaiting(0, Some(0)))], queue := [], registered := true,
                 timers := timers, call := Some(false), w0 := w0)
  }

  /** Worker 0 or worker 1 changes. */
  lemma CrewMoves(n: nat, w0: Worker, w1: Worker, wk: Worker)
    requires n >= 2
    ensures Crew(n, w0, w1, IDLE, 2, IDLE)[0 := wk] == Crew(n, wk, w1, IDLE, 2, IDLE)
    ensures Crew(n, w0, w1, IDLE, 2, IDLE)[1 := wk] == Crew(n, w0, wk, IDLE, 2, IDLE)
  {}

  lemma Starts(n: nat, t0: nat)
    requires n >= 2
    ensures Leads(n, t0, Opening(t0), TakeTask(0, 0), Taking(t0))
    ensures Leads(n, t0, Taking(t0), Begin(0, 1), Onstage(t0, User, false, Unarmed(t0), None))
  {
    var s := Shown(n, t0, Opening(t0));
    assert 0 !in Busy(s);
    CrewMoves(n, IDLE, Waits(t0), Taking(t0).w0);
    CrewMoves(n, Taking(t0).w0, Waits(t0), Runs0(0, Code, None));
  }

  lemma Calls(n: nat, t0: nat)
    requires n >= 2
    ensures Leads(n, t0, Onstage(t0, User, false, Unarmed(t0), None), RunFiber(0, StartIo(0, 0, E.READ, Some(1))),
                  Onstage(t0, IoTry(0), false, Unarmed(t0), Some(false)))
  {}

  lemma Arms(n: nat, t0: nat)
    requires n >= 2
    ensures Leads(n, t0, Onstage(t0, IoTry(0), false, Unarmed(t0), Some(false)), RunFiber(0, ArmTimeout(0)),
                  Onstage(t0, IoTimed(0, Some(0)), false, Armed0(t0, true, t0), Some(false)))
  {
    assert First(Armed0(t0, true, t0).live, 0);
    assert 0 in Armed0(t0, true, t0).live;
    hide Crew;
    hide First;
    hide E.Blank;
    hide DoSide;
    hide SideEnabled;
  }

  lemma Registers(n: nat, t0: nat)
    requires n >= 2
    ensures Leads(n, t0, Onstage(t0, IoTimed(0, Some(0)), false, Armed0(t0, true, t0), Some(false)),
                  RunFiber(0, Register(true)),
                  Onstage(t0, IoArmed(0, Some(0)), true, Armed0(t0, true, t0), Some(false)))
  {
    var none: map<E.Event, Job> := map[];
    assert none.Keys + {E.READ} == {E.READ};
    assert none[E.READ := FiberTask(0)] == FD0;
  }

  lemma Suspends(n: nat, t0: nat)
    requires n >= 2
    ensures Leads(n, t0, Onstage(t0, IoArmed(0, Some(0)), true, Armed0(t0, true, t0), Some(false)),
                  RunFiber(0, Suspend), Asleep(t0, IDLE, Armed0(t0, true, t0)))
  {
    CrewMoves(n, Runs0(0, Code, None), Waits(t0), IDLE);
  }

  /** Worker 0 looks for work, finds that it has to wait, and reads the clock. */
  lemma Looks(n: nat, t0: nat)
    requires n >= 2
    ensures var armed := Armed0(t0, true, t0);
            Leads(n, t0, Asleep(t0, IDLE, armed), FindNothing(0), Asleep(t0, IDLE.(pc := Check), armed))
  {
    CrewMoves(n, IDLE, Waits(t0), IDLE.(pc := Check));
  }

  lemma Overtakes(n: nat, t0: nat)
    requires n >= 2
    ensures Leads(n, t0, Asleep(t0, IDLE.(pc := Check), Armed0(t0, true, t0)), ReadTimers(0),
                  Asleep(t0, Waits(At1(t0)), Armed0(t0, false, t0)))
  {
    assert 0 in Armed0(t0, true, t0).live && 0 in Armed0(t0, false, t0).live;
    CrewMoves(n, IDLE.(pc := Check), Waits(t0), Waits(At1(t0)));
  }

  lemma NotYetDue(t0: nat)
    ensures IsDueOrder(Armed0(t0, false, t0), At1(t0), [])
    ensures Expire(Armed0(t0, false, t0), At1(t0)) == Armed0(t0, false, At1(t0)) && !RolledBack(t0, At1(t0))
  {
    var live := Armed0(t0, false, t0).live;
    assert 0 in live && !Due(live[0], false, At1(t0));
    assert AfterExpiry(live, false, At1(t0)) == live;
  }

  lemma Expires(n: nat, t0: nat)
    requires n >= 2
    ensures Leads(n, t0, Asleep(t0, Waits(At1(t0)), Armed0(t0, false, t0)), Expiring(0, [], At1(t0)),
                  Asleep(t0, IDLE.(pc := Dispatching), Armed0(t0, false, At1(t0))))
  {
    NotYetDue(t0);
    assert 0 in Armed0(t0, false, t0).live;
    NothingPushed(Shown(n, t0, Asleep(t0, Waits(At1(t0)), Armed0(t0, false, t0))));
    CrewMoves(n, Waits(At1(t0)), Waits(t0), IDLE.(pc := Dispatching));
    hide Expire;
    hide IsDueOrder;
    hide RolledBack;
    hide Push;
    hide Crew;
  }

  lemma EndsIdle(n: nat, t0: nat)
    requires n >= 2
    ensures Leads(n, t0, Asleep(t0, IDLE.(pc := Dispatching), Armed0(t0, false, At1(t0))), EndIdle(0),
                  Asleep(t0, IDLE, Armed0(t0, false, At1(t0))))
  {
    CrewMoves(n, IDLE.(pc := Dispatching), Waits(t0), IDLE);
  }

  // ---------------------------------------------------------------- and back

  /** Worker 1 has taken its reading for a rollback. */
  function Rolled(t0: nat): Scene {
    Asleep(t0, IDLE, Unarmed(t0)).(queue := [Entry(CbTask(TimeUp(0, 0, E.READ)), None)],
                                   w1 := IDLE.(pc := Dispatching), rollbacks := {At1(t0)})
  }

  lemma AllDue(t0: nat)
    requires At1(t0) < TWO_TO_64
    ensures IsDueOrder(Armed0(t0, false, At1(t0)), t0, [0])
    ensures Expire(Armed0(t0, false, At1(t0)), t0) == Unarmed(t0) && RolledBack(At1(t0), t0)
  {
    RollbackMeaning(At1(t0), t0);
    assert RolledBack(At1(t0), t0);
    var t := Armed0(t0, false, At1(t0));
    assert 0 in t.live;
    assert AfterExpiry(t.live, true, t0) == map[];
  }

  lemma RollsBack(n: nat, t0: nat)
    requires n >= 2 && At1(t0) < TWO_TO_64
    ensures Leads(n, t0, Asleep(t0, IDLE, Armed0(t0, false, At1(t0))), Expiring(1, [0], t0), Rolled(t0))
  {
    AllDue(t0);
    assert 0 in Armed0(t0, false, At1(t0)).live;
    CrewMoves(n, IDLE, Waits(t0), IDLE.(pc := Dispatching));
    hide Expire;
    hide IsDueOrder;
    hide RolledBack;
    hide Crew;
  }

  /** The closure runs on worker 0's own fiber, number 1. */
  function Closing(t0: nat, body: Body, marked: bool, registered: bool, queue: seq<Entry<nat, Cb>>): Scene {
    Rolled(t0).(fibers := map[0 := Fib(HOLD, IoWaiting(0, Some(0))), 1 := Fib(EXEC, Closure)], queue := queue,
                registered := registered, call := Some(marked), w0 := Runs0(1, body, Some(1)), active := 1)
  }

  lemma Closes(n: nat, t0: nat)
    requires n >= 2
    ensures var taken := Rolled(t0).(queue := [], w0 := IDLE.(pc := Taken(CbTask(TimeUp(0, 0, E.READ)))), active := 1);
            && Leads(n, t0, Rolled(t0), TakeTask(0, 0), taken)
            && Leads(n, t0, taken, Begin(0, 1), Closing(t0, TimeUpBody(0, 0, E.READ), false, true, []))
  {
    var wk := IDLE.(pc := Taken(CbTask(TimeUp(0, 0, E.READ))));
    CrewMoves(n, IDLE, IDLE.(pc := Dispatching), wk);
    CrewMoves(n, wk, IDLE.(pc := Dispatching), Runs0(1, TimeUpBody(0, 0, E.READ), Some(1)));
    hide Crew;
  }

  /** Where worker 0 runs a closure, its steps are these. */
  lemma ClosureSteps(s: Rt)
    requires Runs(s, 0) && |s.table.fds| >= 2
    ensures var body := s.workers[0].pc.body;
            && (body.TimeUpBody? ==>
                Enabled(s, RunFiber(0, TestTimeUp))
                && Do(s, RunFiber(0, TestTimeUp)) == MarkTimedOut(s, 0))
            && (body.CancelBody? ==>
                  && Enabled(s, RunFiber(0, CancelTimeUp(true)))
                  && Do(s, RunFiber(0, CancelTimeUp(true)))
                      == SetBody(CancelAt(s, body.fd, body.ev, true), 0, DoneBody))
            && (body.DoneBody? ==>
                Enabled(s, RunFiber(0, Finish(false)))
                && Do(s, RunFiber(0, Finish(false))) == End(s, 0, TERM))
  {
    hide MarkTimedOut;
    hide CancelAt;
    hide End;
  }

  lemma ClosingRuns(n: nat, t0: nat, c: Scene)
    requires n >= 2 && 1 in c.fibers && c.w0.pc.Running? && c.w0.pc.fiber == 1
    ensures Runs(Shown(n, t0, c), 0) && |Shown(n, t0, c).table.fds| >= 2 && Shown(n, t0, c).workers[0] == c.w0
  {}

  lemma Marks(n: nat, t0: nat)
    requires n >= 2
    ensures Leads(n, t0, Closing(t0, TimeUpBody(0, 0, E.READ), false, true, []), RunFiber(0, TestTimeUp),
                  Closing(t0, CancelBody(0, E.READ), true, true, []))
  {
    var c := Closing(t0, TimeUpBody(0, 0, E.READ), false, true, []);
    ClosingRuns(n, t0, c);
    ClosureSteps(Shown(n, t0, c));
    hide Enabled;
    hide Do;
    CrewMoves(n, Runs0(1, TimeUpBody(0, 0, E.READ), Some(1)), IDLE.(pc := Dispatching),
        Runs0(1, CancelBody(0, E.READ), Some(1)));
    hide Crew;
    hide E.Blank;
    hide DoSide;
    hide SideEnabled;
  }

  lemma Unregisters()
    ensures var t := E.Table(E.Blank(32)[0 := FD0], 1, map[0 := {E.READ}]);
            && E.Registered(t, 0) == FD0 && E.READ in FD0 && FD0[E.READ] == FiberTask(0)
            && E.RemoveEvent(t, 0, E.READ, true) == E.Table(E.Blank(32), 0, map[])
  {
    assert FD0 - {E.READ} == map[];
    assert E.Blank<Job>(32)[0 := FD0][0 := map[]] == E.Blank<Job>(32);
    assert map[0 := {E.READ}] - {0} == map[];
  }

  lemma Cancels(n: nat, t0: nat)
    requires n >= 2
    ensures Leads(n, t0, Closing(t0, CancelBody(0, E.READ), true, true, []), RunFiber(0, CancelTimeUp(true)),
                  Closing(t0, DoneBody, true, false, [Entry(FiberTask(0), None)]))
  {
    var c := Closing(t0, CancelBody(0, E.READ), true, true, []);
    ClosingRuns(n, t0, c);
    ClosureSteps(Shown(n, t0, c));
    hide Enabled;
    hide Do;
    Unregisters();
    CrewMoves(n, Runs0(1, CancelBody(0, E.READ), Some(1)), IDLE.(pc := Dispatching), Runs0(1, DoneBody, Some(1)));
    hide Crew;
    hide E.Blank;
    hide E.RemoveEvent;
    hide DoSide;
    hide SideEnabled;
  }

  /** The closure is over, and fiber 0 runs again, with act. */
  function Again0(t0: nat, fib: Fib, queue: seq<Entry<nat, Cb>>, pc: Pc, active: int, call: Option<bool>,
      timeouts: seq<TimedOut>): Scene {
    Rolled(t0).(fibers := map[0 := fib, 1 := Fib(INIT, Pocketed)], queue := queue, registered := false, call := call,
                w0 := Worker(pc, false, Some(1)), active := active, timeouts := timeouts)
  }

  lemma Finishes(n: nat, t0: nat)
    requires n >= 2
    ensures Leads(n, t0, Closing(t0, DoneBody, true, false, [Entry(FiberTask(0), None)]), RunFiber(0, Finish(false)),
                  Again0(t0, Fib(HOLD, IoWaiting(0, Some(0))), [Entry(FiberTask(0), None)], Fetch, 0, Some(true), []))
  {
    var c := Closing(t0, DoneBody, true, false, [Entry(FiberTask(0), None)]);
    ClosingRuns(n, t0, c);
    ClosureSteps(Shown(n, t0, c));
    hide Enabled;
    hide Do;
    CrewMoves(n, Runs0(1, DoneBody, Some(1)), IDLE.(pc := Dispatching), Worker(Fetch, false, Some(1)));
    hide Crew;
    hide E.Blank;
    hide DoSide;
    hide SideEnabled;
  }

  lemma Returns(n: nat, t0: nat)
    requires n >= 2
    ensures var fib := Fib(HOLD, IoWaiting(0, Some(0)));
            Leads(n, t0, Again0(t0, fib, [Entry(FiberTask(0), None)], Fetch, 0, Some(true), []), TakeTask(0, 0),
                  Again0(t0, fib, [], Taken(FiberTask(0)), 1, Some(true), []))
  {
    var fib := Fib(HOLD, IoWaiting(0, Some(0)));
    assert 0 !in Busy(Shown(n, t0, Again0(t0, fib, [Entry(FiberTask(0), None)], Fetch, 0, Some(true), [])));
    CrewMoves(n, Worker(Fetch, false, Some(1)), IDLE.(pc := Dispatching), Worker(Taken(FiberTask(0)), false, Some(1)));
    hide Crew;
    hide E.Blank;
    hide Busy;
  }

  lemma Resumes(n: nat, t0: nat)
    requires n >= 2
    ensures var fib := Fib(HOLD, IoWaiting(0, Some(0)));
            Leads(n, t0, Again0(t0, fib, [], Taken(FiberTask(0)), 1, Some(true), []), Begin(0, 2),
                  Again0(t0, fib.(state := EXEC), [], Running(0, false, Code), 1, Some(true), []))
  {
    CrewMoves(n, Worker(Taken(FiberTask(0)), false, Some(1)), IDLE.(pc := Dispatching),
        Worker(Running(0, false, Code), false, Some(1)));
    hide Crew;
    hide E.Blank;
  }

  /** ETIMEDOUT within the very millisecond in which the call began. */
  lemma Reports(n: nat, t0: nat)
    requires n >= 2
    ensures Leads(n, t0, Again0(t0, Fib(EXEC, IoWaiting(0, Some(0))), [], Running(0, false, Code), 1, Some(true), []),
                  RunFiber(0, Resume(false)),
                  Again0(t0, Fib(EXEC, User), [], Running(0, false, Code), 1, None,
                      [TimedOut(At1(t0), Some(1), At1(t0))]))
  {}

  // ---------------------------------------------------------------- the run

  lemma Begun(n: nat, t0: nat)
    requires n >= 2
    ensures ReachableBy(n, t0, Shown(n, t0, Asleep(t0, IDLE, Armed0(t0, true, t0))), true)
  {
    Opens(n, t0);
    Starts(n, t0);
    Calls(n, t0);
    Arms(n, t0);
    Registers(n, t0);
    Suspends(n, t0);
    hide *;
    var armed := Armed0(t0, true, t0);
    Plays(n, t0, Opening(t0), TakeTask(0, 0), Taking(t0));
    Plays(n, t0, Taking(t0), Begin(0, 1), Onstage(t0, User, false, Unarmed(t0), None));
    Plays(n, t0, Onstage(t0, User, false, Unarmed(t0), None), RunFiber(0, StartIo(0, 0, E.READ, Some(1))),
          Onstage(t0, IoTry(0), false, Unarmed(t0), Some(false)));
    Plays(n, t0, Onstage(t0, IoTry(0), false, Unarmed(t0), Some(false)), RunFiber(0, ArmTimeout(0)),
          Onstage(t0, IoTimed(0, Some(0)), false, armed, Some(false)));
    Plays(n, t0, Onstage(t0, IoTimed(0, Some(0)), false, armed, Some(false)), RunFiber(0, Register(true)),
          Onstage(t0, IoArmed(0, Some(0)), true, armed, Some(false)));
    Plays(n, t0, Onstage(t0, IoArmed(0, Some(0)), true, armed, Some(false)), RunFiber(0, Suspend),
          Asleep(t0, IDLE, armed));
  }

  lemma RolledOver(n: nat, t0: nat)
    requires n >= 2 && At1(t0) < TWO_TO_64
    ensures ReachableBy(n, t0, Shown(n, t0, Rolled(t0)), true)
  {
    Begun(n, t0);
    Looks(n, t0);
    Overtakes(n, t0);
    Expires(n, t0);
    EndsIdle(n, t0);
    RollsBack(n, t0);
    hide *;
    var armed, unticked, over := Armed0(t0, true, t0), Armed0(t0, false, t0), Armed0(t0, false, At1(t0));
    Plays(n, t0, Asleep(t0, IDLE, armed), FindNothing(0), Asleep(t0, IDLE.(pc := Check), armed));
    Plays(n, t0, Asleep(t0, IDLE.(pc := Check), armed), ReadTimers(0), Asleep(t0, Waits(At1(t0)), unticked));
    Plays(n, t0, Asleep(t0, Waits(At1(t0)), unticked), Expiring(0, [], At1(t0)),
          Asleep(t0, IDLE.(pc := Dispatching), over));
    Plays(n, t0, Asleep(t0, IDLE.(pc := Dispatching), over), EndIdle(0), Asleep(t0, IDLE, over));
    Plays(n, t0, Asleep(t0, IDLE, over), Expiring(1, [0], t0), Rolled(t0));
  }

  /** The end of the run. */
  function TooEarly(t0: nat): Scene {
    Again0(t0, Fib(EXEC, User), [], Running(0, false, Code), 1, None, [TimedOut(At1(t0), Some(1), At1(t0))])
  }

  lemma TimesOutEarly(n: nat, t0: nat)
    requires n >= 2 && At1(t0) < TWO_TO_64
    ensures ReachableBy(n, t0, Shown(n, t0, TooEarly(t0)), true) && !NoneEarly(Shown(n, t0, TooEarly(t0)).timeouts)
  {
    RolledOver(n, t0);
    Closes(n, t0);
    Marks(n, t0);
    Cancels(n, t0);
    Finishes(n, t0);
    Returns(n, t0);
    Resumes(n, t0);
    Reports(n, t0);
    assert !OnTime(TooEarly(t0).timeouts[0]);
    assert Shown(n, t0, TooEarly(t0)).timeouts == TooEarly(t0).timeouts;
    hide *;
    var fib, queue := Fib(HOLD, IoWaiting(0, Some(0))), [Entry(FiberTask(0), None)];
    var taken := Rolled(t0).(queue := [], w0 := IDLE.(pc := Taken(CbTask(TimeUp(0, 0, E.READ)))), active := 1);
    var time, cancel := TimeUpBody(0, 0, E.READ), CancelBody(0, E.READ);
    Plays(n, t0, Rolled(t0), TakeTask(0, 0), taken);
    Plays(n, t0, taken, Begin(0, 1), Closing(t0, time, false, true, []));
    Plays(n, t0, Closing(t0, time, false, true, []), RunFiber(0, TestTimeUp), Closing(t0, cancel, true, true, []));
    Plays(n, t0, Closing(t0, cancel, true, true, []), RunFiber(0, CancelTimeUp(true)),
          Closing(t0, DoneBody, true, false, queue));
    Plays(n, t0, Closing(t0, DoneBody, true, false, queue), RunFiber(0, Finish(false)),
          Again0(t0, fib, queue, Fetch, 0, Some(true), []));
    Plays(n, t0, Again0(t0, fib, queue, Fetch, 0, Some(true), []), TakeTask(0, 0),
          Again0(t0, fib, [], Taken(FiberTask(0)), 1, Some(true), []));
    Plays(n, t0, Again0(t0, fib, [], Taken(FiberTask(0)), 1, Some(true), []), Begin(0, 2),
          Again0(t0, fib.(state := EXEC), [], Running(0, false, Code), 1, Some(true), []));
    Plays(n, t0, Again0(t0, fib.(state := EXEC), [], Running(0, false, Code), 1, Some(true), []),
          RunFiber(0, Resume(false)), TooEarly(t0));
  }

  /** ETIMEDOUT is never early, in every run, exactly with a single worker - as long as the clock,
      a number of 64 bits, can still advance by that hour. */
  lemma NeverEarlyExactly(n: nat, t0: nat)
    requires n >= 1 && At1(t0) < TWO_TO_64
    ensures NeverEarly(n, t0) <==> n == 1
  {
    if n == 1 {
      OneWorkerNeverEarly(t0);
    } else {
      TimesOutEarly(n, t0);
      var s := Shown(n, t0, TooEarly(t0));
      var ss: seq<Rt>, steps: seq<Step> :| IsRun(ss, steps, n, t0) && ss[|steps|] == s;
      hide IsRun;
      assert !NoneEarly(ss[|steps|].timeouts);
    }
  }
}
