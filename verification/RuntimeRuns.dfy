/** The worker loop and the idle loop keep the invariant, and so does every run. */
module RuntimeRuns {
  import opened Wrappers
  import opened Scheduling
  import opened TimerSpec
  import opened Runtime
  import opened RuntimeInv
  import opened RuntimeSteps
  import opened RuntimeActions
  import opened Sums
  import E = EventTable

  // ---------------------------------------------------------------- leaving a fiber

  /** One fiber changes, and its wake-ups with it. */
  lemma FiberKeeps(s: Rt, s': Rt, f: nat, fib: Fib, minus: multiset<nat>, plus: multiset<nat>)
    requires Inv(s) && s'.fibers == s.fibers[f := fib]
    requires Core(s'.workers, s'.fibers, s'.active)
    requires Tokens(s') + minus == Tokens(s) + plus
    requires forall g :: g != f ==> minus[g] == plus[g]
    requires Expect(s'.fibers, f) + minus[f] == Expect(s.fibers, f) + plus[f]
    requires s'.timers == s.timers && s'.usedTimers == s.usedTimers && s'.table == s.table
    requires TimerHeldOk(s.timers.live, s.usedTimers, fib.act)
    ensures Inv(s')
  {
    hide Tokens;
    hide TokensOk;
    hide Core;
    hide TimersOk;
    hide E.Mirror;
    hide TimerHeldOk;
    TimersAct(s.timers.live, s.usedTimers, s.fibers, f, fib);
    forall g
      ensures Expect(s'.fibers, g) + minus[g] == Expect(s.fibers, g) + plus[g]
    {}
    hide Expect;
    InvFrom(s, s', minus, plus);
  }

  lemma SwapOutTokens(s: Rt, w: nat, fib: Fib, pc: Pc)
    requires Runs(s, w)
    ensures Tokens(SwapOut(s, w, fib, pc)) + WorkerTok(s.workers[w])
              == Tokens(s) + WorkerTok(SwapOut(s, w, fib, pc).workers[w])
  {
    var s' := SwapOut(s, w, fib, pc);
    var s1 := s.(workers := s.workers[w := s'.workers[w]]);
    TokensWorker(s, w, s'.workers[w]);
    TokensSame(s1, s');
  }

  lemma SwapOutKeeps(s: Rt, w: nat, fib: Fib, pc: Pc)
    requires Inv(s) && Runs(s, w) && s.workers[w].pc.body == Code
    requires FibOk(fib) && fib.act != Pocketed
    requires || (fib.state == HOLD && pc == Fetch && Armed(MyAct(s, w)) == 1)
             || (fib.state == READY && pc == Requeue(Me(s, w)) && Armed(MyAct(s, w)) == 0)
    requires TimerOf(fib.act) == TimerOf(MyAct(s, w)) || TimerOf(fib.act) == None
    ensures Inv(SwapOut(s, w, fib, pc))
  {
    hide Tokens;
    hide TokensOk;
    hide Core;
    hide TimersOk;
    hide E.Mirror;
    var s', f := SwapOut(s, w, fib, pc), Me(s, w);
    RunsExec(s, w);
    CoreSwapOut(s, w, fib, pc);
    SwapOutTokens(s, w, fib, pc);
    TimersHeld(s, f);
    FiberKeeps(s, s', f, fib, multiset{}, WorkerTok(s'.workers[w]));
  }

  lemma GoToSleepKeeps(s: Rt, w: nat)
    requires Inv(s) && Runs(s, w) && (MyAct(s, w).SleepArmed? || MyAct(s, w).IoArmed?)
    ensures Inv(GoToSleep(s, w))
  {
    InCode(s, w);
    hide Inv;
    hide SwapOut;
    var act := MyAct(s, w);
    SwapOutKeeps(s, w, Fib(HOLD, if act.IoArmed? then IoWaiting(act.call, act.timer) else User), Fetch);
  }

  lemma EndTokens(s: Rt, w: nat, state: State)
    requires Runs(s, w) && !s.workers[w].pc.body.WakeBody?
    ensures Tokens(End(s, w, state)) + multiset{} == Tokens(s) + multiset{}
  {
    var s' := End(s, w, state);
    TokensWorker(s, w, s'.workers[w]);
    TokensSame(s.(workers := s'.workers), s');
  }

  lemma EndKeeps(s: Rt, w: nat, state: State)
    requires Inv(s) && Runs(s, w) && state in {TERM, EXCEPT}
    requires InUserCode(s, w) || s.workers[w].pc.body.DoneBody?
    ensures Inv(End(s, w, state))
  {
    hide Tokens;
    hide TokensOk;
    hide Core;
    hide TimersOk;
    hide E.Mirror;
    var s', f := End(s, w, state), Me(s, w);
    RunsExec(s, w);
    CoreEnd(s, w, state);
    EndTokens(s, w, state);
    FiberKeeps(s, s', f, s'.fibers[f], multiset{}, multiset{});
  }

  // ---------------------------------------------------------------- queueing

  lemma SpawnKeeps(s: Rt, f: nat)
    requires Inv(s) && f !in s.fibers
    ensures Inv(Spawn(s, f))
  {
    hide Tokens;
    hide TokensOk;
    hide Core;
    hide TimersOk;
    hide E.Mirror;
    TokensPushOne(s, FiberTask(f));
    TokensSameCalls(PushJobs(s, [FiberTask(f)]), Spawn(s, f));
    CoreNewFiber(s.workers, s.fibers, s.active, f);
    hide Push;
    FiberKeeps(s, Spawn(s, f), f, Fib(INIT, User), multiset{}, multiset{f});
  }

  lemma PushCbKeeps(s: Rt, id: nat)
    requires Inv(s)
    ensures Inv(PushJobs(s, [CbTask(UserCb(id))]))
  {
    TokensPushOne(s, CbTask(UserCb(id)));
    hide Tokens;
    hide TokensOk;
    hide Core;
    hide TimersOk;
    hide E.Mirror;
    SideKeeps(s, PushJobs(s, [CbTask(UserCb(id))]));
  }

  // ---------------------------------------------------------------- closures

  lemma SetBodyTokens(s: Rt, w: nat, body: Body)
    requires Runs(s, w)
    ensures Tokens(SetBody(s, w, body)) + WorkerTok(s.workers[w])
              == Tokens(s) + WorkerTok(SetBody(s, w, body).workers[w])
  {
    TokensWorker(s, w, SetBody(s, w, body).workers[w]);
  }

  lemma Undo(a: multiset<nat>, b: multiset<nat>, x: multiset<nat>)
    requires a + x == (b + x) + multiset{}
    ensures a == b
  {
    assert a == (a + x) - x;
    assert b == (b + x) - x;
  }

  /** A closure goes on to its next part, having handed out its wake-up if it held one. */
  lemma SetBodyKeeps(s: Rt, s1: Rt, w: nat, body: Body)
    requires Inv(s) && Runs(s, w) && s.workers[w].pc.body != Code && body != Code && !body.WakeBody?
    requires Tokens(s1) == Tokens(s) + WorkerTok(s.workers[w])
    requires s1.workers == s.workers && s1.fibers == s.fibers && s1.active == s.active
    requires s1.timers == s.timers && s1.usedTimers == s.usedTimers && E.Mirror(s1.table)
    ensures Inv(SetBody(s1, w, body))
  {
    hide Tokens;
    hide TokensOk;
    hide Core;
    hide TimersOk;
    hide E.Mirror;
    SetBodyTokens(s1, w, body);
    CoreBody(s, w, body);
    Undo(Tokens(SetBody(s1, w, body)), Tokens(s), WorkerTok(s.workers[w]));
    InvFrom(s, SetBody(s1, w, body), multiset{}, multiset{});
  }

  lemma WakeNowKeeps(s: Rt, w: nat)
    requires Inv(s) && Runs(s, w) && s.workers[w].pc.body.WakeBody?
    ensures Inv(SetBody(PushJobs(s, [FiberTask(s.workers[w].pc.body.fiber)]), w, DoneBody))
  {
    var f := s.workers[w].pc.body.fiber;
    TokensPushOne(s, FiberTask(f));
    hide Tokens;
    hide TokensOk;
    hide Core;
    hide TimersOk;
    hide E.Mirror;
    hide Push;
    SetBodyKeeps(s, PushJobs(s, [FiberTask(f)]), w, DoneBody);
  }

  lemma MarkTimedOutKeeps(s: Rt, w: nat)
    requires Inv(s) && Runs(s, w) && s.workers[w].pc.body.TimeUpBody?
    ensures Inv(MarkTimedOut(s, w))
  {
    var body := s.workers[w].pc.body;
    hide Core;
    hide TokensOk;
    hide TimersOk;
    hide E.Mirror;
    if body.call in s.calls && !s.calls[body.call].timedOut {
      var s1 := s.(calls := s.calls[body.call := s.calls[body.call].(timedOut := true)]);
      TokensSameCalls(s, s1);
      hide Tokens;
      SetBodyKeeps(s, s1, w, CancelBody(body.fd, body.ev));
    } else {
      hide Tokens;
      SetBodyKeeps(s, s, w, DoneBody);
    }
  }

  lemma CancelledOnly(s: Rt, fd: nat, ev: E.Event, ok: bool)
    ensures var s' := CancelAt(s, fd, ev, ok); s' == s.(table := s'.table, queue := s'.queue)
  {}

  lemma CancelTimeUpKeeps(s: Rt, w: nat, fd: nat, ev: E.Event, ok: bool)
    requires Inv(s) && Runs(s, w) && s.workers[w].pc.body.CancelBody?
    ensures Inv(SetBody(CancelAt(s, fd, ev, ok), w, DoneBody))
  {
    CancelAtKeeps(s, fd, ev, ok);
    var s1 := CancelAt(s, fd, ev, ok);
    CancelledOnly(s, fd, ev, ok);
    hide CancelAt;
    hide Core;
    hide Tokens;
    hide TokensOk;
    hide TimersOk;
    hide E.Mirror;
    SetBodyKeeps(s1, s1, w, DoneBody);
  }

  /** A call of the public interface, from a fiber or from outside. */
  lemma SideActionKeeps(s: Rt, a: Action)
    requires Inv(s) && SideEnabled(s, a) && |s.table.fds| >= 2
    ensures Inv(DoSide(s, a))
  {
    hide Inv;
    hide EventsOf;
    hide Spawn;
    hide PushJobs;
    hide CancelAt;
    hide CancelAllAt;
    hide ArmTimer;
    hide DropTimer;
    hide ResetTimer;
    hide E.AddEvent;
    hide E.RemoveEvent;
    match a {
      case SpawnFiber(fiber) => SpawnKeeps(s, fiber);
      case SpawnCb(id) => PushCbKeeps(s, id);
      case AddUserEvent(fd, ev, id, ok) => AddUserEventKeeps(s, fd, ev, id, ok);
      case DelUserEvent(fd, ev, ok) => DelUserEventKeeps(s, fd, ev, ok);
      case CancelOne(fd, ev, ok) => CancelAtKeeps(s, fd, ev, ok);
      case CancelFd(fd, ok) => CancelAllKeeps(s, fd, ok);
      case AddUserTimer(timer, ms, recurring, id) => AddUserTimerKeeps(s, timer, ms, recurring, id);
      case CancelUserTimer(timer) => CancelUserTimerKeeps(s, timer);
      case ResetUserTimer(timer, ms, fromNow) => ResetKeeps(s, timer, ms, fromNow);
      case RefreshUserTimer(timer) => RefreshKeeps(s, timer);
    }
  }

  lemma ActionKeeps(s: Rt, w: nat, a: Action)
    requires Inv(s) && ActEnabled(s, w, a) && |s.table.fds| >= 2
    ensures Inv(DoAct(s, w, a))
  {
    hide Inv;
    hide DoSide;
    hide SideEnabled;
    hide EventsOf;
    hide StartSleep;
    hide StartCall;
    hide StartTimeout;
    hide TryRegister;
    hide WakeUp;
    hide GoToSleep;
    hide SwapOut;
    hide Spawn;
    hide PushJobs;
    hide CancelAt;
    hide CancelAllAt;
    hide ArmTimer;
    hide DropTimer;
    hide MarkTimedOut;
    hide SetBody;
    hide End;
    hide E.AddEvent;
    hide E.RemoveEvent;
    match a {
      case SleepFor(ms, timer) => StartSleepKeeps(s, w, ms, timer);
      case StartIo(call, fd, ev, timeout) => StartCallKeeps(s, w, call, Call(fd, ev, s.now, timeout, false));
      case ArmTimeout(timer) => StartTimeoutKeeps(s, w, timer);
      case Register(ok) => TryRegisterKeeps(s, w, ok);
      case Suspend => GoToSleepKeeps(s, w);
      case Resume(again) => WakeUpKeeps(s, w, again);
      case Yield => SwapOutKeeps(s, w, Fib(READY, User), Requeue(Me(s, w)));
      case WakeNow => WakeNowKeeps(s, w);
      case TestTimeUp => MarkTimedOutKeeps(s, w);
      case CancelTimeUp(ok) => CancelTimeUpKeeps(s, w, s.workers[w].pc.body.fd, s.workers[w].pc.body.ev, ok);
      case Finish(thrown) => EndKeeps(s, w, if thrown then EXCEPT else TERM);
      case _ => SideActionKeeps(s, a);
    }
  }

  // ---------------------------------------------------------------- the worker loop

  /** What a queued fiber may be: one that waits to be swapped in. */
  lemma QueuedFiber(s: Rt, w: nat, i: nat)
    requires TokensOk(Tokens(s), s.fibers) && FibersOk(s.fibers)
    requires i < |s.queue| && Takes(s.queue[i], w, Busy(s)) && s.queue[i].task.FiberTask?
    ensures var f := s.queue[i].task.fiber;
            f in s.fibers && s.fibers[f].state in {INIT, HOLD, READY} && s.fibers[f].act != Pocketed
  {
    var f := s.queue[i].task.fiber;
    SumMember(s.queue, i, EntryTok);
    assert EntryTok(s.queue[i])[f] <= Sum(s.queue, EntryTok)[f] <= Tokens(s)[f] == Expect(s.fibers, f);
    hide Sum;
    hide SumMap;
    hide Tokens;
    hide TokensOk;
    hide FibersOk;
  }

  /** A worker moves on without its fiber changing. */
  lemma CoreWorker(ws: seq<Worker>, fibers: map<nat, Fib>, active: int, w: nat, wk: Worker)
    requires Core(ws, fibers, active) && w < |ws|
    requires PcOk(fibers, wk) && PocketOk(fibers, wk) && wk.pocket == ws[w].pocket && RunTok(wk) == RunTok(ws[w])
    ensures Core(ws[w := wk], fibers, active - |ActiveTok(ws[w])| + |ActiveTok(wk)|)
  {
    hide RunsOk;
    hide ActiveOk;
    hide FibersOk;
    hide WorkersOk;
    hide PcOk;
    hide PocketOk;
    WorkersMove(ws, fibers, w, wk);
    RunsMove(ws, fibers, w, wk, fibers);
    ActiveMove(ws, active, w, wk);
  }

  lemma TakeCore(s: Rt, w: nat, task: Job)
    requires Core(s.workers, s.fibers, s.active) && w < |s.workers| && s.workers[w].pc == Fetch
    requires PcOk(s.fibers, s.workers[w].(pc := Taken(task)))
    ensures Core(s.workers[w := s.workers[w].(pc := Taken(task))], s.fibers, s.active + 1)
  {
    hide Sum;
    hide PcOk;
    WorkerAt(s.workers, s.fibers, w);
    CoreWorker(s.workers, s.fibers, s.active, w, s.workers[w].(pc := Taken(task)));
  }

  lemma Nothing(a: multiset<nat>)
    ensures a + multiset{} == a
  {}

  lemma TakeTokens(s: Rt, w: nat, i: nat)
    requires w < |s.workers| && i < |s.queue| && s.workers[w].pc == Fetch
    ensures Tokens(TakeAt(s, w, i)) == Tokens(s)
  {
    var s1 := s.(queue := Without(s.queue, i));
    var wk := s.workers[w].(pc := Taken(s.queue[i].task));
    TokensTake(s, i);
    TokensWorker(s1, w, wk);
    TokensSame(s1.(workers := s.workers[w := wk]), TakeAt(s, w, i));
    hide Tokens;
    hide JobTok;
    hide Without;
    assert WorkerTok(wk) == JobTok(s.queue[i].task);
    assert Tokens(TakeAt(s, w, i)) + multiset{} == Tokens(s1) + JobTok(s.queue[i].task);
    Nothing(Tokens(TakeAt(s, w, i)));
  }

  lemma TakePc(s: Rt, w: nat, i: nat)
    requires Inv(s) && w < |s.workers| && IsPick(s.queue, w, Busy(s), i)
    ensures PcOk(s.fibers, s.workers[w].(pc := Taken(s.queue[i].task)))
  {
    hide Tokens;
    hide TokensOk;
    hide RunsOk;
    hide ActiveOk;
    hide WorkersOk;
    hide FibersOk;
    hide TimersOk;
    hide E.Mirror;
    hide Busy;
    if s.queue[i].task.FiberTask? {
      QueuedFiber(s, w, i);
    }
  }

  /** The fiber's wake-up goes from the queue into the worker's hand. */
  lemma TakeKeeps(s: Rt, w: nat, i: nat)
    requires Inv(s) && w < |s.workers| && s.workers[w].pc == Fetch && IsPick(s.queue, w, Busy(s), i)
    ensures Inv(TakeAt(s, w, i))
  {
    TakePc(s, w, i);
    hide Busy;
    hide Without;
    hide Takes;
    hide Tokens;
    hide TokensOk;
    hide Core;
    hide TimersOk;
    hide E.Mirror;
    TakeTokens(s, w, i);
    TakeCore(s, w, s.queue[i].task);
    WorkerKeeps(s, TakeAt(s, w, i));
  }

  /** A fiber's number is taken: no other worker has its eye on one that is pocketed here or
      not yet made. */
  lemma OnlyMyPocket(ws: seq<Worker>, fibers: map<nat, Fib>, w: nat, g: nat)
    requires WorkersOk(ws, fibers) && w < |ws|
    requires g !in fibers || (ws[w].pocket == Some(g) && fibers[g] == Fib(INIT, Pocketed))
    ensures OnlyHere(ws, w, g)
  {
    forall v | 0 <= v < |ws| && v != w
      ensures !Mentions(ws[v], g)
    {
      WorkerAt(ws, fibers, v);
      assert ws[v].pocket.Some? ==> ws[v].pocket != ws[w].pocket;
    }
  }

  /** What swapIn meets: the fiber is INIT, HOLD or READY and no other worker deals with it. */
  lemma SwapsInSafely(s: Rt, w: nat)
    requires Inv(s) && w < |s.workers| && s.workers[w].pc.Taken? && s.workers[w].pc.task.FiberTask?
    ensures var f := s.workers[w].pc.task.fiber;
            f in s.fibers && s.fibers[f].state in {INIT, HOLD, READY} && s.fibers[f].act != Pocketed
            && OnlyHere(s.workers, w, f) && s.workers[w].pocket != Some(f)
  {
    var f := s.workers[w].pc.task.fiber;
    hide Tokens;
    hide TokensOk;
    hide RunsOk;
    hide ActiveOk;
    hide WorkersOk;
    hide FibersOk;
    hide TimersOk;
    hide E.Mirror;
    WorkerAt(s.workers, s.fibers, w);
    OnlyInMyHand(s, w, f);
  }

  /** What reset and swapIn meet for a function: cb_fiber is new or INIT, and this worker's alone. */
  lemma {:induction false} ReusesSafely(s: Rt, w: nat, spare: nat)
    requires Inv(s) && w < |s.workers| && s.workers[w].pc.Taken? && spare !in s.fibers
    ensures var g := CbFiber(s, w, spare);
            (g in s.fibers ==> s.fibers[g] == Fib(INIT, Pocketed)) && OnlyHere(s.workers, w, g)
  {
    hide Tokens;
    hide TokensOk;
    hide RunsOk;
    hide ActiveOk;
    hide WorkersOk;
    hide FibersOk;
    hide TimersOk;
    hide E.Mirror;
    WorkerAt(s.workers, s.fibers, w);
    OnlyMyPocket(s.workers, s.fibers, w, CbFiber(s, w, spare));
  }

  lemma FibAt(fibers: map<nat, Fib>, f: nat)
    requires FibersOk(fibers) && f in fibers
    ensures FibOk(fibers[f])
  {}

  lemma BeginFiberCore(s: Rt, w: nat, f: nat)
    requires Core(s.workers, s.fibers, s.active) && w < |s.workers| && s.workers[w].pc == Taken(FiberTask(f))
    requires f in s.fibers && s.fibers[f].state in {INIT, HOLD, READY} && s.fibers[f].act != Pocketed
    requires OnlyHere(s.workers, w, f) && s.workers[w].pocket != Some(f)
    ensures Armed(s.fibers[f].act) == 0
    ensures Core(s.workers[w := s.workers[w].(pc := Running(f, false, Code))],
              s.fibers[f := s.fibers[f].(state := EXEC)], s.active)
  {
    WorkerAt(s.workers, s.fibers, w);
    FibAt(s.fibers, f);
    hide Core;
    hide OnlyHere;
    var wk, fib := s.workers[w].(pc := Running(f, false, Code)), s.fibers[f].(state := EXEC);
    CoreMove(s.workers, s.fibers, s.active, w, wk, f, fib);
  }

  lemma BeginTokens(s: Rt, s': Rt, w: nat, wk: Worker)
    requires w < |s.workers| && s' == s.(workers := s.workers[w := wk], fibers := s'.fibers)
    ensures Tokens(s') + WorkerTok(s.workers[w]) == Tokens(s) + WorkerTok(wk)
  {
    TokensWorker(s, w, wk);
    TokensSame(s.(workers := s.workers[w := wk]), s');
  }

  lemma BeginFiberKeeps(s: Rt, w: nat, spare: nat)
    requires Inv(s) && w < |s.workers| && s.workers[w].pc.Taken? && s.workers[w].pc.task.FiberTask?
    requires s.workers[w].pc.task.fiber in s.fibers
    ensures Inv(DoBegin(s, w, spare))
  {
    hide Tokens;
    hide TokensOk;
    hide Core;
    hide TimersOk;
    hide E.Mirror;
    var s', f := DoBegin(s, w, spare), s.workers[w].pc.task.fiber;
    SwapsInSafely(s, w);
    var fib, wk := s.fibers[f].(state := EXEC), s'.workers[w];
    BeginFiberCore(s, w, f);
    BeginTokens(s, s', w, wk);
    TimersHeld(s, f);
    FiberKeeps(s, s', f, fib, multiset{f}, multiset{});
  }

  lemma BeginCbCore(s: Rt, w: nat, cb: Cb, g: nat)
    requires Core(s.workers, s.fibers, s.active) && w < |s.workers| && s.workers[w].pc == Taken(CbTask(cb))
    requires g in s.fibers ==> s.fibers[g] == Fib(INIT, Pocketed)
    requires OnlyHere(s.workers, w, g)
    ensures Core(s.workers[w := s.workers[w].(pc := Running(g, true, BodyOf(cb)), pocket := Some(g))],
                 s.fibers[g := Fib(EXEC, if cb.UserCb? then User else Closure)], s.active)
  {
    hide Core;
    hide OnlyHere;
    CoreMove(s.workers, s.fibers, s.active, w, s.workers[w].(pc := Running(g, true, BodyOf(cb)), pocket := Some(g)),
             g, Fib(EXEC, if cb.UserCb? then User else Closure));
  }

  lemma BeginCbIs(s: Rt, w: nat, spare: nat)
    requires w < |s.workers| && s.workers[w].pc.Taken? && s.workers[w].pc.task.CbTask?
    ensures var s', g, cb := DoBegin(s, w, spare), CbFiber(s, w, spare), s.workers[w].pc.task.cb;
            var wk := s.workers[w].(pc := Running(g, true, BodyOf(cb)), pocket := Some(g));
            var fib := Fib(EXEC, if cb.UserCb? then User else Closure);
            && s' == s.(fibers := s.fibers[g := fib], workers := s.workers[w := wk])
            && WorkerTok(wk) == WorkerTok(s.workers[w])
            && Expect(s.fibers[g := fib], g) == 0 && TimerOf(fib.act).None?
  {}

  lemma PocketedExpects(fibers: map<nat, Fib>, g: nat)
    requires g in fibers ==> fibers[g] == Fib(INIT, Pocketed)
    ensures Expect(fibers, g) == 0
  {}

  lemma BeginCbKeeps(s: Rt, w: nat, spare: nat)
    requires Inv(s) && w < |s.workers| && s.workers[w].pc.Taken? && s.workers[w].pc.task.CbTask? && spare !in s.fibers
    ensures Inv(DoBegin(s, w, spare))
  {
    ReusesSafely(s, w, spare);
    BeginCbIs(s, w, spare);
    hide DoBegin;
    hide CbFiber;
    hide BodyOf;
    hide Expect;
    hide WorkerTok;
    hide OnlyHere;
    hide Tokens;
    hide TokensOk;
    hide Core;
    hide TimersOk;
    hide E.Mirror;
    var s', g := DoBegin(s, w, spare), CbFiber(s, w, spare);
    PocketedExpects(s.fibers, g);
    BeginCbCore(s, w, s.workers[w].pc.task.cb, g);
    BeginTokens(s, s', w, s'.workers[w]);
    FiberKeeps(s, s', g, s'.fibers[g], WorkerTok(s.workers[w]), WorkerTok(s.workers[w]));
  }

  lemma BeginKeeps(s: Rt, w: nat, spare: nat)
    requires Inv(s) && Enabled(s, Begin(w, spare))
    ensures Inv(DoBegin(s, w, spare))
  {
    if s.workers[w].pc.task.FiberTask? {
      BeginFiberKeeps(s, w, spare);
    } else {
      BeginCbKeeps(s, w, spare);
    }
  }

  lemma QueueAgainCore(s: Rt, w: nat)
    requires Core(s.workers, s.fibers, s.active) && w < |s.workers| && s.workers[w].pc.Requeue?
    ensures Core(s.workers[w := s.workers[w].(pc := Fetch)], s.fibers, s.active)
  {
    WorkerAt(s.workers, s.fibers, w);
    hide Sum;
    CoreWorker(s.workers, s.fibers, s.active, w, s.workers[w].(pc := Fetch));
  }

  /** The fiber that yielded goes from the worker's hand onto the queue. */
  lemma QueueAgainKeeps(s: Rt, w: nat)
    requires Inv(s) && w < |s.workers| && s.workers[w].pc.Requeue?
    ensures Inv(SetPc(PushJobs(s, [FiberTask(s.workers[w].pc.fiber)]), w, Fetch))
  {
    hide Tokens;
    hide TokensOk;
    hide Core;
    hide TimersOk;
    hide E.Mirror;
    var f, wk := s.workers[w].pc.fiber, s.workers[w].(pc := Fetch);
    var s1 := PushJobs(s, [FiberTask(f)]);
    TokensPushOne(s, FiberTask(f));
    TokensWorker(s1, w, wk);
    QueueAgainCore(s, w);
    hide Push;
    Undo(Tokens(SetPc(s1, w, Fetch)), Tokens(s), multiset{f});
    InvFrom(s, SetPc(s1, w, Fetch), multiset{}, multiset{});
  }

  // ---------------------------------------------------------------- the idle loop

  lemma ExpiredTimers(t: Timers<Cb>, now: nat, used: set<nat>, fibers: map<nat, Fib>)
    requires TimersOk(t.live, used, fibers)
    ensures TimersOk(Expire(t, now).live, used, fibers)
  {
    var live' := Expire(t, now).live;
    forall f | f in fibers
      ensures TimerHeldOk(live', used, fibers[f].act)
    {
      assert TimerHeldOk(t.live, used, fibers[f].act);
    }
  }

  lemma Handed(q: multiset<nat>, jobs: multiset<nat>, e: multiset<nat>, t: multiset<nat>, t': multiset<nat>,
      w: multiset<nat>)
    requires t == t' + jobs
    ensures (q + jobs) + e + t' + w == q + e + t + w
  {}

  lemma ExpireTokens(s: Rt, due: seq<nat>, readAt: nat)
    requires IsDueOrder(s.timers, readAt, due) && TimersOk(s.timers.live, s.usedTimers, s.fibers)
    ensures forall id :: id in due ==> id in s.timers.live
    ensures Tokens(PushJobs(s, DueJobs(s.timers.live, due)).(timers := Expire(s.timers, readAt))) == Tokens(s)
  {
    var jobs := DueJobs(s.timers.live, due);
    ExpireTok(s.timers, readAt, due);
    PushTok(s.queue, jobs);
    hide Push;
    hide Sum;
    hide SumMap;
    hide JobsTok;
    hide DueJobs;
    hide Expire;
    hide IsDueOrder;
    hide TimersOk;
    Handed(Sum(s.queue, EntryTok), JobsTok(jobs), Sum(s.table.fds, EventsTok),
           SumMap(s.timers.live, TimerTok), SumMap(Expire(s.timers, readAt).live, TimerTok), Sum(s.workers, WorkerTok));
  }

  lemma QueueDueKeeps(s: Rt, w: nat, due: seq<nat>, readAt: nat)
    requires Inv(s) && w < |s.workers| && s.workers[w].pc.Waiting? && IsDueOrder(s.timers, readAt, due)
    ensures Inv(QueueDue(s, w, due, readAt))
  {
    var s0 := PushJobs(s, DueJobs(s.timers.live, due)).(timers := Expire(s.timers, readAt));
    var s1 := s0.(rollbacks := QueueDue(s, w, due, readAt).rollbacks);
    TokensSame(s0, s1);
    hide Tokens;
    hide TokensOk;
    hide Core;
    hide TimersOk;
    hide E.Mirror;
    hide TakesForRollback;
    ExpireTokens(s, due, readAt);
    ExpiredTimers(s.timers, readAt, s.usedTimers, s.fibers);
    hide IsDueOrder;
    hide Expire;
    hide Push;
    hide DueJobs;
    Nothing(Tokens(s));
    InvFrom(s, s1, multiset{}, multiset{});
    IdleMove(s1, QueueDue(s, w, due, readAt), w, s.workers[w].(pc := Dispatching));
  }

  lemma ReportKeeps(s: Rt, fd: nat, reported: set<E.Event>, broken: bool, ok: bool)
    requires Inv(s) && fd < |s.table.fds|
    requires E.Current(s.table.fds[fd], E.RealEvents(s.table.fds[fd], reported, broken))
    ensures Inv(Report(s, fd, reported, broken, ok))
  {
    hide Tokens;
    hide TokensOk;
    hide Core;
    hide TimersOk;
    hide E.Mirror;
    var m := s.table.fds[fd];
    var hit := E.RealEvents(m, reported, broken);
    if ok && !(hit !! m.Keys) {
      TokensWake(s, fd, hit);
      hide E.Remove;
      hide E.Woken;
      SideKeeps(s, Report(s, fd, reported, broken, ok));
    } else {
      NothingPushed(s);
      assert Report(s, fd, reported, broken, ok) == s;
    }
  }

  lemma IdleStepKeeps(s: Rt, step: Step)
    requires Inv(s) && Enabled(s, step)
    requires step.FindNothing? || step.ReadTimers? || step.ReadPending? || step.ReadQueue? || step.EndIdle?
    ensures Inv(Do(s, step))
  {
    hide Inv;
    IdleMove(s, Do(s, step), step.w, Do(s, step).workers[step.w]);
  }

  lemma ClockKeeps(s: Rt, s': Rt)
    requires Inv(s) && s' == s.(stop := s'.stop, now := s'.now)
    ensures Inv(s')
  {
    TokensSame(s, s');
    hide Tokens;
    hide TokensOk;
    hide Core;
    hide TimersOk;
    hide E.Mirror;
    SideKeeps(s, s');
  }

  lemma StepKeeps(s: Rt, step: Step)
    requires Inv(s) && Enabled(s, step)
    ensures Inv(Do(s, step))
  {
    match step
    case Outside(a) => SideActionKeeps(s, a);
    case Stop => ClockKeeps(s, s.(stop := true));
    case Tick(to) => ClockKeeps(s, s.(now := to));
    case TakeTask(w, i) => TakeKeeps(s, w, i);
    case Begin(w, spare) => BeginKeeps(s, w, spare);
    case RunFiber(w, a) => ActionKeeps(s, w, a);
    case QueueAgain(w) => QueueAgainKeeps(s, w);
    case Expiring(w, due, readAt) => QueueDueKeeps(s, w, due, readAt);
    case Reporting(_, fd, reported, broken, ok) => ReportKeeps(s, fd, reported, broken, ok);
    case _ => IdleStepKeeps(s, step);
  }

  // ---------------------------------------------------------------- runs

  lemma StartTokens(n: nat, t0: nat)
    ensures Tokens(Init(n, t0)) == multiset{}
  {
    var s := Init(n, t0);
    SumEmpty(s.table.fds, EventsTok);
    SumEmpty(s.workers, WorkerTok);
  }

  lemma StartCore(n: nat, t0: nat)
    ensures var s := Init(n, t0); Core(s.workers, s.fibers, s.active)
  {
    var ws := Init(n, t0).workers;
    SumEmpty(ws, RunTok);
    SumEmpty(ws, ActiveTok);
    hide Sum;
    assert forall w :: 0 <= w < |ws| ==> ws[w] == Worker(Fetch, false, None);
  }

  lemma StartTable(n: nat, t0: nat)
    ensures E.Mirror(Init(n, t0).table)
  {
    hide E.Mirror;
    E.NewMirror<Job>(32);
  }

  lemma Start(n: nat, t0: nat)
    ensures Inv(Init(n, t0))
  {
    var s := Init(n, t0);
    StartTokens(n, t0);
    StartCore(n, t0);
    StartTable(n, t0);
    hide Tokens;
    hide Core;
    hide E.Mirror;
  }

  lemma RunStep(ss: seq<Rt>, steps: seq<Step>, n: nat, t0: nat, i: nat)
    requires IsRun(ss, steps, n, t0) && i < |steps|
    ensures Enabled(ss[i], steps[i]) && ss[i+1] == Do(ss[i], steps[i])
  {
    hide Enabled;
    hide Do;
    var step := steps[i];
  }

  lemma {:induction false} EveryRunKeeps(ss: seq<Rt>, steps: seq<Step>, n: nat, t0: nat, k: nat)
    requires IsRun(ss, steps, n, t0) && k < |ss|
    ensures Inv(ss[k])
  {
    hide Inv;
    hide Enabled;
    hide Do;
    if k == 0 {
      Start(n, t0);
    } else {
      EveryRunKeeps(ss, steps, n, t0, k - 1);
      RunStep(ss, steps, n, t0, k - 1);
      StepKeeps(ss[k-1], steps[k-1]);
    }
  }
}
