/** Everything a running fiber can do keeps the invariant. */
module RuntimeActions {
  import opened Wrappers
  import opened Scheduling
  import opened TimerSpec
  import opened Runtime
  import opened RuntimeInv
  import opened RuntimeSteps
  import opened Sums
  import E = EventTable

  // ---------------------------------------------------------------- wake-ups, one part at a time

  lemma TokensSame(s: Rt, s': Rt)
    requires s'.queue == s.queue && s'.table.fds == s.table.fds && s'.timers.live == s.timers.live
    requires s'.workers == s.workers
    ensures Tokens(s') == Tokens(s)
  {
    hide Sum;
    hide SumMap;
  }

  lemma TokensPush(s: Rt, jobs: seq<Job>)
    ensures Tokens(PushJobs(s, jobs)) == Tokens(s) + JobsTok(jobs)
  {
    PushTok(s.queue, jobs);
    hide Sum;
    hide SumMap;
    hide Push;
    hide JobsTok;
  }

  lemma TokensPushOne(s: Rt, job: Job)
    ensures Tokens(PushJobs(s, [job])) == Tokens(s) + JobTok(job)
  {
    TokensPush(s, [job]);
    SumOne(job, JobTok);
  }

  lemma TokensTake(s: Rt, i: nat)
    requires i < |s.queue|
    ensures Tokens(s.(queue := Without(s.queue, i))) + JobTok(s.queue[i].task) == Tokens(s)
  {
    SumRemove(s.queue, i, EntryTok);
    hide Sum;
    hide SumMap;
    hide JobTok;
  }

  lemma LastMoves(a: multiset<nat>, x: multiset<nat>, minus: multiset<nat>, y: multiset<nat>, plus: multiset<nat>)
    requires x + minus == y + plus
    ensures (a + x) + minus == (a + y) + plus
  {
    assert (a + x) + minus == a + (x + minus);
  }

  lemma TokensWorker(s: Rt, w: nat, wk: Worker)
    requires w < |s.workers|
    ensures Tokens(s.(workers := s.workers[w := wk])) + WorkerTok(s.workers[w]) == Tokens(s) + WorkerTok(wk)
  {
    WorkerSums(s.workers, w, wk);
    hide Sum;
    hide SumMap;
    hide WorkerTok;
    LastMoves(Sum(s.queue, EntryTok) + Sum(s.table.fds, EventsTok) + SumMap(s.timers.live, TimerTok),
              Sum(s.workers[w := wk], WorkerTok), WorkerTok(s.workers[w]), Sum(s.workers, WorkerTok), WorkerTok(wk));
  }

  lemma TimersMove(a: multiset<nat>, t: multiset<nat>, plus: multiset<nat>, b: multiset<nat>)
    ensures a + (t + plus) + b == (a + t + b) + plus
  {}

  lemma ArmedOnly(s: Rt, timer: nat, ms: nat, recurring: bool, cb: Cb)
    ensures var s' := ArmTimer(s, timer, ms, recurring, cb); s' == s.(timers := s'.timers, usedTimers := s'.usedTimers)
    ensures ArmTimer(s, timer, ms, recurring, cb).usedTimers == s.usedTimers + {timer}
    ensures ArmTimer(s, timer, ms, recurring, cb).timers.live
              == s.timers.live[timer := Rec(ms, s.now + ms, recurring, cb)]
  {}

  lemma TokensTimers(s: Rt, s': Rt, plus: multiset<nat>)
    requires s'.queue == s.queue && s'.table == s.table && s'.workers == s.workers
    requires SumMap(s'.timers.live, TimerTok) == SumMap(s.timers.live, TimerTok) + plus
    ensures Tokens(s') == Tokens(s) + plus
  {
    hide Sum;
    hide SumMap;
    TimersMove(Sum(s.queue, EntryTok) + Sum(s.table.fds, EventsTok),
               SumMap(s.timers.live, TimerTok), plus, Sum(s.workers, WorkerTok));
  }

  lemma TokensArm(s: Rt, timer: nat, ms: nat, recurring: bool, cb: Cb)
    requires timer !in s.timers.live
    ensures Tokens(ArmTimer(s, timer, ms, recurring, cb)) == Tokens(s) + CbTok(cb)
  {
    ArmTok(s.timers.live, timer, Rec(ms, s.now + ms, recurring, cb));
    ArmedOnly(s, timer, ms, recurring, cb);
    hide *;
    TokensTimers(s, ArmTimer(s, timer, ms, recurring, cb), CbTok(cb));
  }

  lemma TokensDrop(s: Rt, timer: Option<nat>)
    requires timer.Some? && timer.value in s.timers.live ==> CbTok(s.timers.live[timer.value].cb) == multiset{}
    ensures Tokens(DropTimer(s, timer)) == Tokens(s)
  {
    if timer.Some? {
      DropTok(s.timers.live, timer.value);
    }
    hide Sum;
    hide SumMap;
  }

  lemma TokensAddEvent(s: Rt, fd: nat, ev: E.Event, job: Job, ok: bool)
    requires E.Mirror(s.table) && ev !in EventsOf(s, fd)
    ensures |s.table.fds| >= 2
    ensures Tokens(s.(table := E.AddEvent(s.table, fd, ev, job, ok)))
         == Tokens(s) + if ok then JobTok(job) else multiset{}
    ensures E.Mirror(E.AddEvent(s.table, fd, ev, job, ok))
  {
    E.MirrorSize(s.table);
    AddEventTok(s.table, fd, ev, job, ok);
    E.AddKeeps(s.table, fd, ev, job, ok);
    hide Sum;
    hide SumMap;
    hide JobTok;
    hide E.AddEvent;
    hide E.Mirror;
  }

  lemma TokensRemove(s: Rt, fd: nat, evs: set<E.Event>)
    requires E.Mirror(s.table) && fd < |s.table.fds| && evs <= s.table.fds[fd].Keys && evs != {}
    ensures Tokens(s) == Tokens(s.(table := E.Remove(s.table, fd, evs))) + JobsTok(E.Woken(s.table.fds[fd], evs))
    ensures E.Mirror(E.Remove(s.table, fd, evs))
  {
    RemoveTok(s.table, fd, evs);
    E.RemoveKeeps(s.table, fd, evs);
    hide Sum;
    hide SumMap;
    hide JobsTok;
    hide E.Remove;
    hide E.Woken;
    hide E.Mirror;
  }

  /** Events taken out and their jobs queued. */
  lemma TokensWake(s: Rt, fd: nat, evs: set<E.Event>)
    requires E.Mirror(s.table) && fd < |s.table.fds| && evs <= s.table.fds[fd].Keys && evs != {}
    ensures Tokens(PushJobs(s.(table := E.Remove(s.table, fd, evs)), E.Woken(s.table.fds[fd], evs))) == Tokens(s)
    ensures E.Mirror(E.Remove(s.table, fd, evs))
  {
    var s1 := s.(table := E.Remove(s.table, fd, evs));
    TokensRemove(s, fd, evs);
    TokensPush(s1, E.Woken(s.table.fds[fd], evs));
  }

  // ---------------------------------------------------------------- timers

  lemma TimersAct(live: map<nat, Rec<Cb>>, used: set<nat>, fibers: map<nat, Fib>, f: nat, fib: Fib)
    requires TimersOk(live, used, fibers) && TimerHeldOk(live, used, fib.act)
    ensures TimersOk(live, used, fibers[f := fib])
  {
    hide TimerHeldOk;
  }

  lemma TimersArm(live: map<nat, Rec<Cb>>, used: set<nat>, fibers: map<nat, Fib>, id: nat, r: Rec<Cb>)
    requires TimersOk(live, used, fibers) && id !in used && (r.recurring ==> r.cb.UserCb?)
    ensures TimersOk(live[id := r], used + {id}, fibers)
  {
    forall f | f in fibers
      ensures TimerHeldOk(live[id := r], used + {id}, fibers[f].act)
    {
      assert TimerHeldOk(live, used, fibers[f].act);
    }
  }

  lemma TimersDrop(live: map<nat, Rec<Cb>>, used: set<nat>, fibers: map<nat, Fib>, id: nat)
    requires TimersOk(live, used, fibers)
    ensures TimersOk(live - {id}, used, fibers)
  {
    forall f | f in fibers
      ensures TimerHeldOk(live - {id}, used, fibers[f].act)
    {
      assert TimerHeldOk(live, used, fibers[f].act);
    }
  }

  lemma TimersDropped(s: Rt, timer: Option<nat>)
    requires TimersOk(s.timers.live, s.usedTimers, s.fibers)
    ensures TimersOk(DropTimer(s, timer).timers.live, s.usedTimers, s.fibers)
  {
    if timer.Some? {
      TimersDrop(s.timers.live, s.usedTimers, s.fibers, timer.value);
    }
  }

  lemma TimersHeld(s: Rt, f: nat)
    requires TimersOk(s.timers.live, s.usedTimers, s.fibers) && f in s.fibers
    ensures TimerHeldOk(s.timers.live, s.usedTimers, s.fibers[f].act)
  {
    hide TimerHeldOk;
  }

  // ---------------------------------------------------------------- three kinds of step

  lemma InvFrom(s: Rt, s': Rt, minus: multiset<nat>, plus: multiset<nat>)
    requires TokensOk(Tokens(s), s.fibers) && Tokens(s') + minus == Tokens(s) + plus
    requires forall f :: Expect(s'.fibers, f) + minus[f] == Expect(s.fibers, f) + plus[f]
    requires Core(s'.workers, s'.fibers, s'.active)
    requires TimersOk(s'.timers.live, s'.usedTimers, s'.fibers)
    requires E.Mirror(s'.table)
    ensures Inv(s')
  {
    hide Tokens;
    hide TokensOk;
    hide Core;
    hide TimersOk;
    hide E.Mirror;
    Rebalance(Tokens(s), s.fibers, Tokens(s'), s'.fibers, minus, plus);
  }

  /** A worker moves and no fiber does. */
  lemma WorkerKeeps(s: Rt, s': Rt)
    requires Inv(s) && Tokens(s') == Tokens(s) && s'.fibers == s.fibers && Core(s'.workers, s.fibers, s'.active)
    requires s'.timers == s.timers && s'.usedTimers == s.usedTimers && s'.table == s.table
    ensures Inv(s')
  {
    hide Tokens;
    hide TokensOk;
    hide Core;
    hide TimersOk;
    hide E.Mirror;
  }

  /** No fiber and no worker moves. */
  lemma SideKeeps(s: Rt, s': Rt)
    requires Inv(s) && Tokens(s') == Tokens(s)
    requires s'.fibers == s.fibers && s'.workers == s.workers && s'.active == s.active
    requires TimersOk(s'.timers.live, s'.usedTimers, s.fibers)
    requires E.Mirror(s'.table)
    ensures Inv(s')
  {
    hide Tokens;
    hide TokensOk;
    hide Core;
    hide TimersOk;
    hide E.Mirror;
  }

  function Armed(act: Act): nat {
    if act.SleepArmed? || act.IoArmed? then 1 else 0
  }

  /** The fiber of worker w goes on to act. */
  lemma ActKeeps(s: Rt, s': Rt, w: nat, act: Act)
    requires Inv(s) && Runs(s, w) && s.workers[w].pc.body == Code && act != Closure && act != Pocketed
    requires s'.fibers == s.fibers[Me(s, w) := s.fibers[Me(s, w)].(act := act)]
    requires s'.workers == s.workers && s'.active == s.active
    requires Tokens(s') + multiset{}[Me(s, w) := Armed(MyAct(s, w))] == Tokens(s) + multiset{}[Me(s, w) := Armed(act)]
    requires TimersOk(s'.timers.live, s'.usedTimers, s.fibers) && TimerHeldOk(s'.timers.live, s'.usedTimers, act)
    requires E.Mirror(s'.table)
    ensures Inv(s')
  {
    hide Tokens;
    hide TokensOk;
    hide TimersOk;
    hide TimerHeldOk;
    hide E.Mirror;
    CoreAct(s, w, act);
    RunsExec(s, w);
    hide Core;
    var f := Me(s, w);
    TimersAct(s'.timers.live, s'.usedTimers, s.fibers, f, s.fibers[f].(act := act));
    InvFrom(s, s', multiset{}[f := Armed(MyAct(s, w))], multiset{}[f := Armed(act)]);
  }

  // ---------------------------------------------------------------- the sleep hooks and do_io

  lemma One(f: nat)
    ensures multiset{}[f := 1] == multiset{f} && multiset{}[f := 0] == multiset{}
  {}

  lemma Arming(s: Rt, timer: nat, ms: nat, recurring: bool, cb: Cb)
    requires Inv(s) && timer !in s.usedTimers && (recurring ==> cb.UserCb?)
    ensures var s' := ArmTimer(s, timer, ms, recurring, cb);
            Tokens(s') == Tokens(s) + CbTok(cb) && TimersOk(s'.timers.live, s'.usedTimers, s.fibers)
  {
    hide Tokens;
    hide TokensOk;
    hide Core;
    hide E.Mirror;
    hide First;
    TimersArm(s.timers.live, s.usedTimers, s.fibers, timer, Rec(ms, s.now + ms, recurring, cb));
    TokensArm(s, timer, ms, recurring, cb);
  }

  lemma TokensSameCalls(s: Rt, s': Rt)
    requires s' == s.(fibers := s'.fibers, calls := s'.calls, usedCalls := s'.usedCalls, timeouts := s'.timeouts)
    ensures Tokens(s') == Tokens(s)
  {
    TokensSame(s, s');
  }

  /** The wake-up is armed before the fiber suspends. */
  lemma StartSleepKeeps(s: Rt, w: nat, ms: nat, timer: nat)
    requires Inv(s) && InUserCode(s, w) && timer !in s.usedTimers
    ensures Inv(StartSleep(s, w, ms, timer))
  {
    var f := Me(s, w);
    Arming(s, timer, ms, false, WakeSleeper(f));
    hide Tokens;
    hide TokensOk;
    hide Core;
    hide E.Mirror;
    hide TimersOk;
    ArmedOnly(s, timer, ms, false, WakeSleeper(f));
    hide ArmTimer;
    var s1 := ArmTimer(s, timer, ms, false, WakeSleeper(f));
    TokensSameCalls(s1, SetAct(s1, f, SleepArmed));
    One(f);
    ActKeeps(s, SetAct(s1, f, SleepArmed), w, SleepArmed);
  }

  /** A step that moves no wake-up and ends in the fiber doing act. */
  lemma PlainActKeeps(s: Rt, s': Rt, w: nat, act: Act)
    requires Inv(s) && Runs(s, w) && s.workers[w].pc.body == Code && act != Closure && act != Pocketed
    requires Armed(MyAct(s, w)) == Armed(act) == 0
    requires s'.fibers == s.fibers[Me(s, w) := s.fibers[Me(s, w)].(act := act)]
    requires s'.workers == s.workers && s'.active == s.active && s'.table == s.table
    requires Tokens(s') == Tokens(s)
    requires TimersOk(s'.timers.live, s'.usedTimers, s.fibers) && TimerHeldOk(s'.timers.live, s'.usedTimers, act)
    ensures Inv(s')
  {
    One(Me(s, w));
    hide Tokens;
    hide TimersOk;
    hide TimerHeldOk;
    ActKeeps(s, s', w, act);
  }

  lemma StartCallKeeps(s: Rt, w: nat, id: nat, call: Call)
    requires Inv(s) && InUserCode(s, w)
    ensures Inv(StartCall(s, w, id, call))
  {
    hide Tokens;
    hide TokensOk;
    hide Core;
    hide E.Mirror;
    hide TimersOk;
    TokensSameCalls(s, StartCall(s, w, id, call));
    PlainActKeeps(s, StartCall(s, w, id, call), w, IoTry(id));
  }

  /** In do_io the fiber is never a worker's own closure. */
  lemma InCode(s: Rt, w: nat)
    requires Inv(s) && Runs(s, w)
    ensures s.workers[w].pc.body == Code <==> MyAct(s, w) != Closure
  {
    RunsExec(s, w);
  }

  lemma ArmSomeKeeps(s: Rt, w: nat, timer: nat, ms: nat, cb: Cb)
    requires Inv(s) && Runs(s, w) && MyAct(s, w).IoTry? && timer !in s.usedTimers && cb.TimeUp?
    ensures Inv(SetAct(ArmTimer(s, timer, ms, false, cb), Me(s, w), IoTimed(MyAct(s, w).call, Some(timer))))
  {
    var f, act := Me(s, w), IoTimed(MyAct(s, w).call, Some(timer));
    Arming(s, timer, ms, false, cb);
    InCode(s, w);
    hide Tokens;
    hide TokensOk;
    hide Core;
    hide E.Mirror;
    hide TimersOk;
    ArmedOnly(s, timer, ms, false, cb);
    hide ArmTimer;
    var s1 := ArmTimer(s, timer, ms, false, cb);
    TokensSameCalls(s1, SetAct(s1, f, act));
    PlainActKeeps(s, SetAct(s1, f, act), w, act);
  }

  lemma StartTimeoutKeeps(s: Rt, w: nat, timer: nat)
    requires Inv(s) && Runs(s, w) && MyAct(s, w).IoTry? && MyAct(s, w).call in s.calls && timer !in s.usedTimers
    ensures Inv(StartTimeout(s, w, timer))
  {
    var f, act := Me(s, w), MyAct(s, w);
    var c := s.calls[act.call];
    hide Tokens;
    hide TokensOk;
    hide Core;
    hide E.Mirror;
    hide TimersOk;
    InCode(s, w);
    if c.timeout.None? {
      var s' := SetAct(s, f, IoTimed(act.call, None));
      TokensSameCalls(s, s');
      PlainActKeeps(s, s', w, IoTimed(act.call, None));
    } else {
      ArmSomeKeeps(s, w, timer, c.timeout.value, TimeUp(act.call, c.fd, c.ev));
    }
  }

  /** A call's timer is its time-out, so dropping it loses no wake-up. */
  lemma DropHeld(s: Rt, w: nat)
    requires Inv(s) && Runs(s, w)
    ensures Tokens(DropTimer(s, TimerOf(MyAct(s, w)))) == Tokens(s)
    ensures TimersOk(DropTimer(s, TimerOf(MyAct(s, w))).timers.live, s.usedTimers, s.fibers)
  {
    var t := TimerOf(MyAct(s, w));
    TimersHeld(s, Me(s, w));
    hide Tokens;
    hide TimersOk;
    TokensDrop(s, t);
    TimersDropped(s, t);
  }

  lemma DroppedOnly(s: Rt, t: Option<nat>)
    ensures DropTimer(s, t) == s.(timers := DropTimer(s, t).timers)
  {}

  lemma DroppedCommutes(s: Rt, f: nat, t: Option<nat>)
    requires f in s.fibers
    ensures f in DropTimer(s, t).fibers
    ensures SetAct(DropTimer(s, t), f, User) == DropTimer(SetAct(s, f, User), t)
  {}

  lemma TimerHeldSame(live: map<nat, Rec<Cb>>, used: set<nat>, act: Act, act': Act)
    requires TimerHeldOk(live, used, act) && TimerOf(act') == TimerOf(act)
    ensures TimerHeldOk(live, used, act')
  {}

  /** The registration takes the fiber's one wake-up. */
  lemma RegisteredKeeps(s: Rt, w: nat, fd: nat, ev: E.Event, act: Act)
    requires Inv(s) && Runs(s, w) && s.workers[w].pc.body == Code && |s.table.fds| >= 2 && ev !in EventsOf(s, fd)
    requires Armed(MyAct(s, w)) == 0 && act.IoArmed? && TimerOf(act) == TimerOf(MyAct(s, w))
    ensures Inv(SetAct(s.(table := E.AddEvent(s.table, fd, ev, FiberTask(Me(s, w)), true)), Me(s, w), act))
  {
    var f := Me(s, w);
    hide Tokens;
    hide TokensOk;
    hide Core;
    hide E.Mirror;
    hide TimersOk;
    hide E.AddEvent;
    TimersHeld(s, f);
    TokensAddEvent(s, fd, ev, FiberTask(f), true);
    var s1 := s.(table := E.AddEvent(s.table, fd, ev, FiberTask(f), true));
    TokensSameCalls(s1, SetAct(s1, f, act));
    One(f);
    hide EventsOf;
    hide TimerHeldOk;
    TimerHeldSame(s.timers.live, s.usedTimers, MyAct(s, w), act);
    ActKeeps(s, SetAct(s1, f, act), w, act);
  }

  lemma NextActKeeps(s: Rt, w: nat, timer: Option<nat>, act: Act, s': Rt)
    requires Inv(s) && Runs(s, w) && s.workers[w].pc.body == Code
    requires Armed(MyAct(s, w)) == 0 && timer == TimerOf(MyAct(s, w)) && (act == User || act.IoTry?)
    requires s' == DropTimer(s, timer).(fibers := s.fibers[Me(s, w) := s.fibers[Me(s, w)].(act := act)],
                                        calls := s'.calls, timeouts := s'.timeouts)
    ensures Inv(s')
  {
    hide Tokens;
    hide TokensOk;
    hide Core;
    hide E.Mirror;
    hide TimersOk;
    DropHeld(s, w);
    DroppedOnly(s, timer);
    hide DropTimer;
    TokensSameCalls(DropTimer(s, timer), s');
    PlainActKeeps(s, s', w, act);
  }

  /** A call is over: its timer is dropped and its record with it. */
  lemma StopCallKeeps(s: Rt, w: nat, timer: Option<nat>, call: nat)
    requires Inv(s) && Runs(s, w) && s.workers[w].pc.body == Code
    requires Armed(MyAct(s, w)) == 0 && timer == TimerOf(MyAct(s, w))
    ensures Me(s, w) in DropTimer(s, timer).fibers
    ensures Inv(EndCall(SetAct(DropTimer(s, timer), Me(s, w), User), call))
  {
    NextActKeeps(s, w, timer, User, EndCall(SetAct(DropTimer(s, timer), Me(s, w), User), call));
  }

  lemma TryRegisterKeeps(s: Rt, w: nat, ok: bool)
    requires Inv(s) && Runs(s, w) && MyAct(s, w).IoTimed? && MyAct(s, w).call in s.calls && |s.table.fds| >= 2
    requires var c := s.calls[MyAct(s, w).call]; c.ev !in EventsOf(s, c.fd)
    ensures Inv(TryRegister(s, w, ok))
  {
    var f, act := Me(s, w), MyAct(s, w);
    var c := s.calls[act.call];
    InCode(s, w);
    hide Tokens;
    hide TokensOk;
    hide Core;
    hide E.Mirror;
    hide TimersOk;
    hide E.AddEvent;
    if ok {
      RegisteredKeeps(s, w, c.fd, c.ev, IoArmed(act.call, act.timer));
    } else {
      TokensAddEvent(s, c.fd, c.ev, FiberTask(f), false);
      var s1 := s.(table := E.AddEvent(s.table, c.fd, c.ev, FiberTask(f), false));
      SideKeeps(s, s1);
      StopCallKeeps(s1, w, act.timer, act.call);
      DroppedCommutes(s1, f, act.timer);
    }
  }

  lemma WakeUpKeeps(s: Rt, w: nat, again: bool)
    requires Inv(s) && Runs(s, w) && MyAct(s, w).IoWaiting? && MyAct(s, w).call in s.calls
    ensures Inv(WakeUp(s, w, again))
  {
    var act := MyAct(s, w);
    InCode(s, w);
    hide Inv;
    DroppedOnly(s, act.timer);
    var next := if !s.calls[act.call].timedOut && again then IoTry(act.call) else User;
    NextActKeeps(s, w, act.timer, next, WakeUp(s, w, again));
  }

  // ---------------------------------------------------------------- registrations and timers of the user's

  lemma AddUserEventKeeps(s: Rt, fd: nat, ev: E.Event, id: nat, ok: bool)
    requires Inv(s) && |s.table.fds| >= 2 && ev !in EventsOf(s, fd)
    ensures Inv(s.(table := E.AddEvent(s.table, fd, ev, CbTask(UserCb(id)), ok)))
  {
    hide Tokens;
    hide TokensOk;
    hide Core;
    hide E.Mirror;
    hide TimersOk;
    hide E.AddEvent;
    TokensAddEvent(s, fd, ev, CbTask(UserCb(id)), ok);
    SideKeeps(s, s.(table := E.AddEvent(s.table, fd, ev, CbTask(UserCb(id)), ok)));
  }

  lemma WokenOne(m: map<E.Event, Job>, ev: E.Event)
    requires ev in m
    ensures E.Woken(m, {ev}) == [m[ev]]
  {
    assert ev.READ? || ev.WRITE?;
  }

  lemma DelUserEventKeeps(s: Rt, fd: nat, ev: E.Event, ok: bool)
    requires Inv(s)
    requires ev in EventsOf(s, fd) ==> EventsOf(s, fd)[ev].CbTask? && EventsOf(s, fd)[ev].cb.UserCb?
    ensures Inv(s.(table := E.RemoveEvent(s.table, fd, ev, ok)))
  {
    hide Tokens;
    hide TokensOk;
    hide Core;
    hide E.Mirror;
    hide TimersOk;
    var m, s' := EventsOf(s, fd), s.(table := E.RemoveEvent(s.table, fd, ev, ok));
    if ev in m && ok {
      TokensRemove(s, fd, {ev});
      WokenOne(m, ev);
      SumOne(m[ev], JobTok);
      hide E.Remove;
      SideKeeps(s, s');
    } else {
      assert s' == s;
    }
  }

  lemma NothingPushed(s: Rt)
    ensures PushJobs(s, []) == s
  {
    assert Push(s.queue, []) == s.queue;
  }

  /** Every use of cancelEvent moves the wake-up from the registration to the queue. */
  lemma CancelAtKeeps(s: Rt, fd: nat, ev: E.Event, ok: bool)
    requires Inv(s)
    ensures Inv(CancelAt(s, fd, ev, ok)) && Tokens(CancelAt(s, fd, ev, ok)) == Tokens(s)
  {
    hide Tokens;
    hide TokensOk;
    hide Core;
    hide E.Mirror;
    hide TimersOk;
    var m, s' := EventsOf(s, fd), CancelAt(s, fd, ev, ok);
    if ev in m && ok {
      TokensWake(s, fd, {ev});
      WokenOne(m, ev);
      hide E.Remove;
      SideKeeps(s, s');
    } else {
      NothingPushed(s);
      assert s' == s;
    }
  }

  lemma CancelAllKeeps(s: Rt, fd: nat, ok: bool)
    requires Inv(s)
    ensures Inv(CancelAllAt(s, fd, ok))
  {
    hide Tokens;
    hide TokensOk;
    hide Core;
    hide E.Mirror;
    hide TimersOk;
    var m, s' := EventsOf(s, fd), CancelAllAt(s, fd, ok);
    if m != map[] && ok {
      assert m.Keys != {};
      TokensWake(s, fd, m.Keys);
      hide E.Remove;
      SideKeeps(s, s');
    } else {
      NothingPushed(s);
      assert m == map[] ==> E.Woken(m, m.Keys) == [];
      assert s' == s;
    }
  }

  lemma AddUserTimerKeeps(s: Rt, timer: nat, ms: nat, recurring: bool, id: nat)
    requires Inv(s) && timer !in s.usedTimers
    ensures Inv(ArmTimer(s, timer, ms, recurring, UserCb(id)))
  {
    Arming(s, timer, ms, recurring, UserCb(id));
    hide Tokens;
    hide TokensOk;
    hide Core;
    hide E.Mirror;
    hide TimersOk;
    ArmedOnly(s, timer, ms, recurring, UserCb(id));
    hide ArmTimer;
    SideKeeps(s, ArmTimer(s, timer, ms, recurring, UserCb(id)));
  }

  lemma CancelUserTimerKeeps(s: Rt, timer: nat)
    requires Inv(s) && (timer in s.timers.live ==> s.timers.live[timer].cb.UserCb?)
    ensures Inv(DropTimer(s, Some(timer)))
  {
    hide Tokens;
    hide TokensOk;
    hide Core;
    hide E.Mirror;
    hide TimersOk;
    TokensDrop(s, Some(timer));
    TimersDropped(s, Some(timer));
    SideKeeps(s, DropTimer(s, Some(timer)));
  }

  lemma TimersRetimed(live: map<nat, Rec<Cb>>, used: set<nat>, fibers: map<nat, Fib>, timer: nat, r: Rec<Cb>)
    requires TimersOk(live, used, fibers) && timer in live && r.cb == live[timer].cb
    requires r.recurring == live[timer].recurring
    ensures TimersOk(live[timer := r], used, fibers)
  {
    forall f | f in fibers
      ensures TimerHeldOk(live[timer := r], used, fibers[f].act)
    {
      assert TimerHeldOk(live, used, fibers[f].act);
    }
  }

  lemma RetimedTok(live: map<nat, Rec<Cb>>, timer: nat, r: Rec<Cb>)
    requires timer in live && r.cb == live[timer].cb && r.cb.UserCb?
    ensures SumMap(live[timer := r], TimerTok) == SumMap(live, TimerTok)
  {
    DropTok(live, timer);
    ArmTok(live - {timer}, timer, r);
    assert live[timer := r] == (live - {timer})[timer := r];
  }

  /** A timer of the user's is due at another time. */
  lemma RetimeKeeps(s: Rt, t': Timers<Cb>, timer: nat, r: Rec<Cb>)
    requires Inv(s) && timer in s.timers.live && t'.live == s.timers.live[timer := r]
    requires r.cb == s.timers.live[timer].cb && r.cb.UserCb? && r.recurring == s.timers.live[timer].recurring
    ensures Inv(s.(timers := t'))
  {
    hide TokensOk;
    hide Core;
    hide E.Mirror;
    TimersRetimed(s.timers.live, s.usedTimers, s.fibers, timer, r);
    hide TimersOk;
    RetimedTok(s.timers.live, timer, r);
    hide Sum;
    hide SumMap;
    assert Tokens(s.(timers := t')) == Tokens(s);
    SideKeeps(s, s.(timers := t'));
  }

  /** What a reset makes of a live timer. */
  lemma ResetIs(s: Rt, timer: nat, ms: nat, fromNow: bool)
    requires timer in s.timers.live && ResetStart(s.timers.live[timer], s.now, fromNow) >= 0
    ensures var r, t' := s.timers.live[timer], ResetTimer(s, timer, ms, fromNow).timers;
            || t' == s.timers
            || t'.live == s.timers.live[timer := r.(ms := ms, next := ResetStart(r, s.now, fromNow) + ms)]
    ensures ResetTimer(s, timer, ms, fromNow) == s.(timers := ResetTimer(s, timer, ms, fromNow).timers)
  {
    hide First;
    var r := s.timers.live[timer];
    var r' := r.(ms := ms, next := ResetStart(r, s.now, fromNow) + ms);
    assert (s.timers.live - {timer})[timer := r'] == s.timers.live[timer := r'];
  }

  lemma ResetKeeps(s: Rt, timer: nat, ms: nat, fromNow: bool)
    requires Inv(s) && UsersTimer(s, timer)
    requires timer in s.timers.live ==> ResetStart(s.timers.live[timer], s.now, fromNow) >= 0
    ensures Inv(ResetTimer(s, timer, ms, fromNow))
  {
    if timer in s.timers.live {
      ResetIs(s, timer, ms, fromNow);
      hide Inv;
      hide ResetTimer;
      var r, t' := s.timers.live[timer], ResetTimer(s, timer, ms, fromNow).timers;
      if t' != s.timers {
        RetimeKeeps(s, t', timer, r.(ms := ms, next := ResetStart(r, s.now, fromNow) + ms));
      } else {
        assert ResetTimer(s, timer, ms, fromNow) == s;
      }
    }
  }

  lemma RefreshKeeps(s: Rt, timer: nat)
    requires Inv(s) && UsersTimer(s, timer)
    ensures Inv(s.(timers := Refresh(s.timers, timer, s.now)))
  {
    hide Inv;
    if timer in s.timers.live {
      var r := s.timers.live[timer];
      RetimeKeeps(s, Refresh(s.timers, timer, s.now), timer, r.(next := s.now + r.ms));
    } else {
      assert s.(timers := Refresh(s.timers, timer, s.now)) == s;
    }
  }

  /** What a call of the public interface cannot touch. */
  lemma SideOnly(s: Rt, a: Action)
    requires SideEnabled(s, a) && |s.table.fds| >= 2
    ensures var s' := DoSide(s, a);
            s' == s.(fibers := s'.fibers, queue := s'.queue, table := s'.table,
                     timers := s'.timers, usedTimers := s'.usedTimers)
            && (!a.SpawnFiber? ==> s'.fibers == s.fibers)
  {
    hide E.AddEvent;
    hide E.RemoveEvent;
    hide E.CancelAll;
    hide E.Woken;
    hide Push;
    hide EventsOf;
    hide Insert;
    hide Cancel;
    hide Reset;
    hide Refresh;
  }
}
