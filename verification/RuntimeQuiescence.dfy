/**
 Shutdown. When the last worker has left run, nothing is queued; and with one worker, or as
 long as no other worker moves while one is between the reads of stopping or between its two
 steps after a yield, nothing is suspended either. With two or more workers the second half
 fails (RuntimeStrands).
 */
module RuntimeQuiescence {
  import opened Wrappers
  import opened Scheduling
  import opened TimerSpec
  import opened Runtime
  import opened RuntimeInv
  import opened RuntimeSteps
  import opened RuntimeActions
  import opened RuntimeRuns
  import opened Sums
  import E = EventTable

  predicate AllExited(s: Rt) {
    forall w :: 0 <= w < |s.workers| ==> s.workers[w].pc == Exited
  }

  /** Every fiber made by the user has run to its end, and every task was taken. */
  ghost predicate Quiet(s: Rt) {
    && s.queue == []
    && forall f :: f in s.fibers ==> s.fibers[f].state in {TERM, EXCEPT} || s.fibers[f] == Fib(INIT, Pocketed)
  }

  /** No timer is armed and no event registered. */
  predicate Tidy(s: Rt) {
    s.timers.live == map[] && s.table.pending == 0
  }

  // ---------------------------------------------------------------- one owner, one runner

  /** A suspended fiber is in exactly one place: the queue, a registration, a timer or a
      worker's hand. */
  lemma OneOwner(ss: seq<Rt>, steps: seq<Step>, n: nat, t0: nat, k: nat, f: nat)
    requires IsRun(ss, steps, n, t0) && k < |ss|
    requires f in ss[k].fibers && ss[k].fibers[f].state in {HOLD, READY}
    ensures var s := ss[k];
            Sum(s.queue, EntryTok)[f] + Sum(s.table.fds, EventsTok)[f] + SumMap(s.timers.live, TimerTok)[f]
            + Sum(s.workers, WorkerTok)[f] == 1
  {
    EveryRunKeeps(ss, steps, n, t0, k);
    hide Sum;
    hide SumMap;
    assert Tokens(ss[k])[f] == Expect(ss[k].fibers, f);
  }

  /** No fiber runs on two workers, and the counter counts the workers between take and give-up. */
  lemma OneRunner(ss: seq<Rt>, steps: seq<Step>, n: nat, t0: nat, k: nat, v: nat, w: nat)
    requires IsRun(ss, steps, n, t0) && k < |ss|
    ensures ActiveOk(ss[k].workers, ss[k].active)
    ensures v != w && Runs(ss[k], v) && Runs(ss[k], w) ==> Me(ss[k], v) != Me(ss[k], w)
  {
    EveryRunKeeps(ss, steps, n, t0, k);
    var s := ss[k];
    hide Tokens;
    hide TokensOk;
    hide ActiveOk;
    hide TimersOk;
    hide E.Mirror;
    if v != w && Runs(s, v) && Runs(s, w) {
      OnlyMine(s.workers, s.fibers, w);
      assert !Mentions(s.workers[v], Me(s, w));
    }
  }

  // ---------------------------------------------------------------- no stranded task

  /** An idle fiber ends only after stop, and a worker leaves only after its idle fiber. */
  ghost predicate Leaving(s: Rt) {
    forall w :: 0 <= w < |s.workers| ==>
      (s.workers[w].pc == Exited ==> s.workers[w].idleDone) && (s.workers[w].idleDone ==> s.stop)
  }

  ghost predicate NoneStranded(s: Rt) {
    |s.workers| >= 1 && AllExited(s) ==> s.queue == []
  }

  predicate OneWorkerMoves(s: Rt, s': Rt, w: nat) {
    w < |s.workers| == |s'.workers| && s'.workers == s.workers[w := s'.workers[w]]
  }

  lemma ActionStep(s: Rt, w: nat, a: Action)
    requires ActEnabled(s, w, a) && |s.table.fds| >= 2
    ensures var s' := DoAct(s, w, a);
            && OneWorkerMoves(s, s', w) && s'.stop == s.stop && s'.workers[w].pc != Exited
            && s'.workers[w].idleDone == s.workers[w].idleDone
  {
    if SideEnabled(s, a) {
      SideOnly(s, a);
    }
    hide DoSide;
    hide SideEnabled;
    hide E.AddEvent;
    hide E.RemoveEvent;
    hide E.CancelAll;
    hide E.Woken;
    hide Push;
    hide EventsOf;
    hide Insert;
    hide Cancel;
  }

  /** A step of worker w changes no other worker; it lets w out only from FindNothing. */
  lemma WorkerStep(s: Rt, step: Step)
    requires Enabled(s, step) && IsWorkers(step)
    ensures OneWorkerMoves(s, Do(s, step), step.w) && Do(s, step).stop == s.stop
    ensures s.workers[step.w].pc != Exited
    ensures Do(s, step).workers[step.w].pc == Exited ==> step.FindNothing? && s.workers[step.w].idleDone
    ensures Do(s, step).workers[step.w].idleDone ==>
              s.workers[step.w].idleDone || (step.ReadQueue? && s.stop && s.queue == [] && s.active == 0)
  {
    hide E.AddEvent;
    hide E.RemoveEvent;
    hide E.CancelAll;
    hide E.Dispatch;
    hide E.Woken;
    hide Push;
    hide DueJobs;
    hide Expire;
    hide IsDueOrder;
    hide Insert;
    hide Cancel;
    hide GetNext;
    hide Without;
    hide Busy;
    hide EventsOf;
    match step
    case RunFiber(w, a) => ActionStep(s, w, a);
    case _ =>
  }

  ghost predicate Unpinned(q: seq<Entry<nat, Cb>>) {
    forall i :: 0 <= i < |q| ==> q[i].thread == None
  }

  lemma PushUnpinned(q: seq<Entry<nat, Cb>>, jobs: seq<Job>)
    requires Unpinned(q)
    ensures Unpinned(Push(q, jobs))
  {}

  lemma WithoutUnpinned(q: seq<Entry<nat, Cb>>, i: nat)
    requires Unpinned(q) && i < |q|
    ensures Unpinned(Without(q, i))
  {}

  lemma CancelUnpinned(s: Rt, fd: nat, ev: E.Event, ok: bool)
    requires Unpinned(s.queue)
    ensures Unpinned(CancelAt(s, fd, ev, ok).queue)
  {
    var m := EventsOf(s, fd);
    PushUnpinned(s.queue, if ev in m && ok then [m[ev]] else []);
  }

  lemma SideUnpinned(s: Rt, a: Action)
    requires SideEnabled(s, a) && |s.table.fds| >= 2 && Unpinned(s.queue)
    ensures Unpinned(DoSide(s, a).queue)
  {
    hide E.AddEvent;
    hide E.RemoveEvent;
    hide E.CancelAll;
    hide E.Woken;
    hide Unpinned;
    hide Insert;
    hide Cancel;
    hide Reset;
    hide Refresh;
    match a
    case SpawnFiber(f) => PushUnpinned(s.queue, [FiberTask(f)]);
    case SpawnCb(id) => PushUnpinned(s.queue, [CbTask(UserCb(id))]);
    case CancelOne(fd, ev, ok) => CancelUnpinned(s, fd, ev, ok);
    case CancelFd(fd, ok) =>
      PushUnpinned(s.queue, if ok then E.Woken(EventsOf(s, fd), EventsOf(s, fd).Keys) else []);
    case _ =>
  }

  lemma ActionUnpinned(s: Rt, w: nat, a: Action)
    requires ActEnabled(s, w, a) && |s.table.fds| >= 2 && Unpinned(s.queue)
    ensures Unpinned(DoAct(s, w, a).queue)
  {
    if SideEnabled(s, a) {
      SideUnpinned(s, a);
    }
    hide DoSide;
    hide SideEnabled;
    hide E.AddEvent;
    hide E.RemoveEvent;
    hide E.CancelAll;
    hide E.Woken;
    hide Unpinned;
    hide Insert;
    hide Cancel;
    match a
    case WakeNow => PushUnpinned(s.queue, [FiberTask(s.workers[w].pc.body.fiber)]);
    case CancelTimeUp(ok) => CancelUnpinned(s, s.workers[w].pc.body.fd, s.workers[w].pc.body.ev, ok);
    case _ =>
  }

  lemma StepUnpinned(s: Rt, step: Step)
    requires Enabled(s, step) && Unpinned(s.queue)
    ensures Unpinned(Do(s, step).queue)
  {
    hide E.AddEvent;
    hide E.RemoveEvent;
    hide E.CancelAll;
    hide E.Dispatch;
    hide E.Woken;
    hide DueJobs;
    hide Expire;
    hide Busy;
    hide EventsOf;
    hide Unpinned;
    match step
    case RunFiber(w, a) => ActionUnpinned(s, w, a);
    case TakeTask(w, i) => WithoutUnpinned(s.queue, i);
    case Outside(a) => SideUnpinned(s, a);
    case QueueAgain(w) => PushUnpinned(s.queue, [FiberTask(s.workers[w].pc.fiber)]);
    case Expiring(w, due, _) => PushUnpinned(s.queue, DueJobs(s.timers.live, due));
    case Reporting(_, fd, reported, broken, ok) =>
      var m := s.table.fds[fd];
      var hit := E.RealEvents(m, reported, broken);
      PushUnpinned(s.queue, if ok && !(hit !! m.Keys) then E.Woken(m, hit) else []);
    case _ =>
  }

  lemma FirstTaken(q: seq<Entry<nat, Cb>>, w: nat)
    requires Unpinned(q) && q != []
    ensures Takes(q[0], w, {})
  {}

  lemma NobodyRuns(s: Rt)
    requires RunsOk(s.workers, s.fibers) && forall v :: 0 <= v < |s.workers| ==> !s.workers[v].pc.Running?
    ensures Busy(s) == {}
  {
    SumEmpty(s.workers, RunTok);
    forall f | f in s.fibers
      ensures s.fibers[f].state != EXEC
    {
      assert Sum(s.workers, RunTok)[f] == Exec(s.fibers, f);
    }
  }

  /** With everyone else gone no fiber is EXEC, so nothing takable means nothing. */
  lemma {:induction false} LastOut(s: Rt, w: nat)
    requires Inv(s) && Unpinned(s.queue) && Enabled(s, FindNothing(w))
    requires forall v :: 0 <= v < |s.workers| && v != w ==> s.workers[v].pc == Exited
    ensures s.queue == []
  {
    hide Tokens;
    hide TokensOk;
    hide TimersOk;
    hide E.Mirror;
    hide ActiveOk;
    hide WorkersOk;
    hide FibersOk;
    NobodyRuns(s);
    hide RunsOk;
    hide Busy;
    hide Takes;
    hide Unpinned;
    if s.queue != [] {
      FirstTaken(s.queue, w);
    }
  }

  ghost predicate Shutdown(s: Rt) {
    Leaving(s) && NoneStranded(s) && Unpinned(s.queue)
  }

  /** What a worker's step does to the question who has left. */
  lemma WorkerStrands(s: Rt, s': Rt, w: nat)
    requires Leaving(s) && OneWorkerMoves(s, s', w) && s'.stop == s.stop && s.workers[w].pc != Exited
    requires s'.workers[w].pc == Exited ==> s'.workers[w].idleDone
    requires s'.workers[w].idleDone ==> s.workers[w].idleDone || s.stop
    requires AllExited(s') ==> s'.queue == []
    ensures Leaving(s') && NoneStranded(s')
  {}

  lemma OthersOut(s: Rt, s': Rt, w: nat)
    requires OneWorkerMoves(s, s', w) && AllExited(s')
    ensures forall v :: 0 <= v < |s.workers| && v != w ==> s.workers[v].pc == Exited
    ensures s'.workers[w].pc == Exited
  {
    forall v | 0 <= v < |s.workers| && v != w
      ensures s.workers[v].pc == Exited
    {
      assert s'.workers[v] == s.workers[v];
    }
  }

  lemma OutsideOnly(s: Rt, step: Step)
    requires Enabled(s, step) && !IsWorkers(step)
    ensures Do(s, step).workers == s.workers && Do(s, step).active == s.active
    ensures s.stop ==> Do(s, step) == s.(now := Do(s, step).now)
    ensures !step.Stop? ==> Do(s, step).stop == s.stop
  {
    if step.Outside? {
      SideOnly(s, step.action);
    }
    hide DoSide;
    hide SideEnabled;
  }

  lemma OutsideStrands(s: Rt, step: Step)
    requires Leaving(s) && NoneStranded(s) && Enabled(s, step) && !IsWorkers(step)
    ensures Leaving(Do(s, step)) && NoneStranded(Do(s, step))
  {
    assert |s.workers| >= 1 && s.workers[0].pc == Exited ==> s.stop;
    OutsideOnly(s, step);
    hide DoSide;
    hide SideEnabled;
  }

  lemma IdleEnded(s: Rt, step: Step)
    requires Enabled(s, step) && step.FindNothing?
    ensures Do(s, step).queue == s.queue
    ensures Do(s, step).workers[step.w].idleDone == s.workers[step.w].idleDone
  {}

  lemma StepStrands(s: Rt, step: Step)
    requires Inv(s) && Shutdown(s) && Enabled(s, step)
    ensures Shutdown(Do(s, step))
  {
    var s' := Do(s, step);
    StepUnpinned(s, step);
    hide Unpinned;
    hide Inv;
    hide Do;
    hide Enabled;
    hide Leaving;
    hide NoneStranded;
    if IsWorkers(step) {
      WorkerStep(s, step);
      var w := step.w;
      hide OneWorkerMoves;
      if s'.workers[w].pc == Exited {
        IdleEnded(s, step);
        if AllExited(s') {
          OthersOut(s, s', w);
          LastOut(s, w);
        }
      }
      WorkerStrands(s, s', w);
    } else {
      OutsideStrands(s, step);
    }
  }

  lemma StartShutdown(n: nat, t0: nat)
    requires n >= 1
    ensures Shutdown(Init(n, t0))
  {}

  /** When the last worker has left run, the queue is empty: every task was taken. */
  lemma {:induction false} NoStrandedTask(ss: seq<Rt>, steps: seq<Step>, n: nat, t0: nat, k: nat)
    requires IsRun(ss, steps, n, t0) && k < |ss| && n >= 1
    ensures Shutdown(ss[k])
  {
    hide Inv;
    hide Do;
    hide Enabled;
    hide Shutdown;
    if k == 0 {
      StartShutdown(n, t0);
    } else {
      NoStrandedTask(ss, steps, n, t0, k - 1);
      EveryRunKeeps(ss, steps, n, t0, k - 1);
      RunStep(ss, steps, n, t0, k - 1);
      StepStrands(ss[k-1], steps[k-1]);
    }
  }

  // ---------------------------------------------------------------- nothing suspended

  /** Between two reads of stopping, or between giving up the count and queueing again. */
  predicate Mid(pc: Pc) {
    pc.SawNoTimers? || pc.SawNoneHeld? || pc.Requeue?
  }

  /** No worker moves while another one is in the middle of something. */
  ghost predicate Undisturbed(s: Rt, step: Step) {
    IsWorkers(step) ==> forall v :: 0 <= v < |s.workers| && v != step.w ==> !Mid(s.workers[v].pc)
  }

  ghost predicate IsUndisturbed(ss: seq<Rt>, steps: seq<Step>) {
    |ss| > |steps| && forall i {:trigger steps[i]} :: 0 <= i < |steps| ==> Undisturbed(ss[i], steps[i])
  }

  /** Nothing is left, and nothing can come. */
  ghost predicate Closed(s: Rt) {
    && s.stop && s.queue == [] && s.active == 0 && s.timers.live == map[] && s.table.pending == 0
    && forall w :: 0 <= w < |s.workers| ==> !s.workers[w].pc.Requeue?
  }

  lemma ClosedAtRest(s: Rt)
    requires Inv(s) && Closed(s)
    ensures forall w :: 0 <= w < |s.workers| ==> Idle(s.workers[w].pc)
    ensures forall fd :: 0 <= fd < |s.table.fds| ==> s.table.fds[fd] == map[]
  {
    forall w | 0 <= w < |s.workers|
      ensures Idle(s.workers[w].pc)
    {
      SumMember(s.workers, w, ActiveTok);
    }
    forall fd | 0 <= fd < |s.table.fds|
      ensures s.table.fds[fd] == map[]
    {
      E.HeldSize(s.table.fds[fd]);
      E.HeldFits(s.table.fds, fd);
    }
  }

  lemma NoneDue(t: Timers<Cb>, now: nat, due: seq<nat>)
    requires IsDueOrder(t, now, due) && t.live == map[]
    ensures due == [] && Expire(t, now) == t
  {
    SomebodyIn(due);
  }

  lemma ExpiringNothing(s: Rt, w: nat, due: seq<nat>, readAt: nat)
    requires Enabled(s, Expiring(w, due, readAt)) && s.timers.live == map[]
    ensures QueueDue(s, w, due, readAt) == SetPc(s, w, Dispatching)
  {
    NoneDue(s.timers, readAt, due);
    NothingPushed(s);
  }

  lemma ReportingNothing(s: Rt, fd: nat, reported: set<E.Event>, broken: bool, ok: bool)
    requires fd < |s.table.fds| && s.table.fds[fd] == map[]
    requires E.Current(s.table.fds[fd], E.RealEvents(s.table.fds[fd], reported, broken))
    ensures Report(s, fd, reported, broken, ok) == s
  {
    NothingPushed(s);
  }

  /** Where nobody is active and nothing queued, nothing can be run. */
  lemma NothingToRun(s: Rt, step: Step)
    requires s.queue == [] && forall w :: 0 <= w < |s.workers| ==> Idle(s.workers[w].pc)
    requires step.TakeTask? || step.Begin? || step.RunFiber? || step.QueueAgain?
    ensures !Enabled(s, step)
  {}

  lemma LooksClosed(s: Rt, step: Step)
    requires Closed(s) && Enabled(s, step)
    requires step.FindNothing? || step.ReadTimers? || step.ReadPending? || step.ReadQueue? || step.EndIdle?
    ensures Closed(Do(s, step))
  {}

  lemma StaysClosedAtRest(s: Rt, step: Step)
    requires Closed(s) && Enabled(s, step)
    requires !step.TakeTask? && !step.Begin? && !step.RunFiber? && !step.QueueAgain?
    requires forall fd :: 0 <= fd < |s.table.fds| ==> s.table.fds[fd] == map[]
    ensures Closed(Do(s, step))
  {
    hide IsDueOrder;
    hide Report;
    hide QueueDue;
    hide DoBegin;
    hide DoAct;
    hide DoSide;
    hide SideEnabled;
    match step
    case Expiring(w, due, readAt) => ExpiringNothing(s, w, due, readAt);
    case Reporting(_, fd, reported, broken, ok) => ReportingNothing(s, fd, reported, broken, ok);
    case Stop =>
    case Tick(_) =>
    case Outside(_) =>
    case _ => LooksClosed(s, step);
  }

  /** Once closed, closed for good: whatever anybody does. */
  lemma StaysClosed(s: Rt, step: Step)
    requires Inv(s) && Closed(s) && Enabled(s, step)
    ensures Closed(Do(s, step))
  {
    ClosedAtRest(s);
    hide Inv;
    if step.TakeTask? || step.Begin? || step.RunFiber? || step.QueueAgain? {
      NothingToRun(s, step);
    } else {
      StaysClosedAtRest(s, step);
    }
  }

  /** No armed timer resumes a fiber. */
  ghost predicate NoSleeper(live: map<nat, Rec<Cb>>) {
    SumMap(live, TimerTok) == multiset{}
  }

  lemma NoneArmed()
    ensures NoSleeper(map[])
  {}

  /** Everybody's idle fiber has ended and nothing is left to run. */
  ghost predicate Ended(s: Rt) {
    && s.stop && s.queue == [] && NoSleeper(s.timers.live) && s.table.pending == 0
    && forall w :: 0 <= w < |s.workers| ==> s.workers[w].idleDone && s.workers[w].pc in {Fetch, Exited}
  }

  predicate AllIdleDone(s: Rt) {
    forall w :: 0 <= w < |s.workers| ==> s.workers[w].idleDone
  }

  predicate IdleOver(wk: Worker) {
    wk.idleDone ==> wk.pc.Fetch? || wk.pc.Taken? || wk.pc.Running? || wk.pc.Requeue? || wk.pc.Exited?
  }

  /** Timers may come from outside in the meantime, but none that resumes a fiber. */
  ghost predicate WhatItSaw(s: Rt, pc: Pc) {
    && (pc.SawNoTimers? || pc.SawNoneHeld? ==> NoSleeper(s.timers.live))
    && (pc.SawNoneHeld? ==> s.table.pending == 0)
  }

  /** At most one worker is in the middle of something, what it saw still holds, and a worker
      whose idle fiber has ended does not look again. */
  ghost predicate Orderly(s: Rt) {
    && (forall v, w :: 0 <= v < w < |s.workers| ==> !(Mid(s.workers[v].pc) && Mid(s.workers[w].pc)))
    && (forall w :: 0 <= w < |s.workers| ==> WhatItSaw(s, s.workers[w].pc) && IdleOver(s.workers[w]))
    && (AllIdleDone(s) ==> Ended(s))
  }

  lemma ActionSaw(s: Rt, w: nat, a: Action)
    requires ActEnabled(s, w, a) && |s.table.fds| >= 2
    ensures var wk := DoAct(s, w, a).workers[w];
            !wk.pc.SawNoTimers? && !wk.pc.SawNoneHeld? && IdleOver(wk)
  {
    if SideEnabled(s, a) {
      SideOnly(s, a);
    }
    hide DoSide;
    hide SideEnabled;
    hide E.AddEvent;
    hide E.RemoveEvent;
    hide E.CancelAll;
    hide E.Woken;
    hide Push;
    hide EventsOf;
    hide Insert;
    hide Cancel;
  }

  lemma SawStep(s: Rt, step: Step)
    requires Enabled(s, step) && IsWorkers(step) && OneWorkerMoves(s, Do(s, step), step.w)
    requires WhatItSaw(s, s.workers[step.w].pc) && IdleOver(s.workers[step.w])
    ensures WhatItSaw(Do(s, step), Do(s, step).workers[step.w].pc) && IdleOver(Do(s, step).workers[step.w])
  {
    hide E.AddEvent;
    hide E.RemoveEvent;
    hide E.CancelAll;
    hide E.Dispatch;
    hide E.Woken;
    hide Push;
    hide DueJobs;
    hide Expire;
    hide IsDueOrder;
    hide Insert;
    hide Cancel;
    hide Without;
    hide Busy;
    hide EventsOf;
    hide NoSleeper;
    hide DoSide;
    hide SideEnabled;
    match step
    case RunFiber(w, a) =>
      hide DoAct;
      ActionSaw(s, w, a);
    case ReadTimers(w) => NoneArmed();
    case _ =>
  }

  lemma SoleMid(s: Rt, s': Rt, w: nat)
    requires OneWorkerMoves(s, s', w)
    requires forall v :: 0 <= v < |s.workers| && v != w ==> !Mid(s.workers[v].pc) && IdleOver(s.workers[v])
    ensures forall v, u :: 0 <= v < u < |s'.workers| ==> !(Mid(s'.workers[v].pc) && Mid(s'.workers[u].pc))
    ensures WhatItSaw(s', s'.workers[w].pc) && IdleOver(s'.workers[w])
        ==> forall v :: 0 <= v < |s'.workers| ==> WhatItSaw(s', s'.workers[v].pc) && IdleOver(s'.workers[v])
  {}

  lemma NobodyActive(s: Rt)
    requires Inv(s) && s.active == 0
    ensures forall w :: 0 <= w < |s.workers| ==> !s.workers[w].pc.Taken? && !s.workers[w].pc.Running?
  {
    hide Tokens;
    hide TokensOk;
    hide RunsOk;
    hide WorkersOk;
    hide FibersOk;
    hide TimersOk;
    hide E.Mirror;
    forall w | 0 <= w < |s.workers|
      ensures !s.workers[w].pc.Taken? && !s.workers[w].pc.Running?
    {
      SumMember(s.workers, w, ActiveTok);
    }
  }

  /** The last worker to pass all three reads leaves nothing behind that resumes a fiber. */
  lemma PassingEnds(s: Rt, step: Step)
    requires Inv(s) && Orderly(s) && Enabled(s, step) && step.ReadQueue? && Undisturbed(s, step)
    requires AllIdleDone(Do(s, step)) && !s.workers[step.w].idleDone
    ensures Ended(Do(s, step))
  {
    var s', w := Do(s, step), step.w;
    assert WhatItSaw(s, s.workers[w].pc);
    assert s'.workers[w].idleDone;
    NobodyActive(s);
    hide Inv;
    hide NoSleeper;
    forall v | 0 <= v < |s.workers| && v != w
      ensures s.workers[v].idleDone && s.workers[v].pc in {Fetch, Exited}
    {
      assert s'.workers[v] == s.workers[v];
      assert !Mid(s.workers[v].pc) && IdleOver(s.workers[v]);
    }
  }

  lemma EndedStays(s: Rt, step: Step)
    requires Ended(s) && Enabled(s, step)
    ensures Ended(Do(s, step))
  {
    hide NoSleeper;
    hide DoBegin;
    hide QueueDue;
    hide Report;
    hide SideEnabled;
    hide DoSide;
    hide DoAct;
  }

  lemma OrderlyFrom(s: Rt)
    requires forall v, w :: 0 <= v < w < |s.workers| ==> !(Mid(s.workers[v].pc) && Mid(s.workers[w].pc))
    requires forall w :: 0 <= w < |s.workers| ==> WhatItSaw(s, s.workers[w].pc) && IdleOver(s.workers[w])
    requires AllIdleDone(s) ==> Ended(s)
    ensures Orderly(s)
  {}

  lemma OthersDone(s: Rt, s': Rt, w: nat)
    requires OneWorkerMoves(s, s', w) && AllIdleDone(s') && s.workers[w].idleDone
    ensures AllIdleDone(s)
  {
    forall v | 0 <= v < |s.workers|
      ensures s.workers[v].idleDone
    {
      assert v != w ==> s.workers[v] == s'.workers[v];
    }
  }

  lemma OrderlyEnded(s: Rt)
    requires Orderly(s) && AllIdleDone(s)
    ensures Ended(s)
  {}

  lemma LastEnds(s: Rt, step: Step)
    requires Inv(s) && Orderly(s) && Enabled(s, step) && IsWorkers(step) && Undisturbed(s, step)
    ensures AllIdleDone(Do(s, step)) ==> Ended(Do(s, step))
  {
    var s', w := Do(s, step), step.w;
    WorkerStep(s, step);
    if AllIdleDone(s') {
      if s.workers[w].idleDone {
        OthersDone(s, s', w);
        OrderlyEnded(s);
        hide *;
        EndedStays(s, step);
      } else {
        hide *;
        PassingEnds(s, step);
      }
    }
  }

  lemma WorkerOrderly(s: Rt, step: Step)
    requires Inv(s) && Orderly(s) && Enabled(s, step) && IsWorkers(step) && Undisturbed(s, step)
    ensures Orderly(Do(s, step))
  {
    var s', w := Do(s, step), step.w;
    WorkerStep(s, step);
    SawStep(s, step);
    SoleMid(s, s', w);
    LastEnds(s, step);
    hide *;
    OrderlyFrom(s');
  }

  lemma SideSleepers(s: Rt, a: Action)
    requires Inv(s) && SideEnabled(s, a) && |s.table.fds| >= 2
    ensures SumMap(DoSide(s, a).timers.live, TimerTok) == SumMap(s.timers.live, TimerTok)
  {
    hide Tokens;
    hide TokensOk;
    hide Core;
    hide E.Mirror;
    hide SumMap;
    hide E.AddEvent;
    hide E.RemoveEvent;
    hide E.CancelAll;
    hide E.Woken;
    hide Push;
    hide EventsOf;
    hide First;
    match a
    case AddUserTimer(timer, ms, recurring, id) =>
      ArmTok(s.timers.live, timer, Rec(ms, s.now + ms, recurring, UserCb(id)));
    case CancelUserTimer(timer) => DropTok(s.timers.live, timer);
    case ResetUserTimer(timer, ms, fromNow) =>
      if timer in s.timers.live {
        var r := s.timers.live[timer];
        ResetIs(s, timer, ms, fromNow);
        RetimedTok(s.timers.live, timer, r.(ms := ms, next := ResetStart(r, s.now, fromNow) + ms));
      }
    case RefreshUserTimer(timer) =>
      if timer in s.timers.live {
        var r := s.timers.live[timer];
        RetimedTok(s.timers.live, timer, r.(next := s.now + r.ms));
      }
    case _ =>
  }

  lemma NothingHeld(t: E.Table<Job>)
    requires E.Mirror(t) && t.pending == 0
    ensures forall fd :: 0 <= fd < |t.fds| ==> t.fds[fd] == map[]
  {
    forall fd | 0 <= fd < |t.fds|
      ensures t.fds[fd] == map[]
    {
      E.HeldSize(t.fds[fd]);
      E.HeldFits(t.fds, fd);
    }
  }

  lemma SidePending(s: Rt, a: Action)
    requires Inv(s) && SideEnabled(s, a) && !a.AddUserEvent? && |s.table.fds| >= 2 && s.table.pending == 0
    ensures DoSide(s, a).table == s.table
  {
    NothingHeld(s.table);
    hide Inv;
    hide Push;
    hide Insert;
    hide Cancel;
    hide Reset;
    hide Refresh;
    hide E.Woken;
  }

  /** Nobody outside can register an event or queue up behind a timer. */
  lemma SideSaw(s: Rt, a: Action)
    requires Inv(s) && SideEnabled(s, a) && !a.AddUserEvent? && |s.table.fds| >= 2
    ensures NoSleeper(s.timers.live) ==> NoSleeper(DoSide(s, a).timers.live)
    ensures s.table.pending == 0 ==> DoSide(s, a).table.pending == 0
  {
    SideSleepers(s, a);
    if s.table.pending == 0 {
      SidePending(s, a);
    }
  }

  lemma OutsideSaw(s: Rt, step: Step)
    requires Inv(s) && Enabled(s, step) && !IsWorkers(step)
    ensures NoSleeper(s.timers.live) ==> NoSleeper(Do(s, step).timers.live)
    ensures s.table.pending == 0 ==> Do(s, step).table.pending == 0
  {
    hide Inv;
    hide NoSleeper;
    hide DoSide;
    hide SideEnabled;
    if step.Outside? {
      SideSaw(s, step.action);
    }
  }

  lemma OutsideOrderly(s: Rt, step: Step)
    requires Inv(s) && Orderly(s) && Leaving(s) && |s.workers| >= 1 && Enabled(s, step) && !IsWorkers(step)
    ensures Orderly(Do(s, step))
  {
    OutsideOnly(s, step);
    if AllIdleDone(s) {
      assert s.workers[0].idleDone;
      EndedStays(s, step);
    }
    OutsideSaw(s, step);
    hide Inv;
    hide Ended;
    hide Enabled;
    hide Do;
    hide NoSleeper;
    OrderlyFrom(Do(s, step));
  }

  lemma AllFinished(s: Rt)
    requires Inv(s) && Busy(s) == {} && Tokens(s) == multiset{}
    ensures forall f :: f in s.fibers ==> s.fibers[f].state in {TERM, EXCEPT} || s.fibers[f] == Fib(INIT, Pocketed)
  {
    forall f | f in s.fibers
      ensures s.fibers[f].state in {TERM, EXCEPT} || s.fibers[f] == Fib(INIT, Pocketed)
    {
      assert Tokens(s)[f] == Expect(s.fibers, f);
      assert f !in Busy(s);
    }
  }

  lemma EndedIsQuiet(s: Rt)
    requires Inv(s) && Ended(s)
    ensures Quiet(s)
  {
    NothingHeld(s.table);
    NobodyRuns(s);
    assert Tokens(s) == multiset{} by {
      SumEmpty(s.table.fds, EventsTok);
      SumEmpty(s.workers, WorkerTok);
    }
    AllFinished(s);
  }

  lemma StartOrderly(n: nat, t0: nat)
    requires n >= 1
    ensures Orderly(Init(n, t0))
  {
    assert !Init(n, t0).workers[0].idleDone;
  }

  lemma {:induction false} SameWorkers(ss: seq<Rt>, steps: seq<Step>, n: nat, t0: nat, k: nat)
    requires IsRun(ss, steps, n, t0) && k < |ss|
    ensures |ss[k].workers| == n
  {
    if k > 0 {
      SameWorkers(ss, steps, n, t0, k - 1);
      RunStep(ss, steps, n, t0, k - 1);
      hide IsRun;
      hide Do;
      hide Enabled;
      if IsWorkers(steps[k-1]) {
        WorkerStep(ss[k-1], steps[k-1]);
      } else {
        OutsideOnly(ss[k-1], steps[k-1]);
      }
    }
  }

  lemma {:induction false} UndisturbedOrderly(ss: seq<Rt>, steps: seq<Step>, n: nat, t0: nat, k: nat)
    requires IsRun(ss, steps, n, t0) && IsUndisturbed(ss, steps) && k < |ss| && n >= 1
    ensures Orderly(ss[k])
  {
    hide Inv;
    hide Do;
    hide Enabled;
    hide Orderly;
    hide Undisturbed;
    hide Leaving;
    if k == 0 {
      StartOrderly(n, t0);
    } else {
      UndisturbedOrderly(ss, steps, n, t0, k - 1);
      EveryRunKeeps(ss, steps, n, t0, k - 1);
      RunStep(ss, steps, n, t0, k - 1);
      var step := steps[k-1];
      if IsWorkers(step) {
        WorkerOrderly(ss[k-1], step);
      } else {
        NoStrandedTask(ss, steps, n, t0, k - 1);
        SameWorkers(ss, steps, n, t0, k - 1);
        OutsideOrderly(ss[k-1], step);
      }
    }
  }

  /** Shutdown is safe in every undisturbed run, whatever the number of workers: from the
      moment the last idle fiber ends, no fiber is suspended. */
  lemma UndisturbedQuiesces(ss: seq<Rt>, steps: seq<Step>, n: nat, t0: nat, k: nat)
    requires IsRun(ss, steps, n, t0) && IsUndisturbed(ss, steps) && k < |ss| && n >= 1 && AllIdleDone(ss[k])
    ensures Quiet(ss[k]) && ss[k].table.pending == 0
  {
    UndisturbedOrderly(ss, steps, n, t0, k);
    EveryRunKeeps(ss, steps, n, t0, k);
    hide Inv;
    EndedIsQuiet(ss[k]);
  }

  lemma OneWorkerUndisturbed(ss: seq<Rt>, steps: seq<Step>, t0: nat)
    requires IsRun(ss, steps, 1, t0)
    ensures IsUndisturbed(ss, steps)
  {
    forall i | 0 <= i < |steps|
      ensures Undisturbed(ss[i], steps[i])
    {
      SameWorkers(ss, steps, 1, t0, i);
      assert Enabled(ss[i], steps[i]);
    }
  }

  /** Every run in which all workers have left run ends with nothing suspended. */
  ghost predicate Quiesces(n: nat, t0: nat) {
    forall ss, steps :: IsRun(ss, steps, n, t0) && AllExited(ss[|steps|]) ==> Quiet(ss[|steps|])
  }

  lemma ExitedIsDone(s: Rt)
    requires Leaving(s) && AllExited(s)
    ensures AllIdleDone(s)
  {}

  lemma OneWorkerQuiesces(t0: nat)
    ensures Quiesces(1, t0)
  {
    forall ss, steps | IsRun(ss, steps, 1, t0) && AllExited(ss[|steps|])
      ensures Quiet(ss[|steps|])
    {
      NoStrandedTask(ss, steps, 1, t0, |steps|);
      ExitedIsDone(ss[|steps|]);
      OneWorkerUndisturbed(ss, steps, t0);
      UndisturbedQuiesces(ss, steps, 1, t0, |steps|);
    }
  }

  // ---------------------------------------------------------------- nothing armed

  predicate Looking(pc: Pc) {
    pc.SawNoTimers? || pc.SawNoneHeld?
  }

  /** A timer armed from outside while a worker is between the reads of stopping. */
  ghost predicate IsLate(s: Rt, step: Step) {
    step.Outside? && step.action.AddUserTimer? && exists w :: 0 <= w < |s.workers| && Looking(s.workers[w].pc)
  }

  ghost predicate IsPrompt(ss: seq<Rt>, steps: seq<Step>) {
    |ss| > |steps| && forall i {:trigger steps[i]} :: 0 <= i < |steps| ==> !IsLate(ss[i], steps[i])
  }

  /** There is still no timer for whoever saw none, and nothing at all once one idle fiber has
      ended. */
  ghost predicate Prompt(s: Rt) {
    && (forall w :: 0 <= w < |s.workers| && Looking(s.workers[w].pc) ==> s.timers.live == map[])
    && (forall w :: 0 <= w < |s.workers| && s.workers[w].idleDone ==> Closed(s))
  }

  lemma PromptLook(s: Rt, step: Step)
    requires Enabled(s, step) && IsWorkers(step)
    requires OneWorkerMoves(s, Do(s, step), step.w)
    requires Looking(s.workers[step.w].pc) ==> s.timers.live == map[]
    ensures Looking(Do(s, step).workers[step.w].pc) ==> Do(s, step).timers.live == map[]
  {
    hide E.AddEvent;
    hide E.RemoveEvent;
    hide E.CancelAll;
    hide E.Dispatch;
    hide E.Woken;
    hide Push;
    hide DueJobs;
    hide Expire;
    hide IsDueOrder;
    hide Insert;
    hide Cancel;
    hide Without;
    hide Busy;
    hide EventsOf;
    hide DoSide;
    hide SideEnabled;
    match step
    case RunFiber(w, a) =>
      hide DoAct;
      ActionSaw(s, w, a);
    case _ =>
  }

  /** The worker that passes all three reads leaves nothing behind. */
  lemma PassingCloses(s: Rt, step: Step)
    requires Orderly(s) && Prompt(s) && Enabled(s, step) && step.ReadQueue? && Undisturbed(s, step)
    requires s.stop && s.queue == [] && s.active == 0
    ensures Closed(Do(s, step))
  {
    assert WhatItSaw(s, s.workers[step.w].pc);
  }

  lemma OneCloses(s: Rt, step: Step)
    requires Inv(s) && Orderly(s) && Prompt(s) && Enabled(s, step) && IsWorkers(step) && Undisturbed(s, step)
    ensures Closed(s) ==> Closed(Do(s, step))
    ensures step.w < |Do(s, step).workers| && (Do(s, step).workers[step.w].idleDone ==> Closed(Do(s, step)))
  {
    WorkerStep(s, step);
    hide Inv;
    hide Closed;
    hide Do;
    hide Enabled;
    hide Orderly;
    hide Undisturbed;
    if Closed(s) {
      StaysClosed(s, step);
    } else if step.ReadQueue? && s.stop && s.queue == [] && s.active == 0 {
      PassingCloses(s, step);
    }
  }

  lemma PromptFrom(s: Rt, s': Rt, w: nat)
    requires OneWorkerMoves(s, s', w) && Prompt(s) && (Closed(s) ==> Closed(s'))
    requires forall v :: 0 <= v < |s'.workers| && v != w ==> !Looking(s'.workers[v].pc)
    requires Looking(s'.workers[w].pc) ==> s'.timers.live == map[]
    requires s'.workers[w].idleDone ==> Closed(s')
    ensures Prompt(s')
  {
    hide Closed;
  }

  lemma OthersLook(s: Rt, s': Rt, w: nat)
    requires OneWorkerMoves(s, s', w) && forall v :: 0 <= v < |s.workers| && v != w ==> !Mid(s.workers[v].pc)
    ensures forall v :: 0 <= v < |s'.workers| && v != w ==> !Looking(s'.workers[v].pc)
  {}

  lemma WorkerPrompt(s: Rt, step: Step)
    requires Inv(s) && Orderly(s) && Prompt(s) && Enabled(s, step) && IsWorkers(step) && Undisturbed(s, step)
    ensures Prompt(Do(s, step))
  {
    var s', w := Do(s, step), step.w;
    WorkerStep(s, step);
    PromptLook(s, step);
    OneCloses(s, step);
    OthersLook(s, s', w);
    hide *;
    PromptFrom(s, s', w);
  }

  lemma SideUnarmed(s: Rt, a: Action)
    requires SideEnabled(s, a) && !a.AddUserTimer? && |s.table.fds| >= 2 && s.timers.live == map[]
    ensures DoSide(s, a).timers.live == map[]
  {
    hide E.AddEvent;
    hide E.RemoveEvent;
    hide E.CancelAll;
    hide E.Woken;
    hide Push;
    hide EventsOf;
  }

  lemma OutsidePrompt(s: Rt, step: Step)
    requires Inv(s) && Prompt(s) && Leaving(s) && Enabled(s, step) && !IsWorkers(step) && !IsLate(s, step)
    ensures Prompt(Do(s, step))
  {
    OutsideOnly(s, step);
    if step.Outside? && s.timers.live == map[] && !step.action.AddUserTimer? {
      SideUnarmed(s, step.action);
    }
    hide Inv;
    hide DoSide;
    hide SideEnabled;
  }

  lemma StartPrompt(n: nat, t0: nat)
    ensures Prompt(Init(n, t0))
  {}

  lemma {:induction false} UndisturbedPrompt(ss: seq<Rt>, steps: seq<Step>, n: nat, t0: nat, k: nat)
    requires IsRun(ss, steps, n, t0) && IsUndisturbed(ss, steps) && IsPrompt(ss, steps) && k < |ss| && n >= 1
    ensures Prompt(ss[k])
  {
    hide Inv;
    hide Do;
    hide Enabled;
    hide Orderly;
    hide Prompt;
    hide Undisturbed;
    hide IsLate;
    hide Leaving;
    if k == 0 {
      StartPrompt(n, t0);
    } else {
      UndisturbedPrompt(ss, steps, n, t0, k - 1);
      EveryRunKeeps(ss, steps, n, t0, k - 1);
      RunStep(ss, steps, n, t0, k - 1);
      var step := steps[k-1];
      if IsWorkers(step) {
        UndisturbedOrderly(ss, steps, n, t0, k - 1);
        WorkerPrompt(ss[k-1], step);
      } else {
        NoStrandedTask(ss, steps, n, t0, k - 1);
        OutsidePrompt(ss[k-1], step);
      }
    }
  }

  lemma ClosedIsQuiet(s: Rt)
    requires Inv(s) && Closed(s)
    ensures Quiet(s)
  {
    ClosedAtRest(s);
    NobodyRuns(s);
    assert Tokens(s) == multiset{} by {
      SumEmpty(s.table.fds, EventsTok);
      SumEmpty(s.workers, WorkerTok);
    }
    AllFinished(s);
  }

  /** If besides nobody outside arms a timer while a worker looks, then from the moment one idle
      fiber ends nothing is left anywhere, and nothing ever comes back. */
  lemma UndisturbedCloses(ss: seq<Rt>, steps: seq<Step>, n: nat, t0: nat, k: nat, w: nat)
    requires IsRun(ss, steps, n, t0) && IsUndisturbed(ss, steps) && IsPrompt(ss, steps) && k < |ss| && n >= 1
    requires w < |ss[k].workers| && ss[k].workers[w].idleDone
    ensures Closed(ss[k]) && Quiet(ss[k]) && Tidy(ss[k])
  {
    UndisturbedPrompt(ss, steps, n, t0, k);
    EveryRunKeeps(ss, steps, n, t0, k);
    hide Inv;
    ClosedIsQuiet(ss[k]);
  }

  /** Every run in which all workers have left run - and unless late, nobody outside armed a
      timer while a worker looked - ends with no timer armed and no event registered. */
  ghost predicate Tidies(n: nat, t0: nat, late: bool) {
    forall ss, steps :: IsRun(ss, steps, n, t0) && (late || IsPrompt(ss, steps)) && AllExited(ss[|steps|]) ==>
        Tidy(ss[|steps|])
  }

  lemma OneWorkerTidies(t0: nat)
    ensures Tidies(1, t0, false)
  {
    forall ss, steps | IsRun(ss, steps, 1, t0) && IsPrompt(ss, steps) && AllExited(ss[|steps|])
      ensures Tidy(ss[|steps|])
    {
      NoStrandedTask(ss, steps, 1, t0, |steps|);
      ExitedIsDone(ss[|steps|]);
      SameWorkers(ss, steps, 1, t0, |steps|);
      OneWorkerUndisturbed(ss, steps, t0);
      UndisturbedCloses(ss, steps, 1, t0, |steps|, 0);
    }
  }
}
