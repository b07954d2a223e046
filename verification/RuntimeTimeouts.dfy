/**
 No early time-out: a call returns ETIMEDOUT only when its time-out has passed since it
 started, even though the timer of an earlier attempt can still be queued while a later one
 is under way; or when an expiry has taken its reading of the clock for a rollback while the
 call was going on.
 */
module RuntimeTimeouts {
  import opened Wrappers
  import opened Scheduling
  import opened TimerSpec
  import opened Runtime
  import opened RuntimeInv
  import opened RuntimeActions
  import opened RuntimeRuns
  import opened RuntimeQuiescence
  import E = EventTable

  /** An expiry between these times took its reading for a rollback. */
  predicate Spoiled(rollbacks: set<nat>, start: nat, at: nat) {
    exists r :: r in rollbacks && start <= r <= at
  }

  predicate Over(c: Call, now: nat, rollbacks: set<nat>) {
    c.timeout.Some? && (c.start + c.timeout.value <= now || Spoiled(rollbacks, c.start, now))
  }

  /** What the calls are, what time it is, and when there were rollbacks. */
  datatype Clock = Clock(calls: map<nat, Call>, used: set<nat>, now: nat, rollbacks: set<nat>)

  function ClockOf(s: Rt): Clock {
    Clock(s.calls, s.usedCalls, s.now, s.rollbacks)
  }

  /** A time-out closure for call may run now: the call is gone or its time is over, and the
      registration the closure will cancel is the call's own. */
  predicate Ripe(k: Clock, call: nat, fd: nat, ev: E.Event, at: nat) {
    && call in k.used
    && (call in k.calls ==>
          Over(k.calls[call], at, k.rollbacks) && k.calls[call].fd == fd && k.calls[call].ev == ev)
  }

  predicate CbRipe(k: Clock, cb: Cb, at: nat) {
    cb.TimeUp? ==> Ripe(k, cb.call, cb.fd, cb.ev, at)
  }

  predicate JobRipe(k: Clock, job: Job) {
    job.CbTask? ==> CbRipe(k, job.cb, k.now)
  }

  predicate PcRipe(k: Clock, pc: Pc) {
    match pc
    case Taken(task) => JobRipe(k, task)
    case Running(_, _, TimeUpBody(call, fd, ev)) => Ripe(k, call, fd, ev, k.now)
    case _ => true
  }

  ghost predicate QueueRipe(k: Clock, q: seq<Entry<nat, Cb>>) {
    forall i :: 0 <= i < |q| ==> JobRipe(k, q[i].task)
  }

  /** A timer is not due before the time-out of its call is over. */
  ghost predicate TimersRipe(k: Clock, live: map<nat, Rec<Cb>>) {
    forall id :: id in live ==> CbRipe(k, live[id].cb, live[id].next)
  }

  ghost predicate WorkersRipe(k: Clock, ws: seq<Worker>) {
    forall w :: 0 <= w < |ws| ==> PcRipe(k, ws[w].pc)
  }

  /** A fiber or a function of the user's. */
  predicate Plain(job: Job) {
    job.CbTask? ==> job.cb.UserCb?
  }

  ghost predicate AllPlain(m: map<E.Event, Job>) {
    forall ev :: ev in m ==> Plain(m[ev])
  }

  ghost predicate EventsPlain(fds: seq<map<E.Event, Job>>) {
    forall fd :: 0 <= fd < |fds| ==> AllPlain(fds[fd])
  }

  predicate CallOk(c: Call, now: nat, rollbacks: set<nat>) {
    c.start <= now && (c.timedOut ==> Over(c, now, rollbacks))
  }

  ghost predicate CallsOk(k: Clock) {
    k.calls.Keys <= k.used && forall c :: c in k.calls ==> CallOk(k.calls[c], k.now, k.rollbacks)
  }

  predicate OnTime(t: TimedOut) {
    t.timeout.Some? && t.start + t.timeout.value <= t.at
  }

  ghost predicate NoneEarly(timeouts: seq<TimedOut>) {
    forall i :: 0 <= i < |timeouts| ==> OnTime(timeouts[i])
  }

  /** The claim: what is early was spoiled while it was going on. */
  ghost predicate EarlyOnlyIfSpoiled(timeouts: seq<TimedOut>, rollbacks: set<nat>) {
    forall i :: 0 <= i < |timeouts| ==>
      timeouts[i].timeout.Some? && (OnTime(timeouts[i]) || Spoiled(rollbacks, timeouts[i].start, timeouts[i].at))
  }

  ghost predicate Timely(s: Rt) {
    var k := ClockOf(s);
    && QueueRipe(k, s.queue) && TimersRipe(k, s.timers.live) && WorkersRipe(k, s.workers)
    && EventsPlain(s.table.fds) && CallsOk(k) && EarlyOnlyIfSpoiled(s.timeouts, s.rollbacks)
  }

  // ---------------------------------------------------------------- time passes

  /** Calls come with new numbers, go, and change only by being marked. */
  ghost predicate Later(k: Clock, k': Clock) {
    && k.used <= k'.used && k.now <= k'.now && k.rollbacks <= k'.rollbacks
    && forall c :: c in k'.calls ==>
         || c !in k.used
         || (c in k.calls && k'.calls[c] == k.calls[c].(timedOut := k'.calls[c].timedOut))
  }

  lemma LaterSpoiled(rollbacks: set<nat>, start: nat, at: nat, rollbacks': set<nat>, at': nat)
    requires Spoiled(rollbacks, start, at) && rollbacks <= rollbacks' && at <= at'
    ensures Spoiled(rollbacks', start, at')
  {}

  lemma LaterRipe(k: Clock, k': Clock, q: seq<Entry<nat, Cb>>, live: map<nat, Rec<Cb>>, ws: seq<Worker>)
    requires Later(k, k')
    ensures QueueRipe(k, q) ==> QueueRipe(k', q)
    ensures TimersRipe(k, live) ==> TimersRipe(k', live)
    ensures WorkersRipe(k, ws) ==> WorkersRipe(k', ws)
  {}

  // ---------------------------------------------------------------- queue and events

  lemma PushRipe(k: Clock, q: seq<Entry<nat, Cb>>, jobs: seq<Job>)
    requires QueueRipe(k, q) && forall i :: 0 <= i < |jobs| ==> JobRipe(k, jobs[i])
    ensures QueueRipe(k, Push(q, jobs))
  {}

  lemma PushPlain(k: Clock, q: seq<Entry<nat, Cb>>, jobs: seq<Job>)
    requires QueueRipe(k, q) && forall i :: 0 <= i < |jobs| ==> Plain(jobs[i])
    ensures QueueRipe(k, Push(q, jobs))
  {
    PushRipe(k, q, jobs);
  }

  lemma WokenPlain(m: map<E.Event, Job>, evs: set<E.Event>)
    requires AllPlain(m) && evs <= m.Keys
    ensures forall i :: 0 <= i < |E.Woken(m, evs)| ==> Plain(E.Woken(m, evs)[i])
  {}

  lemma RemovePlain(t: E.Table<Job>, fd: nat, evs: set<E.Event>)
    requires EventsPlain(t.fds) && fd < |t.fds| && evs <= t.fds[fd].Keys
    ensures EventsPlain(E.Remove(t, fd, evs).fds)
  {
    assert AllPlain(t.fds[fd]);
  }

  lemma AddPlain(t: E.Table<Job>, fd: nat, ev: E.Event, job: Job, ok: bool)
    requires EventsPlain(t.fds) && Plain(job) && |t.fds| >= 2
    ensures EventsPlain(E.AddEvent(t, fd, ev, job, ok).fds)
  {
    var g := E.Grown(t, fd);
    assert EventsPlain(g.fds);
    assert AllPlain(g.fds[fd]);
  }

  lemma CancelPlain(k: Clock, s: Rt, fd: nat, ev: E.Event, ok: bool)
    requires QueueRipe(k, s.queue) && EventsPlain(s.table.fds)
    ensures QueueRipe(k, CancelAt(s, fd, ev, ok).queue) && EventsPlain(CancelAt(s, fd, ev, ok).table.fds)
  {
    var m := EventsOf(s, fd);
    if ev in m && ok {
      assert AllPlain(s.table.fds[fd]);
      RemovePlain(s.table, fd, {ev});
    }
    PushPlain(k, s.queue, if ev in m && ok then [m[ev]] else []);
  }

  lemma CancelAllPlain(k: Clock, s: Rt, fd: nat, ok: bool)
    requires QueueRipe(k, s.queue) && EventsPlain(s.table.fds)
    ensures QueueRipe(k, CancelAllAt(s, fd, ok).queue) && EventsPlain(CancelAllAt(s, fd, ok).table.fds)
  {
    var m := EventsOf(s, fd);
    if m != map[] && ok {
      RemovePlain(s.table, fd, m.Keys);
    }
    assert AllPlain(m);
    WokenPlain(m, m.Keys);
    hide E.Woken;
    PushPlain(k, s.queue, if ok then E.Woken(m, m.Keys) else []);
  }

  // ---------------------------------------------------------------- what a fiber does

  lemma QuietAction(s: Rt, w: nat, a: Action)
    requires ActEnabled(s, w, a) && |s.table.fds| >= 2
    requires !a.StartIo? && !a.TestTimeUp? && !a.Resume? && !a.Register?
    ensures ClockOf(DoAct(s, w, a)) == ClockOf(s)
  {
    if SideEnabled(s, a) {
      SideOnly(s, a);
    }
    hide DoSide;
    hide SideEnabled;
    hide E.AddEvent;
    hide E.RemoveEvent;
    hide E.Woken;
    hide Push;
    hide EventsOf;
    hide Insert;
    hide Cancel;
  }

  /** An attempt that fails to register, or a fiber that has been resumed, can end its call. */
  lemma EndLater(s: Rt, w: nat, a: Action)
    requires ActEnabled(s, w, a) && |s.table.fds| >= 2 && (a.Resume? || a.Register?)
    ensures Later(ClockOf(s), ClockOf(DoAct(s, w, a)))
  {
    hide DoSide;
    hide SideEnabled;
    hide E.AddEvent;
    hide EventsOf;
    hide Cancel;
  }

  lemma CallLater(s: Rt, w: nat, a: Action)
    requires ActEnabled(s, w, a) && |s.table.fds| >= 2 && (a.StartIo? || a.TestTimeUp?)
    ensures Later(ClockOf(s), ClockOf(DoAct(s, w, a)))
  {
    hide DoSide;
    hide SideEnabled;
  }

  lemma ActionLater(s: Rt, w: nat, a: Action)
    requires ActEnabled(s, w, a) && |s.table.fds| >= 2
    ensures Later(ClockOf(s), ClockOf(DoAct(s, w, a)))
  {
    match a
    case Resume(_) => EndLater(s, w, a);
    case Register(_) => EndLater(s, w, a);
    case StartIo(_, _, _, _) => CallLater(s, w, a);
    case TestTimeUp => CallLater(s, w, a);
    case _ => QuietAction(s, w, a);
    hide DoAct;
    hide ActEnabled;
  }

  lemma SideQueue(k: Clock, s: Rt, a: Action)
    requires SideEnabled(s, a) && |s.table.fds| >= 2 && QueueRipe(k, s.queue) && EventsPlain(s.table.fds)
    ensures QueueRipe(k, DoSide(s, a).queue) && EventsPlain(DoSide(s, a).table.fds)
  {
    hide E.AddEvent;
    hide E.Woken;
    hide Insert;
    hide Cancel;
    hide Reset;
    hide Refresh;
    hide QueueRipe;
    hide EventsPlain;
    hide CancelAt;
    hide CancelAllAt;
    match a
    case SpawnFiber(f) => PushPlain(k, s.queue, [FiberTask(f)]);
    case SpawnCb(id) => PushPlain(k, s.queue, [CbTask(UserCb(id))]);
    case AddUserEvent(fd, ev, id, ok) => AddPlain(s.table, fd, ev, CbTask(UserCb(id)), ok);
    case DelUserEvent(fd, ev, ok) =>
      if ev in EventsOf(s, fd) && ok {
        RemovePlain(s.table, fd, {ev});
      }
    case CancelOne(fd, ev, ok) => CancelPlain(k, s, fd, ev, ok);
    case CancelFd(fd, ok) => CancelAllPlain(k, s, fd, ok);
    case _ =>
  }

  lemma ActionQueue(k: Clock, s: Rt, w: nat, a: Action)
    requires ActEnabled(s, w, a) && |s.table.fds| >= 2 && QueueRipe(k, s.queue) && EventsPlain(s.table.fds)
    ensures QueueRipe(k, DoAct(s, w, a).queue) && EventsPlain(DoAct(s, w, a).table.fds)
  {
    if SideEnabled(s, a) {
      SideQueue(k, s, a);
    }
    hide DoSide;
    hide SideEnabled;
    hide E.AddEvent;
    hide E.Woken;
    hide Insert;
    hide Cancel;
    hide QueueRipe;
    hide EventsPlain;
    hide CancelAt;
    hide CancelAllAt;
    match a
    case Register(ok) =>
      var c := s.calls[MyAct(s, w).call];
      AddPlain(s.table, c.fd, c.ev, FiberTask(Me(s, w)), ok);
    case WakeNow => PushPlain(k, s.queue, [FiberTask(s.workers[w].pc.body.fiber)]);
    case CancelTimeUp(ok) => CancelPlain(k, s, s.workers[w].pc.body.fd, s.workers[w].pc.body.ev, ok);
    case _ =>
  }

  lemma ArmRipe(k: Clock, s: Rt, timer: nat, ms: nat, recurring: bool, cb: Cb)
    requires TimersRipe(k, s.timers.live) && CbRipe(k, cb, s.now + ms)
    ensures TimersRipe(k, ArmTimer(s, timer, ms, recurring, cb).timers.live)
  {}

  lemma DropRipe(k: Clock, s: Rt, timer: Option<nat>)
    requires TimersRipe(k, s.timers.live)
    ensures TimersRipe(k, DropTimer(s, timer).timers.live)
  {}

  lemma RetimedRipe(k: Clock, live: map<nat, Rec<Cb>>, timer: nat, r: Rec<Cb>)
    requires TimersRipe(k, live) && r.cb.UserCb?
    ensures TimersRipe(k, live[timer := r])
  {}

  lemma SideTimers(s: Rt, a: Action)
    requires SideEnabled(s, a) && |s.table.fds| >= 2 && TimersRipe(ClockOf(s), s.timers.live)
    ensures TimersRipe(ClockOf(s), DoSide(s, a).timers.live)
  {
    var k := ClockOf(s);
    hide E.AddEvent;
    hide E.RemoveEvent;
    hide E.CancelAll;
    hide E.Woken;
    hide Push;
    hide EventsOf;
    hide TimersRipe;
    match a
    case AddUserTimer(timer, ms, recurring, id) => ArmRipe(k, s, timer, ms, recurring, UserCb(id));
    case CancelUserTimer(timer) => DropRipe(k, s, Some(timer));
    case ResetUserTimer(timer, ms, fromNow) =>
      if timer in s.timers.live {
        var r := s.timers.live[timer];
        ResetIs(s, timer, ms, fromNow);
        RetimedRipe(k, s.timers.live, timer, r.(ms := ms, next := ResetStart(r, s.now, fromNow) + ms));
      }
    case RefreshUserTimer(timer) =>
      if timer in s.timers.live {
        var r := s.timers.live[timer];
        RetimedRipe(k, s.timers.live, timer, r.(next := s.now + r.ms));
      }
    case _ =>
  }

  /** The time-out is counted from when the attempt arms it, so never from before the start. */
  lemma ActionTimers(s: Rt, w: nat, a: Action)
    requires ActEnabled(s, w, a) && |s.table.fds| >= 2
    requires TimersRipe(ClockOf(s), s.timers.live) && CallsOk(ClockOf(s))
    ensures TimersRipe(ClockOf(s), DoAct(s, w, a).timers.live)
  {
    var k := ClockOf(s);
    if SideEnabled(s, a) {
      SideTimers(s, a);
    }
    hide DoSide;
    hide SideEnabled;
    hide E.AddEvent;
    hide E.RemoveEvent;
    hide E.CancelAll;
    hide E.Woken;
    hide Push;
    hide EventsOf;
    hide TimersRipe;
    match a
    case SleepFor(ms, timer) => ArmRipe(k, s, timer, ms, false, WakeSleeper(Me(s, w)));
    case ArmTimeout(timer) =>
      var call := MyAct(s, w).call;
      var c := s.calls[call];
      if c.timeout.Some? {
        ArmRipe(k, s, timer, c.timeout.value, false, TimeUp(call, c.fd, c.ev));
      }
    case Resume(_) => DropRipe(k, s, MyAct(s, w).timer);
    case Register(ok) => DropRipe(k, s, MyAct(s, w).timer);
    case _ =>
  }

  /** A call that a closure marks is the one whose registration it cancels next. */
  lemma MarksItsOwn(s: Rt, w: nat)
    requires ActEnabled(s, w, TestTimeUp) && |s.table.fds| >= 2 && PcRipe(ClockOf(s), s.workers[w].pc)
    ensures var call, s' := s.workers[w].pc.body.call, DoAct(s, w, TestTimeUp);
            if call in s.calls && !s.calls[call].timedOut then
              && s'.calls == s.calls[call := s.calls[call].(timedOut := true)]
              && s'.workers[w].pc.body == CancelBody(s.calls[call].fd, s.calls[call].ev)
            else s'.calls == s.calls && s'.workers[w].pc.body == DoneBody
  {
    hide Over;
  }

  lemma MarkCalls(s: Rt, w: nat)
    requires ActEnabled(s, w, TestTimeUp) && CallsOk(ClockOf(s)) && PcRipe(ClockOf(s), s.workers[w].pc)
    ensures CallsOk(ClockOf(MarkTimedOut(s, w))) && MarkTimedOut(s, w).timeouts == s.timeouts
  {}

  lemma WakeCalls(s: Rt, w: nat, again: bool)
    requires ActEnabled(s, w, Resume(again)) && CallsOk(ClockOf(s)) && EarlyOnlyIfSpoiled(s.timeouts, s.rollbacks)
    ensures CallsOk(ClockOf(WakeUp(s, w, again))) && EarlyOnlyIfSpoiled(WakeUp(s, w, again).timeouts, s.rollbacks)
  {
    hide Cancel;
    var c := s.calls[MyAct(s, w).call];
    assert CallOk(c, s.now, s.rollbacks);
  }

  lemma OtherCalls(s: Rt, w: nat, a: Action)
    requires ActEnabled(s, w, a) && |s.table.fds| >= 2 && CallsOk(ClockOf(s)) && !a.TestTimeUp? && !a.Resume?
    ensures CallsOk(ClockOf(DoAct(s, w, a))) && DoAct(s, w, a).timeouts == s.timeouts
  {
    if SideEnabled(s, a) {
      SideOnly(s, a);
    }
    hide DoSide;
    hide SideEnabled;
    hide E.AddEvent;
    hide E.RemoveEvent;
    hide E.CancelAll;
    hide E.Woken;
    hide Push;
    hide EventsOf;
    hide Insert;
    hide Cancel;
  }

  /** Only a ripe closure marks a call, and only a marked call reports a time-out. */
  lemma ActionCalls(s: Rt, w: nat, a: Action)
    requires ActEnabled(s, w, a) && |s.table.fds| >= 2
    requires CallsOk(ClockOf(s)) && EarlyOnlyIfSpoiled(s.timeouts, s.rollbacks) && WorkersRipe(ClockOf(s), s.workers)
    ensures CallsOk(ClockOf(DoAct(s, w, a))) && EarlyOnlyIfSpoiled(DoAct(s, w, a).timeouts, s.rollbacks)
  {
    assert PcRipe(ClockOf(s), s.workers[w].pc);
    hide PcRipe;
    hide WorkersRipe;
    hide CallsOk;
    hide EarlyOnlyIfSpoiled;
    match a
    case TestTimeUp => MarkCalls(s, w);
    case Resume(again) => WakeCalls(s, w, again);
    case _ =>
      hide DoAct;
      hide ActEnabled;
      OtherCalls(s, w, a);
  }

  lemma ActionPc(s: Rt, w: nat, a: Action)
    requires ActEnabled(s, w, a) && |s.table.fds| >= 2 && PcRipe(ClockOf(s), s.workers[w].pc)
    ensures |DoAct(s, w, a).workers| == |s.workers| && PcRipe(ClockOf(s), DoAct(s, w, a).workers[w].pc)
  {
    if SideEnabled(s, a) {
      SideOnly(s, a);
    }
    hide DoSide;
    hide SideEnabled;
    hide E.AddEvent;
    hide E.RemoveEvent;
    hide E.CancelAll;
    hide E.Woken;
    hide Push;
    hide EventsOf;
    hide Insert;
    hide Cancel;
    hide Ripe;
  }

  lemma ActionWorkers(s: Rt, w: nat, a: Action)
    requires ActEnabled(s, w, a) && |s.table.fds| >= 2 && WorkersRipe(ClockOf(s), s.workers)
    ensures WorkersRipe(ClockOf(s), DoAct(s, w, a).workers)
  {
    ActionStep(s, w, a);
    ActionPc(s, w, a);
    hide DoAct;
    hide ActEnabled;
    hide PcRipe;
  }

  lemma ActionTimely(s: Rt, w: nat, a: Action)
    requires ActEnabled(s, w, a) && |s.table.fds| >= 2 && Timely(s)
    ensures Timely(DoAct(s, w, a))
  {
    var s' := DoAct(s, w, a);
    var k, k' := ClockOf(s), ClockOf(s');
    ActionLater(s, w, a);
    ActionQueue(k, s, w, a);
    ActionTimers(s, w, a);
    ActionCalls(s, w, a);
    ActionWorkers(s, w, a);
    LaterRipe(k, k', s'.queue, s'.timers.live, s'.workers);
    hide ActEnabled;
    hide DoAct;
    hide QueueRipe;
    hide TimersRipe;
    hide WorkersRipe;
    hide EventsPlain;
    hide CallsOk;
    hide EarlyOnlyIfSpoiled;
  }

  // ---------------------------------------------------------------- the other steps

  /** What is due is over, or spoiled by this very expiry. */
  lemma DueRipe(k: Clock, live: map<nat, Rec<Cb>>, id: nat, readAt: nat, rolled: bool)
    requires TimersRipe(k, live) && CallsOk(k) && id in live && Due(live[id], rolled, readAt) && readAt <= k.now
    requires rolled ==> k.now in k.rollbacks
    ensures CbRipe(k, live[id].cb, k.now)
  {
    var cb := live[id].cb;
    if cb.TimeUp? && cb.call in k.calls {
      var c := k.calls[cb.call];
      assert CallOk(c, k.now, k.rollbacks);
      if !rolled && Spoiled(k.rollbacks, c.start, live[id].next) {
        LaterSpoiled(k.rollbacks, c.start, live[id].next, k.rollbacks, k.now);
      }
    }
  }

  lemma ExpireRipe(k: Clock, t: Timers<Cb>, now: nat)
    requires TimersRipe(k, t.live)
    requires forall id :: id in t.live && t.live[id].recurring ==> t.live[id].cb.UserCb?
    ensures TimersRipe(k, Expire(t, now).live)
  {}

  lemma NoRecurring(s: Rt)
    requires Inv(s)
    ensures forall id :: id in s.timers.live && s.timers.live[id].recurring ==> s.timers.live[id].cb.UserCb?
  {}

  lemma LaterCalls(k: Clock, k': Clock, timeouts: seq<TimedOut>)
    requires CallsOk(k) && k' == k.(rollbacks := k'.rollbacks) && k.rollbacks <= k'.rollbacks
    requires EarlyOnlyIfSpoiled(timeouts, k.rollbacks)
    ensures CallsOk(k') && EarlyOnlyIfSpoiled(timeouts, k'.rollbacks)
  {
    assert forall c :: c in k'.calls ==> CallOk(k.calls[c], k.now, k.rollbacks);
  }

  lemma DueJobsRipe(s: Rt, due: seq<nat>, readAt: nat, k: Clock)
    requires IsDueOrder(s.timers, readAt, due) && readAt <= s.now && k.now == s.now
    requires TimersRipe(k, s.timers.live) && CallsOk(k) && (TakesForRollback(s, readAt) ==> k.now in k.rollbacks)
    ensures forall id :: id in due ==> id in s.timers.live
    ensures forall i :: 0 <= i < |due| ==> JobRipe(k, DueJobs(s.timers.live, due)[i])
  {
    forall i | 0 <= i < |due|
      ensures due[i] in s.timers.live && CbRipe(k, s.timers.live[due[i]].cb, s.now)
    {
      assert due[i] in due;
      DueRipe(k, s.timers.live, due[i], readAt, RolledBack(s.timers.previous, readAt));
    }
  }

  lemma QueueDueTimely(s: Rt, w: nat, due: seq<nat>, readAt: nat)
    requires Timely(s) && Inv(s) && w < |s.workers| && readAt <= s.now
    requires IsDueOrder(s.timers, readAt, due) && forall id :: id in due ==> id in s.timers.live
    ensures Timely(QueueDue(s, w, due, readAt))
  {
    NoRecurring(s);
    hide Inv;
    var s' := QueueDue(s, w, due, readAt);
    var k, k' := ClockOf(s), ClockOf(s');
    assert k' == k.(rollbacks := k'.rollbacks);
    LaterCalls(k, k', s.timeouts);
    LaterRipe(k, k', s.queue, s.timers.live, s.workers);
    DueJobsRipe(s, due, readAt, k');
    ExpireRipe(k', s.timers, readAt);
    PushRipe(k', s.queue, DueJobs(s.timers.live, due));
    hide Expire;
    hide IsDueOrder;
    hide TakesForRollback;
    hide DueJobs;
    hide Push;
    hide QueueRipe;
    hide TimersRipe;
    hide EventsPlain;
    hide CallsOk;
    hide EarlyOnlyIfSpoiled;
  }

  lemma ReportTimely(s: Rt, fd: nat, reported: set<E.Event>, broken: bool, ok: bool)
    requires Timely(s) && fd < |s.table.fds|
    requires E.Current(s.table.fds[fd], E.RealEvents(s.table.fds[fd], reported, broken))
    ensures Timely(Report(s, fd, reported, broken, ok))
  {
    var m := s.table.fds[fd];
    var hit := E.RealEvents(m, reported, broken);
    assert AllPlain(m);
    if ok && !(hit !! m.Keys) {
      RemovePlain(s.table, fd, hit);
      WokenPlain(m, hit);
      hide E.Woken;
      PushPlain(ClockOf(s), s.queue, E.Woken(m, hit));
    } else {
      PushPlain(ClockOf(s), s.queue, []);
    }
    hide Push;
    hide QueueRipe;
    hide TimersRipe;
    hide WorkersRipe;
    hide EventsPlain;
    hide CallsOk;
    hide EarlyOnlyIfSpoiled;
  }

  lemma TakeTimely(s: Rt, w: nat, i: nat)
    requires Timely(s) && w < |s.workers| && i < |s.queue|
    ensures Timely(TakeAt(s, w, i))
  {
    hide EventsPlain;
    hide CallsOk;
    hide TimersRipe;
    hide EarlyOnlyIfSpoiled;
    hide Ripe;
  }

  lemma BeginTimely(s: Rt, w: nat, spare: nat)
    requires Timely(s) && Enabled(s, Begin(w, spare))
    ensures Timely(DoBegin(s, w, spare))
  {
    assert PcRipe(ClockOf(s), s.workers[w].pc);
    hide EventsPlain;
    hide CallsOk;
    hide TimersRipe;
    hide EarlyOnlyIfSpoiled;
    hide QueueRipe;
    hide Ripe;
  }

  lemma TickTimely(s: Rt, to: nat)
    requires Timely(s) && s.now <= to
    ensures Timely(s.(now := to))
  {
    var k' := ClockOf(s.(now := to));
    LaterRipe(ClockOf(s), k', s.queue, s.timers.live, s.workers);
    assert CallsOk(k');
    hide EventsPlain;
    hide QueueRipe;
    hide TimersRipe;
    hide WorkersRipe;
    hide EarlyOnlyIfSpoiled;
  }

  lemma SetPcTimely(s: Rt, step: Step)
    requires Timely(s) && Enabled(s, step)
    requires step.FindNothing? || step.ReadTimers? || step.ReadPending? || step.ReadQueue? || step.EndIdle?
    ensures Timely(Do(s, step))
  {
    hide EventsPlain;
    hide QueueRipe;
    hide TimersRipe;
    hide EarlyOnlyIfSpoiled;
    hide CallsOk;
  }

  lemma SideTimely(s: Rt, a: Action)
    requires Timely(s) && SideEnabled(s, a) && |s.table.fds| >= 2
    ensures Timely(DoSide(s, a))
  {
    SideOnly(s, a);
    SideQueue(ClockOf(s), s, a);
    SideTimers(s, a);
    hide DoSide;
    hide SideEnabled;
    hide QueueRipe;
    hide EventsPlain;
    hide TimersRipe;
    hide WorkersRipe;
    hide EarlyOnlyIfSpoiled;
    hide CallsOk;
  }

  lemma AgainTimely(s: Rt, w: nat)
    requires Timely(s) && w < |s.workers| && s.workers[w].pc.Requeue?
    ensures Timely(SetPc(PushJobs(s, [FiberTask(s.workers[w].pc.fiber)]), w, Fetch))
  {
    PushPlain(ClockOf(s), s.queue, [FiberTask(s.workers[w].pc.fiber)]);
    hide Push;
    hide QueueRipe;
    hide EventsPlain;
    hide TimersRipe;
    hide EarlyOnlyIfSpoiled;
    hide CallsOk;
  }

  lemma StopTimely(s: Rt)
    requires Timely(s)
    ensures Timely(s.(stop := true))
  {}

  lemma StepTimely(s: Rt, step: Step)
    requires Inv(s) && Timely(s) && Enabled(s, step)
    ensures Timely(Do(s, step))
  {
    hide Inv;
    hide Timely;
    match step
    case Outside(a) => SideTimely(s, a);
    case Stop => StopTimely(s);
    case Tick(to) => TickTimely(s, to);
    case TakeTask(w, i) => TakeTimely(s, w, i);
    case Begin(w, spare) => BeginTimely(s, w, spare);
    case RunFiber(w, a) => ActionTimely(s, w, a);
    case QueueAgain(w) => AgainTimely(s, w);
    case Expiring(w, due, readAt) => QueueDueTimely(s, w, due, readAt);
    case Reporting(_, fd, reported, broken, ok) => ReportTimely(s, fd, reported, broken, ok);
    case _ => SetPcTimely(s, step);
  }

  lemma StartTimely(n: nat, t0: nat)
    ensures Timely(Init(n, t0))
  {}

  lemma {:induction false} EveryRunTimely(ss: seq<Rt>, steps: seq<Step>, n: nat, t0: nat, k: nat)
    requires IsRun(ss, steps, n, t0) && k < |ss|
    ensures Timely(ss[k])
  {
    hide Inv;
    hide Do;
    hide Enabled;
    hide Timely;
    if k == 0 {
      StartTimely(n, t0);
    } else {
      EveryRunTimely(ss, steps, n, t0, k - 1);
      EveryRunKeeps(ss, steps, n, t0, k - 1);
      RunStep(ss, steps, n, t0, k - 1);
      StepTimely(ss[k-1], steps[k-1]);
    }
  }

  /** In every run, whatever the workers do: ETIMEDOUT never comes early, unless an expiry took its
      reading of the clock for a rollback during that very call. */
  lemma NoEarlyTimeout(ss: seq<Rt>, steps: seq<Step>, n: nat, t0: nat, k: nat)
    requires IsRun(ss, steps, n, t0) && k < |ss|
    ensures EarlyOnlyIfSpoiled(ss[k].timeouts, ss[k].rollbacks)
  {
    EveryRunTimely(ss, steps, n, t0, k);
  }
}
