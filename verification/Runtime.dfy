/**
 Fibers, workers, run queue, event registrations and timers as one transition system. Every
 locked section of the code is one step; so is a fiber's suspension together with what its
 worker does to the fiber's state afterwards. The three reads of IOManager::stopping are
 three steps, and so are giving up the active count and queueing again a fiber that yielded.

 Fibers, timers and calls are numbered, and numbers are not used twice.
 */
module Runtime {
  import opened Wrappers
  import opened Scheduling
  import opened TimerSpec
  import E = EventTable

  // ---------------------------------------------------------------- the state

  datatype Cb =
    /** The function the sleep hooks hand to addTimer. */
    | WakeSleeper(fiber: nat)
    /** The function do_io and connect_with_timeout hand to addConditionTimer. */
    | TimeUp(call: nat, fd: nat, ev: E.Event)
    /** Any function of the user's. */
    | UserCb(id: nat)

  type Job = Task<nat, Cb>

  /** Where a fiber of the user's stands. */
  datatype Act =
    /** In the user's own code. */
    | User
    /** Its wake-up timer is armed; it suspends next. */
    | SleepArmed
    /** At retry in do_io, the call has just said EAGAIN. */
    | IoTry(call: nat)
    /** The time-out, if any, is armed; addEvent comes next. */
    | IoTimed(call: nat, timer: Option<nat>)
    /** Registered for the event; it suspends next. */
    | IoArmed(call: nat, timer: Option<nat>)
    /** Suspended in do_io, or just resumed there. */
    | IoWaiting(call: nat, timer: Option<nat>)
    /** A worker's own fiber for functions, running one of the closures above. */
    | Closure
    /** The same fiber between two functions. */
    | Pocketed

  datatype Fib = Fib(state: State, act: Act)

  /** One call of do_io: what its timer_info and its arguments hold. */
  datatype Call = Call(fd: nat, ev: E.Event, start: nat, timeout: Option<nat>, timedOut: bool)

  /** A call that returned ETIMEDOUT. */
  datatype TimedOut = TimedOut(start: nat, timeout: Option<nat>, at: nat)

  /** What a running closure still has to do. */
  datatype Body =
    | Code
    | WakeBody(fiber: nat)
    | TimeUpBody(call: nat, fd: nat, ev: E.Event)
    | CancelBody(fd: nat, ev: E.Event)
    | DoneBody

  datatype Pc =
    /** At the top of the loop in run. */
    | Fetch
    /** Task taken and counted as active, not yet swapped in. */
    | Taken(task: Job)
    /** Inside swapIn. */
    | Running(fiber: nat, viaCb: bool, body: Body)
    /** The fiber yielded READY: no longer active, not yet queued again. */
    | Requeue(fiber: nat)
    /** In stopping: before the timers are read, after it, and after the counter is read. */
    | Check
    | SawNoTimers
    | SawNoneHeld
    /** stopping said no: in epoll_wait since then, and then handling what it reported. */
    | Waiting(since: nat)
    | Dispatching
    /** Has left run. */
    | Exited

  /** idleDone: its idle fiber has ended. pocket: its cb_fiber. */
  datatype Worker = Worker(pc: Pc, idleDone: bool, pocket: Option<nat>)

  /** rollbacks: when an expiry took its reading of the clock for one. */
  datatype Rt = Rt(
    fibers: map<nat, Fib>,
    queue: seq<Entry<nat, Cb>>,
    table: E.Table<Job>,
    timers: Timers<Cb>,
    usedTimers: set<nat>,
    calls: map<nat, Call>,
    usedCalls: set<nat>,
    workers: seq<Worker>,
    active: int,
    stop: bool,
    now: nat,
    timeouts: seq<TimedOut>,
    rollbacks: set<nat>)

  function Init(n: nat, now: nat): Rt {
    Rt(map[], [], E.Table(E.Blank(32), 0, map[]), Timers(map[], false, now), {}, map[], {},
       seq(n, _ => Worker(Fetch, false, None)), 0, false, now, [], {})
  }

  // ---------------------------------------------------------------- the steps

  /** What a fiber does while it runs. */
  datatype Action =
    | SleepFor(ms: nat, timer: nat)
    | StartIo(call: nat, fd: nat, ev: E.Event, timeout: Option<nat>)
    | ArmTimeout(timer: nat)
    | Register(ok: bool)
    | Suspend
    | Resume(again: bool)
    | Yield
    | SpawnFiber(fiber: nat)
    | SpawnCb(id: nat)
    | AddUserEvent(fd: nat, ev: E.Event, id: nat, ok: bool)
    | DelUserEvent(fd: nat, ev: E.Event, ok: bool)
    | CancelOne(fd: nat, ev: E.Event, ok: bool)
    | CancelFd(fd: nat, ok: bool)
    | AddUserTimer(timer: nat, ms: nat, recurring: bool, id: nat)
    | CancelUserTimer(timer: nat)
    | ResetUserTimer(timer: nat, ms: nat, fromNow: bool)
    | RefreshUserTimer(timer: nat)
    | WakeNow
    | TestTimeUp
    | CancelTimeUp(ok: bool)
    | Finish(thrown: bool)

  datatype Step =
    /** A thread that is no worker calls in, before stop. */
    | Outside(action: Action)
    | Stop
    | Tick(to: nat)
    /** The worker loop. */
    | TakeTask(w: nat, i: nat)
    | FindNothing(w: nat)
    | Begin(w: nat, spare: nat)
    | RunFiber(w: nat, action: Action)
    | QueueAgain(w: nat)
    /** The idle fiber. */
    | ReadTimers(w: nat)
    | ReadPending(w: nat)
    | ReadQueue(w: nat)
    /** readAt is the clock as listExpiredCb read it, before it took the lock. */
    | Expiring(w: nat, due: seq<nat>, readAt: nat)
    | Reporting(w: nat, fd: nat, reported: set<E.Event>, broken: bool, ok: bool)
    | EndIdle(w: nat)

  predicate IsWorkers(step: Step) {
    !(step.Outside? || step.Stop? || step.Tick?)
  }

  function Busy(s: Rt): set<nat> {
    set f | f in s.fibers && s.fibers[f].state == EXEC
  }

  function SetPc(s: Rt, w: nat, pc: Pc): Rt
    requires w < |s.workers|
  {
    s.(workers := s.workers[w := s.workers[w].(pc := pc)])
  }

  function PushJobs(s: Rt, jobs: seq<Job>): Rt {
    s.(queue := Push(s.queue, jobs))
  }

  function EventsOf(s: Rt, fd: nat): map<E.Event, Job> {
    E.Registered(s.table, fd)
  }

  // ---------------------------------------------------------------- running fibers

  predicate Runs(s: Rt, w: nat) {
    w < |s.workers| && s.workers[w].pc.Running? && s.workers[w].pc.fiber in s.fibers
  }

  function Me(s: Rt, w: nat): nat
    requires Runs(s, w)
  {
    s.workers[w].pc.fiber
  }

  function MyAct(s: Rt, w: nat): Act
    requires Runs(s, w)
  {
    s.fibers[Me(s, w)].act
  }

  predicate InUserCode(s: Rt, w: nat) {
    Runs(s, w) && s.workers[w].pc.body == Code && MyAct(s, w) == User
  }

  /** A timer the user holds. */
  predicate UsersTimer(s: Rt, timer: nat) {
    timer in s.timers.live ==> s.timers.live[timer].cb.UserCb?
  }

  /** Calls of the public interface that leave the caller where it is. */
  predicate SideEnabled(s: Rt, a: Action) {
    match a
    case SpawnFiber(fiber) => fiber !in s.fibers
    case SpawnCb(_) => true
    case AddUserEvent(fd, ev, _, _) => ev !in EventsOf(s, fd)
    case DelUserEvent(fd, ev, _) =>
      ev in EventsOf(s, fd) ==> EventsOf(s, fd)[ev].CbTask? && EventsOf(s, fd)[ev].cb.UserCb?
    case CancelOne(_, _, _) => true
    case CancelFd(_, _) => true
    case AddUserTimer(timer, _, _, _) => timer !in s.usedTimers
    case CancelUserTimer(timer) => UsersTimer(s, timer)
    case ResetUserTimer(timer, _, fromNow) =>
      UsersTimer(s, timer) && (timer in s.timers.live ==> ResetStart(s.timers.live[timer], s.now, fromNow) >= 0)
    case RefreshUserTimer(timer) => UsersTimer(s, timer)
    case _ => false
  }

  predicate ActEnabled(s: Rt, w: nat, a: Action) {
    Runs(s, w) &&
    var body, act := s.workers[w].pc.body, MyAct(s, w);
    match a
    case SleepFor(_, timer) => InUserCode(s, w) && timer !in s.usedTimers
    case StartIo(call, _, _, _) => InUserCode(s, w) && call !in s.usedCalls
    case ArmTimeout(timer) => act.IoTry? && act.call in s.calls && timer !in s.usedTimers
    case Register(_) =>
      act.IoTimed? && act.call in s.calls && s.calls[act.call].ev !in EventsOf(s, s.calls[act.call].fd)
    case Suspend => act.SleepArmed? || act.IoArmed?
    case Resume(_) => act.IoWaiting? && act.call in s.calls
    case Yield => InUserCode(s, w)
    case WakeNow => body.WakeBody?
    case TestTimeUp => body.TimeUpBody?
    case CancelTimeUp(_) => body.CancelBody?
    case Finish(_) => InUserCode(s, w) || body.DoneBody?
    case _ => InUserCode(s, w) && SideEnabled(s, a)
  }

  function SetAct(s: Rt, f: nat, act: Act): Rt
    requires f in s.fibers
  {
    s.(fibers := s.fibers[f := s.fibers[f].(act := act)])
  }

  /** Swapped out: the worker gives up the fiber, and its cb_fiber if that is the one. */
  function SwapOut(s: Rt, w: nat, fib: Fib, pc: Pc): Rt
    requires Runs(s, w)
  {
    var wk := s.workers[w];
    s.(fibers := s.fibers[wk.pc.fiber := fib],
       workers := s.workers[w := wk.(pc := pc, pocket := if wk.pc.viaCb then None else wk.pocket)],
       active := s.active - 1)
  }

  function ArmTimer(s: Rt, timer: nat, ms: nat, recurring: bool, cb: Cb): Rt {
    s.(timers := Insert(s.timers, timer, Rec(ms, s.now + ms, recurring, cb)), usedTimers := s.usedTimers + {timer})
  }

  function DropTimer(s: Rt, timer: Option<nat>): Rt {
    if timer.Some? then s.(timers := Cancel(s.timers, timer.value)) else s
  }

  function EndCall(s: Rt, call: nat): Rt {
    s.(calls := s.calls - {call})
  }

  /** The sleep hooks: the wake-up is armed, then the fiber suspends. */
  function StartSleep(s: Rt, w: nat, ms: nat, timer: nat): Rt
    requires Runs(s, w)
  {
    SetAct(ArmTimer(s, timer, ms, false, WakeSleeper(Me(s, w))), Me(s, w), SleepArmed)
  }

  function StartCall(s: Rt, w: nat, id: nat, call: Call): Rt
    requires Runs(s, w)
  {
    SetAct(s, Me(s, w), IoTry(id)).(calls := s.calls[id := call], usedCalls := s.usedCalls + {id})
  }

  /** addConditionTimer, if the descriptor has a time-out. */
  function StartTimeout(s: Rt, w: nat, timer: nat): Rt
    requires Runs(s, w) && MyAct(s, w).IoTry? && MyAct(s, w).call in s.calls
  {
    var f, call := Me(s, w), MyAct(s, w).call;
    var c := s.calls[call];
    match c.timeout
    case None => SetAct(s, f, IoTimed(call, None))
    case Some(ms) => SetAct(ArmTimer(s, timer, ms, false, TimeUp(call, c.fd, c.ev)), f, IoTimed(call, Some(timer)))
  }

  /** addEvent; when that fails the time-out is cancelled and the call is over. */
  function TryRegister(s: Rt, w: nat, ok: bool): Rt
    requires Runs(s, w) && MyAct(s, w).IoTimed? && MyAct(s, w).call in s.calls && |s.table.fds| >= 2
  {
    var f, act := Me(s, w), MyAct(s, w);
    var c := s.calls[act.call];
    var s' := s.(table := E.AddEvent(s.table, c.fd, c.ev, FiberTask(f), ok));
    if ok then SetAct(s', f, IoArmed(act.call, act.timer))
    else EndCall(DropTimer(SetAct(s', f, User), act.timer), act.call)
  }

  /** The fiber's timer is cancelled; then it reports the time-out, tries again or is done. */
  function WakeUp(s: Rt, w: nat, again: bool): Rt
    requires Runs(s, w) && MyAct(s, w).IoWaiting? && MyAct(s, w).call in s.calls
  {
    var f, act := Me(s, w), MyAct(s, w);
    var s', c := DropTimer(s, act.timer), s.calls[act.call];
    if c.timedOut then
      EndCall(SetAct(s', f, User), act.call).(timeouts := s.timeouts + [TimedOut(c.start, c.timeout, s.now)])
    else if again then SetAct(s', f, IoTry(act.call))
    else EndCall(SetAct(s', f, User), act.call)
  }

  function GoToSleep(s: Rt, w: nat): Rt
    requires Runs(s, w)
  {
    var act := MyAct(s, w);
    SwapOut(s, w, Fib(HOLD, if act.IoArmed? then IoWaiting(act.call, act.timer) else User), Fetch)
  }

  function Spawn(s: Rt, fiber: nat): Rt {
    PushJobs(s, [FiberTask(fiber)]).(fibers := s.fibers[fiber := Fib(INIT, User)])
  }

  /** cancelEvent. */
  function CancelAt(s: Rt, fd: nat, ev: E.Event, ok: bool): Rt {
    var m := EventsOf(s, fd);
    PushJobs(s.(table := E.RemoveEvent(s.table, fd, ev, ok)), if ev in m && ok then [m[ev]] else [])
  }

  /** cancelAll. */
  function CancelAllAt(s: Rt, fd: nat, ok: bool): Rt {
    var m := EventsOf(s, fd);
    PushJobs(s.(table := E.CancelAll(s.table, fd, ok)), if ok then E.Woken(m, m.Keys) else [])
  }

  function SetBody(s: Rt, w: nat, body: Body): Rt
    requires w < |s.workers| && s.workers[w].pc.Running?
  {
    SetPc(s, w, s.workers[w].pc.(body := body))
  }

  /** The time-out closure: a call that is still there and has not timed out is marked. */
  function MarkTimedOut(s: Rt, w: nat): Rt
    requires Runs(s, w) && s.workers[w].pc.body.TimeUpBody?
  {
    var body := s.workers[w].pc.body;
    if body.call in s.calls && !s.calls[body.call].timedOut then
      SetBody(s.(calls := s.calls[body.call := s.calls[body.call].(timedOut := true)]), w, CancelBody(body.fd, body.ev))
    else SetBody(s, w, DoneBody)
  }

  /** A fiber that ran a function is reset for the next one; any other is finished. */
  function End(s: Rt, w: nat, state: State): Rt
    requires Runs(s, w)
  {
    var wk := s.workers[w];
    s.(fibers := s.fibers[wk.pc.fiber := if wk.pc.viaCb then Fib(INIT, Pocketed) else Fib(state, User)],
       workers := s.workers[w := wk.(pc := Fetch)],
       active := s.active - 1)
  }

  /** The timer's own period is still readable once it is disarmed, but then nothing changes. */
  function ResetTimer(s: Rt, timer: nat, ms: nat, fromNow: bool): Rt
    requires timer in s.timers.live ==> ResetStart(s.timers.live[timer], s.now, fromNow) >= 0
  {
    if timer !in s.timers.live then s
    else s.(timers := Reset(s.timers, timer, s.timers.live[timer].ms, s.now, ms, fromNow))
  }

  function DoSide(s: Rt, a: Action): Rt
    requires SideEnabled(s, a) && |s.table.fds| >= 2
  {
    match a
    case SpawnFiber(fiber) => Spawn(s, fiber)
    case SpawnCb(id) => PushJobs(s, [CbTask(UserCb(id))])
    case AddUserEvent(fd, ev, id, ok) => s.(table := E.AddEvent(s.table, fd, ev, CbTask(UserCb(id)), ok))
    case DelUserEvent(fd, ev, ok) => s.(table := E.RemoveEvent(s.table, fd, ev, ok))
    case CancelOne(fd, ev, ok) => CancelAt(s, fd, ev, ok)
    case CancelFd(fd, ok) => CancelAllAt(s, fd, ok)
    case AddUserTimer(timer, ms, recurring, id) => ArmTimer(s, timer, ms, recurring, UserCb(id))
    case CancelUserTimer(timer) => DropTimer(s, Some(timer))
    case ResetUserTimer(timer, ms, fromNow) => ResetTimer(s, timer, ms, fromNow)
    case RefreshUserTimer(timer) => s.(timers := Refresh(s.timers, timer, s.now))
  }

  function DoAct(s: Rt, w: nat, a: Action): Rt
    requires ActEnabled(s, w, a) && |s.table.fds| >= 2
  {
    var body := s.workers[w].pc.body;
    match a
    case SleepFor(ms, timer) => StartSleep(s, w, ms, timer)
    case StartIo(call, fd, ev, timeout) => StartCall(s, w, call, Call(fd, ev, s.now, timeout, false))
    case ArmTimeout(timer) => StartTimeout(s, w, timer)
    case Register(ok) => TryRegister(s, w, ok)
    case Suspend => GoToSleep(s, w)
    case Resume(again) => WakeUp(s, w, again)
    case Yield => SwapOut(s, w, Fib(READY, User), Requeue(Me(s, w)))
    case WakeNow => SetBody(PushJobs(s, [FiberTask(body.fiber)]), w, DoneBody)
    case TestTimeUp => MarkTimedOut(s, w)
    case CancelTimeUp(ok) => SetBody(CancelAt(s, body.fd, body.ev, ok), w, DoneBody)
    case Finish(thrown) => End(s, w, if thrown then EXCEPT else TERM)
    case _ => DoSide(s, a)
  }

  // ---------------------------------------------------------------- the worker loop

  function BodyOf(cb: Cb): Body {
    match cb
    case WakeSleeper(f) => WakeBody(f)
    case TimeUp(call, fd, ev) => TimeUpBody(call, fd, ev)
    case UserCb(_) => Code
  }

  function CbFiber(s: Rt, w: nat, spare: nat): nat
    requires w < |s.workers|
  {
    if s.workers[w].pocket.Some? then s.workers[w].pocket.value else spare
  }

  function DoBegin(s: Rt, w: nat, spare: nat): Rt
    requires w < |s.workers| && s.workers[w].pc.Taken?
    requires s.workers[w].pc.task.FiberTask? ==> s.workers[w].pc.task.fiber in s.fibers
  {
    match s.workers[w].pc.task
    case FiberTask(f) =>
      if s.fibers[f].state in {TERM, EXCEPT} then SetPc(s, w, Fetch).(active := s.active - 1)
      else SetPc(s, w, Running(f, false, Code)).(fibers := s.fibers[f := s.fibers[f].(state := EXEC)])
    case CbTask(cb) =>
      var g := CbFiber(s, w, spare);
      s.(fibers := s.fibers[g := Fib(EXEC, if cb.UserCb? then User else Closure)],
         workers := s.workers[w := s.workers[w].(pc := Running(g, true, BodyOf(cb)), pocket := Some(g))])
  }

  ghost predicate Enabled(s: Rt, step: Step) {
    && (IsWorkers(step) ==> step.w < |s.workers|)
    && match step
       case Outside(a) => !s.stop && !a.AddUserEvent? && SideEnabled(s, a) && |s.table.fds| >= 2
       case Stop => true
       case Tick(to) => s.now <= to
       case TakeTask(w, i) => s.workers[w].pc == Fetch && IsPick(s.queue, w, Busy(s), i)
       case FindNothing(w) =>
         s.workers[w].pc == Fetch && forall i :: 0 <= i < |s.queue| ==> !Takes(s.queue[i], w, Busy(s))
       case Begin(w, spare) =>
         && s.workers[w].pc.Taken? && spare !in s.fibers
         && (s.workers[w].pc.task.FiberTask? ==> s.workers[w].pc.task.fiber in s.fibers)
       case RunFiber(w, a) => ActEnabled(s, w, a) && |s.table.fds| >= 2
       case QueueAgain(w) => s.workers[w].pc.Requeue?
       case ReadTimers(w) => s.workers[w].pc == Check
       case ReadPending(w) => s.workers[w].pc == SawNoTimers
       case ReadQueue(w) => s.workers[w].pc == SawNoneHeld
       case Expiring(w, due, readAt) =>
         s.workers[w].pc.Waiting? && s.workers[w].pc.since <= readAt <= s.now && IsDueOrder(s.timers, readAt, due)
       case Reporting(w, fd, reported, broken, _) =>
         && s.workers[w].pc == Dispatching && fd < |s.table.fds|
         && E.Current(s.table.fds[fd], E.RealEvents(s.table.fds[fd], reported, broken))
       case EndIdle(w) => s.workers[w].pc == Dispatching
  }

  /** The jobs listExpiredCb hands to schedule. */
  function DueJobs(live: map<nat, Rec<Cb>>, due: seq<nat>): seq<Job>
    requires forall id :: id in due ==> id in live
  {
    seq(|due|, i requires 0 <= i < |due| => assert due[i] in due; CbTask(live[due[i]].cb))
  }

  function TakeAt(s: Rt, w: nat, i: nat): Rt
    requires w < |s.workers| && i < |s.queue|
  {
    SetPc(s, w, Taken(s.queue[i].task)).(queue := Without(s.queue, i), active := s.active + 1)
  }

  /** An expiry at this reading of the clock takes it for a rollback; it looks only if there are
      timers. */
  predicate TakesForRollback(s: Rt, readAt: nat) {
    s.timers.live != map[] && RolledBack(s.timers.previous, readAt)
  }

  /** listExpiredCb and the schedule that follows it. */
  function QueueDue(s: Rt, w: nat, due: seq<nat>, readAt: nat): Rt
    requires w < |s.workers| && forall id :: id in due ==> id in s.timers.live
  {
    SetPc(PushJobs(s, DueJobs(s.timers.live, due)), w, Dispatching).(
      timers := Expire(s.timers, readAt),
      rollbacks := if TakesForRollback(s, readAt) then s.rollbacks + {s.now} else s.rollbacks)
  }

  /** One entry of what epoll_wait reported. */
  function Report(s: Rt, fd: nat, reported: set<E.Event>, broken: bool, ok: bool): Rt
    requires fd < |s.table.fds| && E.Current(s.table.fds[fd], E.RealEvents(s.table.fds[fd], reported, broken))
  {
    var m := s.table.fds[fd];
    var hit := E.RealEvents(m, reported, broken);
    PushJobs(s.(table := E.Dispatch(s.table, fd, reported, broken, ok)),
             if ok && !(hit !! m.Keys) then E.Woken(m, hit) else [])
  }

  function PassQueue(s: Rt, w: nat): Rt
    requires w < |s.workers|
  {
    if s.stop && s.queue == [] && s.active == 0 then
      s.(workers := s.workers[w := s.workers[w].(pc := Fetch, idleDone := true)])
    else SetPc(s, w, Waiting(s.now))
  }

  ghost function Do(s: Rt, step: Step): Rt
    requires Enabled(s, step)
  {
    match step
    case Outside(a) => DoSide(s, a)
    case Stop => s.(stop := true)
    case Tick(to) => s.(now := to)
    case TakeTask(w, i) => TakeAt(s, w, i)
    case FindNothing(w) => SetPc(s, w, if s.workers[w].idleDone then Exited else Check)
    case Begin(w, spare) => DoBegin(s, w, spare)
    case RunFiber(w, a) => DoAct(s, w, a)
    case QueueAgain(w) => SetPc(PushJobs(s, [FiberTask(s.workers[w].pc.fiber)]), w, Fetch)
    case ReadTimers(w) =>
      SetPc(s, w, if s.timers.live == map[] then SawNoTimers else Waiting(s.now)).(timers := GetNext(s.timers))
    case ReadPending(w) => SetPc(s, w, if s.table.pending == 0 then SawNoneHeld else Waiting(s.now))
    case ReadQueue(w) => PassQueue(s, w)
    case Expiring(w, due, readAt) => QueueDue(s, w, due, readAt)
    case Reporting(_, fd, reported, broken, ok) => Report(s, fd, reported, broken, ok)
    case EndIdle(w) => SetPc(s, w, Fetch)
  }

  // ---------------------------------------------------------------- runs

  ghost predicate IsRun(ss: seq<Rt>, steps: seq<Step>, n: nat, t0: nat) {
    && |ss| == |steps| + 1
    && ss[0] == Init(n, t0)
    && forall i {:trigger steps[i]} :: 0 <= i < |steps| ==> Enabled(ss[i], steps[i]) && ss[i+1] == Do(ss[i], steps[i])
  }
}
