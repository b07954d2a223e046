/**
 What every step keeps. The centre is a count of wake-ups: a fiber that is not running has
 exactly one thing in the whole runtime that will queue it or run it again - a queue entry,
 an event registration, a timer, or a worker's hand - and a fiber that is running has none,
 unless it has just armed its own wake-up and is about to suspend.
 */
module RuntimeInv {
  import opened Wrappers
  import opened Scheduling
  import opened TimerSpec
  import opened Runtime
  import opened Sums
  import E = EventTable

  // ---------------------------------------------------------------- wake-ups

  function CbTok(cb: Cb): multiset<nat> {
    if cb.WakeSleeper? then multiset{cb.fiber} else multiset{}
  }

  function JobTok(j: Job): multiset<nat> {
    match j
    case FiberTask(f) => multiset{f}
    case CbTask(cb) => CbTok(cb)
  }

  function EntryTok(e: Entry<nat, Cb>): multiset<nat> {
    JobTok(e.task)
  }

  function EventsTok(m: map<E.Event, Job>): multiset<nat> {
    (if E.READ in m then JobTok(m[E.READ]) else multiset{}) + (if E.WRITE in m then JobTok(m[E.WRITE]) else multiset{})
  }

  function TimerTok(r: Rec<Cb>): multiset<nat> {
    CbTok(r.cb)
  }

  function WorkerTok(wk: Worker): multiset<nat> {
    match wk.pc
    case Taken(task) => JobTok(task)
    case Requeue(f) => multiset{f}
    case Running(_, _, body) => if body.WakeBody? then multiset{body.fiber} else multiset{}
    case _ => multiset{}
  }

  /** Everything that will wake some fiber. */
  ghost function Tokens(s: Rt): multiset<nat> {
    Sum(s.queue, EntryTok) + Sum(s.table.fds, EventsTok) + SumMap(s.timers.live, TimerTok) + Sum(s.workers, WorkerTok)
  }

  /** How many wake-ups fiber f should have. */
  function Expect(fibers: map<nat, Fib>, f: nat): nat {
    if f !in fibers then 0
    else
      match fibers[f].state
      case HOLD => 1
      case READY => 1
      case INIT => if fibers[f].act == Pocketed then 0 else 1
      case EXEC => if fibers[f].act.SleepArmed? || fibers[f].act.IoArmed? then 1 else 0
      case TERM => 0
      case EXCEPT => 0
  }

  ghost predicate TokensOk(tokens: multiset<nat>, fibers: map<nat, Fib>) {
    forall f :: tokens[f] == Expect(fibers, f)
  }

  // ---------------------------------------------------------------- workers

  function RunTok(wk: Worker): multiset<nat> {
    if wk.pc.Running? then multiset{wk.pc.fiber} else multiset{}
  }

  function Exec(fibers: map<nat, Fib>, f: nat): nat {
    if f in fibers && fibers[f].state == EXEC then 1 else 0
  }

  /** A fiber is EXEC exactly while one worker runs it. */
  ghost predicate RunsOk(workers: seq<Worker>, fibers: map<nat, Fib>) {
    forall f :: Sum(workers, RunTok)[f] == Exec(fibers, f)
  }

  function ActiveTok(wk: Worker): multiset<()> {
    if wk.pc.Taken? || wk.pc.Running? then multiset{()} else multiset{}
  }

  /** The counter counts the workers between taking a task and giving it up. */
  ghost predicate ActiveOk(workers: seq<Worker>, active: int) {
    active == |Sum(workers, ActiveTok)|
  }

  ghost predicate PcOk(fibers: map<nat, Fib>, wk: Worker) {
    match wk.pc
    case Taken(FiberTask(f)) => f in fibers && fibers[f].state in {INIT, HOLD, READY} && fibers[f].act != Pocketed
    case Running(f, viaCb, body) =>
      && f in fibers && fibers[f].state == EXEC && fibers[f].act != Pocketed
      && (body == Code <==> fibers[f].act != Closure)
      && (viaCb ==> wk.pocket == Some(f))
      && (!viaCb ==> body == Code && wk.pocket != Some(f))
    case Requeue(f) => f in fibers && fibers[f].state == READY
    case _ => true
  }

  ghost predicate PocketOk(fibers: map<nat, Fib>, wk: Worker) {
    wk.pocket.Some? ==>
      || (wk.pc.Running? && wk.pc.viaCb)
      || (wk.pocket.value in fibers && fibers[wk.pocket.value] == Fib(INIT, Pocketed))
  }

  ghost predicate WorkersOk(workers: seq<Worker>, fibers: map<nat, Fib>) {
    && (forall w :: 0 <= w < |workers| ==> PcOk(fibers, workers[w]) && PocketOk(fibers, workers[w]))
    && (forall v, w :: 0 <= v < w < |workers| && workers[v].pocket.Some? ==> workers[v].pocket != workers[w].pocket)
  }

  /** State and act fit together. */
  ghost predicate FibOk(fib: Fib) {
    && (fib.state == INIT ==> fib.act in {User, Pocketed})
    && (fib.act == Pocketed ==> fib.state == INIT)
    && (fib.state in {READY, TERM, EXCEPT} ==> fib.act == User)
    && (fib.state == HOLD ==> fib.act == User || fib.act.IoWaiting?)
  }

  ghost predicate FibersOk(fibers: map<nat, Fib>) {
    forall f :: f in fibers ==> FibOk(fibers[f])
  }

  // ---------------------------------------------------------------- timers and events

  function TimerOf(act: Act): Option<nat> {
    match act
    case IoTimed(_, t) => t
    case IoArmed(_, t) => t
    case IoWaiting(_, t) => t
    case _ => None
  }

  ghost predicate TimerHeldOk(live: map<nat, Rec<Cb>>, used: set<nat>, act: Act) {
    TimerOf(act).Some? ==>
        TimerOf(act).value in used
        && (TimerOf(act).value in live ==> live[TimerOf(act).value].cb.TimeUp?)
  }

  /** Recurring timers are the user's, and the timer a call holds is its time-out. */
  ghost predicate TimersOk(live: map<nat, Rec<Cb>>, used: set<nat>, fibers: map<nat, Fib>) {
    && live.Keys <= used
    && (forall id :: id in live && live[id].recurring ==> live[id].cb.UserCb?)
    && (forall f :: f in fibers ==> TimerHeldOk(live, used, fibers[f].act))
  }

  ghost predicate Core(workers: seq<Worker>, fibers: map<nat, Fib>, active: int) {
    RunsOk(workers, fibers) && ActiveOk(workers, active) && WorkersOk(workers, fibers) && FibersOk(fibers)
  }

  ghost predicate Inv(s: Rt) {
    && TokensOk(Tokens(s), s.fibers)
    && Core(s.workers, s.fibers, s.active)
    && TimersOk(s.timers.live, s.usedTimers, s.fibers)
    && E.Mirror(s.table)
  }

  // ---------------------------------------------------------------- how the sums move

  /** The bookkeeping of wake-ups after a step that gives plus and takes minus. */
  lemma Rebalance(t: multiset<nat>, fibers: map<nat, Fib>, t': multiset<nat>, fibers': map<nat, Fib>,
      minus: multiset<nat>, plus: multiset<nat>)
    requires TokensOk(t, fibers) && t' + minus == t + plus
    requires forall f :: Expect(fibers', f) + minus[f] == Expect(fibers, f) + plus[f]
    ensures TokensOk(t', fibers')
  {
    forall f
      ensures t'[f] == Expect(fibers', f)
    {
      assert (t' + minus)[f] == (t + plus)[f];
    }
  }

  function JobsTok(jobs: seq<Job>): multiset<nat> {
    Sum(jobs, JobTok)
  }

  lemma LastEntryTok(q: seq<Entry<nat, Cb>>, job: Job)
    ensures Sum(q + [Entry(job, None)], EntryTok) == Sum(q, EntryTok) + JobTok(job)
  {
    var e := Entry(job, None);
    SumConcat(q, [e], EntryTok);
    SumOne(e, EntryTok);
  }

  lemma {:induction false} PushTok(q: seq<Entry<nat, Cb>>, jobs: seq<Job>)
    ensures Sum(Push(q, jobs), EntryTok) == Sum(q, EntryTok) + JobsTok(jobs)
  {
    if jobs == [] {
      assert Push(q, jobs) == q;
    } else {
      var last := |jobs| - 1;
      PushTok(q, jobs[..last]);
      PushLast(q, jobs, last);
      LastEntryTok(Push(q, jobs[..last]), jobs[last]);
      assert JobsTok(jobs) == JobsTok(jobs[..last]) + JobTok(jobs[last]);
    }
  }

  lemma GrownTok(t: E.Table<Job>, fd: nat)
    requires |t.fds| >= 2
    ensures Sum(E.Grown(t, fd).fds, EventsTok) == Sum(t.fds, EventsTok)
  {
    if fd >= |t.fds| {
      var more := E.Blank<Job>(fd + fd / 2 - |t.fds|);
      SumEmpty(more, EventsTok);
      SumConcat(t.fds, more, EventsTok);
    }
  }

  lemma EventsTokAdded(m: map<E.Event, Job>, ev: E.Event, job: Job)
    requires ev !in m
    ensures EventsTok(m[ev := job]) == EventsTok(m) + JobTok(job)
  {}

  lemma CancelOut(a: multiset<nat>, x: multiset<nat>, b: multiset<nat>, y: multiset<nat>)
    requires a + x == b + (x + y)
    ensures a == b + y
  {
    assert a == (a + x) - x;
    assert b + y == (b + (x + y)) - x;
  }

  /** Registering adds the waiter's wake-ups. */
  lemma AddEventTok(t: E.Table<Job>, fd: nat, ev: E.Event, job: Job, ok: bool)
    requires |t.fds| >= 2 && ev !in E.Registered(t, fd)
    ensures Sum(E.AddEvent(t, fd, ev, job, ok).fds, EventsTok)
         == Sum(t.fds, EventsTok) + if ok then JobTok(job) else multiset{}
  {
    var g := E.Grown(t, fd);
    GrownTok(t, fd);
    hide Sum;
    hide EventsTok;
    hide JobTok;
    if ok {
      var m := g.fds[fd];
      SumUpdate(g.fds, fd, m[ev := job], EventsTok);
      EventsTokAdded(m, ev, job);
      CancelOut(Sum(g.fds[fd := m[ev := job]], EventsTok), EventsTok(m), Sum(g.fds, EventsTok), JobTok(job));
    }
  }

  lemma WokenTok(m: map<E.Event, Job>, evs: set<E.Event>)
    requires evs <= m.Keys
    ensures JobsTok(E.Woken(m, evs))
         == (if E.READ in evs then JobTok(m[E.READ]) else multiset{})
             + (if E.WRITE in evs then JobTok(m[E.WRITE]) else multiset{})
  {
    var r := if E.READ in evs then [m[E.READ]] else [];
    var w := if E.WRITE in evs then [m[E.WRITE]] else [];
    SumConcat(r, w, JobTok);
    if E.READ in evs {
      SumOne(m[E.READ], JobTok);
    }
    if E.WRITE in evs {
      SumOne(m[E.WRITE], JobTok);
    }
  }

  lemma EventsTokSplit(m: map<E.Event, Job>, evs: set<E.Event>)
    requires evs <= m.Keys
    ensures EventsTok(m) == EventsTok(m - evs) + JobsTok(E.Woken(m, evs))
  {
    WokenTok(m, evs);
    var left := m - evs;
    assert E.READ in left <==> E.READ in m && E.READ !in evs;
    assert E.WRITE in left <==> E.WRITE in m && E.WRITE !in evs;
    hide Sum;
    hide JobTok;
    hide JobsTok;
    hide E.Woken;
  }

  /** Taking events out moves their wake-ups to whatever was woken. */
  lemma RemoveTok(t: E.Table<Job>, fd: nat, evs: set<E.Event>)
    requires fd < |t.fds| && evs <= t.fds[fd].Keys
    ensures Sum(t.fds, EventsTok) == Sum(E.Remove(t, fd, evs).fds, EventsTok) + JobsTok(E.Woken(t.fds[fd], evs))
  {
    var m := t.fds[fd];
    var left := m - evs;
    SumUpdate(t.fds, fd, left, EventsTok);
    EventsTokSplit(m, evs);
    CancelOut(Sum(t.fds, EventsTok), EventsTok(left), Sum(t.fds[fd := left], EventsTok), JobsTok(E.Woken(m, evs)));
  }
}
