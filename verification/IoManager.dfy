/**
 FdContext and IOManager: the locked sections that register, take out and trigger events.
 Each is proved to do to the registrations what EventTable says, to issue only epoll_ctl
 calls the kernel accepts, and to run into its own assertions exactly when stated.
 */
module IoManager {
  import opened Wrappers
  import opened Scheduling
  import opened EventTable
  import TimerManager
  import TimerSpec

  type Waker<!C> = Task<Fiber<C>, C>

  /** What a report names that is not stale: everything there is if it is broken. */
  lemma ReportTaken<T>(m: map<Event, T>, reported: set<Event>, broken: bool)
    requires reported <= m.Keys
    ensures RealEvents(m, reported, broken) == if broken then m.Keys else reported
  {}

  /** The function that was given, or the fiber that called. */
  function WakerOf<C>(cb: Option<C>, current: Fiber<C>): Waker<C> {
    if cb.Some? then CbTask(cb.value) else FiberTask(current)
  }

  /** The epoll instance: fails is the kernel's own reason to refuse a legal request. */
  class Epoll {
    var interest: map<nat, set<Event>>

    constructor ()
      ensures interest == map[]
    {
      interest := map[];
    }

    method Ctl(op: CtlOp, fd: nat, mask: set<Event>, fails: bool) returns (rt: int)
      modifies this
      ensures rt == 0 <==> Legal(old(interest), op, fd) && !fails
      ensures interest == if rt == 0 then EventTable.Ctl(old(interest), op, fd, mask) else old(interest)
    {
      if fails || (op == ADD) == (fd in interest) {
        return -1;
      }
      interest := if op == DEL then interest - {fd} else interest[fd := mask];
      return 0;
    }
  }

  datatype EventContext<!C> = EventContext(scheduler: Option<Scheduler<C>>, fiber: Option<Fiber<C>>, cb: Option<C>)

  class FdContext<C> {
    const fd: nat
    var read: EventContext<C>
    var write: EventContext<C>
    var events: set<Event>

    static ghost predicate Holds(ctx: EventContext<C>, w: Option<Waker<C>>, sched: Scheduler<C>) {
      match w
      case None => ctx == EventContext(None, None, None)
      case Some(FiberTask(f)) => ctx == EventContext(Some(sched), Some(f), None)
      case Some(CbTask(c)) => ctx == EventContext(Some(sched), None, Some(c))
    }

    /** The bit of ev is set exactly when its context is filled. */
    ghost predicate Shows(m: map<Event, Waker<C>>, sched: Scheduler<C>)
      reads this
    {
      && events == m.Keys
      && Holds(read, if READ in m then Some(m[READ]) else None, sched)
      && Holds(write, if WRITE in m then Some(m[WRITE]) else None, sched)
    }

    constructor (fd: nat)
      ensures this.fd == fd && forall s :: Shows(map[], s)
    {
      this.fd := fd;
      read, write, events := EventContext(None, None, None), EventContext(None, None, None), {};
    }

    function GetContext(ev: Event): EventContext<C>
      reads this
    {
      match ev
      case READ => read
      case WRITE => write
    }

    method SetContext(ev: Event, ctx: EventContext<C>)
      modifies this`read, this`write
      ensures ev == READ ==> read == ctx && write == old(write)
      ensures ev == WRITE ==> write == ctx && read == old(read)
    {
      match ev
      case READ => read := ctx;
      case WRITE => write := ctx;
    }

    /** The emptiness assertion on the context never fails here. */
    method Fill(ev: Event, cb: Option<C>, current: Fiber<C>, sched: Scheduler<C>, ghost m: map<Event, Waker<C>>)
      requires Shows(m, sched) && ev !in m
      modifies this
      ensures Shows(m[ev := WakerOf(cb, current)], sched)
    {
      events := events + {ev};
      var ctx := GetContext(ev);
      assert ctx.scheduler.None? && ctx.fiber.None? && ctx.cb.None?;
      ctx := ctx.(scheduler := Some(sched));
      if cb.Some? {
        ctx := ctx.(cb := cb);
      } else {
        ctx := ctx.(fiber := Some(current));
      }
      SetContext(ev, ctx);
    }

    method ResetContext(ev: Event, ghost m: map<Event, Waker<C>>, ghost sched: Scheduler<C>)
      requires Shows(m, sched) && ev in m
      modifies this
      ensures Shows(m - {ev}, sched)
    {
      events := events - {ev};
      SetContext(ev, EventContext(None, None, None));
    }

    /** The waiter moves from the context to the run queue, so it can be woken only once. */
    method TriggerEvent(ev: Event, ghost m: map<Event, Waker<C>>, ghost sched: Scheduler<C>)
      requires Shows(m, sched) && ev in events
      modifies this, sched
      ensures Shows(m - {ev}, sched)
      ensures sched.fibers == Push(old(sched.fibers), [m[ev]])
    {
      events := events - {ev};
      var ctx := GetContext(ev);
      if ctx.cb.Some? {
        ctx.scheduler.value.Schedule(CbTask(ctx.cb.value));
        ctx := ctx.(cb := None);
      } else {
        ctx.scheduler.value.Schedule(FiberTask(ctx.fiber.value));
        ctx := ctx.(fiber := None);
      }
      SetContext(ev, ctx.(scheduler := None));
    }
  }

  class IOManager<C> {
    const sched: Scheduler<C>
    const epoll: Epoll
    var fdContexts: seq<FdContext<C>>
    var pendingEventCount: nat
    ghost var view: Table<Waker<C>>

    ghost predicate Contexts()
      reads this, fdContexts
    {
      && pendingEventCount == view.pending
      && |fdContexts| == |view.fds|
      && forall i :: 0 <= i < |fdContexts| ==> fdContexts[i].fd == i && fdContexts[i].Shows(view.fds[i], sched)
    }

    /** The table is the one the objects represent. */
    ghost predicate Backed()
      reads this, epoll, fdContexts
    {
      epoll.interest == view.kernel && Contexts()
    }

    ghost predicate Valid()
      reads this, epoll, fdContexts
    {
      Mirror(view) && Backed()
    }

    method ContextResize(size: nat)
      requires Backed()
      modifies this`fdContexts, this`view
      ensures Backed()
      ensures view == Resized(old(view), size)
      ensures forall c :: c in fdContexts ==> c in old(fdContexts) || fresh(c)
    {
      if size <= |fdContexts| {
        fdContexts := fdContexts[..size];
        view := view.(fds := view.fds[..size]);
        return;
      }
      ghost var fds := view.fds;
      while |fdContexts| < size
        invariant |fdContexts| <= size && Backed()
        invariant view == old(view).(fds := fds + Blank(|fdContexts| - |fds|)) && |fds| <= |fdContexts|
        invariant forall c :: c in fdContexts ==> c in old(fdContexts) || fresh(c)
      {
        var c := new FdContext<C>(|fdContexts|);
        fdContexts := fdContexts + [c];
        view := view.(fds := view.fds + [map[]]);
        assert view.fds == fds + Blank(|fdContexts| - |fds|);
      }
    }

    lemma NothingYet()
      requires epoll.interest == map[] && fdContexts == [] && pendingEventCount == 0 && view == Table([], 0, map[])
      ensures Backed()
    {}

    lemma BackedIsValid()
      requires Mirror(view) && Backed()
      ensures Valid()
    {}

    method FirstContexts()
      requires Backed() && view == Table([], 0, map[])
      modifies this`fdContexts, this`view
      ensures Valid() && view == Table(Blank(32), 0, map[])
    {
      hide *;
      ResizedNew<Waker<C>>(32);
      NewMirror<Waker<C>>(32);
      ContextResize(32);
      BackedIsValid();
    }

    constructor (sched: Scheduler<C>)
      ensures Valid() && this.sched == sched && view == Table(Blank(32), 0, map[])
    {
      this.sched := sched;
      epoll := new Epoll();
      fdContexts, pendingEventCount, view := [], 0, Table([], 0, map[]);
      new;
      hide *;
      NothingYet();
      FirstContexts();
    }

    /** The epoll_ctl call that adds an event; the kernel never refuses it. */
    method Extend(fd: nat, ev: Event, fails: bool) returns (rt: int)
      requires Backed() && fd < |view.fds| && Legal(view.kernel, AddOp(view.fds[fd]), fd)
      modifies epoll
      ensures rt == 0 <==> !fails
      ensures epoll.interest ==
                if rt == 0 then EventTable.Ctl(view.kernel, AddOp(view.fds[fd]), fd, view.fds[fd].Keys + {ev})
                else view.kernel
      ensures Contexts()
    {
      hide FdContext<C>.Holds;
      var events := fdContexts[fd].events;
      assert events == view.fds[fd].Keys;
      rt := epoll.Ctl(if events != {} then MOD else ADD, fd, events + {ev}, fails);
    }

    method Commit(fd: nat, ev: Event, cb: Option<C>, current: Fiber<C>)
      requires Contexts() && fd < |view.fds| && |view.fds| >= 2 && ev !in view.fds[fd]
      modifies this`pendingEventCount, this`view, fdContexts[fd]
      ensures Contexts()
      ensures view == EventTable.AddEvent(old(view), fd, ev, WakerOf(cb, current), true)
    {
      hide FdContext<C>.Shows;
      pendingEventCount := pendingEventCount + 1;
      fdContexts[fd].Fill(ev, cb, current, sched, view.fds[fd]);
      view := EventTable.AddEvent(view, fd, ev, WakerOf(cb, current), true);
    }

    method Register(fd: nat, ev: Event, cb: Option<C>, current: Fiber<C>, fails: bool) returns (rt: int, asserted: bool)
      requires Valid() && fd < |view.fds|
      modifies this`pendingEventCount, this`view, epoll, fdContexts[fd]
      ensures asserted <==> ev in old(view).fds[fd]
      ensures !asserted ==> Valid() && (rt == 0 <==> !fails)
      ensures !asserted ==> view == EventTable.AddEvent(old(view), fd, ev, WakerOf(cb, current), rt == 0)
    {
      hide Resized;
      hide Mirror;
      hide FdContext<C>.Holds;
      hide KernelMirror;
      var fdCtx := fdContexts[fd];
      if ev in fdCtx.events {
        return 0, true;
      }
      ghost var task: Waker<C> := WakerOf(cb, current);
      AddKeeps(view, fd, ev, task, !fails);
      MirrorSize(view);
      AddWithin(view, fd, ev, task);
      hide EventTable.AddEvent;
      rt := Extend(fd, ev, fails);
      if rt != 0 {
        return -1, false;
      }
      Commit(fd, ev, cb, current);
      asserted := false;
    }

    /** There is a context for fd afterwards. */
    method Reach(fd: nat)
      requires Valid()
      modifies this`fdContexts, this`view
      ensures Valid() && view == Grown(old(view), fd) && fd < |view.fds|
      ensures forall c :: c in fdContexts ==> c in old(fdContexts) || fresh(c)
      ensures fd < |old(fdContexts)| ==> fdContexts == old(fdContexts)
    {
      hide Mirror;
      hide FdContext.Shows;
      hide Resized;
      GrownKeeps(view, fd);
      if |fdContexts| <= fd {
        ContextResize(fd + fd / 2);
      }
    }

    /** Registering an event twice trips the assertion; otherwise the call fails exactly when
        the kernel has a reason of its own. */
    method AddEvent(fd: nat, ev: Event, cb: Option<C>, current: Fiber<C>, fails: bool) returns (rt: int, asserted: bool)
      requires Valid() && (cb.None? ==> current.state == EXEC)
      modifies this, epoll, fdContexts
      ensures asserted <==> ev in Registered(old(view), fd)
      ensures fd < |old(fdContexts)| ==> fdContexts == old(fdContexts)
      ensures !asserted ==> Valid() && (rt == 0 <==> !fails)
      ensures !asserted ==> view == EventTable.AddEvent(old(view), fd, ev, WakerOf(cb, current), rt == 0)
    {
      hide Mirror;
      hide FdContext.Shows;
      hide Resized;
      MirrorSize(view);
      AddGrown(view, fd, ev, WakerOf(cb, current), !fails);
      hide Grown;
      hide EventTable.AddEvent;
      Reach(fd);
      assert fdContexts[fd] in fdContexts;
      rt, asserted := Register(fd, ev, cb, current, fails);
    }

    /** The epoll_ctl call that takes the events evs of fd out; the kernel never refuses it. */
    method Shrink(fd: nat, evs: set<Event>, fails: bool) returns (rt: int)
      requires Backed() && fd < |view.fds|
      requires Legal(view.kernel, RemoveOp(view.fds[fd] - evs), fd)
      modifies epoll
      ensures rt == 0 <==> !fails
      ensures epoll.interest ==
                if rt != 0 then view.kernel
                else EventTable.Ctl(view.kernel, RemoveOp(view.fds[fd] - evs), fd, (view.fds[fd] - evs).Keys)
      ensures Contexts()
    {
      hide FdContext<C>.Holds;
      var left := fdContexts[fd].events - evs;
      assert left == (view.fds[fd] - evs).Keys;
      rt := epoll.Ctl(if left != {} then MOD else DEL, fd, left, fails);
    }

    method Drop(fd: nat, ev: Event)
      requires Contexts() && fd < |view.fds| && ev in view.fds[fd] && view.pending > 0
      modifies this`pendingEventCount, this`view, fdContexts[fd]
      ensures Contexts() && view == Remove(old(view), fd, {ev})
    {
      hide FdContext<C>.Shows;
      pendingEventCount := pendingEventCount - 1;
      fdContexts[fd].ResetContext(ev, view.fds[fd], sched);
      view := Remove(view, fd, {ev});
    }

    /** The waiter is dropped: nothing will wake it. */
    method DelEvent(fd: nat, ev: Event, fails: bool) returns (r: bool)
      requires Valid()
      modifies this, epoll, fdContexts
      ensures Valid() && view == RemoveEvent(old(view), fd, ev, !fails)
      ensures r <==> ev in Registered(old(view), fd) && !fails
    {
      hide FdContext<C>.Holds;
      hide Mirror;
      if |fdContexts| <= fd || ev !in fdContexts[fd].events {
        return false;
      }
      RemoveKeeps(view, fd, {ev});
      var left := fdContexts[fd].events - {ev};
      var rt := Shrink(fd, {ev}, fails);
      if rt != 0 {
        return false;
      }
      Drop(fd, ev);
      return true;
    }

    ghost method SyncKernel()
      requires Contexts()
      modifies this`view
      ensures Backed() && view == old(view).(kernel := epoll.interest)
    {
      hide FdContext<C>.Holds;
      view := view.(kernel := epoll.interest);
    }

    method TriggerOne(fd: nat, ev: Event)
      requires Contexts() && fd < |view.fds| && ev in view.fds[fd] && view.pending > 0
      modifies this`pendingEventCount, this`view, fdContexts[fd], sched
      ensures Contexts()
      ensures view == old(view).(fds := old(view).fds[fd := old(view).fds[fd] - {ev}], pending := old(view).pending - 1)
      ensures sched.fibers == Push(old(sched.fibers), [old(view).fds[fd][ev]])
    {
      hide FdContext<C>.Holds;
      fdContexts[fd].TriggerEvent(ev, view.fds[fd], sched);
      pendingEventCount := pendingEventCount - 1;
      view := view.(fds := view.fds[fd := view.fds[fd] - {ev}], pending := view.pending - 1);
    }

    method TriggerAll(fd: nat, evs: set<Event>)
      requires Contexts() && fd < |view.fds| && evs <= view.fds[fd].Keys && |evs| <= view.pending
      modifies this`pendingEventCount, this`view, fdContexts[fd], sched
      ensures Contexts()
      ensures view == old(view).(fds := old(view).fds[fd := old(view).fds[fd] - evs],
                                 pending := old(view).pending - |evs|)
      ensures sched.fibers == Push(old(sched.fibers), Woken(old(view).fds[fd], evs))
    {
      hide FdContext<C>.Shows;
      AllEvents(evs);
      if READ in evs {
        TriggerOne(fd, READ);
      }
      if WRITE in evs {
        TriggerOne(fd, WRITE);
      }
      assert view.fds[fd] == old(view).fds[fd] - evs;
      assert view.fds == old(view).fds[fd := view.fds[fd]];
    }

    method WakeOut(fd: nat, evs: set<Event>)
      requires Contexts() && fd < |fdContexts| == |view.fds| && evs <= view.fds[fd].Keys && |evs| <= view.pending
      requires epoll.interest == Remove(view, fd, evs).kernel
      modifies this`pendingEventCount, this`view, fdContexts[fd], sched
      ensures Backed() && view == Remove(old(view), fd, evs)
      ensures sched.fibers == Push(old(sched.fibers), Woken(old(view).fds[fd], evs))
    {
      hide Contexts;
      hide Woken;
      assert epoll as object !in {sched as object, fdContexts[fd] as object};
      TriggerAll(fd, evs);
      SyncKernel();
    }

    /** epoll_ctl and, once it has succeeded, the triggers. */
    method TakeAndWake(fd: nat, evs: set<Event>, fails: bool) returns (r: bool)
      requires Valid() && fd < |view.fds| && evs <= view.fds[fd].Keys && evs != {}
      modifies this`pendingEventCount, this`view, epoll, fdContexts[fd], sched
      ensures r == !fails && Valid() && |evs| <= old(view).pending
      ensures view == if r then Remove(old(view), fd, evs) else old(view)
      ensures sched.fibers == if r then Push(old(sched.fibers), Woken(old(view).fds[fd], evs)) else old(sched.fibers)
    {
      hide FdContext<C>.Holds;
      hide Mirror;
      hide Woken;
      RemoveKeeps(view, fd, evs);
      var rt := Shrink(fd, evs, fails);
      if rt != 0 {
        return false;
      }
      WakeOut(fd, evs);
      return true;
    }

    method CancelEvent(fd: nat, ev: Event, fails: bool) returns (r: bool)
      requires Valid()
      modifies this, epoll, fdContexts, sched
      ensures Valid() && view == RemoveEvent(old(view), fd, ev, !fails)
      ensures r <==> ev in Registered(old(view), fd) && !fails
      ensures fdContexts == old(fdContexts)
      ensures sched.fibers == if r then Push(old(sched.fibers), [old(view).fds[fd][ev]]) else old(sched.fibers)
    {
      hide FdContext<C>.Holds;
      hide Mirror;
      if |fdContexts| <= fd || ev !in fdContexts[fd].events {
        return false;
      }
      r := TakeAndWake(fd, {ev}, fails);
    }

    method CancelAll(fd: nat, fails: bool) returns (r: bool)
      requires Valid()
      modifies this, epoll, fdContexts, sched
      ensures Valid() && view == EventTable.CancelAll(old(view), fd, !fails)
      ensures var m := Registered(old(view), fd);
              && (r <==> m != map[] && !fails)
              && sched.fibers == if r then Push(old(sched.fibers), Woken(m, m.Keys)) else old(sched.fibers)
    {
      hide FdContext<C>.Holds;
      hide Mirror;
      if |fdContexts| <= fd || fdContexts[fd].events == {} {
        return false;
      }
      r := TakeAndWake(fd, fdContexts[fd].events, fails);
    }

    /** One reported descriptor in idle. The bit assertion fails exactly when the report is stale:
        it names a registered event and one that has been taken out since. */
    method DispatchOne(fd: nat, reported: set<Event>, broken: bool, fails: bool) returns (asserted: bool)
      requires Valid() && fd < |view.fds|
      modifies this, epoll, fdContexts, sched
      ensures asserted <==> !fails && !Current(old(view).fds[fd], RealEvents(old(view).fds[fd], reported, broken))
      ensures fails ==> Valid() && view == old(view) && sched.fibers == old(sched.fibers)
      ensures !fails && !asserted ==> Valid() && view == Dispatch(old(view), fd, reported, broken, true)
      ensures !fails && !asserted ==>
                var hit := RealEvents(old(view).fds[fd], reported, broken);
                sched.fibers == if hit !! old(view).fds[fd].Keys then old(sched.fibers)
                                else Push(old(sched.fibers), Woken(old(view).fds[fd], hit))
      ensures !fails && reported <= old(view).fds[fd].Keys ==> Valid()
      ensures !fails && reported <= old(view).fds[fd].Keys ==>
                var m := old(view).fds[fd];
                var taken := if broken then m.Keys else reported;
                && !asserted && view.fds == old(view).fds[fd := m - taken]
                && taken <= Entries(m).Keys && WakesBehind(old(sched.fibers), Entries(m), taken, sched.fibers)
    {
      hide FdContext<C>.Holds;
      hide Mirror;
      hide Entries;
      hide WakesBehind;
      if reported <= view.fds[fd].Keys {
        ReportTaken(view.fds[fd], reported, broken);
        PushedBehind(sched.fibers, view.fds[fd], if broken then view.fds[fd].Keys else reported);
      }
      var hit := if broken then reported + fdContexts[fd].events else reported;
      if hit !! fdContexts[fd].events {
        assert hit <= view.fds[fd].Keys ==> hit == {} && view.fds[fd] - hit == view.fds[fd];
        assert Push(sched.fibers, []) == sched.fibers;
        return false;
      }
      if fails {
        return false;
      }
      if !(hit <= fdContexts[fd].events) {
        return true;
      }
      var _ := TakeAndWake(fd, hit, fails);
      return false;
    }

    /** No timer, no registration, stopped, nothing queued and nobody active; in passing the bit
        that holds back further tickles is cleared. */
    method Stopping(timers: TimerManager.TimerManager<C>, now: nat) returns (timeout: Option<nat>, r: bool)
      requires Valid() && timers.Valid()
      modifies timers`tickled, timers`view
      ensures timers.Valid() && timers.view == TimerSpec.GetNext(old(timers.view))
      ensures timeout.None? <==> timers.view.live == map[]
      ensures r <==> (timers.view.live == map[] && (forall fd :: 0 <= fd < |view.fds| ==> view.fds[fd] == map[])
                      && sched.autoStop && sched.stopping && sched.fibers == [] && sched.activeThreadCount == 0)
    {
      hide FdContext<C>.Holds;
      NoneWaiting(view.fds);
      timeout := timers.GetNextTimer(now);
      var done := sched.Stopping();
      r := timeout.None? && pendingEventCount == 0 && done;
    }
  }

  /** The kernel reports reading and writing on a descriptor, and before the report is handled the
      registration for writing is cancelled: the bit assertion fails, on any manager and any
      descriptor with nothing registered. */
  method StaleReport<C>(io: IOManager<C>, fd: nat, reader: C, writer: C, current: Fiber<C>) returns (asserted: bool)
    requires io.Valid() && fd < |io.view.fds| && io.view.fds[fd] == map[]
    modifies io, io.epoll, io.fdContexts, io.sched
    ensures asserted
  {
    hide FdContext<C>.Holds;
    hide Mirror;
    var _, first := io.AddEvent(fd, READ, Some(reader), current, false);
    var _, second := io.AddEvent(fd, WRITE, Some(writer), current, false);
    assert Current(io.view.fds[fd], {READ, WRITE});
    var _ := io.CancelEvent(fd, WRITE, false);
    assert READ in io.view.fds[fd] && WRITE !in io.view.fds[fd];
    asserted := io.DispatchOne(fd, {READ, WRITE}, false, false);
  }
}
