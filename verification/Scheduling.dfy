/**
 The run queue: what schedule and the take loop of a worker do to it, and the classes that
 do it.
 */
module Scheduling {
  import opened Wrappers

  /** What a queue entry or an event context holds: a suspended fiber or a function. */
  datatype Task<F, C> = FiberTask(fiber: F) | CbTask(cb: C)

  /** thread None stands for -1, any thread. */
  datatype Entry<F, C> = Entry(task: Task<F, C>, thread: Option<nat>)

  function Push<F, C>(q: seq<Entry<F, C>>, tasks: seq<Task<F, C>>): seq<Entry<F, C>> {
    q + seq(|tasks|, i requires 0 <= i < |tasks| => Entry(tasks[i], None))
  }

  lemma PushLast<F, C>(q: seq<Entry<F, C>>, tasks: seq<Task<F, C>>, last: nat)
    requires |tasks| == last + 1
    ensures Push(q, tasks) == Push(q, tasks[..last]) + [Entry(tasks[last], None)]
  {}

  /** A worker passes over tasks pinned to another thread and over fibers still executing. */
  predicate Takes<F, C>(e: Entry<F, C>, me: nat, busy: set<F>) {
    && (e.thread.None? || e.thread.value == me)
    && (e.task.FiberTask? ==> e.task.fiber !in busy)
  }

  /** Some task is meant for another thread. */
  predicate AnyElsewhere<F, C>(q: seq<Entry<F, C>>, me: nat) {
    exists i :: 0 <= i < |q| && q[i].thread.Some? && q[i].thread.value != me
  }

  /** i is the entry the take loop of thread me removes. */
  predicate IsPick<F, C>(q: seq<Entry<F, C>>, me: nat, busy: set<F>, i: nat) {
    i < |q| && Takes(q[i], me, busy) && forall j :: 0 <= j < i ==> !Takes(q[j], me, busy)
  }

  function Without<F, C>(q: seq<Entry<F, C>>, i: nat): seq<Entry<F, C>>
    requires i < |q|
  {
    q[..i] + q[i+1..]
  }

  // ---------------------------------------------------------------- who gets which task

  /** Thread me, with nothing busy, takes entry i. */
  datatype Picked = Picked(me: nat, i: nat)

  /** The queues of a run in which n threads take tasks and nobody adds any. */
  ghost predicate IsTaking<F, C>(qs: seq<seq<Entry<F, C>>>, takes: seq<Picked>, n: nat) {
    && |qs| == |takes| + 1
    && forall k {:trigger takes[k]} :: 0 <= k < |takes| ==>
         takes[k].me < n && IsPick(qs[k], takes[k].me, {}, takes[k].i) && qs[k+1] == Without(qs[k], takes[k].i)
  }

  /** What is meant for threads that are none of the n. */
  function Elsewhere<F, C>(q: seq<Entry<F, C>>, n: nat): seq<Entry<F, C>> {
    if q == [] then []
    else (if q[0].thread.Some? && q[0].thread.value >= n then [q[0]] else []) + Elsewhere(q[1..], n)
  }

  lemma {:induction false} ElsewhereWithout<F, C>(q: seq<Entry<F, C>>, n: nat, i: nat)
    requires i < |q| && (q[i].thread.Some? ==> q[i].thread.value < n)
    ensures Elsewhere(Without(q, i), n) == Elsewhere(q, n)
  {
    if i == 0 {
      assert Without(q, i) == q[1..];
    } else {
      ElsewhereWithout(q[1..], n, i - 1);
      assert Without(q, i)[1..] == Without(q[1..], i - 1);
    }
  }

  lemma {:induction false} AllElsewhere<F, C>(q: seq<Entry<F, C>>, n: nat)
    requires forall i :: 0 <= i < |q| ==> q[i].thread.Some? && q[i].thread.value >= n
    ensures Elsewhere(q, n) == q
  {
    if q != [] {
      AllElsewhere(q[1..], n);
    }
  }

  lemma {:induction false} ElsewhereStays<F, C>(qs: seq<seq<Entry<F, C>>>, takes: seq<Picked>, n: nat, k: nat)
    requires IsTaking(qs, takes, n) && k < |qs|
    ensures Elsewhere(qs[k], n) == Elsewhere(qs[0], n)
  {
    if k > 0 {
      ElsewhereStays(qs, takes, n, k - 1);
      var t := takes[k-1];
      ElsewhereWithout(qs[k-1], n, t.i);
    }
  }

  lemma {:induction false} SomePick<F, C>(q: seq<Entry<F, C>>, me: nat, busy: set<F>, i: nat) returns (j: nat)
    requires i < |q| && Takes(q[i], me, busy)
    ensures j <= i && IsPick(q, me, busy, j)
    decreases i
  {
    if IsPick(q, me, busy, i) {
      return i;
    }
    var k: nat :| k < i && Takes(q[k], me, busy);
    j := SomePick(q, me, busy, k);
  }

  ghost predicate NobodyTakes<F, C>(q: seq<Entry<F, C>>, n: nat) {
    forall me: nat, i :: me < n && 0 <= i < |q| ==> !IsPick(q, me, {}, i)
  }

  lemma NobodyPicks<F, C>(q: seq<Entry<F, C>>, n: nat)
    requires n > 0 && NobodyTakes(q, n)
    ensures forall i :: 0 <= i < |q| ==> q[i].thread.Some? && q[i].thread.value >= n
  {
    forall i | 0 <= i < |q|
      ensures q[i].thread.Some? && q[i].thread.value >= n
    {
      var me := if q[i].thread.Some? then q[i].thread.value else 0;
      if me < n {
        var _ := SomePick(q, me, {}, i);
        assert false;
      }
    }
  }

  lemma GetsItsOwn<F, C>(qs: seq<seq<Entry<F, C>>>, takes: seq<Picked>, n: nat, k: nat)
    requires IsTaking(qs, takes, n) && k < |takes|
    ensures var me, i := takes[k].me, takes[k].i;
            i < |qs[k]| && (qs[k][i].thread.None? || qs[k][i].thread.value == me)
  {
    var t := takes[k];
  }

  /** Whoever takes when: no thread gets a task pinned to another one, and when no thread can take
      any more, exactly those pinned to threads that are not there are left, in their order. */
  lemma TakenByTheRight<F, C>(qs: seq<seq<Entry<F, C>>>, takes: seq<Picked>, n: nat)
    requires IsTaking(qs, takes, n) && n > 0
    ensures forall k {:trigger takes[k]} :: 0 <= k < |takes| ==>
              var me, i := takes[k].me, takes[k].i;
              i < |qs[k]| && (qs[k][i].thread.None? || qs[k][i].thread.value == me)
    ensures NobodyTakes(qs[|takes|], n) ==> qs[|takes|] == Elsewhere(qs[0], n)
  {
    ElsewhereStays(qs, takes, n, |takes|);
    forall k | 0 <= k < |takes|
      ensures var me, i := takes[k].me, takes[k].i;
              i < |qs[k]| && (qs[k][i].thread.None? || qs[k][i].thread.value == me)
    {
      GetsItsOwn(qs, takes, n, k);
    }
    assert |qs| == |takes| + 1;
    hide *;
    if NobodyTakes(qs[|takes|], n) {
      NobodyPicks(qs[|takes|], n);
      AllElsewhere(qs[|takes|], n);
    }
  }

  // ---------------------------------------------------------------- the classes

  datatype State = INIT | HOLD | EXEC | TERM | READY | EXCEPT

  class Fiber<C> {
    var state: State
    var cb: Option<C>

    constructor (cb: C)
      ensures state == INIT && this.cb == Some(cb)
    {
      state, this.cb := INIT, Some(cb);
    }

    /** A fiber is given a new function only before it has started or after it has ended. */
    method Reset(cb: Option<C>)
      requires state in {TERM, EXCEPT, INIT}
      modifies this
      ensures state == INIT && this.cb == cb
    {
      this.cb := cb;
      state := INIT;
    }

    /** Nobody swaps in a fiber that is executing. */
    method SwapIn()
      requires state != EXEC
      modifies this`state
      ensures state == EXEC
    {
      state := EXEC;
    }

    method YieldToReady()
      requires state == EXEC
      modifies this`state
      ensures state == READY
    {
      state := READY;
    }

    method YieldToHold()
      requires state == EXEC
      modifies this`state
      ensures state == HOLD
    {
      state := HOLD;
    }

    /** The end of MainFunc: a function that threw stays with the fiber. */
    method Finish(thrown: bool)
      requires state == EXEC
      modifies this
      ensures state == (if thrown then EXCEPT else TERM) && cb == if thrown then old(cb) else None
    {
      if thrown {
        state := EXCEPT;
      } else {
        cb := None;
        state := TERM;
      }
    }
  }

  /** How a fiber comes back to the worker that swapped it in. */
  datatype Came = Yielded | Suspended | Over(thrown: bool)

  function LeftIn(came: Came): State {
    match came
    case Yielded => READY
    case Suspended => HOLD
    case Over(thrown) => if thrown then EXCEPT else TERM
  }

  /** The fiber runs until it gives the worker back. */
  method Run<C>(fiber: Fiber<C>, came: Came)
    requires fiber.state != EXEC
    modifies fiber
    ensures fiber.state == LeftIn(came) && fiber.cb == if came == Over(false) then None else old(fiber.cb)
  {
    fiber.SwapIn();
    match came
    case Yielded => fiber.YieldToReady();
    case Suspended => fiber.YieldToHold();
    case Over(thrown) => fiber.Finish(thrown);
  }

  /** Queued again exactly if it yielded. */
  function Again<F, C>(fiber: F, came: Came): seq<Task<F, C>> {
    if came.Yielded? then [FiberTask(fiber)] else []
  }

  class Scheduler<C> {
    var fibers: seq<Entry<Fiber<C>, C>>
    var activeThreadCount: nat
    var idleThreadCount: nat
    var autoStop: bool
    var stopping: bool
    /** How often tickle has been called. */
    var tickles: nat

    constructor ()
      ensures fibers == [] && activeThreadCount == 0 && idleThreadCount == 0 && !autoStop && stopping && tickles == 0
    {
      fibers, activeThreadCount, idleThreadCount, autoStop, stopping, tickles := [], 0, 0, false, true, 0;
    }

    ghost function Queued(): set<Fiber<C>>
      reads this
    {
      set e | e in fibers && e.task.FiberTask? :: e.task.fiber
    }

    /** The executing fibers among those in the queue. */
    ghost function Busy(): set<Fiber<C>>
      reads this, Queued()
    {
      set f | f in Queued() && f.state == EXEC
    }

    /** tickle is owed exactly when the queue was empty. */
    method Schedule(task: Task<Fiber<C>, C>)
      modifies this
      ensures fibers == Push(old(fibers), [task])
      ensures tickles == old(tickles) + if old(fibers) == [] then 1 else 0
      ensures activeThreadCount == old(activeThreadCount)
      ensures stopping == old(stopping) && autoStop == old(autoStop)
    {
      var needTickle := fibers == [];
      fibers := fibers + [Entry(task, None)];
      if needTickle {
        tickles := tickles + 1;
      }
    }

    /** The batch form tickles once at most. */
    method ScheduleAll(tasks: seq<Task<Fiber<C>, C>>)
      modifies this
      ensures fibers == Push(old(fibers), tasks)
      ensures tickles == old(tickles) + if old(fibers) == [] && tasks != [] then 1 else 0
      ensures activeThreadCount == old(activeThreadCount)
    {
      var needTickle := false;
      var i := 0;
      while i < |tasks|
        invariant i <= |tasks|
        invariant fibers == Push(old(fibers), tasks[..i])
        invariant needTickle == (old(fibers) == [] && i > 0)
        invariant activeThreadCount == old(activeThreadCount) && tickles == old(tickles)
      {
        needTickle := fibers == [] || needTickle;
        fibers := fibers + [Entry(tasks[i], None)];
        i := i + 1;
      }
      assert tasks[..i] == tasks;
      if needTickle {
        tickles := tickles + 1;
      }
    }

    /** The locked part of the worker loop: the first task this thread may run is taken off the
        queue and counted as active in the same critical section. */
    method Take(me: nat) returns (taken: Option<Task<Fiber<C>, C>>, tickleMe: bool)
      modifies this
      ensures taken.None? ==> unchanged(this) && tickleMe == AnyElsewhere(fibers, me)
      ensures taken.None? ==> forall i :: 0 <= i < |fibers| ==> !Takes(fibers[i], me, Busy())
      ensures taken.None? <==>
                forall e :: e in old(fibers) ==>
                  || (e.thread.Some? && e.thread.value != me)
                  || (e.task.FiberTask? && old(e.task.fiber.state) == EXEC)
      ensures taken.None? ==> (tickleMe <==> exists e :: e in fibers && e.thread.Some? && e.thread.value != me)
      ensures taken.Some? ==> activeThreadCount == old(activeThreadCount) + 1
      ensures taken.Some? ==>
                exists i: nat :: IsPick(old(fibers), me, old(Busy()), i)
                              && taken.value == old(fibers)[i].task && fibers == Without(old(fibers), i)
                              && tickleMe == (i + 1 < |old(fibers)| || AnyElsewhere(old(fibers)[..i], me))
      ensures tickles == old(tickles) && stopping == old(stopping) && autoStop == old(autoStop)
    {
      tickleMe := false;
      var it := 0;
      while it < |fibers|
        invariant it <= |fibers| && unchanged(this)
        invariant tickleMe == AnyElsewhere(fibers[..it], me)
        invariant forall i :: 0 <= i < it ==> !Takes(fibers[i], me, Busy())
      {
        var e := fibers[it];
        assert e.task.FiberTask? ==> e.task.fiber in Queued();
        assert fibers[..it+1] == fibers[..it] + [e];
        if e.thread.Some? && e.thread.value != me {
          it := it + 1;
          tickleMe := true;
          continue;
        }
        if e.task.FiberTask? && e.task.fiber.state == EXEC {
          it := it + 1;
          continue;
        }
        taken := Some(e.task);
        assert IsPick(fibers, me, Busy(), it);
        tickleMe := tickleMe || it + 1 < |fibers|;
        fibers := fibers[..it] + fibers[it+1..];
        activeThreadCount := activeThreadCount + 1;
        return;
      }
      assert fibers[..it] == fibers;
      taken := None;
    }

    /** What run does when a fiber it swapped in comes back: one that yielded is queued again,
        one that has not ended is on hold. */
    method Settle(fiber: Fiber<C>)
      requires activeThreadCount > 0
      modifies this, fiber`state
      ensures activeThreadCount == old(activeThreadCount) - 1
      ensures fibers == if old(fiber.state) == READY then Push(old(fibers), [FiberTask(fiber)]) else old(fibers)
      ensures tickles == old(tickles) + if old(fiber.state) == READY && old(fibers) == [] then 1 else 0
      ensures fiber.state == if old(fiber.state) in {READY, TERM, EXCEPT} then old(fiber.state) else HOLD
      ensures stopping == old(stopping) && autoStop == old(autoStop)
    {
      activeThreadCount := activeThreadCount - 1;
      if fiber.state == READY {
        Schedule(FiberTask(fiber));
      } else if fiber.state != TERM && fiber.state != EXCEPT {
        fiber.state := HOLD;
      }
    }

    /** The fiber a worker runs a function on: its own, reset, or a new one. */
    method FiberFor(cbFiber: Option<Fiber<C>>, cb: C) returns (fiber: Fiber<C>)
      requires cbFiber.Some? ==> cbFiber.value.state in {INIT, TERM, EXCEPT}
      modifies if cbFiber.Some? then {cbFiber.value} else {}
      ensures fiber.state == INIT && fiber.cb == Some(cb)
      ensures if cbFiber.Some? then fiber == cbFiber.value else fresh(fiber)
    {
      if cbFiber.Some? {
        fiber := cbFiber.value;
        fiber.Reset(Some(cb));
      } else {
        fiber := new Fiber(cb);
      }
    }

    /** The same for the fiber that ran a function: the worker keeps it exactly if the function
        has ended, and then it is INIT; otherwise somebody else has it from now on. */
    method SettleCb(fiber: Fiber<C>) returns (cbFiber: Option<Fiber<C>>)
      requires activeThreadCount > 0
      modifies this, fiber
      ensures activeThreadCount == old(activeThreadCount) - 1
      ensures fibers == if old(fiber.state) == READY then Push(old(fibers), [FiberTask(fiber)]) else old(fibers)
      ensures tickles == old(tickles) + if old(fiber.state) == READY && old(fibers) == [] then 1 else 0
      ensures cbFiber == if old(fiber.state) in {TERM, EXCEPT} then Some(fiber) else None
      ensures cbFiber.Some? ==> fiber.state == INIT && fiber.cb == None
      ensures cbFiber.None? ==>
                fiber.state == (if old(fiber.state) == READY then READY else HOLD)
                && fiber.cb == old(fiber.cb)
      ensures stopping == old(stopping) && autoStop == old(autoStop)
    {
      activeThreadCount := activeThreadCount - 1;
      if fiber.state == READY {
        Schedule(FiberTask(fiber));
        return None;
      } else if fiber.state == EXCEPT || fiber.state == TERM {
        fiber.Reset(None);
        return Some(fiber);
      }
      fiber.state := HOLD;
      return None;
    }

    /** A task just taken: a fiber is run unless it has ended, a function on the worker's own
        fiber or a new one, which stays with the worker exactly if the function is over. What
        yielded is back at the end of the queue. */
    method RunTask(task: Task<Fiber<C>, C>, cbFiber: Option<Fiber<C>>, came: Came)
      returns (kept: Option<Fiber<C>>, ran: Option<Fiber<C>>)
      requires activeThreadCount > 0 && (task.FiberTask? ==> task.fiber.state != EXEC)
      requires cbFiber.Some? ==> cbFiber.value.state in {INIT, TERM, EXCEPT}
      modifies this, if task.FiberTask? then {task.fiber} else if cbFiber.Some? then {cbFiber.value} else {}
      ensures activeThreadCount == old(activeThreadCount) - 1
      ensures fibers == Push(old(fibers), if ran.Some? then Again(ran.value, came) else [])
      ensures tickles == old(tickles) + if ran.Some? && came.Yielded? && old(fibers) == [] then 1 else 0
      ensures task.FiberTask? ==> kept == cbFiber
      ensures task.FiberTask? ==>
                if old(task.fiber.state) in {TERM, EXCEPT} then ran == None && task.fiber.state == old(task.fiber.state)
                else ran == Some(task.fiber) && task.fiber.state == LeftIn(came)
      ensures task.CbTask? ==>
                && ran.Some? && (if cbFiber.Some? then ran == cbFiber else fresh(ran.value))
                && kept == (if came.Over? then ran else None)
                && ran.value.state == (if came.Over? then INIT else LeftIn(came))
                && ran.value.cb == (if came.Over? then None else Some(task.cb))
    {
      kept, ran := cbFiber, None;
      match task
      case FiberTask(fiber) =>
        if fiber.state != TERM && fiber.state != EXCEPT {
          Run(fiber, came);
          Settle(fiber);
          ran := Some(fiber);
        } else {
          activeThreadCount := activeThreadCount - 1;
        }
      case CbTask(cb) =>
        var fiber := FiberFor(cbFiber, cb);
        Run(fiber, came);
        kept := SettleCb(fiber);
        ran := Some(fiber);
    }

    /** One pass of the worker loop, the fiber run in it coming back as came says. With no task for
        this thread nothing happens, and its idle fiber is next; else the first one it may run is
        taken off the queue and run. */
    method Iterate(me: nat, cbFiber: Option<Fiber<C>>, came: Came)
      returns (kept: Option<Fiber<C>>, ran: Option<Fiber<C>>, ghost pick: Option<nat>)
      requires cbFiber.Some? ==> cbFiber.value.state in {INIT, TERM, EXCEPT}
      modifies this, Queued(), if cbFiber.Some? then {cbFiber.value} else {}
      ensures activeThreadCount == old(activeThreadCount)
      ensures pick.None? <==> old(forall k :: 0 <= k < |fibers| ==> !Takes(fibers[k], me, Busy()))
      ensures pick.None? ==> ran == None && kept == cbFiber && fibers == old(fibers)
      ensures pick.None? ==> tickles == old(tickles) + if AnyElsewhere(fibers, me) then 1 else 0
      ensures pick.Some? ==>
                && IsPick(old(fibers), me, old(Busy()), pick.value)
                && fibers == Push(Without(old(fibers), pick.value), if ran.Some? then Again(ran.value, came) else [])
                && tickles == old(tickles)
                   + (if pick.value + 1 < |old(fibers)| || AnyElsewhere(old(fibers)[..pick.value], me) then 1 else 0)
                   + (if ran.Some? && came.Yielded? && |old(fibers)| == 1 then 1 else 0)
      ensures pick.Some? && old(fibers)[pick.value].task.FiberTask? ==>
                var f := old(fibers)[pick.value].task.fiber;
                kept == cbFiber &&
                if old(f.state) in {TERM, EXCEPT} then ran == None && f.state == old(f.state)
                else ran == Some(f) && f.state == LeftIn(came)
      ensures pick.Some? && old(fibers)[pick.value].task.CbTask? ==>
                && ran.Some? && (if cbFiber.Some? then ran == cbFiber else fresh(ran.value))
                && kept == (if came.Over? then ran else None)
                && ran.value.state == (if came.Over? then INIT else LeftIn(came))
                && ran.value.cb == (if came.Over? then None else Some(old(fibers)[pick.value].task.cb))
    {
      hide Push;
      hide AnyElsewhere;
      hide Again;
      hide LeftIn;
      var taken, tickleMe := Take(me);
      kept, ran, pick := cbFiber, None, None;
      if tickleMe {
        tickles := tickles + 1;
      }
      if taken.Some? {
        ghost var i: nat :|
          && IsPick(old(fibers), me, old(Busy()), i) && taken.value == old(fibers)[i].task
          && fibers == Without(old(fibers), i)
          && tickleMe == (i + 1 < |old(fibers)| || AnyElsewhere(old(fibers)[..i], me));
        assert old(fibers)[i] in old(fibers);
        pick := Some(i);
        kept, ran := RunTask(taken.value, cbFiber, came);
      }
    }

    method Stopping() returns (r: bool)
      ensures r == (autoStop && stopping && fibers == [] && activeThreadCount == 0)
    {
      r := autoStop && stopping && fibers == [] && activeThreadCount == 0;
    }
  }
}
