/**
 Every timer behaves as if it were the only one. What a timer by itself would do is said in terms
 of when its period began, which the code does not keep: a refresh begins the period anew, a reset
 changes its length and begins it anew only if asked to, and an expiry that finds it over emits the
 callback and begins the next period or none. In every run, whatever happens to all the other
 timers, the set holds exactly the timers that would be armed, each for the end of its period.
 */
module TimerAlone {
  import opened Wrappers
  import opened TimerSpec
  import opened TimerRuns

  datatype Own<T> = Own(start: nat, ms: nat, recurring: bool, cb: T)

  /** The period is over, or the clock seems to have gone back. */
  predicate Ends<T>(o: Own<T>, previous: nat, readAt: nat) {
    o.start + o.ms <= readAt || RolledBack(previous, readAt)
  }

  /** What becomes of the timer id by itself; previous is what an expiry compares its reading with. */
  function Lives<T>(id: nat, o: Option<Own<T>>, op: Op<T>, now: nat, previous: nat): Option<Own<T>> {
    match op
    case Add(i, ms, recurring, cb, readAt) => if i == id then Some(Own(readAt, ms, recurring, cb)) else o
    case CancelTimer(i) => if i == id then None else o
    case RefreshTimer(i) => if i == id && o.Some? then Some(o.value.(start := now)) else o
    case ResetTimer(i, ms, fromNow) =>
      if i == id && o.Some? then Some(o.value.(start := if fromNow then now else o.value.start, ms := ms)) else o
    case Expired(_, readAt) =>
      if o.Some? && Ends(o.value, previous, readAt) then
        if o.value.recurring then Some(o.value.(start := readAt)) else None
      else o
    case Poll => o
    case Tick(_) => o
  }

  /** What time it is after n steps. */
  function Clock<T>(ops: seq<Op<T>>, t0: nat, n: nat): nat
    requires n <= |ops|
  {
    if n == 0 then t0 else if ops[n-1].Tick? then ops[n-1].to else Clock(ops, t0, n - 1)
  }

  /** The reading of the latest expiry that found any timer. */
  function Reading<T>(ws: seq<World<T>>, ops: seq<Op<T>>, t0: nat, n: nat): nat
    requires n <= |ops| && |ws| == |ops| + 1
  {
    if n == 0 then t0
    else if ops[n-1].Expired? && ws[n-1].timers.live != map[] then ops[n-1].readAt
    else Reading(ws, ops, t0, n - 1)
  }

  /** The timer id by itself, after n steps. */
  function Alone<T>(ws: seq<World<T>>, ops: seq<Op<T>>, t0: nat, id: nat, n: nat): Option<Own<T>>
    requires n <= |ops| && |ws| == |ops| + 1
  {
    if n == 0 then None
    else Lives(id, Alone(ws, ops, t0, id, n - 1), ops[n-1], Clock(ops, t0, n - 1), Reading(ws, ops, t0, n - 1))
  }

  ghost predicate ArmedAs<T>(live: map<nat, Rec<T>>, id: nat, o: Option<Own<T>>) {
    match o
    case None => id !in live
    case Some(t) => id in live && live[id] == Rec(t.ms, t.start + t.ms, t.recurring, t.cb)
  }

  lemma ExpireAlone<T>(w: World<T>, op: Op<T>, id: nat, o: Option<Own<T>>)
    requires Enabled(w, op) && op.Expired? && ArmedAs(w.timers.live, id, o)
    ensures ArmedAs(Do(w, op).timers.live, id, Lives(id, o, op, w.now, w.timers.previous))
    ensures id in op.due <==> o.Some? && Ends(o.value, w.timers.previous, op.readAt)
  {
    hide RolledBack;
    hide Undercuts;
  }

  lemma ResetAlone<T>(w: World<T>, op: Op<T>, id: nat, o: Option<Own<T>>)
    requires Enabled(w, op) && op.ResetTimer? && ArmedAs(w.timers.live, id, o)
    requires op.id in w.timers.live ==> w.periods[op.id] == w.timers.live[op.id].ms
    ensures ArmedAs(Do(w, op).timers.live, id, Lives(id, o, op, w.now, w.timers.previous))
  {
    hide First;
  }

  lemma StepAlone<T>(w: World<T>, op: Op<T>, id: nat, o: Option<Own<T>>)
    requires Inv(w) && Enabled(w, op) && ArmedAs(w.timers.live, id, o)
    ensures ArmedAs(Do(w, op).timers.live, id, Lives(id, o, op, w.now, w.timers.previous))
  {
    hide NoLostWakeup;
    hide AtMostOnce;
    hide NeverAfterCancel;
    hide First;
    hide Earliest;
    match op
    case Expired(_, _) => ExpireAlone(w, op, id, o);
    case ResetTimer(i, _, _) =>
      assert i in w.timers.live ==> Sound(w, i);
      hide Shape;
      hide Do;
      hide Enabled;
      hide ArmedAs;
      hide Lives;
      ResetAlone(w, op, id, o);
    case _ => hide Shape;
  }

  lemma StepReads<T>(w: World<T>, op: Op<T>)
    requires Enabled(w, op)
    ensures Do(w, op).now == if op.Tick? then op.to else w.now
    ensures Do(w, op).timers.previous == if op.Expired? && w.timers.live != map[] then op.readAt else w.timers.previous
  {}

  lemma AloneNext<T>(ws: seq<World<T>>, ops: seq<Op<T>>, t0: nat, id: nat, n: nat)
    requires n < |ops| && |ws| == |ops| + 1
    ensures Clock(ops, t0, n + 1) == if ops[n].Tick? then ops[n].to else Clock(ops, t0, n)
    ensures Reading(ws, ops, t0, n + 1)
         == if ops[n].Expired? && ws[n].timers.live != map[] then ops[n].readAt else Reading(ws, ops, t0, n)
    ensures Alone(ws, ops, t0, id, n + 1)
         == Lives(id, Alone(ws, ops, t0, id, n), ops[n], Clock(ops, t0, n), Reading(ws, ops, t0, n))
  {
    hide Lives;
  }

  lemma RunFrame<T>(ws: seq<World<T>>, ops: seq<Op<T>>, t0: nat)
    requires IsRun(ws, ops, t0)
    ensures |ws| == |ops| + 1 && ws[0] == Init(t0)
  {}

  lemma AloneFirst<T>(ws: seq<World<T>>, ops: seq<Op<T>>, t0: nat, id: nat)
    requires |ws| == |ops| + 1 && ws[0] == Init(t0)
    ensures ws[0].now == Clock(ops, t0, 0) && ws[0].timers.previous == Reading(ws, ops, t0, 0)
    ensures ArmedAs(ws[0].timers.live, id, Alone(ws, ops, t0, id, 0))
  {}

  lemma {:induction false} EveryRunAlone<T>(ws: seq<World<T>>, ops: seq<Op<T>>, t0: nat, id: nat, n: nat)
    requires IsRun(ws, ops, t0) && n <= |ops|
    ensures ws[n].now == Clock(ops, t0, n) && ws[n].timers.previous == Reading(ws, ops, t0, n)
    ensures ArmedAs(ws[n].timers.live, id, Alone(ws, ops, t0, id, n))
    decreases n
  {
    hide *;
    RunFrame(ws, ops, t0);
    if n == 0 {
      AloneFirst(ws, ops, t0, id);
    } else {
      EveryRunAlone(ws, ops, t0, id, n - 1);
      EveryRunKeeps(ws, ops, t0, n - 1);
      RunStep(ws, ops, t0, n - 1);
      AloneNext(ws, ops, t0, id, n - 1);
      StepReads(ws[n-1], ops[n-1]);
      StepAlone(ws[n-1], ops[n-1], id, Alone(ws, ops, t0, id, n - 1));
    }
  }

  /** An expiry emits the callback of a timer exactly if its period is over, or if the reading of
      the clock is behind that of the latest expiry that found any timer. */
  lemma FiresAlone<T>(ws: seq<World<T>>, ops: seq<Op<T>>, t0: nat, id: nat, n: nat)
    requires IsRun(ws, ops, t0) && n < |ops| && ops[n].Expired?
    ensures var o := Alone(ws, ops, t0, id, n);
            id in ops[n].due <==> o.Some? && Ends(o.value, Reading(ws, ops, t0, n), ops[n].readAt)
  {
    EveryRunAlone(ws, ops, t0, id, n);
    RunStep(ws, ops, t0, n);
    ExpireAlone(ws[n], ops[n], id, Alone(ws, ops, t0, id, n));
  }
}
