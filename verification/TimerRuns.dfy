/**
 Whole runs of the timer manager under a clock that does not go back: what every
 interleaving of its locked sections keeps. The clock is read before the lock is taken, so
 two sections can come in the other order than their readings.
 */
module TimerRuns {
  import opened Wrappers
  import opened TimerSpec

  datatype Op<T> =
    /** readAt is the clock as the Timer constructor read it, before the lock was taken. */
    | Add(id: nat, ms: nat, recurring: bool, cb: T, readAt: nat)
    | CancelTimer(id: nat)
    | RefreshTimer(id: nat)
    | ResetTimer(id: nat, ms: nat, fromNow: bool)
    | Poll
    /** readAt is the clock as listExpiredCb read it, before the lock was taken. */
    | Expired(due: seq<nat>, readAt: nat)
    | Tick(to: nat)

  /** The manager, the clock and what has happened so far: the period and kind of each timer
      ever made, the callbacks emitted in order, how many had been emitted when a timer was
      successfully cancelled, the earliest deadline the latest getNextTimer saw (None: it saw no
      timer), how often somebody has been told since then that there is an earlier one, and
      whether an expiry since then has armed a timer before that deadline. */
  datatype World<T> = World(
    timers: Timers<T>,
    now: nat,
    periods: map<nat, nat>,
    kinds: map<nat, bool>,
    fired: seq<nat>,
    cancelled: map<nat, nat>,
    seen: Option<nat>,
    told: nat,
    undercut: bool)

  function Init<T>(now: nat): World<T> {
    World(Timers(map[], false, now), now, map[], map[], [], map[], None, 0, false)
  }

  /** The second conjunct for a reset is no restriction: the invariant below implies it. */
  ghost predicate Enabled<T>(w: World<T>, op: Op<T>) {
    match op
    case Add(id, _, _, _, readAt) => id !in w.kinds && readAt <= w.now
    case CancelTimer(id) => id in w.kinds
    case RefreshTimer(id) => id in w.kinds
    case ResetTimer(id, _, _) => id in w.periods
        && (id in w.timers.live ==> w.timers.live[id].ms <= w.timers.live[id].next)
    case Poll => true
    case Expired(due, readAt) => readAt <= w.now && IsDueOrder(w.timers, readAt, due)
    case Tick(to) => w.now <= to
  }

  function Earliest<T>(live: map<nat, Rec<T>>): Option<nat> {
    if id :| id in live && First(live, id) then Some(live[id].next) else None
  }

  /** An expiry that takes its reading for a rollback and, counting from there, arms a recurring
      timer again before the deadline the latest poll saw. */
  ghost predicate Undercuts<T>(w: World<T>, readAt: nat) {
    RolledBack(w.timers.previous, readAt)
    && exists id :: id in w.timers.live && w.timers.live[id].recurring
                 && w.seen.Some? && readAt + w.timers.live[id].ms < w.seen.value
  }

  ghost function Do<T>(w: World<T>, op: Op<T>): World<T>
    requires Enabled(w, op)
  {
    match op
    case Add(id, ms, recurring, cb, readAt) =>
      var r := Rec(ms, readAt + ms, recurring, cb);
      w.(timers := Insert(w.timers, id, r), told := w.told + if Notifies(w.timers, id, r) then 1 else 0,
         periods := w.periods[id := ms], kinds := w.kinds[id := recurring])
    case CancelTimer(id) =>
      w.(timers := Cancel(w.timers, id),
         cancelled := if id in w.timers.live then w.cancelled[id := |w.fired|] else w.cancelled)
    case RefreshTimer(id) => w.(timers := Refresh(w.timers, id, w.now))
    case ResetTimer(id, ms, fromNow) =>
      w.(timers := Reset(w.timers, id, w.periods[id], w.now, ms, fromNow),
         told := w.told + if ResetNotifies(w.timers, id, w.periods[id], w.now, ms, fromNow) then 1 else 0,
         periods := if id in w.timers.live then w.periods[id := ms] else w.periods)
    case Poll => w.(timers := GetNext(w.timers), seen := Earliest(w.timers.live), told := 0, undercut := false)
    case Expired(due, readAt) =>
      w.(timers := Expire(w.timers, readAt), fired := w.fired + due, undercut := w.undercut || Undercuts(w, readAt))
    case Tick(to) => w.(now := to)
  }

  // ---------------------------------------------------------------- the invariant

  /** m_next - m_ms never lies in the future. */
  ghost predicate Sound<T>(w: World<T>, id: nat)
    requires id in w.timers.live
  {
    var r := w.timers.live[id];
    && r.ms <= r.next <= w.now + r.ms
    && id in w.kinds && r.recurring == w.kinds[id]
    && id in w.periods && r.ms == w.periods[id]
  }

  ghost predicate Shape<T>(w: World<T>) {
    && w.periods.Keys == w.kinds.Keys
    && w.timers.live.Keys <= w.kinds.Keys
    && w.timers.previous <= w.now
    && (forall id :: id in w.timers.live ==> Sound(w, id))
  }

  /** No armed timer is due before the latest poll expects one. */
  ghost predicate Expected<T>(w: World<T>) {
    forall id :: id in w.timers.live ==> w.seen.Some? && w.seen.value <= w.timers.live[id].next
  }

  /** So it is while nobody has been told and no expiry has undercut the poll. The bit says
      whether somebody has, and it is never said twice. */
  ghost predicate NoLostWakeup<T>(w: World<T>) {
    w.told == (if w.timers.tickled then 1 else 0) && (w.told == 0 && !w.undercut ==> Expected(w))
  }

  /** A one-shot callback is emitted at most once, and then its timer is disarmed. */
  ghost predicate AtMostOnce<T>(w: World<T>) {
    && (forall i :: 0 <= i < |w.fired| ==> w.fired[i] in w.kinds)
    && (forall i :: 0 <= i < |w.fired| && !w.kinds[w.fired[i]] ==> w.fired[i] !in w.timers.live)
    && (forall i, j :: 0 <= i < j < |w.fired| && w.fired[i] == w.fired[j] ==> w.kinds[w.fired[i]])
  }

  /** Nothing is emitted for a timer after it was successfully cancelled. */
  ghost predicate NeverAfterCancel<T>(w: World<T>) {
    && w.cancelled.Keys <= w.kinds.Keys && w.cancelled.Keys !! w.timers.live.Keys
    && (forall id :: id in w.cancelled ==> w.cancelled[id] <= |w.fired|)
    && (forall id, i :: id in w.cancelled && w.cancelled[id] <= i < |w.fired| ==> w.fired[i] != id)
  }

  ghost predicate Inv<T>(w: World<T>) {
    Shape(w) && NoLostWakeup(w) && AtMostOnce(w) && NeverAfterCancel(w)
  }

  lemma {:induction false} SomeFirst<T>(live: map<nat, Rec<T>>) returns (id: nat)
    requires live != map[]
    ensures First(live, id)
    decreases |live|
  {
    var a :| a in live;
    var rest := live - {a};
    assert live.Keys == rest.Keys + {a};
    if rest == map[] {
      return a;
    }
    var b := SomeFirst(rest);
    id := if Before(live, a, b) then a else b;
    forall j | j in live && j != id
      ensures Before(live, id, j)
    {
      assert j == a || j == b || (j in rest && Before(rest, b, j));
    }
  }

  lemma EarliestIsFirst<T>(live: map<nat, Rec<T>>)
    ensures Earliest(live).None? ==> live == map[]
    ensures forall id :: id in live && Earliest(live).Some? ==> Earliest(live).value <= live[id].next
  {
    if live != map[] {
      var id := SomeFirst(live);
      assert First(live, id);
      assert Earliest(live).Some?;
    }
  }

  // ---------------------------------------------------------------- every step keeps it

  lemma InsertKeepsWakeup<T>(t: Timers<T>, seen: Option<nat>, id: nat, r: Rec<T>)
    requires id !in t.live
    requires !t.tickled ==> forall j :: j in t.live ==> seen.Some? && seen.value <= t.live[j].next
    ensures var t' := Insert(t, id, r);
            !t'.tickled ==> forall j :: j in t'.live ==> seen.Some? && seen.value <= t'.live[j].next
  {
    var live := t.live[id := r];
    if !t.tickled && !First(live, id) {
      var j :| j in live && j != id && !Before(live, id, j);
      assert t.live[j].next <= r.next;
    }
  }

  lemma AddKeeps<T>(w: World<T>, op: Op<T>)
    requires Inv(w) && Enabled(w, op) && op.Add?
    ensures Inv(Do(w, op))
  {
    if !w.undercut {
      InsertKeepsWakeup(w.timers, w.seen, op.id, Rec(op.ms, op.readAt + op.ms, op.recurring, op.cb));
    }
  }

  lemma RefreshKeeps<T>(w: World<T>, op: Op<T>)
    requires Inv(w) && Enabled(w, op) && op.RefreshTimer?
    ensures Inv(Do(w, op))
  {
    var w' := Do(w, op);
    forall id | id in w'.timers.live
      ensures Sound(w', id) && w.timers.live[id].next <= w'.timers.live[id].next
    {
      assert Sound(w, id);
    }
  }

  lemma RearmKeeps<T>(w: World<T>, w': World<T>, id: nat, r: Rec<T>)
    requires Inv(w) && id in w.timers.live && r.ms <= r.next <= w.now + r.ms
    requires r.recurring == w.kinds[id]
    requires var t := w.timers.(live := w.timers.live - {id});
             w' == w.(timers := Insert(t, id, r), told := w.told + (if Notifies(t, id, r) then 1 else 0),
                      periods := w.periods[id := r.ms])
    ensures Inv(w')
  {
    if !w.undercut {
      InsertKeepsWakeup(w.timers.(live := w.timers.live - {id}), w.seen, id, r);
    }
    forall j | j in w'.timers.live
      ensures Sound(w', j)
    {
      assert Sound(w, j);
    }
    assert w'.timers.live.Keys == w.timers.live.Keys;
  }

  lemma ResetKeeps<T>(w: World<T>, op: Op<T>)
    requires Inv(w) && Enabled(w, op) && op.ResetTimer?
    ensures Inv(Do(w, op))
  {
    var w', id := Do(w, op), op.id;
    if id !in w.timers.live {
      assert w' == w;
    } else {
      assert Sound(w, id);
      var r := w.timers.live[id];
      if op.ms == r.ms && !op.fromNow {
        assert w' == w;
      } else {
        var r' := r.(ms := op.ms, next := ResetStart(r, w.now, op.fromNow) + op.ms);
        RearmKeeps(w, w', id, r');
      }
    }
  }

  lemma ExpireAtMostOnce<T>(w: World<T>, op: Op<T>)
    requires Inv(w) && Enabled(w, op) && op.Expired?
    ensures AtMostOnce(Do(w, op)) && NeverAfterCancel(Do(w, op))
  {
    var w', n := Do(w, op), |w.fired|;
    forall i | n <= i < |w'.fired|
      ensures w'.fired[i] in w.timers.live && Sound(w, w'.fired[i])
      ensures !w.kinds[w'.fired[i]] ==> w'.fired[i] !in w'.timers.live
    {
      assert w'.fired[i] == op.due[i - n];
    }
    forall i, j | n <= i < j < |w'.fired|
      ensures w'.fired[i] != w'.fired[j]
    {
      assert Before(w.timers.live, op.due[i - n], op.due[j - n]);
    }
  }

  /** Exactly when an expiry leaves a timer armed for before the deadline the latest poll saw. */
  lemma ExpiredExactly<T>(w: World<T>, due: seq<nat>, readAt: nat)
    requires Shape(w) && Expected(w) && Enabled(w, Expired(due, readAt))
    ensures Expected(Do(w, Expired(due, readAt))) <==> !Undercuts(w, readAt)
  {
    var live, live' := w.timers.live, Do(w, Expired(due, readAt)).timers.live;
    if Undercuts(w, readAt) {
      var id :| id in live && live[id].recurring && w.seen.Some? && readAt + live[id].ms < w.seen.value;
      assert id in live' && live'[id].next == readAt + live[id].ms;
    } else {
      forall id | id in live'
        ensures w.seen.Some? && w.seen.value <= live'[id].next
      {
        assert w.seen.value <= live[id].next;
      }
    }
  }

  lemma ExpireKeeps<T>(w: World<T>, op: Op<T>)
    requires Inv(w) && Enabled(w, op) && op.Expired?
    ensures Inv(Do(w, op))
  {
    var w' := Do(w, op);
    assert w'.timers.live.Keys <= w.timers.live.Keys;
    forall id | id in w'.timers.live
      ensures Sound(w', id)
    {
      assert Sound(w, id);
    }
    if Expected(w) {
      ExpiredExactly(w, op.due, op.readAt);
    }
    ExpireAtMostOnce(w, op);
  }

  lemma CancelKeeps<T>(w: World<T>, op: Op<T>)
    requires Inv(w) && Enabled(w, op) && op.CancelTimer?
    ensures Inv(Do(w, op))
  {
    assert forall id :: id in Do(w, op).timers.live ==> Sound(w, id);
  }

  lemma PollKeeps<T>(w: World<T>, op: Op<T>)
    requires Inv(w) && Enabled(w, op) && op.Poll?
    ensures Inv(Do(w, op))
  {
    EarliestIsFirst(w.timers.live);
    assert forall id :: id in w.timers.live ==> Sound(w, id);
  }

  lemma TickKeeps<T>(w: World<T>, op: Op<T>)
    requires Inv(w) && Enabled(w, op) && op.Tick?
    ensures Inv(Do(w, op))
  {
    assert forall id :: id in w.timers.live ==> Sound(w, id);
  }

  lemma StepKeeps<T>(w: World<T>, op: Op<T>)
    requires Inv(w) && Enabled(w, op)
    ensures Inv(Do(w, op))
  {
    hide *;
    match op
    case Add(_, _, _, _, _) => AddKeeps(w, op);
    case CancelTimer(_) => CancelKeeps(w, op);
    case RefreshTimer(_) => RefreshKeeps(w, op);
    case ResetTimer(_, _, _) => ResetKeeps(w, op);
    case Poll => PollKeeps(w, op);
    case Expired(_, _) => ExpireKeeps(w, op);
    case Tick(_) => TickKeeps(w, op);
  }

  /** Due before all others; of two due together the one at the lower address. */
  ghost predicate ComesFirst<T>(live: map<nat, Rec<T>>, id: nat, next: nat) {
    forall j :: j in live && j != id ==> next < live[j].next || (next == live[j].next && id < j)
  }

  lemma NotifiesFirst<T>(t: Timers<T>, id: nat, r: Rec<T>)
    ensures Notifies(t, id, r) <==> !t.tickled && ComesFirst(t.live, id, r.next)
  {
    var live := t.live[id := r];
    if First(live, id) {
      forall j | j in t.live && j != id
        ensures Less(r.next, id, t.live[j].next, j)
      {
        assert j in live && Before(live, id, j);
      }
    }
    if ComesFirst(t.live, id, r.next) {
      forall j | j in live && j != id
        ensures Before(live, id, j)
      {
        assert j in t.live;
      }
    }
  }

  lemma OthersFirst<T>(live: map<nat, Rec<T>>, id: nat, next: nat)
    ensures ComesFirst(live - {id}, id, next) <==> ComesFirst(live, id, next)
  {
    assert forall j :: j in live - {id} <==> j in live && j != id;
  }

  /** Exactly when somebody is told: the first time since the latest poll that a timer which is
      added, or set to a new time, comes before all others. */
  lemma ToldByAdd<T>(w: World<T>, op: Op<T>)
    requires Inv(w) && Enabled(w, op) && op.Add?
    ensures Do(w, op).told
         == if w.told == 0 && ComesFirst(w.timers.live, op.id, op.readAt + op.ms) then 1 else w.told
  {
    NotifiesFirst(w.timers, op.id, Rec(op.ms, op.readAt + op.ms, op.recurring, op.cb));
    hide Notifies;
    hide ComesFirst;
    hide Shape;
  }

  lemma ToldByReset<T>(w: World<T>, op: Op<T>)
    requires Inv(w) && Enabled(w, op) && op.ResetTimer?
    ensures var live, live' := w.timers.live, Do(w, op).timers.live;
            if op.id in live && (op.fromNow || op.ms != live[op.id].ms) then
              op.id in live'
              && Do(w, op).told == if w.told == 0 && ComesFirst(live, op.id, live'[op.id].next) then 1 else w.told
            else Do(w, op).told == w.told
  {
    var live := w.timers.live;
    if op.id in live {
      assert Sound(w, op.id);
      var r := live[op.id];
      var next := ResetStart(r, w.now, op.fromNow) + op.ms;
      NotifiesFirst(w.timers.(live := live - {op.id}), op.id, r.(ms := op.ms, next := next));
      OthersFirst(live, op.id, next);
    }
    hide Notifies;
    hide ComesFirst;
    hide Shape;
    hide AtMostOnce;
    hide NeverAfterCancel;
    hide First;
  }

  // ---------------------------------------------------------------- runs

  /** ws are the states of a run from the manager's construction at time t0. */
  ghost predicate IsRun<T>(ws: seq<World<T>>, ops: seq<Op<T>>, t0: nat) {
    && |ws| == |ops| + 1
    && ws[0] == Init(t0)
    && forall i {:trigger ops[i]} :: 0 <= i < |ops| ==>
         Enabled(ws[i], ops[i]) && ws[i+1] == Do(ws[i], ops[i])
  }

  lemma RunStep<T>(ws: seq<World<T>>, ops: seq<Op<T>>, t0: nat, n: nat)
    requires IsRun(ws, ops, t0) && n < |ops|
    ensures Enabled(ws[n], ops[n]) && ws[n+1] == Do(ws[n], ops[n])
  {
    var op := ops[n];
  }

  lemma {:induction false} EveryRunKeeps<T>(ws: seq<World<T>>, ops: seq<Op<T>>, t0: nat, n: nat)
    requires IsRun(ws, ops, t0) && n < |ws|
    ensures Inv(ws[n])
  {
    if n > 0 {
      EveryRunKeeps(ws, ops, t0, n - 1);
      var op := ops[n-1];
      StepKeeps(ws[n-1], op);
    }
  }

  // ---------------------------------------------------------------- false rollbacks

  /** Exactly when an expiry emits a callback before its time. */
  lemma EarlyExactly<T>(w: World<T>, due: seq<nat>, readAt: nat)
    requires Enabled(w, Expired(due, readAt))
    ensures (exists id :: id in due && id in w.timers.live && w.now < w.timers.live[id].next)
        <==> RolledBack(w.timers.previous, readAt) && exists id :: id in w.timers.live && w.now < w.timers.live[id].next
  {}

  lemma RunOn<T>(ws: seq<World<T>>, ops: seq<Op<T>>, t0: nat, op: Op<T>)
    requires IsRun(ws, ops, t0) && Enabled(ws[|ops|], op)
    ensures IsRun(ws + [Do(ws[|ops|], op)], ops + [op], t0)
  {
    hide Enabled;
    hide Do;
    var ws', ops' := ws + [Do(ws[|ops|], op)], ops + [op];
    forall i | 0 <= i < |ops'|
      ensures Enabled(ws'[i], ops'[i]) && ws'[i+1] == Do(ws'[i], ops'[i])
    {
      if i < |ops| {
        assert ops'[i] == ops[i] && ws'[i] == ws[i] && ws'[i+1] == ws[i+1];
      }
    }
  }

  const LATE: nat := HOUR_MS + 1

  /** An hour and a bit after the start: one recurring timer, first due in an hour and armed for
      next, and what the latest poll saw. */
  function Overtaken(previous: nat, next: nat, tickled: bool, seen: Option<nat>): World<nat> {
    World(Timers(map[0 := Rec(HOUR_MS, next, true, 0)], tickled, previous), LATE,
          map[0 := HOUR_MS], map[0 := true], [], map[], seen, if tickled then 1 else 0, false)
  }

  lemma Arms()
    ensures var w, add := Init<nat>(0).(now := LATE), Add(0, HOUR_MS, true, 0, LATE);
            Enabled(w, add) && Do(w, add) == Overtaken(0, LATE + HOUR_MS, true, None)
  {
    assert First(map[0 := Rec(HOUR_MS, LATE + HOUR_MS, true, 0)], 0);
  }

  lemma Polls()
    ensures var w := Overtaken(0, LATE + HOUR_MS, true, None);
            Do(w, Poll) == Overtaken(0, LATE + HOUR_MS, false, Some(LATE + HOUR_MS))
  {
    var live := Overtaken(0, LATE + HOUR_MS, true, None).timers.live;
    EarliestIsFirst(live);
    assert First(live, 0);
  }

  lemma Overtakes()
    ensures var w, expired := Overtaken(0, LATE + HOUR_MS, false, Some(LATE + HOUR_MS)), Expired([], LATE);
            Enabled(w, expired) && Do(w, expired) == Overtaken(LATE, LATE + HOUR_MS, false, Some(LATE + HOUR_MS))
  {
    var w := Overtaken(0, LATE + HOUR_MS, false, Some(LATE + HOUR_MS));
    var live := w.timers.live;
    assert 0 in live;
    assert !RolledBack(0, LATE) && !Due(live[0], false, LATE);
    assert AfterExpiry(live, false, LATE) == live;
    assert Expire(w.timers, LATE) == Overtaken(LATE, LATE + HOUR_MS, false, Some(LATE + HOUR_MS)).timers;
  }

  /** An expiry that has waited for the lock for more than an hour, while another one overtook it:
      the clock never went back, and yet all timers fire at once. */
  lemma FalseRollback() returns (ws: seq<World<nat>>, ops: seq<Op<nat>>)
    ensures IsRun(ws, ops, 0) && ws[|ops|] == Overtaken(LATE, LATE + HOUR_MS, false, Some(LATE + HOUR_MS))
    ensures var w := ws[|ops|];
            Enabled(w, Expired([0], 0)) && RolledBack(w.timers.previous, 0) && w.now < w.timers.live[0].next
  {
    var w := Overtaken(LATE, LATE + HOUR_MS, false, Some(LATE + HOUR_MS));
    RollbackMeaning(LATE, 0);
    assert IsDueOrder(w.timers, 0, [0]);
    ws, ops := [Init<nat>(0)], [];
    RunOn(ws, ops, 0, Tick(LATE));
    Arms();
    Polls();
    Overtakes();
    hide *;
    ws, ops := ws + [Init<nat>(0).(now := LATE)], ops + [Tick(LATE)];
    RunOn(ws, ops, 0, Add(0, HOUR_MS, true, 0, LATE));
    ws, ops := ws + [Overtaken(0, LATE + HOUR_MS, true, None)], ops + [Add(0, HOUR_MS, true, 0, LATE)];
    RunOn(ws, ops, 0, Poll);
    ws, ops := ws + [Overtaken(0, LATE + HOUR_MS, false, Some(LATE + HOUR_MS))], ops + [Poll];
    RunOn(ws, ops, 0, Expired([], LATE));
    ws, ops := ws + [w], ops + [Expired([], LATE)];
  }

  /** And the recurring one is armed again for a time that is over already: nobody is tickled, and
      the latest poll expects nothing for another hour. */
  lemma LostWakeup() returns (ws: seq<World<nat>>, ops: seq<Op<nat>>)
    ensures IsRun(ws, ops, 0)
    ensures var w := ws[|ops|];
            0 in w.timers.live && w.told == 0 && w.timers.live[0].next < w.now && w.seen == Some(w.now + HOUR_MS)
  {
    ws, ops := FalseRollback();
    var w := ws[|ops|];
    RunOn(ws, ops, 0, Expired([0], 0));
    ws, ops := ws + [Do(w, Expired([0], 0))], ops + [Expired([0], 0)];
    assert 0 in w.timers.live;
  }
}
