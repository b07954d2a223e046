/**
 The timer set seen as a value: what each locked section of the timer manager does to
 the timers that are still armed, whatever std::set does to represent them.

 A timer is named by the address of its object, which is also what breaks ties between
 equal deadlines.
 */
module TimerSpec {
  datatype Rec<+T> = Rec(ms: nat, next: nat, recurring: bool, cb: T)

  /** live holds the armed timers; tickled and previous are the manager's two flags. */
  datatype Timers<T> = Timers(live: map<nat, Rec<T>>, tickled: bool, previous: nat)

  const HOUR_MS: nat := 60 * 60 * 1000
  const TWO_TO_64: nat := 0x1_0000_0000_0000_0000

  // ---------------------------------------------------------------- the order

  /** Comparator: by deadline, then by address. */
  predicate Less(next0: nat, addr0: nat, next1: nat, addr1: nat) {
    next0 < next1 || (next0 == next1 && addr0 < addr1)
  }

  predicate Before<T>(live: map<nat, Rec<T>>, a: nat, b: nat)
    requires a in live && b in live
  {
    Less(live[a].next, a, live[b].next, b)
  }

  /** id is the begin() of the ordered set. */
  predicate First<T>(live: map<nat, Rec<T>>, id: nat) {
    id in live && forall j :: j in live && j != id ==> Before(live, id, j)
  }

  /** ids lists exactly the armed timers, in the order of the set. */
  ghost predicate IsOrder<T>(live: map<nat, Rec<T>>, ids: seq<nat>) {
    && (forall id :: id in live <==> id in ids)
    && (forall i, j {:trigger Before(live, ids[i], ids[j])} :: 0 <= i < j < |ids| ==> Before(live, ids[i], ids[j]))
  }

  lemma NoneListed<T>(live: map<nat, Rec<T>>, ids: seq<nat>)
    requires IsOrder(live, ids)
    ensures live == map[] <==> ids == []
  {
    if ids != [] {
      assert ids[0] in live;
    }
  }

  /** lower_bound of an armed timer's own key is the timer itself. */
  lemma {:induction false} FoundAt<T>(live: map<nat, Rec<T>>, ids: seq<nat>, id: nat, it: nat)
    requires IsOrder(live, ids) && id in live && it <= |ids|
    requires forall i :: 0 <= i < it ==> Before(live, ids[i], id)
    requires it < |ids| ==> !Before(live, ids[it], id)
    ensures it < |ids| && ids[it] == id
  {
    assert id in ids;
    var k :| 0 <= k < |ids| && ids[k] == id;
    assert Before(live, ids[if it < k then it else k], ids[if it < k then k else it]) || it == k;
  }

  lemma RemovedAt<T>(live: map<nat, Rec<T>>, ids: seq<nat>, it: nat)
    requires IsOrder(live, ids) && it < |ids|
    ensures IsOrder(live - {ids[it]}, ids[..it] + ids[it+1..])
  {
    var after := ids[..it] + ids[it+1..];
    forall i | 0 <= i < |ids| && i != it
      ensures ids[i] != ids[it] && ids[i] in after
    {
      assert Before(live, ids[if i < it then i else it], ids[if i < it then it else i]);
      assert ids[i] == after[if i < it then i else i - 1];
    }
    forall id | id in after
      ensures id in live && id != ids[it]
    {
      var k :| 0 <= k < |after| && after[k] == id;
      assert id == ids[if k < it then k else k + 1];
    }
    forall i, j | 0 <= i < j < |after|
      ensures after[i] in after && after[j] in after && Before(live, after[i], after[j])
    {
      assert Before(live, ids[if i < it then i else i + 1], ids[if j < it then j else j + 1]);
    }
  }

  lemma FirstOf<T>(live: map<nat, Rec<T>>, ids: seq<nat>)
    requires IsOrder(live, ids) && ids != []
    ensures First(live, ids[0])
  {
    assert ids[0] in live;
    forall j | j in live && j != ids[0]
      ensures Before(live, ids[0], j)
    {
      assert j in ids;
      var k :| 0 <= k < |ids| && ids[k] == j;
      assert Before(live, ids[0], ids[k]);
    }
  }

  lemma InsertedAt<T>(live: map<nat, Rec<T>>, ids: seq<nat>, id: nat, r: Rec<T>, it: nat)
    requires IsOrder(live, ids) && id !in live && it <= |ids|
    requires forall i :: 0 <= i < it ==> Less(live[ids[i]].next, ids[i], r.next, id)
    requires it < |ids| ==> !Less(live[ids[it]].next, ids[it], r.next, id)
    ensures IsOrder(live[id := r], ids[..it] + [id] + ids[it..])
    ensures (it == 0) == First(live[id := r], id)
  {
    var live', after := live[id := r], ids[..it] + [id] + ids[it..];
    assert forall j :: j in ids ==> j in ids[..it] || j in ids[it..];
    forall i, j | 0 <= i < j < |after|
      ensures Before(live', after[i], after[j])
    {
      var i', j' := if i < it then i else i - 1, if j < it then j else j - 1;
      assert i != it ==> after[i] == ids[i'];
      assert j != it ==> after[j] == ids[j'];
      if i != it && j != it {
        assert Before(live, ids[i'], ids[j']);
      } else if i == it && it < j' {
        assert Before(live, ids[it], ids[j']);
      }
    }
    if it > 0 {
      assert Before(live', ids[0], id);
    } else {
      assert after[0] == id;
      FirstOf(live', after);
    }
  }

  // ---------------------------------------------------------------- clock rollback

  /** Unsigned 64-bit subtraction. */
  function Sub64(a: nat, b: nat): nat {
    (a - b) % TWO_TO_64
  }

  predicate RolledBack(previous: nat, now: nat) {
    now < previous && now < Sub64(previous, HOUR_MS)
  }

  /** The subtraction wraps for a previous time within the first hour of the epoch; there
      any step back at all counts as a rollback. */
  lemma {:induction false} RollbackMeaning(previous: nat, now: nat)
    requires previous < TWO_TO_64
    ensures RolledBack(previous, now) <==>
            now < previous && (previous < HOUR_MS || now + HOUR_MS < previous)
  {
    if previous < HOUR_MS {
      assert Sub64(previous, HOUR_MS) == previous - HOUR_MS + TWO_TO_64;
    }
  }

  // ---------------------------------------------------------------- the locked sections

  function Insert<T>(t: Timers<T>, id: nat, r: Rec<T>): Timers<T> {
    var live := t.live[id := r];
    t.(live := live, tickled := t.tickled || First(live, id))
  }

  /** onTimerInsertedAtFront is called. */
  predicate Notifies<T>(t: Timers<T>, id: nat, r: Rec<T>) {
    First(t.live[id := r], id) && !t.tickled
  }

  function Cancel<T>(t: Timers<T>, id: nat): Timers<T> {
    t.(live := t.live - {id})
  }

  function Refresh<T>(t: Timers<T>, id: nat, now: nat): Timers<T> {
    if id in t.live then
      t.(live := t.live[id := t.live[id].(next := now + t.live[id].ms)])
    else t
  }

  /** Taken out, changed and put back. */
  lemma RefreshIs<T>(t: Timers<T>, id: nat, now: nat)
    requires id in t.live
    ensures var r := t.live[id].(next := now + t.live[id].ms);
            Refresh(t, id, now) == t.(live := (t.live - {id})[id := r])
  {
    var r := t.live[id].(next := now + t.live[id].ms);
    assert (t.live - {id})[id := r] == t.live[id := r];
  }

  lemma NoRefresh<T>(t: Timers<T>, id: nat, now: nat)
    requires id !in t.live
    ensures Refresh(t, id, now) == t
  {}

  /** Where the new period is counted from. */
  function ResetStart<T>(r: Rec<T>, now: nat, fromNow: bool): int {
    if fromNow then now else r.next - r.ms
  }

  lemma StartIs<T>(r: Rec<T>, now: nat, fromNow: bool)
    requires r.ms <= r.next
    ensures 0 <= ResetStart(r, now, fromNow) == if fromNow then now else r.next - r.ms
  {}

  /** ownMs is the period of the timer, which is still readable once it is disarmed. */
  function Reset<T>(t: Timers<T>, id: nat, ownMs: nat, now: nat, ms: nat, fromNow: bool): Timers<T>
    requires id in t.live ==> ResetStart(t.live[id], now, fromNow) >= 0
  {
    if (ms == ownMs && !fromNow) || id !in t.live then t
    else
      var r := t.live[id];
      Insert(t.(live := t.live - {id}), id, r.(ms := ms, next := ResetStart(r, now, fromNow) + ms))
  }

  /** onTimerInsertedAtFront is called by a reset. */
  predicate ResetNotifies<T>(t: Timers<T>, id: nat, ownMs: nat, now: nat, ms: nat, fromNow: bool)
    requires id in t.live ==> ResetStart(t.live[id], now, fromNow) >= 0
  {
    !(ms == ownMs && !fromNow) && id in t.live &&
    var r := t.live[id];
    Notifies(t.(live := t.live - {id}), id, r.(ms := ms, next := ResetStart(r, now, fromNow) + ms))
  }

  lemma ResetRearms<T>(t: Timers<T>, id: nat, ownMs: nat, now: nat, ms: nat, fromNow: bool)
    requires id in t.live && ResetStart(t.live[id], now, fromNow) >= 0 && (ms != ownMs || fromNow)
    ensures var r := t.live[id].(ms := ms, next := ResetStart(t.live[id], now, fromNow) + ms);
            var out := t.(live := t.live - {id});
            && Reset(t, id, ownMs, now, ms, fromNow) == Insert(out, id, r)
            && (ResetNotifies(t, id, ownMs, now, ms, fromNow) <==> Notifies(out, id, r))
  {}

  lemma NoReset<T>(t: Timers<T>, id: nat, ownMs: nat, now: nat, ms: nat, fromNow: bool)
    requires id in t.live ==> ResetStart(t.live[id], now, fromNow) >= 0
    requires id !in t.live || (ms == ownMs && !fromNow)
    ensures Reset(t, id, ownMs, now, ms, fromNow) == t && !ResetNotifies(t, id, ownMs, now, ms, fromNow)
  {}

  function GetNext<T>(t: Timers<T>): Timers<T> {
    t.(tickled := false)
  }

  /** A timer the next listExpiredCb takes out. */
  predicate Due<T>(r: Rec<T>, all: bool, now: nat) {
    all || r.next <= now
  }

  function AfterExpiry<T>(live: map<nat, Rec<T>>, all: bool, now: nat): map<nat, Rec<T>> {
    map id | id in live && (Due(live[id], all, now) ==> live[id].recurring) ::
      if Due(live[id], all, now) then live[id].(next := now + live[id].ms) else live[id]
  }

  function Expire<T>(t: Timers<T>, now: nat): Timers<T> {
    if t.live == map[] then t
    else t.(live := AfterExpiry(t.live, RolledBack(t.previous, now), now), previous := now)
  }

  /** due lists exactly the due timers of live, each once, in deadline order. */
  ghost predicate ListsDue<T>(live: map<nat, Rec<T>>, due: seq<nat>, all: bool, now: nat) {
    && (forall id :: id in due <==> id in live && Due(live[id], all, now))
    && (forall i, j {:trigger Before(live, due[i], due[j])} :: 0 <= i < j < |due| ==> Before(live, due[i], due[j]))
  }

  /** ids are what the next listExpiredCb takes out. */
  ghost predicate IsDueOrder<T>(t: Timers<T>, now: nat, ids: seq<nat>) {
    ListsDue(t.live, ids, RolledBack(t.previous, now), now)
  }

  // ---------------------------------------------------------------- expiry, step by step

  function Members(ids: seq<nat>): set<nat> {
    set id | id in ids
  }

  lemma DueIsPrefix<T>(live: map<nat, Rec<T>>, ids: seq<nat>, now: nat, it: nat)
    requires IsOrder(live, ids) && it <= |ids|
    requires forall i :: 0 <= i < it ==> ids[i] in ids && live[ids[i]].next <= now
    requires it < |ids| ==> ids[it] in ids && now < live[ids[it]].next
    ensures forall i :: 0 <= i < |ids| ==> ids[i] in live && (i < it <==> live[ids[i]].next <= now)
  {
    forall i | it < i < |ids|
      ensures ids[i] in ids && now < live[ids[i]].next
    {
      assert Before(live, ids[it], ids[i]);
    }
    assert forall i :: 0 <= i < |ids| ==> ids[i] in ids;
  }

  lemma NothingDue<T>(live: map<nat, Rec<T>>, ids: seq<nat>, now: nat)
    requires IsOrder(live, ids) && ids != [] && ids[0] in live && now < live[ids[0]].next
    ensures forall id :: id in live ==> !Due(live[id], false, now)
    ensures AfterExpiry(live, false, now) == live
  {
    FirstOf(live, ids);
    forall id | id in live
      ensures now < live[id].next
    {
      assert id != ids[0] ==> Before(live, ids[0], id);
    }
  }

  lemma CutAt<T>(live: map<nat, Rec<T>>, ids: seq<nat>, all: bool, now: nat, it: nat)
    requires IsOrder(live, ids) && it <= |ids|
    requires forall i :: 0 <= i < |ids| ==> ids[i] in ids && (i < it <==> Due(live[ids[i]], all, now))
    ensures ListsDue(live, ids[..it], all, now)
    ensures IsOrder(live - Members(ids[..it]), ids[it..])
  {
    var rest := live - Members(ids[..it]);
    assert forall id :: id in ids <==> id in ids[..it] || id in ids[it..] by {
      assert ids == ids[..it] + ids[it..];
    }
    forall id | id in ids[it..]
      ensures id !in ids[..it]
    {
      var k :| 0 <= k < |ids[it..]| && ids[it..][k] == id;
      assert id == ids[it + k];
    }
    forall id | id in ids[..it]
      ensures Due(live[id], all, now)
    {
      var k :| 0 <= k < it && ids[..it][k] == id;
      assert id == ids[k];
    }
    forall id | id in live && Due(live[id], all, now)
      ensures id in ids[..it]
    {
      assert id in ids;
      var k :| 0 <= k < |ids| && ids[k] == id;
      assert id == ids[..it][k];
    }
    forall i, j | 0 <= i < j < |ids[it..]|
      ensures ids[it..][i] in ids[it..] && ids[it..][j] in ids[it..] && Before(rest, ids[it..][i], ids[it..][j])
    {
      assert Before(live, ids[it + i], ids[it + j]);
    }
    forall i, j | 0 <= i < j < it
      ensures Before(live, ids[..it][i], ids[..it][j])
    {
      assert Before(live, ids[i], ids[j]);
    }
  }

  /** What becomes of one expired timer. */
  function Refire<T>(live: map<nat, Rec<T>>, id: nat, r: Rec<T>, now: nat): map<nat, Rec<T>> {
    if r.recurring then live[id := r.(next := now + r.ms)] else live
  }

  function RefireAll<T>(rest: map<nat, Rec<T>>, was: map<nat, Rec<T>>, due: seq<nat>, now: nat): map<nat, Rec<T>>
    requires forall id :: id in due ==> id in was
  {
    if due == [] then rest
    else
      var last := due[|due| - 1];
      Refire(RefireAll(rest, was, due[..|due| - 1], now), last, was[last], now)
  }

  lemma RefireStart<T>(rest: map<nat, Rec<T>>, was: map<nat, Rec<T>>, due: seq<nat>, all: bool, now: nat)
    requires ListsDue(was, due, all, now)
    ensures (forall id :: id in due ==> id in was) && (forall i :: 0 <= i < |due| ==> due[i] in was)
    ensures RefireAll(rest, was, due[..0], now) == rest
  {
    assert due[..0] == [];
    assert forall i :: 0 <= i < |due| ==> due[i] in due;
  }

  lemma RefireStep<T>(rest: map<nat, Rec<T>>, was: map<nat, Rec<T>>, due: seq<nat>, i: nat, now: nat)
    requires i < |due| && forall id :: id in due ==> id in was
    ensures due[i] in was
    ensures RefireAll(rest, was, due[..i+1], now)
              == Refire(RefireAll(rest, was, due[..i], now), due[i], was[due[i]], now)
  {
    assert due[i] in due && due[..i+1][..i] == due[..i];
  }

  lemma {:induction false} RefireAllIs<T>(rest: map<nat, Rec<T>>, was: map<nat, Rec<T>>, due: seq<nat>, now: nat)
    requires forall id :: id in due ==> id in was && id !in rest
    ensures RefireAll(rest, was, due, now)
         == rest + map id | id in due && was[id].recurring :: was[id].(next := now + was[id].ms)
  {
    if due != [] {
      var butLast, last := due[..|due| - 1], due[|due| - 1];
      assert due == butLast + [last];
      RefireAllIs(rest, was, butLast, now);
    }
  }

  lemma NextDue<T>(live: map<nat, Rec<T>>, due: seq<nat>, i: nat, all: bool, now: nat)
    requires ListsDue(live, due, all, now) && i < |due|
    ensures Members(due[i..]) == Members(due[i+1..]) + {due[i]} && due[i] !in Members(due[i+1..])
    ensures forall k :: 0 <= k < |due| && k != i ==> due[k] != due[i]
    ensures due[..i+1] == due[..i] + [due[i]] && due[..i+1][..i] == due[..i]
  {
    forall k | 0 <= k < |due| && k != i
      ensures due[k] != due[i]
    {
      assert Before(live, due[if k < i then k else i], due[if k < i then i else k]);
    }
    assert due[i..] == [due[i]] + due[i+1..];
    var rest := due[i+1..];
    assert forall k :: 0 <= k < |rest| ==> rest[k] == due[i+1+k];
  }

  lemma RefireAllExpires<T>(live: map<nat, Rec<T>>, due: seq<nat>, all: bool, now: nat)
    requires ListsDue(live, due, all, now)
    ensures RefireAll(live - Members(due), live, due, now) == AfterExpiry(live, all, now)
  {
    RefireAllIs(live - Members(due), live, due, now);
  }
}
