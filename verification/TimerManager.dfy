/**
 Timer and TimerManager. The std::set of timers is a sequence kept in the order of the
 comparator; every locked section is proved to do to the armed timers exactly what
 TimerSpec says, so that the representation (lower_bound, find, erase, insert on mutable
 keys) is invisible from outside.
 */
module TimerManager {
  import opened Wrappers
  import opened TimerSpec

  class Timer<T> {
    const recurring: bool
    var ms: nat
    var next: nat
    var cb: Option<T>
    const manager: TimerManager<T>
    /** The address of the object. */
    const addr: nat

    constructor (ms: nat, cb: T, recurring: bool, manager: TimerManager<T>, addr: nat, now: nat)
      ensures this.ms == ms && this.next == now + ms && this.cb == Some(cb)
      ensures this.recurring == recurring && this.manager == manager && this.addr == addr
    {
      this.recurring := recurring;
      this.ms := ms;
      this.next := now + ms;
      this.cb := Some(cb);
      this.manager := manager;
      this.addr := addr;
    }

    ghost predicate Shows(r: Rec<T>)
      reads this
    {
      cb == Some(r.cb) && ms == r.ms && next == r.next && recurring == r.recurring
    }

    lemma ShowsMeans(r: Rec<T>)
      ensures Shows(r) <==> cb == Some(r.cb) && ms == r.ms && next == r.next && recurring == r.recurring
    {}

    /** The timer is disarmed for good. */
    method Cancel() returns (r: bool)
      requires manager.Valid() && addr in manager.known && manager.known[addr] == this
      modifies this, manager
      ensures manager.Valid() && manager.known == old(manager.known)
      ensures manager.view == TimerSpec.Cancel(old(manager.view), addr)
      ensures r == (addr in old(manager.view).live)
      ensures cb == None && manager.notified == old(manager.notified)
    {
      hide TimerManager.Listed;
      if cb.Some? {
        manager.Unlink(this);
        cb := None;
        return true;
      }
      return false;
    }

    method Refresh(now: nat) returns (r: bool)
      requires manager.Valid() && addr in manager.known && manager.known[addr] == this
      modifies this, manager
      ensures manager.Valid() && manager.known == old(manager.known)
      ensures manager.view == TimerSpec.Refresh(old(manager.view), addr, now)
      ensures r == (addr in old(manager.view).live)
      ensures manager.notified == old(manager.notified)
    {
      hide *;
      manager.Knows(this);
      if cb.None? {
        NoRefresh(manager.view, addr, now);
        return false;
      }
      RefreshIs(manager.view, addr, now);
      ghost var was := manager.view.live[addr];
      manager.Rekey(this, ms, now + ms);
      assert {} + {addr} == {addr};
      ShowsMeans(was.(next := next));
      var _ := manager.Link(this, was.(next := next));
      return true;
    }

    /** A reset to the period the timer already has reports success even when disarmed. */
    method Reset(ms: nat, fromNow: bool, now: nat) returns (r: bool)
      requires manager.Valid() && addr in manager.known && manager.known[addr] == this
      modifies this, manager
      ensures manager.Valid() && manager.known == old(manager.known)
      ensures old(addr in manager.view.live ==> ResetStart(manager.view.live[addr], now, fromNow) >= 0)
      ensures manager.view == TimerSpec.Reset(old(manager.view), addr, old(this.ms), now, ms, fromNow)
      ensures r == ((ms == old(this.ms) && !fromNow) || addr in old(manager.view).live)
      ensures manager.notified ==
                old(manager.notified)
                + if ResetNotifies(old(manager.view), addr, old(this.ms), now, ms, fromNow) then 1 else 0
    {
      hide *;
      manager.Knows(this);
      ghost var was := manager.view;
      if addr in was.live {
        StartIs(was.live[addr], now, fromNow);
      }
      if (ms == this.ms && !fromNow) || cb.None? {
        NoReset(was, addr, this.ms, now, ms, fromNow);
      } else {
        ResetRearms(was, addr, this.ms, now, ms, fromNow);
      }
      if ms == this.ms && !fromNow {
        return true;
      }
      if cb.None? {
        return false;
      }
      var start := if fromNow then now else next - this.ms;
      manager.Rekey(this, ms, start + ms);
      ShowsMeans(was.live[addr].(ms := ms, next := next));
      manager.InsertAndNotify(this, was.live[addr].(ms := ms, next := next));
      return true;
    }
  }

  class TimerManager<T> {
    /** std::set<Timer::ptr, Comparator>, from begin() to end(). */
    var timers: seq<Timer<T>>
    var tickled: bool
    var previous: nat
    /** How often onTimerInsertedAtFront has been called. */
    var notified: nat
    /** Every timer this manager ever made, and the latest at each address. */
    ghost var repr: set<Timer<T>>
    ghost var known: map<nat, Timer<T>>
    /** The armed timers with the flags, and their addresses in the order of the set. */
    ghost var view: Timers<T>
    ghost var ids: seq<nat>

    ghost predicate Lists(timers: seq<Timer<T>>, ids: seq<nat>, known: map<nat, Timer<T>>) {
      && |timers| == |ids|
      && (forall i {:trigger timers[i]} :: 0 <= i < |ids| ==> ids[i] in known && timers[i] == known[ids[i]])
    }

    /** The set holds the armed timers in their order. */
    ghost predicate Listed()
      reads this
    {
      && view.tickled == tickled && view.previous == previous
      && IsOrder(view.live, ids)
      && Lists(timers, ids, known)
    }

    ghost predicate Agreeing(known: map<nat, Timer<T>>, repr: set<Timer<T>>, live: map<nat, Rec<T>>, out: set<nat>)
      reads repr
    {
      && (forall a {:trigger known[a]} :: a in known ==>
            && known[a] in repr && known[a].addr == a && known[a].manager == this && known[a].ms <= known[a].next
            && (a !in out ==> (known[a].cb.Some? <==> a in live))
            && (a in live ==> known[a].Shows(live[a])))
      && (forall a :: a in live ==> a in known && a !in out)
    }

    ghost predicate Agrees(out: set<nat>)
      reads this, repr
    {
      Agreeing(known, repr, view.live, out)
    }

    /** A callback is non-null exactly when the timer is in the set, which is ordered. In the
        middle of a locked section, the timers out have been taken out of the set. */
    ghost predicate Valid(out: set<nat> := {})
      reads this, repr
    {
      Listed() && Agrees(out)
    }

    constructor (now: nat)
      ensures Valid() && known == map[] && notified == 0
      ensures view == Timers(map[], false, now)
    {
      timers, tickled, previous, notified := [], false, now, 0;
      repr, known, view, ids := {}, map[], Timers(map[], false, now), [];
    }

    lemma ListsLinked(timers: seq<Timer<T>>, ids: seq<nat>, known: map<nat, Timer<T>>, it: nat, addr: nat)
      requires Lists(timers, ids, known) && it <= |ids| && addr in known
      ensures |timers| == |ids|
      ensures Lists(timers[..it] + [known[addr]] + timers[it..], ids[..it] + [addr] + ids[it..], known)
    {
      var ts, addrs := timers[..it] + [known[addr]] + timers[it..], ids[..it] + [addr] + ids[it..];
      forall i | 0 <= i < |addrs|
        ensures addrs[i] in known && ts[i] == known[addrs[i]]
      {
        if i != it {
          assert timers[if i < it then i else i - 1] == ts[i];
        }
      }
    }

    lemma {:induction false} AgreesLinked(t: Timer<T>, r: Rec<T>, out: set<nat>)
      requires t.addr !in out && Agrees(out + {t.addr}) && t.addr in known && known[t.addr] == t && t.Shows(r)
      ensures t.addr !in view.live && Agreeing(known, repr, view.live[t.addr := r], out)
    {}

    /** What the fields of a timer say. */
    lemma Knows(t: Timer<T>)
      requires Valid() && t.addr in known && known[t.addr] == t
      ensures t.manager == this && t.ms <= t.next
      ensures t.cb.Some? <==> t.addr in view.live
      ensures t.addr in view.live ==>
                var r := view.live[t.addr];
                t.cb == Some(r.cb) && t.ms == r.ms && t.next == r.next && t.recurring == r.recurring
    {
      hide Listed;
    }

    /** std::set::lower_bound. */
    method LowerBound(next: nat, addr: nat, ghost out: set<nat>) returns (it: nat)
      requires Valid(out)
      ensures it <= |ids|
      ensures forall i :: 0 <= i < it ==> Less(view.live[ids[i]].next, ids[i], next, addr)
      ensures it < |ids| ==> !Less(view.live[ids[it]].next, ids[it], next, addr)
    {
      it := 0;
      while it < |timers| && Less(timers[it].next, timers[it].addr, next, addr)
        invariant it <= |timers|
        invariant forall i :: 0 <= i < it ==> Less(view.live[ids[i]].next, ids[i], next, addr)
      {
        assert timers[it] == known[ids[it]];
        it := it + 1;
      }
      assert it < |timers| ==> timers[it] == known[ids[it]];
    }

    /** std::set::find, then erase: an armed timer is always found, so erase never sees end(). */
    method Unlink(t: Timer<T>)
      requires Valid() && t.addr in known && known[t.addr] == t && t.cb.Some?
      modifies this`timers, this`view, this`ids
      ensures Valid({t.addr})
      ensures view == old(view).(live := old(view).live - {t.addr})
    {
      var it := LowerBound(t.next, t.addr, {});
      FoundAt(view.live, ids, t.addr, it);
      assert timers[it] == t;
      RemovedAt(view.live, ids, it);
      timers := timers[..it] + timers[it+1..];
      ids := ids[..it] + ids[it+1..];
      view := view.(live := view.live - {t.addr});
    }

    /** Takes a timer out of the set before its key changes. */
    method Rekey(t: Timer<T>, ms: nat, next: nat)
      requires Valid() && t.addr in known && known[t.addr] == t && t.cb.Some? && ms <= next
      modifies this`timers, this`view, this`ids, t`ms, t`next
      ensures Valid({t.addr}) && t.next == next && t.ms == ms
      ensures view == old(view).(live := old(view).live - {t.addr})
    {
      Unlink(t);
      t.ms := ms;
      t.next := next;
    }

    /** std::set::insert of a timer that is not in the set; r is the timer's present state. */
    method Link(t: Timer<T>, ghost r: Rec<T>, ghost out: set<nat> := {}) returns (atBegin: bool)
      requires t.addr !in out && Valid(out + {t.addr}) && t.addr in known && known[t.addr] == t && t.Shows(r)
      modifies this`timers, this`view, this`ids
      ensures Valid(out)
      ensures view == old(view).(live := old(view).live[t.addr := r])
      ensures atBegin == First(view.live, t.addr)
    {
      hide IsOrder;
      hide First;
      hide Less;
      hide Agreeing;
      hide Lists;
      var it := LowerBound(t.next, t.addr, out + {t.addr});
      AgreesLinked(t, r, out);
      ListsLinked(timers, ids, known, it, t.addr);
      InsertedAt(view.live, ids, t.addr, r, it);
      timers := timers[..it] + [t] + timers[it..];
      ids := ids[..it] + [t.addr] + ids[it..];
      view := view.(live := view.live[t.addr := r]);
      atBegin := it == 0;
    }

    /** addTimer(val, lock): at most one tickle until the next getNextTimer. */
    method InsertAndNotify(t: Timer<T>, ghost r: Rec<T>)
      requires Valid({t.addr}) && t.addr in known && known[t.addr] == t && t.Shows(r)
      modifies this
      ensures Valid() && known == old(known)
      ensures view == Insert(old(view), t.addr, r)
      ensures notified == old(notified) + (if Notifies(old(view), t.addr, r) then 1 else 0)
    {
      var atBegin := Link(t, r);
      var atFront := atBegin && !tickled;
      if atFront {
        tickled := true;
        view := view.(tickled := true);
      }
      if atFront {
        notified := notified + 1;
      }
    }

    /** addr is whatever address the allocator returns for the new timer: that of none which is
        armed, but perhaps that of one that is gone. */
    method AddTimer(ms: nat, cb: T, recurring: bool, now: nat, addr: nat) returns (t: Timer<T>)
      requires Valid() && addr !in view.live
      modifies this
      ensures Valid() && fresh(t) && t.addr == addr && t.manager == this
      ensures known == old(known)[addr := t]
      ensures var r := Rec(ms, now + ms, recurring, cb);
              && view == Insert(old(view), addr, r)
              && notified == old(notified) + (if Notifies(old(view), addr, r) then 1 else 0)
    {
      t := new Timer(ms, cb, recurring, this, addr, now);
      known := known[addr := t];
      repr := repr + {t};
      InsertAndNotify(t, Rec(ms, now + ms, recurring, cb));
    }

    method HasTimer() returns (r: bool)
      requires Valid()
      ensures r == (view.live != map[])
    {
      r := timers != [];
      NoneListed(view.live, ids);
    }

    /** None stands for ~0ull, no timer at all. */
    method GetNextTimer(now: nat) returns (wait: Option<nat>)
      requires Valid()
      modifies this`tickled, this`view
      ensures Valid() && view == GetNext(old(view))
      ensures wait.None? <==> view.live == map[]
      ensures wait.Some? ==>
                exists id :: First(view.live, id)
                          && wait.value == if now >= view.live[id].next then 0 else view.live[id].next - now
    {
      tickled := false;
      view := view.(tickled := false);
      var has := HasTimer();
      if !has {
        return None;
      }
      var next := timers[0];
      FirstOf(view.live, ids);
      if now >= next.next {
        wait := Some(0);
      } else {
        wait := Some(next.next - now);
      }
    }

    method DetectClockRollover(now: nat) returns (r: bool)
      requires Valid()
      modifies this`previous, this`view
      ensures Valid() && view == old(view).(previous := now)
      ensures r == RolledBack(old(previous), now)
    {
      r := now < previous && now < Sub64(previous, HOUR_MS);
      previous := now;
      view := view.(previous := now);
    }

    /** How many timers are due: lower_bound by (now, address of the key object), then past the
        rest of the timers due at this very millisecond. keyAddr is any address at all. */
    method CountDue(all: bool, now: nat, keyAddr: nat) returns (it: nat)
      requires Valid()
      ensures it <= |ids|
      ensures forall i :: 0 <= i < |ids| ==> (i < it <==> Due(view.live[ids[i]], all, now))
    {
      if all {
        it := |timers|;
      } else {
        it := LowerBound(now, keyAddr, {});
        ghost var lower := it;
        while it < |timers| && timers[it].next == now
          invariant lower <= it <= |ids|
          invariant forall i :: lower <= i < it ==> view.live[ids[i]].next == now
        {
          assert timers[it] == known[ids[it]];
          it := it + 1;
        }
        assert it < |ids| ==> timers[it] == known[ids[it]];
        assert lower < it < |ids| ==> Before(view.live, ids[lower], ids[it]);
        DueIsPrefix(view.live, ids, now, it);
      }
    }

    method CutExpired(all: bool, now: nat, keyAddr: nat) returns (expired: seq<Timer<T>>, ghost due: seq<nat>)
      requires Valid()
      modifies this`timers, this`view, this`ids
      ensures Valid(Members(due))
      ensures view == old(view).(live := old(view).live - Members(due))
      ensures ListsDue(old(view).live, due, all, now)
      ensures |expired| == |due|
      ensures forall i :: 0 <= i < |due| ==> due[i] in known && expired[i] == known[due[i]]
      ensures forall i :: 0 <= i < |due| ==> expired[i].Shows(old(view).live[due[i]])
    {
      var it := CountDue(all, now, keyAddr);
      CutAt(view.live, ids, all, now, it);
      expired := timers[..it];
      due := ids[..it];
      forall i | 0 <= i < |due|
        ensures due[i] in known && expired[i] == known[due[i]] && due[i] in view.live
      {
        assert timers[i] == known[ids[i]] && ids[i] in ids;
      }
      timers := timers[it..];
      view := view.(live := view.live - Members(due));
      ids := ids[it..];
    }

    /** One pass of the loop over the expired timers; r is how the timer was armed. */
    method Fire(t: Timer<T>, ghost r: Rec<T>, now: nat, ghost out: set<nat>) returns (cb: T)
      requires t.addr in known && known[t.addr] == t && t.addr !in out && t.Shows(r)
      requires Valid(out + {t.addr})
      modifies this`timers, this`view, this`ids, t`next, t`cb
      ensures Valid(out)
      ensures cb == r.cb
      ensures view == old(view).(live := Refire(old(view).live, t.addr, r, now))
    {
      cb := t.cb.value;
      if t.recurring {
        t.next := now + t.ms;
        var _ := Link(t, r.(next := now + t.ms), out);
      } else {
        t.cb := None;
      }
    }

    /** The expired timers from i on are still as they were, out of the set. */
    ghost predicate Firing(expired: seq<Timer<T>>, due: seq<nat>, i: nat, was: map<nat, Rec<T>>, all: bool, now: nat)
      requires i <= |due|
      reads this, repr, expired
    {
      && Valid(Members(due[i..]))
      && ListsDue(was, due, all, now)
      && |expired| == |due|
      && (forall k :: 0 <= k < |due| ==> due[k] in was && due[k] in known && expired[k] == known[due[k]])
      && (forall k :: i <= k < |due| ==> expired[k].Shows(was[due[k]]))
    }

    method FireNext(expired: seq<Timer<T>>, ghost due: seq<nat>, i: nat, ghost was: map<nat, Rec<T>>, ghost all: bool,
        now: nat)
        returns (cb: T)
      requires i < |due| && Firing(expired, due, i, was, all, now)
      modifies this`timers, this`view, this`ids, repr
      ensures Firing(expired, due, i + 1, was, all, now)
      ensures cb == was[due[i]].cb
      ensures view == old(view).(live := Refire(old(view).live, due[i], was[due[i]], now))
    {
      hide Listed;
      NextDue(was, due, i, all, now);
      cb := Fire(expired[i], was[due[i]], now, Members(due[i+1..]));
    }

    method FireAll(all: bool, now: nat, keyAddr: nat) returns (cbs: seq<T>, ghost due: seq<nat>)
      requires Valid()
      modifies this`timers, this`view, this`ids, repr
      ensures Valid()
      ensures view == old(view).(live := AfterExpiry(old(view).live, all, now))
      ensures ListsDue(old(view).live, due, all, now)
      ensures |cbs| == |due| && forall i :: 0 <= i < |due| ==> cbs[i] == old(view).live[due[i]].cb
    {
      hide Valid;
      hide AfterExpiry;
      hide RefireAll;
      hide ListsDue;
      ghost var was := view;
      var expired;
      expired, due := CutExpired(all, now, keyAddr);
      ghost var rest := view.live;
      cbs := [];
      var i := 0;
      assert due[0..] == due;
      RefireStart(rest, was.live, due, all, now);
      while i < |expired|
        invariant i <= |expired|
        invariant Firing(expired, due, i, was.live, all, now)
        invariant view == was.(live := RefireAll(rest, was.live, due[..i], now))
        invariant |cbs| == i && forall k :: 0 <= k < i ==> cbs[k] == was.live[due[k]].cb
      {
        RefireStep(rest, was.live, due, i, now);
        var cb := FireNext(expired, due, i, was.live, all, now);
        cbs := cbs + [cb];
        i := i + 1;
      }
      assert due[..i] == due && Members(due[i..]) == {};
      RefireAllExpires(was.live, due, all, now);
    }

    /** cbs are the callbacks of the due timers, in deadline order; each one-shot timer among
        them is disarmed and each recurring one armed again. */
    method ListExpiredCb(now: nat, keyAddr: nat) returns (cbs: seq<T>, ghost due: seq<nat>)
      requires Valid()
      modifies this, repr
      ensures Valid() && known == old(known) && repr == old(repr) && notified == old(notified)
      ensures view == Expire(old(view), now)
      ensures IsDueOrder(old(view), now, due)
      ensures |cbs| == |due| && forall i :: 0 <= i < |due| ==> cbs[i] == old(view).live[due[i]].cb
    {
      NoneListed(view.live, ids);
      if timers == [] {
        return [], [];
      }
      var rollover := DetectClockRollover(now);
      if !rollover && timers[0].next > now {
        NothingDue(view.live, ids, now);
        return [], [];
      }
      cbs, due := FireAll(rollover, now, keyAddr);
    }
  }
}
