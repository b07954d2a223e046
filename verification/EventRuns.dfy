/**
 Whole runs of the event registrations: every interleaving of add, delete, cancel, cancelAll
 and dispatch, with epoll_ctl failing whenever it likes.
 */
module EventRuns {
  import opened EventTable

  datatype Op<T> =
    | Add(fd: nat, ev: Event, task: T, ok: bool)
    | Delete(fd: nat, ev: Event, ok: bool)
    | Cancel(fd: nat, ev: Event, ok: bool)
    | CancelWhole(fd: nat, ok: bool)
    | Report(fd: nat, reported: set<Event>, broken: bool, ok: bool)

  /** The registrations, and everything ever added, deleted and put on the run queue. */
  datatype World<T> = World(table: Table<T>, added: multiset<T>, deleted: multiset<T>, scheduled: seq<T>)

  function Init<T>(): World<T> {
    World(Table(Blank(32), 0, map[]), multiset{}, multiset{}, [])
  }

  /** An event is not registered twice, and no report names an event taken out since. */
  predicate Enabled<T>(w: World<T>, op: Op<T>) {
    match op
    case Add(fd, ev, _, _) => ev !in Registered(w.table, fd)
    case Report(fd, reported, broken, _) =>
      fd < |w.table.fds| && Current(w.table.fds[fd], RealEvents(w.table.fds[fd], reported, broken))
    case _ => true
  }

  function Do<T>(w: World<T>, op: Op<T>): World<T>
    requires |w.table.fds| >= 2 && Enabled(w, op)
  {
    match op
    case Add(fd, ev, task, ok) =>
      w.(table := AddEvent(w.table, fd, ev, task, ok), added := w.added + if ok then multiset{task} else multiset{})
    case Delete(fd, ev, ok) =>
      var m := Registered(w.table, fd);
      w.(table := RemoveEvent(w.table, fd, ev, ok),
         deleted := w.deleted + if ev in m && ok then multiset{m[ev]} else multiset{})
    case Cancel(fd, ev, ok) =>
      var m := Registered(w.table, fd);
      w.(table := RemoveEvent(w.table, fd, ev, ok),
         scheduled := w.scheduled + if ev in m && ok then [m[ev]] else [])
    case CancelWhole(fd, ok) =>
      var m := Registered(w.table, fd);
      w.(table := CancelAll(w.table, fd, ok),
         scheduled := w.scheduled + if ok then Woken(m, m.Keys) else [])
    case Report(fd, reported, broken, ok) =>
      var m := w.table.fds[fd];
      var hit := RealEvents(m, reported, broken);
      w.(table := Dispatch(w.table, fd, reported, broken, ok),
         scheduled := w.scheduled + if ok && !(hit !! m.Keys) then Woken(m, hit) else [])
  }

  lemma OneWoken<T>(m: map<Event, T>, ev: Event)
    requires ev in m
    ensures Woken(m, {ev}) == [m[ev]]
  {
    match ev
    case READ =>
    case WRITE =>
  }

  /** The events a step takes out to wake their waiters, unless the kernel refuses. */
  ghost function Taken<T>(w: World<T>, op: Op<T>): set<Event> {
    match op
    case Cancel(fd, ev, ok) => if ok && Waiter(w.table, fd, ev).Some? then {ev} else {}
    case CancelWhole(fd, ok) => set e | e in {READ, WRITE} && ok && Waiter(w.table, fd, e).Some?
    case Report(fd, reported, broken, ok) =>
      set e | e in {READ, WRITE} && ok && Waiter(w.table, fd, e).Some? && (broken || e in reported)
    case _ => {}
  }

  lemma AllNamed<T>(w: World<T>, fd: nat, op: Op<T>)
    requires Enabled(w, op) && (op.Cancel? || op.CancelWhole? || op.Report?) && fd == op.fd
    requires op.Report? ==> op.reported <= Registered(w.table, fd).Keys
    ensures Taken(w, op) <= Registered(w.table, fd).Keys
    ensures Taken(w, op) ==
            if !op.ok then {}
            else if op.Cancel? then (if op.ev in Registered(w.table, fd) then {op.ev} else {})
            else if op.CancelWhole? then Registered(w.table, fd).Keys
            else RealEvents(Registered(w.table, fd), op.reported, op.broken)
  {
    var m := Registered(w.table, fd);
    AllEvents(m.Keys);
    assert forall e :: e in m ==> e in {READ, WRITE};
  }

  /** Their waiters are queued behind everything else, the reader first, and nothing else is. */
  lemma QueuesTaken<T>(w: World<T>, op: Op<T>)
    requires |w.table.fds| >= 2 && Enabled(w, op)
    requires op.Report? ==> op.reported <= Registered(w.table, op.fd).Keys
    ensures Taken(w, op) <= Registered(w.table, op.fd).Keys
    ensures WakesBehind(w.scheduled, Registered(w.table, op.fd), Taken(w, op), Do(w, op).scheduled)
  {
    var m := Registered(w.table, op.fd);
    if op.Cancel? || op.CancelWhole? || op.Report? {
      AllNamed(w, op.fd, op);
    }
    WokenBehind(w.scheduled, m, Taken(w, op));
    if op.Cancel? && op.ev in m {
      OneWoken(m, op.ev);
    }
    hide WakesBehind;
    hide Woken;
    hide RealEvents;
  }

  /** Every registration is waiting, was deleted, or was scheduled, and only one of these. */
  ghost predicate Conserved<T>(w: World<T>) {
    w.added == Waiting(w.table.fds) + w.deleted + multiset(w.scheduled)
  }

  lemma TakenOut<T>(w: World<T>, fd: nat, evs: set<Event>)
    requires Mirror(w.table) && Conserved(w)
    requires fd < |w.table.fds| && evs <= w.table.fds[fd].Keys && evs != {}
    ensures |evs| <= w.table.pending
    ensures var woken, left := Woken(w.table.fds[fd], evs), Remove(w.table, fd, evs);
            && Mirror(left)
            && Conserved(w.(table := left, scheduled := w.scheduled + woken))
            && Conserved(w.(table := left, deleted := w.deleted + multiset(woken)))
  {
    hide Waiting;
    hide Woken;
    RemoveKeeps(w.table, fd, evs);
  }

  lemma OneTakenOut<T>(w: World<T>, op: Op<T>)
    requires Mirror(w.table) && Conserved(w) && Enabled(w, op) && (op.Delete? || op.Cancel?)
    requires |w.table.fds| >= 2
    ensures Mirror(Do(w, op).table) && Conserved(Do(w, op))
  {
    hide Waiting;
    hide Mirror;
    hide Remove;
    if op.ev in Registered(w.table, op.fd) && op.ok {
      OneWoken(w.table.fds[op.fd], op.ev);
      TakenOut(w, op.fd, {op.ev});
    }
  }

  lemma AddStep<T>(w: World<T>, op: Op<T>)
    requires Mirror(w.table) && Conserved(w) && Enabled(w, op) && op.Add?
    requires |w.table.fds| >= 2
    ensures Mirror(Do(w, op).table) && Conserved(Do(w, op))
  {
    hide Waiting;
    hide Mirror;
    hide AddEvent;
    AddKeeps(w.table, op.fd, op.ev, op.task, op.ok);
  }

  lemma NoneWoken<T>(m: map<Event, T>)
    ensures Woken(m, {}) == []
  {}

  lemma StepKeeps<T>(w: World<T>, op: Op<T>)
    requires Mirror(w.table) && Conserved(w) && Enabled(w, op)
    ensures |w.table.fds| >= 2 && Mirror(Do(w, op).table) && Conserved(Do(w, op))
  {
    MirrorSize(w.table);
    hide Waiting;
    hide Mirror;
    hide AddEvent;
    hide Remove;
    hide Woken;
    match op
    case Add(_, _, _, _) =>
      AddStep(w, op);
    case Delete(_, _, _) =>
      OneTakenOut(w, op);
    case Cancel(_, _, _) =>
      OneTakenOut(w, op);
    case CancelWhole(fd, ok) =>
      var m := Registered(w.table, fd);
      if m != map[] && ok {
        TakenOut(w, fd, m.Keys);
      } else {
        assert Woken(m, {}) == [] by { NoneWoken(m); }
      }
    case Report(fd, reported, broken, ok) =>
      var hit := RealEvents(w.table.fds[fd], reported, broken);
      if ok && !(hit !! w.table.fds[fd].Keys) {
        TakenOut(w, fd, hit);
      }
  }

  /** The table never shrinks below the 32 descriptors it starts with; that it holds two is
      what growing by half needs. */
  ghost predicate IsRun<T>(ws: seq<World<T>>, ops: seq<Op<T>>) {
    && |ws| == |ops| + 1
    && ws[0] == Init()
    && forall i {:trigger ops[i]} :: 0 <= i < |ops| ==>
         |ws[i].table.fds| >= 2 && Enabled(ws[i], ops[i]) && ws[i+1] == Do(ws[i], ops[i])
  }

  lemma {:induction false} EveryRunKeeps<T>(ws: seq<World<T>>, ops: seq<Op<T>>, n: nat)
    requires IsRun(ws, ops) && n < |ws|
    ensures Mirror(ws[n].table) && Conserved(ws[n])
  {
    if n == 0 {
      NewMirror<T>(32);
      WaitingGrown<T>([], 32);
      assert [] + ws[0].table.fds == ws[0].table.fds;
    } else {
      EveryRunKeeps(ws, ops, n - 1);
      var op := ops[n-1];
      StepKeeps(ws[n-1], op);
    }
  }

  /** A waiter that was registered once is in exactly one place, so it is woken at most once. */
  lemma ExactlyOnce<T>(ws: seq<World<T>>, ops: seq<Op<T>>, n: nat, task: T)
    requires IsRun(ws, ops) && n < |ws| && ws[n].added[task] == 1
    ensures var w := ws[n];
            Waiting(w.table.fds)[task] + w.deleted[task] + multiset(w.scheduled)[task] == 1
    ensures forall i, j :: 0 <= i < j < |ws[n].scheduled| ==> ws[n].scheduled[i] != task || ws[n].scheduled[j] != task
  {
    EveryRunKeeps(ws, ops, n);
    var s := ws[n].scheduled;
    forall i, j | 0 <= i < j < |s| && s[i] == task
      ensures s[j] != task
    {
      assert s == s[..i] + [s[i]] + s[i+1..j] + [s[j]] + s[j+1..];
    }
  }

  /** One descriptor with the registrations m, and what has happened. */
  function OneHolds<T>(fd: nat, m: map<Event, T>, added: multiset<T>, scheduled: seq<T>): World<T>
    requires fd < 32
  {
    World(Table(Blank(32)[fd := m], |m|, map[fd := m.Keys]), added, multiset{}, scheduled)
  }

  lemma RegistersFirst<T>(fd: nat, a: T)
    requires fd < 32
    ensures Enabled(Init(), Add(fd, READ, a, true)) && |Init<T>().table.fds| == 32
    ensures Do(Init(), Add(fd, READ, a, true)) == OneHolds(fd, map[READ := a], multiset{a}, [])
  {
    var w: World<T> := Init();
    var none: map<Event, T> := map[];
    assert none.Keys + {READ} == map[READ := a].Keys;
    assert w.table.fds[fd := map[READ := a]] == OneHolds(fd, map[READ := a], multiset{a}, []).table.fds;
    assert w.added + multiset{a} == multiset{a};
  }

  lemma RegistersSecond<T>(fd: nat, a: T, b: T)
    requires fd < 32
    ensures |OneHolds(fd, map[READ := a], multiset{a}, []).table.fds| == 32
    ensures Enabled(OneHolds(fd, map[READ := a], multiset{a}, []), Add(fd, WRITE, b, true))
    ensures Do(OneHolds(fd, map[READ := a], multiset{a}, []), Add(fd, WRITE, b, true))
         == OneHolds(fd, map[READ := a, WRITE := b], multiset{a, b}, [])
  {
    var w := OneHolds(fd, map[READ := a], multiset{a}, []);
    assert w.table.fds[fd := map[READ := a, WRITE := b]]
        == OneHolds(fd, map[READ := a, WRITE := b], multiset{a, b}, []).table.fds;
    assert map[READ := a].Keys + {WRITE} == map[READ := a, WRITE := b].Keys;
  }

  lemma CancelsSecond<T>(fd: nat, a: T, b: T)
    requires fd < 32
    ensures |OneHolds(fd, map[READ := a, WRITE := b], multiset{a, b}, []).table.fds| == 32
    ensures Enabled(OneHolds(fd, map[READ := a, WRITE := b], multiset{a, b}, []), Cancel(fd, WRITE, true))
    ensures Do(OneHolds(fd, map[READ := a, WRITE := b], multiset{a, b}, []), Cancel(fd, WRITE, true))
         == OneHolds(fd, map[READ := a], multiset{a, b}, [b])
  {
    var w := OneHolds(fd, map[READ := a, WRITE := b], multiset{a, b}, []);
    assert map[READ := a, WRITE := b] - {WRITE} == map[READ := a];
    assert w.table.fds[fd := map[READ := a]] == OneHolds(fd, map[READ := a], multiset{a, b}, [b]).table.fds;
  }

  lemma NowStale<T>(fd: nat, a: T, b: T)
    requires fd < 32
    ensures var both := OneHolds(fd, map[READ := a, WRITE := b], multiset{a, b}, []).table.fds;
            |both| == 32 && both[fd].Keys == {READ, WRITE}
    ensures var left := OneHolds(fd, map[READ := a], multiset{a, b}, [b]).table.fds;
            |left| == 32 && !Current(left[fd], {READ, WRITE})
  {
    assert map[READ := a, WRITE := b].Keys == {READ, WRITE};
    assert READ in map[READ := a] && WRITE !in map[READ := a];
  }

  lemma ThreeSteps<T>(ws: seq<World<T>>, ops: seq<Op<T>>)
    requires |ops| == 3 && |ws| == 4 && ws[0] == Init() && forall i :: 0 <= i < 3 ==> |ws[i].table.fds| >= 2
    requires Enabled(ws[0], ops[0]) && ws[1] == Do(ws[0], ops[0])
    requires Enabled(ws[1], ops[1]) && ws[2] == Do(ws[1], ops[1])
    requires Enabled(ws[2], ops[2]) && ws[3] == Do(ws[2], ops[2])
    ensures IsRun(ws, ops)
  {
    hide Enabled;
    hide Do;
  }

  /** A report that was right when the kernel made it and names an event cancelled since: after a
      run that registers both events of a descriptor and cancels one. */
  lemma StaleReport<T>(fd: nat, a: T, b: T) returns (ws: seq<World<T>>, ops: seq<Op<T>>)
    requires fd < 32
    ensures IsRun(ws, ops) && |ops| == 3 && ops[2] == Cancel(fd, WRITE, true)
    ensures |ws| == 4 && fd < |ws[2].table.fds| && ws[2].table.fds[fd].Keys == {READ, WRITE}
    ensures fd < |ws[3].table.fds| && !Current(ws[3].table.fds[fd], {READ, WRITE})
  {
    RegistersFirst(fd, a);
    RegistersSecond(fd, a, b);
    CancelsSecond(fd, a, b);
    NowStale(fd, a, b);
    hide *;
    var w1, w2 := OneHolds(fd, map[READ := a], multiset{a}, []),
        OneHolds(fd, map[READ := a, WRITE := b], multiset{a, b}, []);
    ws := [Init(), w1, w2, OneHolds(fd, map[READ := a], multiset{a, b}, [b])];
    ops := [Add(fd, READ, a, true), Add(fd, WRITE, b, true), Cancel(fd, WRITE, true)];
    ThreeSteps(ws, ops);
  }
}
