/**
 The event registrations seen as a value: per descriptor the registered events with what
 each one wakes, the pending counter, and the interest set the kernel holds.

 ok is the outcome of epoll_ctl where the kernel is free to fail.
 */
module EventTable {
  import opened Wrappers
  import S = Scheduling

  datatype Event = READ | WRITE

  datatype CtlOp = ADD | MOD | DEL

  /** pending is an int so that an underflow of the counter would show; Mirror excludes it. */
  datatype Table<T> = Table(fds: seq<map<Event, T>>, pending: int, kernel: map<nat, set<Event>>)

  // ---------------------------------------------------------------- the kernel's side

  function Ctl(kernel: map<nat, set<Event>>, op: CtlOp, fd: nat, mask: set<Event>): map<nat, set<Event>> {
    if op == DEL then kernel - {fd} else kernel[fd := mask]
  }

  /** The kernel refuses to add a registered descriptor or to change an unregistered one. */
  predicate Legal(kernel: map<nat, set<Event>>, op: CtlOp, fd: nat) {
    op == ADD <==> fd !in kernel
  }

  function AddOp<T>(m: map<Event, T>): CtlOp {
    if m == map[] then ADD else MOD
  }

  function RemoveOp<T>(left: map<Event, T>): CtlOp {
    if left == map[] then DEL else MOD
  }

  // ---------------------------------------------------------------- the locked sections

  function Registered<T>(t: Table<T>, fd: nat): map<Event, T> {
    if fd < |t.fds| then t.fds[fd] else map[]
  }

  /** n descriptors with nothing registered. */
  function Blank<T>(n: nat): (fds: seq<map<Event, T>>)
    ensures |fds| == n && forall i :: 0 <= i < n ==> fds[i] == map[]
  {
    seq(n, _ => map[])
  }

  /** contextResize: a smaller size cuts descriptors off, with whatever is registered there. */
  function Resized<T>(t: Table<T>, size: nat): Table<T> {
    t.(fds := if size <= |t.fds| then t.fds[..size] else t.fds + Blank(size - |t.fds|))
  }

  function Grown<T>(t: Table<T>, fd: nat): Table<T>
    requires fd >= |t.fds| ==> fd + fd / 2 > |t.fds|
  {
    if fd < |t.fds| then t else Resized(t, fd + fd / 2)
  }

  function AddEvent<T>(t: Table<T>, fd: nat, ev: Event, task: T, ok: bool): Table<T>
    requires |t.fds| >= 2
  {
    var g := Grown(t, fd);
    var m := g.fds[fd];
    if !ok then g
    else Table(g.fds[fd := m[ev := task]], g.pending + 1, Ctl(g.kernel, AddOp(m), fd, m.Keys + {ev}))
  }

  /** Within the table nothing grows. */
  lemma AddWithin<T>(t: Table<T>, fd: nat, ev: Event, task: T)
    requires |t.fds| >= 2 && fd < |t.fds|
    ensures AddEvent(t, fd, ev, task, false) == t
    ensures AddEvent(t, fd, ev, task, true).kernel == Ctl(t.kernel, AddOp(t.fds[fd]), fd, t.fds[fd].Keys + {ev})
  {}

  /** Growing first makes no difference. */
  lemma AddGrown<T>(t: Table<T>, fd: nat, ev: Event, task: T, ok: bool)
    requires |t.fds| >= 2
    ensures |Grown(t, fd).fds| >= 2 && Registered(Grown(t, fd), fd) == Registered(t, fd)
    ensures AddEvent(Grown(t, fd), fd, ev, task, ok) == AddEvent(t, fd, ev, task, ok)
  {}

  /** Takes the events evs of one descriptor out of the table. */
  function Remove<T>(t: Table<T>, fd: nat, evs: set<Event>): Table<T>
    requires fd < |t.fds| && evs <= t.fds[fd].Keys
  {
    var left := t.fds[fd] - evs;
    Table(t.fds[fd := left], t.pending - |evs|, Ctl(t.kernel, RemoveOp(left), fd, left.Keys))
  }

  /** delEvent and cancelEvent change the table alike; they differ in what they schedule. */
  function RemoveEvent<T>(t: Table<T>, fd: nat, ev: Event, ok: bool): Table<T>
  {
    if ev !in Registered(t, fd) || !ok then t
    else
      Remove(t, fd, {ev})
  }

  function CancelAll<T>(t: Table<T>, fd: nat, ok: bool): Table<T>
  {
    if Registered(t, fd) == map[] || !ok then t
    else
      Remove(t, fd, t.fds[fd].Keys)
  }

  /** What triggering the events evs puts on the run queue, reads first. */
  function Woken<T>(m: map<Event, T>, evs: set<Event>): seq<T>
    requires evs <= m.Keys
  {
    (if READ in evs then [m[READ]] else []) + (if WRITE in evs then [m[WRITE]] else [])
  }

  /** An error or a hang-up counts as every registered event. */
  function RealEvents<T>(m: map<Event, T>, reported: set<Event>, broken: bool): set<Event> {
    if broken then reported + m.Keys else reported
  }

  /** The report is not stale: it names no event that was taken out since the kernel made it. */
  predicate Current<T>(m: map<Event, T>, reported: set<Event>) {
    reported <= m.Keys || reported !! m.Keys
  }

  function Dispatch<T>(t: Table<T>, fd: nat, reported: set<Event>, broken: bool, ok: bool): Table<T>
    requires fd < |t.fds|
    requires Current(t.fds[fd], RealEvents(t.fds[fd], reported, broken))
  {
    var hit := RealEvents(t.fds[fd], reported, broken);
    if hit !! t.fds[fd].Keys || !ok then t
    else
      Remove(t, fd, hit)
  }

  // ---------------------------------------------------------------- the mirror

  function Held<T>(m: map<Event, T>): multiset<T> {
    (if READ in m then multiset{m[READ]} else multiset{}) + (if WRITE in m then multiset{m[WRITE]} else multiset{})
  }

  /** Everything that some registration would wake. */
  function Waiting<T>(fds: seq<map<Event, T>>): multiset<T> {
    if fds == [] then multiset{} else Waiting(fds[..|fds| - 1]) + Held(fds[|fds| - 1])
  }

  ghost predicate KernelMirror<T>(fds: seq<map<Event, T>>, kernel: map<nat, set<Event>>) {
    && (forall fd: nat :: fd in kernel <==> fd < |fds| && fds[fd] != map[])
    && (forall fd: nat :: fd in kernel ==> kernel[fd] == fds[fd].Keys)
  }

  /** The counter counts the registrations and the kernel watches exactly what is registered. */
  ghost predicate Mirror<T>(t: Table<T>) {
    |t.fds| >= 32 && t.pending == |Waiting(t.fds)| && KernelMirror(t.fds, t.kernel)
  }

  lemma AllEvents(evs: set<Event>)
    ensures evs == {} || evs == {READ} || evs == {WRITE} || evs == {READ, WRITE}
    ensures |evs| == (if READ in evs then 1 else 0) + (if WRITE in evs then 1 else 0)
  {
    forall e | e in evs
      ensures e in {READ, WRITE}
    {
      assert e.READ? || e.WRITE?;
    }
    assert evs == {} || evs == {READ} || evs == {WRITE} || evs == {READ, WRITE};
  }

  lemma HeldSize<T>(m: map<Event, T>)
    ensures |Held(m)| == |m| == |m.Keys|
  {
    AllEvents(m.Keys);
  }

  lemma Rearrange<T>(a: multiset<T>, x: multiset<T>, b: multiset<T>, y: multiset<T>, l: multiset<T>)
    requires a + x == b + y
    ensures (a + l) + x == (b + l) + y
  {
    assert (a + l) + x == (a + x) + l;
  }

  lemma {:induction false} WaitingUpdate<T>(fds: seq<map<Event, T>>, fd: nat, m: map<Event, T>)
    requires fd < |fds|
    ensures Waiting(fds[fd := m]) + Held(fds[fd]) == Waiting(fds) + Held(m)
  {
    hide Held;
    var last := |fds| - 1;
    var fds' := fds[fd := m];
    if fd == last {
      assert fds'[..last] == fds[..last];
    } else {
      WaitingUpdate(fds[..last], fd, m);
      assert fds'[..last] == fds[..last][fd := m];
      assert fds'[last] == fds[last];
      var l := Held(fds[last]);
      assert Waiting(fds') == Waiting(fds'[..last]) + l;
      assert Waiting(fds) == Waiting(fds[..last]) + l;
      Rearrange(Waiting(fds'[..last]), Held(fds[fd]), Waiting(fds[..last]), Held(m), l);
    }
  }

  lemma BlankNext<T>(fds: seq<map<Event, T>>, n: nat)
    requires n > 0
    ensures (fds + Blank(n))[..|fds| + n - 1] == fds + Blank(n - 1)
  {}

  lemma HeldNone<T>()
    ensures Held<T>(map[]) == multiset{}
  {}

  lemma {:induction false} WaitingGrown<T>(fds: seq<map<Event, T>>, n: nat)
    ensures Waiting(fds + Blank(n)) == Waiting(fds)
  {
    hide Blank;
    hide Held;
    if n == 0 {
      assert fds + Blank(n) == fds;
    } else {
      WaitingGrown(fds, n - 1);
      BlankNext(fds, n);
      HeldNone<T>();
    }
  }

  lemma NewMirror<T>(n: nat)
    requires n >= 32
    ensures Mirror<T>(Table(Blank(n), 0, map[]))
  {
    hide Blank;
    WaitingGrown<T>([], n);
    assert [] + Blank<T>(n) == Blank<T>(n);
  }

  lemma HeldFits<T>(fds: seq<map<Event, T>>, fd: nat)
    requires fd < |fds|
    ensures |Held(fds[fd])| <= |Waiting(fds)|
  {
    WaitingUpdate(fds, fd, map[]);
    assert Held<T>(map[]) == multiset{};
    var cut, held := Waiting(fds[fd := map[]]), Held(fds[fd]);
    hide *;
    assert |cut + held| == |cut| + |held|;
  }

  lemma SubsetSize<X>(a: set<X>, b: set<X>)
    requires a <= b
    ensures |a| <= |b|
  {
    assert b == a + (b - a);
  }

  lemma ResizedNew<T>(n: nat)
    requires n > 0
    ensures Resized<T>(Table([], 0, map[]), n) == Table(Blank(n), 0, map[])
  {
    hide Blank;
    assert [] + Blank<T>(n) == Blank<T>(n);
  }

  lemma RoomFor<T>(t: Table<T>, fd: nat, evs: set<Event>)
    requires Mirror(t) && fd < |t.fds| && evs <= t.fds[fd].Keys
    ensures |evs| <= t.pending
  {
    HeldSize(t.fds[fd]);
    SubsetSize(evs, t.fds[fd].Keys);
    HeldFits(t.fds, fd);
  }

  /** The counter is zero exactly when nothing is registered. */
  lemma {:induction false} NoneWaiting<T>(fds: seq<map<Event, T>>)
    ensures |Waiting(fds)| == 0 <==> forall fd :: 0 <= fd < |fds| ==> fds[fd] == map[]
  {
    if fds != [] {
      var last := |fds| - 1;
      NoneWaiting(fds[..last]);
      HeldSize(fds[last]);
      assert forall fd :: 0 <= fd < last ==> fds[..last][fd] == fds[fd];
    }
  }

  // ---------------------------------------------------------------- every section keeps it

  lemma GrownKeeps<T>(t: Table<T>, fd: nat)
    requires Mirror(t)
    ensures Mirror(Grown(t, fd)) && Waiting(Grown(t, fd).fds) == Waiting(t.fds) && fd < |Grown(t, fd).fds|
  {
    hide Waiting;
    if fd >= |t.fds| {
      var more := fd + fd / 2 - |t.fds|;
      WaitingGrown(t.fds, more);
      assert forall i :: |t.fds| <= i < |t.fds| + more ==> Grown(t, fd).fds[i] == map[];
    }
  }

  lemma HeldAdded<T>(m: map<Event, T>, ev: Event, task: T)
    requires ev !in m
    ensures Held(m[ev := task]) == Held(m) + multiset{task}
  {}

  lemma Cancelled<T>(w': multiset<T>, l: multiset<T>, woken: multiset<T>, w: multiset<T>)
    requires w' + (l + woken) == w + l
    ensures w == w' + woken && |w| == |w'| + |woken|
  {
    assert w == (w + l) - l;
    assert w' + woken == (w' + (l + woken)) - l;
    assert |w' + woken| == |w'| + |woken|;
  }

  lemma AddKeeps<T>(t: Table<T>, fd: nat, ev: Event, task: T, ok: bool)
    requires Mirror(t) && ev !in Registered(t, fd)
    ensures Mirror(AddEvent(t, fd, ev, task, ok))
    ensures Legal(t.kernel, AddOp(Registered(t, fd)), fd)
    ensures Waiting(AddEvent(t, fd, ev, task, ok).fds) == Waiting(t.fds) + if ok then multiset{task} else multiset{}
  {
    hide Waiting;
    hide Held;
    var g := Grown(t, fd);
    GrownKeeps(t, fd);
    assert Registered(t, fd) == g.fds[fd];
    if ok {
      var m := g.fds[fd];
      HeldAdded(m, ev, task);
      WaitingUpdate(g.fds, fd, m[ev := task]);
      Cancelled(Waiting(g.fds), Held(m), multiset{task}, Waiting(g.fds[fd := m[ev := task]]));
    }
  }

  lemma MirrorSize<T>(t: Table<T>)
    requires Mirror(t)
    ensures |t.fds| >= 32
  {}

  lemma HeldSplit<T>(m: map<Event, T>, evs: set<Event>)
    requires evs <= m.Keys
    ensures Held(m) == Held(m - evs) + multiset(Woken(m, evs))
    ensures |Woken(m, evs)| == |evs|
  {
    AllEvents(evs);
  }

  lemma RemoveKeeps<T>(t: Table<T>, fd: nat, evs: set<Event>)
    requires Mirror(t) && fd < |t.fds| && evs <= t.fds[fd].Keys && evs != {}
    ensures |evs| <= t.pending && Mirror(Remove(t, fd, evs))
    ensures Legal(t.kernel, RemoveOp(t.fds[fd] - evs), fd)
    ensures Waiting(t.fds) == Waiting(Remove(t, fd, evs).fds) + multiset(Woken(t.fds[fd], evs))
  {
    hide Waiting;
    hide Held;
    hide Woken;
    RoomFor(t, fd, evs);
    var m := t.fds[fd];
    var left := m - evs;
    HeldSplit(m, evs);
    WaitingUpdate(t.fds, fd, left);
    Cancelled(Waiting(t.fds[fd := left]), Held(left), multiset(Woken(m, evs)), Waiting(t.fds));
    assert |multiset(Woken(m, evs))| == |evs|;
  }

  // ---------------------------------------------------------------- what each section does, event by event

  /** Whoever would be woken. */
  function Waiter<T>(t: Table<T>, fd: nat, ev: Event): Option<T> {
    if fd < |t.fds| && ev in t.fds[fd] then Some(t.fds[fd][ev]) else None
  }

  /** One event more, and a table half as large again as the number of a descriptor beyond it. */
  lemma AddMeans<T>(t: Table<T>, fd: nat, ev: Event, task: T, ok: bool, g: nat, e: Event)
    requires |t.fds| >= 2
    ensures Waiter(AddEvent(t, fd, ev, task, ok), g, e)
         == if ok && g == fd && e == ev then Some(task) else Waiter(t, g, e)
    ensures |AddEvent(t, fd, ev, task, ok).fds| == if fd < |t.fds| then |t.fds| else 3 * fd / 2
  {}

  /** delEvent and cancelEvent: one event less, and none if the kernel refuses. */
  lemma RemoveMeans<T>(t: Table<T>, fd: nat, ev: Event, ok: bool, g: nat, e: Event)
    ensures Waiter(RemoveEvent(t, fd, ev, ok), g, e) == if ok && g == fd && e == ev then None else Waiter(t, g, e)
  {}

  lemma CancelAllMeans<T>(t: Table<T>, fd: nat, ok: bool, g: nat, e: Event)
    ensures Waiter(CancelAll(t, fd, ok), g, e) == if ok && g == fd then None else Waiter(t, g, e)
  {
    if fd < |t.fds| && t.fds[fd] != map[] && ok {
      assert t.fds[fd] - t.fds[fd].Keys == map[];
    }
  }

  /** A report that is broken takes every event of the descriptor, any other those it names. */
  lemma DispatchMeans<T>(t: Table<T>, fd: nat, reported: set<Event>, broken: bool, ok: bool, g: nat, e: Event)
    requires fd < |t.fds| && reported <= t.fds[fd].Keys
    ensures Current(t.fds[fd], RealEvents(t.fds[fd], reported, broken))
    ensures Waiter(Dispatch(t, fd, reported, broken, ok), g, e)
         == if ok && g == fd && (broken || e in reported) then None else Waiter(t, g, e)
  {}

  /** The queue q' is q with the waiters for the events evs behind it, the one for reading first. */
  ghost predicate WakesBehind<T>(q: seq<T>, m: map<Event, T>, evs: set<Event>, q': seq<T>)
    requires evs <= m.Keys
  {
    && |q'| == |q| + |evs| && q <= q'
    && (READ in evs ==> |q| < |q'| && q'[|q|] == m[READ])
    && (WRITE in evs ==> q' != [] && q'[|q'| - 1] == m[WRITE])
  }

  lemma WokenBehind<T>(q: seq<T>, m: map<Event, T>, evs: set<Event>)
    requires evs <= m.Keys
    ensures WakesBehind(q, m, evs, q + Woken(m, evs))
  {
    AllEvents(evs);
  }

  /** The waiters as they stand in the run queue. */
  function Entries<F, C>(m: map<Event, S.Task<F, C>>): map<Event, S.Entry<F, C>> {
    map e | e in m :: S.Entry(m[e], None)
  }

  lemma PushedBehind<F, C>(q: seq<S.Entry<F, C>>, m: map<Event, S.Task<F, C>>, evs: set<Event>)
    requires evs <= m.Keys
    ensures evs <= Entries(m).Keys && WakesBehind(q, Entries(m), evs, S.Push(q, Woken(m, evs)))
  {
    AllEvents(evs);
  }
}
