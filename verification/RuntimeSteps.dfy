/** Each step of the runtime keeps the invariant. */
module RuntimeSteps {
  import opened Wrappers
  import opened Scheduling
  import opened TimerSpec
  import opened Runtime
  import opened RuntimeInv
  import opened Sums
  import E = EventTable

  // ---------------------------------------------------------------- timers

  lemma ArmTok(live: map<nat, Rec<Cb>>, id: nat, r: Rec<Cb>)
    requires id !in live
    ensures SumMap(live[id := r], TimerTok) == SumMap(live, TimerTok) + CbTok(r.cb)
  {
    SumMapPut(live, id, r, TimerTok);
  }

  lemma DropTok(live: map<nat, Rec<Cb>>, id: nat)
    requires id in live ==> CbTok(live[id].cb) == multiset{}
    ensures SumMap(live - {id}, TimerTok) == SumMap(live, TimerTok)
  {
    if id in live {
      SumMapTake(live, id, TimerTok);
    } else {
      assert live - {id} == live;
    }
  }

  ghost predicate Distinct(ids: seq<nat>) {
    forall i, j :: 0 <= i < j < |ids| ==> ids[i] != ids[j]
  }

  lemma TakeLastTok(live: map<nat, Rec<Cb>>, due: seq<nat>, n: nat)
    requires (forall id :: id in due ==> id in live) && Distinct(due) && |due| == n + 1
    ensures due[n] in live
    ensures SumMap(live - Members(due[..n]), TimerTok) == CbTok(live[due[n]].cb) + SumMap(live - Members(due), TimerTok)
  {
    hide SumMap;
    assert due[n] in due && due[n] !in due[..n];
    assert due == due[..n] + [due[n]];
    assert Members(due) == Members(due[..n]) + {due[n]};
    SumMapTake(live - Members(due[..n]), due[n], TimerTok);
    assert live - Members(due[..n]) - {due[n]} == live - Members(due);
  }

  lemma CancelLast(a: multiset<nat>, b: multiset<nat>, c: multiset<nat>)
    ensures (b + a) + c == a + (c + b)
  {}

  lemma DueJobsLast(live: map<nat, Rec<Cb>>, due: seq<nat>, n: nat)
    requires |due| == n + 1 && forall id :: id in due ==> id in live
    ensures (forall id :: id in due[..n] ==> id in live) && due[n] in live
    ensures JobsTok(DueJobs(live, due)) == JobsTok(DueJobs(live, due[..n])) + CbTok(live[due[n]].cb)
  {
    assert forall id :: id in due[..n] ==> id in due;
    assert due[n] in due;
    var jobs := DueJobs(live, due);
    assert jobs[..n] == DueJobs(live, due[..n]);
    assert jobs[n] == CbTask(live[due[n]].cb);
  }

  lemma {:induction false} TakeDueTok(live: map<nat, Rec<Cb>>, due: seq<nat>)
    requires (forall id :: id in due ==> id in live) && Distinct(due)
    ensures SumMap(live, TimerTok) == SumMap(live - Members(due), TimerTok) + JobsTok(DueJobs(live, due))
  {
    if due == [] {
      assert live - Members(due) == live;
    } else {
      var n := |due| - 1;
      TakeDueTok(live, due[..n]);
      TakeLastTok(live, due, n);
      DueJobsLast(live, due, n);
      hide *;
      CancelLast(SumMap(live - Members(due), TimerTok), CbTok(live[due[n]].cb), JobsTok(DueJobs(live, due[..n])));
    }
  }

  lemma {:induction false} RefireTok(rest: map<nat, Rec<Cb>>, was: map<nat, Rec<Cb>>, due: seq<nat>, now: nat)
    requires (forall id :: id in due ==> id in was && id !in rest) && Distinct(due)
    requires forall id :: id in due && was[id].recurring ==> was[id].cb.UserCb?
    ensures SumMap(RefireAll(rest, was, due, now), TimerTok) == SumMap(rest, TimerTok)
  {
    if due != [] {
      var n := |due| - 1;
      var front, id := due[..n], due[n];
      assert id in due && id !in front && forall x :: x in front ==> x in due;
      RefireTok(rest, was, front, now);
      RefireAllIs(rest, was, front, now);
      var before := RefireAll(rest, was, front, now);
      assert id !in before;
      if was[id].recurring {
        ArmTok(before, id, was[id].(next := now + was[id].ms));
      }
    }
  }

  lemma SomebodyIn(ids: seq<nat>)
    ensures ids == [] || ids[0] in ids
  {}

  /** Expiry hands the wake-ups of the due timers to the queue. */
  lemma ExpireTok(t: Timers<Cb>, now: nat, due: seq<nat>)
    requires IsDueOrder(t, now, due)
    requires forall id :: id in t.live && t.live[id].recurring ==> t.live[id].cb.UserCb?
    ensures SumMap(t.live, TimerTok) == SumMap(Expire(t, now).live, TimerTok) + JobsTok(DueJobs(t.live, due))
  {
    var all := RolledBack(t.previous, now);
    if t.live == map[] {
      SomebodyIn(due);
    } else {
      forall i, j | 0 <= i < j < |due|
        ensures due[i] != due[j]
      {
        assert due[i] in due && due[j] in due && Before(t.live, due[i], due[j]);
      }
      TakeDueTok(t.live, due);
      RefireTok(t.live - Members(due), t.live, due, now);
      RefireAllExpires(t.live, due, all, now);
    }
  }

  // ---------------------------------------------------------------- one worker changes

  lemma Sizes<T>(a: multiset<T>, b: multiset<T>, c: multiset<T>, d: multiset<T>)
    requires a + b == c + d
    ensures |a| + |b| == |c| + |d|
  {
    assert |a + b| == |a| + |b|;
    assert |c + d| == |c| + |d|;
  }

  lemma WorkerSums(ws: seq<Worker>, w: nat, wk: Worker)
    requires w < |ws|
    ensures Sum(ws[w := wk], WorkerTok) + WorkerTok(ws[w]) == Sum(ws, WorkerTok) + WorkerTok(wk)
    ensures Sum(ws[w := wk], RunTok) + RunTok(ws[w]) == Sum(ws, RunTok) + RunTok(wk)
    ensures |Sum(ws[w := wk], ActiveTok)| + |ActiveTok(ws[w])| == |Sum(ws, ActiveTok)| + |ActiveTok(wk)|
  {
    SumUpdate(ws, w, wk, WorkerTok);
    SumUpdate(ws, w, wk, RunTok);
    SumUpdate(ws, w, wk, ActiveTok);
    hide Sum;
    Sizes(Sum(ws[w := wk], ActiveTok), ActiveTok(ws[w]), Sum(ws, ActiveTok), ActiveTok(wk));
  }

  // ---------------------------------------------------------------- conjunct by conjunct

  lemma RunsMove(ws: seq<Worker>, fibers: map<nat, Fib>, w: nat, wk: Worker, fibers': map<nat, Fib>)
    requires RunsOk(ws, fibers) && w < |ws|
    requires forall f :: Exec(fibers', f) + RunTok(ws[w])[f] == Exec(fibers, f) + RunTok(wk)[f]
    ensures RunsOk(ws[w := wk], fibers')
  {
    WorkerSums(ws, w, wk);
    hide Sum;
    forall f
      ensures Sum(ws[w := wk], RunTok)[f] == Exec(fibers', f)
    {
      assert (Sum(ws[w := wk], RunTok) + RunTok(ws[w]))[f] == (Sum(ws, RunTok) + RunTok(wk))[f];
      assert Sum(ws, RunTok)[f] == Exec(fibers, f);
    }
  }

  lemma ActiveMove(ws: seq<Worker>, active: int, w: nat, wk: Worker)
    requires ActiveOk(ws, active) && w < |ws|
    ensures ActiveOk(ws[w := wk], active - |ActiveTok(ws[w])| + |ActiveTok(wk)|)
  {
    WorkerSums(ws, w, wk);
    hide Sum;
  }

  lemma WorkerAt(ws: seq<Worker>, fibers: map<nat, Fib>, w: nat)
    requires WorkersOk(ws, fibers) && w < |ws|
    ensures PcOk(fibers, ws[w]) && PocketOk(fibers, ws[w])
  {}

  /** Only worker w changes, and it gives up its pocket or keeps it. */
  lemma WorkersMove(ws: seq<Worker>, fibers: map<nat, Fib>, w: nat, wk: Worker)
    requires WorkersOk(ws, fibers) && w < |ws|
    requires PcOk(fibers, wk) && PocketOk(fibers, wk)
    requires wk.pocket == ws[w].pocket || wk.pocket == None
    ensures WorkersOk(ws[w := wk], fibers)
  {
    hide PcOk;
    hide PocketOk;
  }

  predicate Mentions(wk: Worker, f: nat) {
    || wk.pocket == Some(f)
    || wk.pc == Taken(FiberTask(f))
    || wk.pc == Requeue(f)
    || (wk.pc.Running? && wk.pc.fiber == f)
  }

  ghost predicate OnlyHere(ws: seq<Worker>, w: nat, f: nat) {
    forall v :: 0 <= v < |ws| && v != w ==> !Mentions(ws[v], f)
  }

  /** Worker w and a fiber only it mentions change. */
  lemma WorkersMoveWith(ws: seq<Worker>, fibers: map<nat, Fib>, w: nat, wk: Worker, f: nat, fib: Fib)
    requires WorkersOk(ws, fibers) && w < |ws|
    requires PcOk(fibers[f := fib], wk) && PocketOk(fibers[f := fib], wk)
    requires wk.pocket == ws[w].pocket || wk.pocket == None || wk.pocket == Some(f)
    requires OnlyHere(ws, w, f)
    ensures WorkersOk(ws[w := wk], fibers[f := fib])
  {
    var ws', fibers' := ws[w := wk], fibers[f := fib];
    forall v | 0 <= v < |ws'|
      ensures PcOk(fibers', ws'[v]) && PocketOk(fibers', ws'[v])
    {
      if v != w {
        assert PcOk(fibers, ws[v]) && PocketOk(fibers, ws[v]);
        assert !Mentions(ws[v], f);
      }
    }
  }

  /** No other worker has anything to do with the fiber w runs. */
  lemma OnlyMine(ws: seq<Worker>, fibers: map<nat, Fib>, w: nat)
    requires RunsOk(ws, fibers) && WorkersOk(ws, fibers) && w < |ws| && ws[w].pc.Running?
    ensures OnlyHere(ws, w, ws[w].pc.fiber)
  {
    var f := ws[w].pc.fiber;
    assert PcOk(fibers, ws[w]);
    forall v | 0 <= v < |ws| && v != w
      ensures !Mentions(ws[v], f)
    {
      assert PcOk(fibers, ws[v]) && PocketOk(fibers, ws[v]);
      if v < w {
        SumTwo(ws, v, w, RunTok);
      } else {
        SumTwo(ws, w, v, RunTok);
      }
      assert (RunTok(ws[v]) + RunTok(ws[w]))[f] <= Sum(ws, RunTok)[f] == Exec(fibers, f);
    }
  }

  /** Nor with a fiber whose one wake-up is in w's hand. */
  lemma OnlyInMyHand(s: Rt, w: nat, f: nat)
    requires TokensOk(Tokens(s), s.fibers) && WorkersOk(s.workers, s.fibers) && w < |s.workers|
    requires WorkerTok(s.workers[w])[f] == 1
    requires f in s.fibers && s.fibers[f].state in {INIT, HOLD, READY} && s.fibers[f].act != Pocketed
    ensures OnlyHere(s.workers, w, f)
  {
    forall v | 0 <= v < |s.workers| && v != w
      ensures !Mentions(s.workers[v], f)
    {
      WorkerAt(s.workers, s.fibers, v);
      if v < w {
        SumTwo(s.workers, v, w, WorkerTok);
      } else {
        SumTwo(s.workers, w, v, WorkerTok);
      }
      assert (WorkerTok(s.workers[v]) + WorkerTok(s.workers[w]))[f] <= Sum(s.workers, WorkerTok)[f] <= Tokens(s)[f];
      assert Expect(s.fibers, f) == 1;
    }
  }

  // ---------------------------------------------------------------- workers and fibers

  /** A fiber changes hands or state together with worker w. */
  lemma CoreMove(ws: seq<Worker>, fibers: map<nat, Fib>, active: int, w: nat, wk: Worker, f: nat, fib: Fib)
    requires Core(ws, fibers, active) && w < |ws| && OnlyHere(ws, w, f)
    requires FibOk(fib) && PcOk(fibers[f := fib], wk) && PocketOk(fibers[f := fib], wk)
    requires wk.pocket == ws[w].pocket || wk.pocket == None || wk.pocket == Some(f)
    requires Exec(fibers, f) + RunTok(wk)[f] == (if fib.state == EXEC then 1 else 0) + RunTok(ws[w])[f]
    requires forall g :: g != f ==> RunTok(wk)[g] == RunTok(ws[w])[g]
    ensures Core(ws[w := wk], fibers[f := fib], active - |ActiveTok(ws[w])| + |ActiveTok(wk)|)
  {
    hide WorkersOk;
    hide ActiveOk;
    hide PcOk;
    hide PocketOk;
    hide RunTok;
    WorkersMoveWith(ws, fibers, w, wk, f, fib);
    RunsMove(ws, fibers, w, wk, fibers[f := fib]);
    ActiveMove(ws, active, w, wk);
  }

  lemma RunsExec(s: Rt, w: nat)
    requires Core(s.workers, s.fibers, s.active) && Runs(s, w)
    ensures s.fibers[Me(s, w)].state == EXEC && MyAct(s, w) != Pocketed
    ensures s.workers[w].pc.body == Code <==> MyAct(s, w) != Closure
    ensures s.workers[w].pc.viaCb ==> s.workers[w].pocket == Some(Me(s, w))
  {
    WorkerAt(s.workers, s.fibers, w);
  }

  /** The fiber w runs goes on to another act. */
  lemma CoreAct(s: Rt, w: nat, act: Act)
    requires Core(s.workers, s.fibers, s.active) && Runs(s, w) && s.workers[w].pc.body == Code
    requires act != Closure && act != Pocketed
    ensures Core(s.workers, s.fibers[Me(s, w) := s.fibers[Me(s, w)].(act := act)], s.active)
  {
    var f, wk := Me(s, w), s.workers[w];
    WorkerAt(s.workers, s.fibers, w);
    OnlyMine(s.workers, s.fibers, w);
    RunsExec(s, w);
    CoreMove(s.workers, s.fibers, s.active, w, wk, f, s.fibers[f].(act := act));
    assert s.workers[w := wk] == s.workers;
  }

  lemma CoreSwapOut(s: Rt, w: nat, fib: Fib, pc: Pc)
    requires Core(s.workers, s.fibers, s.active) && Runs(s, w)
    requires FibOk(fib) && fib.state != EXEC && fib.act != Pocketed
    requires pc == Fetch || (pc == Requeue(Me(s, w)) && fib.state == READY)
    ensures var s' := SwapOut(s, w, fib, pc); Core(s'.workers, s'.fibers, s'.active)
  {
    var f, wk := Me(s, w), s.workers[w];
    WorkerAt(s.workers, s.fibers, w);
    OnlyMine(s.workers, s.fibers, w);
    var wk' := wk.(pc := pc, pocket := if wk.pc.viaCb then None else wk.pocket);
    CoreMove(s.workers, s.fibers, s.active, w, wk', f, fib);
  }

  lemma CoreLeave(s: Rt, w: nat, fib: Fib)
    requires Core(s.workers, s.fibers, s.active) && Runs(s, w)
    requires fib == if s.workers[w].pc.viaCb then Fib(INIT, Pocketed) else Fib(fib.state, User)
    requires !s.workers[w].pc.viaCb ==> fib.state in {TERM, EXCEPT}
    ensures Core(s.workers[w := s.workers[w].(pc := Fetch)], s.fibers[Me(s, w) := fib], s.active - 1)
  {
    var f, wk := Me(s, w), s.workers[w];
    WorkerAt(s.workers, s.fibers, w);
    OnlyMine(s.workers, s.fibers, w);
    RunsExec(s, w);
    hide Core;
    hide OnlyHere;
    CoreMove(s.workers, s.fibers, s.active, w, wk.(pc := Fetch), f, fib);
  }

  lemma CoreEnd(s: Rt, w: nat, state: State)
    requires Core(s.workers, s.fibers, s.active) && Runs(s, w) && state in {TERM, EXCEPT}
    ensures var s' := End(s, w, state); Core(s'.workers, s'.fibers, s'.active)
  {
    hide Core;
    CoreLeave(s, w, if s.workers[w].pc.viaCb then Fib(INIT, Pocketed) else Fib(state, User));
  }

  lemma CoreBody(s: Rt, w: nat, body: Body)
    requires Core(s.workers, s.fibers, s.active) && Runs(s, w) && s.workers[w].pc.body != Code && body != Code
    ensures Core(SetBody(s, w, body).workers, s.fibers, s.active)
  {
    hide Sum;
    var wk := s.workers[w].(pc := s.workers[w].pc.(body := body));
    WorkerAt(s.workers, s.fibers, w);
    WorkersMove(s.workers, s.fibers, w, wk);
    RunsMove(s.workers, s.fibers, w, wk, s.fibers);
    ActiveMove(s.workers, s.active, w, wk);
  }

  lemma CoreNewFiber(ws: seq<Worker>, fibers: map<nat, Fib>, active: int, f: nat)
    requires Core(ws, fibers, active) && f !in fibers
    ensures Core(ws, fibers[f := Fib(INIT, User)], active)
  {
    hide Sum;
    forall w | 0 <= w < |ws|
      ensures PcOk(fibers[f := Fib(INIT, User)], ws[w]) && PocketOk(fibers[f := Fib(INIT, User)], ws[w])
    {
      WorkerAt(ws, fibers, w);
    }
    forall g
      ensures Exec(fibers[f := Fib(INIT, User)], g) == Exec(fibers, g)
    {}
  }

  // ---------------------------------------------------------------- steps that move no wake-up

  lemma NothingMoved(a: multiset<nat>, b: multiset<nat>)
    requires a + multiset{} == b + multiset{}
    ensures a == b
  {
    assert a == a + multiset{};
  }

  /** Neither active nor holding a wake-up. */
  predicate Idle(pc: Pc) {
    !(pc.Taken? || pc.Running? || pc.Requeue?)
  }

  /** A worker moves between states in which it holds nothing. */
  lemma IdleMove(s: Rt, s': Rt, w: nat, wk: Worker)
    requires Inv(s) && w < |s.workers| && Idle(s.workers[w].pc) && Idle(wk.pc) && wk.pocket == s.workers[w].pocket
    requires s' == s.(workers := s.workers[w := wk], timers := s'.timers)
    requires s'.timers.live == s.timers.live
    ensures Inv(s')
  {
    hide Sum;
    hide SumMap;
    hide TokensOk;
    hide RunsOk;
    hide ActiveOk;
    hide WorkersOk;
    hide FibersOk;
    hide TimersOk;
    hide E.Mirror;
    RunsMove(s.workers, s.fibers, w, wk, s.fibers);
    ActiveMove(s.workers, s.active, w, wk);
    WorkerAt(s.workers, s.fibers, w);
    WorkersMove(s.workers, s.fibers, w, wk);
    WorkerSums(s.workers, w, wk);
    assert WorkerTok(wk) == WorkerTok(s.workers[w]) == multiset{};
    NothingMoved(Sum(s'.workers, WorkerTok), Sum(s.workers, WorkerTok));
    assert Tokens(s') == Tokens(s);
  }
}
