/**
  KillableDynThreadingTCPServer: an accept loop that submits every request to a WorkerPool,
  whose task closes the race with kill() through the table of pending requests.

  The pool is the one of WorkerPools, with all its events; task number j of the pool is
  `_process_queued_request(jobs[j])`.
 */
module DynServers {
  import opened Wrappers
  import P = WorkerPools
  import L = PoolLaws

  type Request = nat

  datatype State = State(
    pool: P.State,
    jobs: seq<Request>,
    arrived: nat,
    killed: bool,
    pending: set<Request>,           // _pending_requests
    doomed: set<Request>,            // removed from it by kill(), which has yet to close them
    abandoned: set<Request>,         // removed from it by kill(), which ended with an error
    processed: set<P.Job>,           // tasks that have been through the table
    closed: seq<Request>,
    handed: seq<Request>)

  function Initial(maxWorkers: nat): State {
    State(P.Initial(maxWorkers), [], 0, false, {}, {}, {}, {}, [], [])
  }

  datatype Event =
    | Arrive(verified: bool, startOk: bool)
    | KillMark                       // kill() under _request_lock
    | CloseDoomed(request: Request)
    | KillRaised                     // killall or shutdown_request raised in the kill() that has them
    | Process(worker: P.ThreadId)    // the task's stay under _request_lock
    | Pool(event: P.Event)

  predicate RunningJob(pool: P.State, w: P.ThreadId, j: P.Job) {
    w in pool.threads && pool.threads[w].place == P.Running(j)
  }

  predicate Enabled(s: State, e: Event) {
    match e
    case Arrive(verified, _) => verified && !s.killed ==> !s.pool.draining
    case KillMark => true
    case CloseDoomed(r) => r in s.doomed
    case KillRaised => s.doomed != {}
    case Process(w) =>
      w in s.pool.threads && s.pool.threads[w].place.Running?
      && s.pool.threads[w].place.job !in s.processed && s.pool.threads[w].place.job < |s.jobs|
    case Pool(pe) =>
      !pe.Submit? && P.Enabled(s.pool, pe)
      && (pe.Finish? ==> s.pool.threads[pe.thread].place.job in s.processed)
  }

  function DoArrive(s: State, verified: bool, startOk: bool): State {
    var r, s1 := s.arrived, s.(arrived := s.arrived + 1);
    if !verified || s.killed then s1.(closed := s.closed + [r])
    else
      var pool1 := P.DoSubmit(s.pool, None, startOk);
      if pool1.log.accepted > s.pool.log.accepted
      then s1.(pool := pool1, pending := s.pending + {r}, jobs := s.jobs + [r])
      else s1.(pool := pool1, closed := s.closed + [r])
  }

  function DoProcess(s: State, j: P.Job): State
    requires j < |s.jobs|
  {
    var r, s1 := s.jobs[j], s.(processed := s.processed + {j});
    if r in s.pending then s1.(pending := s.pending - {r}, handed := s.handed + [r]) else s1
  }

  function Step(s: State, e: Event): State
    requires Enabled(s, e)
  {
    match e
    case Arrive(verified, startOk) => DoArrive(s, verified, startOk)
    case KillMark => s.(killed := true, pending := {}, doomed := s.doomed + s.pending)
    case CloseDoomed(r) => s.(doomed := s.doomed - {r}, closed := s.closed + [r])
    case KillRaised => s.(doomed := {}, abandoned := s.abandoned + s.doomed)
    case Process(w) => DoProcess(s, s.pool.threads[w].place.job)
    case Pool(pe) => s.(pool := P.Step(s.pool, pe))
  }

  predicate Run(s: State, es: seq<Event>)
    decreases es
  {
    es == [] || (Enabled(s, es[0]) && Run(Step(s, es[0]), es[1..]))
  }

  function After(s: State, es: seq<Event>): State
    requires Run(s, es)
    decreases es
  {
    if es == [] then s else After(Step(s, es[0]), es[1..])
  }

  // ---- The invariant ----

  ghost predicate Distinct(s: seq<nat>) {
    forall i, k :: 0 <= i < k < |s| ==> s[i] != s[k]
  }

  /** Every arrived request is pending, doomed, abandoned, closed or handed over: exactly one,
      once. */
  ghost predicate Requests(arrived: nat, pending: set<Request>, doomed: set<Request>, abandoned: set<Request>,
                           closed: seq<Request>, handed: seq<Request>) {
    && Distinct(closed) && Distinct(handed)
    && (forall r: Request ::
          r < arrived <==> r in pending || r in doomed || r in abandoned || r in closed || r in handed)
    && pending !! doomed && pending !! abandoned && doomed !! abandoned
    && (forall r: Request :: r in pending || r in doomed || r in abandoned ==> r !in closed && r !in handed)
    && (forall r: Request :: r in closed ==> r !in handed)
  }

  /** Every pending request has its task, not yet through the table, and a task that has been
      called and is not through the table is running. */
  ghost predicate Jobs(pool: P.State, jobs: seq<Request>, arrived: nat, pending: set<Request>, processed: set<P.Job>) {
    && |jobs| == pool.log.accepted && Distinct(jobs)
    && (forall j :: 0 <= j < |jobs| ==> jobs[j] < arrived)
    && (forall r: Request :: r in pending ==> r in jobs)
    && (forall j :: j in processed ==> j < |jobs| && jobs[j] !in pending)
    && (forall j :: j in pool.log.started ==> j in processed || exists w :: RunningJob(pool, w, j))
    && (forall w, j :: RunningJob(pool, w, j) ==> j in pool.log.started)
  }

  ghost predicate Inv(s: State) {
    && P.Inv(s.pool)
    && Requests(s.arrived, s.pending, s.doomed, s.abandoned, s.closed, s.handed)
    && Jobs(s.pool, s.jobs, s.arrived, s.pending, s.processed)
    && (s.killed ==> s.pending == {})
  }

  // ---- What the pool's events do to the running tasks ----

  ghost predicate SameRunning(pool: P.State, pool1: P.State) {
    && pool1.log.started == pool.log.started && pool1.log.accepted == pool.log.accepted
    && (forall w, j :: RunningJob(pool1, w, j) <==> RunningJob(pool, w, j))
  }

  lemma AddedRunning(pool: P.State, n: nat, xid: Option<P.WorkerId>, started: nat)
    requires P.Core(pool)
    ensures SameRunning(pool, P.AddMany(pool, n, xid, started).0)
  {
    hide P.Core;
    P.AddManyKeeps(pool, n, xid, started);
  }

  lemma QuietGrow(pool: P.State, e: P.Event)
    requires P.Inv(pool) && P.Enabled(pool, e) && e.Grow?
    ensures SameRunning(pool, P.Step(pool, e))
  {
    hide P.Core;
    var ready := P.Ready(pool.threads[e.thread].place.job, false);
    P.MoveKeeps(pool, e.thread, ready);
    hide P.Inv;
    AddedRunning(P.Move(pool, e.thread, ready), 1, None, if e.startOk then 1 else 0);
  }

  lemma QuietRetire(pool: P.State, e: P.Event)
    requires P.Inv(pool) && P.Enabled(pool, e) && e.Retire?
    ensures SameRunning(pool, P.Step(pool, e))
  {
    hide P.Core;
    P.GoneKeeps(pool, e.thread);
    hide P.Inv;
    AddedRunning(P.Gone(pool, e.thread), 1, None, if e.startOk then 1 else 0);
  }

  lemma QuietOther(pool: P.State, e: P.Event)
    requires P.Enabled(pool, e) && !e.Submit? && !e.Start? && !e.Finish? && !e.AddWorkers? && !e.Grow? && !e.Retire?
    ensures SameRunning(pool, P.Step(pool, e))
  {
    hide P.AddMany;
    if e.Begin? || e.Acknowledge? { QuietTask(pool, e); }
  }

  lemma QuietTask(pool: P.State, e: P.Event)
    requires P.Enabled(pool, e) && (e.Begin? || e.Acknowledge?)
    ensures SameRunning(pool, P.Step(pool, e))
  {
    hide P.AddMany;
    var pool1 := P.Step(pool, e);
    assert !pool1.threads[e.thread].place.Running? && !pool.threads[e.thread].place.Running?;
  }

  lemma QuietPoolStep(pool: P.State, e: P.Event)
    requires P.Inv(pool) && P.Enabled(pool, e) && !e.Submit? && !e.Start? && !e.Finish?
    ensures SameRunning(pool, P.Step(pool, e))
  {
    assert SameRunning(pool, pool);
    hide P.Core;
    hide SameRunning;
    match e
    case AddWorkers(nb, xid, started) => AddedRunning(pool, P.Min(P.Max(1, nb), pool.maxWorkers), xid, started);
    case Grow(_, _) => QuietGrow(pool, e);
    case Retire(_, _) => QuietRetire(pool, e);
    case _ => QuietOther(pool, e);
  }

  lemma StartKeeps(s: State, e: P.Event)
    requires Inv(s) && Enabled(s, Pool(e)) && e.Start?
    ensures Jobs(P.Step(s.pool, e), s.jobs, s.arrived, s.pending, s.processed)
  {
    hide P.Inv;
    var pool, pool1 := s.pool, P.Step(s.pool, e);
    var w, j := e.thread, s.pool.threads[e.thread].place.job;
    assert pool1.log.started == pool.log.started + [j];
    assert forall v, i :: RunningJob(pool1, v, i) <==> RunningJob(pool, v, i) || (v == w && i == j);
    forall i | i in pool1.log.started ensures i in s.processed || exists v :: RunningJob(pool1, v, i) {
      if i == j {
        assert RunningJob(pool1, w, j);
      } else if i !in s.processed {
        var v :| RunningJob(pool, v, i);
        assert RunningJob(pool1, v, i);
      }
    }
  }

  lemma FinishKeeps(s: State, e: P.Event)
    requires Inv(s) && Enabled(s, Pool(e)) && e.Finish?
    ensures Jobs(P.Step(s.pool, e), s.jobs, s.arrived, s.pending, s.processed)
  {
    hide P.Inv;
    var pool, pool1, w := s.pool, P.Step(s.pool, e), e.thread;
    assert forall v, i :: RunningJob(pool1, v, i) <==> RunningJob(pool, v, i) && v != w;
  }

  lemma PoolKeeps(s: State, e: P.Event)
    requires Inv(s) && Enabled(s, Pool(e))
    ensures Inv(Step(s, Pool(e)))
  {
    P.StepKeepsInv(s.pool, e);
    hide P.Inv;
    hide P.Step;
    if e.Start? {
      StartKeeps(s, e);
    } else if e.Finish? {
      FinishKeeps(s, e);
    } else {
      QuietPoolStep(s.pool, e);
    }
  }

  // ---- The server's own events ----

  lemma Appended(s: seq<nat>, r: nat)
    requires Distinct(s) && r !in s
    ensures Distinct(s + [r]) && forall x :: x in s + [r] <==> x in s || x == r
  {
  }

  lemma SubmitRunning(pool: P.State, startOk: bool)
    requires P.Inv(pool)
    ensures var pool1 := P.DoSubmit(pool, None, startOk);
            pool1.log.started == pool.log.started
            && (pool1.log.accepted == pool.log.accepted || pool1.log.accepted == pool.log.accepted + 1)
            && (forall w, j :: RunningJob(pool1, w, j) <==> RunningJob(pool, w, j))
  {
    hide P.Core;
    AddedRunning(pool, 1, None, if startOk then 1 else 0);
  }

  lemma AcceptedJob(s: State, pool1: P.State)
    requires Inv(s) && pool1.log.started == s.pool.log.started && pool1.log.accepted == s.pool.log.accepted + 1
    requires forall w, j :: RunningJob(pool1, w, j) <==> RunningJob(s.pool, w, j)
    ensures Jobs(pool1, s.jobs + [s.arrived], s.arrived + 1, s.pending + {s.arrived}, s.processed)
  {
    assert s.arrived !in s.jobs;
    Appended(s.jobs, s.arrived);
    forall i | i in pool1.log.started ensures i in s.processed || exists v :: RunningJob(pool1, v, i) {
      if i !in s.processed {
        var v :| RunningJob(s.pool, v, i);
        assert RunningJob(pool1, v, i);
      }
    }
  }

  lemma ArriveKeeps(s: State, verified: bool, startOk: bool)
    requires Inv(s) && Enabled(s, Arrive(verified, startOk))
    ensures Inv(DoArrive(s, verified, startOk))
  {
    hide P.Inv;
    Appended(s.closed, s.arrived);
    if verified && !s.killed {
      P.SubmitKeeps(s.pool, None, startOk);
      SubmitRunning(s.pool, startOk);
      var pool1 := P.DoSubmit(s.pool, None, startOk);
      if pool1.log.accepted > s.pool.log.accepted {
        AcceptedJob(s, pool1);
      } else {
      }
    }
  }

  lemma ProcessKeeps(s: State, w: P.ThreadId)
    requires Inv(s) && Enabled(s, Process(w))
    ensures Inv(Step(s, Process(w)))
  {
    hide P.Inv;
    var j := s.pool.threads[w].place.job;
    var r := s.jobs[j];
    if r in s.pending { Appended(s.handed, r); }
    assert forall i :: i in s.processed && i < |s.jobs| && s.jobs[i] == r ==> r !in s.pending;
  }

  lemma KillKeeps(s: State, e: Event)
    requires Inv(s) && Enabled(s, e) && (e.KillMark? || e.CloseDoomed? || e.KillRaised?)
    ensures Inv(Step(s, e))
  {
    hide P.Inv;
    if e.CloseDoomed? { Appended(s.closed, e.request); }
  }

  lemma StepKeepsInv(s: State, e: Event)
    requires Inv(s) && Enabled(s, e)
    ensures Inv(Step(s, e))
  {
    hide Inv;
    match e
    case Arrive(verified, startOk) => ArriveKeeps(s, verified, startOk);
    case Process(w) => ProcessKeeps(s, w);
    case Pool(pe) => PoolKeeps(s, pe);
    case _ => KillKeeps(s, e);
  }

  lemma {:induction false} RunKeepsInv(s: State, es: seq<Event>)
    requires Inv(s) && Run(s, es)
    ensures Inv(After(s, es))
    decreases es
  {
    hide Inv;
    if es != [] {
      StepKeepsInv(s, es[0]);
      RunKeepsInv(Step(s, es[0]), es[1..]);
    }
  }

  lemma Reachable(maxWorkers: nat, es: seq<Event>)
    requires maxWorkers >= 1 && Run(Initial(maxWorkers), es)
    ensures Inv(After(Initial(maxWorkers), es))
  {
    P.Reachable(maxWorkers, []);
    RunKeepsInv(Initial(maxWorkers), es);
  }

  // ---- What becomes of a request ----

  lemma {:induction false} OnceIn(s: seq<nat>, r: nat)
    requires Distinct(s)
    ensures multiset(s)[r] == if r in s then 1 else 0
  {
    if s != [] {
      var rest := s[1..];
      assert s == [s[0]] + rest;
      assert forall i :: 0 <= i < |rest| ==> rest[i] == s[i + 1];
      OnceIn(rest, r);
    }
  }

  /** Every request that arrived is pending, about to be closed by kill(), abandoned by it,
      closed, or handed to a handler: exactly one of these, and closed or handed over once. */
  lemma RequestConservation(s: State, r: Request)
    requires Inv(s) && r < s.arrived
    ensures (if r in s.pending then 1 else 0) + (if r in s.doomed then 1 else 0) + (if r in s.abandoned then 1 else 0)
      + multiset(s.closed)[r] + multiset(s.handed)[r] == 1
  {
    OnceIn(s.closed, r);
    OnceIn(s.handed, r);
  }

  /** After kill() every request is closed, by it or before, or was handed over, once its
      closing loop is done, unless an error made it leave the request; and nothing becomes
      pending again. */
  lemma {:induction false} AfterKill(s: State, es: seq<Event>, r: Request)
    requires Inv(s) && Run(s, es) && s.killed && r < After(s, es).arrived
    ensures After(s, es).killed && After(s, es).pending == {} && After(s, es).handed == s.handed
    ensures After(s, es).doomed == {} ==>
              multiset(After(s, es).closed)[r] + multiset(s.handed)[r] == if r in After(s, es).abandoned then 0 else 1
    decreases es
  {
    if es == [] {
      RequestConservation(s, r);
    } else {
      StepKeepsInv(s, es[0]);
      AfterKill(Step(s, es[0]), es[1..], r);
    }
  }

  // ---- What is done with a request ----

  /** A verified request becomes pending, with its task at the end of the pool's queue, exactly if
      the server is not killed, the pool not stopped, and there is a worker or one starts; any
      other is closed. */
  lemma ArriveIs(s: State, verified: bool, ok: bool)
    requires Inv(s) && !s.pool.draining
    ensures Enabled(s, Arrive(verified, ok))
    ensures var s1 := Step(s, Arrive(verified, ok));
            var taken := verified && !s.killed && !s.pool.exit && (s.pool.threads != map[] || ok);
            && s1.arrived == s.arrived + 1 && s1.handed == s.handed && s1.doomed == s.doomed
            && s1.pending == s.pending + (if taken then {s.arrived} else {})
            && s1.closed == s.closed + (if taken then [] else [s.arrived])
            && s1.jobs == s.jobs + (if taken then [s.arrived] else [])
            && s1.pool.queue == s.pool.queue + (if taken then [P.Task(|s.jobs|)] else [])
  {
    L.SubmitAccepts(s.pool, None, ok);
    assert |s.jobs| == s.pool.log.accepted;
    hide Inv;
    hide P.DoSubmit;
    assert s.closed + [] == s.closed && s.pending + {} == s.pending && s.jobs + [] == s.jobs;
    assert s.pool.queue + [] == s.pool.queue;
  }

  /** A running task hands its request to a handler if it is still pending. */
  lemma ProcessIs(s: State, w: P.ThreadId, j: P.Job)
    requires RunningJob(s.pool, w, j) && j < |s.jobs| && j !in s.processed
    ensures Enabled(s, Process(w))
    ensures var s1 := Step(s, Process(w));
            && s1.handed == s.handed + (if s.jobs[j] in s.pending then [s.jobs[j]] else [])
            && s1.pending == s.pending - {s.jobs[j]} && s1.closed == s.closed && j in s1.processed
  {
    assert s.handed + [] == s.handed;
    assert s.jobs[j] !in s.pending ==> s.pending - {s.jobs[j]} == s.pending;
  }

  /** kill() takes all pending requests out of the table, to close them. */
  lemma KillIs(s: State)
    ensures Enabled(s, KillMark)
    ensures Step(s, KillMark) == s.(killed := true, pending := {}, doomed := s.doomed + s.pending)
    ensures forall r :: r in s.doomed ==>
              Enabled(s, CloseDoomed(r)) && Step(s, CloseDoomed(r)).closed == s.closed + [r]
  {
  }

  /** The pool goes on as pools do, but that only requests are submitted, and their tasks come to
      an end after they have been through the table. */
  lemma PoolIs(s: State, e: P.Event)
    ensures Enabled(s, Pool(e)) <==>
      P.Enabled(s.pool, e) && !e.Submit? && (e.Finish? ==> s.pool.threads[e.thread].place.job in s.processed)
    ensures Enabled(s, Pool(e)) ==> Step(s, Pool(e)) == s.(pool := P.Step(s.pool, e))
  {
    hide P.Step;
  }

  function PoolEvents(es: seq<P.Event>): seq<Event> { seq(|es|, i requires 0 <= i < |es| => Pool(es[i])) }

  lemma {:induction false} PoolRuns(s: State, es: seq<P.Event>)
    requires P.Run(s.pool, es) && forall i :: 0 <= i < |es| ==> !es[i].Submit? && !es[i].Finish?
    ensures Run(s, PoolEvents(es)) && After(s, PoolEvents(es)) == s.(pool := P.After(s.pool, es))
    decreases es
  {
    hide P.Step;
    hide P.Enabled;
    if es != [] {
      PoolRuns(Step(s, Pool(es[0])), es[1..]);
      assert PoolEvents(es)[1..] == PoolEvents(es[1..]);
    }
  }

  lemma {:induction false} RunsThen(s: State, a: seq<Event>, e: Event)
    requires Run(s, a) && Enabled(After(s, a), e)
    ensures Run(s, a + [e]) && After(s, a + [e]) == Step(After(s, a), e)
    decreases a
  {
    hide Enabled;
    hide Step;
    if a == [] {
      assert a + [e] == [e] && [e][1..] == [];
      assert Run(s, [e]) && After(s, [e]) == After(Step(s, e), []);
    } else {
      RunsThen(Step(s, a[0]), a[1..], e);
      assert (a + [e])[1..] == a[1..] + [e];
    }
  }

  /** Whatever the others do, an idle worker of the pool can take the task of a pending request
      and hand it to a handler. */
  lemma IdleWorkerHands(s: State, w: P.ThreadId, i: nat, j: P.Job) returns (es: seq<Event>)
    requires Inv(s) && !s.pool.exit && w in s.pool.threads && s.pool.threads[w].place == P.Polling
    requires i < |s.pool.queue| && s.pool.queue[i] == P.Task(j) && j < |s.jobs| && s.jobs[j] in s.pending
    ensures Run(s, es) && After(s, es).handed == s.handed + [s.jobs[j]]
  {
    hide *;
    NotProcessed(s, j);
    var pool := L.IdleWorkerCalls(s.pool, w, i, j);
    PoolRuns(s, pool);
    var s1 := After(s, PoolEvents(pool));
    NowRunning(s1.pool, w, j);
    ProcessIs(s1, w, j);
    RunsThen(s, PoolEvents(pool), Process(w));
    es := PoolEvents(pool) + [Process(w)];
  }

  lemma NotProcessed(s: State, j: P.Job)
    requires Inv(s) && j < |s.jobs| && s.jobs[j] in s.pending
    ensures j !in s.processed && P.Inv(s.pool)
  {
    hide P.Inv;
  }

  lemma NowRunning(pool: P.State, w: P.ThreadId, j: P.Job)
    requires w in pool.threads && pool.threads[w].place == P.Running(j)
    ensures RunningJob(pool, w, j)
  {
  }

  // ---- A kill that ends with an error ----

  predicate NoError(es: seq<Event>) { forall i :: 0 <= i < |es| ==> !es[i].KillRaised? }

  predicate Settled(s: State) { forall r: Request :: r < s.arrived ==> r in s.closed || r in s.handed }

  lemma {:induction false} AbandonedIff(s: State, es: seq<Event>)
    requires Run(s, es)
    ensures s.abandoned <= After(s, es).abandoned
    ensures After(s, es).abandoned == {} <==> s.abandoned == {} && NoError(es)
    decreases es
  {
    if es != [] {
      AbandonedIff(Step(s, es[0]), es[1..]);
      assert NoError(es) <==> !es[0].KillRaised? && NoError(es[1..]) by {
        assert forall i :: 0 <= i < |es[1..]| ==> es[1..][i] == es[i + 1];
        if !es[0].KillRaised? && NoError(es[1..]) {
          forall i | 0 <= i < |es| ensures !es[i].KillRaised? { if i > 0 { assert es[i] == es[1..][i - 1]; } }
        }
      }
    }
  }

  /** In a run from the start, once kill() has nothing left to close, every request has been
      closed or handed over exactly when no kill() has ended with an error. */
  lemma SettledIff(maxWorkers: nat, es: seq<Event>)
    requires maxWorkers >= 1 && Run(Initial(maxWorkers), es)
    ensures var s := After(Initial(maxWorkers), es); s.killed && s.doomed == {} ==> (Settled(s) <==> NoError(es))
  {
    var s := After(Initial(maxWorkers), es);
    Reachable(maxWorkers, es);
    AbandonedIff(Initial(maxWorkers), es);
    hide Run;
    hide After;
    hide P.Inv;
    hide Jobs;
    if s.abandoned != {} { var r :| r in s.abandoned; assert r < s.arrived; }
  }

  /** What kill() has abandoned nobody closes or handles any more, a further kill() included. */
  lemma AbandonedForGood(s: State, es: seq<Event>, r: Request)
    requires Inv(s) && Run(s, es) && r in s.abandoned
    ensures r !in After(s, es).closed && r !in After(s, es).handed
  {
    AbandonedIff(s, es);
    RunKeepsInv(s, es);
  }

  lemma RunsFirst(s: State, e: Event, es: seq<Event>)
    requires Enabled(s, e) && Run(Step(s, e), es)
    ensures Run(s, [e] + es) && After(s, [e] + es) == After(Step(s, e), es)
  {
    hide Enabled;
    hide Step;
    assert ([e] + es)[1..] == es;
  }

  const ARRIVE := Arrive(true, true)

  lemma Arrives(s: State)
    requires !s.killed && !s.pool.exit && !s.pool.draining && s.pool.maxWorkers > 0
    ensures Enabled(s, ARRIVE)
    ensures var pool1 := P.DoSubmit(s.pool, None, true);
            && Step(s, ARRIVE) == s.(arrived := s.arrived + 1, pool := pool1,
                                     pending := s.pending + {s.arrived}, jobs := s.jobs + [s.arrived])
            && !pool1.exit && !pool1.draining && pool1.maxWorkers > 0
  {
    var more := P.AddOne(s.pool, None, true);
    assert P.AddMany(s.pool, 1, None, 1).0 == if s.pool.workers < s.pool.maxWorkers then more else s.pool;
  }

  /** kill() closes the first of two pending requests, which raises; the second is left open. */
  lemma LeftOpen()
    ensures var s, es := Initial(1), [ARRIVE] + ([ARRIVE] + ([KillMark] + ([CloseDoomed(0)] + [KillRaised])));
            && Run(s, es) && After(s, es).abandoned == {1} && After(s, es).doomed == {}
            && After(s, es).closed == [0] && After(s, es).handed == []
  {
    hide P.DoSubmit;
    var s := Initial(1);
    Arrives(s);
    var s1 := Step(s, ARRIVE);
    Arrives(s1);
    var s2 := Step(s1, ARRIVE);
    var s3 := s2.(killed := true, pending := {}, doomed := {0, 1});
    assert Step(s2, KillMark) == s3;
    var s4 := Step(s3, CloseDoomed(0));
    assert s4.doomed == {1};
    RunsFirst(s4, KillRaised, []);
    assert [KillRaised] + [] == [KillRaised];
    RunsFirst(s3, CloseDoomed(0), [KillRaised]);
    RunsFirst(s2, KillMark, [CloseDoomed(0)] + [KillRaised]);
    RunsFirst(s1, ARRIVE, [KillMark] + ([CloseDoomed(0)] + [KillRaised]));
    RunsFirst(s, ARRIVE, [ARRIVE] + ([KillMark] + ([CloseDoomed(0)] + [KillRaised])));
  }

  // ---- A request that waits ----

  /** The request's task is queued with a worker alive, taken by a worker, or running. */
  ghost predicate Served(pool: P.State, j: P.Job) {
    (P.Task(j) in pool.queue && pool.workers > 0) || P.Held(pool.threads, j) || exists w :: RunningJob(pool, w, j)
  }

  /** A request that waits is never forgotten: until kill() or a stop of the pool, its task is
      queued with a worker alive, taken by a worker, or running up to the table; the only other
      possibility is an error of the pool before the call. */
  lemma PendingIsServed(s: State, r: Request) returns (j: P.Job)
    requires Inv(s) && r in s.pending && !s.pool.exit && !P.Unserved(s.pool)
    ensures j < |s.jobs| && s.jobs[j] == r && j !in s.processed
    ensures Served(s.pool, j) <==> j !in s.pool.log.dropped
  {
    j :| 0 <= j < |s.jobs| && s.jobs[j] == r;
    P.TaskConservation(s.pool, j);
    assert P.Task(j) in s.pool.queue ==> P.SomeTask(s.pool.queue);
    hide P.Tasks;
    hide P.Core;
    if exists w :: RunningJob(s.pool, w, j) { assert j in s.pool.log.started; }
    if j in s.pool.log.started { assert exists w :: RunningJob(s.pool, w, j); }
  }

  /** The tasks of the workers that failed before their call. */
  function AbortedJobs(s: State, es: seq<Event>): set<P.Job>
    requires Run(s, es)
    decreases es
  {
    if es == [] then {}
    else AbortedJob(s, es[0]) + AbortedJobs(Step(s, es[0]), es[1..])
  }

  function AbortedJob(s: State, e: Event): set<P.Job>
    requires Enabled(s, e)
  {
    if e.Pool? && e.event.Abort? then {s.pool.threads[e.event.thread].place.job} else {}
  }

  lemma DroppedStep(s: State, e: Event)
    requires Enabled(s, e)
    ensures Step(s, e).pool.log.dropped == s.pool.log.dropped + AbortedJob(s, e)
  {
    match e
    case Arrive(verified, startOk) => if verified && !s.killed { P.DroppedStep(s.pool, P.Submit(None, startOk)); }
    case Pool(pe) => P.DroppedStep(s.pool, pe);
    case _ =>
  }

  lemma {:induction false} DroppedIsAborted(s: State, es: seq<Event>)
    requires Run(s, es)
    ensures After(s, es).pool.log.dropped == s.pool.log.dropped + AbortedJobs(s, es)
    decreases es
  {
    hide Step;
    hide Enabled;
    hide AbortedJob;
    if es != [] {
      DroppedStep(s, es[0]);
      DroppedIsAborted(Step(s, es[0]), es[1..]);
    }
  }

  /** In a run from the start, a pending request is served exactly when the worker that took its
      task has not failed before the call. */
  lemma PendingIsServedIff(maxWorkers: nat, es: seq<Event>, r: Request) returns (j: P.Job)
    requires maxWorkers >= 1 && Run(Initial(maxWorkers), es)
    requires var s := After(Initial(maxWorkers), es); r in s.pending && !s.pool.exit && !P.Unserved(s.pool)
    ensures var s := After(Initial(maxWorkers), es); j < |s.jobs| && s.jobs[j] == r
    ensures Served(After(Initial(maxWorkers), es).pool, j) <==> j !in AbortedJobs(Initial(maxWorkers), es)
  {
    Reachable(maxWorkers, es);
    DroppedIsAborted(Initial(maxWorkers), es);
    j := PendingIsServed(After(Initial(maxWorkers), es), r);
  }

  // ---- The server object ----

  /** Of the requests to close, `done` have been closed, in this order, and `left` not; closing
      one of `bad` raises, and the last one has if `raised`. */
  ghost predicate Closing(start: set<Request>, left: set<Request>, done: seq<Request>, bad: set<Request>,
                          raised: bool) {
    && (forall r :: r in start <==> r in done || r in left)
    && (forall r :: r in done ==> r !in left)
    && (raised ==> done != [] && done[|done| - 1] in bad)
    && (forall i :: 0 <= i < |done| - (if raised then 1 else 0) ==> done[i] !in bad)
  }

  lemma DoomedApart(s: State)
    requires Inv(s)
    ensures s.doomed !! s.abandoned && s.arrived !in s.pending
  {
    hide P.Inv;
    hide Jobs;
  }

  lemma ClosingBegins(start: set<Request>, bad: set<Request>)
    ensures Closing(start, start, [], bad, false)
  {
  }

  lemma ClosingMore(start: set<Request>, left: set<Request>, done: seq<Request>, bad: set<Request>, r: Request)
    requires Closing(start, left, done, bad, false) && r in left
    ensures Closing(start, left - {r}, done + [r], bad, r in bad)
  {
    assert forall x :: x in done + [r] <==> x in done || x == r;
  }

  class KillableDynThreadingTCPServer {
    const workerpool: P.WorkerPool
    var jobs: seq<Request>
    var arrived: nat
    var killed: bool
    var pendingRequests: set<Request>
    var doomed: set<Request>
    var abandoned: set<Request>
    var processed: set<P.Job>
    var closed: seq<Request>
    var handed: seq<Request>

    ghost function View(): State
      reads this, workerpool
    {
      State(workerpool.View(), jobs, arrived, killed, pendingRequests, doomed, abandoned, processed, closed, handed)
    }

    constructor (maxWorkers: nat)
      ensures View() == Initial(maxWorkers) && fresh(workerpool)
    {
      workerpool := new P.WorkerPool(maxWorkers);
      jobs, arrived, killed, pendingRequests, doomed, abandoned, processed := [], 0, false, {}, {}, {}, {};
      closed, handed := [], [];
    }

    /** workerpool.run: whether the pool has taken the task. */
    method RunTask(startOk: bool) returns (accepted: bool)
      modifies workerpool
      ensures workerpool.View() == P.DoSubmit(old(workerpool.View()), None, startOk)
      ensures accepted <==> workerpool.View().log.accepted == old(workerpool.View().log.accepted) + 1
      ensures !accepted ==> workerpool.View().log.accepted <= old(workerpool.View().log.accepted)
    {
      ghost var n := if startOk then 1 else 0;
      P.AddManyLog(workerpool.View(), 1, None, n);
      accepted := workerpool.PutTask(None, startOk);
      hide P.AddMany;
    }

    /** handle_request; the task is rejected when the pool is stopped or cannot start a worker. */
    method HandleRequest(verified: bool, startOk: bool)
      requires Enabled(View(), Arrive(verified, startOk)) && Inv(View())
      modifies this`jobs, this`arrived, this`pendingRequests, this`closed, workerpool
      ensures View() == DoArrive(old(View()), verified, startOk)
    {
      hide Inv;
      hide Enabled;
      DoomedApart(View());
      hide P.Inv;
      hide P.DoSubmit;
      hide P.AddMany;
      var r := arrived;
      arrived := arrived + 1;
      if !verified || killed {
        closed := closed + [r];
        return;
      }
      pendingRequests := pendingRequests + {r};
      var accepted := RunTask(startOk);
      if accepted {
        jobs := jobs + [r];
      } else {
        pendingRequests := pendingRequests - {r};
        closed := closed + [r];
        assert pendingRequests == old(pendingRequests);
      }
    }

    /** kill() under _request_lock. */
    method MarkKilled()
      modifies this`killed, this`pendingRequests, this`doomed
      ensures View() == Step(old(View()), KillMark)
    {
      killed := true;
      doomed := doomed + pendingRequests;
      pendingRequests := {};
    }

    /** The loop at the end of kill(), where closing one of `bad` raises: everything it removed
        from the table is closed once, or else what is left at the first error is abandoned. */
    method CloseAll(bad: set<Request>) returns (raised: bool, ghost done: seq<Request>)
      requires Inv(View())
      modifies this`doomed, this`abandoned, this`closed
      ensures Inv(View()) && doomed == {} && closed == old(closed) + done
      ensures old(abandoned) <= abandoned && (raised || abandoned == old(abandoned))
      ensures Closing(old(doomed), abandoned - old(abandoned), done, bad, raised)
    {
      hide Inv;
      hide Closing;
      DoomedApart(View());
      raised, done := false, [];
      ClosingBegins(doomed, bad);
      while doomed != {} && !raised
        invariant Inv(View()) && closed == old(closed) + done && doomed <= old(doomed) && abandoned == old(abandoned)
        invariant Closing(old(doomed), doomed, done, bad, raised)
        decreases |doomed|
      {
        var r :| r in doomed;
        ClosingMore(old(doomed), doomed, done, bad, r);
        Close(r);
        raised, done := r in bad, done + [r];
      }
      assert abandoned + doomed - old(abandoned) == doomed;
      if raised && doomed != {} { Abandon(); }
    }

    method Abandon()
      requires Inv(View()) && doomed != {}
      modifies this`doomed, this`abandoned
      ensures Inv(View()) && doomed == {} && abandoned == old(abandoned) + old(doomed)
    {
      StepKeepsInv(View(), KillRaised);
      hide Inv;
      abandoned := abandoned + doomed;
      doomed := {};
    }

    /** shutdown_request of a request that kill() has removed from the table. */
    method Close(r: Request)
      requires Inv(View()) && r in doomed
      modifies this`doomed, this`closed
      ensures Inv(View()) && doomed == old(doomed) - {r} && closed == old(closed) + [r] && r !in old(closed)
    {
      StepKeepsInv(View(), CloseDoomed(r));
      hide Inv;
      doomed := doomed - {r};
      closed := closed + [r];
    }

    /** _process_queued_request: true when the request goes to a handler. */
    method ProcessQueued(j: P.Job) returns (handle: bool)
      requires j < |jobs|
      modifies this`processed, this`pendingRequests, this`handed
      ensures View() == DoProcess(old(View()), j)
      ensures handle <==> jobs[j] in old(pendingRequests)
    {
      processed := processed + {j};
      if jobs[j] !in pendingRequests { return false; }
      pendingRequests := pendingRequests - {jobs[j]};
      handed := handed + [jobs[j]];
      return true;
    }
  }
}
