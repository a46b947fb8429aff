/**
  What the worker pool does for its callers: when it grows, how many workers are added, when a
  task is accepted, that an idle worker can call any queued task, and how a worker leaves.
 */
module PoolLaws {
  import opened WorkerPools
  import opened Wrappers

  // ---- Growth under load ----

  /** Every live worker is executing a task. */
  ghost predicate AllBusy(threads: map<ThreadId, Worker>) { forall w :: w in threads ==> Counted(threads[w].place) }

  lemma BusyIff(threads: map<ThreadId, Worker>)
    ensures |CountedThreads(threads)| >= |threads| <==> AllBusy(threads)
  {
    var counted := CountedThreads(threads);
    assert counted <= threads.Keys && |threads.Keys| == |threads|;
    if AllBusy(threads) {
      assert counted == threads.Keys;
    } else {
      var w :| w in threads && !Counted(threads[w].place);
      assert counted <= threads.Keys - {w};
      Fewer(counted, threads.Keys - {w});
    }
  }

  lemma {:induction false} Fewer<T>(a: set<T>, b: set<T>)
    requires a <= b
    ensures |a| <= |b|
    decreases b
  {
    if a != {} {
      var x :| x in a;
      Fewer(a - {x}, b - {x});
    }
  }

  /** There is work for another worker, and room for one. */
  ghost predicate Crowded(s: State) {
    |s.threads| < s.maxWorkers && (s.queue != [] || AllBusy(s.threads))
  }

  /** A worker that begins a task adds a worker before it calls the function exactly if there is
      room for one and a task is left in the queue or everybody is busy; otherwise it calls it. */
  lemma BeginDecides(s: State, w: ThreadId, j: Job, ok: bool)
    requires Inv(s) && Enabled(s, Begin(w)) && w in s.threads && s.threads[w].place == Got(Task(j)) && !s.exit
    ensures var s1 := Step(s, Begin(w));
            && s1 == s.(working := s1.working, threads := s1.threads)
            && s1.threads.Keys == s.threads.Keys
            && CountedThreads(s1.threads) == CountedThreads(s.threads) + {w}
            && (Enabled(s1, Grow(w, ok)) <==> Crowded(s1))
            && (Enabled(s1, Start(w)) <==> !Crowded(s1))
  {
    hide *;
    WorkersAre(s);
    BeginState(s, w, j);
    var s1 := Step(s, Begin(w));
    CountedMore(s.threads, w, s1.threads[w]);
    BusyIff(s1.threads);
    ReadyEnabled(s1, w, ok);
    CrowdedIs(s1);
  }

  lemma BeginState(s: State, w: ThreadId, j: Job)
    requires Enabled(s, Begin(w)) && w in s.threads && s.threads[w].place == Got(Task(j)) && !s.exit
    ensures var s1 := Step(s, Begin(w));
            && s1.threads == s.threads[w := s1.threads[w]] && s1.working == s.working + 1
            && s1 == s.(working := s1.working, threads := s1.threads) && !s1.draining
            && !Counted(s.threads[w].place) && Counted(s1.threads[w].place)
            && s1.threads[w].place.Ready? && s1.threads[w].place.job == j
            && (s1.threads[w].place.grow <==> (s.queue != [] || s1.working >= s.workers) && s.workers < s.maxWorkers)
  {
  }

  lemma ReadyEnabled(s: State, w: ThreadId, ok: bool)
    requires w in s.threads && s.threads[w].place.Ready? && !s.draining
    ensures Enabled(s, Grow(w, ok)) <==> s.threads[w].place.grow
    ensures Enabled(s, Start(w)) <==> !s.threads[w].place.grow
  {
  }

  lemma CrowdedIs(s: State)
    ensures Crowded(s) <==> |s.threads| < s.maxWorkers && (s.queue != [] || AllBusy(s.threads))
  {
  }

  lemma CountedMore(threads: map<ThreadId, Worker>, w: ThreadId, v: Worker)
    requires w in threads && !Counted(threads[w].place) && Counted(v.place)
    ensures CountedThreads(threads[w := v]) == CountedThreads(threads) + {w}
    ensures |CountedThreads(threads[w := v])| == |CountedThreads(threads)| + 1
    ensures |threads[w := v]| == |threads| && threads[w := v].Keys == threads.Keys
  {
    CountMove(threads, w, v);
  }

  /** An exit request, or a stop of the pool, makes the worker leave and call nothing. */
  lemma BeginGivesUp(s: State, w: ThreadId)
    requires Inv(s) && Enabled(s, Begin(w)) && (s.exit || s.threads[w].place.item.Exit?)
    ensures var s1 := Step(s, Begin(w));
            && s1.threads == s.threads[w := s.threads[w].(place := Ended(false, true))]
            && s1.working == s.working && s1.log.started == s.log.started
            && (forall j :: j in s1.log.cancelled <==> j in s.log.cancelled || s.threads[w].place.item == Task(j))
  {
  }

  /** Growing adds one worker, which looks for tasks, if there still is room and it starts; then
      the call can be made. */
  lemma GrowAdds(s: State, w: ThreadId, ok: bool)
    requires Inv(s) && Enabled(s, Grow(w, ok)) && w in s.threads && s.threads[w].place.Ready?
    ensures var s1 := Step(s, Grow(w, ok));
            && |s1.threads| == |s.threads| + (if ok && !s.exit && |s.threads| < s.maxWorkers then 1 else 0)
            && (forall v :: v in s1.threads && v !in s.threads ==> s1.threads[v].place == Polling)
            && (forall v :: v in s.threads && v != w ==> v in s1.threads && s1.threads[v] == s.threads[v])
            && s1.log == s.log && Enabled(s1, Start(w)) && s1.threads[w].place == Ready(s.threads[w].place.job, false)
  {
    hide *;
    WorkersAre(s);
    var s1 := Asked(s, w);
    GrowIs(s, w, ok);
    JoinedSame(s1);
    MoreWorkers(s1, 1, None, if ok then 1 else 0);
    GrownThreads(s, w, Step(s, Grow(w, ok)));
    JoinedKeeps(s1, Step(s, Grow(w, ok)));
    OneOf(ok, s1);
  }

  /** The worker has decided to grow the pool, and goes on with its task. */
  function Asked(s: State, w: ThreadId): State
    requires w in s.threads && s.threads[w].place.Ready?
  {
    Move(s, w, Ready(s.threads[w].place.job, false))
  }

  lemma GrowIs(s: State, w: ThreadId, ok: bool)
    requires Enabled(s, Grow(w, ok)) && w in s.threads && s.threads[w].place.Ready?
    ensures var s1 := Asked(s, w);
            && Step(s, Grow(w, ok)) == (if s.exit then s1 else AddMany(s1, 1, None, if ok then 1 else 0).0)
            && s1.exit == s.exit && s1.workers == s.workers && s1.maxWorkers == s.maxWorkers && s1.log == s.log
            && |s1.threads| == |s.threads| && (Numbered(s) ==> Numbered(s1))
  {
    hide AddMany;
    assert s.threads.Keys == Asked(s, w).threads.Keys;
  }

  lemma OneOf(ok: bool, s: State)
    ensures Min(Min(1, if ok then 1 else 0), Vacancies(s)) == if ok && s.workers < s.maxWorkers then 1 else 0
  {
  }

  lemma GrownThreads(s: State, w: ThreadId, s1: State)
    requires w in s.threads && s.threads[w].place.Ready? && Joined(Asked(s, w), s1)
    ensures forall v :: v in s1.threads && v !in s.threads ==> s1.threads[v].place == Polling
    ensures forall v :: v in s.threads && v != w ==> v in s1.threads && s1.threads[v] == s.threads[v]
    ensures Enabled(s1, Start(w)) && w in s1.threads && s1.threads[w].place == Ready(s.threads[w].place.job, false)
  {
  }

  lemma WorkersAre(s: State)
    requires Inv(s)
    ensures s.workers == |s.threads| && s.working == |CountedThreads(s.threads)|
    ensures Numbered(s)
  {
  }

  // ---- How many workers are added ----

  function Vacancies(s: State): nat { if s.workers < s.maxWorkers then s.maxWorkers - s.workers else 0 }

  /** The threads of s are in s1 as they were; the others look for tasks. */
  ghost predicate Joined(s: State, s1: State) {
    && s1.queue == s.queue && s1.log == s.log && s1.exit == s.exit && s1.draining == s.draining
    && (forall v :: v in s.threads ==> v in s1.threads && s1.threads[v] == s.threads[v])
    && (forall v :: v in s1.threads && v !in s.threads ==> s1.threads[v].place == Polling)
  }

  /** Thread numbers are given out in order. */
  ghost predicate Numbered(s: State) { forall w :: w in s.threads ==> w < s.nextThread }

  lemma OneJoins(s: State, xid: Option<WorkerId>, ok: bool)
    requires Numbered(s)
    ensures var s1 := AddOne(s, xid, ok);
            && Joined(s, s1) && Numbered(s1) && s1.maxWorkers == s.maxWorkers
            && s1.workers - s.workers == |s1.threads| - |s.threads| == (if ok then 1 else 0)
  {
  }

  lemma JoinedOn(s: State, s1: State, s2: State)
    requires Joined(s, s1) && Joined(s1, s2)
    ensures Joined(s, s2)
  {
  }

  lemma JoinedSame(s: State)
    ensures Joined(s, s)
  {
  }

  lemma AddManyFirst(s: State, n: nat, xid: Option<WorkerId>, started: nat)
    ensures AddMany(s, n, xid, started) ==
      if n == 0 || s.workers >= s.maxWorkers then (s, false)
      else if started == 0 then (AddOne(s, xid, false), true)
      else AddMany(AddOne(s, xid, true), n - 1, None, started - 1)
  {
  }

  /** Asked for n workers of which `started` can start, the pool adds what its room allows. */
  lemma {:induction false} MoreWorkers(s: State, n: nat, xid: Option<WorkerId>, started: nat)
    requires Numbered(s)
    ensures var s1 := AddMany(s, n, xid, started).0;
            && Joined(s, s1)
            && s1.workers - s.workers == |s1.threads| - |s.threads| == Min(Min(n, started), Vacancies(s))
    ensures AddMany(s, n, xid, started).1 <==> started < Min(n, Vacancies(s))
    decreases n
  {
    hide AddMany;
    hide AddOne;
    hide Joined;
    hide Numbered;
    AddManyFirst(s, n, xid, started);
    JoinedSame(s);
    if n > 0 && s.workers < s.maxWorkers {
      OneJoins(s, xid, started > 0);
      if started > 0 {
        var s1 := AddOne(s, xid, true);
        MoreWorkers(s1, n - 1, None, started - 1);
        JoinedOn(s, s1, AddMany(s1, n - 1, None, started - 1).0);
      }
    }
  }

  /** add(nb) starts max(1, nb) workers, or as many as there is room for, unless one fails to
      start or the pool is stopped. */
  lemma AddStarts(s: State, nb: nat, xid: Option<WorkerId>, started: nat)
    requires Inv(s) && !s.draining
    ensures var e := AddWorkers(nb, xid, started);
            && Enabled(s, e)
            && Step(s, e).workers ==
               s.workers + if s.exit then 0 else Min(Min(if nb == 0 then 1 else nb, started), Vacancies(s))
  {
    WorkersAre(s);
    MoreWorkers(s, Min(Max(1, nb), s.maxWorkers), xid, started);
    hide Inv;
    hide AddMany;
  }

  // ---- Acceptance ----

  /** A task is put at the end of the queue exactly if the pool is not stopped, there is a worker
      or one starts, and the queue has room. */
  lemma SubmitAccepts(s: State, capacity: Option<nat>, ok: bool)
    requires Inv(s) && !s.draining
    ensures var e := Submit(capacity, ok);
            && Enabled(s, e)
            && var s1 := Step(s, e);
               var accepted := !s.exit && (s.threads != map[] || ok) && (capacity.Some? ==> |s.queue| < capacity.value);
               && s1.log == (if accepted then s.log.(accepted := s.log.accepted + 1) else s.log)
               && s1.queue == s.queue + (if accepted then [Task(s.log.accepted)] else [])
               && s1.workers == (if s.workers == 0 && ok && !s.exit then 1 else s.workers)
  {
    hide *;
    WorkersAre(s);
    MaxPositive(s);
    MoreWorkers(s, 1, None, if ok then 1 else 0);
    JoinedKeeps(s, AddMany(s, 1, None, if ok then 1 else 0).0);
    OneOf(ok, s);
    SubmitIs(s, capacity, ok);
    if s.workers == 0 { FailedIff(s, ok); }
    assert s.threads == map[] <==> |s.threads| == 0;
  }

  lemma FailedIff(s: State, ok: bool)
    requires s.workers < s.maxWorkers
    ensures AddMany(s, 1, None, if ok then 1 else 0).1 <==> !ok
  {
  }

  lemma SubmitIs(s: State, capacity: Option<nat>, ok: bool)
    requires !s.draining
    ensures Enabled(s, Submit(capacity, ok)) && Step(s, Submit(capacity, ok)) == DoSubmit(s, capacity, ok)
    ensures var (s1, failed) := if s.workers == 0 then AddMany(s, 1, None, if ok then 1 else 0) else (s, false);
            var s2 := DoSubmit(s, capacity, ok);
            if s.exit then s2 == s
            else if failed || (capacity.Some? && |s1.queue| >= capacity.value) then s2 == s1
            else && s2.queue == s1.queue + [Task(s1.log.accepted)]
                 && s2.log == s1.log.(accepted := s1.log.accepted + 1) && s2.workers == s1.workers
  {
    hide AddMany;
  }

  lemma MaxPositive(s: State)
    requires Inv(s)
    ensures s.maxWorkers >= 1
  {
  }

  /** An exit request is put at the end of the queue unless the pool is stopped or the queue full. */
  lemma PutExitAccepts(s: State, capacity: Option<nat>)
    requires Inv(s) && !s.draining
    ensures var e := PutExit(capacity);
            && Enabled(s, e)
            && Step(s, e).queue ==
               s.queue + if !s.exit && (capacity.Some? ==> |s.queue| < capacity.value) then [Exit] else []
  {
  }

  // ---- A task is called ----

  lemma RunsPair(s: State, a: Event, b: Event)
    requires Enabled(s, a) && Enabled(Step(s, a), b)
    ensures Run(s, [a, b]) && After(s, [a, b]) == Step(Step(s, a), b)
  {
    hide Enabled;
    hide Step;
    RunsFirst(Step(s, a), b, []);
    assert [b] + [] == [b] && [a] + [b] == [a, b];
    RunsFirst(s, a, [b]);
  }

  /** Whatever the other workers do, an idle worker can take any queued task of a pool that is
      not stopped, and call it, after adding a worker if there is need. */
  lemma IdleWorkerCalls(s: State, w: ThreadId, i: nat, j: Job) returns (es: seq<Event>)
    requires Inv(s) && !s.exit && w in s.threads && s.threads[w].place == Polling
    requires i < |s.queue| && s.queue[i] == Task(j)
    ensures Run(s, es)
    ensures After(s, es).log.started == s.log.started + [j] && w in After(s, es).threads
    ensures After(s, es).threads[w].place == Running(j)
    ensures forall i :: 0 <= i < |es| ==> es[i].Take? || es[i].Begin? || es[i].Grow? || es[i].Start?
  {
    hide *;
    var take, begin := Take(w, i), Begin(w);
    TakeStep(s, w, i, j);
    StepKeepsInv(s, take);
    var s1 := Step(s, take);
    BeginStep(s1, w, j);
    StepKeepsInv(s1, begin);
    var s2 := Step(s1, begin);
    RunsPair(s, take, begin);
    if Enabled(s2, Start(w)) {
      StartStep(s2, w, j);
      RunsOn(s, [take, begin], Start(w));
      es := [take, begin] + [Start(w)];
    } else {
      GrowStep(s2, w);
      StartStep(Step(s2, Grow(w, true)), w, j);
      RunsOn(s, [take, begin], Grow(w, true));
      RunsOn(s, [take, begin] + [Grow(w, true)], Start(w));
      es := [take, begin] + [Grow(w, true)] + [Start(w)];
    }
  }

  lemma TakeStep(s: State, w: ThreadId, i: nat, j: Job)
    requires Inv(s) && !s.exit && w in s.threads && s.threads[w].place == Polling
    requires i < |s.queue| && s.queue[i] == Task(j)
    ensures Enabled(s, Take(w, i)) && var s1 := Step(s, Take(w, i));
            Enabled(s1, Begin(w)) && s1.threads[w].place == Got(Task(j)) && !s1.exit && s1.log == s.log
  {
    NotDraining(s);
    hide Inv;
  }

  lemma BeginStep(s: State, w: ThreadId, j: Job)
    requires Inv(s) && Enabled(s, Begin(w)) && s.threads[w].place == Got(Task(j)) && !s.exit
    ensures var s1 := Step(s, Begin(w));
            && w in s1.threads && s1.threads[w].place.Ready? && s1.threads[w].place.job == j && s1.log == s.log
            && (Enabled(s1, Start(w)) || Enabled(s1, Grow(w, true)))
  {
    BeginDecides(s, w, j, true);
    hide Inv;
  }

  lemma GrowStep(s: State, w: ThreadId)
    requires Inv(s) && Enabled(s, Grow(w, true)) && s.threads[w].place.Ready?
    ensures var s1 := Step(s, Grow(w, true));
            && Enabled(s1, Start(w)) && w in s1.threads && s1.threads[w].place.Ready?
            && s1.threads[w].place.job == s.threads[w].place.job && s1.log == s.log
  {
    GrowAdds(s, w, true);
    hide Inv;
  }

  lemma NotDraining(s: State)
    requires Inv(s) && !s.exit
    ensures !s.draining
  {
  }

  lemma StartStep(s: State, w: ThreadId, j: Job)
    requires Enabled(s, Start(w)) && w in s.threads && s.threads[w].place.Ready? && s.threads[w].place.job == j
    ensures var s1 := Step(s, Start(w));
            s1.log.started == s.log.started + [j] && w in s1.threads && s1.threads[w].place == Running(j)
  {
  }

  /** Only kill's draining holds a worker up.  One that fails before the call loses its task and
      leaves; one that has called the function goes on or leaves; one that looks for tasks may stop. */
  lemma WorkerSteps(s: State, w: ThreadId, leave: bool)
    requires w in s.threads
    ensures s.threads[w].place.Got? ==> (Enabled(s, Begin(w)) <==> !s.draining)
    ensures s.threads[w].place.Ended? ==> (Enabled(s, Acknowledge(w)) <==> !s.draining)
    ensures s.threads[w].place.Leaving? ==> (Enabled(s, Retire(w, leave)) <==> !s.draining)
    ensures s.threads[w].place.Ready? ==>
              Enabled(s, Abort(w)) && var s1 := Step(s, Abort(w));
              && s1.threads == s.threads[w := s.threads[w].(place := Ended(true, true))]
              && s1.log == s.log.(dropped := s.log.dropped + {s.threads[w].place.job})
    ensures s.threads[w].place.Running? ==>
              Enabled(s, Finish(w, leave))
              && Step(s, Finish(w, leave)) == s.(threads := s.threads[w := s.threads[w].(place := Ended(true, leave))])
    ensures s.threads[w].place.Polling? ==>
              Enabled(s, Quit(w)) && Step(s, Quit(w)) == s.(threads := s.threads[w := s.threads[w].(place := Leaving)])
  {
  }

  // ---- A worker leaves ----

  /** A worker whose item is acknowledged goes on, or leaves if it is to; a worker that leaves is
      replaced exactly if the pool is not stopped and has items queued. */
  lemma AcknowledgeReturns(s: State, w: ThreadId)
    requires Inv(s) && Enabled(s, Acknowledge(w))
    ensures var s1 := Step(s, Acknowledge(w));
            s1.threads == s.threads[w := s.threads[w].(place := if s.threads[w].place.leave then Leaving else Polling)]
  {
  }

  lemma RetireReplaces(s: State, w: ThreadId, ok: bool)
    requires Inv(s) && Enabled(s, Retire(w, ok)) && w in s.threads
    ensures var s1 := Step(s, Retire(w, ok));
            && w !in s1.threads && s1.queue == s.queue && s1.log == s.log
            && |s1.threads| == |s.threads| - 1
               + (if ok && !s.exit && s.queue != [] && |s.threads| - 1 < s.maxWorkers then 1 else 0)
  {
    hide *;
    WorkersAre(s);
    GoneIs(s, w);
    RetireIs(s, w, ok);
    var s1 := Gone(s, w);
    JoinedSame(s1);
    MoreWorkers(s1, 1, None, if ok then 1 else 0);
    JoinedKeeps(s1, AddMany(s1, 1, None, if ok then 1 else 0).0);
    OneOf(ok, s1);
    NewIsNotOld(s1, w, 1, if ok then 1 else 0);
  }

  lemma GoneIs(s: State, w: ThreadId)
    requires w in s.threads && s.workers == |s.threads| && Numbered(s)
    ensures var s1 := Gone(s, w);
            && |s1.threads| == |s.threads| - 1 && s1.workers == |s1.threads| && w !in s1.threads && w < s1.nextThread
            && s1.maxWorkers == s.maxWorkers && s1.queue == s.queue && s1.log == s.log && Numbered(s1)
  {
  }

  lemma RetireIs(s: State, w: ThreadId, ok: bool)
    requires Enabled(s, Retire(w, ok)) && w in s.threads
    ensures var s1, s2 := Gone(s, w), Step(s, Retire(w, ok));
            var s3 := if !s.exit && s.queue != [] then AddMany(s1, 1, None, if ok then 1 else 0).0 else s1;
            && s2.threads == s3.threads && s2.queue == s3.queue && s2.log == s3.log && s2.workers == s3.workers
            && s2.exit == s3.exit && s2.draining == s3.draining
  {
    hide AddMany;
  }

  lemma JoinedKeeps(s: State, s1: State)
    ensures Joined(s, s1) ==> s1.queue == s.queue && s1.log == s.log
  {
  }

  lemma NewIsNotOld(s: State, w: ThreadId, n: nat, started: nat)
    requires w !in s.threads && w < s.nextThread && n == 1
    ensures w !in AddMany(s, n, None, started).0.threads
  {
    assert started > 0 && s.workers < s.maxWorkers ==>
      AddMany(s, n, None, started) == AddMany(AddOne(s, None, true), 0, None, started - 1);
  }

  // ---- Stopping the pool ----

  /** killall() stops the pool, takes the queued items one by one, whatever their order, cancelling
      and acknowledging them, and ends when there are none. */
  lemma KillSteps(s: State, i: nat)
    requires Inv(s)
    ensures Enabled(s, KillBegin) <==> !s.draining
    ensures !s.draining ==> Step(s, KillBegin) == s.(exit := true, draining := true)
    ensures Enabled(s, DrainOne(i)) <==> s.draining && i < |s.queue|
    ensures s.draining && i < |s.queue| ==>
              var s1 := Step(s, DrainOne(i));
              && s1.queue == s.queue[..i] + s.queue[i + 1..] && s1.unfinished == s.unfinished - 1
              && s1.log.started == s.log.started && s1.log.dropped == s.log.dropped
              && forall j: Job :: j in s1.log.cancelled <==> j in s.log.cancelled || s.queue[i] == Task(j)
    ensures Enabled(s, KillEnd) <==> s.draining && s.queue == []
    ensures s.draining && s.queue == [] ==> Step(s, KillEnd) == s.(draining := false, drained := true)
  {
    CountersAre(s);
    hide Inv;
  }

  lemma CountersAre(s: State)
    requires Inv(s)
    ensures s.unfinished == |s.queue| + |HoldingThreads(s.threads)|
  {
  }

  lemma MaximumSet(s: State, nb: nat)
    ensures Enabled(s, SetMax(nb)) <==> nb >= 1 && !s.draining
    ensures nb >= 1 && !s.draining ==> Step(s, SetMax(nb)) == s.(maxWorkers := nb)
  {
  }
}
