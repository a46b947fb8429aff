/**
  The worker pool of workerpool.py.

  One event is one stay under count_lock, one queue operation, or one step of a worker's own
  code.  killall's draining loop holds count_lock while the workers, who take from the queue
  without that lock, go on; so it is several events.  Deadlines, expiry, thread starts that
  fail and exceptions are choices of the event.
 */
module WorkerPools {
  import opened Wrappers

  type Job = nat
  type WorkerId = nat
  type ThreadId = nat

  datatype Item = Task(job: Job) | Exit

  /** Where a worker thread is in WorkerThread.run. */
  datatype Place =
    | Polling                             // the loop test and tasks.get
    | Got(item: Item)                     // taken from the queue, before count_lock
    | Ready(job: Job, grow: bool)         // counted as working, callable not yet called
    | Running(job: Job)
    | Ended(counted: bool, leave: bool)   // before the acknowledgement
    | Leaving                             // out of the loop, before the last count_lock

  datatype Worker = Worker(xid: WorkerId, place: Place)

  /** The pool's fields, the worker threads, and what has happened to the accepted tasks. */
  datatype State = State(
    queue: seq<Item>,
    unfinished: nat,
    workers: nat,
    working: nat,
    maxWorkers: nat,
    idList: seq<WorkerId>,
    nextId: WorkerId,
    exit: bool,
    killEvent: bool,
    draining: bool,                       // killall holds count_lock and empties the queue
    drained: bool,                        // some killall has emptied the queue
    threads: map<ThreadId, Worker>,
    nextThread: ThreadId,
    log: Log,
    replacementFailed: bool,              // a retiring worker could not start its replacement
    explicitId: bool,                     // some caller passed xid
    peak: nat)                            // the most workers there have been

  /** What became of the accepted tasks, which are 0 .. accepted-1. */
  datatype Log = Log(
    accepted: nat,
    started: seq<Job>,                    // calls of the target, in order
    cancelled: set<Job>,
    dropped: set<Job>)                    // lost to an error between count_lock and the call

  function Initial(maxWorkers: nat): State {
    State([], 0, 0, 0, maxWorkers, [], 1, false, true, false, false, map[], 0, Log(0, [], {}, {}), false, false, 0)
  }

  datatype Event =
    | AddWorkers(nb: nat, xid: Option<WorkerId>, started: nat)
    | Submit(capacity: Option<nat>, startOk: bool)
    | PutExit(capacity: Option<nat>)
    | SetMax(nb: nat)
    | KillBegin
    | DrainOne(index: nat)
    | KillEnd
    | Quit(thread: ThreadId)              // exit seen, expired, or its task limit reached
    | Take(thread: ThreadId, index: nat)
    | Begin(thread: ThreadId)
    | Grow(thread: ThreadId, startOk: bool)
    | Abort(thread: ThreadId)             // an error before the call
    | Start(thread: ThreadId)
    | Finish(thread: ThreadId, leave: bool)
    | Acknowledge(thread: ThreadId)
    | Retire(thread: ThreadId, startOk: bool)

  // ---- Pieces ----

  function Max(a: nat, b: nat): nat { if a < b then b else a }
  function Min(a: nat, b: nat): nat { if a < b then a else b }
  function Pred(n: nat): nat { if n == 0 then 0 else n - 1 }

  function RemoveAt<T>(s: seq<T>, i: nat): seq<T>
    requires i < |s|
  {
    s[..i] + s[i + 1..]
  }

  function PickId(s: State, xid: Option<WorkerId>): WorkerId {
    if xid.Some? then xid.value else if s.idList != [] then s.idList[0] else s.nextId
  }

  /** One worker: its id, the counters, the start, and the rollback if the start fails. */
  function AddOne(s: State, xid: Option<WorkerId>, ok: bool): State {
    var id := PickId(s, xid);
    var spare := if xid.None? && s.idList != [] then s.idList[1..] else s.idList;
    s.(workers := if ok then s.workers + 1 else s.workers,
       killEvent := !ok && s.workers == 0,
       threads := if ok then s.threads[s.nextThread := Worker(id, Polling)] else s.threads,
       nextThread := if ok then s.nextThread + 1 else s.nextThread,
       idList := if ok then spare else spare + [id],
       nextId := if xid.None? && s.idList == [] then s.nextId + 1 else s.nextId,
       peak := Max(s.peak, s.workers + 1),
       explicitId := s.explicitId || xid.Some?)
  }

  /** The loop of add: at most n workers, never above the maximum; the first `started` starts
      succeed.  The Boolean says that a start failed. */
  function AddMany(s: State, n: nat, xid: Option<WorkerId>, started: nat): (State, bool)
    decreases n
  {
    if n == 0 || s.workers >= s.maxWorkers then (s, false)
    else if started == 0 then (AddOne(s, xid, false), true)
    else AddMany(AddOne(s, xid, true), n - 1, None, started - 1)
  }

  predicate Room(s: State, capacity: Option<nat>) {
    capacity.Some? ==> |s.queue| < capacity.value
  }

  function Put(s: State, item: Item): State {
    s.(queue := s.queue + [item], unfinished := s.unfinished + 1)
  }

  function DoAdd(s: State, nb: nat, xid: Option<WorkerId>, started: nat): State {
    if s.exit then s else AddMany(s, Min(Max(1, nb), s.maxWorkers), xid, started).0
  }

  /** One turn of _put for a task. */
  function DoSubmit(s: State, capacity: Option<nat>, startOk: bool): State {
    if s.exit then s
    else
      var (s1, failed) := if s.workers == 0 then AddMany(s, 1, None, if startOk then 1 else 0) else (s, false);
      if failed || !Room(s1, capacity) then s1
      else Put(s1, Task(s1.log.accepted)).(log := s1.log.(accepted := s1.log.accepted + 1))
  }

  /** One turn of _put for an exit request. */
  function DoPutExit(s: State, capacity: Option<nat>): State {
    if s.exit || !Room(s, capacity) then s else Put(s, Exit)
  }

  function Cancelling(log: Log, item: Item): Log {
    if item.Task? then log.(cancelled := log.cancelled + {item.job}) else log
  }

  function DoDrainOne(s: State, i: nat): State
    requires i < |s.queue|
  {
    s.(queue := RemoveAt(s.queue, i), unfinished := Pred(s.unfinished), log := Cancelling(s.log, s.queue[i]))
  }

  function Move(s: State, w: ThreadId, place: Place): State
    requires w in s.threads
  {
    s.(threads := s.threads[w := s.threads[w].(place := place)])
  }

  function DoTake(s: State, w: ThreadId, i: nat): State
    requires w in s.threads && i < |s.queue|
  {
    Move(s.(queue := RemoveAt(s.queue, i)), w, Got(s.queue[i]))
  }

  function DoBegin(s: State, w: ThreadId): State
    requires w in s.threads && s.threads[w].place.Got?
  {
    var item := s.threads[w].place.item;
    if s.exit || item.Exit? then Move(s.(log := Cancelling(s.log, item)), w, Ended(false, true))
    else
      var busy := s.working + 1;
      var grow := (s.queue != [] || busy >= s.workers) && s.workers < s.maxWorkers;
      Move(s.(working := busy), w, Ready(item.job, grow))
  }

  function DoGrow(s: State, w: ThreadId, startOk: bool): State
    requires w in s.threads && s.threads[w].place.Ready?
  {
    var s1 := Move(s, w, Ready(s.threads[w].place.job, false));
    if s.exit then s1 else AddMany(s1, 1, None, if startOk then 1 else 0).0
  }

  function DoAbort(s: State, w: ThreadId): State
    requires w in s.threads && s.threads[w].place.Ready?
  {
    Move(s.(log := s.log.(dropped := s.log.dropped + {s.threads[w].place.job})), w, Ended(true, true))
  }

  function DoStart(s: State, w: ThreadId): State
    requires w in s.threads && s.threads[w].place.Ready?
  {
    var j := s.threads[w].place.job;
    Move(s.(log := s.log.(started := s.log.started + [j])), w, Running(j))
  }

  function DoAcknowledge(s: State, w: ThreadId): State
    requires w in s.threads && s.threads[w].place.Ended?
  {
    var p := s.threads[w].place;
    Move(s.(working := if p.counted then Pred(s.working) else s.working, unfinished := Pred(s.unfinished)),
         w, if p.leave then Leaving else Polling)
  }

  function Gone(s: State, w: ThreadId): State
    requires w in s.threads
  {
    s.(workers := Pred(s.workers), idList := s.idList + [s.threads[w].xid], threads := s.threads - {w})
  }

  function DoRetire(s: State, w: ThreadId, startOk: bool): State
    requires w in s.threads
  {
    var s1 := Gone(s, w);
    var (s2, failed) :=
      if !s.exit && s.queue != [] then AddMany(s1, 1, None, if startOk then 1 else 0) else (s1, false);
    s2.(killEvent := s2.killEvent || s2.workers == 0, replacementFailed := s2.replacementFailed || failed)
  }

  predicate At(s: State, e: Event)
    requires e.Quit? || e.Take? || e.Begin? || e.Grow? || e.Abort? || e.Start? || e.Finish? || e.Acknowledge?
      || e.Retire?
  {
    e.thread in s.threads &&
    var p := s.threads[e.thread].place;
    match e
    case Quit(_) => p.Polling?
    case Take(_, i) => p.Polling? && i < |s.queue|
    case Begin(_) => p.Got? && !s.draining
    case Grow(_, _) => p.Ready? && p.grow && !s.draining
    case Abort(_) => p.Ready?
    case Start(_) => p.Ready? && !p.grow
    case Finish(_, _) => p.Running?
    case Acknowledge(_) => p.Ended? && !s.draining
    case Retire(_, _) => p.Leaving? && !s.draining
  }

  /** Events under count_lock cannot happen while killall holds it. */
  predicate Enabled(s: State, e: Event) {
    match e
    case DrainOne(i) => s.draining && i < |s.queue|
    case KillEnd => s.draining && s.queue == []
    case SetMax(nb) => nb >= 1 && !s.draining
    case KillBegin => !s.draining
    case AddWorkers(_, _, _) => !s.draining
    case Submit(_, _) => !s.draining
    case PutExit(_) => !s.draining
    case _ => At(s, e)
  }

  function Step(s: State, e: Event): State
    requires Enabled(s, e)
  {
    match e
    case AddWorkers(nb, xid, started) => DoAdd(s, nb, xid, started)
    case Submit(capacity, startOk) => DoSubmit(s, capacity, startOk)
    case PutExit(capacity) => DoPutExit(s, capacity)
    case SetMax(nb) => s.(maxWorkers := nb)
    case KillBegin => s.(exit := true, draining := true)
    case DrainOne(i) => DoDrainOne(s, i)
    case KillEnd => s.(draining := false, drained := true)
    case Quit(w) => Move(s, w, Leaving)
    case Take(w, i) => DoTake(s, w, i)
    case Begin(w) => DoBegin(s, w)
    case Grow(w, startOk) => DoGrow(s, w, startOk)
    case Abort(w) => DoAbort(s, w)
    case Start(w) => DoStart(s, w)
    case Finish(w, leave) => Move(s, w, Ended(true, leave))
    case Acknowledge(w) => DoAcknowledge(s, w)
    case Retire(w, startOk) => DoRetire(s, w, startOk)
  }

  predicate Run(s: State, es: seq<Event>)
    decreases es
  {
    es == [] || (Enabled(s, es[0]) && Run(Step(s, es[0]), es[1..]))
  }

  function After(s: State, es: seq<Event>): State
    requires Run(s, es)
    decreases es
  {
    if es == [] then s else After(Step(s, es[0]), es[1..])
  }

  // ---- The invariant: the counters ----

  predicate Holding(p: Place) { !p.Polling? && !p.Leaving? }

  predicate Counted(p: Place) { p.Ready? || p.Running? || (p.Ended? && p.counted) }

  ghost function HoldingThreads(threads: map<ThreadId, Worker>): set<ThreadId> {
    set w | w in threads && Holding(threads[w].place)
  }

  ghost function CountedThreads(threads: map<ThreadId, Worker>): set<ThreadId> {
    set w | w in threads && Counted(threads[w].place)
  }

  /** workers counts the live threads, working those executing, unfinished the queued items
      and those taken and not yet acknowledged. */
  ghost predicate Counters(workers: nat, working: nat, unfinished: nat, queued: nat, threads: map<ThreadId, Worker>) {
    && workers == |threads|
    && working == |CountedThreads(threads)|
    && unfinished == queued + |HoldingThreads(threads)|
  }

  // ---- The invariant: the tasks ----

  predicate Unstarted(p: Place, j: Job) {
    p == Got(Task(j)) || (p.Ready? && p.job == j)
  }

  ghost predicate HeldBy(threads: map<ThreadId, Worker>, j: Job, w: ThreadId) {
    w in threads && Unstarted(threads[w].place, j)
  }

  ghost predicate Held(threads: map<ThreadId, Worker>, j: Job) {
    exists w :: HeldBy(threads, j, w)
  }

  predicate Over(log: Log, j: Job) {
    j in log.started || j in log.cancelled || j in log.dropped
  }

  /** Every accepted task is in exactly one place: queued, held by one worker, called once,
      cancelled or dropped. */
  ghost predicate Tasks(queue: seq<Item>, threads: map<ThreadId, Worker>, log: Log) {
    && (forall i, k :: 0 <= i < k < |queue| && queue[i] == queue[k] ==> queue[i].Exit?)
    && (forall i, k :: 0 <= i < k < |log.started| ==> log.started[i] != log.started[k])
    && (forall j: Job :: Task(j) in queue ==> j < log.accepted && !Over(log, j))
    && (forall j: Job, w :: HeldBy(threads, j, w) ==> j < log.accepted && !Over(log, j) && Task(j) !in queue)
    && (forall j, w, v :: HeldBy(threads, j, w) && HeldBy(threads, j, v) ==> w == v)
    && (forall j: Job :: Over(log, j) ==> j < log.accepted)
    && (forall j :: j in log.started ==> j !in log.cancelled && j !in log.dropped)
    && log.cancelled !! log.dropped
    && (forall j: Job :: j < log.accepted ==> Task(j) in queue || Held(threads, j) || Over(log, j))
  }

  // ---- The invariant: the ids ----

  ghost predicate Ids(threads: map<ThreadId, Worker>, idList: seq<WorkerId>, nextId: WorkerId) {
    && (forall w, v :: w in threads && v in threads && w != v ==> threads[w].xid != threads[v].xid)
    && (forall i, k :: 0 <= i < k < |idList| ==> idList[i] != idList[k])
    && (forall w :: w in threads ==> threads[w].xid !in idList)
    && (forall x :: x in idList ==> 1 <= x < nextId)
    && (forall w :: w in threads ==> 1 <= threads[w].xid < nextId)
    && |threads| + |idList| + 1 == nextId
  }

  ghost predicate SomeTask(queue: seq<Item>) {
    exists j: Job :: Task(j) in queue
  }

  /** The invariant without what concerns the kill event and the last worker. */
  ghost predicate Core(s: State) {
    && s.maxWorkers >= 1
    && (forall w :: w in s.threads ==> w < s.nextThread)
    && Counters(s.workers, s.working, s.unfinished, |s.queue|, s.threads)
    && Tasks(s.queue, s.threads, s.log)
    && (s.draining ==> s.exit)
    && (s.exit && !s.draining ==> s.drained)
    && (s.drained ==> s.exit && s.queue == [])
    && (s.log.cancelled != {} ==> s.exit)
    && (!s.explicitId ==> Ids(s.threads, s.idList, s.nextId) && s.peak + 1 == s.nextId)
  }

  ghost predicate Inv(s: State) {
    && Core(s)
    && (s.killEvent <==> s.workers == 0)
    && (!s.exit && !s.replacementFailed && SomeTask(s.queue) ==> s.workers > 0)
  }

  // ---- Counting threads ----

  lemma CountedChange(threads: map<ThreadId, Worker>, w: ThreadId, v: Worker)
    requires w !in threads
    ensures |CountedThreads(threads[w := v])| == |CountedThreads(threads)| + (if Counted(v.place) then 1 else 0)
  {
    var before, after := CountedThreads(threads), CountedThreads(threads[w := v]);
    if Counted(v.place) {
      assert after == before + {w};
    } else {
      assert after == before;
    }
  }

  lemma HoldingChange(threads: map<ThreadId, Worker>, w: ThreadId, v: Worker)
    requires w !in threads
    ensures |HoldingThreads(threads[w := v])| == |HoldingThreads(threads)| + (if Holding(v.place) then 1 else 0)
  {
    var before, after := HoldingThreads(threads), HoldingThreads(threads[w := v]);
    if Holding(v.place) {
      assert after == before + {w};
    } else {
      assert after == before;
    }
  }

  lemma CountChange(threads: map<ThreadId, Worker>, w: ThreadId, v: Worker)
    requires w !in threads
    ensures |CountedThreads(threads[w := v])| == |CountedThreads(threads)| + (if Counted(v.place) then 1 else 0)
    ensures |HoldingThreads(threads[w := v])| == |HoldingThreads(threads)| + (if Holding(v.place) then 1 else 0)
    ensures |threads[w := v]| == |threads| + 1
  {
    CountedChange(threads, w, v);
    HoldingChange(threads, w, v);
  }

  lemma CountMove(threads: map<ThreadId, Worker>, w: ThreadId, v: Worker)
    requires w in threads
    ensures |CountedThreads(threads[w := v])| == |CountedThreads(threads)|
      + (if Counted(v.place) then 1 else 0) - (if Counted(threads[w].place) then 1 else 0)
    ensures |HoldingThreads(threads[w := v])| == |HoldingThreads(threads)|
      + (if Holding(v.place) then 1 else 0) - (if Holding(threads[w].place) then 1 else 0)
    ensures |threads[w := v]| == |threads|
  {
    var rest := threads - {w};
    CountChange(rest, w, threads[w]);
    CountChange(rest, w, v);
    assert rest[w := threads[w]] == threads;
    assert rest[w := v] == threads[w := v];
  }

  lemma CountLess(threads: map<ThreadId, Worker>, w: ThreadId)
    requires w in threads && !Counted(threads[w].place) && !Holding(threads[w].place)
    ensures |CountedThreads(threads - {w})| == |CountedThreads(threads)|
    ensures |HoldingThreads(threads - {w})| == |HoldingThreads(threads)|
    ensures |threads - {w}| == |threads| - 1
  {
    var rest := threads - {w};
    CountChange(rest, w, threads[w]);
    assert rest[w := threads[w]] == threads;
  }

  // ---- Moving tasks ----

  /** Nobody's holdings change. */
  lemma TasksSameHolders(queue: seq<Item>, threads: map<ThreadId, Worker>, threads1: map<ThreadId, Worker>, log: Log)
    requires Tasks(queue, threads, log)
    requires forall j: Job, w :: HeldBy(threads1, j, w) <==> HeldBy(threads, j, w)
    ensures Tasks(queue, threads1, log)
  {
  }

  lemma TasksAccept(queue: seq<Item>, threads: map<ThreadId, Worker>, log: Log)
    requires Tasks(queue, threads, log)
    ensures Tasks(queue + [Task(log.accepted)], threads, log.(accepted := log.accepted + 1))
  {
    var queue1, log1 := queue + [Task(log.accepted)], log.(accepted := log.accepted + 1);
    assert forall j: Job :: Task(j) in queue1 <==> Task(j) in queue || j == log.accepted;
    assert forall j: Job :: Over(log1, j) <==> Over(log, j);
    assert queue1[|queue|] == Task(log.accepted);
  }

  lemma TasksExit(queue: seq<Item>, threads: map<ThreadId, Worker>, log: Log)
    requires Tasks(queue, threads, log)
    ensures Tasks(queue + [Exit], threads, log)
  {
  }

  lemma TasksTake(queue: seq<Item>, i: nat, threads: map<ThreadId, Worker>, w: ThreadId, v: Worker, log: Log)
    requires Tasks(queue, threads, log) && i < |queue| && w in threads
    requires !Holding(threads[w].place) && v.place == Got(queue[i])
    ensures Tasks(RemoveAt(queue, i), threads[w := v], log)
  {
    var threads1, item := threads[w := v], queue[i];
    assert forall j: Job, u :: HeldBy(threads1, j, u) <==> HeldBy(threads, j, u) || (u == w && item == Task(j));
    assert item in queue;
    forall j: Job | j < log.accepted ensures Task(j) in RemoveAt(queue, i) || Held(threads1, j) || Over(log, j) {
      if item == Task(j) {
        assert HeldBy(threads1, j, w);
      } else if Held(threads, j) {
        var u :| HeldBy(threads, j, u);
        assert HeldBy(threads1, j, u);
      }
    }
  }

  lemma TasksDrain(queue: seq<Item>, i: nat, threads: map<ThreadId, Worker>, log: Log)
    requires Tasks(queue, threads, log) && i < |queue|
    ensures Tasks(RemoveAt(queue, i), threads, Cancelling(log, queue[i]))
  {
    var queue1, item, log1 := RemoveAt(queue, i), queue[i], Cancelling(log, queue[i]);
    assert forall k :: 0 <= k < |queue1| ==> queue1[k] == queue[if k < i then k else k + 1];
    forall j: Job ensures Task(j) in queue <==> Task(j) in queue1 || item == Task(j) {
      if k :| 0 <= k < |queue| && queue[k] == Task(j) && k != i {
        assert queue1[if k < i then k else k - 1] == Task(j);
      }
    }
    assert item.Task? ==> item !in queue1;
    assert forall j: Job :: Over(log1, j) <==> Over(log, j) || item == Task(j);
  }

  /** A worker lets go of the task it holds, which is over in the new log. */
  lemma TasksLetGo(queue: seq<Item>, threads: map<ThreadId, Worker>, w: ThreadId, v: Worker, log: Log, log1: Log,
                   j: Job)
    requires Tasks(queue, threads, log) && HeldBy(threads, j, w)
    requires forall i :: !Unstarted(v.place, i)
    requires log1 == log.(cancelled := log.cancelled + {j}) || log1 == log.(dropped := log.dropped + {j})
          || log1 == log.(started := log.started + [j])
    ensures Tasks(queue, threads[w := v], log1)
  {
    var threads1 := threads[w := v];
    assert forall i: Job :: Over(log1, i) <==> Over(log, i) || i == j;
    assert forall i: Job :: Unstarted(threads[w].place, i) ==> i == j;
    forall i: Job, u ensures HeldBy(threads1, i, u) <==> HeldBy(threads, i, u) && i != j {
      if u != w && HeldBy(threads, i, u) { assert HeldBy(threads, j, w); }
    }
    forall i: Job | i < log.accepted ensures Task(i) in queue || Held(threads1, i) || Over(log1, i) {
      if i != j && Held(threads, i) {
        var u :| HeldBy(threads, i, u);
        assert HeldBy(threads1, i, u);
      }
    }
  }

  // ---- Each event keeps the invariant ----

  lemma AddOneKeeps(s: State, xid: Option<WorkerId>, ok: bool)
    requires Core(s)
    ensures Core(AddOne(s, xid, ok))
    ensures AddOne(s, xid, ok).killEvent <==> AddOne(s, xid, ok).workers == 0
    ensures AddOne(s, xid, ok).workers == s.workers + (if ok then 1 else 0)
    ensures Untouched(s, AddOne(s, xid, ok))
  {
    var s1 := AddOne(s, xid, ok);
    if ok {
      CountChange(s.threads, s.nextThread, s1.threads[s.nextThread]);
      TasksSameHolders(s.queue, s.threads, s1.threads, s.log);
    }
    if !s1.explicitId {
      IdsAdded(s, ok);
    }
  }

  ghost predicate MoreThreads(threads: map<ThreadId, Worker>, threads1: map<ThreadId, Worker>) {
    && (forall w :: w in threads ==> w in threads1 && threads1[w] == threads[w])
    && (forall w :: w in threads1 ==> w in threads || threads1[w].place == Polling)
  }

  /** What adding workers leaves alone. */
  ghost predicate Untouched(s: State, s1: State) {
    && s1.queue == s.queue && s1.exit == s.exit && s1.draining == s.draining && s1.drained == s.drained
    && s1.maxWorkers == s.maxWorkers
    && s1.replacementFailed == s.replacementFailed && s1.log == s.log && s1.working == s.working
    && s1.unfinished == s.unfinished
    && MoreThreads(s.threads, s1.threads)
  }

  lemma IdsReused(threads: map<ThreadId, Worker>, idList: seq<WorkerId>, nextId: WorkerId, w: ThreadId)
    requires Ids(threads, idList, nextId) && idList != [] && w !in threads
    ensures Ids(threads[w := Worker(idList[0], Polling)], idList[1..], nextId)
    ensures Ids(threads, idList[1..] + [idList[0]], nextId)
  {
    var head, tail := idList[0], idList[1..];
    assert idList == [head] + tail;
    assert forall i :: 0 <= i < |tail| ==> tail[i] == idList[i + 1];
    assert forall x :: x in idList <==> x == head || x in tail;
    assert head !in tail;
    assert |threads[w := Worker(head, Polling)]| == |threads| + 1;
    assert forall x :: x in tail + [head] <==> x in idList;
  }

  lemma IdsCreated(threads: map<ThreadId, Worker>, nextId: WorkerId, w: ThreadId)
    requires Ids(threads, [], nextId) && w !in threads
    ensures Ids(threads[w := Worker(nextId, Polling)], [], nextId + 1)
    ensures Ids(threads, [nextId], nextId + 1)
  {
  }

  lemma IdsAdded(s: State, ok: bool)
    requires Core(s) && !s.explicitId
    ensures var s1 := AddOne(s, None, ok); Ids(s1.threads, s1.idList, s1.nextId) && s1.peak + 1 == s1.nextId
  {
    if s.idList != [] {
      IdsReused(s.threads, s.idList, s.nextId, s.nextThread);
    } else {
      IdsCreated(s.threads, s.nextId, s.nextThread);
      assert [] + [s.nextId] == [s.nextId];
    }
  }

  lemma UntouchedTransitive(a: State, b: State, c: State)
    requires Untouched(a, b) && Untouched(b, c)
    ensures Untouched(a, c)
  {
  }

  ghost predicate Added(s: State, s1: State, n: nat, failed: bool) {
    && Core(s1) && Untouched(s, s1)
    && s.workers <= s1.workers <= Max(s.workers, s.maxWorkers)
    && (if n == 0 || s.workers >= s.maxWorkers then s1 == s && !failed
        else (s1.killEvent <==> s1.workers == 0) && (failed || s1.workers > 0))
  }

  lemma AddedAfter(s: State, s1: State, s2: State, n: nat, failed: bool)
    requires s.workers < s.maxWorkers && Core(s1) && Untouched(s, s1) && s1.workers == s.workers + 1
    requires s1.killEvent <==> s1.workers == 0
    requires Added(s1, s2, n, failed)
    ensures Added(s, s2, n + 1, failed)
  {
    UntouchedTransitive(s, s1, s2);
  }

  lemma {:induction false} AddManyKeeps(s: State, n: nat, xid: Option<WorkerId>, started: nat)
    requires Core(s)
    ensures Added(s, AddMany(s, n, xid, started).0, n, AddMany(s, n, xid, started).1)
    decreases n
  {
    hide Core;
    if n == 0 || s.workers >= s.maxWorkers {
    } else if started == 0 {
      AddOneKeeps(s, xid, false);
    } else {
      var s1 := AddOne(s, xid, true);
      AddOneKeeps(s, xid, true);
      AddManyKeeps(s1, n - 1, None, started - 1);
      AddedAfter(s, s1, AddMany(s1, n - 1, None, started - 1).0, n - 1, AddMany(s1, n - 1, None, started - 1).1);
    }
  }

  lemma AcceptKeeps(s: State)
    requires Inv(s) && s.workers > 0 && !s.exit
    ensures Inv(Put(s, Task(s.log.accepted)).(log := s.log.(accepted := s.log.accepted + 1)))
  {
    TasksAccept(s.queue, s.threads, s.log);
  }

  lemma SomeWorkerKeeps(s: State, startOk: bool)
    requires Inv(s) && s.workers == 0
    ensures var (s1, failed) := AddMany(s, 1, None, if startOk then 1 else 0);
            Inv(s1) && (failed || s1.workers > 0) && s1.exit == s.exit
  {
    AddManyKeeps(s, 1, None, if startOk then 1 else 0);
  }

  lemma SubmitKeeps(s: State, capacity: Option<nat>, startOk: bool)
    requires Inv(s) && !s.draining
    ensures Inv(DoSubmit(s, capacity, startOk))
  {
    hide Inv;
    if s.exit { return; }
    if s.workers > 0 {
      AcceptKeeps(s);
    } else {
      SomeWorkerKeeps(s, startOk);
      var (s1, failed) := AddMany(s, 1, None, if startOk then 1 else 0);
      if !failed { AcceptKeeps(s1); }
    }
  }

  lemma PutExitKeeps(s: State, capacity: Option<nat>)
    requires Inv(s) && !s.draining
    ensures Inv(DoPutExit(s, capacity))
  {
    TasksExit(s.queue, s.threads, s.log);
    assert SomeTask(s.queue + [Exit]) ==> SomeTask(s.queue) by {
      if SomeTask(s.queue + [Exit]) {
        var j: Job :| Task(j) in s.queue + [Exit];
        assert Task(j) in s.queue;
      }
    }
  }

  lemma DrainOneKeeps(s: State, i: nat)
    requires Inv(s) && s.draining && i < |s.queue|
    ensures Inv(DoDrainOne(s, i))
  {
    TasksDrain(s.queue, i, s.threads, s.log);
  }

  lemma IdsMoved(threads: map<ThreadId, Worker>, idList: seq<WorkerId>, nextId: WorkerId, w: ThreadId, v: Worker)
    requires Ids(threads, idList, nextId) && w in threads && v.xid == threads[w].xid
    ensures Ids(threads[w := v], idList, nextId)
  {
  }

  lemma TakeKeeps(s: State, w: ThreadId, i: nat)
    requires Inv(s) && w in s.threads && s.threads[w].place.Polling? && i < |s.queue|
    ensures Inv(DoTake(s, w, i))
  {
    var v := s.threads[w].(place := Got(s.queue[i]));
    CountMove(s.threads, w, v);
    TasksTake(s.queue, i, s.threads, w, v, s.log);
    if !s.explicitId { IdsMoved(s.threads, s.idList, s.nextId, w, v); }
    assert s.workers > 0;
  }

  /** A worker moves on, holding and counting for what it did before, or less. */
  lemma MoveKeeps(s: State, w: ThreadId, place: Place)
    requires Inv(s) && w in s.threads
    requires Holding(place) == Holding(s.threads[w].place) && Counted(place) == Counted(s.threads[w].place)
    requires forall j: Job :: Unstarted(place, j) <==> Unstarted(s.threads[w].place, j)
    ensures Inv(Move(s, w, place))
  {
    var v := s.threads[w].(place := place);
    CountMove(s.threads, w, v);
    TasksSameHolders(s.queue, s.threads, s.threads[w := v], s.log);
    if !s.explicitId { IdsMoved(s.threads, s.idList, s.nextId, w, v); }
  }

  predicate GivesUp(s: State, w: ThreadId) {
    w in s.threads && s.threads[w].place.Got? && (s.exit || s.threads[w].place.item.Exit?)
  }

  lemma CancelTasks(s: State, w: ThreadId)
    requires Tasks(s.queue, s.threads, s.log) && GivesUp(s, w)
    ensures Tasks(s.queue, DoBegin(s, w).threads, DoBegin(s, w).log)
  {
    var item, s1 := s.threads[w].place.item, DoBegin(s, w);
    var v := s.threads[w].(place := Ended(false, true));
    assert s1.threads == s.threads[w := v];
    if item.Task? {
      assert HeldBy(s.threads, item.job, w);
      hide Tasks;
      TasksLetGo(s.queue, s.threads, w, v, s.log, s1.log, item.job);
    } else {
      hide Tasks;
      TasksSameHolders(s.queue, s.threads, s1.threads, s.log);
    }
  }

  lemma CancelKeeps(s: State, w: ThreadId)
    requires Inv(s) && GivesUp(s, w)
    ensures Inv(DoBegin(s, w))
  {
    var v, s1 := s.threads[w].(place := Ended(false, true)), DoBegin(s, w);
    CancelTasks(s, w);
    hide Tasks;
    if !s.explicitId { IdsMoved(s.threads, s.idList, s.nextId, w, v); }
    hide Ids;
    CountMove(s.threads, w, v);
    assert Counters(s1.workers, s1.working, s1.unfinished, |s1.queue|, s1.threads);
    hide Counters;
    hide GivesUp;
  }

  lemma BeginKeeps(s: State, w: ThreadId)
    requires Inv(s) && w in s.threads && s.threads[w].place.Got?
    ensures Inv(DoBegin(s, w))
  {
    if s.exit || s.threads[w].place.item.Exit? {
      CancelKeeps(s, w);
    } else {
      var s1 := DoBegin(s, w);
      var v := s1.threads[w];
      CountMove(s.threads, w, v);
      TasksSameHolders(s.queue, s.threads, s.threads[w := v], s.log);
      if !s.explicitId { IdsMoved(s.threads, s.idList, s.nextId, w, v); }
    }
  }

  lemma GrowKeeps(s: State, w: ThreadId, startOk: bool)
    requires Inv(s) && w in s.threads && s.threads[w].place.Ready?
    ensures Inv(DoGrow(s, w, startOk))
  {
    var s1 := Move(s, w, Ready(s.threads[w].place.job, false));
    MoveKeeps(s, w, Ready(s.threads[w].place.job, false));
    AddManyKeeps(s1, 1, None, if startOk then 1 else 0);
  }

  lemma LetGoKeeps(s: State, w: ThreadId, place: Place, log1: Log, j: Job)
    requires Inv(s) && w in s.threads && HeldBy(s.threads, j, w) && s.threads[w].place.Ready?
    requires Holding(place) && Counted(place) && forall i :: !Unstarted(place, i)
    requires log1 == s.log.(dropped := s.log.dropped + {j}) || log1 == s.log.(started := s.log.started + [j])
    ensures Inv(Move(s.(log := log1), w, place))
  {
    var v := s.threads[w].(place := place);
    CountMove(s.threads, w, v);
    if !s.explicitId { IdsMoved(s.threads, s.idList, s.nextId, w, v); }
    TasksLetGo(s.queue, s.threads, w, v, s.log, log1, j);
  }

  lemma AcknowledgeKeeps(s: State, w: ThreadId)
    requires Inv(s) && w in s.threads && s.threads[w].place.Ended?
    ensures Inv(DoAcknowledge(s, w))
  {
    var v := DoAcknowledge(s, w).threads[w];
    CountMove(s.threads, w, v);
    TasksSameHolders(s.queue, s.threads, s.threads[w := v], s.log);
    if !s.explicitId { IdsMoved(s.threads, s.idList, s.nextId, w, v); }
  }

  lemma IdsReturned(threads: map<ThreadId, Worker>, idList: seq<WorkerId>, nextId: WorkerId, w: ThreadId)
    requires Ids(threads, idList, nextId) && w in threads
    ensures Ids(threads - {w}, idList + [threads[w].xid], nextId)
  {
  }

  lemma GoneKeeps(s: State, w: ThreadId)
    requires Inv(s) && w in s.threads && s.threads[w].place.Leaving?
    ensures Core(Gone(s, w))
  {
    CountLess(s.threads, w);
    TasksSameHolders(s.queue, s.threads, s.threads - {w}, s.log);
    if !s.explicitId { IdsReturned(s.threads, s.idList, s.nextId, w); }
  }

  lemma RetireKeeps(s: State, w: ThreadId, startOk: bool)
    requires Inv(s) && w in s.threads && s.threads[w].place.Leaving?
    ensures Inv(DoRetire(s, w, startOk))
  {
    var s1 := Gone(s, w);
    GoneKeeps(s, w);
    AddManyKeeps(s1, 1, None, if startOk then 1 else 0);
    assert !s.killEvent;
    assert SomeTask(s.queue) ==> s.queue != [];
  }

  lemma FlagsKeep(s: State, e: Event)
    requires Inv(s) && Enabled(s, e) && (e.SetMax? || e.KillBegin? || e.KillEnd?)
    ensures Inv(Step(s, e))
  {
  }

  lemma AddWorkersKeeps(s: State, nb: nat, xid: Option<WorkerId>, started: nat)
    requires Inv(s)
    ensures Inv(DoAdd(s, nb, xid, started))
  {
    AddManyKeeps(s, Min(Max(1, nb), s.maxWorkers), xid, started);
  }

  lemma WorkerKeepsInv(s: State, e: Event)
    requires Inv(s) && Enabled(s, e)
    requires e.Quit? || e.Abort? || e.Start? || e.Finish?
    ensures Inv(Step(s, e))
  {
    var w := e.thread;
    match e
    case Quit(_) => MoveKeeps(s, w, Leaving);
    case Abort(_) => LetGoKeeps(s, w, Ended(true, true), DoAbort(s, w).log, s.threads[w].place.job);
    case Start(_) => LetGoKeeps(s, w, Running(s.threads[w].place.job), DoStart(s, w).log, s.threads[w].place.job);
    case Finish(_, leave) => MoveKeeps(s, w, Ended(true, leave));
  }

  lemma StepKeepsInv(s: State, e: Event)
    requires Inv(s) && Enabled(s, e)
    ensures Inv(Step(s, e))
  {
    hide Inv;
    match e
    case AddWorkers(nb, xid, started) => AddWorkersKeeps(s, nb, xid, started);
    case Submit(capacity, startOk) => SubmitKeeps(s, capacity, startOk);
    case PutExit(capacity) => PutExitKeeps(s, capacity);
    case DrainOne(i) => DrainOneKeeps(s, i);
    case Take(w, i) => TakeKeeps(s, w, i);
    case Begin(w) => BeginKeeps(s, w);
    case Grow(w, startOk) => GrowKeeps(s, w, startOk);
    case Acknowledge(w) => AcknowledgeKeeps(s, w);
    case Retire(w, startOk) => RetireKeeps(s, w, startOk);
    case SetMax(_) => FlagsKeep(s, e);
    case KillBegin => FlagsKeep(s, e);
    case KillEnd => FlagsKeep(s, e);
    case _ => WorkerKeepsInv(s, e);
  }

  lemma {:induction false} RunKeepsInv(s: State, es: seq<Event>)
    requires Inv(s) && Run(s, es)
    ensures Inv(After(s, es))
    decreases es
  {
    if es != [] {
      StepKeepsInv(s, es[0]);
      RunKeepsInv(Step(s, es[0]), es[1..]);
    }
  }

  lemma Reachable(maxWorkers: nat, es: seq<Event>)
    requires maxWorkers >= 1 && Run(Initial(maxWorkers), es)
    ensures Inv(After(Initial(maxWorkers), es))
  {
    RunKeepsInv(Initial(maxWorkers), es);
  }

  // ---- What becomes of a task ----

  /** Every accepted task is in exactly one of the five places, and was called at most once;
      it can have been cancelled only once the pool is stopped. */
  lemma TaskConservation(s: State, j: Job)
    requires Inv(s) && j < s.log.accepted
    ensures (if Task(j) in s.queue then 1 else 0) + (if Held(s.threads, j) then 1 else 0)
      + multiset(s.log.started)[j] + (if j in s.log.cancelled then 1 else 0)
      + (if j in s.log.dropped then 1 else 0) == 1
    ensures multiset(s.queue)[Task(j)] <= 1
    ensures j in s.log.cancelled ==> s.exit
    ensures Task(j) in s.queue && !s.exit && !s.replacementFailed ==> s.workers > 0
  {
    OnceInSeq(s.log.started, j);
    OnceInSeq(s.queue, Task(j));
    if Held(s.threads, j) { var w :| HeldBy(s.threads, j, w); }
  }

  lemma {:induction false} OnceInSeq<T>(s: seq<T>, x: T)
    requires forall i, k :: 0 <= i < k < |s| && s[i] == s[k] ==> s[i] != x
    ensures multiset(s)[x] == if x in s then 1 else 0
  {
    if s != [] {
      var rest := s[1..];
      assert s == [s[0]] + rest;
      OnceInSeq(rest, x);
      if x in rest { var k :| 0 <= k < |rest| && rest[k] == x; assert s[0] != s[k + 1]; }
    }
  }

  lemma StepHistory(s: State, e: Event)
    requires Enabled(s, e)
    ensures s.log.accepted <= Step(s, e).log.accepted
    ensures s.log.started <= Step(s, e).log.started
    ensures s.log.cancelled <= Step(s, e).log.cancelled && s.log.dropped <= Step(s, e).log.dropped
  {
    match e
    case AddWorkers(nb, xid, started) => AddManyLog(s, Min(Max(1, nb), s.maxWorkers), xid, started);
    case Submit(_, ok) => AddManyLog(s, 1, None, if ok then 1 else 0);
    case Grow(w, ok) => AddManyLog(Move(s, w, Ready(s.threads[w].place.job, false)), 1, None, if ok then 1 else 0);
    case Retire(w, ok) =>
      AddManyLog(Gone(s, w),
                 1, None, if ok then 1 else 0);
    case _ =>
  }

  lemma {:induction false} AddManyLog(s: State, n: nat, xid: Option<WorkerId>, started: nat)
    ensures AddMany(s, n, xid, started).0.log == s.log
    decreases n
  {
    if n > 0 && s.workers < s.maxWorkers && started > 0 {
      AddManyLog(AddOne(s, xid, true), n - 1, None, started - 1);
    }
  }

  /** What has happened to a task stays so: calls, cancellations and losses are never undone. */
  lemma {:induction false} HistoryGrows(s: State, es: seq<Event>)
    requires Run(s, es)
    ensures s.log.started <= After(s, es).log.started
    ensures s.log.cancelled <= After(s, es).log.cancelled && s.log.dropped <= After(s, es).log.dropped
    decreases es
  {
    if es != [] {
      StepHistory(s, es[0]);
      HistoryGrows(Step(s, es[0]), es[1..]);
    }
  }

  // ---- Lost tasks ----

  predicate NoAbort(es: seq<Event>) { forall i :: 0 <= i < |es| ==> !es[i].Abort? }

  /** The tasks whose worker had an error before the call. */
  function AbortedJobs(s: State, es: seq<Event>): set<Job>
    requires Run(s, es)
    decreases es
  {
    if es == [] then {}
    else (if es[0].Abort? then {s.threads[es[0].thread].place.job} else {}) + AbortedJobs(Step(s, es[0]), es[1..])
  }

  lemma DroppedStep(s: State, e: Event)
    requires Enabled(s, e)
    ensures Step(s, e).log.dropped == s.log.dropped + if e.Abort? then {s.threads[e.thread].place.job} else {}
  {
    match e
    case AddWorkers(nb, xid, started) => AddManyLog(s, Min(Max(1, nb), s.maxWorkers), xid, started);
    case Submit(_, ok) => AddManyLog(s, 1, None, if ok then 1 else 0);
    case Grow(w, ok) => AddManyLog(Move(s, w, Ready(s.threads[w].place.job, false)), 1, None, if ok then 1 else 0);
    case Retire(w, ok) =>
      AddManyLog(Gone(s, w),
                 1, None, if ok then 1 else 0);
    case _ =>
  }

  /** A task is dropped by exactly the error of the worker that was about to call it. */
  lemma {:induction false} DroppedIsAborted(s: State, es: seq<Event>)
    requires Run(s, es)
    ensures After(s, es).log.dropped == s.log.dropped + AbortedJobs(s, es)
    decreases es
  {
    if es != [] {
      DroppedStep(s, es[0]);
      DroppedIsAborted(Step(s, es[0]), es[1..]);
    }
  }

  lemma AbortIsNew(s: State, e: Event)
    requires Inv(s) && Enabled(s, e) && e.Abort?
    ensures s.threads[e.thread].place.job !in s.log.dropped
  {
    assert HeldBy(s.threads, s.threads[e.thread].place.job, e.thread);
  }

  /** Over any run no task is lost exactly when no worker has an error before its call. */
  lemma {:induction false} NothingLostIff(s: State, es: seq<Event>)
    requires Inv(s) && Run(s, es)
    ensures After(s, es).log.dropped == s.log.dropped <==> NoAbort(es)
    decreases es
  {
    hide Inv;
    hide Step;
    if es != [] {
      var e, s1 := es[0], Step(s, es[0]);
      StepKeepsInv(s, e);
      DroppedStep(s, e);
      NothingLostIff(s1, es[1..]);
      if e.Abort? {
        AbortIsNew(s, e);
        HistoryGrows(s1, es[1..]);
      } else {
        assert es == [e] + es[1..];
      }
    }
  }

  /** The task is in exactly one of four places: queued, held, called or cancelled. */
  ghost predicate InOneOfFour(s: State, j: Job) {
    (if Task(j) in s.queue then 1 else 0) + (if Held(s.threads, j) then 1 else 0)
    + multiset(s.log.started)[j] + (if j in s.log.cancelled then 1 else 0) == 1
  }

  lemma FourOrDropped(s: State, j: Job)
    requires Inv(s) && j < s.log.accepted
    ensures InOneOfFour(s, j) <==> j !in s.log.dropped
  {
    hide Inv;
    hide Held;
    TaskConservation(s, j);
  }

  lemma DroppedWasAccepted(s: State)
    requires Inv(s)
    ensures forall j :: j in s.log.dropped ==> j < s.log.accepted
  {
    assert forall j :: j in s.log.dropped ==> Over(s.log, j);
  }

  /** In every run from the start, all accepted tasks are in one of the four places exactly
      when no worker has had an error before its call. */
  lemma FourPlacesIff(maxWorkers: nat, es: seq<Event>)
    requires maxWorkers >= 1 && Run(Initial(maxWorkers), es)
    ensures var s := After(Initial(maxWorkers), es);
            (forall j: Job :: j < s.log.accepted ==> InOneOfFour(s, j)) <==> NoAbort(es)
  {
    assert Inv(Initial(maxWorkers));
    hide Inv;
    hide Run;
    hide After;
    var s := After(Initial(maxWorkers), es);
    Reachable(maxWorkers, es);
    NothingLostIff(Initial(maxWorkers), es);
    forall j: Job | j < s.log.accepted ensures InOneOfFour(s, j) <==> j !in s.log.dropped { FourOrDropped(s, j); }
    hide InOneOfFour;
    DroppedWasAccepted(s);
  }

  lemma {:induction false} RunsOn(s: State, es: seq<Event>, e: Event)
    requires Run(s, es) && Enabled(After(s, es), e)
    ensures Run(s, es + [e]) && After(s, es + [e]) == Step(After(s, es), e)
    decreases es
  {
    hide Enabled;
    hide Step;
    if es == [] {
      assert [] + [e] == [e] && [e][1..] == [];
      assert Run(s, [e]) && After(s, [e]) == After(Step(s, e), []);
    } else {
      assert (es + [e])[1..] == es[1..] + [e];
      RunsOn(Step(s, es[0]), es[1..], e);
    }
  }

  /** A pool of one worker, which is at the given place with the first task. */
  function OneWorker(queue: seq<Item>, working: nat, place: Place): State {
    State(queue, 1, 1, working, 1, [], 2, false, false, false, false, map[0 := Worker(1, place)], 1,
          Log(1, [], {}, {}), false, false, 1)
  }

  const FIRST_CALL := [Submit(None, true)] + [Take(0, 0)] + [Begin(0)]

  lemma FirstSubmit()
    ensures Step(Initial(1), Submit(None, true)) == OneWorker([Task(0)], 0, Polling)
  {
    var s := Initial(1);
    assert AddMany(s, 1, None, 1) == AddMany(AddOne(s, None, true), 0, None, 0);
    assert AddOne(s, None, true).threads == map[0 := Worker(1, Polling)];
    assert [] + [Task(0)] == [Task(0)];
  }

  /** A worker about to call the first task. */
  lemma FirstCall()
    ensures Run(Initial(1), FIRST_CALL) && After(Initial(1), FIRST_CALL) == OneWorker([], 1, Ready(0, false))
  {
    FirstSubmit();
    RunsOn(Initial(1), [], Submit(None, true));
    assert [] + [Submit(None, true)] == [Submit(None, true)];
    RunsOn(Initial(1), [Submit(None, true)], Take(0, 0));
    var s := OneWorker([Task(0)], 0, Polling);
    assert DoTake(s, 0, 0) == OneWorker([], 0, Got(Task(0)));
    assert DoBegin(OneWorker([], 0, Got(Task(0))), 0) == OneWorker([], 1, Ready(0, false));
    RunsOn(Initial(1), [Submit(None, true)] + [Take(0, 0)], Begin(0));
  }

  /** A run in which a task is lost. */
  lemma LostTask()
    ensures var es := FIRST_CALL + [Abort(0)];
            Run(Initial(1), es) && After(Initial(1), es).log == Log(1, [], {}, {0})
  {
    FirstCall();
    RunsOn(Initial(1), FIRST_CALL, Abort(0));
  }

  // ---- Queued tasks without a worker ----

  /** A task is queued in a pool that is not stopped and has no worker. */
  ghost predicate Unserved(s: State) { !s.exit && SomeTask(s.queue) && s.workers == 0 }

  /** The last worker retires with a task queued and its replacement does not start. */
  ghost predicate Strands(s: State, e: Event) {
    e.Retire? && !e.startOk && !s.exit && s.workers == 1 && SomeTask(s.queue)
  }

  /** A worker starts, or the pool is stopped. */
  predicate Revives(s: State, e: Event)
    requires Enabled(s, e)
  {
    e.KillBegin? || Step(s, e).nextThread > s.nextThread
  }

  ghost predicate NoRevival(s: State, es: seq<Event>)
    requires Run(s, es)
    decreases es
  {
    es == [] || (!Revives(s, es[0]) && NoRevival(Step(s, es[0]), es[1..]))
  }

  /** At some point of the run the last worker is lost, and nothing is started from then on. */
  ghost predicate StrandedSince(s: State, es: seq<Event>)
    requires Run(s, es)
    decreases es
  {
    es != [] &&
    var s1 := Step(s, es[0]);
    (Strands(s, es[0]) && NoRevival(s1, es[1..])) || StrandedSince(s1, es[1..])
  }

  lemma {:induction false} AddManyStarts(s: State, n: nat, xid: Option<WorkerId>, started: nat)
    ensures var s1 := AddMany(s, n, xid, started).0;
            s1.workers - s.workers == s1.nextThread - s.nextThread >= 0 && s1.queue == s.queue && s1.exit == s.exit
    decreases n
  {
    if n > 0 && s.workers < s.maxWorkers && started > 0 {
      AddManyStarts(AddOne(s, xid, true), n - 1, None, started - 1);
    }
  }

  lemma SubmitStrands(s: State, e: Event)
    requires Inv(s) && Enabled(s, e) && e.Submit?
    ensures Unserved(Step(s, e)) <==> Unserved(s) && !Revives(s, e)
  {
    var n := if e.startOk then 1 else 0;
    AddManyStarts(s, 1, None, n);
    assert s.workers == 0 ==> AddMany(s, 1, None, n) == (AddOne(s, None, e.startOk), !e.startOk);
    hide AddMany;
    hide Core;
  }

  lemma RetireStrands(s: State, e: Event)
    requires Inv(s) && Enabled(s, e) && e.Retire?
    ensures !Unserved(s) && (Unserved(Step(s, e)) <==> Strands(s, e))
  {
    var s1, n := Gone(s, e.thread), if e.startOk then 1 else 0;
    AddManyStarts(s1, 1, None, n);
    assert s.workers == 1 ==> AddMany(s1, 1, None, n) == (AddOne(s1, None, e.startOk), !e.startOk);
    assert SomeTask(s.queue) ==> s.queue != [];
    hide AddMany;
  }

  lemma PutExitStrands(s: State, e: Event)
    requires Inv(s) && Enabled(s, e) && e.PutExit?
    ensures Unserved(Step(s, e)) <==> Unserved(s)
  {
    assert forall j: Job :: Task(j) in s.queue + [Exit] <==> Task(j) in s.queue;
  }

  lemma WorkerServes(s: State, e: Event)
    requires Inv(s) && Enabled(s, e)
      && (e.Quit? || e.Take? || e.Begin? || e.Abort? || e.Start? || e.Finish? || e.Acknowledge?)
    ensures !Unserved(s) && !Unserved(Step(s, e))
  {
    assert s.workers == |s.threads| && e.thread in s.threads;
    hide Inv;
    hide SomeTask;
  }

  lemma GrowServes(s: State, e: Event)
    requires Inv(s) && Enabled(s, e) && e.Grow?
    ensures !Unserved(s) && !Unserved(Step(s, e))
  {
    assert s.workers == |s.threads| && e.thread in s.threads;
    hide Inv;
    hide SomeTask;
    hide AddMany;
    AddManyStarts(Move(s, e.thread, Ready(s.threads[e.thread].place.job, false)), 1, None, if e.startOk then 1 else 0);
  }

  lemma StrandedStep(s: State, e: Event)
    requires Inv(s) && Enabled(s, e)
    ensures Unserved(Step(s, e)) <==> Strands(s, e) || (Unserved(s) && !Revives(s, e))
  {
    match e
    case Submit(_, _) => SubmitStrands(s, e);
    case PutExit(_) => PutExitStrands(s, e);
    case Retire(_, _) => RetireStrands(s, e);
    case Grow(_, _) => GrowServes(s, e);
    case AddWorkers(nb, xid, started) =>
      AddManyStarts(s, Min(Max(1, nb), s.maxWorkers), xid, started);
      hide AddMany;
    case SetMax(_) =>
    case KillBegin =>
    case DrainOne(_) =>
    case KillEnd =>
    case _ => WorkerServes(s, e);
  }

  lemma {:induction false} StrandedAfter(s: State, es: seq<Event>)
    requires Inv(s) && Run(s, es)
    ensures Unserved(After(s, es)) <==> (Unserved(s) && NoRevival(s, es)) || StrandedSince(s, es)
    decreases es
  {
    hide Inv;
    hide Unserved;
    hide Strands;
    hide Revives;
    hide Step;
    hide Enabled;
    if es != [] {
      StepKeepsInv(s, es[0]);
      StrandedStep(s, es[0]);
      StrandedAfter(Step(s, es[0]), es[1..]);
    }
  }

  /** In a run from the start a task is queued without a worker, in a pool not stopped, exactly
      when the last worker could not be replaced and no worker has been started since. */
  lemma StrandedIff(maxWorkers: nat, es: seq<Event>)
    requires maxWorkers >= 1 && Run(Initial(maxWorkers), es)
    ensures Unserved(After(Initial(maxWorkers), es)) <==> StrandedSince(Initial(maxWorkers), es)
  {
    StrandedAfter(Initial(maxWorkers), es);
  }

  /** The worker of a queued task expires, and its replacement does not start. */
  lemma StrandedTask()
    ensures var es := [Submit(None, true)] + [Quit(0)] + [Retire(0, false)];
            Run(Initial(1), es) && Unserved(After(Initial(1), es))
  {
    FirstSubmit();
    var submit := Submit(None, true);
    RunsOn(Initial(1), [], submit);
    assert [] + [submit] == [submit];
    var s1 := OneWorker([Task(0)], 0, Polling);
    RunsOn(Initial(1), [submit], Quit(0));
    var s2 := OneWorker([Task(0)], 0, Leaving);
    assert Step(s1, Quit(0)).threads == s2.threads;
    RunsOn(Initial(1), [submit] + [Quit(0)], Retire(0, false));
    var s3 := Step(s2, Retire(0, false));
    assert s3.queue[0] == Task(0) && SomeTask(s3.queue);
  }

  // ---- Shutdown ----

  /** j was past the exit check, with its call still to come, in some worker of the pool. */
  ghost predicate Committed(threads: map<ThreadId, Worker>, j: Job) {
    exists w :: w in threads && threads[w].place.Ready? && threads[w].place.job == j
  }

  ghost predicate Stopped(s: State, s1: State) {
    && s1.exit && s1.threads.Keys <= s.threads.Keys && s1.working <= s.working
    && (forall j :: Committed(s1.threads, j) ==> Committed(s.threads, j))
    && (forall j :: j in s1.log.started ==> j in s.log.started || Committed(s.threads, j))
    && (forall j :: j in s1.log.dropped ==> j in s.log.dropped || Committed(s.threads, j))
    && s1.log.accepted == s.log.accepted
    && (s.drained ==> s1.drained)
  }

  lemma StopMove(s: State, w: ThreadId, place: Place)
    requires w in s.threads && (place.Ready? ==> s.threads[w].place.Ready? && place.job == s.threads[w].place.job)
    ensures forall j :: Committed(Move(s, w, place).threads, j) ==> Committed(s.threads, j)
  {
  }

  lemma StopRetire(s: State, w: ThreadId, ok: bool)
    requires s.exit && w in s.threads
    ensures Stopped(s, DoRetire(s, w, ok))
  {
    hide AddMany;
    var s1 := DoRetire(s, w, ok);
    forall j | Committed(s1.threads, j) ensures Committed(s.threads, j) {
      var v :| v in s1.threads && s1.threads[v].place.Ready? && s1.threads[v].place.job == j;
      assert s.threads[v].place.job == j;
    }
  }

  lemma StopStep(s: State, e: Event)
    requires Inv(s) && Enabled(s, e) && s.exit
    ensures Stopped(s, Step(s, e))
  {
    hide Inv;
    hide AddMany;
    match e
    case Quit(w) => StopMove(s, w, Leaving);
    case Take(w, i) => StopMove(s, w, Got(s.queue[i]));
    case Begin(w) => StopMove(s, w, Ended(false, true));
    case Grow(w, _) => StopMove(s, w, Ready(s.threads[w].place.job, false));
    case Abort(w) => StopMove(s, w, Ended(true, true));
    case Start(w) =>
      StopMove(s, w, Running(s.threads[w].place.job));
      assert Committed(s.threads, s.threads[w].place.job);
    case Finish(w, leave) => StopMove(s, w, Ended(true, leave));
    case Acknowledge(w) => StopMove(s, w, DoAcknowledge(s, w).threads[w].place);
    case Retire(w, ok) => StopRetire(s, w, ok);
    case _ =>
  }

  /** Once the pool is stopped it accepts no task and adds no worker, no further worker passes
      the exit check, and after the drain the queue stays empty.  The only calls still to come
      are those of workers that had passed the check before. */
  lemma {:induction false} Shutdown(s: State, es: seq<Event>)
    requires Inv(s) && Run(s, es) && s.exit
    ensures Stopped(s, After(s, es))
    ensures s.drained ==> After(s, es).queue == []
    decreases es
  {
    RunKeepsInv(s, es);
    if es != [] {
      var s1 := Step(s, es[0]);
      StepKeepsInv(s, es[0]);
      StopStep(s, es[0]);
      Shutdown(s1, es[1..]);
    }
  }

  /** A run whose first task is called when killall has already emptied the queue. */
  lemma LateCall()
    ensures var es := FIRST_CALL + [KillBegin] + [KillEnd];
            && Run(Initial(1), es) && Run(Initial(1), es + [Start(0)])
            && After(Initial(1), es).exit && After(Initial(1), es).drained && After(Initial(1), es).log.started == []
            && After(Initial(1), es + [Start(0)]).log.started == [0]
  {
    FirstCall();
    RunsOn(Initial(1), FIRST_CALL, KillBegin);
    RunsOn(Initial(1), FIRST_CALL + [KillBegin], KillEnd);
    RunsOn(Initial(1), FIRST_CALL + [KillBegin] + [KillEnd], Start(0));
    assert [] + [0] == [0];
  }

  /** killall's loop can go on to its end whatever is queued. */
  lemma {:induction false} DrainEnds(s: State) returns (es: seq<Event>)
    requires s.draining
    ensures Run(s, es) && var s1 := After(s, es);
            !s1.draining && s1.exit == s.exit && s1.threads == s.threads && s1.log.started == s.log.started
    decreases |s.queue|
  {
    hide After;
    var e := if s.queue == [] then KillEnd else DrainOne(0);
    es := [];
    if s.queue != [] { es := DrainEnds(Step(s, e)); }
    RunsFirst(s, e, es);
    es := [e] + es;
  }

  lemma RunsFirst(s: State, e: Event, es: seq<Event>)
    requires Enabled(s, e) && Run(Step(s, e), es)
    ensures Run(s, [e] + es) && After(s, [e] + es) == After(Step(s, e), es)
    ensures After(Step(s, e), []) == Step(s, e)
  {
    assert ([e] + es)[1..] == es;
  }

  /** A call that is committed when the pool is stopped can still be made. */
  lemma CommittedCanStart(s: State, j: Job) returns (es: seq<Event>)
    requires s.exit && Committed(s.threads, j)
    ensures Run(s, es) && j in After(s, es).log.started
  {
    var w :| w in s.threads && s.threads[w].place.Ready? && s.threads[w].place.job == j;
    es := [];
    if s.draining { es := DrainEnds(s); }
    var s1 := After(s, es);
    if s1.threads[w].place.grow {
      RunsOn(s, es, Grow(w, true));
      es := es + [Grow(w, true)];
    }
    RunsOn(s, es, Start(w));
    es := es + [Start(w)];
  }

  /** Once the pool is stopped, a task can still be called exactly when its worker had passed
      the exit check and not called it. */
  lemma LateCallIff(s: State, j: Job)
    requires Inv(s) && s.exit
    ensures Committed(s.threads, j) <==> exists es :: Run(s, es) && j in After(s, es).log.started && j !in s.log.started
  {
    if Committed(s.threads, j) {
      var w :| w in s.threads && s.threads[w].place.Ready? && s.threads[w].place.job == j;
      assert HeldBy(s.threads, j, w);
      var es := CommittedCanStart(s, j);
      assert Run(s, es) && j in After(s, es).log.started && j !in s.log.started;
    }
    if es :| Run(s, es) && j in After(s, es).log.started && j !in s.log.started { Shutdown(s, es); }
  }

  ghost predicate StartsNothing(s: State, es: seq<Event>)
    requires Run(s, es)
  {
    After(s, es).log.started == s.log.started
  }

  /** From a stopped pool nothing is ever called exactly when no worker is between the exit
      check and its call. */
  lemma NoLateCallIff(s: State)
    requires Inv(s) && s.exit
    ensures (forall es :: Run(s, es) ==> StartsNothing(s, es))
      <==> forall w :: w in s.threads ==> !s.threads[w].place.Ready?
  {
    if w :| w in s.threads && s.threads[w].place.Ready? {
      var j := s.threads[w].place.job;
      assert Committed(s.threads, j) && HeldBy(s.threads, j, w);
      var es := CommittedCanStart(s, j);
      assert !StartsNothing(s, es);
    } else {
      forall es | Run(s, es) ensures StartsNothing(s, es) {
        RunKeepsInv(s, es);
        Shutdown(s, es);
        HistoryGrows(s, es);
        NothingNew(s.log.started, After(s, es).log.started, After(s, es));
      }
    }
  }

  /** A task that is queued when the pool is stopped, or taken and not yet past the check, is
      never called and never lost: it stays where it is or is cancelled. */
  lemma QueuedIsCancelled(s: State, es: seq<Event>, j: Job)
    requires Inv(s) && Run(s, es) && s.exit && j < s.log.accepted
    requires !Over(s.log, j) && !Committed(s.threads, j)
    ensures var s1 := After(s, es); j !in s1.log.started && j !in s1.log.dropped
    ensures var s1 := After(s, es); Task(j) in s1.queue || Held(s1.threads, j) || j in s1.log.cancelled
  {
    Shutdown(s, es);
    RunKeepsInv(s, es);
    StillSomewhere(After(s, es), j);
    hide Inv;
  }

  lemma StillSomewhere(s: State, j: Job)
    requires Inv(s) && j < s.log.accepted
    ensures Task(j) in s.queue || Held(s.threads, j) || Over(s.log, j)
  {
  }

  /** killall(None) returns once the drain is over and the event is set: from then on there is
      no worker, nothing is executing and nothing is unfinished, for ever. */
  lemma KillallIsFinal(s: State, es: seq<Event>)
    requires Inv(s) && Run(s, es) && s.drained && s.killEvent
    ensures var s1 := After(s, es);
            s1.workers == 0 && s1.working == 0 && s1.unfinished == 0 && s1.threads == map[] && s1.killEvent
    ensures After(s, es).log.started == s.log.started
  {
    RunKeepsInv(s, es);
    Shutdown(s, es);
    HistoryGrows(s, es);
    var s1 := After(s, es);
    assert s.threads == map[] && s1.threads == map[];
    assert CountedThreads(s1.threads) == {} && HoldingThreads(s1.threads) == {};
    NothingNew(s.log.started, s1.log.started, s1);
  }

  lemma NothingNew(a: seq<Job>, b: seq<Job>, s1: State)
    requires Inv(s1) && b == s1.log.started && a <= b && forall j :: j in b ==> j in a
    ensures a == b
  {
    assert forall k :: 0 <= k < |a| ==> a[k] == b[k];
    DistinctSize(a);
    DistinctSize(b);
    assert Elements(a) == Elements(b);
    assert b == b[..|a|];
  }

  // ---- Counters and ids ----

  /** killable(): nothing is queued and no worker has an unacknowledged item. */
  lemma Killable(s: State)
    requires Inv(s)
    ensures s.unfinished == 0 <==> s.queue == [] && forall w :: w in s.threads ==> !Holding(s.threads[w].place)
  {
    if HoldingThreads(s.threads) != {} {
      var w :| w in HoldingThreads(s.threads);
    } else {
      assert forall w :: w in s.threads && Holding(s.threads[w].place) ==> w in HoldingThreads(s.threads);
    }
  }

  ghost function LiveIds(threads: map<ThreadId, Worker>): set<WorkerId> {
    set w | w in threads :: threads[w].xid
  }

  /** {1, ..., k} */
  ghost function Range(k: nat): set<WorkerId> {
    if k == 0 then {} else Range(k - 1) + {k}
  }

  lemma {:induction false} RangeFacts(k: nat)
    ensures |Range(k)| == k
    ensures forall x: nat :: x in Range(k) <==> 1 <= x <= k
  {
    if k > 0 { RangeFacts(k - 1); }
  }

  lemma {:induction false} LiveIdsSize(threads: map<ThreadId, Worker>)
    requires forall w, v :: w in threads && v in threads && w != v ==> threads[w].xid != threads[v].xid
    ensures |LiveIds(threads)| == |threads|
    decreases |threads|
  {
    if threads == map[] {
      assert LiveIds(threads) == {};
    } else {
      var w :| w in threads;
      var rest := threads - {w};
      assert rest.Keys == threads.Keys - {w};
      LiveIdsSize(rest);
      forall x ensures x in LiveIds(threads) <==> x in LiveIds(rest) || x == threads[w].xid {
        if x in LiveIds(threads) {
          var v :| v in threads && threads[v].xid == x;
          assert v != w ==> v in rest && rest[v].xid == x;
        }
        if x in LiveIds(rest) {
          var v :| v in rest && rest[v].xid == x;
          assert threads[v].xid == x;
        }
      }
      assert LiveIds(threads) == LiveIds(rest) + {threads[w].xid};
      assert threads[w].xid !in LiveIds(rest);
    }
  }

  ghost function Elements<T>(s: seq<T>): set<T> { set x | x in s }

  lemma {:induction false} DistinctSize<T>(s: seq<T>)
    requires forall i, k :: 0 <= i < k < |s| ==> s[i] != s[k]
    ensures |Elements(s)| == |s|
  {
    if s != [] {
      DistinctSize(s[1..]);
      assert Elements(s) == Elements(s[1..]) + {s[0]};
    }
  }

  lemma SubsetOfSameSize<T>(a: set<T>, b: set<T>)
    requires a <= b && |a| == |b|
    ensures a == b
  {
    assert |b - a| == |b| - |a|;
    assert b == a + (b - a);
  }

  /** If no caller chose an id, the ids of the live workers and the returned ids are exactly
      1 .. k, each once, where k is the most workers the pool has had. */
  lemma IdsPartition(s: State)
    requires Inv(s) && !s.explicitId
    ensures LiveIds(s.threads) + Elements(s.idList) == Range(s.peak)
    ensures LiveIds(s.threads) !! Elements(s.idList)
    ensures |LiveIds(s.threads)| == s.workers
  {
    var live, spare := LiveIds(s.threads), Elements(s.idList);
    LiveIdsSize(s.threads);
    DistinctSize(s.idList);
    RangeFacts(s.peak);
    assert live !! spare;
    assert |live + spare| == |live| + |spare|;
    SubsetOfSameSize(live + spare, Range(s.peak));
  }

  // ---- Ids chosen by callers ----

  /** No id is shared by two live workers, returned twice, or both live and returned. */
  ghost predicate DistinctIds(s: State) {
    && (forall w, v :: w in s.threads && v in s.threads && w != v ==> s.threads[w].xid != s.threads[v].xid)
    && (forall i, k :: 0 <= i < k < |s.idList| ==> s.idList[i] != s.idList[k])
    && (forall w :: w in s.threads ==> s.threads[w].xid !in s.idList)
  }

  ghost predicate InUse(s: State, x: WorkerId) { x in LiveIds(s.threads) || x in s.idList }

  /** The counter is past every id in use. */
  ghost predicate BelowCounter(s: State) { forall x: WorkerId :: InUse(s, x) ==> x < s.nextId }

  ghost predicate FreshThreads(s: State) { forall w :: w in s.threads ==> w < s.nextThread }

  predicate NoXid(es: seq<Event>) { forall i :: 0 <= i < |es| && es[i].AddWorkers? ==> es[i].xid == None }

  /** Two workers with the id a caller chose twice. */
  lemma SharedId()
    ensures var es := [AddWorkers(1, Some(7), 1)] + [AddWorkers(1, Some(7), 1)];
            && Run(Initial(2), es)
            && After(Initial(2), es).threads == map[0 := Worker(7, Polling), 1 := Worker(7, Polling)]
  {
    var s, e := Initial(2), AddWorkers(1, Some(7), 1);
    AddsOne(s, Some(7));
    RunsOn(s, [], e);
    assert [] + [e] == [e];
    AddsOne(Step(s, e), Some(7));
    RunsOn(s, [e], e);
  }

  /** add() with room for a worker adds one. */
  lemma AddsOne(s: State, xid: Option<WorkerId>)
    requires !s.exit && !s.draining && s.workers < s.maxWorkers
    ensures Enabled(s, AddWorkers(1, xid, 1)) && Step(s, AddWorkers(1, xid, 1)) == AddOne(s, xid, true)
  {
    assert AddMany(s, 1, xid, 1) == AddMany(AddOne(s, xid, true), 0, None, 0);
  }

  /** A chosen id keeps the ids distinct exactly when it is not in use, whether or not the
      worker starts. */
  lemma ChosenIdIff(s: State, x: WorkerId, ok: bool)
    requires FreshThreads(s) && DistinctIds(s)
    ensures DistinctIds(AddOne(s, Some(x), ok)) <==> !InUse(s, x)
  {
    var s1 := AddOne(s, Some(x), ok);
    if ok {
      assert s1.threads[s.nextThread].xid == x;
      if w :| w in s.threads && s.threads[w].xid == x { assert s1.threads[w].xid == x && w != s.nextThread; }
    } else {
      assert s1.idList == s.idList + [x] && s1.idList[|s.idList|] == x;
      if x in s.idList { var i :| 0 <= i < |s.idList| && s.idList[i] == x; assert s1.idList[i] == x; }
    }
  }

  ghost predicate IdsFine(s: State) { FreshThreads(s) && DistinctIds(s) && BelowCounter(s) }

  lemma MoveIds(s: State, s1: State)
    requires s1.threads.Keys == s.threads.Keys && s1.idList == s.idList && s1.nextId == s.nextId
      && s1.nextThread == s.nextThread
    requires forall w :: w in s.threads ==> s1.threads[w].xid == s.threads[w].xid
    ensures IdsFine(s) ==> IdsFine(s1)
  {
    assert LiveIds(s1.threads) == LiveIds(s.threads);
    assert forall x: WorkerId :: InUse(s1, x) <==> InUse(s, x);
  }

  lemma NextIdIsFine(s: State, ok: bool)
    requires IdsFine(s)
    ensures IdsFine(AddOne(s, None, ok))
  {
    var s1, id := AddOne(s, None, ok), PickId(s, None);
    assert !InUse(s, s.nextId);
    if s.idList != [] {
      assert s.idList == [id] + s.idList[1..];
      assert id !in s.idList[1..] by { assert forall i :: 0 < i < |s.idList| ==> s.idList[i] != s.idList[0]; }
    }
    forall x: WorkerId | InUse(s1, x) ensures x < s1.nextId { assert InUse(s, x) || x == id; }
  }

  lemma {:induction false} NextIdsAreFine(s: State, n: nat, started: nat)
    requires IdsFine(s)
    ensures IdsFine(AddMany(s, n, None, started).0)
    decreases n
  {
    hide IdsFine;
    hide AddOne;
    if n > 0 && s.workers < s.maxWorkers {
      NextIdIsFine(s, started > 0);
      if started > 0 { NextIdsAreFine(AddOne(s, None, true), n - 1, started - 1); }
    }
  }

  lemma ReturnedIdIsFine(s: State, w: ThreadId)
    requires IdsFine(s) && w in s.threads
    ensures IdsFine(Gone(s, w))
  {
    var s1 := Gone(s, w);
    forall x: WorkerId | InUse(s1, x) ensures x < s1.nextId {
      assert s.threads[w].xid in LiveIds(s.threads);
      assert InUse(s, x);
    }
  }

  lemma SubmitIdsFine(s: State, capacity: Option<nat>, ok: bool)
    requires IdsFine(s)
    ensures IdsFine(DoSubmit(s, capacity, ok))
  {
    hide IdsFine;
    hide AddMany;
    hide Room;
    if s.exit { return; }
    var (s1, failed) := if s.workers == 0 then AddMany(s, 1, None, if ok then 1 else 0) else (s, false);
    if s.workers == 0 { NextIdsAreFine(s, 1, if ok then 1 else 0); }
    assert IdsFine(s1);
    if failed || !Room(s1, capacity) {
      assert DoSubmit(s, capacity, ok) == s1;
    } else {
      var s2 := Put(s1, Task(s1.log.accepted));
      MoveIds(s1, s2.(log := s1.log.(accepted := s1.log.accepted + 1)));
    }
  }

  lemma GrowIdsFine(s: State, w: ThreadId, ok: bool)
    requires IdsFine(s) && w in s.threads && s.threads[w].place.Ready?
    ensures IdsFine(DoGrow(s, w, ok))
  {
    hide IdsFine;
    hide AddMany;
    var s1 := Move(s, w, Ready(s.threads[w].place.job, false));
    MoveIds(s, s1);
    NextIdsAreFine(s1, 1, if ok then 1 else 0);
  }

  lemma RetireIdsFine(s: State, w: ThreadId, ok: bool)
    requires IdsFine(s) && w in s.threads
    ensures IdsFine(DoRetire(s, w, ok))
  {
    hide IdsFine;
    hide AddMany;
    ReturnedIdIsFine(s, w);
    NextIdsAreFine(Gone(s, w), 1, if ok then 1 else 0);
    var s1 := if !s.exit && s.queue != [] then AddMany(Gone(s, w), 1, None, if ok then 1 else 0).0 else Gone(s, w);
    MoveIds(s1, DoRetire(s, w, ok));
  }

  lemma BeginIdsFine(s: State, w: ThreadId)
    requires IdsFine(s) && w in s.threads && s.threads[w].place.Got?
    ensures IdsFine(DoBegin(s, w))
  {
    hide IdsFine;
    MoveIds(s, DoBegin(s, w));
  }

  lemma AcknowledgeIdsFine(s: State, w: ThreadId)
    requires IdsFine(s) && w in s.threads && s.threads[w].place.Ended?
    ensures IdsFine(DoAcknowledge(s, w))
  {
    hide IdsFine;
    MoveIds(s, DoAcknowledge(s, w));
  }

  lemma MoveIdsFine(s: State, e: Event)
    requires IdsFine(s) && Enabled(s, e) && (e.Quit? || e.Take? || e.Finish? || e.Abort? || e.Start?)
    ensures IdsFine(Step(s, e))
  {
    hide IdsFine;
    MoveIds(s, Step(s, e));
  }

  lemma IdsStayFine(s: State, e: Event)
    requires IdsFine(s) && Enabled(s, e) && (e.AddWorkers? ==> e.xid == None)
    ensures IdsFine(Step(s, e))
  {
    hide IdsFine;
    hide AddMany;
    hide DoBegin;
    hide DoAcknowledge;
    match e
    case AddWorkers(nb, _, started) => NextIdsAreFine(s, Min(Max(1, nb), s.maxWorkers), started);
    case Submit(capacity, ok) => SubmitIdsFine(s, capacity, ok);
    case PutExit(_) => MoveIds(s, Step(s, e));
    case SetMax(_) => MoveIds(s, Step(s, e));
    case KillBegin => MoveIds(s, Step(s, e));
    case DrainOne(i) => MoveIds(s, DoDrainOne(s, i));
    case KillEnd => MoveIds(s, Step(s, e));
    case Grow(w, ok) => GrowIdsFine(s, w, ok);
    case Retire(w, ok) => RetireIdsFine(s, w, ok);
    case Begin(w) => BeginIdsFine(s, w);
    case Acknowledge(w) => AcknowledgeIdsFine(s, w);
    case _ => MoveIdsFine(s, e);
  }

  lemma {:induction false} IdsStayFineForEver(s: State, es: seq<Event>)
    requires IdsFine(s) && Run(s, es) && NoXid(es)
    ensures IdsFine(After(s, es))
    decreases es
  {
    hide IdsFine;
    hide Step;
    if es != [] {
      IdsStayFine(s, es[0]);
      IdsStayFineForEver(Step(s, es[0]), es[1..]);
    }
  }

  /** An id in use that the counter has not reached is given out again when it does. */
  lemma {:induction false} CounterReaches(s: State, x: WorkerId) returns (es: seq<Event>)
    requires FreshThreads(s) && !s.exit && !s.draining && InUse(s, x) && s.nextId <= x
    requires s.workers + |s.idList| + (x - s.nextId) < s.maxWorkers
    ensures Run(s, es) && NoXid(es) && !DistinctIds(After(s, es))
    decreases |s.idList| + (x - s.nextId)
  {
    var e, s1 := AddWorkers(1, None, 1), AddOne(s, None, true);
    AddsOne(s, None);
    NewWorker(s);
    if s.idList == [] && s.nextId == x {
      es := [];
    } else {
      es := CounterReaches(s1, x);
    }
    RunsFirst(s, e, es);
    es := [e] + es;
  }

  lemma NewWorker(s: State)
    requires FreshThreads(s)
    ensures var s1 := AddOne(s, None, true);
            && FreshThreads(s1)
            && (forall x: WorkerId :: InUse(s, x) ==> InUse(s1, x))
            && (s.idList == [] && s.nextId in LiveIds(s.threads) ==> !DistinctIds(s1))
  {
    var s1 := AddOne(s, None, true);
    assert forall w :: w in s.threads ==> w != s.nextThread && s1.threads[w] == s.threads[w];
    assert s1.threads[s.nextThread].xid == PickId(s, None);
    forall x: WorkerId | InUse(s, x) ensures InUse(s1, x) {
      if x in s.idList { assert x == s.idList[0] || x in s.idList[1..]; }
      if w :| w in s.threads && s.threads[w].xid == x { assert s1.threads[w].xid == x; }
    }
    if s.nextId in LiveIds(s.threads) {
      var w :| w in s.threads && s.threads[w].xid == s.nextId;
      assert s1.threads[w].xid == s.nextId;
    }
  }

  /** If no further id is chosen, the ids of a running pool stay distinct for ever exactly when
      the counter is past every id in use. */
  lemma DistinctForEverIff(s: State)
    requires Inv(s) && DistinctIds(s) && !s.exit
    ensures BelowCounter(s) <==> forall es :: Run(s, es) && NoXid(es) ==> DistinctIds(After(s, es))
  {
    if BelowCounter(s) {
      forall es | Run(s, es) && NoXid(es) ensures DistinctIds(After(s, es)) { IdsStayFineForEver(s, es); }
    } else {
      var x: WorkerId :| InUse(s, x) && x >= s.nextId;
      var e := SetMax(s.workers + |s.idList| + (x - s.nextId) + 1);
      var s1 := Step(s, e);
      assert InUse(s1, x);
      var es := CounterReaches(s1, x);
      RunsFirst(s, e, es);
      assert Run(s, [e] + es) && NoXid([e] + es) && !DistinctIds(After(s, [e] + es));
    }
  }

  lemma IdsInUse(s: State)
    requires Inv(s) && !s.explicitId
    ensures forall y: WorkerId :: InUse(s, y) <==> 1 <= y < s.nextId
    ensures FreshThreads(s) && DistinctIds(s) && s.nextId >= 1
  {
    IdsPartition(s);
    RangeFacts(s.peak);
    hide Tasks;
    hide Counters;
    forall y: WorkerId ensures InUse(s, y) <==> 1 <= y < s.nextId {
      assert y in Range(s.peak) <==> 1 <= y <= s.peak;
      assert y in s.idList <==> y in (set k | k in s.idList);
    }
  }

  /** Where no id was chosen before, the only choice that can never collide is 0, an id the
      counter does not give out. */
  lemma OnlyZeroIsSafe(s: State, x: WorkerId, ok: bool)
    requires Inv(s) && !s.explicitId
    ensures var s1 := AddOne(s, Some(x), ok); DistinctIds(s1) && BelowCounter(s1) <==> x == 0
  {
    IdsInUse(s);
    hide Inv;
    ChosenIdIff(s, x, ok);
    ChosenInUse(s, x, ok);
    hide DistinctIds;
    hide InUse;
    if x == 0 { assert BelowCounter(AddOne(s, Some(x), ok)); }
  }

  lemma ChosenInUse(s: State, x: WorkerId, ok: bool)
    requires FreshThreads(s)
    ensures forall y: WorkerId :: InUse(AddOne(s, Some(x), ok), y) <==> InUse(s, y) || y == x
  {
    var s1 := AddOne(s, Some(x), ok);
    if ok {
      assert forall w :: w in s.threads ==> w != s.nextThread && s1.threads[w] == s.threads[w];
      assert s1.threads[s.nextThread].xid == x;
      forall y: WorkerId ensures y in LiveIds(s1.threads) <==> y in LiveIds(s.threads) || y == x {
        if w :| w in s.threads && s.threads[w].xid == y { assert s1.threads[w].xid == y; }
      }
    }
  }

  // ---- Bounds ----

  predicate NeverAbove(es: seq<Event>, bound: nat) {
    forall i :: 0 <= i < |es| && es[i].SetMax? ==> es[i].nb <= bound
  }

  lemma AddManyBound(s: State, n: nat, xid: Option<WorkerId>, started: nat)
    requires Core(s)
    ensures AddMany(s, n, xid, started).0.workers <= Max(s.workers, s.maxWorkers)
    ensures AddMany(s, n, xid, started).0.maxWorkers == s.maxWorkers
  {
    AddManyKeeps(s, n, xid, started);
  }

  lemma RetireBound(s: State, w: ThreadId, ok: bool)
    requires Inv(s) && w in s.threads && s.threads[w].place.Leaving?
    ensures DoRetire(s, w, ok).workers <= Max(s.workers, s.maxWorkers) && DoRetire(s, w, ok).maxWorkers == s.maxWorkers
  {
    hide Core;
    GoneKeeps(s, w);
    AddManyBound(Gone(s, w),
                 1, None, if ok then 1 else 0);
  }

  lemma GrowBound(s: State, w: ThreadId, ok: bool)
    requires Inv(s) && w in s.threads && s.threads[w].place.Ready?
    ensures DoGrow(s, w, ok).workers <= Max(s.workers, s.maxWorkers) && DoGrow(s, w, ok).maxWorkers == s.maxWorkers
  {
  }

  lemma SubmitBound(s: State, capacity: Option<nat>, ok: bool)
    requires Inv(s)
    ensures DoSubmit(s, capacity, ok).workers <= Max(s.workers, s.maxWorkers)
    ensures DoSubmit(s, capacity, ok).maxWorkers == s.maxWorkers
  {
  }

  lemma GrowthStep(s: State, e: Event)
    requires Inv(s) && Enabled(s, e)
    ensures Step(s, e).workers <= Max(s.workers, s.maxWorkers)
    ensures Step(s, e).maxWorkers == if e.SetMax? then e.nb else s.maxWorkers
  {
    hide Core;
    match e
    case AddWorkers(nb, xid, started) => AddManyBound(s, Min(Max(1, nb), s.maxWorkers), xid, started);
    case Submit(capacity, ok) => SubmitBound(s, capacity, ok);
    case Grow(w, ok) => GrowBound(s, w, ok);
    case Retire(w, ok) => RetireBound(s, w, ok);
    case _ =>
  }

  /** The pool never grows beyond the largest maximum it has been given. */
  lemma {:induction false} Bounded(s: State, es: seq<Event>, bound: nat)
    requires Inv(s) && Run(s, es) && s.workers <= bound && s.maxWorkers <= bound && NeverAbove(es, bound)
    ensures After(s, es).workers <= bound
    decreases es
  {
    if es != [] {
      StepKeepsInv(s, es[0]);
      GrowthStep(s, es[0]);
      Bounded(Step(s, es[0]), es[1..], bound);
    }
  }

  lemma InvFacts(s: State)
    requires Inv(s)
    ensures s.maxWorkers >= 1 && |s.queue| <= s.unfinished && s.workers == |s.threads|
    ensures s.threads != map[] ==> s.workers > 0
  {
  }

  /** The log when all the items have been cancelled. */
  function CancelAll(log: Log, items: seq<Item>): Log
    decreases |items|
  {
    if items == [] then log else CancelAll(Cancelling(log, items[0]), items[1..])
  }

  lemma {:induction false} CancelAllFacts(log: Log, items: seq<Item>)
    ensures var log1 := CancelAll(log, items);
            && log1.started == log.started && log1.dropped == log.dropped && log1.accepted == log.accepted
            && forall j :: j in log1.cancelled <==> j in log.cancelled || Task(j) in items
    decreases |items|
  {
    if items != [] {
      CancelAllFacts(Cancelling(log, items[0]), items[1..]);
      assert items == [items[0]] + items[1..];
    }
  }

  // ---- The pool object ----

  /** The pool's fields, with its worker threads and the record of what became of the tasks. */
  class WorkerPool {
    var tasks: seq<Item>
    var unfinished: nat
    var workers: nat
    var working: nat
    var maxWorkers: nat
    var idList: seq<WorkerId>
    var nextId: WorkerId
    var exit: bool
    var killEvent: bool
    var draining: bool
    var drained: bool
    var threads: map<ThreadId, Worker>
    var nextThread: ThreadId
    var log: Log
    var replacementFailed: bool
    var explicitId: bool
    var peak: nat

    ghost function View(): State
      reads this
    {
      State(tasks, unfinished, workers, working, maxWorkers, idList, nextId, exit, killEvent, draining, drained,
            threads, nextThread, log, replacementFailed, explicitId, peak)
    }

    constructor (max: nat)
      ensures View() == Initial(max)
    {
      tasks, unfinished, workers, working, maxWorkers, idList, nextId := [], 0, 0, 0, max, [], 1;
      exit, killEvent, draining, drained, threads, nextThread := false, true, false, false, map[], 0;
      log, replacementFailed, explicitId, peak := Log(0, [], {}, {}), false, false, 0;
    }

    method ChooseId(xid: Option<WorkerId>) returns (id: WorkerId)
      modifies this`explicitId, this`idList, this`nextId
      ensures id == PickId(old(View()), xid)
      ensures explicitId == (old(explicitId) || xid.Some?)
      ensures idList == if xid.None? && old(idList) != [] then old(idList)[1..] else old(idList)
      ensures nextId == if xid.None? && old(idList) == [] then old(nextId) + 1 else old(nextId)
    {
      if xid.Some? {
        id := xid.value;
        explicitId := true;
      } else if idList != [] {
        id := idList[0];
        idList := idList[1..];
      } else {
        id := nextId;
        nextId := nextId + 1;
      }
    }

    /** The counters, then a thread start or the rollback of its bookkeeping. */
    method Launch(id: WorkerId, ok: bool)
      modifies this`threads, this`nextThread, this`workers, this`idList, this`killEvent, this`peak
      ensures threads == if ok then old(threads)[old(nextThread) := Worker(id, Polling)] else old(threads)
      ensures nextThread == old(nextThread) + (if ok then 1 else 0)
      ensures workers == old(workers) + (if ok then 1 else 0) && peak == Max(old(peak), old(workers) + 1)
      ensures idList == if ok then old(idList) else old(idList) + [id]
      ensures killEvent == (!ok && workers == 0)
    {
      workers := workers + 1;
      peak := Max(peak, workers);
      killEvent := false;
      if ok {
        threads := threads[nextThread := Worker(id, Polling)];
        nextThread := nextThread + 1;
      } else {
        workers := workers - 1;
        idList := idList + [id];
        if workers == 0 {
          killEvent := true;
        }
      }
    }

    /** The body of add's loop: the Boolean says that the start failed and add raises. */
    method StartWorker(xid: Option<WorkerId>, ok: bool) returns (failed: bool)
      modifies this
      ensures View() == AddOne(old(View()), xid, ok) && failed == !ok
    {
      hide Max;
      var id := ChooseId(xid);
      Launch(id, ok);
      failed := !ok;
    }

    /** add(nb, xid=xid), of whose thread starts the first `started` succeed. */
    method Add(nb: nat, xid: Option<WorkerId>, started: nat) returns (raised: bool)
      modifies this
      ensures View() == DoAdd(old(View()), nb, xid, started)
      ensures old(exit) ==> raised
      ensures !old(exit) ==> raised == AddMany(old(View()), Min(Max(1, nb), old(maxWorkers)), xid, started).1
    {
      if exit { return true; }
      var given, left, good := xid, Min(Max(1, nb), maxWorkers), started;
      ghost var goal := AddMany(View(), left, given, good);
      while left > 0
        invariant AddMany(View(), left, given, good) == goal
        decreases left
      {
        if workers >= maxWorkers { break; }
        raised := StartWorker(given, good > 0);
        if raised { return; }
        given, left, good := None, left - 1, good - 1;
      }
      raised := false;
    }

    /** One turn of _put: true when the task has been accepted. */
    method PutTask(capacity: Option<nat>, startOk: bool) returns (accepted: bool)
      modifies this
      ensures View() == DoSubmit(old(View()), capacity, startOk)
      ensures accepted <==> log.accepted == old(log.accepted) + 1
    {
      if exit { return false; }
      ghost var was := View();
      var failed := false;
      if workers == 0 {
        AddManyLog(View(), 1, None, if startOk then 1 else 0);
        assert maxWorkers > 0 ==> Min(Max(1, 1), maxWorkers) == 1;
        failed := Add(1, None, if startOk then 1 else 0);
      }
      if failed || (capacity.Some? && |tasks| >= capacity.value) { return false; }
      tasks := tasks + [Task(log.accepted)];
      unfinished := unfinished + 1;
      log := log.(accepted := log.accepted + 1);
      return true;
    }

    /** One turn of _put for an exit request. */
    method PutExitToken(capacity: Option<nat>) returns (accepted: bool)
      modifies this`tasks, this`unfinished
      ensures View() == DoPutExit(old(View()), capacity)
      ensures accepted <==> |tasks| == |old(tasks)| + 1
    {
      if exit || (capacity.Some? && |tasks| >= capacity.value) { return false; }
      tasks := tasks + [Exit];
      unfinished := unfinished + 1;
      return true;
    }

    /** kill(nb) on an unbounded queue: one exit request per worker to go, none once stopped. */
    method Kill(nb: int)
      modifies this`tasks, this`unfinished
      ensures var n := if exit || nb <= 0 then 0 else if nb < workers then nb else workers;
              tasks == old(tasks) + seq(n, _ => Exit) && unfinished == old(unfinished) + n
    {
      var n, sent: nat := if nb < 0 then 0 else if nb < workers then nb else workers, 0;
      while sent < n
        invariant sent <= n && (exit ==> sent == 0)
        invariant tasks == old(tasks) + seq(sent, _ => Exit) && unfinished == old(unfinished) + sent
      {
        var accepted := PutExitToken(None);
        if !accepted { return; }
        sent := sent + 1;
      }
    }

    /** set_max_workers up to its kill: the workers above the new maximum, None for ValueError. */
    method SetMaxWorkers(nb: int) returns (excess: Option<nat>)
      modifies this`maxWorkers
      ensures nb < 1 ==> excess == None && View() == old(View())
      ensures nb >= 1 ==> View() == old(View()).(maxWorkers := nb)
      ensures nb >= 1
        ==> excess.Some? && workers <= nb + excess.value && (excess.value > 0 ==> workers == nb + excess.value)
    {
      if nb < 1 { return None; }
      maxWorkers := nb;
      excess := Some(if workers > nb then workers - nb else 0);
    }

    /** A worker's first stay under count_lock after taking an item. */
    method BeginItem(w: ThreadId)
      requires w in threads && threads[w].place.Got?
      modifies this
      ensures View() == DoBegin(old(View()), w)
    {
      var item := threads[w].place.item;
      if exit || item.Exit? {
        if item.Task? { log := log.(cancelled := log.cancelled + {item.job}); }
        threads := threads[w := threads[w].(place := Ended(false, true))];
        return;
      }
      working := working + 1;
      var grow := (tasks != [] || working >= workers) && workers < maxWorkers;
      threads := threads[w := threads[w].(place := Ready(item.job, grow))];
    }

    /** The finally clause around an item: even an error acknowledges it. */
    method AcknowledgeItem(w: ThreadId)
      requires Inv(View()) && w in threads && threads[w].place.Ended?
      modifies this
      ensures View() == DoAcknowledge(old(View()), w)
    {
      var place := threads[w].place;
      assert w in HoldingThreads(threads);
      assert place.counted ==> w in CountedThreads(threads);
      if place.counted {
        working := working - 1;
      }
      unfinished := unfinished - 1;
      threads := threads[w := threads[w].(place := if place.leave then Leaving else Polling)];
    }

    method ForgetWorker(w: ThreadId)
      requires w in threads && workers > 0
      modifies this`workers, this`idList, this`threads
      ensures View() == Gone(old(View()), w)
    {
      workers := workers - 1;
      idList := idList + [threads[w].xid];
      threads := threads - {w};
    }

    /** A worker that may be needed in a retiring one's place. */
    method Replace(startOk: bool)
      requires maxWorkers >= 1 && !exit
      modifies this
      ensures View() == AddMany(old(View()), 1, None, if startOk then 1 else 0).0.(
        replacementFailed := AddMany(old(View()), 1, None, if startOk then 1 else 0).0.replacementFailed
                             || AddMany(old(View()), 1, None, if startOk then 1 else 0).1)
    {
      assert Min(Max(1, 1), maxWorkers) == 1;
      var failed := Add(1, None, if startOk then 1 else 0);
      replacementFailed := replacementFailed || failed;
    }

    /** The outer finally clause of a worker: retire, and be replaced if work is queued. */
    method RetireWorker(w: ThreadId, startOk: bool)
      requires Inv(View()) && w in threads && threads[w].place.Leaving?
      modifies this
      ensures View() == DoRetire(old(View()), w, startOk)
      ensures Inv(View())
    {
      hide Inv;
      RetireKeeps(View(), w, startOk);
      InvFacts(View());
      ForgetWorker(w);
      if !exit && tasks != [] {
        Replace(startOk);
      }
      if workers == 0 {
        killEvent := true;
      }
    }

    /** One turn of killall's loop: get_nowait and task_done. */
    method DrainNext()
      requires Inv(View()) && draining && tasks != []
      modifies this`tasks, this`unfinished, this`log
      ensures Inv(View())
      ensures tasks == old(tasks)[1..] && unfinished + 1 == old(unfinished)
      ensures log == Cancelling(old(log), old(tasks)[0])
    {
      hide Inv;
      DrainOneKeeps(View(), 0);
      InvFacts(View());
      var item := tasks[0];
      assert RemoveAt(tasks, 0) == tasks[1..];
      tasks := tasks[1..];
      unfinished := unfinished - 1;
      if item.Task? { log := log.(cancelled := log.cancelled + {item.job}); }
      assert View() == DoDrainOne(old(View()), 0);
    }

    /** killall under count_lock, when no worker takes an item in between. */
    method Killall()
      requires Inv(View()) && !draining
      modifies this`exit, this`draining, this`drained, this`tasks, this`unfinished, this`log
      ensures Inv(View())
      ensures exit && drained && !draining && tasks == []
      ensures unfinished + |old(tasks)| == old(unfinished)
      ensures log.started == old(log.started) && log.dropped == old(log.dropped) && log.accepted == old(log.accepted)
      ensures forall j :: j in log.cancelled <==> j in old(log.cancelled) || Task(j) in old(tasks)
    {
      hide Inv;
      FlagsKeep(View(), KillBegin);
      exit := true;
      draining := true;
      while tasks != []
        invariant Inv(View()) && exit && draining
        invariant unfinished + |old(tasks)| == old(unfinished) + |tasks|
        invariant CancelAll(log, tasks) == CancelAll(old(log), old(tasks))
        decreases |tasks|
      {
        DrainNext();
      }
      CancelAllFacts(old(log), old(tasks));
      FlagsKeep(View(), KillEnd);
      draining := false;
      drained := true;
    }

    method IsKillable() returns (idle: bool)
      requires Inv(View())
      ensures idle <==> tasks == [] && forall w :: w in threads ==> !Holding(threads[w].place)
    {
      Killable(View());
      return unfinished == 0;
    }
  }
}
