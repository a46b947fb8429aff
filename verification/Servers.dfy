/**
  The fixed pool of KillableThreadingTCPServer: an accept loop, a bounded queue, worker
  threads, and kill().

  One event is one stay under _request_lock or one queue operation.  kill() keeps
  _request_lock while it drains the queue, but workers take from the queue without that lock.
  Sockets are requests numbered in order of arrival; `closed` lists the calls of
  shutdown_request made by the server itself, `handed` the requests given to a handler.
 */
module FixedServers {
  type Request = nat
  type ThreadId = nat

  datatype Place =
    | Polling
    | Got(request: Request)          // dequeued, before _request_lock
    | Serving(request: Request)
    | Ended(leave: bool)             // before task_done

  datatype State = State(
    arrived: nat,
    offering: set<Request>,          // verified, and waiting for room in the queue
    queue: seq<Request>,
    capacity: nat,
    unfinished: nat,
    acknowledged: nat,
    killed: bool,
    draining: bool,
    drained: bool,                   // some kill() has emptied the queue
    workers: map<ThreadId, Place>,
    closed: seq<Request>,
    handed: seq<Request>)

  function Initial(capacity: nat, workers: set<ThreadId>): State {
    State(0, {}, [], capacity, 0, 0, false, false, false, map w | w in workers :: Polling, [], [])
  }

  datatype Event =
    | Arrive(verified: bool)         // unverified, or verify_request raised
    | Offer(request: Request)
    | KillBegin
    | DrainOne
    | KillEnd
    | KillAborted                    // shutdown_request raised inside kill()
    | Get(worker: ThreadId)
    | Check(worker: ThreadId)
    | Served(worker: ThreadId, leave: bool)
    | Acknowledge(worker: ThreadId)
    | Recycle(worker: ThreadId, successor: ThreadId)
    | Stop(worker: ThreadId)

  predicate Enabled(s: State, e: Event) {
    match e
    case Arrive(_) => true
    case Offer(r) => r in s.offering && !s.draining
    case KillBegin => !s.draining
    case DrainOne => s.draining && s.queue != []
    case KillEnd => s.draining && s.queue == []
    case KillAborted => s.draining
    case Get(w) => w in s.workers && s.workers[w].Polling? && s.queue != []
    case Check(w) => w in s.workers && s.workers[w].Got? && !s.draining
    case Served(w, _) => w in s.workers && s.workers[w].Serving?
    case Acknowledge(w) => w in s.workers && s.workers[w].Ended?
    case Recycle(w, v) => w in s.workers && s.workers[w].Polling? && v !in s.workers && !s.killed
    case Stop(w) => w in s.workers && s.workers[w].Polling?
  }

  function Move(s: State, w: ThreadId, p: Place): State {
    s.(workers := s.workers[w := p])
  }

  function Step(s: State, e: Event): State
    requires Enabled(s, e)
  {
    match e
    case Arrive(verified) =>
      var r, s1 := s.arrived, s.(arrived := s.arrived + 1);
      if verified then s1.(offering := s.offering + {r}) else s1.(closed := s.closed + [r])
    case Offer(r) =>
      if s.killed then s.(offering := s.offering - {r}, closed := s.closed + [r])
      else if |s.queue| < s.capacity then
        s.(offering := s.offering - {r}, queue := s.queue + [r], unfinished := s.unfinished + 1)
      else s
    case KillBegin => s.(killed := true, draining := true)
    case DrainOne =>
      s.(queue := s.queue[1..], closed := s.closed + [s.queue[0]],
         unfinished := if s.unfinished == 0 then 0 else s.unfinished - 1, acknowledged := s.acknowledged + 1)
    case KillEnd => s.(draining := false, drained := true)
    case KillAborted => s.(draining := false)
    case Get(w) => Move(s.(queue := s.queue[1..]), w, Got(s.queue[0]))
    case Check(w) =>
      var r := s.workers[w].request;
      if s.killed then Move(s.(closed := s.closed + [r]), w, Ended(true))
      else Move(s.(handed := s.handed + [r]), w, Serving(r))
    case Served(w, leave) => Move(s, w, Ended(leave))
    case Acknowledge(w) =>
      var s1 := s.(unfinished := if s.unfinished == 0 then 0 else s.unfinished - 1, acknowledged := s.acknowledged + 1);
      if s.workers[w].leave then s1.(workers := s.workers - {w}) else Move(s1, w, Polling)
    case Recycle(w, v) => s.(workers := (s.workers - {w})[v := Polling])
    case Stop(w) => s.(workers := s.workers - {w})
  }

  predicate Run(s: State, es: seq<Event>)
    decreases es
  {
    es == [] || (Enabled(s, es[0]) && Run(Step(s, es[0]), es[1..]))
  }

  function After(s: State, es: seq<Event>): State
    requires Run(s, es)
    decreases es
  {
    if es == [] then s else After(Step(s, es[0]), es[1..])
  }

  // ---- The invariant ----

  ghost predicate Distinct(s: seq<Request>) {
    forall i, k :: 0 <= i < k < |s| ==> s[i] != s[k]
  }

  predicate GotBy(workers: map<ThreadId, Place>, r: Request, w: ThreadId) {
    w in workers && workers[w] == Got(r)
  }

  ghost predicate Taken(workers: map<ThreadId, Place>, r: Request) {
    exists w :: GotBy(workers, r, w)
  }

  /** Every arrived request is in exactly one place: offered, queued, taken, closed or handed
      over, and closed or handed over once. */
  ghost predicate Requests(arrived: nat, offering: set<Request>, queue: seq<Request>, workers: map<ThreadId, Place>,
                           closed: seq<Request>, handed: seq<Request>) {
    && Distinct(queue) && Distinct(closed) && Distinct(handed)
    && (forall r: Request ::
          r < arrived <==> r in offering || r in queue || Taken(workers, r) || r in closed || r in handed)
    && (forall r: Request :: r in offering ==> r !in queue && !Taken(workers, r) && r !in closed && r !in handed)
    && (forall r: Request :: r in queue ==> !Taken(workers, r) && r !in closed && r !in handed)
    && (forall r: Request :: Taken(workers, r) ==> r !in closed && r !in handed)
    && (forall r: Request, w, v :: GotBy(workers, r, w) && GotBy(workers, r, v) ==> w == v)
    && (forall r: Request :: r in closed ==> r !in handed)
  }

  ghost function Busy(workers: map<ThreadId, Place>): set<ThreadId> {
    set w | w in workers && !workers[w].Polling?
  }

  ghost predicate Inv(s: State) {
    && Requests(s.arrived, s.offering, s.queue, s.workers, s.closed, s.handed)
    && s.unfinished == |s.queue| + |Busy(s.workers)|
    && |s.queue| <= s.capacity
    && (s.draining ==> s.killed)
    && (s.drained ==> s.killed && s.queue == [])
  }

  lemma BusyMove(workers: map<ThreadId, Place>, w: ThreadId, p: Place)
    requires w in workers
    ensures |Busy(workers[w := p])|
      == |Busy(workers)| + (if p.Polling? then 0 else 1) - (if workers[w].Polling? then 0 else 1)
    ensures |Busy(workers - {w})| == |Busy(workers)| - (if workers[w].Polling? then 0 else 1)
  {
    var rest := Busy(workers - {w});
    if workers[w].Polling? { assert Busy(workers) == rest; } else { assert Busy(workers) == rest + {w}; }
    if p.Polling? { assert Busy(workers[w := p]) == rest; } else { assert Busy(workers[w := p]) == rest + {w}; }
  }

  /** Which worker has which request: w takes one, w lets one go, or nothing changes. */
  lemma TakenSame(workers: map<ThreadId, Place>, workers1: map<ThreadId, Place>)
    requires forall r: Request, v :: GotBy(workers1, r, v) <==> GotBy(workers, r, v)
    ensures forall r: Request :: Taken(workers1, r) <==> Taken(workers, r)
  {
  }

  lemma TakenMore(workers: map<ThreadId, Place>, w: ThreadId, q: Request)
    requires w in workers && !workers[w].Got?
    ensures forall r: Request :: Taken(workers[w := Got(q)], r) <==> Taken(workers, r) || r == q
  {
    var workers1 := workers[w := Got(q)];
    forall r: Request ensures Taken(workers1, r) <==> Taken(workers, r) || r == q {
      if Taken(workers, r) { var v :| GotBy(workers, r, v); assert GotBy(workers1, r, v); }
      if Taken(workers1, r) { var v :| GotBy(workers1, r, v); assert v == w || GotBy(workers, r, v); }
      assert GotBy(workers1, q, w);
    }
  }

  lemma TakenLess(workers: map<ThreadId, Place>, w: ThreadId, p: Place)
    requires w in workers && workers[w].Got? && !p.Got?
    requires forall r: Request, u, v :: GotBy(workers, r, u) && GotBy(workers, r, v) ==> u == v
    ensures forall r: Request :: Taken(workers[w := p], r) <==> Taken(workers, r) && r != workers[w].request
  {
    var workers1, q := workers[w := p], workers[w].request;
    forall r: Request ensures Taken(workers1, r) <==> Taken(workers, r) && r != q {
      assert GotBy(workers, q, w);
      if Taken(workers, r) && r != q { var v :| GotBy(workers, r, v); assert GotBy(workers1, r, v); }
      if Taken(workers1, r) { var v :| GotBy(workers1, r, v); assert GotBy(workers, r, v) && v != w; }
    }
  }

  lemma Appended(s: seq<Request>, r: Request)
    requires Distinct(s) && r !in s
    ensures Distinct(s + [r]) && forall x :: x in s + [r] <==> x in s || x == r
  {
  }

  lemma Beheaded(s: seq<Request>)
    requires Distinct(s) && s != []
    ensures Distinct(s[1..]) && forall x :: x in s[1..] <==> x in s && x != s[0]
  {
  }

  lemma ArriveKeeps(s: State, verified: bool)
    requires Inv(s)
    ensures Inv(Step(s, Arrive(verified)))
  {
    Appended(s.closed, s.arrived);
  }

  lemma OfferKeeps(s: State, r: Request)
    requires Inv(s) && Enabled(s, Offer(r))
    ensures Inv(Step(s, Offer(r)))
  {
  }

  lemma DrainKeeps(s: State)
    requires Inv(s) && Enabled(s, DrainOne)
    ensures Inv(Step(s, DrainOne))
  {
    Beheaded(s.queue);
    Appended(s.closed, s.queue[0]);
  }

  lemma GetKeeps(s: State, w: ThreadId)
    requires Inv(s) && Enabled(s, Get(w))
    ensures Inv(Step(s, Get(w)))
  {
    var q := s.queue;
    Beheaded(q);
    BusyMove(s.workers, w, Got(q[0]));
    TakenMore(s.workers, w, q[0]);
    var workers1 := s.workers[w := Got(q[0])];
    forall r: Request, u, v | GotBy(workers1, r, u) && GotBy(workers1, r, v) ensures u == v {
      if u != w { assert GotBy(s.workers, r, u) && Taken(s.workers, r); }
      if v != w { assert GotBy(s.workers, r, v) && Taken(s.workers, r); }
    }
  }

  lemma CheckKeeps(s: State, w: ThreadId)
    requires Inv(s) && Enabled(s, Check(w))
    ensures Inv(Step(s, Check(w)))
  {
    var r := s.workers[w].request;
    var p := if s.killed then Ended(true) else Serving(r);
    assert GotBy(s.workers, r, w) && Taken(s.workers, r);
    BusyMove(s.workers, w, p);
    TakenLess(s.workers, w, p);
    var workers1 := s.workers[w := p];
    forall q: Request, u, v | GotBy(workers1, q, u) && GotBy(workers1, q, v) ensures u == v {
      assert GotBy(s.workers, q, u) && GotBy(s.workers, q, v);
    }
    assert r < s.arrived && r !in s.offering && r !in s.queue && r !in s.closed && r !in s.handed;
    if s.killed { Appended(s.closed, r); } else { Appended(s.handed, r); }
    hide GotBy;
    assert Step(s, Check(w)).workers == workers1;
    assert forall q: Request :: Taken(workers1, q) <==> Taken(s.workers, q) && q != r;
    hide Taken;
  }

  lemma MoveKeeps(s: State, e: Event)
    requires Inv(s) && Enabled(s, e) && (e.Served? || e.Acknowledge? || e.Recycle? || e.Stop?)
    ensures Inv(Step(s, e))
  {
    var w, s1 := e.worker, Step(s, e);
    TakenSame(s.workers, s1.workers);
    BusyMove(s.workers, w, if e.Served? then Ended(e.leave) else Polling);
    if e.Recycle? { assert Busy(s1.workers) == Busy(s.workers - {w}); }
    if e.Acknowledge? { assert w in Busy(s.workers); }
  }

  lemma StepKeepsInv(s: State, e: Event)
    requires Inv(s) && Enabled(s, e)
    ensures Inv(Step(s, e))
  {
    match e
    case Arrive(verified) => ArriveKeeps(s, verified);
    case Offer(r) => OfferKeeps(s, r);
    case DrainOne => DrainKeeps(s);
    case Get(w) => GetKeeps(s, w);
    case Check(w) => CheckKeeps(s, w);
    case KillBegin =>
    case KillEnd =>
    case KillAborted =>
    case _ => MoveKeeps(s, e);
  }

  lemma {:induction false} RunKeepsInv(s: State, es: seq<Event>)
    requires Inv(s) && Run(s, es)
    ensures Inv(After(s, es))
    decreases es
  {
    if es != [] {
      StepKeepsInv(s, es[0]);
      RunKeepsInv(Step(s, es[0]), es[1..]);
    }
  }

  lemma Reachable(capacity: nat, workers: set<ThreadId>, es: seq<Event>)
    requires Run(Initial(capacity, workers), es)
    ensures Inv(After(Initial(capacity, workers), es))
  {
    var s := Initial(capacity, workers);
    assert Busy(s.workers) == {};
    assert forall r: Request :: !Taken(s.workers, r);
    RunKeepsInv(s, es);
  }

  // ---- What becomes of a request ----

  /** Every arrived request is in exactly one of: waiting for room, queued, taken by one
      worker, closed by the server, handed to a handler; and no request is closed or handed
      over twice. */
  lemma RequestConservation(s: State, r: Request)
    requires Inv(s) && r < s.arrived
    ensures (if r in s.offering then 1 else 0) + multiset(s.queue)[r] + (if Taken(s.workers, r) then 1 else 0)
      + multiset(s.closed)[r] + multiset(s.handed)[r] == 1
  {
    OnceIn(s.queue, r);
    OnceIn(s.closed, r);
    OnceIn(s.handed, r);
  }

  lemma {:induction false} OnceIn(s: seq<Request>, r: Request)
    requires Distinct(s)
    ensures multiset(s)[r] == if r in s then 1 else 0
  {
    if s != [] {
      Beheaded(s);
      assert s == [s[0]] + s[1..];
      OnceIn(s[1..], r);
    }
  }

  /** Each item that leaves the queue is acknowledged once. */
  lemma {:induction false} Acknowledged(s: State, es: seq<Event>)
    requires Inv(s) && Run(s, es)
    ensures After(s, es).unfinished + After(s, es).acknowledged >= s.unfinished + s.acknowledged
    ensures After(s, es).unfinished + After(s, es).acknowledged
      == s.unfinished + s.acknowledged + Enqueued(s, es)
    decreases es
  {
    if es != [] {
      var e := es[0];
      StepKeepsInv(s, e);
      if e.Acknowledge? { assert e.worker in Busy(s.workers); }
      Acknowledged(Step(s, e), es[1..]);
    }
  }

  /** The number of put_nowait calls that succeeded. */
  function Enqueued(s: State, es: seq<Event>): nat
    requires Run(s, es)
    decreases es
  {
    if es == [] then 0
    else (if es[0].Offer? && !s.killed && |s.queue| < s.capacity then 1 else 0) + Enqueued(Step(s, es[0]), es[1..])
  }

  /** Once the server is killed no request is handed over any more, and an empty queue stays
      empty. */
  lemma {:induction false} AfterKill(s: State, es: seq<Event>)
    requires Inv(s) && Run(s, es) && s.killed
    ensures After(s, es).killed && After(s, es).handed == s.handed
    ensures s.queue == [] ==> After(s, es).queue == []
    ensures s.drained ==> After(s, es).drained
    decreases es
  {
    if es != [] {
      StepKeepsInv(s, es[0]);
      AfterKill(Step(s, es[0]), es[1..]);
    }
  }

  /** With nothing queued, once the accept loop and the workers have finished what they hold,
      every request that ever arrived has been closed by the server or handed to a handler. */
  lemma SettledAfterKill(s: State, r: Request)
    requires Inv(s) && s.queue == [] && s.offering == {} && r < s.arrived
    requires forall w :: w in s.workers ==> !s.workers[w].Got?
    ensures multiset(s.closed)[r] + multiset(s.handed)[r] == 1
  {
    RequestConservation(s, r);
    assert forall w :: !GotBy(s.workers, r, w);
  }

  // ---- What is done with a request ----

  /** A request that is not verified is closed; another waits for room. */
  lemma ArriveIs(s: State, verified: bool)
    ensures Enabled(s, Arrive(verified))
    ensures var s1 := Step(s, Arrive(verified));
            && s1.arrived == s.arrived + 1 && s1.queue == s.queue && s1.handed == s.handed && s1.workers == s.workers
            && s1.offering == s.offering + (if verified then {s.arrived} else {})
            && s1.closed == s.closed + (if verified then [] else [s.arrived])
  {
    assert s.closed + [] == s.closed && s.offering + {} == s.offering;
  }

  /** It goes to the end of the queue as soon as that is not full, or is closed if the server has
      been killed. */
  lemma OfferIs(s: State, r: Request)
    requires r in s.offering && !s.draining
    ensures Enabled(s, Offer(r))
    ensures var s1 := Step(s, Offer(r));
            && s1.arrived == s.arrived && s1.handed == s.handed && s1.workers == s.workers
            && s1.offering == (if !s.killed && |s.queue| >= s.capacity then s.offering else s.offering - {r})
            && s1.queue == s.queue + (if !s.killed && |s.queue| < s.capacity then [r] else [])
            && s1.closed == s.closed + (if s.killed then [r] else [])
  {
    assert s.closed + [] == s.closed && s.queue + [] == s.queue;
  }

  /** A worker hands the request it has taken to a handler, or closes it and stops if the server
      has been killed. */
  lemma CheckIs(s: State, w: ThreadId, r: Request)
    requires w in s.workers && s.workers[w] == Got(r) && !s.draining
    ensures Enabled(s, Check(w))
    ensures var s1 := Step(s, Check(w));
            && s1.handed == s.handed + (if s.killed then [] else [r])
            && s1.closed == s.closed + (if s.killed then [r] else [])
            && s1.workers == s.workers[w := if s.killed then Ended(true) else Serving(r)]
            && s1.queue == s.queue && s1.offering == s.offering
  {
    assert s.closed + [] == s.closed && s.handed + [] == s.handed;
  }

  /** kill() can always begin or be repeated, closes the first of the queue, and ends when there
      is none. */
  lemma KillIs(s: State)
    ensures Enabled(s, KillBegin) <==> !s.draining
    ensures !s.draining ==> Step(s, KillBegin) == s.(killed := true, draining := true)
    ensures Enabled(s, DrainOne) <==> s.draining && s.queue != []
    ensures s.draining && s.queue != [] ==>
              var s1 := Step(s, DrainOne);
              s1.queue == s.queue[1..] && s1.closed == s.closed + [s.queue[0]] && s1.handed == s.handed
              && s1.workers == s.workers
    ensures Enabled(s, KillEnd) <==> s.draining && s.queue == []
    ensures s.draining ==>
              Step(s, KillAborted) == s.(draining := false)
              && (s.queue == [] ==> Step(s, KillEnd) == s.(draining := false, drained := true))
  {
  }

  /** Whatever the others do, an idle worker can take the first of the queue and serve it. */
  lemma IdleWorkerServes(s: State, w: ThreadId) returns (es: seq<Event>)
    requires w in s.workers && s.workers[w].Polling? && s.queue != [] && !s.killed && !s.draining
    ensures Run(s, es) && After(s, es).handed == s.handed + [s.queue[0]] && After(s, es).queue == s.queue[1..]
  {
    var s1 := Step(s, Get(w));
    CheckIs(s1, w, s.queue[0]);
    RunsOne(s1, Check(w));
    RunsFirst(s, Get(w), [Check(w)]);
    es := [Get(w)] + [Check(w)];
  }

  /** After a request a worker looks for the next, or stops if it is to. */
  lemma AcknowledgeIs(s: State, w: ThreadId)
    requires w in s.workers && s.workers[w].Ended?
    ensures Enabled(s, Acknowledge(w))
    ensures Step(s, Acknowledge(w)).workers == if s.workers[w].leave then s.workers - {w} else s.workers[w := Polling]
  {
  }

  /** A worker that retires in a server not killed leaves another in its place. */
  lemma RecycleIs(s: State, w: ThreadId, v: ThreadId)
    requires w in s.workers && s.workers[w].Polling? && v !in s.workers && !s.killed
    ensures Enabled(s, Recycle(w, v)) && |Step(s, Recycle(w, v)).workers| == |s.workers|
    ensures v in Step(s, Recycle(w, v)).workers && w !in Step(s, Recycle(w, v)).workers
  {
    assert |s.workers - {w}| == |s.workers| - 1;
  }

  // ---- A kill that is broken off ----

  predicate NoKill(es: seq<Event>) { forall i :: 0 <= i < |es| ==> !es[i].KillBegin? }

  /** The accept loop holds nothing and all workers have stopped. */
  predicate AllGone(s: State) { s.offering == {} && s.workers == map[] }

  predicate Settled(s: State) { forall r: Request :: r < s.arrived ==> r in s.closed || r in s.handed }

  lemma RunsFirst(s: State, e: Event, es: seq<Event>)
    requires Enabled(s, e) && Run(Step(s, e), es)
    ensures Run(s, [e] + es) && After(s, [e] + es) == After(Step(s, e), es)
  {
    hide Enabled;
    hide Step;
    assert ([e] + es)[1..] == es;
  }

  /** The last steps of a worker that takes nothing more. */
  lemma WorkerStops(s: State, w: ThreadId) returns (es: seq<Event>)
    requires s.killed && !s.draining && w in s.workers
    ensures Run(s, es) && NoKill(es)
    ensures var s1 := After(s, es);
            && s1.workers == s.workers - {w} && s1.offering == s.offering && s1.queue == s.queue
            && s1.killed && !s1.draining && s1.arrived == s.arrived
  {
    if s.workers[w].Polling? {
      es := [Stop(w)];
      RunsFirst(s, Stop(w), []);
      assert [Stop(w)] + [] == es;
    } else if s.workers[w].Ended? {
      var s1 := Step(s, Acknowledge(w));
      es := if s.workers[w].leave then [] else [Stop(w)];
      if !s.workers[w].leave { RunsFirst(s1, Stop(w), []); }
      assert [Stop(w)] + [] == [Stop(w)];
      RunsFirst(s, Acknowledge(w), es);
      es := [Acknowledge(w)] + es;
    } else {
      var e := if s.workers[w].Got? then Check(w) else Served(w, true);
      var s1 := Step(s, e);
      RunsFirst(s1, Acknowledge(w), []);
      assert [Acknowledge(w)] + [] == [Acknowledge(w)];
      RunsFirst(s, e, [Acknowledge(w)]);
      es := [e] + [Acknowledge(w)];
    }
  }

  lemma {:induction false} RunsTogether(s: State, a: seq<Event>, b: seq<Event>)
    requires Run(s, a) && Run(After(s, a), b)
    ensures Run(s, a + b) && After(s, a + b) == After(After(s, a), b)
    decreases a
  {
    hide Enabled;
    hide Step;
    if a == [] {
      assert a + b == b;
    } else {
      RunsTogether(Step(s, a[0]), a[1..], b);
      assert (a + b)[1..] == a[1..] + b;
    }
  }

  /** A killed server can wind down without touching its queue. */
  lemma {:induction false} WindDown(s: State) returns (es: seq<Event>)
    requires s.killed && !s.draining
    ensures Run(s, es) && NoKill(es)
    ensures AllGone(After(s, es)) && After(s, es).queue == s.queue && After(s, es).arrived == s.arrived
    decreases |s.offering| + |s.workers|
  {
    if s.offering != {} {
      var r :| r in s.offering;
      es := WindDown(Step(s, Offer(r)));
      RunsFirst(s, Offer(r), es);
      es := [Offer(r)] + es;
    } else if s.workers != map[] {
      var w :| w in s.workers;
      var first := WorkerStops(s, w);
      hide Run;
      hide After;
      assert |s.workers - {w}| == |s.workers| - 1;
      es := WindDown(After(s, first));
      RunsTogether(s, first, es);
      es := first + es;
    } else {
      es := [];
    }
  }

  /** A kill() that ends, or is broken off by shutdown_request: if it is not repeated, every
      request is closed or handed over at the end exactly when it has left nothing queued. */
  lemma SettledIff(s: State)
    requires Inv(s) && s.killed && !s.draining
    ensures (forall es :: Run(s, es) && NoKill(es) && AllGone(After(s, es)) ==> Settled(After(s, es)))
      <==> s.queue == []
  {
    hide Inv;
    hide Run;
    hide After;
    if s.queue == [] {
      forall es | Run(s, es) && AllGone(After(s, es)) ensures Settled(After(s, es)) {
        AfterKill(s, es);
        RunKeepsInv(s, es);
        NothingLeft(After(s, es));
      }
    } else {
      var es := WindDown(s);
      RunKeepsInv(s, es);
      StillQueued(After(s, es));
      assert Run(s, es) && NoKill(es) && AllGone(After(s, es));
    }
  }

  lemma NothingLeft(s: State)
    requires Inv(s) && AllGone(s) && s.queue == []
    ensures Settled(s)
  {
    forall r: Request | r < s.arrived ensures r in s.closed || r in s.handed {
      assert forall w :: !GotBy(s.workers, r, w);
    }
  }

  lemma StillQueued(s: State)
    requires Inv(s) && s.queue != []
    ensures !Settled(s)
  {
    var r := s.queue[0];
    assert r in s.queue && r < s.arrived;
  }

  const TO_KILL := [Arrive(true)] + ([Offer(0)] + ([Arrive(true)] + [Offer(1)]))
  const BROKEN_OFF := [KillBegin] + ([DrainOne] + ([KillAborted] + [Stop(0)]))

  const TWO_QUEUED := State(2, {}, [0, 1], 2, 2, 0, false, false, false, map[0 := Polling], [], [])
  const ONE_LEFT := State(2, {}, [1], 2, 1, 1, true, false, false, map[], [0], [])

  /** kill() closes the first of two queued requests, which raises; the worker stops; the second
      is neither closed nor handed over. */
  lemma LeftInQueue()
    ensures Run(Initial(2, {0}), TO_KILL + BROKEN_OFF) && After(Initial(2, {0}), TO_KILL + BROKEN_OFF) == ONE_LEFT
  {
    hide Run;
    hide After;
    TwoQueued();
    BrokenOff();
    RunsTogether(Initial(2, {0}), TO_KILL, BROKEN_OFF);
  }

  lemma RunsOne(s: State, e: Event)
    requires Enabled(s, e)
    ensures Run(s, [e]) && After(s, [e]) == Step(s, e)
  {
    RunsFirst(s, e, []);
    assert [e] + [] == [e];
  }

  lemma TwoQueued()
    ensures Run(Initial(2, {0}), TO_KILL) && After(Initial(2, {0}), TO_KILL) == TWO_QUEUED
  {
    hide Run;
    hide After;
    var s := Initial(2, {0});
    assert s.workers == map[0 := Polling];
    var s1 := s.(arrived := 1, offering := {0});
    var s2 := s.(arrived := 1, queue := [0], unfinished := 1);
    var s3 := s2.(arrived := 2, offering := {1});
    assert Enabled(s, Arrive(true)) && Step(s, Arrive(true)) == s1;
    assert Enabled(s1, Offer(0)) && Step(s1, Offer(0)) == s2;
    assert Enabled(s2, Arrive(true)) && Step(s2, Arrive(true)) == s3;
    assert Enabled(s3, Offer(1)) && Step(s3, Offer(1)) == TWO_QUEUED;
    hide Enabled;
    hide Step;
    RunsOne(s3, Offer(1));
    RunsFirst(s2, Arrive(true), [Offer(1)]);
    RunsFirst(s1, Offer(0), [Arrive(true)] + [Offer(1)]);
    RunsFirst(s, Arrive(true), [Offer(0)] + ([Arrive(true)] + [Offer(1)]));
  }

  lemma BrokenOff()
    ensures Run(TWO_QUEUED, BROKEN_OFF) && After(TWO_QUEUED, BROKEN_OFF) == ONE_LEFT
  {
    hide Run;
    hide After;
    var s1 := TWO_QUEUED.(killed := true, draining := true);
    var s2 := s1.(queue := [1], closed := [0], unfinished := 1, acknowledged := 1);
    var s3 := s2.(draining := false);
    assert Enabled(TWO_QUEUED, KillBegin) && Step(TWO_QUEUED, KillBegin) == s1;
    assert Enabled(s1, DrainOne) && Step(s1, DrainOne) == s2;
    assert Enabled(s2, KillAborted) && Step(s2, KillAborted) == s3;
    assert Enabled(s3, Stop(0)) && Step(s3, Stop(0)) == ONE_LEFT;
    hide Enabled;
    hide Step;
    RunsOne(s3, Stop(0));
    RunsFirst(s2, KillAborted, [Stop(0)]);
    RunsFirst(s1, DrainOne, [KillAborted] + [Stop(0)]);
    RunsFirst(TWO_QUEUED, KillBegin, [DrainOne] + ([KillAborted] + [Stop(0)]));
  }

  // ---- The server object ----

  class KillableThreadingTCPServer {
    var arrived: nat
    var offering: set<Request>
    var requests: seq<Request>
    var maxWorkers: nat
    var unfinished: nat
    var acknowledged: nat
    var killed: bool
    var draining: bool
    var drained: bool
    var workers: map<ThreadId, Place>
    var closed: seq<Request>
    var handed: seq<Request>

    ghost function View(): State
      reads this
    {
      State(arrived, offering, requests, maxWorkers, unfinished, acknowledged, killed, draining, drained, workers,
            closed, handed)
    }

    /** shutdown_request */
    method Shutdown(r: Request)
      modifies this`closed
      ensures closed == old(closed) + [r]
    {
      closed := closed + [r];
    }

    /** handle_request up to the loop that waits for room. */
    method Accept(verified: bool)
      modifies this`arrived, this`offering, this`closed
      ensures View() == Step(old(View()), Arrive(verified))
    {
      var r := arrived;
      arrived := arrived + 1;
      if verified {
        offering := offering + {r};
      } else {
        Shutdown(r);
      }
    }

    /** One turn of that loop: true when the request has left the accept loop. */
    method OfferTurn(r: Request) returns (done: bool)
      requires Enabled(View(), Offer(r))
      modifies this`offering, this`requests, this`unfinished, this`closed
      ensures View() == Step(old(View()), Offer(r))
      ensures done <==> r !in offering
    {
      if killed {
        Shutdown(r);
        offering := offering - {r};
        return true;
      }
      if |requests| >= maxWorkers { return false; }
      requests := requests + [r];
      unfinished := unfinished + 1;
      offering := offering - {r};
      return true;
    }

    /** One turn of kill's loop. */
    method DrainNext()
      requires Inv(View()) && draining && requests != []
      modifies this`requests, this`unfinished, this`acknowledged, this`closed
      ensures View() == Step(old(View()), DrainOne)
      ensures Inv(View())
    {
      DrainKeeps(View());
      assert unfinished > 0;
      hide Inv;
      var r := requests[0];
      requests := requests[1..];
      Shutdown(r);
      unfinished := unfinished - 1;
      acknowledged := acknowledged + 1;
    }

    /** kill(), when no worker takes a request in between and closing one of `bad` raises: the
        first `done` queued requests are closed in order and acknowledged, all of them or up to
        the first bad one. */
    method Kill(bad: set<Request>) returns (raised: bool, ghost done: nat)
      requires Inv(View()) && !draining
      modifies this`killed, this`draining, this`drained, this`requests, this`unfinished, this`acknowledged, this`closed
      ensures Inv(View()) && killed && !draining && done <= |old(requests)|
      ensures closed == old(closed) + old(requests)[..done] && requests == old(requests)[done..]
      ensures acknowledged == old(acknowledged) + done
      ensures if raised then done > 0 && old(requests)[done - 1] in bad else done == |old(requests)|
      ensures forall i :: 0 <= i < done - (if raised then 1 else 0) ==> old(requests)[i] !in bad
      ensures drained == (old(drained) || !raised)
    {
      hide Inv;
      StepKeepsInv(View(), KillBegin);
      killed := true;
      draining := true;
      done := 0;
      while requests != []
        invariant Inv(View()) && killed && draining && drained == old(drained)
        invariant done + |requests| == |old(requests)| && requests == old(requests)[done..]
        invariant closed == old(closed) + old(requests)[..done]
        invariant acknowledged == old(acknowledged) + done
        invariant forall i :: 0 <= i < done ==> old(requests)[i] !in bad
        decreases |requests|
      {
        var r := requests[0];
        assert old(requests)[..done + 1] == old(requests)[..done] + [r];
        DrainNext();
        done := done + 1;
        if r in bad {
          StepKeepsInv(View(), KillAborted);
          draining := false;
          return true, done;
        }
      }
      StepKeepsInv(View(), KillEnd);
      assert old(requests)[..done] == old(requests);
      draining := false;
      drained := true;
      raised := false;
    }

    /** A worker's stay under _request_lock with a request it has taken. */
    method CheckTaken(w: ThreadId) returns (serve: bool)
      requires Enabled(View(), Check(w))
      modifies this`workers, this`closed, this`handed
      ensures View() == Step(old(View()), Check(w))
      ensures serve <==> !killed
    {
      var r := workers[w].request;
      if killed {
        Shutdown(r);
        workers := workers[w := Ended(true)];
        return false;
      }
      handed := handed + [r];
      workers := workers[w := Serving(r)];
      return true;
    }
  }
}
