/**
  The named-section store of keystore.py.

  One event is one stay inside the instance's condition: a call runs until it returns,
  raises or waits; a parked thread goes round its loop again from its wait.  A deadline is
  a Boolean of the event, and a wall-clock reading is its parameter `now`.
 */
module Keystores {
  import opened Wrappers

  type Thread = nat
  type Name = string
  type Key = string
  type Value = int
  type LockId = nat

  /** Who holds a lock and how often: the owner records, and the RLock objects themselves. */
  datatype Owner = Owner(thread: Thread, depth: nat)

  datatype Content = Content(data: map<Name, map<Key, Value>>, updated: map<Name, int>)

  datatype Op = Add | Read | Set(key: Key, value: Value) | Delete | Remove(key: Key) | Purge | Reset

  datatype Request =
    | Acquire(name: Name, exists_: bool, timed: bool)
    | Data(op: Op, name: Name, locked: bool)
    | GlobalLock(timed: bool)

  datatype Stage = AtEnter | AtSection(name: Name, lockId: LockId) | AtGlobal

  datatype Wait = Wait(request: Request, stage: Stage, notified: bool)

  datatype State = State(
    content: Content,
    lock: map<Name, LockId>,       // the lock table
    held: map<LockId, Owner>,      // the RLock objects that are held
    nextLock: LockId,
    owners: map<Name, Owner>,
    waiters: map<Name, nat>,
    globalOwner: Option<Thread>,
    globalDepth: nat,
    globalWaiters: nat,
    waits: map<Thread, Wait>)      // the threads inside Condition.wait

  const Init := State(Content(map[], map[]), map[], map[], 0, map[], map[], None, 0, 0, map[])

  datatype Outcome =
    | Completed        // the operation ran, or the lock was taken
    | Missing          // an existence check found no section
    | NoKey            // KeyError
    | TimedOut
    | Refused          // a section owner's contended promotion
    | Waiting
    | Released
    | NothingHeld      // release of a name without a lock: the store is returned unchanged
    | NotOwner
    | Interrupted

  datatype Event =
    | Call(thread: Thread, request: Request, now: int, expired: bool)
    | Resume(thread: Thread, now: int, expired: bool)
    | Interrupt(thread: Thread)
    | Release(thread: Thread, name: Name)
    | Unlock(thread: Thread)

  // ---- What the data operations do to the content ----

  function Ensured(c: Content, n: Name): Content {
    if n in c.data then c else Content(c.data[n := map[]], c.updated[n := 0])
  }

  function Apply(op: Op, n: Name, now: int, c: Content): Content {
    match op
    case Add => Ensured(c, n)
    case Read => c
    case Set(k, v) =>
      var c1 := Ensured(c, n);
      Content(c1.data[n := c1.data[n][k := v]], c1.updated[n := now])
    case Delete => Content(c.data - {n}, c.updated - {n})
    case Remove(k) =>
      if n in c.data then Content(c.data[n := c.data[n] - {k}], c.updated[n := now]) else c
    case Purge => if n in c.data then Content(c.data[n := map[]], c.updated[n := 0]) else c
    case Reset => if n in c.data then Content(c.data[n := map[]], c.updated[n := now]) else c
  }

  predicate Creates(op: Op) { op.Add? || op.Set? }

  function OpOutcome(op: Op, n: Name, c: Content): Outcome {
    if op.Remove? && n !in c.data then NoKey else Completed
  }

  // ---- Guards ----

  predicate OwnsSection(owners: map<Name, Owner>, t: Thread) {
    exists n :: n in owners && owners[n].thread == t
  }

  predicate CanEnter(s: State, t: Thread) {
    if s.globalOwner.Some? then s.globalOwner.value == t
    else s.globalWaiters == 0 || OwnsSection(s.owners, t)
  }

  predicate EnterBlocked(s: State, t: Thread, r: Request) {
    || (s.globalOwner.Some? && s.globalOwner.value != t)
    || (!r.GlobalLock? && !CanEnter(s, t))
  }

  predicate LockFree(s: State, id: LockId, t: Thread) {
    id !in s.held || s.held[id].thread == t
  }

  predicate OnlyOwner(owners: map<Name, Owner>, t: Thread) {
    forall n :: n in owners ==> owners[n].thread == t
  }

  predicate GlobalFree(s: State, t: Thread) {
    (s.globalOwner.None? || s.globalOwner.value == t) && OnlyOwner(s.owners, t)
  }

  predicate WantsExisting(r: Request) { r.Acquire? && r.exists_ }

  /** What a parked thread needs in order not to wait again. */
  predicate Guard(s: State, t: Thread, w: Wait) {
    match w.stage
    case AtEnter => !EnterBlocked(s, t, w.request)
    case AtSection(n, id) =>
      || (WantsExisting(w.request) && n !in s.content.data)
      || (CanEnter(s, t) && LockFree(s, id, t))
    case AtGlobal => GlobalFree(s, t)
  }

  /** Whether the wait has a deadline: entry is bounded by the store's timeout. */
  predicate CanExpire(r: Request, stage: Stage) {
    match stage
    case AtEnter => r.GlobalLock? ==> r.timed
    case AtSection(_, _) => r.Acquire? && r.timed
    case AtGlobal => r.GlobalLock? && r.timed
  }

  // ---- Pieces of a step ----

  function Pred(n: nat): nat { if n == 0 then 0 else n - 1 }

  function WaiterCount(waiters: map<Name, nat>, n: Name): nat { if n in waiters then waiters[n] else 0 }

  function NotifyAll(s: State): State {
    s.(waits := map t | t in s.waits :: s.waits[t].(notified := true))
  }

  function Park(s: State, t: Thread, r: Request, stage: Stage): State {
    s.(waits := s.waits[t := Wait(r, stage, false)])
  }

  function EnsureLock(s: State, n: Name): State {
    if n in s.lock then s else s.(lock := s.lock[n := s.nextLock], nextLock := s.nextLock + 1)
  }

  function Cleanup(s: State, n: Name): State {
    if n !in s.content.data && n !in s.owners && WaiterCount(s.waiters, n) == 0
    then s.(lock := s.lock - {n}, waiters := s.waiters - {n})
    else s
  }

  function More<K>(m: map<K, Owner>, k: K, t: Thread): map<K, Owner> {
    m[k := Owner(t, if k in m then m[k].depth + 1 else 1)]
  }

  function Less<K>(m: map<K, Owner>, k: K): map<K, Owner> {
    if k !in m then m
    else if m[k].depth <= 1 then m - {k}
    else m[k := m[k].(depth := m[k].depth - 1)]
  }

  function Take(s: State, t: Thread, n: Name, id: LockId): State {
    s.(held := More(s.held, id, t), owners := More(s.owners, n, t))
  }

  /** The end of _acquire_section: one waiter less, and the lock goes if nobody needs it. */
  function Leave(s: State, n: Name): State {
    Cleanup(s.(waiters := s.waiters[n := Pred(WaiterCount(s.waiters, n))]), n)
  }

  function ReleaseSection(s: State, n: Name): State
    requires n in s.lock
  {
    NotifyAll(Cleanup(s.(held := Less(s.held, s.lock[n]), owners := Less(s.owners, n)), n))
  }

  function RunOp(s: State, op: Op, n: Name, now: int): State {
    var s1 := s.(content := Apply(op, n, now, s.content));
    if op.Delete? then NotifyAll(s1) else s1
  }

  // ---- Steps ----

  /** The section lock has been obtained: finish the request. */
  function SectionGranted(s: State, t: Thread, r: Request, n: Name, id: LockId, now: int): (State, Outcome) {
    var s1 := Leave(Take(s, t, n, id), n);
    match r
    case Data(op, _, _) =>
      var s2 := RunOp(s1, op, n, now);
      (if n in s2.lock then ReleaseSection(s2, n) else s2, OpOutcome(op, n, s1.content))
    case _ =>
      (if WantsExisting(r) then s1 else s1.(content := Ensured(s1.content, n)), Completed)
  }

  /** One turn of the _acquire_section loop by a thread already counted among the waiters. */
  function SectionTurn(s: State, t: Thread, r: Request, n: Name, id: LockId, now: int, expired: bool)
    : (State, Outcome)
  {
    if WantsExisting(r) && n !in s.content.data then (Leave(s, n), Missing)
    else if CanEnter(s, t) && LockFree(s, id, t) then SectionGranted(s, t, r, n, id, now)
    else if expired && CanExpire(r, AtSection(n, id)) then (Leave(s, n), TimedOut)
    else (Park(s, t, r, AtSection(n, id)), Waiting)
  }

  function Enlisted(s: State, n: Name): State {
    var s1 := EnsureLock(s, n);
    s1.(waiters := s1.waiters[n := WaiterCount(s1.waiters, n) + 1])
  }

  function SectionStart(s: State, t: Thread, r: Request, n: Name, now: int, expired: bool): (State, Outcome) {
    var s1 := Enlisted(s, n);
    SectionTurn(s1, t, r, n, s1.lock[n], now, expired)
  }

  /** An operation that does not take the section lock. */
  function DirectOp(s: State, op: Op, n: Name, now: int): State {
    Cleanup(RunOp(if Creates(op) then EnsureLock(s, n) else s, op, n, now), n)
  }

  function GlobalTurn(s: State, t: Thread, r: Request, expired: bool): (State, Outcome) {
    var s1 := s.(globalWaiters := Pred(s.globalWaiters));
    if GlobalFree(s, t) then
      (NotifyAll(s1.(globalOwner := Some(t), globalDepth := s.globalDepth + 1)), Completed)
    else if OwnsSection(s.owners, t) then (NotifyAll(s1), Refused)
    else if expired && CanExpire(r, AtGlobal) then (NotifyAll(s1), TimedOut)
    else (Park(s, t, r, AtGlobal), Waiting)
  }

  /** From a successful _enter to the end of the stay. */
  function Entered(s: State, t: Thread, r: Request, now: int, expired: bool): (State, Outcome) {
    match r
    case Acquire(n, _, _) =>
      if WantsExisting(r) && n !in s.content.data then (s, Missing)
      else SectionStart(s, t, r, n, now, expired)
    case Data(op, n, locked) =>
      if op.Remove? && n !in s.content.data then (s, NoKey)
      else if locked && (n in s.lock || Creates(op)) then SectionStart(s, t, r, n, now, expired)
      else (DirectOp(s, op, n, now), Completed)
    case GlobalLock(_) => GlobalTurn(s.(globalWaiters := s.globalWaiters + 1), t, r, expired)
  }

  function EnterTurn(s: State, t: Thread, r: Request, now: int, expired: bool): (State, Outcome) {
    if !EnterBlocked(s, t, r) then Entered(s, t, r, now, expired)
    else if expired && CanExpire(r, AtEnter) then (s, TimedOut)
    else (Park(s, t, r, AtEnter), Waiting)
  }

  function DoResume(s: State, t: Thread, now: int, expired: bool): (State, Outcome)
    requires t in s.waits
  {
    var w, s1 := s.waits[t], s.(waits := s.waits - {t});
    match w.stage
    case AtEnter => EnterTurn(s1, t, w.request, now, expired)
    case AtSection(n, id) => SectionTurn(s1, t, w.request, n, id, now, expired)
    case AtGlobal => GlobalTurn(s1, t, w.request, expired)
  }

  function DoInterrupt(s: State, t: Thread): (State, Outcome)
    requires t in s.waits
  {
    var s1 := s.(waits := s.waits - {t});
    match s.waits[t].stage
    case AtEnter => (s1, Interrupted)
    case AtSection(n, _) => (Leave(s1, n), Interrupted)
    case AtGlobal => (NotifyAll(s1.(globalWaiters := Pred(s1.globalWaiters))), Interrupted)
  }

  function DoRelease(s: State, t: Thread, n: Name): (State, Outcome) {
    if n !in s.lock then (s, NothingHeld)
    else if n !in s.owners || s.owners[n].thread != t then (s, NotOwner)
    else (ReleaseSection(s, n), Released)
  }

  function DoUnlock(s: State, t: Thread): (State, Outcome) {
    if s.globalOwner != Some(t) then (s, NotOwner)
    else if s.globalDepth <= 1 then (NotifyAll(s.(globalDepth := 0, globalOwner := None)), Released)
    else (s.(globalDepth := s.globalDepth - 1), Released)
  }

  predicate Enabled(s: State, e: Event) {
    match e
    case Resume(t, _, _) =>
      t in s.waits && (s.waits[t].notified || CanExpire(s.waits[t].request, s.waits[t].stage))
    case Interrupt(t) => t in s.waits
    case _ => e.thread !in s.waits
  }

  function Step(s: State, e: Event): (State, Outcome)
    requires Enabled(s, e)
  {
    match e
    case Call(t, r, now, expired) => EnterTurn(s, t, r, now, expired)
    case Resume(t, now, expired) => DoResume(s, t, now, expired)
    case Interrupt(t) => DoInterrupt(s, t)
    case Release(t, n) => DoRelease(s, t, n)
    case Unlock(t) => DoUnlock(s, t)
  }

  predicate Run(s: State, es: seq<Event>)
    decreases es
  {
    es == [] || (Enabled(s, es[0]) && Run(Step(s, es[0]).0, es[1..]))
  }

  function After(s: State, es: seq<Event>): State
    requires Run(s, es)
    decreases es
  {
    if es == [] then s else After(Step(s, es[0]).0, es[1..])
  }

  // ---- The invariant ----
  //
  // The parameters describe the thread that is inside the condition: the name it is
  // counted under as a waiter, and whether it is counted as a global waiter.

  ghost function SectionWaiters(waits: map<Thread, Wait>, n: Name): set<Thread> {
    set t | t in waits && waits[t].stage.AtSection? && waits[t].stage.name == n
  }

  ghost function GlobalWaiters(waits: map<Thread, Wait>): set<Thread> {
    set t | t in waits && waits[t].stage.AtGlobal?
  }

  /** Every section with data has a timestamp, and nothing else has one. */
  ghost predicate SameNames(c: Content) {
    c.updated.Keys == c.data.Keys
  }

  /** Distinct names have distinct locks, and owner records say what the RLocks say. */
  ghost predicate Locks(lock: map<Name, LockId>, held: map<LockId, Owner>, next: LockId, owners: map<Name, Owner>) {
    && (forall n :: n in lock ==> lock[n] < next)
    && (forall id :: id in held ==> id < next)
    && (forall m, n :: m in lock && n in lock && m != n ==> lock[m] != lock[n])
    && (forall n :: n in owners ==> n in lock)
    && (forall n :: n in lock ==> (n in owners <==> lock[n] in held))
    && (forall n :: n in owners ==> held[lock[n]] == owners[n] && owners[n].depth > 0)
  }

  /** A name has a lock exactly while it has data, an owner or a waiter. */
  ghost predicate Registered(data: map<Name, map<Key, Value>>, lock: map<Name, LockId>,
                             owners: map<Name, Owner>, waiters: map<Name, nat>, n: Name) {
    && (n in lock <==> n in data || n in owners || WaiterCount(waiters, n) > 0)
    && (n in waiters ==> n in lock)
  }

  ghost predicate Registry(data: map<Name, map<Key, Value>>, lock: map<Name, LockId>,
                           owners: map<Name, Owner>, waiters: map<Name, nat>) {
    forall n :: Registered(data, lock, owners, waiters, n)
  }

  ghost predicate GlobalOwnership(s: State) {
    && (s.globalOwner.Some? <==> s.globalDepth > 0)
    && (s.globalOwner.Some? ==> OnlyOwner(s.owners, s.globalOwner.value) && s.globalOwner.value !in s.waits)
  }

  /** Where a thread may be parked: only a thread waiting for a section owns one, and the
      lock it waits for is the one in the table. */
  ghost predicate WellParked(lock: map<Name, LockId>, owners: map<Name, Owner>, t: Thread, w: Wait) {
    match w.stage
    case AtEnter => !OwnsSection(owners, t)
    case AtGlobal => w.request.GlobalLock? && !OwnsSection(owners, t)
    case AtSection(n, id) =>
      && !w.request.GlobalLock? && w.request.name == n
      && n in lock && lock[n] == id && (n in owners ==> owners[n].thread != t)
  }

  ghost predicate Parking(s: State) {
    forall t :: t in s.waits ==> WellParked(s.lock, s.owners, t, s.waits[t])
  }

  ghost predicate Counts(waiters: map<Name, nat>, globalWaiters: nat, waits: map<Thread, Wait>, extra: Option<Name>,
                         g: nat) {
    && (forall n :: WaiterCount(waiters, n) == |SectionWaiters(waits, n)| + (if extra == Some(n) then 1 else 0))
    && globalWaiters == |GlobalWaiters(waits)| + g
  }

  /** A parked thread that has not been notified since it looked would still wait. */
  ghost predicate NoLostWakeup(s: State) {
    forall t :: t in s.waits && !s.waits[t].notified ==> !Guard(s, t, s.waits[t])
  }

  ghost predicate Steady(s: State, extra: Option<Name>, g: nat) {
    && SameNames(s.content) && Locks(s.lock, s.held, s.nextLock, s.owners)
    && Registry(s.content.data, s.lock, s.owners, s.waiters) && GlobalOwnership(s)
    && Parking(s) && Counts(s.waiters, s.globalWaiters, s.waits, extra, g)
  }

  ghost predicate Mid(s: State, extra: Option<Name>, g: nat) {
    Steady(s, extra, g) && NoLostWakeup(s)
  }

  ghost predicate Inv(s: State) { Mid(s, None, 0) }

  // ---- Each piece keeps the invariant ----

  lemma CountNotified(waits: map<Thread, Wait>, waits1: map<Thread, Wait>)
    requires waits1.Keys == waits.Keys && forall t :: t in waits ==> waits1[t].stage == waits[t].stage
    ensures forall n :: SectionWaiters(waits1, n) == SectionWaiters(waits, n)
    ensures GlobalWaiters(waits1) == GlobalWaiters(waits)
  {
  }

  /** After a notification nobody can have missed one. */
  lemma NotifyKeeps(s: State, extra: Option<Name>, g: nat)
    requires Steady(s, extra, g)
    ensures Mid(NotifyAll(s), extra, g)
  {
    CountNotified(s.waits, NotifyAll(s).waits);
  }

  lemma CountParkedAt(waits: map<Thread, Wait>, t: Thread, w: Wait, n: Name)
    requires t !in waits
    ensures |SectionWaiters(waits[t := w], n)|
      == |SectionWaiters(waits, n)| + (if w.stage.AtSection? && w.stage.name == n then 1 else 0)
  {
    var before, after := SectionWaiters(waits, n), SectionWaiters(waits[t := w], n);
    if w.stage.AtSection? && w.stage.name == n {
      assert after == before + {t};
    } else {
      assert after == before;
    }
  }

  lemma CountParked(waits: map<Thread, Wait>, t: Thread, w: Wait)
    requires t !in waits
    ensures forall n ::
              |SectionWaiters(waits[t := w], n)|
                == |SectionWaiters(waits, n)| + (if w.stage.AtSection? && w.stage.name == n then 1 else 0)
    ensures |GlobalWaiters(waits[t := w])| == |GlobalWaiters(waits)| + (if w.stage.AtGlobal? then 1 else 0)
  {
    forall n { CountParkedAt(waits, t, w, n); }
    var before, after := GlobalWaiters(waits), GlobalWaiters(waits[t := w]);
    if w.stage.AtGlobal? {
      assert after == before + {t};
    } else {
      assert after == before;
    }
  }

  ghost function CountedAs(stage: Stage): Option<Name> {
    if stage.AtSection? then Some(stage.name) else None
  }

  /** A thread leaves the wait set, keeping its place in the counters. */
  lemma UnparkKeeps(s: State, t: Thread)
    requires Inv(s) && t in s.waits
    ensures Mid(s.(waits := s.waits - {t}), CountedAs(s.waits[t].stage), if s.waits[t].stage.AtGlobal? then 1 else 0)
  {
    var s1 := s.(waits := s.waits - {t});
    assert s1.waits[t := s.waits[t]] == s.waits;
    CountParked(s1.waits, t, s.waits[t]);
  }

  /** A thread parks, and from then on the wait set accounts for it. */
  lemma ParkKeeps(s: State, t: Thread, r: Request, stage: Stage)
    requires t !in s.waits && s.globalOwner != Some(t)
    requires Mid(s, CountedAs(stage), if stage.AtGlobal? then 1 else 0)
    requires WellParked(s.lock, s.owners, t, Wait(r, stage, false)) && !Guard(s, t, Wait(r, stage, false))
    ensures Inv(Park(s, t, r, stage))
  {
    CountParked(s.waits, t, Wait(r, stage, false));
  }

  /** The registry, where name n may still have a lock nobody needs. */
  ghost predicate Loose(data: map<Name, map<Key, Value>>, lock: map<Name, LockId>,
                        owners: map<Name, Owner>, waiters: map<Name, nat>, n: Name) {
    && (forall m :: m != n ==> Registered(data, lock, owners, waiters, m))
    && (n in data || n in owners || n in waiters ==> n in lock)
  }

  ghost predicate SteadyBut(s: State, n: Name, extra: Option<Name>) {
    && SameNames(s.content) && Locks(s.lock, s.held, s.nextLock, s.owners)
    && Loose(s.content.data, s.lock, s.owners, s.waiters, n) && GlobalOwnership(s)
    && Parking(s) && Counts(s.waiters, s.globalWaiters, s.waits, extra, 0)
  }

  lemma SteadyIsLoose(s: State, n: Name, extra: Option<Name>)
    requires Steady(s, extra, 0)
    ensures SteadyBut(s, n, extra)
  {
    assert Registered(s.content.data, s.lock, s.owners, s.waiters, n);
  }

  lemma LockForgotten(lock: map<Name, LockId>, held: map<LockId, Owner>, next: LockId, owners: map<Name, Owner>,
                      n: Name)
    requires Locks(lock, held, next, owners) && n !in owners
    ensures Locks(lock - {n}, held, next, owners)
  {
  }

  lemma LockEnsured(lock: map<Name, LockId>, held: map<LockId, Owner>, next: LockId, owners: map<Name, Owner>, n: Name)
    requires Locks(lock, held, next, owners) && n !in lock
    ensures Locks(lock[n := next], held, next + 1, owners)
  {
  }

  lemma LockTaken(lock: map<Name, LockId>, held: map<LockId, Owner>, next: LockId, owners: map<Name, Owner>, n: Name,
                  t: Thread)
    requires Locks(lock, held, next, owners) && n in lock
    requires lock[n] in held ==> held[lock[n]].thread == t
    ensures Locks(lock, More(held, lock[n], t), next, More(owners, n, t))
    ensures SameOwnersBut(owners, More(owners, n, t), t)
  {
    assert n in owners <==> lock[n] in held;
  }

  lemma LockDropped(lock: map<Name, LockId>, held: map<LockId, Owner>, next: LockId, owners: map<Name, Owner>, n: Name)
    requires Locks(lock, held, next, owners) && n in owners
    ensures Locks(lock, Less(held, lock[n]), next, Less(owners, n))
    ensures SameOwnersBut(owners, Less(owners, n), owners[n].thread)
  {
    assert held[lock[n]] == owners[n];
  }

  /** The two owner tables differ only in records of t. */
  ghost predicate SameOwnersBut(owners: map<Name, Owner>, owners1: map<Name, Owner>, t: Thread) {
    forall n :: (n in owners && owners[n].thread != t) || (n in owners1 && owners1[n].thread != t)
      ==> n in owners && n in owners1 && owners[n] == owners1[n]
  }

  lemma OthersOwnTheSame(owners: map<Name, Owner>, owners1: map<Name, Owner>, t: Thread, u: Thread)
    requires SameOwnersBut(owners, owners1, t) && u != t
    ensures OwnsSection(owners, u) <==> OwnsSection(owners1, u)
  {
  }

  lemma RegistryCleaned(data: map<Name, map<Key, Value>>, lock: map<Name, LockId>,
                        owners: map<Name, Owner>, waiters: map<Name, nat>, n: Name)
    requires Loose(data, lock, owners, waiters, n)
    ensures if n in data || n in owners || WaiterCount(waiters, n) > 0 then Registry(data, lock, owners, waiters)
            else Registry(data, lock - {n}, owners, waiters - {n})
    ensures WaiterCount(waiters, n) == 0 ==> forall m :: WaiterCount(waiters - {n}, m) == WaiterCount(waiters, m)
  {
    forall m | m != n
      ensures Registered(data, lock, owners, waiters, m)
      ensures Registered(data, lock - {n}, owners, waiters - {n}, m)
    {
    }
  }

  /** Nobody is parked for a name without waiters. */
  lemma ParkedElsewhere(s: State, n: Name, t: Thread)
    requires Counts(s.waiters, s.globalWaiters, s.waits, None, 0) && WaiterCount(s.waiters, n) == 0
    requires Parking(s) && t in s.waits
    ensures WellParked(s.lock - {n}, s.owners, t, s.waits[t])
  {
    assert t !in SectionWaiters(s.waits, n);
  }

  /** What the guards look at. */
  lemma SameGuards(s: State, s1: State)
    requires s1.content.data == s.content.data && s1.held == s.held && s1.owners == s.owners && s1.waits == s.waits
    requires s1.globalOwner == s.globalOwner && s1.globalWaiters == s.globalWaiters
    ensures NoLostWakeup(s) ==> NoLostWakeup(s1)
  {
  }

  lemma CleanupKeeps(s: State, n: Name)
    requires SteadyBut(s, n, None)
    ensures Steady(Cleanup(s, n), None, 0)
    ensures NoLostWakeup(s) ==> Inv(Cleanup(s, n))
  {
    hide Locks;
    hide Registered;
    hide NoLostWakeup;
    SameGuards(s, Cleanup(s, n));
    RegistryCleaned(s.content.data, s.lock, s.owners, s.waiters, n);
    if Cleanup(s, n) != s {
      LockForgotten(s.lock, s.held, s.nextLock, s.owners, n);
      forall t | t in s.waits { ParkedElsewhere(s, n, t); }
    }
  }

  lemma OneWaiterLess(data: map<Name, map<Key, Value>>, lock: map<Name, LockId>, owners: map<Name, Owner>,
                      waiters: map<Name, nat>, globalWaiters: nat, waits: map<Thread, Wait>, n: Name)
    requires Registry(data, lock, owners, waiters) && Counts(waiters, globalWaiters, waits, Some(n), 0)
    ensures var waiters1 := waiters[n := Pred(WaiterCount(waiters, n))];
            Loose(data, lock, owners, waiters1, n) && Counts(waiters1, globalWaiters, waits, None, 0)
  {
    hide SectionWaiters;
    var waiters1 := waiters[n := Pred(WaiterCount(waiters, n))];
    assert WaiterCount(waiters, n) > 0;
    assert Registered(data, lock, owners, waiters, n);
    forall m
      ensures m != n ==> Registered(data, lock, owners, waiters1, m)
      ensures WaiterCount(waiters1, m) == WaiterCount(waiters, m) - (if m == n then 1 else 0)
    {
      assert Registered(data, lock, owners, waiters, m);
    }
  }

  lemma LeaveKeeps(s: State, n: Name)
    requires Mid(s, Some(n), 0)
    ensures Inv(Leave(s, n))
  {
    var s1 := s.(waiters := s.waiters[n := Pred(WaiterCount(s.waiters, n))]);
    OneWaiterLess(s.content.data, s.lock, s.owners, s.waiters, s.globalWaiters, s.waits, n);
    SameGuards(s, s1);
    SameParking(s, s1);
    hide NoLostWakeup;
    hide Locks;
    hide Counts;
    hide Loose;
    hide Registry;
    hide Parking;
    hide GlobalOwnership;
    hide Cleanup;
    CleanupKeeps(s1, n);
  }

  lemma SameParking(s: State, s1: State)
    requires s1.lock == s.lock && s1.owners == s.owners && s1.waits == s.waits
    requires s1.globalOwner == s.globalOwner && s1.globalDepth == s.globalDepth
    ensures Parking(s) ==> Parking(s1)
    ensures GlobalOwnership(s) ==> GlobalOwnership(s1)
  {
  }

  lemma NewLockParking(s: State, n: Name)
    requires Parking(s) && GlobalOwnership(s) && n !in s.lock
    ensures Parking(EnsureLock(s, n)) && GlobalOwnership(EnsureLock(s, n))
  {
  }

  lemma NewLockLoose(s: State, n: Name)
    requires Registry(s.content.data, s.lock, s.owners, s.waiters) && n !in s.lock
    ensures var s1 := EnsureLock(s, n); Loose(s1.content.data, s1.lock, s1.owners, s1.waiters, n)
  {
    var s1 := EnsureLock(s, n);
    forall m | m != n ensures Registered(s1.content.data, s1.lock, s1.owners, s1.waiters, m) {
      assert Registered(s.content.data, s.lock, s.owners, s.waiters, m);
    }
  }

  lemma EnsureLockKeeps(s: State, n: Name)
    requires Inv(s)
    ensures SteadyBut(EnsureLock(s, n), n, None) && NoLostWakeup(EnsureLock(s, n))
    ensures n in EnsureLock(s, n).lock
  {
    SteadyIsLoose(s, n, None);
    SameGuards(s, EnsureLock(s, n));
    if n !in s.lock {
      LockEnsured(s.lock, s.held, s.nextLock, s.owners, n);
      NewLockParking(s, n);
      NewLockLoose(s, n);
    }
    hide NoLostWakeup;
    hide Locks;
    hide Counts;
    hide Loose;
    hide Registry;
    hide Registered;
    hide Parking;
    hide GlobalOwnership;
    hide SameNames;
  }

  lemma OneMoreWaiter(data: map<Name, map<Key, Value>>, lock: map<Name, LockId>, owners: map<Name, Owner>,
                      waiters: map<Name, nat>, globalWaiters: nat, waits: map<Thread, Wait>, n: Name)
    requires Loose(data, lock, owners, waiters, n) && n in lock && Counts(waiters, globalWaiters, waits, None, 0)
    ensures var waiters1 := waiters[n := WaiterCount(waiters, n) + 1];
            Registry(data, lock, owners, waiters1) && Counts(waiters1, globalWaiters, waits, Some(n), 0)
  {
    hide SectionWaiters;
    var waiters1 := waiters[n := WaiterCount(waiters, n) + 1];
    forall m
      ensures Registered(data, lock, owners, waiters1, m)
      ensures WaiterCount(waiters1, m) == WaiterCount(waiters, m) + (if m == n then 1 else 0)
    {
      assert m != n ==> Registered(data, lock, owners, waiters, m);
    }
  }

  lemma EnlistKeeps(s: State, n: Name)
    requires Inv(s)
    ensures Mid(Enlisted(s, n), Some(n), 0)
  {
    EnsureLockKeeps(s, n);
    var s1, s2 := EnsureLock(s, n), Enlisted(s, n);
    OneMoreWaiter(s1.content.data, s1.lock, s1.owners, s1.waiters, s1.globalWaiters, s1.waits, n);
    SameGuards(s1, s2);
    SameParking(s1, s2);
    hide NoLostWakeup;
    hide Locks;
    hide Counts;
    hide Loose;
    hide Registry;
    hide Parking;
    hide GlobalOwnership;
  }

  lemma TakeKeeps(s: State, t: Thread, n: Name, id: LockId)
    requires Mid(s, Some(n), 0) && t !in s.waits
    requires n in s.lock && s.lock[n] == id && CanEnter(s, t) && LockFree(s, id, t)
    ensures Mid(Take(s, t, n, id), Some(n), 0)
    ensures Take(s, t, n, id).owners[n].thread == t
  {
    var s1 := Take(s, t, n, id);
    LockTaken(s.lock, s.held, s.nextLock, s.owners, n, t);
    forall u | u != t { OthersOwnTheSame(s.owners, s1.owners, t, u); }
    forall m
      ensures Registered(s1.content.data, s1.lock, s1.owners, s1.waiters, m)
    {
      assert Registered(s.content.data, s.lock, s.owners, s.waiters, m);
    }
    forall u | u in s1.waits
      ensures WellParked(s1.lock, s1.owners, u, s1.waits[u])
      ensures Guard(s1, u, s1.waits[u]) ==> Guard(s, u, s.waits[u])
    {
      assert WellParked(s.lock, s.owners, u, s.waits[u]);
    }
  }

  /** New content for a name whose lock exists: nobody's guard becomes true. */
  lemma ContentKeeps(s: State, c: Content, extra: Option<Name>, n: Name)
    requires Mid(s, extra, 0) && SameNames(c) && n in s.lock
    requires n in c.data || n in s.owners
    requires forall m :: m != n ==> (m in c.data <==> m in s.content.data)
    ensures Steady(s.(content := c), extra, 0)
    ensures s.content.data.Keys <= c.data.Keys ==> Mid(s.(content := c), extra, 0)
  {
    var s1 := s.(content := c);
    forall m
      ensures Registered(s1.content.data, s1.lock, s1.owners, s1.waiters, m)
    {
      assert Registered(s.content.data, s.lock, s.owners, s.waiters, m);
    }
    if s.content.data.Keys <= c.data.Keys {
      assert forall u :: u in s1.waits && Guard(s1, u, s1.waits[u]) ==> Guard(s, u, s.waits[u]);
    }
  }

  lemma ReleaseSectionKeeps(s: State, t: Thread, n: Name)
    requires Inv(s) && n in s.owners && s.owners[n].thread == t && t !in s.waits
    ensures Inv(ReleaseSection(s, n))
  {
    var s1 := s.(held := Less(s.held, s.lock[n]), owners := Less(s.owners, n));
    LockDropped(s.lock, s.held, s.nextLock, s.owners, n);
    forall u | u != t { OthersOwnTheSame(s.owners, s1.owners, t, u); }
    assert forall m :: m in s1.owners ==> m in s.owners && s1.owners[m].thread == s.owners[m].thread;
    assert Loose(s1.content.data, s1.lock, s1.owners, s1.waiters, n) by {
      forall m | m != n ensures Registered(s1.content.data, s1.lock, s1.owners, s1.waiters, m) {
        assert Registered(s.content.data, s.lock, s.owners, s.waiters, m);
      }
      assert Registered(s.content.data, s.lock, s.owners, s.waiters, n);
    }
    assert forall u :: u in s1.waits ==> WellParked(s.lock, s.owners, u, s.waits[u]);
    CleanupKeeps(s1, n);
    NotifyKeeps(Cleanup(s1, n), None, 0);
  }

  // ---- Each step keeps the invariant ----

  lemma EnsuredFacts(c: Content, n: Name)
    requires SameNames(c)
    ensures SameNames(Ensured(c, n)) && Ensured(c, n).data.Keys == c.data.Keys + {n}
  {
  }

  lemma ApplyFacts(op: Op, n: Name, now: int, c: Content)
    requires SameNames(c)
    ensures SameNames(Apply(op, n, now, c))
    ensures Apply(op, n, now, c).data.Keys ==
      if Creates(op) then c.data.Keys + {n} else if op.Delete? then c.data.Keys - {n} else c.data.Keys
    ensures forall m :: m != n ==> (m in Apply(op, n, now, c).data <==> m in c.data)
  {
  }

  lemma SectionGrantedKeeps(s: State, t: Thread, r: Request, n: Name, id: LockId, now: int)
    requires Mid(s, Some(n), 0) && t !in s.waits && !r.GlobalLock?
    requires n in s.lock && s.lock[n] == id && CanEnter(s, t) && LockFree(s, id, t)
    ensures Inv(SectionGranted(s, t, r, n, id, now).0)
  {
    TakeKeeps(s, t, n, id);
    LeaveKeeps(Take(s, t, n, id), n);
    var s1 := Leave(Take(s, t, n, id), n);
    assert n in s1.owners && s1.owners[n].thread == t && n in s1.lock;
    assert SameNames(s1.content);
    hide Steady;
    hide NoLostWakeup;
    if r.Data? {
      ApplyFacts(r.op, n, now, s1.content);
      ContentKeeps(s1, Apply(r.op, n, now, s1.content), None, n);
      var s2 := RunOp(s1, r.op, n, now);
      if r.op.Delete? { NotifyKeeps(s1.(content := Apply(r.op, n, now, s1.content)), None, 0); }
      ReleaseSectionKeeps(s2, t, n);
    } else if !WantsExisting(r) {
      EnsuredFacts(s1.content, n);
      ContentKeeps(s1, Ensured(s1.content, n), None, n);
    }
  }

  lemma SectionTurnKeeps(s: State, t: Thread, r: Request, n: Name, id: LockId, now: int, expired: bool)
    requires Mid(s, Some(n), 0) && t !in s.waits && !r.GlobalLock? && r.name == n
    requires n in s.lock && s.lock[n] == id
    ensures Inv(SectionTurn(s, t, r, n, id, now, expired).0)
  {
    if WantsExisting(r) && n !in s.content.data {
      LeaveKeeps(s, n);
    } else if CanEnter(s, t) && LockFree(s, id, t) {
      SectionGrantedKeeps(s, t, r, n, id, now);
    } else if expired && CanExpire(r, AtSection(n, id)) {
      LeaveKeeps(s, n);
    } else {
      OwnerIsNotParked(s, t, n, id);
      assert n in s.owners && s.owners[n].thread == t ==> OwnsSection(s.owners, t);
      ParkKeeps(s, t, r, AtSection(n, id));
    }
  }

  /** The global owner obtains any section at once. */
  lemma OwnerIsNotParked(s: State, t: Thread, n: Name, id: LockId)
    requires Locks(s.lock, s.held, s.nextLock, s.owners) && GlobalOwnership(s)
    requires n in s.lock && s.lock[n] == id
    ensures s.globalOwner == Some(t) ==> CanEnter(s, t) && LockFree(s, id, t)
  {
  }

  lemma LooseContent(s: State, c: Content, n: Name)
    requires SteadyBut(s, n, None) && SameNames(c) && (n in c.data ==> n in s.lock)
    requires forall m :: m != n ==> (m in c.data <==> m in s.content.data)
    ensures SteadyBut(s.(content := c), n, None)
    ensures NoLostWakeup(s) && s.content.data.Keys <= c.data.Keys ==> NoLostWakeup(s.(content := c))
  {
    var s1 := s.(content := c);
    forall m | m != n ensures Registered(s1.content.data, s1.lock, s1.owners, s1.waiters, m) {
      assert Registered(s.content.data, s.lock, s.owners, s.waiters, m);
    }
    if s.content.data.Keys <= c.data.Keys {
      assert forall u :: u in s1.waits && Guard(s1, u, s1.waits[u]) ==> Guard(s, u, s.waits[u]);
    }
  }

  lemma DirectOpKeeps(s: State, op: Op, n: Name, now: int)
    requires Inv(s)
    ensures Inv(DirectOp(s, op, n, now))
  {
    var c := Apply(op, n, now, s.content);
    ApplyFacts(op, n, now, s.content);
    EnsureLockKeeps(s, n);
    SteadyIsLoose(s, n, None);
    var s1 := if Creates(op) then EnsureLock(s, n) else s;
    LooseContent(s1, c, n);
    CleanupKeeps(s1.(content := c), n);
    if op.Delete? {
      CleanupAfterNotify(s1.(content := c), n);
      NotifyKeeps(Cleanup(s1.(content := c), n), None, 0);
    }
  }

  lemma CleanupAfterNotify(s: State, n: Name)
    ensures Cleanup(NotifyAll(s), n) == NotifyAll(Cleanup(s, n))
  {
  }

  lemma GlobalTurnKeeps(s: State, t: Thread, r: Request, expired: bool)
    requires Mid(s, None, 1) && t !in s.waits && r.GlobalLock?
    ensures Inv(GlobalTurn(s, t, r, expired).0)
  {
    var s1 := s.(globalWaiters := Pred(s.globalWaiters));
    if GlobalFree(s, t) {
      NotifyKeeps(s1.(globalOwner := Some(t), globalDepth := s.globalDepth + 1), None, 0);
    } else if OwnsSection(s.owners, t) || (expired && CanExpire(r, AtGlobal)) {
      NotifyKeeps(s1, None, 0);
    } else {
      ParkKeeps(s, t, r, AtGlobal);
    }
  }

  lemma GlobalStartKeeps(s: State, t: Thread, r: Request, expired: bool)
    requires Inv(s) && t !in s.waits && r.GlobalLock?
    ensures Inv(GlobalTurn(s.(globalWaiters := s.globalWaiters + 1), t, r, expired).0)
  {
    var s1 := s.(globalWaiters := s.globalWaiters + 1);
    assert forall u :: u in s1.waits && Guard(s1, u, s1.waits[u]) ==> Guard(s, u, s.waits[u]);
    GlobalTurnKeeps(s1, t, r, expired);
  }

  lemma SectionStartKeeps(s: State, t: Thread, r: Request, n: Name, now: int, expired: bool)
    requires Inv(s) && t !in s.waits && !r.GlobalLock? && r.name == n
    ensures Inv(SectionStart(s, t, r, n, now, expired).0)
  {
    EnlistKeeps(s, n);
    hide Steady;
    hide NoLostWakeup;
    hide SectionTurn;
    var s1 := Enlisted(s, n);
    SectionTurnKeeps(s1, t, r, n, s1.lock[n], now, expired);
  }

  lemma EnteredKeeps(s: State, t: Thread, r: Request, now: int, expired: bool)
    requires Inv(s) && t !in s.waits
    ensures Inv(Entered(s, t, r, now, expired).0)
  {
    hide Inv;
    hide SectionStart;
    hide DirectOp;
    hide GlobalTurn;
    match r
    case Acquire(n, _, _) => SectionStartKeeps(s, t, r, n, now, expired);
    case Data(op, n, _) =>
      SectionStartKeeps(s, t, r, n, now, expired);
      DirectOpKeeps(s, op, n, now);
    case GlobalLock(_) => GlobalStartKeeps(s, t, r, expired);
  }

  lemma EnterTurnKeeps(s: State, t: Thread, r: Request, now: int, expired: bool)
    requires Inv(s) && t !in s.waits
    ensures Inv(EnterTurn(s, t, r, now, expired).0)
  {
    if !EnterBlocked(s, t, r) {
      EnteredKeeps(s, t, r, now, expired);
    } else if !(expired && CanExpire(r, AtEnter)) {
      ParkKeeps(s, t, r, AtEnter);
    }
  }

  lemma ResumeKeeps(s: State, t: Thread, now: int, expired: bool)
    requires Inv(s) && t in s.waits
    ensures Inv(DoResume(s, t, now, expired).0)
  {
    UnparkKeeps(s, t);
    var w, s1 := s.waits[t], s.(waits := s.waits - {t});
    match w.stage
    case AtEnter => EnterTurnKeeps(s1, t, w.request, now, expired);
    case AtSection(n, id) => SectionTurnKeeps(s1, t, w.request, n, id, now, expired);
    case AtGlobal => GlobalTurnKeeps(s1, t, w.request, expired);
  }

  lemma InterruptKeeps(s: State, t: Thread)
    requires Inv(s) && t in s.waits
    ensures Inv(DoInterrupt(s, t).0)
  {
    UnparkKeeps(s, t);
    var w, s1 := s.waits[t], s.(waits := s.waits - {t});
    match w.stage
    case AtEnter =>
    case AtSection(n, id) => LeaveKeeps(s1, n);
    case AtGlobal => NotifyKeeps(s1.(globalWaiters := Pred(s1.globalWaiters)), None, 0);
  }

  lemma UnlockKeeps(s: State, t: Thread)
    requires Inv(s)
    ensures Inv(DoUnlock(s, t).0)
  {
    if s.globalOwner == Some(t) {
      if s.globalDepth <= 1 {
        NotifyKeeps(s.(globalDepth := 0, globalOwner := None), None, 0);
      } else {
        assert forall u :: u in s.waits && !s.waits[u].notified ==> !Guard(s, u, s.waits[u]);
      }
    }
  }

  lemma StepKeepsInv(s: State, e: Event)
    requires Inv(s) && Enabled(s, e)
    ensures Inv(Step(s, e).0)
  {
    match e
    case Call(t, r, now, expired) => EnterTurnKeeps(s, t, r, now, expired);
    case Resume(t, now, expired) => ResumeKeeps(s, t, now, expired);
    case Interrupt(t) => InterruptKeeps(s, t);
    case Release(t, n) => if n in s.lock && n in s.owners && s.owners[n].thread == t { ReleaseSectionKeeps(s, t, n); }
    case Unlock(t) => UnlockKeeps(s, t);
  }

  lemma {:induction false} RunKeepsInv(s: State, es: seq<Event>)
    requires Inv(s) && Run(s, es)
    ensures Inv(After(s, es))
    decreases es
  {
    if es != [] {
      StepKeepsInv(s, es[0]);
      RunKeepsInv(Step(s, es[0]).0, es[1..]);
    }
  }

  /** Every reachable state satisfies the invariant. */
  lemma Reachable(es: seq<Event>)
    requires Run(Init, es)
    ensures Inv(After(Init, es))
  {
    assert forall n :: Registered(Init.content.data, Init.lock, Init.owners, Init.waiters, n);
    assert forall n :: SectionWaiters(Init.waits, n) == {};
    assert GlobalWaiters(Init.waits) == {};
    RunKeepsInv(Init, es);
  }

  // ---- The registry ----

  /** The lock table's names are exactly those with data, an owner, or a thread waiting. */
  lemma RegistryIsExact(s: State, n: Name)
    requires Inv(s)
    ensures n in s.lock <==>
      || n in s.content.data || n in s.owners
      || exists t :: t in s.waits && s.waits[t].stage.AtSection? && s.waits[t].stage.name == n
  {
    assert Registered(s.content.data, s.lock, s.owners, s.waiters, n);
    if WaiterCount(s.waiters, n) > 0 {
      assert SectionWaiters(s.waits, n) != {};
      var t :| t in SectionWaiters(s.waits, n);
    } else {
      assert SectionWaiters(s.waits, n) == {};
      assert forall t ::
               t in s.waits && s.waits[t].stage.AtSection? && s.waits[t].stage.name == n ==>
                 t in SectionWaiters(s.waits, n);
    }
  }

  lemma LeaveTable(s: State, n: Name, m: Name)
    requires m in Leave(s, n).lock
    ensures m in s.lock && Leave(s, n).lock[m] == s.lock[m]
  {
  }

  lemma ReleaseTable(s: State, n: Name, m: Name)
    requires n in s.lock && m in ReleaseSection(s, n).lock
    ensures m in s.lock && ReleaseSection(s, n).lock[m] == s.lock[m]
  {
  }

  /** After its lock has been looked up or created, a step only removes table entries. */
  lemma SectionTurnTable(s: State, t: Thread, r: Request, n: Name, id: LockId, now: int, expired: bool, m: Name)
    requires m in SectionTurn(s, t, r, n, id, now, expired).0.lock
    ensures m in s.lock && SectionTurn(s, t, r, n, id, now, expired).0.lock[m] == s.lock[m]
  {
    var s1 := Take(s, t, n, id);
    if m in Leave(s, n).lock { LeaveTable(s, n, m); }
    if m in Leave(s1, n).lock { LeaveTable(s1, n, m); }
    if CanEnter(s, t) && LockFree(s, id, t) && r.Data? {
      var s2 := RunOp(Leave(s1, n), r.op, n, now);
      if n in s2.lock && m in ReleaseSection(s2, n).lock { ReleaseTable(s2, n, m); }
    }
  }

  lemma DirectTable(s: State, op: Op, n: Name, now: int, m: Name)
    requires m in s.lock && m in DirectOp(s, op, n, now).lock
    ensures DirectOp(s, op, n, now).lock[m] == s.lock[m]
  {
  }

  lemma EnteredTable(s: State, t: Thread, r: Request, now: int, expired: bool, m: Name)
    requires m in s.lock && m in Entered(s, t, r, now, expired).0.lock
    ensures Entered(s, t, r, now, expired).0.lock[m] == s.lock[m]
  {
    if !r.GlobalLock? {
      var s1 := Enlisted(s, r.name);
      if r.Data? && m in DirectOp(s, r.op, r.name, now).lock { DirectTable(s, r.op, r.name, now, m); }
      if m in SectionStart(s, t, r, r.name, now, expired).0.lock {
        SectionTurnTable(s1, t, r, r.name, s1.lock[r.name], now, expired, m);
      }
    }
  }

  lemma LockIdentityStep(s: State, e: Event, n: Name)
    requires Inv(s) && Enabled(s, e) && n in s.lock && n in Step(s, e).0.lock
    ensures Step(s, e).0.lock[n] == s.lock[n]
  {
    match e
    case Call(t, r, now, expired) => { if !EnterBlocked(s, t, r) { EnteredTable(s, t, r, now, expired, n); } }
    case Resume(t, now, expired) =>
      var w, s1 := s.waits[t], s.(waits := s.waits - {t});
      match w.stage {
        case AtEnter => if !EnterBlocked(s1, t, w.request) { EnteredTable(s1, t, w.request, now, expired, n); }
        case AtSection(m, id) => SectionTurnTable(s1, t, w.request, m, id, now, expired, n);
        case AtGlobal =>
      }
    case _ =>
  }

  predicate LockedThroughout(s: State, es: seq<Event>, n: Name)
    requires Run(s, es)
    decreases es
  {
    n in s.lock && (es == [] || LockedThroughout(Step(s, es[0]).0, es[1..], n))
  }

  /** As long as a name stays registered it keeps its lock, through any delete and recreate. */
  lemma {:induction false} LockIdentity(s: State, es: seq<Event>, n: Name)
    requires Inv(s) && Run(s, es) && LockedThroughout(s, es, n)
    ensures n in After(s, es).lock && After(s, es).lock[n] == s.lock[n]
    decreases es
  {
    if es != [] {
      StepKeepsInv(s, es[0]);
      LockIdentityStep(s, es[0], n);
      LockIdentity(Step(s, es[0]).0, es[1..], n);
    }
  }

  // ---- Who waits for whom ----

  /** u is a reason why t is parked. */
  predicate WaitsFor(s: State, t: Thread, u: Thread) {
    t in s.waits &&
    match s.waits[t].stage
    case AtEnter => GateHolder(s, t, u)
    case AtGlobal => u != t && (s.globalOwner == Some(u) || OwnsSection(s.owners, u))
    case AtSection(n, id) => WaitsForOwner(s, t, u) || GateHolder(s, t, u)
  }

  predicate GateHolder(s: State, t: Thread, u: Thread) {
    u != t && !CanEnter(s, t) && (s.globalOwner == Some(u) || (u in s.waits && s.waits[u].stage.AtGlobal?))
  }

  predicate WaitsForOwner(s: State, t: Thread, u: Thread) {
    && t in s.waits && s.waits[t].stage.AtSection? && u != t
    && s.waits[t].stage.lockId in s.held && s.held[s.waits[t].stage.lockId].thread == u
  }

  /** Every thread that would wait again waits for some other thread. */
  lemma BlockedBySomeone(s: State, t: Thread) returns (u: Thread)
    requires Inv(s) && t in s.waits && !Guard(s, t, s.waits[t])
    ensures WaitsFor(s, t, u)
  {
    if s.globalOwner.Some? && s.globalOwner != Some(t) {
      u := s.globalOwner.value;
    } else if s.waits[t].stage.AtGlobal? {
      var n :| n in s.owners && s.owners[n].thread != t;
      u := s.owners[n].thread;
    } else if CanEnter(s, t) {
      u := s.held[s.waits[t].stage.lockId].thread;
    } else {
      assert |GlobalWaiters(s.waits)| > 0;
      u :| u in GlobalWaiters(s.waits);
    }
  }

  /** Whoever is waited for is the global owner, who never waits, a global waiter, or a
      section owner. */
  lemma WaitedFor(s: State, t: Thread, u: Thread)
    requires Inv(s) && WaitsFor(s, t, u) && u in s.waits
    ensures s.waits[u].stage.AtGlobal? || (s.waits[u].stage.AtSection? && OwnsSection(s.owners, u))
    ensures OwnsSection(s.owners, t) ==> WaitsForOwner(s, t, u) && OwnsSection(s.owners, u)
    ensures s.waits[t].stage.AtGlobal? ==> OwnsSection(s.owners, u)
  {
  }

  ghost predicate Cycle(s: State, ts: seq<Thread>) {
    |ts| >= 2 && ts[0] == ts[|ts| - 1] && forall i :: 0 <= i < |ts| - 1 ==> WaitsFor(s, ts[i], ts[i + 1])
  }

  lemma {:induction false} OwnersAlong(s: State, ts: seq<Thread>, i: nat, j: nat)
    requires Inv(s) && Cycle(s, ts) && i <= j < |ts| && OwnsSection(s.owners, ts[i])
    ensures OwnsSection(s.owners, ts[j])
    decreases j
  {
    if i < j {
      OwnersAlong(s, ts, i, j - 1);
      assert WaitsFor(s, ts[j - 1], ts[j]);
      CycleIsParked(s, ts, j);
      WaitedFor(s, ts[j - 1], ts[j]);
    }
  }

  lemma CycleIsParked(s: State, ts: seq<Thread>, j: nat)
    requires Cycle(s, ts) && j < |ts|
    ensures ts[j] in s.waits
  {
    if j == |ts| - 1 {
      assert WaitsFor(s, ts[0], ts[0 + 1]);
    } else {
      assert WaitsFor(s, ts[j], ts[j + 1]);
    }
  }

  /** No circular wait passes through the entry gate or the global lock: every thread of a
      waits-for cycle owns a section and waits for a section the next one owns. */
  lemma CyclesAreSectionCycles(s: State, ts: seq<Thread>, i: nat)
    requires Inv(s) && Cycle(s, ts) && i < |ts| - 1
    ensures OwnsSection(s.owners, ts[i]) && WaitsForOwner(s, ts[i], ts[i + 1])
  {
    var last := |ts| - 1;
    assert WaitsFor(s, ts[0], ts[0 + 1]);
    assert last >= 2;
    CycleIsParked(s, ts, 1);
    WaitedFor(s, ts[0], ts[1]);
    if OwnsSection(s.owners, ts[1]) {
      OwnersAlong(s, ts, 1, last);
    } else {
      // ts[1] waits for the global lock, so its successor owns a section.
      assert WaitsFor(s, ts[1], ts[1 + 1]);
      CycleIsParked(s, ts, 2);
      WaitedFor(s, ts[1], ts[2]);
      OwnersAlong(s, ts, 2, last);
    }
    OwnersAlong(s, ts, 0, i);
    CycleIsParked(s, ts, i + 1);
    assert WaitsFor(s, ts[i], ts[i + 1]);
    WaitedFor(s, ts[i], ts[i + 1]);
  }

  /** Threads take sections in increasing rank. */
  ghost predicate Ordered(s: State, rank: Name -> nat) {
    forall t, m :: t in s.waits && s.waits[t].stage.AtSection? && m in s.owners && s.owners[m].thread == t
      ==> rank(m) < rank(s.waits[t].stage.name)
  }

  lemma {:induction false} Highest(names: set<Name>, rank: Name -> nat) returns (n: Name)
    requires names != {}
    ensures n in names && forall m :: m in names ==> rank(m) <= rank(n)
    decreases |names|
  {
    n :| n in names;
    var rest := names - {n};
    if rest != {} {
      var k := Highest(rest, rank);
      if rank(k) > rank(n) { n := k; }
    }
  }

  /** A parked thread that would not wait at its next turn. */
  predicate Ready(s: State, t: Thread) {
    t in s.waits && s.waits[t].notified && Guard(s, t, s.waits[t])
  }

  /** If threads take sections in a fixed order, then in every state with a waiting thread
      some holder is running or some notified waiter will not wait again. */
  lemma OrderedMeansProgress(s: State, rank: Name -> nat) returns (t: Thread)
    requires Inv(s) && Ordered(s, rank) && s.waits != map[]
    ensures (t !in s.waits && (s.globalOwner == Some(t) || OwnsSection(s.owners, t))) || Ready(s, t)
  {
    if s.globalOwner.Some? {
      t := s.globalOwner.value;
    } else if s.owners != map[] {
      var n := Highest(s.owners.Keys, rank);
      t := s.owners[n].thread;
      assert OwnsSection(s.owners, t);
      if t in s.waits {
        assert WellParked(s.lock, s.owners, t, s.waits[t]);
        var m := s.waits[t].stage.name;
        assert rank(n) < rank(m) && m !in s.owners;
      }
    } else if GlobalWaiters(s.waits) != {} {
      t :| t in GlobalWaiters(s.waits);
    } else {
      t :| t in s.waits;
      assert WellParked(s.lock, s.owners, t, s.waits[t]);
      assert s.globalWaiters == 0;
    }
  }

  // ---- Isolation under the global lock ----

  /** What a request does to the content when it runs alone. */
  function Effect(r: Request, now: int, c: Content): Content {
    match r
    case Data(op, n, _) => Apply(op, n, now, c)
    case Acquire(n, exists_, _) => if exists_ then c else Ensured(c, n)
    case GlobalLock(_) => c
  }

  lemma GrantedContent(s: State, t: Thread, r: Request, n: Name, id: LockId, now: int)
    requires !r.GlobalLock? && r.name == n
    ensures SectionGranted(s, t, r, n, id, now).0.content == Effect(r, now, s.content)
    ensures SectionGranted(s, t, r, n, id, now).1 == (if r.Data? then OpOutcome(r.op, n, s.content) else Completed)
  {
  }

  lemma LeaveContent(s: State, n: Name)
    ensures Leave(s, n).content == s.content && Leave(s, n).owners == s.owners
    ensures Leave(s, n).globalOwner == s.globalOwner && Leave(s, n).globalDepth == s.globalDepth
  {
  }

  lemma GrantedGlobal(s: State, t: Thread, r: Request, n: Name, id: LockId, now: int)
    ensures SectionGranted(s, t, r, n, id, now).0.globalOwner == s.globalOwner
  {
  }

  /** A turn that nothing holds up. */
  lemma FreeTurn(s: State, t: Thread, r: Request, n: Name, id: LockId, now: int, expired: bool)
    requires !r.GlobalLock? && r.name == n && CanEnter(s, t) && LockFree(s, id, t)
    ensures var (s1, o) := SectionTurn(s, t, r, n, id, now, expired);
            s1.content == Effect(r, now, s.content) && s1.globalOwner == s.globalOwner
            && o !in {Waiting, TimedOut, Refused}
  {
    GrantedContent(s, t, r, n, id, now);
    GrantedGlobal(s, t, r, n, id, now);
    LeaveContent(s, n);
  }

  /** A turn that the gate holds up. */
  lemma ShutTurn(s: State, t: Thread, r: Request, n: Name, id: LockId, now: int, expired: bool)
    requires !CanEnter(s, t)
    ensures var (s1, o) := SectionTurn(s, t, r, n, id, now, expired);
            s1.content == s.content && s1.owners == s.owners
            && s1.globalOwner == s.globalOwner && s1.globalDepth == s.globalDepth
            && o in {Missing, TimedOut, Waiting}
            && (o == Missing <==> WantsExisting(r) && n !in s.content.data)
  {
    LeaveContent(s, n);
  }

  lemma DirectContent(s: State, op: Op, n: Name, now: int)
    ensures DirectOp(s, op, n, now).content == Apply(op, n, now, s.content)
    ensures DirectOp(s, op, n, now).globalOwner == s.globalOwner
  {
  }

  /** A section request of the global owner finds its lock free. */
  lemma OwnSectionContent(s: State, t: Thread, r: Request, n: Name, now: int, expired: bool)
    requires Inv(s) && s.globalOwner == Some(t) && !r.GlobalLock? && r.name == n
    ensures var (s1, o) := SectionStart(s, t, r, n, now, expired);
            && s1.content == Effect(r, now, s.content) && s1.globalOwner == s.globalOwner
            && o !in {Waiting, TimedOut, Refused}
  {
    EnlistKeeps(s, n);
    var s1 := Enlisted(s, n);
    OwnerIsNotParked(s1, t, n, s1.lock[n]);
    hide Inv;
    hide Mid;
    FreeTurn(s1, t, r, n, s1.lock[n], now, expired);
  }

  /** A request that is not held up has exactly its effect, whatever path it takes. */
  lemma OwnContent(s: State, t: Thread, r: Request, now: int, expired: bool)
    requires Inv(s) && t !in s.waits && s.globalOwner == Some(t)
    ensures EnterTurn(s, t, r, now, expired).0.content == Effect(r, now, s.content)
    ensures EnterTurn(s, t, r, now, expired).0.globalOwner == s.globalOwner
    ensures EnterTurn(s, t, r, now, expired).1 !in {Waiting, TimedOut, Refused}
  {
    assert CanEnter(s, t) && OnlyOwner(s.owners, t);
    if !r.GlobalLock? {
      OwnSectionContent(s, t, r, r.name, now, expired);
      hide Inv;
      hide SectionStart;
      if r.Data? { DirectContent(s, r.op, r.name, now); }
      hide DirectOp;
    }
  }

  lemma OwnStep(s: State, e: Event, g: Thread)
    requires Inv(s) && Enabled(s, e) && s.globalOwner == Some(g) && e.thread == g
    ensures Step(s, e).0.content == if e.Call? then Effect(e.request, e.now, s.content) else s.content
  {
    if e.Call? { OwnContent(s, g, e.request, e.now, e.expired); }
  }

  /** Nothing of the store changes or is read, except that a thread already parked in an
      existence-checking acquire learns that its section is gone. */
  predicate Untouched(s: State, e: Event, s1: State, o: Outcome) {
    && s1.content == s.content && s1.owners == s.owners
    && s1.globalOwner == s.globalOwner && s1.globalDepth == s.globalDepth
    && o !in {Completed, NoKey, Released}
    && (o == Missing <==>
          e.Resume? && e.thread in s.waits && s.waits[e.thread].stage.AtSection?
          && WantsExisting(s.waits[e.thread].request)
          && s.waits[e.thread].stage.name !in s.content.data)
  }

  lemma ForeignResume(s: State, e: Event)
    requires Enabled(s, e) && !CanEnter(s, e.thread) && e.Resume? && s.globalOwner.Some?
    ensures Untouched(s, e, Step(s, e).0, Step(s, e).1)
  {
    hide Entered;
    var t := e.thread;
    if s.waits[t].stage.AtSection? {
      hide SectionTurn;
      hide EnterTurn;
      var w, s1 := s.waits[t], s.(waits := s.waits - {t});
      ShutTurn(s1, t, w.request, w.stage.name, w.stage.lockId, e.now, e.expired);
    }
  }

  lemma ForeignInterrupt(s: State, e: Event)
    requires Enabled(s, e) && e.Interrupt?
    ensures Untouched(s, e, Step(s, e).0, Step(s, e).1)
  {
    if s.waits[e.thread].stage.AtSection? {
      LeaveContent(s.(waits := s.waits - {e.thread}), s.waits[e.thread].stage.name);
    }
  }

  /** While another thread has the global lock, no step touches the content, and the parked
      existence check is the one that reads it. */
  lemma ForeignStep(s: State, e: Event, g: Thread)
    requires Inv(s) && Enabled(s, e) && s.globalOwner == Some(g) && e.thread != g
    ensures Untouched(s, e, Step(s, e).0, Step(s, e).1)
  {
    assert !CanEnter(s, e.thread) && OnlyOwner(s.owners, g);
    hide Inv;
    if e.Resume? {
      ForeignResume(s, e);
    } else if e.Interrupt? {
      ForeignInterrupt(s, e);
    }
  }

  // ---- A parked existence check that reads under a foreign global lock ----

  lemma {:induction false} RunsOn(s: State, es: seq<Event>, e: Event)
    requires Run(s, es) && Enabled(After(s, es), e)
    ensures Run(s, es + [e]) && After(s, es + [e]) == Step(After(s, es), e).0
    decreases es
  {
    hide Enabled;
    hide Step;
    if es == [] {
      assert [] + [e] == [e] && [e][1..] == [];
      assert Run(s, [e]) && After(s, [e]) == After(Step(s, e).0, []);
    } else {
      assert (es + [e])[1..] == es[1..] + [e];
      RunsOn(Step(s, es[0]).0, es[1..], e);
    }
  }

  const TAKE := Call(1, Acquire("n", false, false), 0, false)
  const CHECK := Call(2, Acquire("n", true, false), 0, false)
  const LOCK := Call(1, GlobalLock(false), 0, false)
  const DELETE := Call(1, Data(Delete, "n", true), 0, false)

  /** Thread 1 owns section "n"; the store as far as it may differ on the way. */
  function Parked(c: Content, waiters: nat, g: nat, waits: map<Thread, Wait>): State {
    State(c, map["n" := 0], map[0 := Owner(1, 1)], 1, map["n" := Owner(1, 1)], map["n" := waiters],
          if g > 0 then Some(1) else None, g, 0, waits)
  }

  /** Where thread 2 waits. */
  function Checking(notified: bool): map<Thread, Wait> { map[2 := Wait(CHECK.request, AtSection("n", 0), notified)] }

  const ONE := Content(map["n" := map[]], map["n" := 0])

  lemma TakeStep()
    ensures Enabled(Init, TAKE) && Step(Init, TAKE).0 == Parked(ONE, 0, 0, map[])
  {
  }

  lemma CheckStep()
    ensures var s := Parked(ONE, 0, 0, map[]);
            Enabled(s, CHECK) && Step(s, CHECK).0 == Parked(ONE, 1, 0, Checking(false))
  {
  }

  lemma LockStep()
    ensures var s := Parked(ONE, 1, 0, Checking(false));
            Enabled(s, LOCK) && Step(s, LOCK).0 == Parked(ONE, 1, 1, Checking(true))
  {
    hide SectionStart;
    hide DirectOp;
    var s := Parked(ONE, 1, 0, Checking(false));
    assert GlobalFree(s, 1);
    assert NotifyAll(s).waits == Checking(true);
  }

  lemma DeleteStep()
    ensures var s := Parked(ONE, 1, 1, Checking(true));
            Enabled(s, DELETE) && Step(s, DELETE).0 == Parked(Content(map[], map[]), 1, 1, Checking(true))
  {
    hide DirectOp;
    hide GlobalTurn;
    var s := Parked(ONE, 1, 1, Checking(true));
    assert NotifyAll(s).waits == Checking(true);
  }

  /** Thread 2 checks for a section that thread 1 owns; thread 1 locks the store and deletes the
      section; and thread 2 learns it while thread 1 still has the global lock. */
  lemma EarlyAnswer()
    ensures var es := [TAKE] + [CHECK] + [LOCK] + [DELETE];
            && Run(Init, es) && After(Init, es).globalOwner == Some(1)
            && Enabled(After(Init, es), Resume(2, 0, false)) && Step(After(Init, es), Resume(2, 0, false)).1 == Missing
  {
    hide Enabled;
    hide Step;
    TakeStep();
    RunsOn(Init, [], TAKE);
    assert [] + [TAKE] == [TAKE];
    CheckStep();
    RunsOn(Init, [TAKE], CHECK);
    LockStep();
    RunsOn(Init, [TAKE] + [CHECK], LOCK);
    DeleteStep();
    RunsOn(Init, [TAKE] + [CHECK] + [LOCK], DELETE);
    ResumeStep();
  }

  lemma ResumeStep()
    ensures var s := Parked(Content(map[], map[]), 1, 1, Checking(true));
            Enabled(s, Resume(2, 0, false)) && Step(s, Resume(2, 0, false)).1 == Missing
  {
  }

  predicate HoldsGlobal(s: State, es: seq<Event>, g: Thread)
    requires Run(s, es)
    decreases es
  {
    s.globalOwner == Some(g) && (es == [] || HoldsGlobal(Step(s, es[0]).0, es[1..], g))
  }

  /** The content as g's own calls alone make it. */
  function OwnEffects(es: seq<Event>, g: Thread, c: Content): Content {
    if es == [] then c
    else OwnEffects(es[1..], g, if es[0].Call? && es[0].thread == g then Effect(es[0].request, es[0].now, c) else c)
  }

  /** Isolation: between a successful lock() and the last unlock(), the store's content is what
      the owner's own operations make of it, whatever the other threads attempt, with their
      sections' locks or without. */
  lemma {:induction false} GlobalIsolation(s: State, es: seq<Event>, g: Thread)
    requires Inv(s) && Run(s, es) && HoldsGlobal(s, es, g)
    ensures After(s, es).content == OwnEffects(es, g, s.content)
    decreases es
  {
    if es != [] {
      var e := es[0];
      StepKeepsInv(s, e);
      if e.thread != g {
        ForeignStep(s, e, g);
      } else {
        OwnStep(s, e, g);
      }
      GlobalIsolation(Step(s, e).0, es[1..], g);
    }
  }

  // ---- Isolation of an owned section ----

  datatype View = View(section: Option<map<Key, Value>>, updated: Option<int>)

  function Look(c: Content, n: Name): View {
    View(if n in c.data then Some(c.data[n]) else None, if n in c.updated then Some(c.updated[n]) else None)
  }

  /** Not an operation that opts out of n's exclusion. */
  predicate Respects(r: Request, n: Name) {
    r.Data? && r.name == n ==> r.locked
  }

  ghost predicate OthersRespect(waits: map<Thread, Wait>, t: Thread, n: Name) {
    forall u :: u in waits && u != t ==> Respects(waits[u].request, n)
  }

  predicate OthersCallRespect(es: seq<Event>, t: Thread, n: Name) {
    forall i :: 0 <= i < |es| && es[i].Call? && es[i].thread != t ==> Respects(es[i].request, n)
  }

  predicate OwnsThroughout(s: State, es: seq<Event>, t: Thread, n: Name)
    requires Run(s, es)
    decreases es
  {
    n in s.owners && s.owners[n].thread == t && (es == [] || OwnsThroughout(Step(s, es[0]).0, es[1..], t, n))
  }

  function EffectsOn(es: seq<Event>, t: Thread, n: Name, c: Content): Content {
    if es == [] then c
    else
      var e := es[0];
      EffectsOn(es[1..], t, n,
        if e.Call? && e.thread == t && !e.request.GlobalLock? && e.request.name == n
        then Effect(e.request, e.now, c) else c)
  }

  lemma EffectElsewhere(r: Request, now: int, c: Content, n: Name)
    requires r.GlobalLock? || r.name != n
    ensures Look(Effect(r, now, c), n) == Look(c, n)
  {
  }

  lemma EffectHere(r: Request, now: int, c: Content, c1: Content, n: Name)
    requires SameNames(c) && SameNames(c1) && Look(c, n) == Look(c1, n) && !r.GlobalLock? && r.name == n
    ensures Look(Effect(r, now, c), n) == Look(Effect(r, now, c1), n)
  {
  }

  lemma EffectNames(r: Request, now: int, c: Content)
    requires SameNames(c)
    ensures SameNames(Effect(r, now, c))
  {
    match r
    case Data(op, n, _) => ApplyFacts(op, n, now, c);
    case Acquire(n, _, _) => EnsuredFacts(c, n);
    case GlobalLock(_) =>
  }

  /** A turn for a section touches nothing else, and the section itself only when granted. */
  lemma TurnContent(s: State, t: Thread, r: Request, n: Name, id: LockId, now: int, expired: bool)
    requires !r.GlobalLock? && r.name == n
    ensures var c := SectionTurn(s, t, r, n, id, now, expired).0.content;
            c == s.content || c == Effect(r, now, s.content)
    ensures !LockFree(s, id, t) ==> SectionTurn(s, t, r, n, id, now, expired).0.content == s.content
  {
    GrantedContent(s, t, r, n, id, now);
  }

  lemma DirectLook(s: State, op: Op, m: Name, now: int, n: Name)
    ensures Look(DirectOp(s, op, m, now).content, n)
      == Look(if m == n then Apply(op, m, now, s.content) else s.content, n)
  {
    DirectContent(s, op, m, now);
    if m != n { EffectElsewhere(Data(op, m, false), now, s.content, n); }
  }

  lemma StartContent(s: State, t: Thread, r: Request, now: int, expired: bool, n: Name, o: Thread)
    requires Inv(s) && t !in s.waits && n in s.owners && s.owners[n].thread == o && !r.GlobalLock?
    ensures Look(SectionStart(s, t, r, r.name, now, expired).0.content, n) ==
      Look(if t == o && r.name == n then Effect(r, now, s.content) else s.content, n)
  {
    var m, s1 := r.name, Enlisted(s, r.name);
    EnlistKeeps(s, m);
    TurnContent(s1, t, r, m, s1.lock[m], now, expired);
    if m != n {
      EffectElsewhere(r, now, s.content, n);
    } else {
      assert s1.lock[n] in s1.held && s1.held[s1.lock[n]].thread == o;
      if t == o {
        assert OwnsSection(s1.owners, t) && CanEnter(s1, t);
        FreeTurn(s1, t, r, m, s1.lock[m], now, expired);
      }
    }
  }

  lemma EnteredContent(s: State, t: Thread, r: Request, now: int, expired: bool, n: Name, o: Thread)
    requires Inv(s) && t !in s.waits && n in s.owners && s.owners[n].thread == o
    requires t != o ==> Respects(r, n)
    ensures Look(Entered(s, t, r, now, expired).0.content, n) ==
      Look(if t == o && !r.GlobalLock? && r.name == n then Effect(r, now, s.content) else s.content, n)
  {
    assert n in s.lock;
    hide Inv;
    hide SectionStart;
    hide DirectOp;
    hide Look;
    match r
    case GlobalLock(_) =>
    case Acquire(_, _, _) => StartContent(s, t, r, now, expired, n, o);
    case Data(op, m, _) =>
      StartContent(s, t, r, now, expired, n, o);
      DirectLook(s, op, m, now, n);
  }

  lemma SectionResume(s: State, t: Thread, now: int, expired: bool, n: Name, o: Thread)
    requires Inv(s) && t in s.waits && n in s.owners && s.owners[n].thread == o
    requires t != o ==> Respects(s.waits[t].request, n)
    ensures Look(DoResume(s, t, now, expired).0.content, n) == Look(s.content, n)
  {
    UnparkKeeps(s, t);
    assert WellParked(s.lock, s.owners, t, s.waits[t]);
    assert OwnsSection(s.owners, o);
    var w, s1 := s.waits[t], s.(waits := s.waits - {t});
    match w.stage {
      case AtEnter => EnteredContent(s1, t, w.request, now, expired, n, o);
      case AtSection(m, id) =>
        TurnContent(s1, t, w.request, m, id, now, expired);
        if m != n {
          EffectElsewhere(w.request, now, s.content, n);
        } else {
          assert id in s.held && s.held[id].thread == o;
          assert t != o;
        }
      case AtGlobal =>
    }
  }

  ghost predicate SameWait(waits: map<Thread, Wait>, waits1: map<Thread, Wait>, u: Thread) {
    u in waits && u in waits1 && waits1[u].request == waits[u].request && waits1[u].stage == waits[u].stage
  }

  /** u, parked in waits1, was parked before with the same request, or is t with request r; and
      nobody but t leaves its wait. */
  ghost predicate KnownRequest(waits: map<Thread, Wait>, waits1: map<Thread, Wait>, t: Thread, r: Request, u: Thread) {
    && (u in waits1 ==> (u in waits && waits1[u].request == waits[u].request) || (u == t && waits1[u].request == r))
    && (u in waits && u != t ==> SameWait(waits, waits1, u))
  }

  lemma GrantedParks(s: State, t: Thread, r: Request, n: Name, id: LockId, now: int, u: Thread)
    ensures KnownRequest(s.waits, SectionGranted(s, t, r, n, id, now).0.waits, t, r, u)
  {
    var s1 := Leave(Take(s, t, n, id), n);
    assert s1.waits == s.waits;
    if r.Data? {
      var s2 := RunOp(s1, r.op, n, now);
      assert KnownRequest(s1.waits, s2.waits, t, r, u);
      if n in s2.lock { assert KnownRequest(s2.waits, ReleaseSection(s2, n).waits, t, r, u); }
    }
  }

  lemma TurnParks(s: State, t: Thread, r: Request, n: Name, id: LockId, now: int, expired: bool, u: Thread)
    ensures KnownRequest(s.waits, SectionTurn(s, t, r, n, id, now, expired).0.waits, t, r, u)
  {
    GrantedParks(s, t, r, n, id, now, u);
    assert Leave(s, n).waits == s.waits;
  }

  lemma EnteredParks(s: State, t: Thread, r: Request, now: int, expired: bool, u: Thread)
    ensures KnownRequest(s.waits, Entered(s, t, r, now, expired).0.waits, t, r, u)
  {
    if r.GlobalLock? {
      GlobalParks(s, t, r, now, expired, u);
      return;
    }
    hide SectionStart;
    hide DirectOp;
    hide GlobalTurn;
    hide KnownRequest;
    assert KnownRequest(s.waits, s.waits, t, r, u) by { SameParks(s.waits, t, r, u); }
    StartParks(s, t, r, now, expired, u);
    if r.Data? { DirectParks(s, t, r, r.op, r.name, now, u); }
  }

  lemma SameParks(waits: map<Thread, Wait>, t: Thread, r: Request, u: Thread)
    ensures KnownRequest(waits, waits, t, r, u)
  {
  }

  lemma GlobalParks(s: State, t: Thread, r: Request, now: int, expired: bool, u: Thread)
    requires r.GlobalLock?
    ensures KnownRequest(s.waits, Entered(s, t, r, now, expired).0.waits, t, r, u)
  {
    hide GlobalTurn;
    GlobalTurnParks(s.(globalWaiters := s.globalWaiters + 1), t, r, expired, u);
  }

  lemma StartParks(s: State, t: Thread, r: Request, now: int, expired: bool, u: Thread)
    requires !r.GlobalLock?
    ensures KnownRequest(s.waits, SectionStart(s, t, r, r.name, now, expired).0.waits, t, r, u)
  {
    hide SectionTurn;
    var s1 := Enlisted(s, r.name);
    TurnParks(s1, t, r, r.name, s1.lock[r.name], now, expired, u);
  }

  lemma DirectParks(s: State, t: Thread, r: Request, op: Op, n: Name, now: int, u: Thread)
    ensures KnownRequest(s.waits, DirectOp(s, op, n, now).waits, t, r, u)
  {
  }

  lemma EnterTurnParks(s: State, t: Thread, r: Request, now: int, expired: bool, u: Thread)
    ensures KnownRequest(s.waits, EnterTurn(s, t, r, now, expired).0.waits, t, r, u)
  {
    if !EnterBlocked(s, t, r) {
      EnteredParks(s, t, r, now, expired, u);
    }
  }

  lemma ResumeParks(s: State, t: Thread, now: int, expired: bool, u: Thread)
    requires t in s.waits
    ensures KnownRequest(s.waits, DoResume(s, t, now, expired).0.waits, t, s.waits[t].request, u)
  {
    hide EnterTurn;
    hide SectionTurn;
    hide GlobalTurn;
    var w, s1 := s.waits[t], s.(waits := s.waits - {t});
    match w.stage
    case AtEnter => EnterTurnParks(s1, t, w.request, now, expired, u);
    case AtSection(n, id) => TurnParks(s1, t, w.request, n, id, now, expired, u);
    case AtGlobal => GlobalTurnParks(s1, t, w.request, expired, u);
  }

  lemma GlobalTurnParks(s: State, t: Thread, r: Request, expired: bool, u: Thread)
    ensures KnownRequest(s.waits, GlobalTurn(s, t, r, expired).0.waits, t, r, u)
  {
    hide GlobalFree;
    hide OwnsSection;
    hide NotifyAll;
    var s1 := s.(globalWaiters := Pred(s.globalWaiters));
    NotifiedParks(s1.(globalOwner := Some(t), globalDepth := s.globalDepth + 1), t, r, u);
    NotifiedParks(s1, t, r, u);
  }

  lemma NotifiedParks(s: State, t: Thread, r: Request, u: Thread)
    ensures KnownRequest(s.waits, NotifyAll(s).waits, t, r, u)
  {
  }

  lemma InterruptParks(s: State, t: Thread, u: Thread)
    requires t in s.waits
    ensures KnownRequest(s.waits, DoInterrupt(s, t).0.waits, t, s.waits[t].request, u)
  {
  }

  lemma ReleaseParks(s: State, t: Thread, n: Name, r: Request, u: Thread)
    ensures KnownRequest(s.waits, DoRelease(s, t, n).0.waits, t, r, u)
  {
  }

  lemma ParkedRequests(s: State, e: Event, u: Thread)
    requires Enabled(s, e) && u in Step(s, e).0.waits
    ensures (u in s.waits && Step(s, e).0.waits[u].request == s.waits[u].request)
         || (u == e.thread && e.Call? && Step(s, e).0.waits[u].request == e.request)
  {
    StepParks(s, e, u);
  }

  lemma OthersWait(s: State, e: Event, u: Thread)
    requires Enabled(s, e) && u in s.waits && u != e.thread
    ensures SameWait(s.waits, Step(s, e).0.waits, u)
  {
    StepParks(s, e, u);
  }

  lemma StepParks(s: State, e: Event, u: Thread)
    requires Enabled(s, e)
    ensures var r := RequestOf(s, e);
            KnownRequest(s.waits, Step(s, e).0.waits, e.thread, if r.Some? then r.value else GlobalLock(false), u)
  {
    match e
    case Call(t, r, now, expired) => EnterTurnParks(s, t, r, now, expired, u);
    case Resume(t, now, expired) => ResumeParks(s, t, now, expired, u);
    case Interrupt(t) => InterruptParks(s, t, u);
    case Release(t, n) => ReleaseParks(s, t, n, GlobalLock(false), u);
    case Unlock(t) =>
  }

  lemma SectionStep(s: State, e: Event, t: Thread, n: Name)
    requires Inv(s) && Enabled(s, e) && n in s.owners && s.owners[n].thread == t
    requires OthersRespect(s.waits, t, n)
    requires e.Call? && e.thread != t ==> Respects(e.request, n)
    ensures Look(Step(s, e).0.content, n) ==
      Look(if e.Call? && e.thread == t && !e.request.GlobalLock? && e.request.name == n
           then Effect(e.request, e.now, s.content) else s.content, n)
    ensures OthersRespect(Step(s, e).0.waits, t, n)
  {
    var u := e.thread;
    forall v | v in Step(s, e).0.waits { ParkedRequests(s, e, v); }
    match e
    case Call(_, r, now, expired) =>
      EnteredContent(s, u, r, now, expired, n, t);
      assert OwnsSection(s.owners, t);
      assert u == t ==> !EnterBlocked(s, t, r);
    case Resume(_, now, expired) => SectionResume(s, u, now, expired, n, t);
    case Interrupt(_) =>
      if s.waits[u].stage.AtSection? { LeaveContent(s.(waits := s.waits - {u}), s.waits[u].stage.name); }
    case _ =>
  }

  /** Isolation: while t owns a section, and the others do not opt out of its exclusion, the
      section and its timestamp are what t's own operations on it make of them. */
  lemma {:induction false} SectionIsolation(s: State, es: seq<Event>, t: Thread, n: Name, c: Content)
    requires Inv(s) && Run(s, es) && OwnsThroughout(s, es, t, n)
    requires OthersRespect(s.waits, t, n) && OthersCallRespect(es, t, n)
    requires SameNames(c) && Look(c, n) == Look(s.content, n)
    ensures Look(After(s, es).content, n) == Look(EffectsOn(es, t, n, c), n)
    decreases es
  {
    if es != [] {
      var e, s1 := es[0], Step(s, es[0]).0;
      StepKeepsInv(s, e);
      SectionStep(s, e, t, n);
      var c1 := c;
      if e.Call? && e.thread == t && !e.request.GlobalLock? && e.request.name == n {
        c1 := Effect(e.request, e.now, c);
        EffectHere(e.request, e.now, c, s.content, n);
        EffectNames(e.request, e.now, c);
      }
      SectionIsolation(s1, es[1..], t, n, c1);
    }
  }

  // ---- Reentrancy ----

  function SectionDepth(owners: map<Name, Owner>, n: Name, t: Thread): nat {
    if n in owners && owners[n].thread == t then owners[n].depth else 0
  }

  function GlobalDepth(s: State, t: Thread): nat {
    if s.globalOwner == Some(t) then s.globalDepth else 0
  }

  /** The request the event works on. */
  function RequestOf(s: State, e: Event): Option<Request>
    requires Enabled(s, e)
  {
    if e.Call? then Some(e.request) else if e.Resume? then Some(s.waits[e.thread].request) else None
  }

  /** What the event adds to t's holds on section n. */
  function SectionGain(s: State, e: Event, n: Name, t: Thread): int
    requires Enabled(s, e)
  {
    var r, o := RequestOf(s, e), Step(s, e).1;
    if e.thread != t then 0
    else if e == Release(t, n) && o == Released then -1
    else if r.Some? && r.value.Acquire? && r.value.name == n && o == Completed then 1
    else 0
  }

  function GlobalGain(s: State, e: Event, t: Thread): int
    requires Enabled(s, e)
  {
    var r, o := RequestOf(s, e), Step(s, e).1;
    if e.thread != t then 0
    else if e.Unlock? && o == Released then -1
    else if r.Some? && r.value.GlobalLock? && o == Completed then 1
    else 0
  }

  lemma MoreLess(owners: map<Name, Owner>, n: Name, t: Thread)
    requires n in owners ==> owners[n].thread == t && owners[n].depth > 0
    ensures Less(More(owners, n, t), n) == owners
  {
  }

  lemma RunOpOwners(s: State, op: Op, n: Name, now: int)
    ensures RunOp(s, op, n, now).owners == s.owners && RunOp(s, op, n, now).globalDepth == s.globalDepth
    ensures RunOp(s, op, n, now).globalOwner == s.globalOwner && RunOp(s, op, n, now).lock == s.lock
  {
  }

  lemma ReleaseOwners(s: State, n: Name)
    requires n in s.lock
    ensures ReleaseSection(s, n).owners == Less(s.owners, n) && ReleaseSection(s, n).globalDepth == s.globalDepth
    ensures ReleaseSection(s, n).globalOwner == s.globalOwner
  {
  }

  /** A granted data operation gives the section back; a granted acquire keeps it once more. */
  lemma GrantedOwners(s: State, t: Thread, r: Request, n: Name, id: LockId, now: int)
    requires Mid(s, Some(n), 0) && t !in s.waits && !r.GlobalLock?
    requires n in s.lock && s.lock[n] == id && CanEnter(s, t) && LockFree(s, id, t)
    ensures SectionGranted(s, t, r, n, id, now).0.owners == (if r.Data? then s.owners else More(s.owners, n, t))
    ensures SectionGranted(s, t, r, n, id, now).0.globalDepth == s.globalDepth
    ensures SectionGranted(s, t, r, n, id, now).0.globalOwner == s.globalOwner
  {
    var s1 := Take(s, t, n, id);
    var s2 := Leave(s1, n);
    LeaveContent(s1, n);
    if r.Data? {
      assert n in s.owners ==> s.owners[n].thread == t && s.owners[n].depth > 0;
      MoreLess(s.owners, n, t);
      TakeKeeps(s, t, n, id);
      LeaveKeeps(s1, n);
      RunOpOwners(s2, r.op, n, now);
      ReleaseOwners(RunOp(s2, r.op, n, now), n);
    }
  }

  ghost predicate OwnersAfter(s: State, s1: State, t: Thread, r: Request, o: Outcome) {
    && s1.owners == (if r.Acquire? && o == Completed then More(s.owners, r.name, t) else s.owners)
    && s1.globalDepth == s.globalDepth + (if r.GlobalLock? && o == Completed then 1 else 0)
    && s1.globalOwner == (if r.GlobalLock? && o == Completed then Some(t) else s.globalOwner)
    && (r.GlobalLock? && o == Completed ==> s.globalOwner.None? || s.globalOwner == Some(t))
    && (r.Acquire? && o == Completed && r.name in s.owners ==> s.owners[r.name].thread == t)
  }

  lemma TurnOwners(s: State, t: Thread, r: Request, n: Name, id: LockId, now: int, expired: bool)
    requires Mid(s, Some(n), 0) && t !in s.waits && !r.GlobalLock? && r.name == n
    requires n in s.lock && s.lock[n] == id
    ensures OwnersAfter(s, SectionTurn(s, t, r, n, id, now, expired).0, t, r,
                        SectionTurn(s, t, r, n, id, now, expired).1)
  {
    LeaveContent(s, n);
    if CanEnter(s, t) && LockFree(s, id, t) {
      GrantedOwners(s, t, r, n, id, now);
    }
  }

  lemma DirectOwners(s: State, op: Op, n: Name, now: int)
    ensures DirectOp(s, op, n, now).owners == s.owners && DirectOp(s, op, n, now).globalDepth == s.globalDepth
    ensures DirectOp(s, op, n, now).globalOwner == s.globalOwner
  {
  }

  lemma StartOwners(s: State, t: Thread, r: Request, now: int, expired: bool)
    requires Inv(s) && t !in s.waits && !r.GlobalLock?
    ensures OwnersAfter(s, SectionStart(s, t, r, r.name, now, expired).0, t, r,
                        SectionStart(s, t, r, r.name, now, expired).1)
  {
    EnlistKeeps(s, r.name);
    var s1 := Enlisted(s, r.name);
    TurnOwners(s1, t, r, r.name, s1.lock[r.name], now, expired);
  }

  lemma GlobalTurnOwners(s: State, t: Thread, r: Request, now: int, expired: bool)
    requires r.GlobalLock?
    ensures OwnersAfter(s, Entered(s, t, r, now, expired).0, t, r, Entered(s, t, r, now, expired).1)
  {
  }

  lemma AcquireOwners(s: State, t: Thread, r: Request, now: int, expired: bool)
    requires Inv(s) && t !in s.waits && r.Acquire?
    ensures OwnersAfter(s, Entered(s, t, r, now, expired).0, t, r, Entered(s, t, r, now, expired).1)
  {
    hide Inv;
    hide SectionStart;
    StartOwners(s, t, r, now, expired);
  }

  lemma DataOwners(s: State, t: Thread, r: Request, now: int, expired: bool)
    requires Inv(s) && t !in s.waits && r.Data?
    ensures OwnersAfter(s, Entered(s, t, r, now, expired).0, t, r, Entered(s, t, r, now, expired).1)
  {
    hide Inv;
    hide SectionStart;
    hide DirectOp;
    StartOwners(s, t, r, now, expired);
    DirectOwners(s, r.op, r.name, now);
  }

  lemma EnteredOwners(s: State, t: Thread, r: Request, now: int, expired: bool)
    requires Inv(s) && t !in s.waits
    ensures OwnersAfter(s, Entered(s, t, r, now, expired).0, t, r, Entered(s, t, r, now, expired).1)
  {
    hide Inv;
    hide Entered;
    hide OwnersAfter;
    match r
    case Acquire(_, _, _) => AcquireOwners(s, t, r, now, expired);
    case Data(_, _, _) => DataOwners(s, t, r, now, expired);
    case GlobalLock(_) => GlobalTurnOwners(s, t, r, now, expired);
  }

  lemma EnterTurnOwners(s: State, t: Thread, r: Request, now: int, expired: bool)
    requires Inv(s) && t !in s.waits
    ensures OwnersAfter(s, EnterTurn(s, t, r, now, expired).0, t, r, EnterTurn(s, t, r, now, expired).1)
  {
    if !EnterBlocked(s, t, r) { EnteredOwners(s, t, r, now, expired); }
  }

  lemma ResumeOwners(s: State, t: Thread, now: int, expired: bool)
    requires Inv(s) && t in s.waits
    ensures OwnersAfter(s, DoResume(s, t, now, expired).0, t, s.waits[t].request, DoResume(s, t, now, expired).1)
  {
    UnparkKeeps(s, t);
    var w, s1 := s.waits[t], s.(waits := s.waits - {t});
    assert WellParked(s.lock, s.owners, t, w);
    match w.stage
    case AtEnter => EnterTurnOwners(s1, t, w.request, now, expired);
    case AtSection(n, id) => TurnOwners(s1, t, w.request, n, id, now, expired);
    case AtGlobal =>
  }

  lemma DepthAfter(s: State, s1: State, u: Thread, r: Request, o: Outcome, n: Name, t: Thread)
    requires Inv(s) && OwnersAfter(s, s1, u, r, o)
    ensures SectionDepth(s1.owners, n, t) == SectionDepth(s.owners, n, t) +
      (if u == t && r.Acquire? && r.name == n && o == Completed then 1 else 0)
    ensures GlobalDepth(s1, t) == GlobalDepth(s, t) + (if u == t && r.GlobalLock? && o == Completed then 1 else 0)
  {
  }

  lemma DepthRelease(s: State, u: Thread, m: Name, n: Name, t: Thread)
    requires Inv(s)
    ensures var (s1, o) := DoRelease(s, u, m);
            SectionDepth(s1.owners, n, t)
              == SectionDepth(s.owners, n, t) - (if u == t && m == n && o == Released then 1 else 0)
            && GlobalDepth(s1, t) == GlobalDepth(s, t)
  {
    if m in s.lock && m in s.owners && s.owners[m].thread == u {
      ReleaseOwners(s, m);
      assert s.owners[m].depth > 0;
    }
  }

  lemma DepthInterrupt(s: State, u: Thread)
    requires u in s.waits
    ensures DoInterrupt(s, u).0.owners == s.owners && DoInterrupt(s, u).0.globalDepth == s.globalDepth
    ensures DoInterrupt(s, u).0.globalOwner == s.globalOwner
  {
    if s.waits[u].stage.AtSection? { LeaveContent(s.(waits := s.waits - {u}), s.waits[u].stage.name); }
  }

  lemma DepthUnlock(s: State, u: Thread, t: Thread)
    requires Inv(s)
    ensures GlobalDepth(DoUnlock(s, u).0, t)
      == GlobalDepth(s, t) - (if u == t && DoUnlock(s, u).1 == Released then 1 else 0)
    ensures DoUnlock(s, u).0.owners == s.owners
  {
  }

  lemma DepthStep(s: State, e: Event, n: Name, t: Thread)
    requires Inv(s) && Enabled(s, e)
    ensures SectionDepth(Step(s, e).0.owners, n, t) == SectionDepth(s.owners, n, t) + SectionGain(s, e, n, t)
    ensures GlobalDepth(Step(s, e).0, t) == GlobalDepth(s, t) + GlobalGain(s, e, t)
  {
    match e
    case Call(u, r, now, expired) => DepthCall(s, e, n, t);
    case Resume(u, now, expired) => DepthResume(s, e, n, t);
    case Interrupt(u) => DepthInterrupt(s, u);
    case Release(u, m) => DepthRelease(s, u, m, n, t);
    case Unlock(u) => DepthUnlock(s, u, t);
  }

  lemma DepthCall(s: State, e: Event, n: Name, t: Thread)
    requires Inv(s) && Enabled(s, e) && e.Call?
    ensures SectionDepth(Step(s, e).0.owners, n, t) == SectionDepth(s.owners, n, t) + SectionGain(s, e, n, t)
    ensures GlobalDepth(Step(s, e).0, t) == GlobalDepth(s, t) + GlobalGain(s, e, t)
  {
    EnterTurnOwners(s, e.thread, e.request, e.now, e.expired);
    var (s1, o) := EnterTurn(s, e.thread, e.request, e.now, e.expired);
    DepthAfter(s, s1, e.thread, e.request, o, n, t);
  }

  lemma DepthResume(s: State, e: Event, n: Name, t: Thread)
    requires Inv(s) && Enabled(s, e) && e.Resume?
    ensures SectionDepth(Step(s, e).0.owners, n, t) == SectionDepth(s.owners, n, t) + SectionGain(s, e, n, t)
    ensures GlobalDepth(Step(s, e).0, t) == GlobalDepth(s, t) + GlobalGain(s, e, t)
  {
    ResumeOwners(s, e.thread, e.now, e.expired);
    var (s1, o) := DoResume(s, e.thread, e.now, e.expired);
    DepthAfter(s, s1, e.thread, s.waits[e.thread].request, o, n, t);
  }

  function SectionBalance(s: State, es: seq<Event>, n: Name, t: Thread): int
    requires Run(s, es)
    decreases es
  {
    if es == [] then 0 else SectionGain(s, es[0], n, t) + SectionBalance(Step(s, es[0]).0, es[1..], n, t)
  }

  function GlobalBalance(s: State, es: seq<Event>, t: Thread): int
    requires Run(s, es)
    decreases es
  {
    if es == [] then 0 else GlobalGain(s, es[0], t) + GlobalBalance(Step(s, es[0]).0, es[1..], t)
  }

  /** Ownership is reentrant and thread-specific: in every run a thread's depth on a section,
      and on the global lock, is its successful acquisitions less its releases.  Deleting and
      recreating the section in between changes nothing. */
  lemma {:induction false} DepthIsBalance(s: State, es: seq<Event>, n: Name, t: Thread)
    requires Inv(s) && Run(s, es)
    ensures SectionDepth(After(s, es).owners, n, t) == SectionDepth(s.owners, n, t) + SectionBalance(s, es, n, t)
    ensures GlobalDepth(After(s, es), t) == GlobalDepth(s, t) + GlobalBalance(s, es, t)
    decreases es
  {
    if es != [] {
      StepKeepsInv(s, es[0]);
      DepthStep(s, es[0], n, t);
      DepthIsBalance(Step(s, es[0]).0, es[1..], n, t);
    }
  }

  /** A data operation on a registered section keeps the invariant. */
  lemma RunOpInv(s: State, op: Op, n: Name, now: int)
    requires Inv(s) && n in s.lock && n in s.owners
    ensures Inv(RunOp(s, op, n, now))
  {
    var c := Apply(op, n, now, s.content);
    ApplyFacts(op, n, now, s.content);
    ContentKeeps(s, c, None, n);
    NotifyKeeps(s.(content := c), None, 0);
  }

  lemma CountedHere(s: State, n: Name)
    requires Mid(s, Some(n), 0)
    ensures n in s.waiters && s.waiters[n] > 0
  {
    assert WaiterCount(s.waiters, n) > 0;
  }

  lemma TakenHere(s: State, t: Thread, n: Name, id: LockId)
    requires Mid(s, Some(n), 0) && t !in s.waits
    requires n in s.lock && s.lock[n] == id && CanEnter(s, t) && LockFree(s, id, t)
    ensures var s1 := Leave(Take(s, t, n, id), n); Inv(s1) && n in s1.owners && n in s1.lock
  {
    TakeKeeps(s, t, n, id);
    LeaveKeeps(Take(s, t, n, id), n);
  }

  // ---- The store object ----

  class Keystore {
    var data: map<Name, map<Key, Value>>
    var updated: map<Name, int>
    var lock: map<Name, LockId>
    var held: map<LockId, Owner>
    var nextLock: LockId
    var owners: map<Name, Owner>
    var waiters: map<Name, nat>
    var globalOwner: Option<Thread>
    var globalDepth: nat
    var globalWaiters: nat
    var waits: map<Thread, Wait>

    ghost function View(): State
      reads this
    {
      State(Content(data, updated), lock, held, nextLock, owners, waiters, globalOwner, globalDepth, globalWaiters,
            waits)
    }

    constructor ()
      ensures View() == Init
    {
      data, updated, lock, held, nextLock, owners, waiters := map[], map[], map[], map[], 0, map[], map[];
      globalOwner, globalDepth, globalWaiters, waits := None, 0, 0, map[];
    }

    method NotifyEveryone()
      modifies this`waits
      ensures View() == NotifyAll(old(View()))
    {
      waits := map t | t in waits :: waits[t].(notified := true);
    }

    method EnsureSectionLock(name: Name)
      modifies this`lock, this`nextLock
      ensures View() == EnsureLock(old(View()), name)
      ensures name in lock
    {
      if name !in lock {
        lock := lock[name := nextLock];
        nextLock := nextLock + 1;
      }
    }

    method EnsureData(name: Name)
      modifies this`data, this`updated
      ensures View() == old(View()).(content := Ensured(old(View()).content, name))
    {
      if name !in data {
        data := data[name := map[]];
        updated := updated[name := 0];
      }
    }

    method CleanupSection(name: Name)
      modifies this`lock, this`waiters
      ensures View() == Cleanup(old(View()), name)
    {
      if name !in data && name !in owners && (name !in waiters || waiters[name] == 0) {
        lock := lock - {name};
        waiters := waiters - {name};
      }
    }

    method ReleaseOwned(name: Name)
      requires name in lock && name in owners && Inv(View())
      modifies this`held, this`owners, this`lock, this`waiters, this`waits
      ensures View() == ReleaseSection(old(View()), name)
    {
      var id, owner := lock[name], owners[name];
      held := Less(held, id);
      owner := owner.(depth := owner.depth - 1);
      if owner.depth == 0 {
        owners := owners - {name};
      } else {
        owners := owners[name := owner];
      }
      CleanupSection(name);
      NotifyEveryone();
    }

    /** The finally clause of _acquire_section. */
    method LeaveWaiters(name: Name)
      requires name in waiters && waiters[name] > 0
      modifies this`lock, this`waiters
      ensures View() == Leave(old(View()), name)
    {
      waiters := waiters[name := waiters[name] - 1];
      CleanupSection(name);
    }

    /** One turn of the _acquire_section loop, with its finally clause when it ends. */
    method AcquireTurn(me: Thread, r: Request, name: Name, id: LockId, expired: bool) returns (o: Outcome)
      requires name in waiters && waiters[name] > 0
      modifies this
      ensures var s := old(View());
        if WantsExisting(r) && name !in s.content.data then o == Missing && View() == Leave(s, name)
        else if CanEnter(s, me) && LockFree(s, id, me)
        then o == Completed && View() == Leave(Take(s, me, name, id), name)
        else if expired && CanExpire(r, AtSection(name, id)) then o == TimedOut && View() == Leave(s, name)
        else o == Waiting && View() == Park(s, me, r, AtSection(name, id))
    {
      if WantsExisting(r) && name !in data {
        LeaveWaiters(name);
        return Missing;
      }
      var may := MayEnter(me);
      if may && (id !in held || held[id].thread == me) {
        held := held[id := Owner(me, if id !in held then 1 else held[id].depth + 1)];
        owners := owners[name := Owner(me, if name !in owners then 1 else owners[name].depth + 1)];
        assert View() == Take(old(View()), me, name, id);
        LeaveWaiters(name);
        return Completed;
      }
      if expired && r.Acquire? && r.timed {
        LeaveWaiters(name);
        return TimedOut;
      }
      waits := waits[me := Wait(r, AtSection(name, id), false)];
      return Waiting;
    }

    method MayEnter(me: Thread) returns (may: bool)
      ensures may == CanEnter(View(), me)
    {
      if globalOwner != None {
        return globalOwner == Some(me);
      }
      if globalWaiters == 0 { return true; }
      may := OwnsSection(owners, me);
    }

    /** The body of a data operation. */
    method Perform(op: Op, name: Name, now: int) returns (o: Outcome)
      requires SameNames(View().content)
      modifies this`data, this`updated, this`waits
      ensures View() == RunOp(old(View()), op, name, now)
      ensures o == OpOutcome(op, name, old(View()).content)
    {
      o := Completed;
      match op
      case Add => EnsureData(name);
      case Read =>
      case Set(key, value) =>
        EnsureData(name);
        data := data[name := data[name][key := value]];
        updated := updated[name := now];
      case Delete =>
        data := data - {name};
        updated := updated - {name};
        NotifyEveryone();
      case Remove(key) =>
        if name !in data { return NoKey; }
        data := data[name := data[name] - {key}];
        updated := updated[name := now];
      case Purge =>
        if name in data {
          data := data[name := map[]];
          updated := updated[name := 0];
        }
      case Reset =>
        if name in data {
          data := data[name := map[]];
          updated := updated[name := now];
        }
    }

    /** From the waiters' count to the end of the request, or to the wait. */
    method SectionRequest(me: Thread, r: Request, name: Name, id: LockId, now: int, expired: bool) returns (o: Outcome)
      requires Mid(View(), Some(name), 0) && me !in waits && !r.GlobalLock? && r.name == name
      requires name in lock && lock[name] == id
      modifies this
      ensures (View(), o) == SectionTurn(old(View()), me, r, name, id, now, expired)
      ensures Inv(View())
    {
      hide Mid;
      hide Inv;
      hide Take;
      hide Leave;
      hide ReleaseSection;
      hide RunOp;
      ghost var s := View();
      SectionTurnKeeps(s, me, r, name, id, now, expired);
      CountedHere(s, name);
      o := AcquireTurn(me, r, name, id, expired);
      if o == Completed {
        TakenHere(s, me, name, id);
        o := FinishSection(r, name, now);
      }
    }

    /** What is left to do with the section lock taken. */
    method FinishSection(r: Request, name: Name, now: int) returns (o: Outcome)
      requires Inv(View()) && name in owners && name in lock && !r.GlobalLock?
      modifies this
      ensures r.Data? ==> View() == ReleaseSection(RunOp(old(View()), r.op, name, now), name)
      ensures r.Data?
        ==> name in RunOp(old(View()), r.op, name, now).lock && o == OpOutcome(r.op, name, old(View()).content)
      ensures !r.Data? ==> o == Completed
      ensures !r.Data? ==>
                View() == if WantsExisting(r) then old(View())
                          else old(View()).(content := Ensured(old(View()).content, name))
    {
      o := Completed;
      if r.Data? {
        RunOpInv(View(), r.op, name, now);
        o := Perform(r.op, name, now);
        ReleaseOwned(name);
      } else if !WantsExisting(r) {
        EnsureData(name);
      }
    }

    /** A call after a successful _enter. */
    method Proceed(me: Thread, r: Request, now: int, expired: bool) returns (o: Outcome)
      requires Inv(View()) && me !in waits
      modifies this
      ensures (View(), o) == Entered(old(View()), me, r, now, expired)
    {
      match r
      case Acquire(name, exists_, _) =>
        if exists_ && name !in data { return Missing; }
        o := LockSection(me, r, name, now, expired);
      case Data(op, name, locked) =>
        if op.Remove? && name !in data { return NoKey; }
        if locked && (name in lock || Creates(op)) {
          o := LockSection(me, r, name, now, expired);
        } else {
          if Creates(op) { EnsureSectionLock(name); }
          o := Perform(op, name, now);
          CleanupSection(name);
        }
      case GlobalLock(_) =>
        globalWaiters := globalWaiters + 1;
        o := GlobalRequest(me, r, expired);
    }

    method LockSection(me: Thread, r: Request, name: Name, now: int, expired: bool) returns (o: Outcome)
      requires Inv(View()) && me !in waits && !r.GlobalLock? && r.name == name
      modifies this
      ensures (View(), o) == SectionStart(old(View()), me, r, name, now, expired)
    {
      EnlistKeeps(View(), name);
      EnsureSectionLock(name);
      waiters := waiters[name := WaiterCount(waiters, name) + 1];
      assert View() == Enlisted(old(View()), name);
      o := SectionRequest(me, r, name, lock[name], now, expired);
    }

    /** One turn of the _acquire_global loop by a thread already counted. */
    method GlobalRequest(me: Thread, r: Request, expired: bool) returns (o: Outcome)
      requires globalWaiters > 0
      modifies this
      ensures (View(), o) == GlobalTurn(old(View()), me, r, expired)
    {
      if (globalOwner == None || globalOwner == Some(me)) && OnlyOwner(owners, me) {
        globalOwner := Some(me);
        globalDepth := globalDepth + 1;
        o := Completed;
      } else if OwnsSection(owners, me) {
        o := Refused;
      } else if expired && r.GlobalLock? && r.timed {
        o := TimedOut;
      } else {
        waits := waits[me := Wait(r, AtGlobal, false)];
        return Waiting;
      }
      globalWaiters := globalWaiters - 1;
      NotifyEveryone();
    }

    method Submit(me: Thread, r: Request, now: int, expired: bool) returns (o: Outcome)
      requires Inv(View()) && me !in waits
      modifies this
      ensures (View(), o) == EnterTurn(old(View()), me, r, now, expired)
      ensures Inv(View())
    {
      EnterTurnKeeps(View(), me, r, now, expired);
      var may := MayEnter(me);
      if (globalOwner != None && globalOwner != Some(me)) || (!r.GlobalLock? && !may) {
        if expired && (r.GlobalLock? ==> r.timed) { return TimedOut; }
        waits := waits[me := Wait(r, AtEnter, false)];
        return Waiting;
      }
      o := Proceed(me, r, now, expired);
    }

    /** A parked thread comes out of Condition.wait and goes round its loop. */
    method WakeUp(me: Thread, now: int, expired: bool) returns (o: Outcome)
      requires Inv(View()) && me in waits
      modifies this
      ensures (View(), o) == DoResume(old(View()), me, now, expired)
      ensures Inv(View())
    {
      UnparkKeeps(View(), me);
      ResumeKeeps(View(), me, now, expired);
      var w := waits[me];
      assert WellParked(lock, owners, me, w);
      waits := waits - {me};
      match w.stage
      case AtEnter => o := Submit(me, w.request, now, expired);
      case AtSection(name, id) => o := SectionRequest(me, w.request, name, id, now, expired);
      case AtGlobal => o := GlobalRequest(me, w.request, expired);
    }

    /** An exception raised inside a wait. */
    method InterruptWait(me: Thread)
      requires Inv(View()) && me in waits
      modifies this
      ensures View() == DoInterrupt(old(View()), me).0
      ensures Inv(View())
    {
      UnparkKeeps(View(), me);
      InterruptKeeps(View(), me);
      var w := waits[me];
      waits := waits - {me};
      match w.stage
      case AtEnter =>
      case AtSection(name, _) =>
        assert WaiterCount(waiters, name) > 0;
        LeaveWaiters(name);
      case AtGlobal =>
        globalWaiters := globalWaiters - 1;
        NotifyEveryone();
    }

    method ReleaseName(me: Thread, name: Name) returns (o: Outcome)
      requires Inv(View()) && me !in waits
      modifies this
      ensures (View(), o) == DoRelease(old(View()), me, name)
      ensures Inv(View())
    {
      if name !in lock { return NothingHeld; }
      if name !in owners || owners[name].thread != me { return NotOwner; }
      ReleaseSectionKeeps(View(), me, name);
      ReleaseOwned(name);
      o := Released;
    }

    method UnlockStore(me: Thread) returns (o: Outcome)
      requires Inv(View()) && me !in waits
      modifies this
      ensures (View(), o) == DoUnlock(old(View()), me)
      ensures Inv(View())
    {
      UnlockKeeps(View(), me);
      if globalOwner != Some(me) { return NotOwner; }
      globalDepth := globalDepth - 1;
      if globalDepth == 0 {
        globalOwner := None;
        NotifyEveryone();
      }
      o := Released;
    }
  }
}
