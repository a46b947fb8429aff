/**
  The reader/writer lock of moresynchro.py.

  One event is one stay inside the condition's mutex: a call runs until it returns or
  waits, and a waiting thread runs again from its wait.  Deadlines are a Boolean of the
  event: the thread found its deadline past when it checked.
 */
module RWLocks {
  import opened Wrappers

  type Thread = nat

  datatype Kind = Read | Write

  /** A thread parked in Condition.wait: what it asked for, whether it has a deadline,
      and whether a notify_all has reached it since it last checked its guard. */
  datatype Waiter = Waiter(kind: Kind, timed: bool, notified: bool)

  datatype State = State(
    readers: map<Thread, nat>,
    writer: Option<Thread>,
    writerCount: nat,
    pending: seq<Thread>,
    waiting: map<Thread, Waiter>)

  datatype Outcome = Granted | TimedOut | Refused | Blocked | Interrupted | Released | NotHeld

  datatype Event =
    | CallRead(thread: Thread, timed: bool, expired: bool)
    | CallWrite(thread: Thread, timed: bool, expired: bool)
    | Resume(thread: Thread, expired: bool)
    | Interrupt(thread: Thread)
    | Release(thread: Thread)

  const Init := State(map[], None, 0, [], map[])

  // ---- The guards the two wait loops test ----

  predicate ReadGuard(s: State, t: Thread) {
    s.writer.None? && (s.pending == [] || t in s.readers)
  }

  predicate WriteGuard(s: State, t: Thread) {
    s.readers == map[] && s.writer.None? && s.pending != [] && s.pending[0] == t
  }

  predicate Guard(s: State, t: Thread, kind: Kind) {
    match kind
    case Read => ReadGuard(s, t)
    case Write => WriteGuard(s, t)
  }

  predicate Holds(s: State, t: Thread) {
    t in s.readers || s.writer == Some(t)
  }

  // ---- Steps ----

  function Without(pending: seq<Thread>, t: Thread): seq<Thread> {
    if pending == [] then []
    else if pending[0] == t then pending[1..]
    else [pending[0]] + Without(pending[1..], t)
  }

  function NotifyAll(s: State): State {
    s.(waiting := map t | t in s.waiting :: s.waiting[t].(notified := true))
  }

  function Park(s: State, t: Thread, kind: Kind, timed: bool): State {
    s.(waiting := s.waiting[t := Waiter(kind, timed, false)])
  }

  function Count(readers: map<Thread, nat>, t: Thread): nat {
    if t in readers then readers[t] else 0
  }

  /** One turn of the acquire_read loop. */
  function TryRead(s: State, t: Thread, timed: bool, expired: bool): (State, Outcome) {
    if ReadGuard(s, t) then (s.(readers := s.readers[t := Count(s.readers, t) + 1]), Granted)
    else if timed && expired then (s, TimedOut)
    else (Park(s, t, Read, timed), Blocked)
  }

  /** A pending writer gives up: the finally clause of acquire_write. */
  function Withdraw(s: State, t: Thread): State {
    NotifyAll(s.(pending := Without(s.pending, t)))
  }

  /** One turn of the acquire_write loop; t is already among the pending writers. */
  function TryWrite(s: State, t: Thread, timed: bool, expired: bool): (State, Outcome) {
    if WriteGuard(s, t) then
      (s.(writer := Some(t), writerCount := 1, pending := s.pending[1..]), Granted)
    else if timed && expired then (Withdraw(s, t), TimedOut)
    else (Park(s, t, Write, timed), Blocked)
  }

  function DoCallRead(s: State, t: Thread, timed: bool, expired: bool): (State, Outcome) {
    if s.writer == Some(t) then (s.(writerCount := s.writerCount + 1), Granted)
    else TryRead(s, t, timed, expired)
  }

  function DoCallWrite(s: State, t: Thread, timed: bool, expired: bool): (State, Outcome) {
    if s.writer == Some(t) then (s.(writerCount := s.writerCount + 1), Granted)
    else if t in s.readers then (s, Refused)
    else TryWrite(s.(pending := s.pending + [t]), t, timed, expired)
  }

  function DoResume(s: State, t: Thread, expired: bool): (State, Outcome)
    requires t in s.waiting
  {
    var w := s.waiting[t];
    var s1 := s.(waiting := s.waiting - {t});
    match w.kind
    case Read => TryRead(s1, t, w.timed, expired)
    case Write => TryWrite(s1, t, w.timed, expired)
  }

  function DoInterrupt(s: State, t: Thread): (State, Outcome)
    requires t in s.waiting
  {
    var w := s.waiting[t];
    var s1 := s.(waiting := s.waiting - {t});
    (if w.kind.Write? then Withdraw(s1, t) else s1, Interrupted)
  }

  function DoRelease(s: State, t: Thread): (State, Outcome) {
    if s.writer == Some(t) then
      if s.writerCount <= 1 then (NotifyAll(s.(writer := None, writerCount := 0)), Released)
      else (s.(writerCount := s.writerCount - 1), Released)
    else if t in s.readers then
      if s.readers[t] > 1 then (s.(readers := s.readers[t := s.readers[t] - 1]), Released)
      else
        var s1 := s.(readers := s.readers - {t});
        (if s1.readers == map[] then NotifyAll(s1) else s1, Released)
    else (s, NotHeld)
  }

  /** A parked thread runs again after a notification or, if it has one, at its deadline;
      a thread that is not parked may call anything. */
  predicate Enabled(s: State, e: Event) {
    match e
    case Resume(t, _) => t in s.waiting && (s.waiting[t].notified || s.waiting[t].timed)
    case Interrupt(t) => t in s.waiting
    case _ => e.thread !in s.waiting
  }

  function Step(s: State, e: Event): (State, Outcome)
    requires Enabled(s, e)
  {
    match e
    case CallRead(t, timed, expired) => DoCallRead(s, t, timed, expired)
    case CallWrite(t, timed, expired) => DoCallWrite(s, t, timed, expired)
    case Resume(t, expired) => DoResume(s, t, expired)
    case Interrupt(t) => DoInterrupt(s, t)
    case Release(t) => DoRelease(s, t)
  }

  // ---- Runs ----

  predicate Run(s: State, es: seq<Event>)
    decreases es
  {
    es == [] || (Enabled(s, es[0]) && Run(Step(s, es[0]).0, es[1..]))
  }

  function After(s: State, es: seq<Event>): State
    requires Run(s, es)
    decreases es
  {
    if es == [] then s else After(Step(s, es[0]).0, es[1..])
  }

  // ---- The invariant ----

  ghost predicate Distinct(ts: seq<Thread>) {
    forall i, j :: 0 <= i < j < |ts| ==> ts[i] != ts[j]
  }

  ghost predicate Exclusion(s: State) {
    && (s.writer.Some? ==> s.readers == map[])
    && (s.writer.Some? <==> s.writerCount > 0)
    && (forall t :: t in s.readers ==> s.readers[t] > 0)
  }

  ghost predicate Parked(s: State) {
    && Distinct(s.pending)
    && (forall t :: t in s.pending <==> t in s.waiting && s.waiting[t].kind.Write?)
    && (forall t :: t in s.waiting ==> !Holds(s, t))
  }

  /** A thread that waits and has not been notified since it looked would still wait. */
  ghost predicate NoLostWakeup(s: State) {
    forall t :: t in s.waiting && !s.waiting[t].notified ==> !Guard(s, t, s.waiting[t].kind)
  }

  ghost predicate Inv(s: State) {
    Exclusion(s) && Parked(s) && NoLostWakeup(s)
  }

  lemma {:induction false} WithoutFacts(pending: seq<Thread>, t: Thread)
    requires Distinct(pending)
    ensures Distinct(Without(pending, t))
    ensures forall u :: u in Without(pending, t) <==> u in pending && u != t
  {
    if pending != [] {
      var rest := pending[1..];
      assert pending == [pending[0]] + rest;
      assert forall u :: u in pending <==> u == pending[0] || u in rest;
      WithoutFacts(rest, t);
      assert forall i :: 0 <= i < |rest| ==> rest[i] == pending[i + 1];
      var r := Without(rest, t);
      assert pending[0] !in r;
      assert forall i :: 0 <= i < |r| ==> r[i] in r;
    }
  }

  lemma WithdrawKeepsInv(s: State, t: Thread)
    requires Exclusion(s) && Distinct(s.pending)
    requires t !in s.waiting
    requires forall u :: u in s.pending <==> u == t || (u in s.waiting && s.waiting[u].kind.Write?)
    requires forall u :: u in s.waiting ==> !Holds(s, u)
    ensures Inv(Withdraw(s, t))
  {
    WithoutFacts(s.pending, t);
  }

  lemma TryWriteKeepsInv(s: State, t: Thread, timed: bool, expired: bool)
    requires Exclusion(s) && Distinct(s.pending) && NoLostWakeup(s)
    requires t !in s.waiting && !Holds(s, t)
    requires forall u :: u in s.pending <==> u == t || (u in s.waiting && s.waiting[u].kind.Write?)
    requires forall u :: u in s.waiting ==> !Holds(s, u)
    ensures Inv(TryWrite(s, t, timed, expired).0)
  {
    if WriteGuard(s, t) {
      var p := s.pending;
      assert forall u :: u in p[1..] <==> u in p && u != t by {
        assert p == [p[0]] + p[1..];
      }
    } else if timed && expired {
      WithdrawKeepsInv(s, t);
    }
  }

  lemma TryReadKeepsInv(s: State, t: Thread, timed: bool, expired: bool)
    requires Inv(s) && t !in s.waiting && s.writer != Some(t)
    ensures Inv(TryRead(s, t, timed, expired).0)
  {
    assert !ReadGuard(s, t) ==> t !in s.readers;
  }

  lemma ResumeKeepsInv(s: State, t: Thread, expired: bool)
    requires Inv(s) && t in s.waiting
    ensures Inv(DoResume(s, t, expired).0)
  {
    var w := s.waiting[t];
    var s1 := s.(waiting := s.waiting - {t});
    if w.kind.Read? {
      TryReadKeepsInv(s1, t, w.timed, expired);
    } else {
      TryWriteKeepsInv(s1, t, w.timed, expired);
    }
  }

  lemma InterruptKeepsInv(s: State, t: Thread)
    requires Inv(s) && t in s.waiting
    ensures Inv(DoInterrupt(s, t).0)
  {
    if s.waiting[t].kind.Write? {
      WithdrawKeepsInv(s.(waiting := s.waiting - {t}), t);
    }
  }

  lemma CallWriteKeepsInv(s: State, t: Thread, timed: bool, expired: bool)
    requires Inv(s) && t !in s.waiting
    ensures Inv(DoCallWrite(s, t, timed, expired).0)
  {
    if !Holds(s, t) {
      TryWriteKeepsInv(s.(pending := s.pending + [t]), t, timed, expired);
    }
  }

  lemma ReleaseKeepsInv(s: State, t: Thread)
    requires Inv(s) && t !in s.waiting
    ensures Inv(DoRelease(s, t).0)
  {
  }

  lemma StepKeepsInv(s: State, e: Event)
    requires Inv(s) && Enabled(s, e)
    ensures Inv(Step(s, e).0)
  {
    match e
    case CallRead(t, timed, expired) => if s.writer != Some(t) { TryReadKeepsInv(s, t, timed, expired); }
    case CallWrite(t, timed, expired) => CallWriteKeepsInv(s, t, timed, expired);
    case Resume(t, expired) => ResumeKeepsInv(s, t, expired);
    case Interrupt(t) => InterruptKeepsInv(s, t);
    case Release(t) => ReleaseKeepsInv(s, t);
  }

  lemma {:induction false} RunKeepsInv(s: State, es: seq<Event>)
    requires Inv(s) && Run(s, es)
    ensures Inv(After(s, es))
    decreases es
  {
    if es != [] {
      StepKeepsInv(s, es[0]);
      RunKeepsInv(Step(s, es[0]).0, es[1..]);
    }
  }

  /** Every reachable state satisfies the invariant: a writer excludes readers, counts are
      positive exactly while held, the pending writers are the distinct parked writers, a
      parked thread holds nothing, and no wake-up is lost. */
  lemma Reachable(es: seq<Event>)
    requires Run(Init, es)
    ensures Inv(After(Init, es))
  {
    RunKeepsInv(Init, es);
  }

  // ---- Progress ----

  /** Whenever somebody waits, either a holder is free to run (and to release), or a waiter
      that has been notified will be granted at its next turn. */
  lemma SomeoneCanRun(s: State) returns (t: Thread)
    requires Inv(s) && s.waiting != map[]
    ensures (Holds(s, t) && t !in s.waiting)
         || (t in s.waiting && s.waiting[t].notified && DoResume(s, t, false).1 == Granted)
  {
    if s.writer.Some? {
      t := s.writer.value;
    } else if s.readers != map[] {
      t :| t in s.readers;
    } else if s.pending != [] {
      t := s.pending[0];
      assert t in s.pending;
    } else {
      t :| t in s.waiting;
      assert s.waiting[t].kind.Read? by {
        assert t !in s.pending;
      }
    }
  }

  // ---- What a pending writer sees ----

  function Index(pending: seq<Thread>, t: Thread): (i: nat)
    requires t in pending
    ensures i < |pending| && pending[i] == t && t !in pending[..i]
  {
    if pending[0] == t then 0 else 1 + Index(pending[1..], t)
  }

  /** The event made some thread the writer. */
  predicate GrantsWrite(s: State, e: Event)
    requires Enabled(s, e)
  {
    var s1 := Step(s, e).0;
    s1.writer.Some? && s1.writer != s.writer
  }

  function WriteGrants(s: State, es: seq<Event>): nat
    requires Run(s, es)
    decreases es
  {
    if es == [] then 0
    else (if GrantsWrite(s, es[0]) then 1 else 0) + WriteGrants(Step(s, es[0]).0, es[1..])
  }

  /** t waits for the write lock in every state of the run. */
  predicate PendingThroughout(s: State, es: seq<Event>, t: Thread)
    requires Run(s, es)
    decreases es
  {
    t in s.pending && (es == [] || PendingThroughout(Step(s, es[0]).0, es[1..], t))
  }

  lemma {:induction false} WithoutIndex(pending: seq<Thread>, t: Thread, w: Thread)
    requires w in pending && w != t && Distinct(pending)
    ensures w in Without(pending, t)
    ensures Index(Without(pending, t), w) <= Index(pending, w)
  {
    if pending[0] != w {
      var rest := pending[1..];
      assert pending == [pending[0]] + rest;
      assert forall i :: 0 <= i < |rest| ==> rest[i] == pending[i + 1];
      if pending[0] != t {
        WithoutIndex(rest, t, w);
        assert Without(pending, t)[1..] == Without(rest, t);
      }
    }
  }

  lemma {:induction false} IndexOfAppend(p: seq<Thread>, q: seq<Thread>, w: Thread)
    requires w in p
    ensures Index(p + q, w) == Index(p, w)
  {
    if p[0] != w {
      assert (p + q)[1..] == p[1..] + q;
      IndexOfAppend(p[1..], q, w);
    }
  }

  /** The ways one event by t can change the queue. */
  ghost predicate QueueMove(p: seq<Thread>, p1: seq<Thread>, t: Thread, grant: bool) {
    if grant then (p != [] && t == p[0] && p1 == p[1..]) || (p == [] && p1 == [])
    else p1 == p || (t !in p && p1 == p + [t]) || (t in p && p1 == Without(p, t))
  }

  lemma QueueStep(s: State, e: Event)
    requires Inv(s) && Enabled(s, e)
    ensures QueueMove(s.pending, Step(s, e).0.pending, e.thread, GrantsWrite(s, e))
    ensures GrantsWrite(s, e) ==> Step(s, e).0.writer == Some(e.thread)
  {
    var t := e.thread;
    if e.CallWrite? {
      assert t !in s.pending;
      WithoutAppended(s.pending, t);
      assert s.pending != [] ==> (s.pending + [t])[0] == s.pending[0];
    }
  }

  lemma {:induction false} WithoutAppended(p: seq<Thread>, t: Thread)
    requires t !in p
    ensures Without(p + [t], t) == p
  {
    if p != [] {
      assert (p + [t])[1..] == p[1..] + [t];
      WithoutAppended(p[1..], t);
    } else {
      assert p + [t] == [t];
    }
  }

  lemma IndexMove(p: seq<Thread>, p1: seq<Thread>, t: Thread, grant: bool, w: Thread)
    requires Distinct(p) && QueueMove(p, p1, t, grant) && w in p && w in p1
    ensures Index(p1, w) + (if grant then 1 else 0) <= Index(p, w)
  {
    if grant {
      assert p[0] !in p[1..];
    } else if t in p {
      WithoutFacts(p, t);
      if t != w { WithoutIndex(p, t, w); }
    } else {
      IndexOfAppend(p, [t], w);
    }
  }

  /** Bounded overtaking: while w waits, at most as many write grants happen as there were
      writers ahead of it, and every one of them moves it a place forward. */
  lemma {:induction false} BoundedOvertaking(s: State, es: seq<Event>, w: Thread)
    requires Inv(s) && Run(s, es) && PendingThroughout(s, es, w)
    ensures w in After(s, es).pending
    ensures WriteGrants(s, es) + Index(After(s, es).pending, w) <= Index(s.pending, w)
    decreases es
  {
    if es != [] {
      StepKeepsInv(s, es[0]);
      QueueStep(s, es[0]);
      IndexMove(s.pending, Step(s, es[0]).0.pending, es[0].thread, GrantsWrite(s, es[0]), w);
      BoundedOvertaking(Step(s, es[0]).0, es[1..], w);
    }
  }

  /** While a writer waits, no thread becomes a reader: the set of readers only shrinks. */
  lemma {:induction false} ReadersOnlyShrink(s: State, es: seq<Event>, w: Thread)
    requires Inv(s) && Run(s, es) && PendingThroughout(s, es, w)
    ensures After(s, es).readers.Keys <= s.readers.Keys
    decreases es
  {
    if es != [] {
      StepKeepsInv(s, es[0]);
      assert s.pending != [];
      ReadersOnlyShrink(Step(s, es[0]).0, es[1..], w);
    }
  }

  lemma {:induction false} WithoutOrder(p: seq<Thread>, t: Thread, a: Thread, b: Thread)
    requires Distinct(p) && a in p && b in p && a != t && b != t && Index(p, a) < Index(p, b)
    ensures a in Without(p, t) && b in Without(p, t)
    ensures Index(Without(p, t), a) < Index(Without(p, t), b)
  {
    WithoutFacts(p, t);
    if p[0] != t && p[0] != a {
      var rest := p[1..];
      assert p == [p[0]] + rest;
      assert forall i :: 0 <= i < |rest| ==> rest[i] == p[i + 1];
      WithoutOrder(rest, t, a, b);
      assert Without(p, t)[1..] == Without(rest, t);
    }
  }

  lemma OrderMove(p: seq<Thread>, p1: seq<Thread>, t: Thread, grant: bool, a: Thread, b: Thread)
    requires Distinct(p) && QueueMove(p, p1, t, grant)
    requires a in p && b in p && a in p1 && b in p1 && Index(p, a) < Index(p, b)
    ensures Index(p1, a) < Index(p1, b)
  {
    if grant {
      assert p[0] !in p[1..];
    } else if t in p {
      WithoutFacts(p, t);
      if t != a && t != b { WithoutOrder(p, t, a, b); }
    } else {
      IndexOfAppend(p, [t], a);
      IndexOfAppend(p, [t], b);
    }
  }

  /** First come, first served: a writer behind another is not granted before the one ahead
      has been granted or has given up. */
  lemma {:induction false} WritersInOrder(s: State, es: seq<Event>, e: Event, a: Thread, b: Thread)
    requires Inv(s) && Run(s, es) && Enabled(After(s, es), e)
    requires PendingThroughout(s, es, a) && PendingThroughout(s, es, b)
    requires Index(s.pending, a) < Index(s.pending, b)
    ensures GrantsWrite(After(s, es), e) ==> Step(After(s, es), e).0.writer != Some(b)
    decreases es
  {
    if es == [] {
      QueueStep(s, e);
      assert Index(s.pending, b) > 0;
    } else {
      var s1 := Step(s, es[0]).0;
      StepKeepsInv(s, es[0]);
      QueueStep(s, es[0]);
      OrderMove(s.pending, s1.pending, es[0].thread, GrantsWrite(s, es[0]), a, b);
      WritersInOrder(s1, es[1..], e, a, b);
    }
  }

  // ---- Reentrancy ----

  function Depth(s: State, t: Thread): nat {
    Count(s.readers, t) + (if s.writer == Some(t) then s.writerCount else 0)
  }

  /** What an outcome for u is to the depth of t. */
  function Gain(u: Thread, o: Outcome, t: Thread): int {
    if u != t then 0 else if o == Granted then 1 else if o == Released then -1 else 0
  }

  /** Successful acquisitions by t in the run less its successful releases. */
  function Balance(s: State, es: seq<Event>, t: Thread): int
    requires Run(s, es)
    decreases es
  {
    if es == [] then 0
    else
      var r := Step(s, es[0]);
      Gain(es[0].thread, r.1, t) + Balance(r.0, es[1..], t)
  }

  /** A thread's depth is exactly the number of its grants not yet released, so it stays a
      holder until it has released as often as it acquired, whatever the others do. */
  lemma {:induction false} DepthIsBalance(s: State, es: seq<Event>, t: Thread)
    requires Inv(s) && Run(s, es)
    ensures Depth(After(s, es), t) == Depth(s, t) + Balance(s, es, t)
    decreases es
  {
    if es != [] {
      StepKeepsInv(s, es[0]);
      DepthStep(s, es[0], t);
      DepthIsBalance(Step(s, es[0]).0, es[1..], t);
    }
  }

  lemma WriteDepth(s: State, u: Thread, timed: bool, expired: bool, t: Thread)
    requires Inv(s) && u !in s.waiting
    ensures Depth(DoCallWrite(s, u, timed, expired).0, t)
      == Depth(s, t) + Gain(u, DoCallWrite(s, u, timed, expired).1, t)
  {
  }

  lemma ResumeDepth(s: State, u: Thread, expired: bool, t: Thread)
    requires Inv(s) && u in s.waiting
    ensures Depth(DoResume(s, u, expired).0, t) == Depth(s, t) + Gain(u, DoResume(s, u, expired).1, t)
  {
    assert !Holds(s, u);
  }

  lemma DepthStep(s: State, e: Event, t: Thread)
    requires Inv(s) && Enabled(s, e)
    ensures Depth(Step(s, e).0, t) == Depth(s, t) + Gain(e.thread, Step(s, e).1, t)
  {
    hide DoCallWrite;
    hide DoResume;
    match e
    case CallWrite(u, timed, expired) => WriteDepth(s, u, timed, expired, t);
    case Resume(u, expired) => ResumeDepth(s, u, expired, t);
    case _ =>
  }

  // ---- When a request is granted ----

  /** Some other thread is parked for a write. */
  ghost predicate WriterWaits(s: State, t: Thread) {
    exists u :: u != t && u in s.waiting && s.waiting[u].kind.Write?
  }

  ghost predicate OthersHold(s: State, t: Thread) { exists u :: u != t && Holds(s, u) }

  lemma PendingWriter(s: State, t: Thread)
    requires Inv(s) && (t in s.waiting ==> s.waiting[t].kind.Read?)
    ensures WriterWaits(s, t) <==> s.pending != []
  {
    if s.pending != [] {
      var u := s.pending[0];
      assert u in s.pending && u in s.waiting && s.waiting[u].kind.Write?;
    }
  }

  /** A read is granted exactly when no other thread writes and, unless the thread holds the lock
      already, none waits to write: however many others read. */
  lemma ReadGrantedIff(s: State, t: Thread, timed: bool, expired: bool)
    requires Inv(s) && t !in s.waiting
    ensures Enabled(s, CallRead(t, timed, expired))
    ensures var (s1, o) := Step(s, CallRead(t, timed, expired));
            && (o == Granted <==> (s.writer.Some? ==> Holds(s, t)) && (Holds(s, t) || !WriterWaits(s, t)))
            && (o == Granted ==> Holds(s1, t))
            && (o != Granted ==> o == if timed && expired then TimedOut else Blocked)
            && (o == TimedOut ==> s1 == s)
            && (o == Blocked ==> s1 == s.(waiting := s.waiting[t := Waiter(Read, timed, false)]))
  {
    PendingWriter(s, t);
  }

  /** A parked reader that is notified or past its deadline is granted under the same terms. */
  lemma WokenReadIff(s: State, t: Thread, expired: bool)
    requires Inv(s) && t in s.waiting && s.waiting[t].kind.Read?
    ensures Enabled(s, Resume(t, expired)) <==> s.waiting[t].notified || s.waiting[t].timed
    ensures var (s1, o) := DoResume(s, t, expired);
            && (o == Granted <==> s.writer == None && !WriterWaits(s, t))
            && (o == Granted ==> Holds(s1, t) && t !in s1.waiting)
            && (o != Granted ==> o == if s.waiting[t].timed && expired then TimedOut else Blocked)
  {
    PendingWriter(s, t);
  }

  /** A write is granted exactly when the thread writes already, or nobody holds the lock and
      nobody else waits to write; a reader is refused. */
  lemma WriteGrantedIff(s: State, t: Thread, timed: bool, expired: bool)
    requires Inv(s) && t !in s.waiting
    ensures Enabled(s, CallWrite(t, timed, expired))
    ensures var (s1, o) := Step(s, CallWrite(t, timed, expired));
            && (o == Granted <==> s.writer == Some(t) || (!Holds(s, t) && !OthersHold(s, t) && !WriterWaits(s, t)))
            && (o == Refused <==> t in s.readers)
            && (o == Granted ==> s1.writer == Some(t))
            && (o !in {Granted, Refused} ==> o == if timed && expired then TimedOut else Blocked)
            && (o == Refused ==> s1 == s)
            && (o == Blocked ==> s1.pending == s.pending + [t])
            && (o == Blocked ==> s1.waiting == s.waiting[t := Waiter(Write, timed, false)])
  {
    PendingWriter(s, t);
    if !Holds(s, t) { NobodyElse(s, t); }
    assert t !in s.pending;
    if s.pending != [] { assert (s.pending + [t])[0] == s.pending[0] && s.pending[0] in s.pending; }
  }

  lemma NobodyElse(s: State, t: Thread)
    requires Inv(s) && !Holds(s, t)
    ensures OthersHold(s, t) <==> s.writer.Some? || s.readers != map[]
  {
    if s.writer.Some? { assert Holds(s, s.writer.value); }
    if s.readers != map[] { var u :| u in s.readers; assert Holds(s, u); }
  }

  /** The first of the queue is granted when nobody holds the lock, and no other. */
  lemma WokenWriteIff(s: State, t: Thread, expired: bool)
    requires Inv(s) && t in s.waiting && s.waiting[t].kind.Write?
    ensures Enabled(s, Resume(t, expired)) <==> s.waiting[t].notified || s.waiting[t].timed
    ensures var (s1, o) := DoResume(s, t, expired);
            && (o == Granted <==> !OthersHold(s, t) && t !in s.pending[1..])
            && (o == Granted ==> s1.writer == Some(t) && t !in s1.waiting)
            && (o != Granted ==> o == if s.waiting[t].timed && expired then TimedOut else Blocked)
  {
    NobodyElse(s, t);
    assert t in s.pending;
    var i :| 0 <= i < |s.pending| && s.pending[i] == t;
    if i > 0 { assert s.pending[1..][i - 1] == t; }
  }

  lemma ReleaseIff(s: State, t: Thread)
    requires Inv(s) && t !in s.waiting
    ensures Enabled(s, Release(t)) && (Step(s, Release(t)).1 == Released <==> Holds(s, t))
    ensures !Holds(s, t) ==> Step(s, Release(t)) == (s, NotHeld)
  {
  }

  function Reads(ts: seq<Thread>): seq<Event> { seq(|ts|, i requires 0 <= i < |ts| => CallRead(ts[i], false, false)) }

  /** Any number of threads read together. */
  lemma {:induction false} ReadersShare(s: State, ts: seq<Thread>)
    requires Inv(s) && s.writer == None && s.waiting == map[]
    ensures Run(s, Reads(ts)) && After(s, Reads(ts)).writer == None && After(s, Reads(ts)).waiting == map[]
    ensures forall t :: t in ts || t in s.readers ==> t in After(s, Reads(ts)).readers
    decreases ts
  {
    if ts != [] {
      var e := CallRead(ts[0], false, false);
      ReadGrantedIff(s, ts[0], false, false);
      StepKeepsInv(s, e);
      PendingWriter(s, ts[0]);
      ReadersShare(Step(s, e).0, ts[1..]);
      assert Reads(ts)[1..] == Reads(ts[1..]);
    }
  }

  lemma TwoReaders()
    ensures Run(Init, Reads([1, 2])) && {1, 2} <= After(Init, Reads([1, 2])).readers.Keys
  {
    ReadersShare(Init, [1, 2]);
    assert 1 in [1, 2] && 2 in [1, 2];
  }

  // ---- The lock object ----

  class RWLock {
    var readers: map<Thread, nat>
    var writer: Option<Thread>
    var writerCount: nat
    var pending: seq<Thread>
    var waiting: map<Thread, Waiter>

    ghost function View(): State
      reads this
    {
      State(readers, writer, writerCount, pending, waiting)
    }

    constructor ()
      ensures View() == Init
    {
      readers, writer, writerCount, pending, waiting := map[], None, 0, [], map[];
    }

    method NotifyEveryone()
      modifies this`waiting
      ensures View() == NotifyAll(old(View()))
    {
      waiting := map t | t in waiting :: waiting[t].(notified := true);
    }

    /** From the top of the read loop to the return or the wait. */
    method ReadTurn(me: Thread, timed: bool, expired: bool) returns (o: Outcome)
      modifies this
      ensures (View(), o) == TryRead(old(View()), me, timed, expired)
    {
      if writer == None {
        if pending != [] {
          if me in readers {
            readers := readers[me := readers[me] + 1];
            return Granted;
          }
        } else {
          readers := readers[me := Count(readers, me) + 1];
          return Granted;
        }
      }
      if timed && expired { return TimedOut; }
      waiting := waiting[me := Waiter(Read, timed, false)];
      return Blocked;
    }

    method WriteTurn(me: Thread, timed: bool, expired: bool) returns (o: Outcome)
      requires Distinct(pending) && me in pending
      modifies this
      ensures (View(), o) == TryWrite(old(View()), me, timed, expired)
    {
      if readers == map[] && writer == None && pending[0] == me {
        writer := Some(me);
        writerCount := 1;
        pending := pending[1..];
        return Granted;
      }
      if timed && expired {
        LeaveQueue(me);
        return TimedOut;
      }
      waiting := waiting[me := Waiter(Write, timed, false)];
      return Blocked;
    }

    /** The finally clause of acquire_write for a thread that is still pending. */
    method LeaveQueue(me: Thread)
      modifies this
      ensures View() == Withdraw(old(View()), me)
    {
      pending := Without(pending, me);
      NotifyEveryone();
    }

    method AcquireRead(me: Thread, timed: bool, expired: bool) returns (o: Outcome)
      modifies this
      ensures (View(), o) == DoCallRead(old(View()), me, timed, expired)
    {
      if writer == Some(me) {
        writerCount := writerCount + 1;
        return Granted;
      }
      o := ReadTurn(me, timed, expired);
    }

    method AcquireWrite(me: Thread, timed: bool, expired: bool) returns (o: Outcome)
      requires Inv(View()) && me !in waiting
      modifies this
      ensures (View(), o) == DoCallWrite(old(View()), me, timed, expired)
      ensures Inv(View())
    {
      CallWriteKeepsInv(View(), me, timed, expired);
      if writer == Some(me) {
        writerCount := writerCount + 1;
        return Granted;
      }
      if me in readers { return Refused; }
      pending := pending + [me];
      o := WriteTurn(me, timed, expired);
    }

    /** A parked thread comes out of Condition.wait and goes round its loop. */
    method WakeUp(me: Thread, expired: bool) returns (o: Outcome)
      requires Inv(View()) && me in waiting
      modifies this
      ensures (View(), o) == DoResume(old(View()), me, expired)
      ensures Inv(View())
    {
      ResumeKeepsInv(View(), me, expired);
      var w := waiting[me];
      waiting := waiting - {me};
      match w.kind
      case Read => o := ReadTurn(me, w.timed, expired);
      case Write => o := WriteTurn(me, w.timed, expired);
    }

    /** An exception raised inside the wait. */
    method Interrupted(me: Thread)
      requires Inv(View()) && me in waiting
      modifies this
      ensures View() == DoInterrupt(old(View()), me).0
      ensures Inv(View())
    {
      InterruptKeepsInv(View(), me);
      var w := waiting[me];
      waiting := waiting - {me};
      if me in pending {
        LeaveQueue(me);
      }
    }

    method ReleaseLock(me: Thread) returns (o: Outcome)
      requires Inv(View()) && me !in waiting
      modifies this
      ensures (View(), o) == DoRelease(old(View()), me)
      ensures Inv(View())
    {
      ReleaseKeepsInv(View(), me);
      if writer == Some(me) {
        writerCount := writerCount - 1;
        if writerCount == 0 {
          writer := None;
          NotifyEveryone();
        }
        return Released;
      } else if me in readers {
        readers := readers[me := readers[me] - 1];
        if readers[me] == 0 {
          readers := readers - {me};
          assert readers == old(readers) - {me};
          if readers == map[] { NotifyEveryone(); }
        }
        return Released;
      }
      return NotHeld;
    }
  }
}
