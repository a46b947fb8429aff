/**
  What each request on the keystore does, told from the data, the owners and the waiting
  threads: when it is answered and how, and what a completed data operation makes of the data.
 */
module KeystoreLaws {
  import opened Keystores
  import opened Wrappers

  // ---- The data ----

  /** Nothing but section n differs. */
  ghost predicate OthersKept(c: Content, c1: Content, n: Name) {
    && (forall m :: m != n ==> (m in c1.data <==> m in c.data) && (m in c1.updated <==> m in c.updated))
    && (forall m :: m != n && m in c.data ==> c1.data[m] == c.data[m])
    && (forall m :: m != n && m in c.updated ==> c1.updated[m] == c.updated[m])
  }

  /** Section n is there, with this timestamp. */
  ghost predicate Stamped(c: Content, n: Name, at: int) { n in c.data && n in c.updated && c.updated[n] == at }

  ghost predicate Absent(c: Content, n: Name) { n !in c.data && n !in c.updated }

  /** The key is in the section, with this value if one is given. */
  ghost predicate Holds(c: Content, n: Name, k: Key, v: Option<Value>) {
    if v.None? then n !in c.data || k !in c.data[n] else n in c.data && k in c.data[n] && c.data[n][k] == v.value
  }

  /** All keys of section n but k are in it as before. */
  ghost predicate KeysKept(c: Content, c1: Content, n: Name, k: Key) {
    forall j, v :: j != k ==> (Holds(c1, n, j, v) <==> Holds(c, n, j, v))
  }

  ghost predicate Emptied(c: Content, n: Name) { forall k :: Holds(c, n, k, None) }

  /** What the operation promises. */
  ghost predicate Done(op: Op, n: Name, now: int, c: Content, c1: Content) {
    && OthersKept(c, c1, n)
    && match op
       case Read => c1 == c
       case Set(k, v) => Stamped(c1, n, now) && Holds(c1, n, k, Some(v)) && KeysKept(c, c1, n, k)
       case Remove(k) => n in c.data && Stamped(c1, n, now) && Holds(c1, n, k, None) && KeysKept(c, c1, n, k)
       case Delete => Absent(c1, n)
       case Add => if n in c.data then c1 == c else Stamped(c1, n, 0) && Emptied(c1, n)
       case Purge => if n in c.data then Stamped(c1, n, 0) && Emptied(c1, n) else c1 == c
       case Reset => if n in c.data then Stamped(c1, n, now) && Emptied(c1, n) else c1 == c
  }

  lemma ApplyDoes(op: Op, n: Name, now: int, c: Content)
    requires SameNames(c) && (op.Remove? ==> n in c.data)
    ensures Done(op, n, now, c, Apply(op, n, now, c))
  {
  }

  /** A data request that is answered has been applied. */
  lemma TurnApplies(s: State, t: Thread, r: Request, n: Name, id: LockId, now: int, expired: bool)
    requires r.Data? && r.name == n
    ensures var (s1, o) := SectionTurn(s, t, r, n, id, now, expired);
            if o in {Completed, NoKey}
            then s1.content == Apply(r.op, n, now, s.content) && o == OpOutcome(r.op, n, s.content)
            else s1.content == s.content
  {
    hide SectionGranted;
    GrantedContent(s, t, r, n, id, now);
    LeaveContent(s, n);
  }

  lemma StartApplies(s: State, t: Thread, r: Request, now: int, expired: bool)
    requires r.Data?
    ensures var (s1, o) := SectionStart(s, t, r, r.name, now, expired);
            if o in {Completed, NoKey}
            then s1.content == Apply(r.op, r.name, now, s.content) && o == OpOutcome(r.op, r.name, s.content)
            else s1.content == s.content
  {
    hide SectionTurn;
    var s1 := Enlisted(s, r.name);
    TurnApplies(s1, t, r, r.name, s1.lock[r.name], now, expired);
  }

  lemma EnterApplies(s: State, t: Thread, r: Request, now: int, expired: bool)
    requires r.Data?
    ensures var (s1, o) := EnterTurn(s, t, r, now, expired);
            if o in {Completed, NoKey}
            then s1.content == Apply(r.op, r.name, now, s.content) && o == OpOutcome(r.op, r.name, s.content)
            else s1.content == s.content
  {
    hide SectionStart;
    hide DirectOp;
    StartApplies(s, t, r, now, expired);
    DirectContent(s, r.op, r.name, now);
  }

  /** The data operation of the event, a call or a thread that comes out of its wait. */
  predicate Works(s: State, e: Event, op: Op, n: Name) {
    Enabled(s, e) && RequestOf(s, e).Some? && RequestOf(s, e).value.Data?
    && RequestOf(s, e).value.op == op && RequestOf(s, e).value.name == n
  }

  /** A completed data operation does what it promises; one without its key, or held up, or
      given up, nothing; and it is without its key exactly if it is to remove one from a section
      that is not there. */
  lemma DataLaw(s: State, e: Event, op: Op, n: Name)
    requires Inv(s) && Works(s, e, op, n)
    ensures var (s1, o) := Step(s, e);
            && (o == Completed ==> Done(op, n, e.now, s.content, s1.content))
            && (o != Completed ==> s1.content == s.content)
            && (o in {Completed, NoKey} ==> (o == NoKey <==> op.Remove? && n !in s.content.data))
  {
    var r := RequestOf(s, e).value;
    if e.Call? {
      EnterApplies(s, e.thread, r, e.now, e.expired);
    } else {
      var w, s1 := s.waits[e.thread], s.(waits := s.waits - {e.thread});
      assert WellParked(s.lock, s.owners, e.thread, w);
      match w.stage {
        case AtEnter => EnterApplies(s1, e.thread, r, e.now, e.expired);
        case AtSection(_, id) => TurnApplies(s1, e.thread, r, n, id, e.now, e.expired);
        case AtGlobal =>
      }
    }
    if op.Remove? ==> n in s.content.data { ApplyDoes(op, n, e.now, s.content); }
  }

  lemma TurnAcquires(s: State, t: Thread, r: Request, n: Name, id: LockId, now: int, expired: bool)
    requires r.Acquire? && r.name == n
    ensures var (s1, o) := SectionTurn(s, t, r, n, id, now, expired);
            s1.content == if o == Completed && !r.exists_ then Ensured(s.content, n) else s.content
  {
    hide SectionGranted;
    GrantedContent(s, t, r, n, id, now);
    LeaveContent(s, n);
  }

  lemma EnterAcquires(s: State, t: Thread, r: Request, now: int, expired: bool)
    requires r.Acquire?
    ensures var (s1, o) := EnterTurn(s, t, r, now, expired);
            s1.content == if o == Completed && !r.exists_ then Ensured(s.content, r.name) else s.content
  {
    hide SectionTurn;
    var s1 := Enlisted(s, r.name);
    TurnAcquires(s1, t, r, r.name, s1.lock[r.name], now, expired);
  }

  lemma GlobalKeeps(s: State, t: Thread, r: Request, expired: bool)
    ensures GlobalTurn(s, t, r, expired).0.content == s.content
  {
    hide GlobalFree;
    hide OwnsSection;
  }

  lemma EnterLocks(s: State, t: Thread, r: Request, now: int, expired: bool)
    requires r.GlobalLock?
    ensures EnterTurn(s, t, r, now, expired).0.content == s.content
  {
    hide SectionStart;
    hide DirectOp;
    hide GlobalFree;
    hide OwnsSection;
    hide CanEnter;
    hide NotifyAll;
    GlobalKeeps(s.(globalWaiters := s.globalWaiters + 1), t, r, expired);
    hide GlobalTurn;
  }

  /** Apart from data operations only a completed acquire changes the data: unless it checks for
      the section, it creates it if it is not there. */
  lemma AcquireLaw(s: State, e: Event)
    requires Inv(s) && Enabled(s, e) && (RequestOf(s, e).Some? ==> !RequestOf(s, e).value.Data?)
    ensures var (r, o) := (RequestOf(s, e), Step(s, e).1);
            if r.Some? && r.value.Acquire? && !r.value.exists_ && o == Completed
            then Done(Add, r.value.name, 0, s.content, Step(s, e).0.content)
            else Step(s, e).0.content == s.content
  {
    if e.Call? || e.Resume? {
      var r := RequestOf(s, e).value;
      if r.Acquire? { ApplyDoes(Add, r.name, 0, s.content); }
      if e.Call? {
        if r.Acquire? {
          EnterAcquires(s, e.thread, r, e.now, e.expired);
        } else {
          EnterLocks(s, e.thread, r, e.now, e.expired);
        }
      } else {
        ResumeAcquires(s, e, r);
      }
    } else if e.Interrupt? && s.waits[e.thread].stage.AtSection? {
      LeaveContent(s.(waits := s.waits - {e.thread}), s.waits[e.thread].stage.name);
    }
  }

  lemma ResumeAcquires(s: State, e: Event, r: Request)
    requires Inv(s) && Enabled(s, e) && e.Resume? && r == s.waits[e.thread].request && !r.Data?
    ensures Step(s, e).0.content ==
      if r.Acquire? && !r.exists_ && Step(s, e).1 == Completed then Ensured(s.content, r.name) else s.content
  {
    var w, s1 := s.waits[e.thread], s.(waits := s.waits - {e.thread});
    assert WellParked(s.lock, s.owners, e.thread, w);
    match w.stage
    case AtEnter =>
      if r.Acquire? {
        EnterAcquires(s1, e.thread, r, e.now, e.expired);
      } else {
        EnterLocks(s1, e.thread, r, e.now, e.expired);
      }
    case AtSection(n, id) => TurnAcquires(s1, e.thread, r, n, id, e.now, e.expired);
    case AtGlobal =>
  }

  // ---- How a request is answered ----

  ghost predicate OwnsSome(s: State, t: Thread) { exists n :: n in s.owners && s.owners[n].thread == t }

  ghost predicate OthersOwn(s: State, t: Thread) { exists n :: n in s.owners && s.owners[n].thread != t }

  /** No other thread has the global lock, or waits for it while t owns nothing. */
  ghost predicate GateOpen(s: State, t: Thread) {
    && (s.globalOwner.Some? ==> s.globalOwner.value == t)
    && (s.globalOwner.Some? || OwnsSome(s, t) || forall u :: u in s.waits ==> !s.waits[u].stage.AtGlobal?)
  }

  ghost predicate OwnedByOther(s: State, n: Name, t: Thread) { n in s.owners && s.owners[n].thread != t }

  /** Held up: the answer is a time-out if the wait has a deadline that is over. */
  ghost predicate HeldUp(o: Outcome, timed: bool, expired: bool) { o == if timed && expired then TimedOut else Waiting }

  /** The answer to a request for section n by a thread that is past the entry. */
  ghost predicate SectionAnswer(s: State, t: Thread, r: Request, expired: bool, o: Outcome)
    requires !r.GlobalLock?
  {
    if r.Acquire? && r.exists_ && r.name !in s.content.data then o == Missing
    else if GateOpen(s, t) && !OwnedByOther(s, r.name, t) then
      o == if r.Data? && r.op.Remove? && r.name !in s.content.data then NoKey else Completed
    else HeldUp(o, r.Acquire? && r.timed, expired)
  }

  /** The answer to a request for the global lock. */
  ghost predicate GlobalAnswer(s: State, t: Thread, r: Request, expired: bool, o: Outcome)
    requires r.GlobalLock?
  {
    if (s.globalOwner.Some? ==> s.globalOwner.value == t) && !OthersOwn(s, t) then o == Completed
    else if OwnsSome(s, t) then o == Refused
    else HeldUp(o, r.timed, expired)
  }

  /** The answer to a call.  An operation on the data waits for its section's owner only if it is
      to take the lock and there is one, or it creates the section. */
  ghost predicate Answer(s: State, t: Thread, r: Request, expired: bool, o: Outcome) {
    match r
    case GlobalLock(timed) =>
      if s.globalOwner.Some? && s.globalOwner.value != t then HeldUp(o, timed, expired)
      else GlobalAnswer(s, t, r, expired, o)
    case Acquire(_, _, _) => if GateOpen(s, t) then SectionAnswer(s, t, r, expired, o) else HeldUp(o, true, expired)
    case Data(op, n, locked) =>
      if !GateOpen(s, t) then HeldUp(o, true, expired)
      else if op.Remove? && n !in s.content.data then o == NoKey
      else if locked && (n in s.lock || op.Add? || op.Set?) then SectionAnswer(s, t, r, expired, o)
      else o == Completed
  }

  lemma GateIs(s: State, t: Thread)
    requires Inv(s)
    ensures GateOpen(s, t) <==> CanEnter(s, t)
    ensures OwnsSome(s, t) <==> OwnsSection(s.owners, t)
    ensures OthersOwn(s, t) <==> !OnlyOwner(s.owners, t)
  {
    if s.globalWaiters != 0 { assert |GlobalWaiters(s.waits)| > 0; var u :| u in GlobalWaiters(s.waits); }
    if u :| u in s.waits && s.waits[u].stage.AtGlobal? { assert u in GlobalWaiters(s.waits); }
  }

  /** The lock of section n, if it has one, is free for t unless another thread owns n. */
  lemma LockIs(s: State, n: Name, t: Thread)
    requires Inv(s)
    ensures n in s.lock ==> (LockFree(s, s.lock[n], t) <==> !OwnedByOther(s, n, t))
    ensures n !in s.lock ==> n !in s.owners && s.nextLock !in s.held
  {
  }

  lemma TurnAnswers(s: State, t: Thread, r: Request, n: Name, id: LockId, now: int, expired: bool)
    requires !r.GlobalLock? && r.name == n
    ensures var o := SectionTurn(s, t, r, n, id, now, expired).1;
            if WantsExisting(r) && n !in s.content.data then o == Missing
            else if CanEnter(s, t) && LockFree(s, id, t)
            then o == if r.Data? && r.op.Remove? && n !in s.content.data then NoKey else Completed
            else HeldUp(o, r.Acquire? && r.timed, expired)
  {
    hide SectionGranted;
    GrantedContent(s, t, r, n, id, now);
    LeaveContent(s, n);
  }

  lemma EnlistedSame(s: State, n: Name, t: Thread)
    requires Inv(s)
    ensures var s1 := Enlisted(s, n);
            && n in s1.lock && s1.content == s.content && (CanEnter(s1, t) <==> CanEnter(s, t))
            && (LockFree(s1, s1.lock[n], t) <==> !OwnedByOther(s, n, t))
  {
    LockIs(s, n, t);
    hide Inv;
  }

  lemma StartAnswers(s: State, t: Thread, r: Request, now: int, expired: bool)
    requires Inv(s) && !r.GlobalLock?
    ensures SectionAnswer(s, t, r, expired, SectionStart(s, t, r, r.name, now, expired).1)
  {
    hide Enlisted;
    hide SectionTurn;
    hide CanEnter;
    hide LockFree;
    hide GateOpen;
    hide OwnedByOther;
    hide Inv;
    GateIs(s, t);
    EnlistedSame(s, r.name, t);
    var s1 := Enlisted(s, r.name);
    TurnAnswers(s1, t, r, r.name, s1.lock[r.name], now, expired);
  }

  lemma GlobalAnswers(s: State, t: Thread, r: Request, expired: bool)
    requires Inv(s) && r.GlobalLock?
    ensures GlobalAnswer(s, t, r, expired, GlobalTurn(s, t, r, expired).1)
  {
    GateIs(s, t);
    hide Inv;
    hide OwnsSection;
    hide OnlyOwner;
    hide NotifyAll;
  }

  lemma EnterAnswers(s: State, t: Thread, r: Request, now: int, expired: bool)
    requires Inv(s)
    ensures Answer(s, t, r, expired, EnterTurn(s, t, r, now, expired).1)
  {
    GateIs(s, t);
    match r
    case GlobalLock(_) =>
      var s1 := s.(globalWaiters := s.globalWaiters + 1);
      GlobalAnswers(s, t, r, expired);
      assert GlobalTurn(s1, t, r, expired).1 == GlobalTurn(s, t, r, expired).1;
      hide GlobalTurn;
      hide Inv;
    case Acquire(_, _, _) => AcquireAnswers(s, t, r, now, expired);
    case Data(_, _, _) => DataAnswers(s, t, r, now, expired);
  }

  lemma AcquireAnswers(s: State, t: Thread, r: Request, now: int, expired: bool)
    requires Inv(s) && r.Acquire?
    ensures Answer(s, t, r, expired, EnterTurn(s, t, r, now, expired).1)
  {
    GateIs(s, t);
    StartAnswers(s, t, r, now, expired);
    hide Inv;
    hide SectionStart;
    hide CanEnter;
    hide GateOpen;
    hide OwnedByOther;
  }

  lemma DataAnswers(s: State, t: Thread, r: Request, now: int, expired: bool)
    requires Inv(s) && r.Data?
    ensures Answer(s, t, r, expired, EnterTurn(s, t, r, now, expired).1)
  {
    GateIs(s, t);
    StartAnswers(s, t, r, now, expired);
    hide Inv;
    hide SectionStart;
    hide SectionAnswer;
    hide DirectOp;
    hide CanEnter;
    hide GateOpen;
  }

  /** A thread at the entry is no reason for its own gate to be shut. */
  lemma AnswerSame(s: State, s1: State, t: Thread, r: Request, expired: bool, o: Outcome)
    requires t in s.waits && s.waits[t].stage.AtEnter? && s1 == s.(waits := s.waits - {t})
    ensures Answer(s1, t, r, expired, o) <==> Answer(s, t, r, expired, o)
  {
    assert GateOpen(s1, t) <==> GateOpen(s, t) by {
      assert forall u :: u in s.waits && s.waits[u].stage.AtGlobal? ==> u in s1.waits && s1.waits[u] == s.waits[u];
    }
  }

  /** Every call of a thread that is not waiting is answered as told. */
  lemma CallAnswered(s: State, t: Thread, r: Request, now: int, expired: bool)
    requires Inv(s) && t !in s.waits
    ensures Enabled(s, Call(t, r, now, expired))
    ensures Answer(s, t, r, expired, Step(s, Call(t, r, now, expired)).1)
  {
    EnterAnswers(s, t, r, now, expired);
  }

  /** A waiting thread that runs again is answered according to where it waits. */
  lemma WokenAnswered(s: State, t: Thread, now: int, expired: bool)
    requires Inv(s) && t in s.waits && Enabled(s, Resume(t, now, expired))
    ensures var w, o := s.waits[t], Step(s, Resume(t, now, expired)).1;
            match w.stage
            case AtEnter => Answer(s, t, w.request, expired, o)
            case AtSection(_, _) => !w.request.GlobalLock? && SectionAnswer(s, t, w.request, expired, o)
            case AtGlobal => w.request.GlobalLock? && GlobalAnswer(s, t, w.request, expired, o)
  {
    var w, s1 := s.waits[t], s.(waits := s.waits - {t});
    assert WellParked(s.lock, s.owners, t, w);
    GateIs(s, t);
    LockIs(s, if w.request.GlobalLock? then "" else w.request.name, t);
    match w.stage
    case AtEnter =>
      UnparkKeeps(s, t);
      EnterAnswers(s1, t, w.request, now, expired);
      AnswerSame(s, s1, t, w.request, expired, EnterTurn(s1, t, w.request, now, expired).1);
      hide Inv;
      hide EnterTurn;
      hide Answer;
    case AtSection(n, id) =>
      TurnAnswers(s1, t, w.request, n, id, now, expired);
      hide Inv;
      hide SectionTurn;
    case AtGlobal =>
      hide Inv;
      hide NotifyAll;
  }

  /** A section is released by its owner only, and a name without a lock is ignored. */
  lemma ReleaseAnswered(s: State, t: Thread, n: Name)
    requires Inv(s) && t !in s.waits
    ensures var e := Release(t, n);
            && Enabled(s, e)
            && (Step(s, e).1 == Released <==> n in s.owners && s.owners[n].thread == t)
            && (Step(s, e).1 == NothingHeld <==> n !in s.lock)
            && (Step(s, e).1 != Released ==> Step(s, e) == (s, if n in s.lock then NotOwner else NothingHeld))
  {
  }

  lemma UnlockAnswered(s: State, t: Thread)
    requires Inv(s) && t !in s.waits
    ensures var e := Unlock(t);
            && Enabled(s, e)
            && (Step(s, e).1 == Released <==> s.globalOwner == Some(t))
            && (Step(s, e).1 != Released ==> Step(s, e) == (s, NotOwner))
  {
  }

  /** A waiting thread runs again after a notification, an interrupt, or at its deadline: entry
      has one but for a lock() without limit, a section for an acquire() with one, and the global
      lock for a lock() with one. */
  lemma WakesIff(s: State, t: Thread, now: int, expired: bool)
    requires Inv(s) && t in s.waits
    ensures Enabled(s, Interrupt(t))
    ensures var w := s.waits[t];
            Enabled(s, Resume(t, now, expired)) <==>
              || w.notified
              || (match w.stage
                  case AtEnter => !w.request.GlobalLock? || w.request.timed
                  case AtSection(_, _) => w.request.Acquire? && w.request.timed
                  case AtGlobal => w.request.timed)
  {
    assert WellParked(s.lock, s.owners, t, s.waits[t]);
  }

  /** A thread that is interrupted waits no more, and has changed nothing that others hold. */
  lemma InterruptLeaves(s: State, t: Thread)
    requires Inv(s) && t in s.waits
    ensures var (s1, o) := Step(s, Interrupt(t));
            && o == Interrupted && s1.waits.Keys == s.waits.Keys - {t}
            && s1.content == s.content && s1.owners == s.owners && s1.globalOwner == s.globalOwner
  {
    DepthInterrupt(s, t);
    if s.waits[t].stage.AtSection? { LeaveContent(s.(waits := s.waits - {t}), s.waits[t].stage.name); }
  }
}
