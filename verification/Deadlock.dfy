/**
  Deadlocks of threads in the keystore.

  Threads that wait for one another's sections.  What matters is which of them can still go on
  when their deadlines do not run out and nobody interrupts them, whatever all other threads do.
 */
module Deadlocks {
  import opened Keystores
  import opened Wrappers

  // ---- Threads that wait for one another ----

  predicate Blocked(s: State, t: Thread) { t in s.waits && !Guard(s, t, s.waits[t]) }

  ghost predicate WaitsAmong(s: State, t: Thread, ts: set<Thread>) { exists u :: u in ts && WaitsFor(s, t, u) }

  /** Parked threads that would all wait again at their next turn, each for another of them. */
  ghost predicate Stuck(s: State, ts: set<Thread>) {
    && ts != {}
    && (forall t :: t in ts ==> Blocked(s, t))
    && (forall t {:trigger WaitsAmong(s, t, ts)} :: t in ts ==> WaitsAmong(s, t, ts))
  }

  ghost predicate StuckCycle(s: State, ts: seq<Thread>) {
    Cycle(s, ts) && forall i :: 0 <= i < |ts| ==> Blocked(s, ts[i])
  }

  /** A chain of waiting threads, each waiting for the next. */
  ghost predicate Chain(s: State, among: set<Thread>, ts: seq<Thread>) {
    && (forall i :: 0 <= i < |ts| ==> ts[i] in among)
    && (forall i, k :: 0 <= i < k < |ts| ==> ts[i] != ts[k])
    && (forall i :: 0 <= i < |ts| - 1 ==> WaitsFor(s, ts[i], ts[i + 1]))
  }

  lemma {:induction false} ChainLength(s: State, among: set<Thread>, ts: seq<Thread>)
    requires Chain(s, among, ts)
    ensures |ts| <= |among|
    decreases ts
  {
    hide WaitsFor;
    if ts != [] {
      assert forall i :: 0 <= i < |ts[1..]| ==> ts[1..][i] == ts[i + 1];
      ChainLength(s, among - {ts[0]}, ts[1..]);
    }
  }

  lemma ChainRound(s: State, among: set<Thread>, ts: seq<Thread>, i: nat)
    requires Chain(s, among, ts) && i < |ts| && WaitsFor(s, ts[|ts| - 1], ts[i])
    requires forall t :: t in among ==> Blocked(s, t)
    ensures StuckCycle(s, ts[i..] + [ts[i]])
  {
    hide WaitsFor;
    hide Blocked;
    var cycle := ts[i..] + [ts[i]];
    forall k | 0 <= k < |cycle| - 1 ensures WaitsFor(s, cycle[k], cycle[k + 1]) {
      assert cycle[k] == ts[i + k];
      if k < |cycle| - 2 { assert WaitsFor(s, ts[i + k], ts[i + k + 1]); }
    }
  }

  lemma ChainGrows(s: State, among: set<Thread>, ts: seq<Thread>, u: Thread)
    requires Chain(s, among, ts) && ts != [] && u in among && u !in ts && WaitsFor(s, ts[|ts| - 1], u)
    ensures Chain(s, among, ts + [u])
  {
    hide WaitsFor;
    var more := ts + [u];
    forall k | 0 <= k < |more| - 1 ensures WaitsFor(s, more[k], more[k + 1]) {
      if k < |ts| - 1 { assert WaitsFor(s, ts[k], ts[k + 1]); }
    }
  }

  lemma NextAmong(s: State, ts: set<Thread>, t: Thread) returns (u: Thread)
    requires Stuck(s, ts) && t in ts
    ensures u in ts && WaitsFor(s, t, u)
  {
    hide WaitsFor;
    hide Blocked;
    assert WaitsAmong(s, t, ts);
    u :| u in ts && WaitsFor(s, t, u);
  }

  lemma {:induction false} ChainCloses(s: State, among: set<Thread>, ts: seq<Thread>) returns (cycle: seq<Thread>)
    requires Stuck(s, among) && Chain(s, among, ts) && ts != []
    ensures StuckCycle(s, cycle)
    decreases |among| - |ts|
  {
    hide WaitsFor;
    hide Blocked;
    hide WaitsAmong;
    var last := ts[|ts| - 1];
    var u := NextAmong(s, among, last);
    if i :| 0 <= i < |ts| && ts[i] == u {
      ChainRound(s, among, ts, i);
      cycle := ts[i..] + [ts[i]];
    } else {
      ChainGrows(s, among, ts, u);
      hide Chain;
      hide Stuck;
      ChainLength(s, among, ts + [u]);
      cycle := ChainCloses(s, among, ts + [u]);
    }
  }

  lemma CycleIsStuck(s: State, cycle: seq<Thread>)
    requires StuckCycle(s, cycle)
    ensures Stuck(s, set t | t in cycle)
  {
    hide WaitsFor;
    hide Blocked;
    var ts := set t | t in cycle;
    assert cycle[0] in ts;
    forall t | t in ts ensures Blocked(s, t) && WaitsAmong(s, t, ts) {
      var i :| 0 <= i < |cycle| && cycle[i] == t;
      var k := if i == |cycle| - 1 then 0 else i;
      assert WaitsFor(s, cycle[k], cycle[k + 1]) && cycle[k + 1] in ts;
    }
  }

  /** In a finite set with a successor inside for each member some go round in a circle. */
  lemma StuckIff(s: State)
    ensures (exists ts :: Stuck(s, ts)) <==> exists cycle :: StuckCycle(s, cycle)
  {
    hide StuckCycle;
    hide WaitsFor;
    hide Blocked;
    hide WaitsAmong;
    if ts :| Stuck(s, ts) {
      var t :| t in ts;
      var cycle := ChainCloses(s, ts, [t]);
    }
    if cycle :| StuckCycle(s, cycle) {
      CycleIsStuck(s, cycle);
    }
  }

  lemma RankGrows(s: State, rank: Name -> nat, t: Thread, u: Thread)
    requires Inv(s) && Ordered(s, rank) && WaitsForOwner(s, t, u) && u in s.waits && s.waits[u].stage.AtSection?
    ensures rank(s.waits[t].stage.name) < rank(s.waits[u].stage.name)
  {
    assert WellParked(s.lock, s.owners, t, s.waits[t]);
  }

  lemma {:induction false} RankAlong(s: State, rank: Name -> nat, ts: seq<Thread>, i: nat)
    requires Inv(s) && Ordered(s, rank) && Cycle(s, ts) && 1 <= i < |ts|
    ensures ts[0] in s.waits && s.waits[ts[0]].stage.AtSection? && ts[i] in s.waits && s.waits[ts[i]].stage.AtSection?
    ensures rank(s.waits[ts[0]].stage.name) < rank(s.waits[ts[i]].stage.name)
  {
    hide Inv;
    hide WaitsFor;
    hide Ordered;
    var k := i - 1;
    CyclesAreSectionCycles(s, ts, k);
    CyclesAreSectionCycles(s, ts, 0);
    if i < |ts| - 1 { CyclesAreSectionCycles(s, ts, i); }
    RankGrows(s, rank, ts[k], ts[i]);
    if k > 0 { RankAlong(s, rank, ts, k); }
  }

  /** With sections taken in a fixed order no threads are ever stuck. */
  lemma OrderedNeverStuck(s: State, rank: Name -> nat, ts: set<Thread>)
    requires Inv(s) && Ordered(s, rank)
    ensures !Stuck(s, ts)
  {
    if Stuck(s, ts) {
      hide Inv;
      hide Ordered;
      StuckIff(s);
      var cycle :| StuckCycle(s, cycle);
      RankAlong(s, rank, cycle, |cycle| - 1);
      assert false;
    }
  }

  // ---- What such threads keep ----

  /** A member's wait ends by a notification only; the other threads do what they like. */
  predicate Quiet(e: Event, ts: set<Thread>) { e.thread in ts ==> e.Resume? && !e.expired }

  predicate AllQuiet(es: seq<Event>, ts: set<Thread>) { forall i :: 0 <= i < |es| ==> Quiet(es[i], ts) }

  predicate Owned(owners: map<Name, Owner>, n: Name, t: Thread) { n in owners && owners[n].thread == t }

  /** The members wait as before, and own the same sections. */
  ghost predicate Kept(s: State, s1: State, ts: set<Thread>) {
    && (forall t :: t in ts ==> SameWait(s.waits, s1.waits, t))
    && (forall n, t :: t in ts ==> (Owned(s1.owners, n, t) <==> Owned(s.owners, n, t)))
  }

  /** A parked existence check. */
  predicate Checks(s: State, t: Thread) {
    t in s.waits && s.waits[t].stage.AtSection? && WantsExisting(s.waits[t].request)
  }

  predicate AtGate(s: State, t: Thread) { t in s.waits && s.waits[t].stage.AtGlobal? }

  lemma BlockedResume(s: State, t: Thread, now: int)
    requires Inv(s) && Blocked(s, t)
    ensures DoResume(s, t, now, false) == (s.(waits := s.waits[t := s.waits[t].(notified := false)]), Waiting)
  {
    var w, s1 := s.waits[t], s.(waits := s.waits - {t});
    assert WellParked(s.lock, s.owners, t, w);
    hide Inv;
    hide Entered;
    hide SectionGranted;
    assert s1.waits[t := w.(notified := false)] == s.waits[t := w.(notified := false)];
    match w.stage
    case AtEnter => assert EnterTurn(s1, t, w.request, now, false) == (Park(s1, t, w.request, AtEnter), Waiting);
    case AtSection(n, id) =>
      assert SectionTurn(s1, t, w.request, n, id, now, false) == (Park(s1, t, w.request, w.stage), Waiting);
    case AtGlobal => assert GlobalTurn(s1, t, w.request, false) == (Park(s1, t, w.request, AtGlobal), Waiting);
  }

  lemma OthersOwn(s: State, e: Event, n: Name, t: Thread)
    requires Inv(s) && Enabled(s, e) && t != e.thread
    ensures Owned(Step(s, e).0.owners, n, t) <==> Owned(s.owners, n, t)
  {
    StepKeepsInv(s, e);
    DepthStep(s, e, n, t);
    hide Step;
  }

  lemma KeptStep(s: State, e: Event, ts: set<Thread>)
    requires Inv(s) && Enabled(s, e) && Quiet(e, ts) && forall t :: t in ts ==> Blocked(s, t)
    ensures Kept(s, Step(s, e).0, ts)
  {
    if e.thread in ts { BlockedResume(s, e.thread, e.now); }
    var s1 := Step(s, e).0;
    forall t | t in ts ensures SameWait(s.waits, s1.waits, t) {
      if t != e.thread { OthersWait(s, e, t); }
    }
    forall n, t | t in ts ensures Owned(s1.owners, n, t) <==> Owned(s.owners, n, t) {
      if t != e.thread { OthersOwn(s, e, n, t); }
    }
  }

  /** Some member owns a section, so nobody has the global lock. */
  lemma StuckOwner(s: State, ts: set<Thread>) returns (o: Thread)
    requires Inv(s) && Stuck(s, ts)
    ensures o in ts && OwnsSection(s.owners, o) && s.globalOwner == None
  {
    var t :| t in ts;
    o := NextAmong(s, ts, t);
    assert Blocked(s, o);
    WaitedFor(s, t, o);
    if !OwnsSection(s.owners, o) {
      var u := o;
      o := NextAmong(s, ts, u);
      assert Blocked(s, o);
      WaitedFor(s, u, o);
    }
    hide Stuck;
    hide WaitsFor;
  }

  lemma OwnsSame(s: State, s1: State, ts: set<Thread>, t: Thread)
    requires Kept(s, s1, ts) && t in ts
    ensures OwnsSection(s1.owners, t) <==> OwnsSection(s.owners, t)
  {
    if n :| n in s.owners && s.owners[n].thread == t { assert Owned(s.owners, n, t) && Owned(s1.owners, n, t); }
    if n :| n in s1.owners && s1.owners[n].thread == t { assert Owned(s1.owners, n, t) && Owned(s.owners, n, t); }
  }

  lemma GateStays(s: State, s1: State, ts: set<Thread>, t: Thread, u: Thread)
    requires Inv(s1) && s.globalOwner == None && s1.globalOwner == None
    requires Kept(s, s1, ts) && t in ts && u in ts && GateHolder(s, t, u)
    ensures GateHolder(s1, t, u)
  {
    OwnsSame(s, s1, ts, t);
    assert SameWait(s.waits, s1.waits, u);
    assert u in GlobalWaiters(s1.waits);
  }

  lemma OwnerStays(s: State, s1: State, ts: set<Thread>, t: Thread, u: Thread)
    requires Inv(s) && Inv(s1) && Kept(s, s1, ts) && t in ts && u in ts && WaitsForOwner(s, t, u)
    ensures WaitsForOwner(s1, t, u)
  {
    assert SameWait(s.waits, s1.waits, t);
    assert WellParked(s.lock, s.owners, t, s.waits[t]) && WellParked(s1.lock, s1.owners, t, s1.waits[t]);
    var n := s.waits[t].stage.name;
    assert Owned(s.owners, n, u) && Owned(s1.owners, n, u);
  }

  /** A member goes on waiting for another member, if the section it checks is still there. */
  lemma WaitStays(s: State, s1: State, ts: set<Thread>, t: Thread, u: Thread)
    requires Inv(s) && Inv(s1) && s.globalOwner == None && s1.globalOwner == None
    requires Kept(s, s1, ts) && t in ts && u in ts && Blocked(s, t) && WaitsFor(s, t, u)
    requires Checks(s, t) ==> s.waits[t].stage.name in s1.content.data
    ensures WaitsFor(s1, t, u) && Blocked(s1, t)
  {
    assert SameWait(s.waits, s1.waits, t);
    match s.waits[t].stage
    case AtEnter => GateStays(s, s1, ts, t, u);
    case AtGlobal => OwnsSame(s, s1, ts, u);
    case AtSection(_, _) =>
      if WaitsForOwner(s, t, u) { OwnerStays(s, s1, ts, t, u); } else { GateStays(s, s1, ts, t, u); }
  }

  ghost predicate ChecksFind(s: State, ts: set<Thread>, c: Content) {
    forall t :: t in ts && Checks(s, t) ==> s.waits[t].stage.name in c.data
  }

  lemma StaysBlocked(s: State, s1: State, ts: set<Thread>, t: Thread)
    requires Inv(s) && Inv(s1) && s.globalOwner == None && s1.globalOwner == None && Kept(s, s1, ts)
    requires Stuck(s, ts) && ChecksFind(s, ts, s1.content) && t in ts
    ensures Blocked(s1, t) && WaitsAmong(s1, t, ts)
  {
    var u := NextAmong(s, ts, t);
    assert Blocked(s, t);
    hide Inv;
    hide WaitsFor;
    hide Blocked;
    hide Kept;
    hide Stuck;
    WaitStays(s, s1, ts, t, u);
  }

  lemma AllBlocked(s: State, ts: set<Thread>)
    requires Stuck(s, ts)
    ensures forall t :: t in ts ==> Blocked(s, t)
    ensures ts != {}
  {
    hide Blocked;
  }

  lemma StuckAgain(s: State, s1: State, ts: set<Thread>)
    requires Inv(s) && Inv(s1) && s.globalOwner == None && s1.globalOwner == None && Kept(s, s1, ts)
    requires Stuck(s, ts) && ChecksFind(s, ts, s1.content)
    ensures Stuck(s1, ts)
  {
    hide Inv;
    hide Kept;
    hide Blocked;
    hide WaitsAmong;
    hide ChecksFind;
    forall t | t in ts ensures Blocked(s1, t) && WaitsAmong(s1, t, ts) { StaysBlocked(s, s1, ts, t); }
  }

  /** As long as the sections they check are there, stuck threads stay stuck. */
  lemma StuckStep(s: State, e: Event, ts: set<Thread>)
    requires Inv(s) && Enabled(s, e) && Quiet(e, ts) && Stuck(s, ts) && ChecksFind(s, ts, Step(s, e).0.content)
    ensures Stuck(Step(s, e).0, ts) && Kept(s, Step(s, e).0, ts) && Inv(Step(s, e).0)
      && Step(s, e).0.globalOwner == None
  {
    hide *;
    AllBlocked(s, ts);
    KeptStep(s, e, ts);
    StepKeepsInv(s, e);
    var o := StuckOwner(s, ts);
    NoGlobalOwner(s, Step(s, e).0, ts, o);
    StuckAgain(s, Step(s, e).0, ts);
  }

  lemma NoGlobalOwner(s: State, s1: State, ts: set<Thread>, o: Thread)
    requires Inv(s1) && Kept(s, s1, ts) && o in ts && OwnsSection(s.owners, o)
    ensures s1.globalOwner == None
  {
    OwnsSame(s, s1, ts, o);
    assert SameWait(s.waits, s1.waits, o);
  }

  lemma KeptOn(s: State, s1: State, s2: State, ts: set<Thread>)
    requires Kept(s, s1, ts) && Kept(s1, s2, ts)
    ensures Kept(s, s2, ts)
  {
    assert forall t :: t in ts ==> SameWait(s.waits, s1.waits, t) && SameWait(s1.waits, s2.waits, t);
    assert forall n, t :: t in ts ==> (Owned(s1.owners, n, t) <==> Owned(s.owners, n, t));
  }

  lemma NoneChecks(s: State, s1: State, ts: set<Thread>)
    requires Kept(s, s1, ts) && forall t :: t in ts ==> !Checks(s, t)
    ensures forall t :: t in ts ==> !Checks(s1, t)
  {
    assert forall t :: t in ts ==> SameWait(s.waits, s1.waits, t);
  }

  /** Over any run of any other threads, stuck threads of which none is a parked existence
      check stay where they are. */
  lemma {:induction false} StuckForGood(s: State, es: seq<Event>, ts: set<Thread>)
    requires Inv(s) && Run(s, es) && AllQuiet(es, ts) && Stuck(s, ts) && forall t :: t in ts ==> !Checks(s, t)
    ensures Stuck(After(s, es), ts) && Kept(s, After(s, es), ts)
    decreases es
  {
    hide Inv;
    hide Stuck;
    hide Checks;
    if es == [] {
      KeptSame(s, ts);
    } else {
      assert Quiet(es[0], ts);
      assert forall i :: 0 <= i < |es[1..]| ==> es[1..][i] == es[i + 1];
      StuckStep(s, es[0], ts);
      var s1 := Step(s, es[0]).0;
      NoneChecks(s, s1, ts);
      hide Kept;
      StuckForGood(s1, es[1..], ts);
      KeptOn(s, s1, After(s, es), ts);
    }
  }

  lemma KeptSame(s: State, ts: set<Thread>)
    requires Stuck(s, ts)
    ensures Kept(s, s, ts)
  {
    assert forall t :: t in ts ==> Blocked(s, t);
  }

  /** Each waits for a section another one owns, whether or not the section has data. */
  ghost predicate Deadlocked(s: State, ts: set<Thread>) {
    ts != {} && forall t {:trigger WaitsForMember(s, ts, t)} :: t in ts ==> WaitsForMember(s, ts, t)
  }

  predicate WaitsForMember(s: State, ts: set<Thread>, t: Thread) {
    && t in s.waits && s.waits[t].stage.AtSection? && !Checks(s, t)
    && s.waits[t].stage.name in s.owners && s.owners[s.waits[t].stage.name].thread in ts
  }

  lemma DeadlockedIsStuck(s: State, ts: set<Thread>)
    requires Inv(s) && Deadlocked(s, ts)
    ensures Stuck(s, ts) && forall t :: t in ts ==> !Checks(s, t)
  {
    forall t | t in ts ensures Blocked(s, t) && WaitsAmong(s, t, ts) && !Checks(s, t) {
      assert WaitsForMember(s, ts, t);
      assert WellParked(s.lock, s.owners, t, s.waits[t]);
      var u := s.owners[s.waits[t].stage.name].thread;
      assert WaitsForOwner(s, t, u) && WaitsFor(s, t, u);
    }
  }

  /** Over any run of any other threads, deadlocked threads stay deadlocked. */
  lemma DeadForGood(s: State, es: seq<Event>, ts: set<Thread>)
    requires Inv(s) && Run(s, es) && AllQuiet(es, ts) && Deadlocked(s, ts)
    ensures Deadlocked(After(s, es), ts)
  {
    hide Inv;
    hide Stuck;
    DeadlockedIsStuck(s, ts);
    StuckForGood(s, es, ts);
    var s1 := After(s, es);
    forall t | t in ts ensures WaitsForMember(s1, ts, t) {
      assert WaitsForMember(s, ts, t) && SameWait(s.waits, s1.waits, t);
      var n := s.waits[t].stage.name;
      assert Owned(s.owners, n, s.owners[n].thread);
    }
  }

  // ---- When an existence check cannot get away either ----

  /** A member waits for the global lock and every section owner is a member. */
  ghost predicate Sealed(s: State, ts: set<Thread>) {
    && Stuck(s, ts)
    && (exists g :: g in ts && AtGate(s, g))
    && (forall n :: n in s.owners ==> s.owners[n].thread in ts)
  }

  lemma ShutResume(s: State, e: Event)
    requires Inv(s) && Enabled(s, e) && e.Resume? && !CanEnter(s, e.thread) && !GlobalFree(s, e.thread)
      && s.globalOwner == None
    ensures Step(s, e).0.content == s.content && Step(s, e).0.owners == s.owners
  {
    hide Inv;
    hide Entered;
    var t := e.thread;
    var w, s1 := s.waits[t], s.(waits := s.waits - {t});
    assert GlobalFree(s1, t) == GlobalFree(s, t);
    hide GlobalFree;
    match w.stage
    case AtEnter => ShutEnter(s1, t, w.request, e.now, e.expired);
    case AtSection(n, id) => ShutTurn(s1, t, w.request, n, id, e.now, e.expired);
    case AtGlobal =>
  }

  lemma ShutEnter(s: State, t: Thread, r: Request, now: int, expired: bool)
    requires !CanEnter(s, t) && !GlobalFree(s, t) && s.globalOwner == None
    ensures EnterTurn(s, t, r, now, expired).0.content == s.content
      && EnterTurn(s, t, r, now, expired).0.owners == s.owners
  {
    hide SectionStart;
    hide DirectOp;
  }

  /** While the gate is shut, a thread without a section changes neither content nor owners. */
  lemma ShutStep(s: State, e: Event)
    requires Inv(s) && Enabled(s, e) && s.globalOwner == None && s.globalWaiters > 0
    requires !OwnsSection(s.owners, e.thread) && s.owners != map[]
    ensures Step(s, e).0.content == s.content && Step(s, e).0.owners == s.owners
  {
    assert !GlobalFree(s, e.thread) by { var n :| n in s.owners; }
    match e
    case Call(t, r, now, expired) => ShutEnter(s, t, r, now, expired);
    case Resume(_, _, _) => ShutResume(s, e);
    case Interrupt(t) =>
      if s.waits[t].stage.AtSection? {
        LeaveContent(s.(waits := s.waits - {t}), s.waits[t].stage.name);
      }
    case _ =>
  }

  lemma StuckFinds(s: State, ts: set<Thread>)
    requires Stuck(s, ts)
    ensures ChecksFind(s, ts, s.content)
  {
    assert forall t :: t in ts ==> Blocked(s, t);
  }

  lemma SealedSame(s: State, e: Event, ts: set<Thread>)
    requires Inv(s) && Enabled(s, e) && Quiet(e, ts) && Sealed(s, ts)
    ensures Step(s, e).0.content == s.content && Step(s, e).0.owners == s.owners
  {
    SealedGate(s, ts);
    AllBlocked(s, ts);
    if e.thread in ts {
      BlockedResume(s, e.thread, e.now);
    } else {
      assert !OwnsSection(s.owners, e.thread);
      hide Stuck;
      hide Step;
      ShutStep(s, e);
    }
  }

  lemma SealedGate(s: State, ts: set<Thread>)
    requires Inv(s) && Sealed(s, ts)
    ensures s.globalOwner == None && s.globalWaiters > 0 && s.owners != map[]
  {
    var o := StuckOwner(s, ts);
    hide Stuck;
    var g :| g in ts && AtGate(s, g);
    assert g in GlobalWaiters(s.waits);
  }

  lemma SealedAgain(s: State, s1: State, ts: set<Thread>)
    requires Sealed(s, ts) && Kept(s, s1, ts) && Stuck(s1, ts) && s1.owners == s.owners
    ensures Sealed(s1, ts)
  {
    hide Stuck;
    var g :| g in ts && AtGate(s, g);
    assert SameWait(s.waits, s1.waits, g) && AtGate(s1, g);
  }

  lemma SealedStep(s: State, e: Event, ts: set<Thread>)
    requires Inv(s) && Enabled(s, e) && Quiet(e, ts) && Sealed(s, ts)
    ensures Sealed(Step(s, e).0, ts) && Kept(s, Step(s, e).0, ts)
  {
    hide *;
    SealedIsStuck(s, ts);
    SealedSame(s, e, ts);
    StuckFinds(s, ts);
    StuckStep(s, e, ts);
    SealedAgain(s, Step(s, e).0, ts);
  }

  lemma SealedIsStuck(s: State, ts: set<Thread>)
    requires Sealed(s, ts)
    ensures Stuck(s, ts)
  {
  }

  lemma {:induction false} SealedForGood(s: State, es: seq<Event>, ts: set<Thread>)
    requires Inv(s) && Run(s, es) && AllQuiet(es, ts) && Sealed(s, ts)
    ensures Sealed(After(s, es), ts) && Kept(s, After(s, es), ts)
    decreases es
  {
    hide Inv;
    hide Stuck;
    if es == [] {
      KeptSame(s, ts);
    } else {
      hide Sealed;
      hide Step;
      assert Quiet(es[0], ts);
      assert forall i :: 0 <= i < |es[1..]| ==> es[1..][i] == es[i + 1];
      StepKeepsInv(s, es[0]);
      SealedStep(s, es[0], ts);
      hide Kept;
      SealedForGood(Step(s, es[0]).0, es[1..], ts);
      KeptOn(s, Step(s, es[0]).0, After(s, es), ts);
    }
  }

  // ---- When one of them gets away ----

  lemma DeleteStep(s: State, x: Thread, n: Name)
    requires Inv(s) && x !in s.waits && CanEnter(s, x)
    ensures var e := Call(x, Data(Delete, n, false), 0, false);
            Enabled(s, e) && n !in Step(s, e).0.content.data && Step(s, e).0.waits == NotifyAll(s).waits
  {
    hide Inv;
    hide SectionStart;
    hide GlobalTurn;
    assert DirectOp(s, Delete, n, 0).waits == NotifyAll(s).waits;
  }

  lemma MissingStep(s: State, t: Thread)
    requires Checks(s, t) && s.waits[t].stage.name !in s.content.data && s.waits[t].notified
    ensures Enabled(s, Resume(t, 0, false)) && t !in Step(s, Resume(t, 0, false)).0.waits
  {
    hide SectionGranted;
    assert Leave(s.(waits := s.waits - {t}), s.waits[t].stage.name).waits == s.waits - {t};
  }

  /** A thread that may enter deletes the section, and the check is answered. */
  lemma DeleteAndAnswer(s: State, es: seq<Event>, ts: set<Thread>, x: Thread, t: Thread) returns (es1: seq<Event>)
    requires Run(s, es) && AllQuiet(es, ts) && t in ts && x !in ts
    requires Inv(After(s, es)) && x !in After(s, es).waits && CanEnter(After(s, es), x) && Checks(After(s, es), t)
    ensures Run(s, es1) && AllQuiet(es1, ts) && t !in After(s, es1).waits
  {
    var s1 := After(s, es);
    var n := s1.waits[t].stage.name;
    var delete := Call(x, Data(Delete, n, false), 0, false);
    DeleteStep(s1, x, n);
    var s2 := Step(s1, delete).0;
    assert Checks(s2, t) && s2.waits[t].notified;
    hide Inv;
    hide Checks;
    MissingStep(s2, t);
    hide Step;
    hide Enabled;
    RunsOn(s, es, delete);
    RunsOn(s, es + [delete], Resume(t, 0, false));
    es1 := es + [delete] + [Resume(t, 0, false)];
  }

  lemma InterruptStep(s: State, x: Thread)
    requires x in s.waits
    ensures var s1 := Step(s, Interrupt(x)).0;
            && Enabled(s, Interrupt(x)) && s1.content == s.content && s1.owners == s.owners && x !in s1.waits
            && (AtGate(s, x) && s.globalWaiters > 0 ==> s1.globalWaiters == s.globalWaiters - 1)
  {
    DepthInterrupt(s, x);
    if s.waits[x].stage.AtSection? {
      LeaveContent(s.(waits := s.waits - {x}), s.waits[x].stage.name);
    }
  }

  /** Threads outside can give up their wait for the global lock, all of them. */
  lemma {:induction false} OutsidersGiveUp(s: State, ts: set<Thread>) returns (es: seq<Event>)
    requires Inv(s) && Stuck(s, ts) && forall g :: g in ts ==> !AtGate(s, g)
    ensures Run(s, es) && AllQuiet(es, ts) && Inv(After(s, es)) && Kept(s, After(s, es), ts)
    ensures After(s, es).globalWaiters == 0 && After(s, es).globalOwner == None
    decreases s.globalWaiters
  {
    hide Stuck;
    if s.globalWaiters == 0 {
      es := [];
      KeptSame(s, ts);
      var o := StuckOwner(s, ts);
    } else {
      var g := SomeGateWaiter(s);
      hide Inv;
      var e := Interrupt(g);
      InterruptStep(s, g);
      StuckFinds(s, ts);
      StuckStep(s, e, ts);
      var s1 := Step(s, e).0;
      hide Step;
      GateSame(s, s1, ts);
      hide Kept;
      es := OutsidersGiveUp(s1, ts);
      KeptOn(s, s1, After(s1, es), ts);
      assert ([e] + es)[1..] == es;
      es := [e] + es;
    }
  }

  lemma SomeGateWaiter(s: State) returns (g: Thread)
    requires Inv(s) && s.globalWaiters > 0
    ensures AtGate(s, g)
  {
    assert |GlobalWaiters(s.waits)| > 0;
    g :| g in GlobalWaiters(s.waits);
  }

  lemma GateSame(s: State, s1: State, ts: set<Thread>)
    requires Kept(s, s1, ts)
    ensures forall g :: g in ts ==> (AtGate(s1, g) <==> AtGate(s, g))
    ensures forall g :: g in ts ==> (Checks(s1, g) <==> Checks(s, g))
  {
    assert forall g :: g in ts ==> SameWait(s.waits, s1.waits, g);
  }

  lemma {:induction false} Fresh(ts: set<Thread>) returns (x: Thread)
    ensures forall t :: t in ts ==> t < x
    decreases |ts|
  {
    x := 0;
    if ts != {} {
      var t :| t in ts;
      var rest := ts - {t};
      var y := Fresh(rest);
      x := if y <= t then t + 1 else y;
      forall u | u in ts ensures u < x { assert u == t || u in rest; }
    }
  }

  lemma FreshOutsider(s: State, ts: set<Thread>) returns (x: Thread)
    ensures x !in s.waits && x !in ts
  {
    x := Fresh(s.waits.Keys + ts);
  }

  /** With no member waiting for the global lock, any thread can come in and delete. */
  lemma AnsweredFromOutside(s: State, ts: set<Thread>, t: Thread) returns (es: seq<Event>)
    requires Inv(s) && Stuck(s, ts) && t in ts && Checks(s, t) && forall g :: g in ts ==> !AtGate(s, g)
    ensures Run(s, es) && AllQuiet(es, ts) && t !in After(s, es).waits
  {
    hide *;
    es := OutsidersGiveUp(s, ts);
    var s1 := After(s, es);
    GateSame(s, s1, ts);
    var x := FreshOutsider(s1, ts);
    assert CanEnter(s1, x) by { OpenGate(s1, x); }
    es := DeleteAndAnswer(s, es, ts, x, t);
  }

  lemma OpenGate(s: State, x: Thread)
    requires s.globalOwner == None && (s.globalWaiters == 0 || OwnsSection(s.owners, x))
    ensures CanEnter(s, x)
  {
  }

  /** A section owner outside passes the gate, after giving up what it waits for. */
  lemma AnsweredByOwner(s: State, ts: set<Thread>, t: Thread, x: Thread) returns (es: seq<Event>)
    requires Inv(s) && Stuck(s, ts) && t in ts && Checks(s, t) && x !in ts && OwnsSection(s.owners, x)
    ensures Run(s, es) && AllQuiet(es, ts) && t !in After(s, es).waits
  {
    var e := Interrupt(x);
    assert Quiet(e, ts);
    hide *;
    var o := StuckOwner(s, ts);
    OpenGate(s, x);
    if x !in s.waits {
      RunOfNone(s, ts);
      es := DeleteAndAnswer(s, [], ts, x, t);
    } else {
      InterruptStep(s, x);
      StuckFinds(s, ts);
      StuckStep(s, e, ts);
      var s1 := Step(s, e).0;
      GateSame(s, s1, ts);
      OpenGate(s1, x);
      RunOfOne(s, e, ts);
      es := DeleteAndAnswer(s, [e], ts, x, t);
    }
  }

  lemma RunOfNone(s: State, ts: set<Thread>)
    ensures Run(s, []) && After(s, []) == s && AllQuiet([], ts)
  {
  }

  lemma RunOfOne(s: State, e: Event, ts: set<Thread>)
    requires Enabled(s, e) && Quiet(e, ts)
    ensures Run(s, [e]) && After(s, [e]) == Step(s, e).0 && AllQuiet([e], ts)
  {
    hide Step;
    hide Enabled;
    assert [e][1..] == [];
    assert After(Step(s, e).0, []) == Step(s, e).0;
  }

  /** Some member leaves its wait in a run without time-outs and interrupts of members. */
  ghost predicate SomeoneGetsAway(s: State, ts: set<Thread>) {
    exists es :: Run(s, es) && AllQuiet(es, ts) && exists t :: t in ts && t !in After(s, es).waits
  }

  /** A section of the store can still be deleted: no member waits for the global lock, or a
      thread outside owns a section and so passes the gate. */
  ghost predicate DeletionPossible(s: State, ts: set<Thread>) {
    (forall g :: g in ts ==> !AtGate(s, g)) || exists n :: n in s.owners && s.owners[n].thread !in ts
  }

  /** Stuck threads stay stuck for good, except that a parked existence check gets away when
      some other thread deletes its section.  This is exactly when one can. */
  lemma GetsAwayIff(s: State, ts: set<Thread>)
    requires Inv(s) && Stuck(s, ts)
    ensures SomeoneGetsAway(s, ts) <==> (exists t :: t in ts && Checks(s, t)) && DeletionPossible(s, ts)
  {
    hide Inv;
    hide Stuck;
    hide Checks;
    hide AllQuiet;
    hide AtGate;
    hide Run;
    hide After;
    if t :| t in ts && Checks(s, t) {
      if forall g :: g in ts ==> !AtGate(s, g) {
        var es := AnsweredFromOutside(s, ts, t);
      } else if n :| n in s.owners && s.owners[n].thread !in ts {
        var es := AnsweredByOwner(s, ts, t, s.owners[n].thread);
      } else {
        forall es | Run(s, es) && AllQuiet(es, ts) ensures forall u :: u in ts ==> u in After(s, es).waits {
          SealedForGood(s, es, ts);
          KeptParked(s, After(s, es), ts);
        }
      }
    } else {
      forall es | Run(s, es) && AllQuiet(es, ts) ensures forall u :: u in ts ==> u in After(s, es).waits {
        StuckForGood(s, es, ts);
        KeptParked(s, After(s, es), ts);
      }
    }
  }

  lemma KeptParked(s: State, s1: State, ts: set<Thread>)
    requires Kept(s, s1, ts)
    ensures forall t :: t in ts ==> t in s1.waits
  {
    assert forall t :: t in ts ==> SameWait(s.waits, s1.waits, t);
  }

  // ---- A check that gets away ----

  const FIRST := Call(1, Acquire("a", false, false), 0, false)
  const SECOND := Call(2, Acquire("b", false, false), 0, false)
  const CROSS := Call(2, Acquire("a", false, false), 0, false)
  const LOOK := Call(1, Acquire("b", true, false), 0, false)
  const REMOVE := Call(3, Data(Delete, "b", false), 0, false)

  const BOTH := Content(map["a" := map[], "b" := map[]], map["a" := 0, "b" := 0])

  /** Thread 1 owns "a" and thread 2 owns "b". */
  function Two(c: Content, waiters: map<Name, nat>, waits: map<Thread, Wait>): State {
    State(c, map["a" := 0, "b" := 1], map[0 := Owner(1, 1), 1 := Owner(2, 1)], 2,
          map["a" := Owner(1, 1), "b" := Owner(2, 1)], waiters, None, 0, 0, waits)
  }

  function Crossed(notified: bool): map<Thread, Wait> { map[2 := Wait(CROSS.request, AtSection("a", 0), notified)] }

  function Circle(notified: bool): map<Thread, Wait> {
    map[1 := Wait(LOOK.request, AtSection("b", 1), notified), 2 := Wait(CROSS.request, AtSection("a", 0), notified)]
  }

  lemma FirstStep()
    ensures Enabled(Init, FIRST)
    ensures Step(Init, FIRST).0 == State(Content(map["a" := map[]], map["a" := 0]), map["a" := 0],
                                         map[0 := Owner(1, 1)], 1,
                                         map["a" := Owner(1, 1)], map["a" := 0], None, 0, 0, map[])
  {
  }

  lemma SecondStep()
    ensures var s := Step(Init, FIRST).0;
            Enabled(s, SECOND) && Step(s, SECOND).0 == Two(BOTH, map["a" := 0, "b" := 0], map[])
  {
    FirstStep();
  }

  lemma CrossStep()
    ensures var s := Two(BOTH, map["a" := 0, "b" := 0], map[]);
            Enabled(s, CROSS) && Step(s, CROSS).0 == Two(BOTH, map["a" := 1, "b" := 0], Crossed(false))
  {
  }

  lemma LookStep()
    ensures var s := Two(BOTH, map["a" := 1, "b" := 0], Crossed(false));
            Enabled(s, LOOK) && Step(s, LOOK).0 == Two(BOTH, map["a" := 1, "b" := 1], Circle(false))
  {
  }

  /** The two threads wait for each other; a third deletes "b"; and thread 1, which checks for
      "b", goes on, while thread 2 still waits. */
  lemma CheckGetsAway()
    ensures var es := [FIRST] + [SECOND] + [CROSS] + [LOOK];
            && Run(Init, es) && Stuck(After(Init, es), {1, 2})
            && Run(Init, es + [REMOVE] + [Resume(1, 0, false)])
            && After(Init, es + [REMOVE] + [Resume(1, 0, false)]).waits.Keys == {2}
  {
    hide Enabled;
    hide Step;
    FirstStep();
    RunsOn(Init, [], FIRST);
    assert [] + [FIRST] == [FIRST];
    SecondStep();
    RunsOn(Init, [FIRST], SECOND);
    CrossStep();
    RunsOn(Init, [FIRST] + [SECOND], CROSS);
    LookStep();
    RunsOn(Init, [FIRST] + [SECOND] + [CROSS], LOOK);
    var es := [FIRST] + [SECOND] + [CROSS] + [LOOK];
    CircleIsStuck();
    RemoveStep();
    RunsOn(Init, es, REMOVE);
    AnswerStep();
    RunsOn(Init, es + [REMOVE], Resume(1, 0, false));
  }

  lemma CircleIsStuck()
    ensures Stuck(Two(BOTH, map["a" := 1, "b" := 1], Circle(false)), {1, 2})
  {
    var s := Two(BOTH, map["a" := 1, "b" := 1], Circle(false));
    assert WaitsForOwner(s, 1, 2) && WaitsForOwner(s, 2, 1);
    assert WaitsAmong(s, 1, {1, 2}) by { assert WaitsFor(s, 1, 2); }
    assert WaitsAmong(s, 2, {1, 2}) by { assert WaitsFor(s, 2, 1); }
  }

  lemma RemoveStep()
    ensures var s := Two(BOTH, map["a" := 1, "b" := 1], Circle(false));
            && Enabled(s, REMOVE)
            && Step(s, REMOVE).0
              == Two(Content(map["a" := map[]], map["a" := 0]), map["a" := 1, "b" := 1], Circle(true))
  {
    var s := Two(BOTH, map["a" := 1, "b" := 1], Circle(false));
    hide SectionStart;
    assert NotifyAll(s).waits == Circle(true);
    assert BOTH.data - {"b"} == map["a" := map[]] && BOTH.updated - {"b"} == map["a" := 0];
  }

  lemma AnswerStep()
    ensures var s := Two(Content(map["a" := map[]], map["a" := 0]), map["a" := 1, "b" := 1], Circle(true));
            && Enabled(s, Resume(1, 0, false)) && Step(s, Resume(1, 0, false)).1 == Missing
            && Step(s, Resume(1, 0, false)).0.waits.Keys == {2}
  {
    hide SectionGranted;
    var s := Two(Content(map["a" := map[]], map["a" := 0]), map["a" := 1, "b" := 1], Circle(true));
    assert s.waits.Keys - {1} == {2};
  }
}
