/**
  Transaction blocks over one SQLite connection, sqlite_transactions.py.

  A thread enters and leaves blocks in a nested way, as `with` statements do.  What the driver
  answers, and whether the connection's driver was replaced, is part of the events: any answer
  is possible at any time.  An exception out of BEGIN or COMMIT counts as a failure
  whatever its class, since the source treats them alike.
 */
module Sqlite {
  import opened Wrappers

  type Thread = nat

  /** How a ROLLBACK ends: well, with an Exception, or with another BaseException such as
      KeyboardInterrupt, which the handler around it does not catch. */
  datatype Answer = Done | Failed | Interrupted

  /** A statement sent to the driver, and whether it succeeded. */
  datatype Statement = Begin(immediate: bool, ok: bool) | Commit(ok: bool) | Rollback(answer: Answer)

  /** The blocks entered and not left, outermost first, all of the lock's owner; whether each
      is a read snapshot. */
  datatype State = State(owner: Option<Thread>, blocks: seq<bool>, active: bool, readOnly: bool, failed: bool,
                         log: seq<Statement>)

  datatype Event =
    | Enter(thread: Thread, readOnly: bool, changed: bool, beginOk: bool)
    | Leave(thread: Thread, raised: bool, changed: bool, commitOk: bool, rollback: Answer)

  const INITIAL := State(None, [], false, false, false, [])

  /** A thread enters when the lock is free or its own; only the owner leaves. */
  predicate Enabled(s: State, e: Event) {
    match e
    case Enter(t, _, _, _) => s.owner == None || s.owner == Some(t)
    case Leave(t, _, _, _, _) => s.owner == Some(t) && s.blocks != []
  }

  /** The entry is refused before anything is sent. */
  predicate Refused(s: State, e: Event)
    requires e.Enter?
  {
    s.failed || e.changed || (s.active && !e.readOnly && s.readOnly)
  }

  /** The statements that end an outermost block. */
  function Ending(e: Event): seq<Statement>
    requires e.Leave?
  {
    if e.raised || e.changed then [Rollback(e.rollback)]
    else if e.commitOk then [Commit(true)]
    else [Commit(false), Rollback(e.rollback)]
  }

  /** The outermost block is rolled back and the ROLLBACK ends in this way. */
  predicate Cleanup(e: Event, answer: Answer)
    requires e.Leave?
  {
    (e.raised || e.changed || !e.commitOk) && e.rollback == answer
  }

  function Step(s: State, e: Event): State
    requires Enabled(s, e)
  {
    match e
    case Enter(t, readOnly, changed, beginOk) =>
      if Refused(s, e) then s
      else if s.active then s.(blocks := s.blocks + [readOnly])
      else if !beginOk then s.(log := s.log + [Begin(!readOnly, false)])
      else s.(owner := Some(t), blocks := [readOnly], active := true, readOnly := readOnly,
              log := s.log + [Begin(!readOnly, true)])
    case Leave(_, _, _, _, _) =>
      if |s.blocks| > 1 then s.(blocks := s.blocks[..|s.blocks| - 1])
      else State(None, [], false, false, s.failed || Cleanup(e, Failed), s.log + Ending(e))
  }

  predicate CanRun(s: State, es: seq<Event>)
    decreases |es|
  {
    es == [] || (Enabled(s, es[0]) && CanRun(Step(s, es[0]), es[1..]))
  }

  function Run(s: State, es: seq<Event>): State
    requires CanRun(s, es)
    decreases |es|
  {
    if es == [] then s else Run(Step(s, es[0]), es[1..])
  }

  // ---- What the driver sees ----

  /** One finished attempt at an outermost block. */
  predicate Attempt(a: seq<Statement>) {
    || (|a| == 1 && a[0].Begin? && !a[0].ok)
    || (|a| == 2 && a[0].Begin? && a[0].ok && (a[1] == Commit(true) || a[1].Rollback?))
    || (|a| == 3 && a[0].Begin? && a[0].ok && a[1] == Commit(false) && a[2].Rollback?)
  }

  function Flat(attempts: seq<seq<Statement>>): seq<Statement> {
    if attempts == [] then [] else attempts[0] + Flat(attempts[1..])
  }

  predicate Broken(a: seq<Statement>) { a != [] && a[|a| - 1] == Rollback(Failed) }

  /** The log is a sequence of attempts; only the last may end in a failed rollback. */
  predicate Explains(attempts: seq<seq<Statement>>, log: seq<Statement>) {
    && log == Flat(attempts)
    && (forall i :: 0 <= i < |attempts| ==> Attempt(attempts[i]))
    && (forall i :: 0 <= i < |attempts| - 1 ==> !Broken(attempts[i]))
  }

  predicate LastBroken(attempts: seq<seq<Statement>>) { attempts != [] && Broken(attempts[|attempts| - 1]) }

  /** The attempts of the log when no block is open, and before the open one otherwise. */
  ghost predicate Tells(s: State, attempts: seq<seq<Statement>>) {
    && (if s.active then s.log == Flat(attempts) + [Begin(!s.readOnly, true)] && Explains(attempts, Flat(attempts))
        else Explains(attempts, s.log))
    && (s.failed <==> LastBroken(attempts))
  }

  /** The flags, the lock and the open blocks agree; in a read snapshot all blocks only read. */
  ghost predicate Coherent(s: State) {
    && (s.active <==> s.blocks != []) && (s.active <==> s.owner.Some?)
    && (s.active ==> !s.failed && s.blocks[0] == s.readOnly)
    && (s.readOnly ==> s.active && forall i :: 0 <= i < |s.blocks| ==> s.blocks[i])
  }

  lemma {:induction false} FlatAppend(attempts: seq<seq<Statement>>, a: seq<Statement>)
    ensures Flat(attempts + [a]) == Flat(attempts) + a
  {
    if attempts == [] {
      assert [] + [a] == [a] && [a][1..] == [];
      assert Flat([a]) == a + Flat([a][1..]);
    } else {
      assert (attempts + [a])[1..] == attempts[1..] + [a];
      FlatAppend(attempts[1..], a);
    }
  }

  lemma AddAttempt(attempts: seq<seq<Statement>>, log: seq<Statement>, a: seq<Statement>)
    requires Explains(attempts, log) && !LastBroken(attempts) && Attempt(a)
    ensures Explains(attempts + [a], log + a) && (LastBroken(attempts + [a]) <==> Broken(a))
  {
    hide Attempt;
    hide Broken;
    FlatAppend(attempts, a);
    var more := attempts + [a];
    assert forall i :: 0 <= i < |attempts| ==> more[i] == attempts[i];
  }

  lemma StepCoherent(s: State, e: Event)
    requires Coherent(s) && Enabled(s, e)
    ensures Coherent(Step(s, e))
  {
  }

  lemma StepTells(s: State, e: Event, attempts: seq<seq<Statement>>) returns (after: seq<seq<Statement>>)
    requires Coherent(s) && Enabled(s, e) && Tells(s, attempts)
    ensures Tells(Step(s, e), after) && attempts <= after
  {
    hide Explains;
    after := attempts;
    match e
    case Enter(t, readOnly, _, beginOk) =>
      if !Refused(s, e) && !s.active {
        if !beginOk {
          AddAttempt(attempts, s.log, [Begin(!readOnly, false)]);
          after := attempts + [[Begin(!readOnly, false)]];
        } else {
          assert s.log == Flat(attempts) by { Flattened(attempts, s.log); }
        }
      }
    case Leave(_, _, _, _, _) =>
      if |s.blocks| == 1 {
        var a := [Begin(!s.readOnly, true)] + Ending(e);
        assert s.log + Ending(e) == Flat(attempts) + a;
        AddAttempt(attempts, Flat(attempts), a);
        after := attempts + [a];
      }
  }

  lemma Flattened(attempts: seq<seq<Statement>>, log: seq<Statement>)
    requires Explains(attempts, log)
    ensures log == Flat(attempts)
  {
  }

  /** Over every run the driver sees attempts at outermost blocks and nothing else: one BEGIN
      each, then one successful COMMIT or one ROLLBACK; nothing after a failed one. */
  lemma {:induction false} Reachable(s: State, es: seq<Event>, attempts: seq<seq<Statement>>)
      returns (after: seq<seq<Statement>>)
    requires Coherent(s) && Tells(s, attempts) && CanRun(s, es)
    ensures Coherent(Run(s, es)) && Tells(Run(s, es), after) && attempts <= after
    decreases |es|
  {
    hide Coherent;
    hide Tells;
    if es == [] {
      after := attempts;
    } else {
      StepCoherent(s, es[0]);
      var next := StepTells(s, es[0], attempts);
      after := Reachable(Step(s, es[0]), es[1..], next);
    }
  }

  lemma FromTheStart(es: seq<Event>) returns (attempts: seq<seq<Statement>>)
    requires CanRun(INITIAL, es)
    ensures Coherent(Run(INITIAL, es)) && Tells(Run(INITIAL, es), attempts)
  {
    attempts := Reachable(INITIAL, es, []);
  }

  /** After a failed rollback every later block is refused and nothing is sent any more. */
  lemma {:induction false} FailedForGood(s: State, es: seq<Event>)
    requires Coherent(s) && s.failed && CanRun(s, es)
    ensures Run(s, es) == s
    decreases |es|
  {
    if es != [] { FailedForGood(Step(s, es[0]), es[1..]); }
  }

  /** Nothing more is ever sent. */
  ghost predicate Silent(s: State) { forall es :: CanRun(s, es) ==> Run(s, es).log == s.log }

  /** The domain is closed by a failed rollback of the outermost block and by nothing else. */
  lemma SilentIff(s: State, e: Event)
    requires Coherent(s) && |s.blocks| == 1 && e.Leave? && Enabled(s, e)
    ensures Silent(Step(s, e)) <==> Cleanup(e, Failed)
  {
    var s1 := Step(s, e);
    if Cleanup(e, Failed) {
      forall es | CanRun(s1, es) ensures Run(s1, es).log == s1.log { FailedForGood(s1, es); }
    } else {
      var again := Enter(0, false, false, false);
      RunFirst(s1, again, []);
      assert Run(s1, [again]) == Step(s1, again);
    }
  }

  /** After an interrupted rollback the flags are those of a fresh object, and the next block
      sends a BEGIN. */
  lemma InterruptedRollback(t: Thread)
    ensures var es := [Enter(t, false, false, true), Leave(t, true, false, true, Interrupted),
                       Enter(t, false, false, true)];
            && CanRun(INITIAL, es)
            && Run(INITIAL, es) == State(Some(t), [false], true, false, false,
                                         [Begin(true, true), Rollback(Interrupted), Begin(true, true)])
  {
    var enter, leave := Enter(t, false, false, true), Leave(t, true, false, true, Interrupted);
    var s1 := State(Some(t), [false], true, false, false, [Begin(true, true)]);
    var s2 := State(None, [], false, false, false, [Begin(true, true), Rollback(Interrupted)]);
    var s3 := State(Some(t), [false], true, false, false, s2.log + [Begin(true, true)]);
    assert Step(INITIAL, enter) == s1 && Step(s1, leave) == s2 && Step(s2, enter) == s3;
    RunFirst(s2, enter, []);
    RunFirst(s1, leave, [enter]);
    RunFirst(INITIAL, enter, [leave, enter]);
  }

  lemma RunFirst(s: State, e: Event, es: seq<Event>)
    requires Enabled(s, e) && CanRun(Step(s, e), es)
    ensures CanRun(s, [e] + es) && Run(s, [e] + es) == Run(Step(s, e), es)
  {
    assert ([e] + es)[1..] == es;
  }

  // ---- What is sent ----

  /** The lock lets a thread in if it is free or the thread's own; blocks are left by its owner. */
  lemma MayEnter(s: State, t: Thread, read: bool, raised: bool, changed: bool, ok: bool, rollback: Answer)
    requires Coherent(s)
    ensures Enabled(s, Enter(t, read, changed, ok)) <==> forall u :: s.owner == Some(u) ==> u == t
    ensures Enabled(s, Leave(t, raised, changed, ok, rollback)) <==> s.owner == Some(t)
  {
    if s.owner.Some? { assert s.owner == Some(s.owner.value); }
  }

  /** A failed domain, a changed connection and a write inside a snapshot are refused; a nested
      block sends nothing; an outermost one sends BEGIN, or BEGIN IMMEDIATE to write. */
  lemma EnterIs(s: State, t: Thread, readOnly: bool, changed: bool, ok: bool)
    requires Coherent(s) && Enabled(s, Enter(t, readOnly, changed, ok))
    ensures var s1 := Step(s, Enter(t, readOnly, changed, ok));
            if s.failed || changed || (s.blocks != [] && s.blocks[0] && !readOnly) then s1 == s
            else if s.blocks != [] then s1 == s.(blocks := s.blocks + [readOnly])
            else && s1.log == s.log + [Begin(!readOnly, ok)] && s1.failed == s.failed
                 && s1.blocks == (if ok then [readOnly] else []) && s1.owner == (if ok then Some(t) else None)
  {
  }

  /** Leaving a nested block sends nothing; leaving the outermost one sends COMMIT if the body has
      not raised and the connection is the same, and ROLLBACK if there is no COMMIT that succeeds. */
  lemma LeaveIs(s: State, t: Thread, raised: bool, changed: bool, ok: bool, rollback: Answer)
    requires Coherent(s) && Enabled(s, Leave(t, raised, changed, ok, rollback))
    ensures var s1 := Step(s, Leave(t, raised, changed, ok, rollback));
            var commit, good := !raised && !changed, !raised && !changed && ok;
            if |s.blocks| > 1 then s1 == s.(blocks := s.blocks[..|s.blocks| - 1])
            else && s1.log ==
                    s.log + (if commit then [Commit(ok)] else []) + (if good then [] else [Rollback(rollback)])
                 && s1.blocks == [] && s1.owner == None && !s1.active && !s1.readOnly
                 && (s1.failed <==> !good && rollback == Failed)
  {
    assert s.log + [] == s.log;
  }

  // ---- The object ----

  datatype Outcome =
    | Entered | Left | FailedDomain | ChangedConnection | WriteInSnapshot | DriverError | BodyError | BrokenOff

  class SQLiteTransactions {
    var owner: Option<Thread>
    var blocks: seq<bool>
    var active: bool
    var readOnly: bool
    var failed: bool
    var log: seq<Statement>

    constructor ()
      ensures Abstract() == INITIAL
    {
      owner, blocks, active, readOnly, failed, log := None, [], false, false, false, [];
    }

    ghost function Abstract(): State
      reads this
    {
      State(owner, blocks, active, readOnly, failed, log)
    }

    method Execute(statement: Statement)
      modifies `log
      ensures log == old(log) + [statement]
    {
      log := log + [statement];
    }

    /** The first half of _transaction, up to its yield. */
    method EnterBlock(thread: Thread, read: bool, changed: bool, beginOk: bool) returns (r: Outcome)
      requires Coherent(Abstract()) && Enabled(Abstract(), Enter(thread, read, changed, beginOk))
      modifies this
      ensures Abstract() == Step(old(Abstract()), Enter(thread, read, changed, beginOk))
      ensures r == Entered <==> |blocks| == old(|blocks|) + 1
      ensures r == FailedDomain <==> old(failed)
      ensures r == ChangedConnection <==> !old(failed) && changed
      ensures r == WriteInSnapshot <==> !old(failed) && !changed && old(blocks) != [] && old(blocks)[0] && !read
      ensures r == DriverError <==> !old(failed) && !changed && old(blocks) == [] && !beginOk
      ensures r in {Entered, FailedDomain, ChangedConnection, WriteInSnapshot, DriverError}
      ensures r == DriverError ==> log == old(log) + [Begin(!read, false)] && !active
    {
      if failed { return FailedDomain; }
      if changed { return ChangedConnection; }
      if active {
        if !read && readOnly { return WriteInSnapshot; }
        blocks := blocks + [read];
        return Entered;
      }
      Execute(Begin(!read, beginOk));
      if !beginOk { return DriverError; }
      owner, blocks := Some(thread), [read];
      active := true;
      readOnly := read;
      r := Entered;
    }

    /** The second half, after the body of the block. */
    method LeaveBlock(thread: Thread, raised: bool, changed: bool, commitOk: bool, rollback: Answer)
        returns (r: Outcome)
      requires Coherent(Abstract()) && Enabled(Abstract(), Leave(thread, raised, changed, commitOk, rollback))
      modifies this
      ensures Abstract() == Step(old(Abstract()), Leave(thread, raised, changed, commitOk, rollback))
      ensures r == BrokenOff
        <==> old(|blocks|) == 1 && Cleanup(Leave(thread, raised, changed, commitOk, rollback), Interrupted)
      ensures r == BodyError <==> raised && r != BrokenOff
      ensures r == ChangedConnection <==> old(|blocks|) == 1 && !raised && changed && r != BrokenOff
      ensures r == DriverError <==> old(|blocks|) == 1 && !raised && !changed && !commitOk && r != BrokenOff
      ensures r == Left <==> !raised && (old(|blocks|) > 1 || (!changed && commitOk))
      ensures r == BrokenOff ==> !failed && !active && owner == None
      ensures r == Left && old(|blocks|) == 1 ==> log == old(log) + [Commit(true)]
    {
      if |blocks| > 1 {
        blocks := blocks[..|blocks| - 1];
        return if raised then BodyError else Left;
      }
      r := Left;
      if raised {
        r := BodyError;
      } else if changed {
        r := ChangedConnection;
      } else {
        Execute(Commit(commitOk));
        if !commitOk { r := DriverError; }
      }
      if r != Left {
        Execute(Rollback(rollback));
        if rollback == Failed { failed := true; }
        if rollback == Interrupted { r := BrokenOff; }
      }
      active, readOnly := false, false;
      owner, blocks := None, [];
    }
  }
}
